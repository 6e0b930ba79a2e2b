/**
 * The browser and mediasoup-client objects the voice session holds: audio
 * tracks, the captured media stream, the mediasoup device, transports, the
 * local producer and the remote consumers. Only the state the session reads or
 * writes is kept: a track's `enabled` flag and whether it was stopped, a
 * producer's current track, whether a producer or consumer was closed.
 */
module Media {

  datatype MediaKind = Audio | Video

  /** Where a track's media comes from. */
  datatype Source =
    | DefaultMicrophone                   // getUserMedia({ audio: true })
    | Microphone(deviceId: string)        // getUserMedia({ audio: { deviceId: { exact } } })
    | RemoteProducer(producerId: string)  // the track of a consumer

  datatype Direction = Send | Recv

  /** A `MediaStreamTrack`: `enabled` silences it, `stop()` releases the hardware. */
  class Track {
    const kind: MediaKind
    const source: Source
    var enabled: bool
    var stopped: bool

    constructor (kind: MediaKind, source: Source)
      ensures this.kind == kind && this.source == source
      ensures enabled && !stopped
    {
      this.kind := kind;
      this.source := source;
      enabled := true;
      stopped := false;
    }
  }

  /** No track occurs twice. */
  predicate Distinct(ts: seq<Track>) {
    forall i, j :: 0 <= i < j < |ts| ==> ts[i] != ts[j]
  }

  /** `stream.getAudioTracks()`: the audio tracks of `ts`, in order. */
  function AudioTracks(ts: seq<Track>): (r: seq<Track>)
    ensures |r| <= |ts|
    ensures forall t | t in r :: t in ts && t.kind == Audio
    ensures forall t | t in ts && t.kind == Audio :: t in r
    ensures Distinct(ts) ==> Distinct(r)
  {
    if ts == [] then []
    else if ts[0].kind == Audio then [ts[0]] + AudioTracks(ts[1..])
    else AudioTracks(ts[1..])
  }

  /** A `MediaStream` as returned by `getUserMedia`: its track list never changes. */
  class MediaStream {
    const tracks: seq<Track>

    /** The stream `getUserMedia` resolves with for an audio-only request: one new live audio track. */
    constructor Capture(source: Source)
      ensures |tracks| == 1 && fresh(tracks[0])
      ensures tracks[0].kind == Audio && tracks[0].source == source
      ensures tracks[0].enabled && !tracks[0].stopped
      ensures Distinct(tracks)
    {
      var t := new Track(Audio, source);
      tracks := [t];
    }
  }

  /** A `mediasoupClient.Device`; `load` may fail after the device exists. */
  class Device {
    var loaded: bool

    constructor ()
      ensures !loaded
    {
      loaded := false;
    }
  }

  /** A send or receive transport created from the server's parameters. */
  class Transport {
    const id: string
    const direction: Direction

    constructor (id: string, direction: Direction)
      ensures this.id == id && this.direction == direction
    {
      this.id := id;
      this.direction := direction;
    }
  }

  /** The local audio publication. */
  class Producer {
    const id: string
    var track: Track
    var closed: bool

    constructor (id: string, track: Track)
      ensures this.id == id && this.track == track && !closed
    {
      this.id := id;
      this.track := track;
      closed := false;
    }
  }

  /** The receiving end of one remote participant's publication. */
  class Consumer {
    const id: string
    const producerId: string
    const transport: Transport
    const track: Track?
    var closed: bool

    constructor (id: string, producerId: string, transport: Transport, track: Track?)
      ensures this.id == id && this.producerId == producerId
      ensures this.transport == transport && this.track == track && !closed
    {
      this.id := id;
      this.producerId := producerId;
      this.transport := transport;
      this.track := track;
      closed := false;
    }
  }

  /** `tracks.forEach(track => { track.enabled = value; })` */
  method SetEnabled(ts: seq<Track>, value: bool)
    modifies set t | t in ts
    ensures forall t :: t in ts ==> t.enabled == value && t.stopped == old(t.stopped)
  {
    var i := 0;
    while i < |ts|
      invariant 0 <= i <= |ts|
      invariant forall j :: 0 <= j < i ==> ts[j].enabled == value
      invariant forall t :: t in ts ==> t.stopped == old(t.stopped)
    {
      ts[i].enabled := value;
      i := i + 1;
    }
  }

  /** `tracks.forEach(track => track.stop())` */
  method StopAll(ts: seq<Track>)
    modifies set t | t in ts
    ensures forall t :: t in ts ==> t.stopped && t.enabled == old(t.enabled)
  {
    var i := 0;
    while i < |ts|
      invariant 0 <= i <= |ts|
      invariant forall j :: 0 <= j < i ==> ts[j].stopped
      invariant forall t :: t in ts ==> t.enabled == old(t.enabled)
    {
      ts[i].stopped := true;
      i := i + 1;
    }
  }

  /** `consumers.forEach(consumer => consumer.close())` */
  method CloseAll(cs: seq<Consumer>)
    modifies set c | c in cs
    ensures forall c :: c in cs ==> c.closed
  {
    var i := 0;
    while i < |cs|
      invariant 0 <= i <= |cs|
      invariant forall j :: 0 <= j < i ==> cs[j].closed
    {
      cs[i].closed := true;
      i := i + 1;
    }
  }

  /** The tracks of the given consumers that exist. */
  function TracksOf(cs: seq<Consumer>): set<Track> {
    set c | c in cs && c.track != null :: c.track as Track
  }

  /** `consumers.forEach(c => { if (c.track) c.track.enabled = value; })` */
  method SetConsumersEnabled(cs: seq<Consumer>, value: bool)
    modifies TracksOf(cs)
    ensures forall c :: c in cs && c.track != null ==> c.track.enabled == value
    ensures forall t :: t in TracksOf(cs) ==> t.stopped == old(t.stopped)
  {
    var i := 0;
    while i < |cs|
      invariant 0 <= i <= |cs|
      invariant forall j :: 0 <= j < i && cs[j].track != null ==> cs[j].track.enabled == value
      invariant forall t :: t in TracksOf(cs) ==> t.stopped == old(t.stopped)
    {
      var track := cs[i].track;
      if track != null {
        track.enabled := value;
      }
      i := i + 1;
    }
  }
}
