/**
 * The client side of a voice session: one object that owns the mediasoup
 * device, the send transport, the receive transports, the local producer,
 * the consumers of remote producers, the captured microphone stream and the
 * mute and deafen flags. Server notifications arrive as calls to LoadDevice,
 * ConnectProducerTransport, ConnectConsumerTransport and Consume; the user
 * drives JoinVoiceChannel, LeaveVoiceChannel, ToggleMute, ToggleDeafen and
 * ChangeAudioDevice.
 *
 * Each call into the browser, mediasoup-client or the signalling server is an
 * argument saying how it turned out: `true`/`Some` when it resolved, `false`/
 * `None` when it threw or was rejected. A caught error only leaves the state
 * as it was at the point of the throw; an uncaught one (in Consume) does the
 * same, since nothing after the failing `await` runs.
 */
module Voice {
  import opened Wrappers
  import opened JsMap
  import opened Media
  import Store

  /** Messages the session's own methods emit on the signalling socket; the
      transport listeners' messages are not among them. */
  datatype Signal =
    | ConsumeRequest(producerId: string)
    | JoinVoiceChannelRequest(channelId: string)
    | LeaveVoiceChannelRequest

  /** What the server sends with `producerTransportCreated` and `consumerTransportCreated`. */
  datatype TransportParams = TransportParams(id: string)

  /** The server's answer to a `consume` request. */
  datatype ConsumeReply = ConsumeReply(id: string, kind: MediaKind)

  /** `'input' | 'output'` of changeAudioDevice. */
  datatype DeviceKind = Input | Output

  /** The application store as a mutable container (`useStore`), seen from the voice session. */
  class StoreHandle {
    var state: Store.AppState

    constructor ()
      ensures state == Store.InitialState()
    {
      state := Store.InitialState();
    }

    /** `useStore.getState().updateUserStatus(...)` */
    method UpdateUserStatus(userId: string, isOnline: bool, isSpeaking: Option<bool>)
      modifies this
      ensures state == Store.UpdateUserStatus(old(state), userId, isOnline, isSpeaking)
    {
      state := Store.UpdateUserStatus(state, userId, isOnline, isSpeaking);
    }
  }

  class VoiceChat {
    const store: StoreHandle
    var device: Device?
    var producerTransport: Transport?
    var consumerTransports: OrderedMap<string, Transport>
    var producer: Producer?
    var consumers: OrderedMap<string, Consumer>
    var stream: MediaStream?
    var isMuted: bool
    var isDeafened: bool
    var sent: seq<Signal>

    /** The two maps are well formed, the stream lists each track once, and
        no microphone track is also the track of a consumer. */
    ghost predicate Valid()
      reads this
    {
      && consumerTransports.Valid()
      && consumers.Valid()
      && (stream != null ==> Distinct(stream.tracks))
      && StreamTracks() !! ConsumerTracks()
    }

    /** The tracks of the captured stream (none when there is no stream). */
    function StreamTracks(): set<Track>
      reads this
    {
      if stream == null then {} else set t | t in stream.tracks
    }

    /** The tracks of the current consumers. */
    function ConsumerTracks(): set<Track>
      reads this
    {
      set c | c in consumers.entries.Values && c.track != null :: c.track as Track
    }

    constructor (store: StoreHandle)
      ensures Valid() && this.store == store
      ensures device == null && producerTransport == null && producer == null && stream == null
      ensures consumerTransports.Size() == 0 && consumers.Size() == 0
      ensures !isMuted && !isDeafened && sent == []
    {
      this.store := store;
      device := null;
      producerTransport := null;
      consumerTransports := Empty();
      producer := null;
      consumers := Empty();
      stream := null;
      isMuted := false;
      isDeafened := false;
      sent := [];
    }

    /** On `routerRtpCapabilities`: a new device is stored first, then loaded.
        `constructed` says whether `new Device()` succeeded (it throws on an
        unsupported runtime, and then `device` stays as it was); `loads` says
        whether `load` accepted the router's capabilities. */
    method LoadDevice(constructed: bool, loads: bool)
      requires Valid()
      modifies this
      ensures Valid()
      ensures !constructed ==> device == old(device)
      ensures constructed ==> device != null && fresh(device) && device.loaded == loads
      ensures producerTransport == old(producerTransport) && consumerTransports == old(consumerTransports)
      ensures producer == old(producer) && consumers == old(consumers) && stream == old(stream)
      ensures isMuted == old(isMuted) && isDeafened == old(isDeafened) && sent == old(sent)
    {
      if !constructed {
        return;
      }
      var d := new Device();
      device := d;
      if loads {
        d.loaded := true;
      }
    }

    /** On `producerTransportCreated`: without a device nothing happens;
        otherwise the new send transport replaces the old one, unless
        `createSendTransport` throws (`created` false). */
    method ConnectProducerTransport(params: TransportParams, created: bool)
      requires Valid()
      modifies this
      ensures Valid()
      ensures old(device) == null || !created ==> producerTransport == old(producerTransport)
      ensures old(device) != null && created ==>
        && producerTransport != null && fresh(producerTransport)
        && producerTransport.id == params.id && producerTransport.direction == Send
      ensures device == old(device) && consumerTransports == old(consumerTransports)
      ensures producer == old(producer) && consumers == old(consumers) && stream == old(stream)
      ensures isMuted == old(isMuted) && isDeafened == old(isDeafened) && sent == old(sent)
    {
      if device == null {
        return;
      }
      if created {
        producerTransport := new Transport(params.id, Send);
      }
    }

    /** On `consumerTransportCreated`: without a device nothing happens;
        otherwise the new receive transport is stored under `params.id`. */
    method ConnectConsumerTransport(params: TransportParams, created: bool)
      requires Valid()
      modifies this
      ensures Valid()
      ensures old(device) == null || !created ==> consumerTransports == old(consumerTransports)
      ensures old(device) != null && created ==>
        && params.id in consumerTransports.entries
        && var t := consumerTransports.entries[params.id];
        && fresh(t) && t.id == params.id && t.direction == Recv
        && consumerTransports == old(consumerTransports).Set(params.id, t)
      ensures device == old(device) && producerTransport == old(producerTransport)
      ensures producer == old(producer) && consumers == old(consumers) && stream == old(stream)
      ensures isMuted == old(isMuted) && isDeafened == old(isDeafened) && sent == old(sent)
    {
      if device == null {
        return;
      }
      if created {
        var t := new Transport(params.id, Recv);
        consumerTransports := consumerTransports.Set(params.id, t);
      }
    }

    /** On `newProducer`: consume `producerId` over the oldest receive
        transport. `reply` is the server's answer to the `consume` request and
        `consumed` whether `transport.consume` resolved. Reading the device's
        RTP capabilities throws when the device is not loaded, before the
        request is emitted. The new consumer's
        track is live and enabled whatever `isDeafened` says. */
    method Consume(producerId: string, reply: Option<ConsumeReply>, consumed: bool)
      requires Valid()
      modifies this, store
      ensures Valid()
      ensures old(device) == null || old(consumerTransports.Size()) == 0 || !old(device.loaded) ==>
        sent == old(sent) && consumers == old(consumers) && store.state == old(store.state)
      ensures old(device) != null && old(consumerTransports.Size()) > 0 && old(device.loaded) ==>
        sent == old(sent) + [ConsumeRequest(producerId)]
      ensures old(device) != null && old(consumerTransports.Size()) > 0 && old(device.loaded)
              && reply.Some? && consumed ==>
        && producerId in consumers.entries
        && var c := consumers.entries[producerId];
        && fresh(c) && consumers == old(consumers).Set(producerId, c)
        && c.id == reply.value.id && c.producerId == producerId && !c.closed
        && c.transport == old(consumerTransports.First())
        && c.track != null && fresh(c.track) && c.track.kind == reply.value.kind
        && c.track.source == RemoteProducer(producerId) && c.track.enabled && !c.track.stopped
        && store.state == Store.UpdateUserStatus(old(store.state), producerId, true, Some(true))
      ensures reply.None? || !consumed ==> consumers == old(consumers) && store.state == old(store.state)
      ensures device == old(device) && producerTransport == old(producerTransport)
      ensures consumerTransports == old(consumerTransports)
      ensures producer == old(producer) && stream == old(stream)
      ensures isMuted == old(isMuted) && isDeafened == old(isDeafened)
    {
      if device == null || consumerTransports.Size() == 0 {
        return;
      }
      var transport := consumerTransports.First();
      if !device.loaded {
        // reading `device.rtpCapabilities` of an unloaded device throws
        return;
      }
      sent := sent + [ConsumeRequest(producerId)];
      if reply.None? || !consumed {
        return;
      }
      var track := new Track(reply.value.kind, RemoteProducer(producerId));
      var consumer := new Consumer(reply.value.id, producerId, transport, track);
      consumers := consumers.Set(producerId, consumer);
      store.UpdateUserStatus(producerId, true, Some(true));
    }

    /** `joinVoiceChannel(channelId)`: `mic` says whether `getUserMedia`
        resolved, `produced` the producer id `produce` resolved with. The
        previous stream is replaced without being stopped. */
    method JoinVoiceChannel(channelId: string, mic: bool, produced: Option<string>)
      requires Valid()
      modifies this, store
      ensures Valid()
      ensures !mic ==> stream == old(stream)
      ensures mic ==>
        && stream != null && fresh(stream) && |stream.tracks| == 1
        && var t := stream.tracks[0];
        && fresh(t) && t.kind == Audio && t.source == DefaultMicrophone && t.enabled && !t.stopped
      ensures
        if mic && old(device) != null && old(producerTransport) != null && produced.Some? then
          && producer != null && fresh(producer) && stream != null
          && producer.id == produced.value && producer.track == stream.tracks[0] && !producer.closed
          && sent == old(sent) + [JoinVoiceChannelRequest(channelId)]
          && store.state == match old(store.state.currentUser)
                            case None => old(store.state)
                            case Some(u) => Store.UpdateUserStatus(old(store.state), u.id, true, Some(true))
        else
          producer == old(producer) && sent == old(sent) && store.state == old(store.state)
      ensures old(stream) != null ==> forall t :: t in old(stream).tracks ==> t.stopped == old(t.stopped)
      ensures device == old(device) && producerTransport == old(producerTransport)
      ensures consumerTransports == old(consumerTransports) && consumers == old(consumers)
      ensures isMuted == old(isMuted) && isDeafened == old(isDeafened)
    {
      if !mic {
        return;
      }
      var captured := new MediaStream.Capture(DefaultMicrophone);
      stream := captured;
      if device == null || producerTransport == null {
        return;
      }
      if produced.None? {
        return;
      }
      var audio := AudioTracks(captured.tracks);
      assert audio == captured.tracks;
      producer := new Producer(produced.value, audio[0]);
      sent := sent + [JoinVoiceChannelRequest(channelId)];
      var currentUser := store.state.currentUser;
      if currentUser.Some? {
        store.UpdateUserStatus(currentUser.value.id, true, Some(true));
      }
    }

    /** `leaveVoiceChannel()`: closes the producer and every consumer, stops
        every track of the stream, and forgets all three. The transports, the
        device and the two flags are kept. */
    method LeaveVoiceChannel()
      requires Valid()
      modifies this, producer, consumers.entries.Values, StreamTracks(), store
      ensures Valid()
      ensures producer == null && consumers.Size() == 0 && stream == null
      ensures old(producer) != null ==> old(producer).closed
      ensures forall c :: c in old(consumers.entries.Values) ==> c.closed
      ensures forall t :: t in old(StreamTracks()) ==> t.stopped && t.enabled == old(t.enabled)
      ensures old(producer) != null ==> old(producer).track == old(producer.track)
      ensures sent == old(sent) + [LeaveVoiceChannelRequest]
      ensures store.state == match old(store.state.currentUser)
                             case None => old(store.state)
                             case Some(u) => Store.UpdateUserStatus(old(store.state), u.id, true, Some(false))
      ensures device == old(device) && producerTransport == old(producerTransport)
      ensures consumerTransports == old(consumerTransports)
      ensures isMuted == old(isMuted) && isDeafened == old(isDeafened)
    {
      if producer != null {
        producer.closed := true;
        producer := null;
      }
      CloseAll(consumers.Values());
      consumers := Empty();
      if stream != null {
        StopAll(stream.tracks);
        stream := null;
      }
      sent := sent + [LeaveVoiceChannelRequest];
      var currentUser := store.state.currentUser;
      if currentUser.Some? {
        store.UpdateUserStatus(currentUser.value.id, true, Some(false));
      }
    }

    /** `toggleMute()`: with no stream nothing changes; otherwise `isMuted`
        flips and every audio track of the stream is enabled exactly when
        not muted. The producer is not touched. */
    method ToggleMute()
      requires Valid()
      modifies this, StreamTracks()
      ensures Valid()
      ensures old(stream) == null ==> isMuted == old(isMuted)
      ensures old(stream) != null ==> isMuted == !old(isMuted)
      ensures stream != null ==> forall t :: t in stream.tracks && t.kind == Audio ==> t.enabled == !isMuted
      ensures forall t :: t in old(StreamTracks()) && t.kind != Audio ==> t.enabled == old(t.enabled)
      ensures forall t :: t in old(StreamTracks()) ==> t.stopped == old(t.stopped)
      ensures forall t :: t in old(ConsumerTracks()) ==> t.enabled == old(t.enabled)
      ensures device == old(device) && producerTransport == old(producerTransport)
      ensures consumerTransports == old(consumerTransports) && consumers == old(consumers)
      ensures producer == old(producer) && stream == old(stream)
      ensures isDeafened == old(isDeafened) && sent == old(sent)
    {
      if stream != null {
        isMuted := !isMuted;
        SetEnabled(AudioTracks(stream.tracks), !isMuted);
      }
    }

    /** `toggleDeafen()`: `isDeafened` flips and the track of every consumer
        is enabled exactly when not deafened; no consumer is added or removed. */
    method ToggleDeafen()
      requires Valid()
      modifies this, ConsumerTracks()
      ensures Valid()
      ensures isDeafened == !old(isDeafened)
      ensures forall c :: c in consumers.entries.Values && c.track != null ==> c.track.enabled == !isDeafened
      ensures forall t :: t in old(ConsumerTracks()) ==> t.stopped == old(t.stopped)
      ensures forall t :: t in old(StreamTracks()) ==> t.enabled == old(t.enabled)
      ensures device == old(device) && producerTransport == old(producerTransport)
      ensures consumerTransports == old(consumerTransports) && consumers == old(consumers)
      ensures producer == old(producer) && stream == old(stream)
      ensures isMuted == old(isMuted) && sent == old(sent)
    {
      isDeafened := !isDeafened;
      SetConsumersEnabled(consumers.Values(), !isDeafened);
    }

    /** `changeAudioDevice(deviceId, kind)`: only for `Input` with a producer.
        `mic` says whether capturing from `deviceId` resolved, `replaced`
        whether `producer.replaceTrack` resolved. Only after the producer has
        the new track are the old stream's tracks stopped and the stream
        replaced; on any failure the stream and its tracks stay as they were. */
    method ChangeAudioDevice(deviceId: string, kind: DeviceKind, mic: bool, replaced: bool)
      requires Valid()
      modifies this, producer, StreamTracks()
      ensures Valid()
      ensures producer == old(producer) && (producer != null ==> producer.closed == old(producer.closed))
      ensures
        if kind == Input && old(producer) != null && mic && replaced then
          && stream != null && fresh(stream) && |stream.tracks| == 1
          && var t := stream.tracks[0];
          && fresh(t) && t.kind == Audio && t.source == Microphone(deviceId) && t.enabled && !t.stopped
          && producer != null && producer.track == t
          && (forall t' :: t' in old(StreamTracks()) ==> t'.stopped)
        else
          && stream == old(stream)
          && (old(producer) != null ==> producer.track == old(producer.track))
          && (forall t' :: t' in old(StreamTracks()) ==> t'.stopped == old(t'.stopped))
      ensures forall t' :: t' in old(StreamTracks()) ==> t'.enabled == old(t'.enabled)
      ensures device == old(device) && producerTransport == old(producerTransport)
      ensures consumerTransports == old(consumerTransports) && consumers == old(consumers)
      ensures isMuted == old(isMuted) && isDeafened == old(isDeafened) && sent == old(sent)
    {
      if kind == Input && producer != null {
        if !mic {
          return;
        }
        var newStream := new MediaStream.Capture(Microphone(deviceId));
        var newTrack := AudioTracks(newStream.tracks)[0];
        if !replaced {
          return;
        }
        producer.track := newTrack;
        if stream != null {
          StopAll(stream.tracks);
        }
        stream := newStream;
      }
    }
  }
}
