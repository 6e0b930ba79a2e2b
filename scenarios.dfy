/**
 * Sequences of calls on one voice session, with what the contracts of the
 * single calls let a caller conclude about the whole sequence.
 */
module Scenarios {
  import opened Wrappers
  import opened Media
  import opened Voice
  import Store

  /** Muting twice gives back the flag and, when the tracks were in step
      with the flag, their `enabled` state; the producer is the same object
      with the same track throughout. */
  method ToggleMuteTwice(vc: VoiceChat)
    requires vc.Valid() && vc.stream != null
    modifies vc, vc.StreamTracks()
    ensures vc.Valid()
    ensures vc.isMuted == old(vc.isMuted) && vc.stream == old(vc.stream)
    ensures vc.producer == old(vc.producer)
    ensures vc.producer != null ==> vc.producer.track == old(vc.producer.track) && vc.producer.closed == old(vc.producer.closed)
    ensures (forall t :: t in old(vc.stream.tracks) && t.kind == Audio ==> old(t.enabled) == !old(vc.isMuted)) ==>
      forall t :: t in vc.stream.tracks ==> t.enabled == old(t.enabled)
  {
    vc.ToggleMute();
    vc.ToggleMute();
  }

  /** Leaving a second time closes and stops nothing new: it only emits one
      more leave message, and the store ends as after the first leave. */
  method LeaveTwice(vc: VoiceChat)
    requires vc.Valid()
    modifies vc, vc.producer, vc.consumers.entries.Values, vc.StreamTracks(), vc.store
    ensures vc.Valid()
    ensures vc.producer == null && vc.consumers.Size() == 0 && vc.stream == null
    ensures vc.sent == old(vc.sent) + [LeaveVoiceChannelRequest, LeaveVoiceChannelRequest]
    ensures old(vc.producer) != null ==> old(vc.producer).closed && old(vc.producer).track == old(vc.producer.track)
    ensures forall c :: c in old(vc.consumers.entries.Values) ==> c.closed
    ensures forall t :: t in old(vc.StreamTracks()) ==> t.stopped && t.enabled == old(t.enabled)
    ensures vc.device == old(vc.device) && vc.producerTransport == old(vc.producerTransport)
    ensures vc.consumerTransports == old(vc.consumerTransports)
    ensures vc.isMuted == old(vc.isMuted) && vc.isDeafened == old(vc.isDeafened)
    ensures vc.store.state == match old(vc.store.state.currentUser)
                              case None => old(vc.store.state)
                              case Some(u) => Store.UpdateUserStatus(old(vc.store.state), u.id, true, Some(false))
  {
    vc.LeaveVoiceChannel();
    vc.LeaveVoiceChannel();
    match old(vc.store.state.currentUser)
    case None =>
    case Some(u) =>
      Store.UpdateIdempotent(old(vc.store.state), u.id, true, Some(false));
  }

  /** A successful join followed by a leave: the microphone track the join
      captured is stopped, the producer it created is closed, and no consumer
      is left. */
  method JoinThenLeave(vc: VoiceChat, channelId: string, producerId: string) returns (p: Producer, t: Track)
    requires vc.Valid() && vc.device != null && vc.producerTransport != null
    modifies vc, vc.producer, vc.consumers.entries.Values, vc.StreamTracks(), vc.store
    ensures vc.Valid()
    ensures fresh(p) && fresh(t) && p.id == producerId && t.source == DefaultMicrophone
    ensures p.closed && t.stopped
    ensures vc.producer == null && vc.stream == null && vc.consumers.Size() == 0
    ensures vc.sent == old(vc.sent) + [JoinVoiceChannelRequest(channelId), LeaveVoiceChannelRequest]
  {
    vc.JoinVoiceChannel(channelId, true, Some(producerId));
    p := vc.producer;
    t := vc.stream.tracks[0];
    vc.LeaveVoiceChannel();
  }

  /** Leaving keeps `isMuted`, and a new join captures an enabled track: after
      mute, leave and join the session says muted while the microphone is live. */
  method MuteSurvivesRejoin(vc: VoiceChat, channelId: string)
    requires vc.Valid() && vc.stream != null && !vc.isMuted
    modifies vc, vc.producer, vc.consumers.entries.Values, vc.StreamTracks(), vc.store
    ensures vc.isMuted
    ensures vc.stream != null && |vc.stream.tracks| == 1 && vc.stream.tracks[0].enabled && !vc.stream.tracks[0].stopped
  {
    vc.ToggleMute();
    vc.LeaveVoiceChannel();
    vc.JoinVoiceChannel(channelId, true, None);
  }
}
