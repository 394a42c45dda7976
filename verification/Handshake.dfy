/**
  Two speakers of one peering, end to end: each builds its OPEN, encodes and frames it;
  the other reads the octets, validates the OPEN in state OpenSent and negotiates.
  */
module Handshake {
  import opened Bytes
  import opened Notifications
  import opened Packet
  import opened PacketProofs
  import opened Framing
  import opened Fsm
  import opened FsmProofs
  import opened Peer
  import opened PeerCollision

  datatype Speaker = Speaker(config: Config, capabilities: seq<Capability>)

  /** peerOptions.validate, for the hold time. */
  predicate OptionsValid(c: Config) { !(c.holdTime < 3 && c.holdTime != 0) }

  function OpenOf(s: Speaker): Message {
    Open(NewOpenMessage(s.config.localAS, s.config.holdTime, s.config.localId, s.capabilities))
  }

  /** The octets of a speaker's OPEN always exist. */
  lemma OpenEncodes(s: Speaker)
    ensures Encode(OpenOf(s)).Ok?
  {
    NewOpenDescribableIff(s.config.localAS, s.config.holdTime, s.config.localId, s.capabilities);
  }

  /** The reader delivers the OPEN that was sent exactly when its capabilities fit. */
  lemma OpenArrivesIff(s: Speaker, rest: seq<byte>)
    ensures Encode(OpenOf(s)).Ok?
    ensures NextMessage(Encode(OpenOf(s)).value + rest) == Ok(Frame(OpenOf(s), rest)) <==>
            Fits(s.config.localAS, s.capabilities)
  {
    OpenEncodes(s);
    NewOpenDescribableIff(s.config.localAS, s.config.holdTime, s.config.localId, s.capabilities);
    FrameRoundTripsIff(OpenOf(s), rest);
  }

  /** What the remote speaker must be like for its OPEN to be accepted. */
  predicate Acceptable(c: Config, remote: Config) {
    && remote.localAS == c.remoteAS
    && !IsMulticast(remote.localId)
    && !(c.localAS == remote.localAS && c.localId == remote.localId)
    && OptionsValid(remote)
  }

  /** The FSM after it received the OPEN, with a plugin that agrees and a write that succeeds. */
  function AfterOpen(a: Speaker, f: Fsm, b: Speaker): Fsm {
    OpenSentReceives(a.config, f, OpenOf(b), None, true).fsm
  }

  /** The FSM in OpenSent after its reader has made what it can of the first octets of a stream. */
  function AfterOctets(a: Speaker, f: Fsm, stream: seq<byte>): Fsm {
    match NextMessage(stream)
    case Ok(frame) => OpenSentReceives(a.config, f, frame.message, None, true).fsm
    case Err(e) => ReaderErrorIn(f, OpenSent, e)
    case Panic => f.(pc := Panicked)
  }

  /** Over the wire, a fitting OPEN has the effect it was sent for. */
  lemma OpenOverTheWire(a: Speaker, f: Fsm, b: Speaker, rest: seq<byte>)
    requires Fits(b.config.localAS, b.capabilities)
    ensures Encode(OpenOf(b)).Ok?
    ensures AfterOctets(a, f, Encode(OpenOf(b)).value + rest) == AfterOpen(a, f, b)
  {
    OpenArrivesIff(b, rest);
  }

  /** OpenSent asks for OpenConfirm exactly when the OPEN is acceptable, and otherwise reports a refusal. */
  lemma OpenSentAcceptsIff(a: Speaker, f: Fsm, b: Speaker)
    requires FsmInv(f) && f.pc == Body(OpenSent)
    ensures AfterOpen(a, f, b).pc == Offer(Transition(OpenSent, OpenConfirm)) <==> Acceptable(a.config, b.config)
    ensures !Acceptable(a.config, b.config) ==>
              AfterOpen(a, f, b).pc.Report? && AfterOpen(a, f, b).pc.t == Transition(OpenSent, Idle)
    ensures Acceptable(a.config, b.config) ==> AfterOpen(a, f, b).remoteId == b.config.localId
  {
    NewOpenValidIff(b.config.localAS, b.config.holdTime, b.config.localId, b.capabilities,
                    a.config.localId, a.config.localAS, a.config.remoteAS);
    OpenDecides(a.config, f, OpenOf(b).open);
  }

  /**
    What OpenSent makes of any OPEN, with a plugin that agrees and a write that succeeds: the
    hold time of the session is the smaller of the two that were offered.
    */
  lemma OpenDecides(c: Config, f: Fsm, o: OpenMessage)
    requires f.timers.hold.Armed? || f.timers.hold.Fired?
    ensures var g := OpenSentReceives(c, f, Open(o), None, true).fsm;
            if Validate(o, c.localId, c.localAS, c.remoteAS).None? then
              && g.pc == Offer(Transition(OpenSent, OpenConfirm)) && g.remoteId == o.bgpId
              && g.holdTime <= c.holdTime && g.holdTime <= o.holdTime
              && (g.holdTime == c.holdTime || g.holdTime == o.holdTime)
              && g.log.negotiated == f.log.negotiated + [g.holdTime]
            else g.pc.Report? && g.pc.t == Transition(OpenSent, Idle)
  {
  }

  /** The keepalive interval in nanoseconds, of a hold time in seconds. */
  function KeepAliveInterval(holdTime: u16): nat { holdTime * SECOND / 3 }

  lemma KeepAliveFits(holdTime: u16)
    requires holdTime >= 3
    ensures KeepAliveInterval(holdTime) >= SECOND
    ensures 3 * KeepAliveInterval(holdTime) <= holdTime * SECOND
  {
  }

  /** Both directions of the OPEN exchange succeed. */
  predicate BothAccept(a: Speaker, f: Fsm, b: Speaker, g: Fsm) {
    && AfterOpen(a, f, b).pc == Offer(Transition(OpenSent, OpenConfirm))
    && AfterOpen(b, g, a).pc == Offer(Transition(OpenSent, OpenConfirm))
  }

  /**
    The exchange succeeds exactly when the two speakers are configured for each other, are
    distinct, have unicast identifiers and valid hold times. The two ends then agree on the
    hold time, the smaller of the two; it is 0 or at least 3 s; three keepalive intervals of
    at least one second fit in it; and exactly the end with the larger pair of identifier and
    AS considers itself dominant.
    */
  lemma HandshakeAgrees(a: Speaker, f: Fsm, b: Speaker, g: Fsm)
    requires FsmInv(f) && f.pc == Body(OpenSent) && FsmInv(g) && g.pc == Body(OpenSent)
    ensures BothAccept(a, f, b, g) <==> Acceptable(a.config, b.config) && Acceptable(b.config, a.config)
    ensures BothAccept(a, f, b, g) ==>
              var t := AfterOpen(a, f, b).holdTime;
              && t == AfterOpen(b, g, a).holdTime
              && AfterOpen(a, f, b).log.negotiated == f.log.negotiated + [t]
              && t <= a.config.holdTime && t <= b.config.holdTime
              && (t == a.config.holdTime || t == b.config.holdTime)
              && (t == 0 || t >= 3)
              && (t == 0 <==> a.config.holdTime == 0 || b.config.holdTime == 0)
              && (t != 0 ==> KeepAliveInterval(t) >= SECOND && 3 * KeepAliveInterval(t) <= t * SECOND)
    ensures BothAccept(a, f, b, g) ==>
              && (Dominant(a.config, AfterOpen(a, f, b).remoteId) <==> !Dominant(b.config, AfterOpen(b, g, a).remoteId))
              && (Dominant(a.config, AfterOpen(a, f, b).remoteId) <==>
                  Standing(a.config.localId, a.config.localAS) > Standing(b.config.localId, b.config.localAS))
  {
    OpenSentAcceptsIff(a, f, b);
    OpenSentAcceptsIff(b, g, a);
    if BothAccept(a, f, b, g) {
      NewOpenValidIff(b.config.localAS, b.config.holdTime, b.config.localId, b.capabilities,
                      a.config.localId, a.config.localAS, a.config.remoteAS);
      DominanceIsOpposite(a.config, b.config, OpenOf(b).open);
      NegotiatedIsSymmetric(a, f, b);
      NegotiatedIsSymmetric(b, g, a);
      var t := NegotiatedHoldTime(a.config.holdTime, b.config.holdTime);
      if t != 0 {
        KeepAliveFits(t);
      }
    }
  }

  lemma NegotiatedIsSymmetric(a: Speaker, f: Fsm, b: Speaker)
    requires FsmInv(f) && f.pc == Body(OpenSent) && AfterOpen(a, f, b).pc == Offer(Transition(OpenSent, OpenConfirm))
    ensures AfterOpen(a, f, b).holdTime == NegotiatedHoldTime(a.config.holdTime, b.config.holdTime)
    ensures AfterOpen(a, f, b).log.negotiated == f.log.negotiated + [AfterOpen(a, f, b).holdTime]
  {
    NewOpenValidIff(b.config.localAS, b.config.holdTime, b.config.localId, b.capabilities,
                    a.config.localId, a.config.localAS, a.config.remoteAS);
    OpenSentAcceptsIff(a, f, b);
  }

  /**
    Granting OpenConfirm after such an exchange panics exactly when the two speakers agreed
    on zero and this FSM never negotiated anything else: the keepalive timer does not exist.
    */
  lemma ZeroHoldTimePanicsIff(a: Speaker, f: Fsm, b: Speaker)
    requires FsmInv(f) && f.pc == Body(OpenSent) && Acceptable(a.config, b.config)
    ensures var t := Transition(OpenSent, OpenConfirm);
            var waiting := AfterOpen(a, f, b).(pc := Await(t));
            Granted(waiting, t).pc.Panicked? <==>
            (a.config.holdTime == 0 || b.config.holdTime == 0) && AllZero(f.log.negotiated)
  {
    OpenSentAcceptsIff(a, f, b);
    NegotiatedIsSymmetric(a, f, b);
    var t := Transition(OpenSent, OpenConfirm);
    var waiting := AfterOpen(a, f, b).(pc := Await(t));
    OpenSentKeepsInv(a.config, f, OpenOf(b), None, true);
    assert FsmInv(waiting);
    GrantKeepsInv(waiting, t);
    NegotiateZeroes(f.log.negotiated, waiting.holdTime);
  }
}
