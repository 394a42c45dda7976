/**
  What the codec means on the wire and which OPENs are acceptable, written out with the
  octets and numbers of RFC 4271, RFC 5492 and RFC 6793 and without the codec's own terms.
  */
module PacketMeaning {
  import opened Bytes
  import opened Notifications
  import opened Packet
  import opened PacketProofs
  import opened Framing

  // ----- the layout of messages

  /** Octets b[i] and b[i + 1], most significant first. */
  function Two(b: seq<byte>, i: nat): nat
    requires i + 1 < |b|
  {
    256 * b[i] as int + b[i + 1]
  }

  function Four(b: seq<byte>, i: nat): nat
    requires i + 3 < |b|
  {
    0x1_0000 * Two(b, i) + Two(b, i + 2)
  }

  lemma NumbersAreBigEndian(x: u16, y: u32)
    ensures |PutU16(x)| == 2 && Two(PutU16(x), 0) == x
    ensures |PutU32(y)| == 4 && Four(PutU32(y), 0) == y
  {
  }

  /** The header of every message that is sent: the marker, the length of the whole message, the type. */
  lemma HeaderLayout(m: Message)
    requires Sendable(m)
    ensures var b := Encode(m).value;
            && |b| >= 19
            && (forall i :: 0 <= i < 16 ==> b[i] == 255)
            && Two(b, 16) == |b|
            && b[18] == match m { case Open(_) => 1 case Update(_) => 2 case Notify(_) => 3 case KeepAlive => 4 }
  {
    var b := Encode(m).value;
    NumbersAreBigEndian(|b|, 0);
    assert b[16..18] == PutU16(|b|);
    assert b[16] == b[16..18][0] && b[17] == b[16..18][1];
  }

  /** The body of an OPEN. */
  lemma OpenLayout(o: OpenMessage)
    requires Describable(o)
    ensures EncodeOpenBody(o).Ok?
    ensures var b := EncodeOpenBody(o).value;
            && |b| >= 10
            && b[0] == o.version && Two(b, 1) == o.asn && Two(b, 3) == o.holdTime && Four(b, 5) == o.bgpId
            && b[9] == |b| - 10
  {
    var params := EncodeParams(o.optionalParams).value;
    var b := OpenFixedPart(o, |params|) + params;
    NumbersAreBigEndian(o.asn, o.bgpId);
    NumbersAreBigEndian(o.holdTime, 0);
    assert b[1..3] == PutU16(o.asn) && b[3..5] == PutU16(o.holdTime) && b[5..9] == PutU32(o.bgpId);
    assert Two(b, 1) == Two(b[1..3], 0) && Two(b, 3) == Two(b[3..5], 0) && Four(b, 5) == Four(b[5..9], 0);
    assert b[9] == ToU8(|params|);
  }

  /** A capability is its code, the length of its value and its value; a list of them is a parameter of type 2. */
  lemma ParamLayout(p: OptionalParam)
    requires EncodeParam(p).Ok? && |EncodeParam(p).value| <= 255
    ensures var b := EncodeParam(p).value;
            && b[0] == 2 && b[1] == |b| - 2
            && b[2..] == EncodeCapabilities(p.capabilities)
    ensures var b, c := EncodeParam(p).value[2..], p.capabilities[0];
            |b| >= 2 + |c.value| && b[0] == c.code && b[1] == |c.value| && b[2..2 + |c.value|] == c.value
  {
    var b := EncodeParam(p).value;
    var caps, c := EncodeCapabilities(p.capabilities), p.capabilities[0];
    assert b[2..] == caps;
    assert caps == EncodeCapability(c) + EncodeCapabilities(p.capabilities[1..]);
    assert caps[..2 + |c.value|] == EncodeCapability(c);
    assert caps[2..2 + |c.value|] == EncodeCapability(c)[2..];
  }

  lemma NotificationLayout(n: Notification)
    requires |n.data| != 1
    ensures EncodeNotificationBody(n) == [n.code, n.subcode] + n.data
  {
  }

  /** The capabilities of the local OPEN. */
  function SentCapabilities(asn: u32, holdTime: u16, id: u32, cs: seq<Capability>): seq<Capability> {
    CapabilitiesOf(NewOpenMessage(asn, holdTime, id, cs).optionalParams)
  }

  /** The plugin's capabilities follow the four-octet-AS capability, in order, without any of that code. */
  lemma PluginCapabilitiesAreCarried(asn: u32, holdTime: u16, id: u32, cs: seq<Capability>, c: Capability)
    ensures SentCapabilities(asn, holdTime, id, []) == [Capability(65, PutU32(asn))]
    ensures SentCapabilities(asn, holdTime, id, cs + [c])
         == SentCapabilities(asn, holdTime, id, cs) + if c.code == 65 then [] else [c]
  {
    OwnList(asn, holdTime, id, []);
    OwnList(asn, holdTime, id, cs);
    OwnList(asn, holdTime, id, cs + [c]);
    WithoutOfConcat(cs, [c]);
    assert [c][1..] == [] && WithoutFourOctetAS([c]) == if c.code == 65 then [] else [c] + [];
  }

  lemma OwnList(asn: u32, holdTime: u16, id: u32, cs: seq<Capability>)
    ensures CapabilitiesOf(NewOpenMessage(asn, holdTime, id, cs).optionalParams)
         == [Capability(65, PutU32(asn))] + WithoutFourOctetAS(cs)
  {
    var ps := NewOpenMessage(asn, holdTime, id, cs).optionalParams;
    assert ps[1..] == [] && CapabilitiesOf(ps) == ps[0].capabilities + [];
  }

  lemma {:induction false} WithoutOfConcat(cs: seq<Capability>, ds: seq<Capability>)
    ensures WithoutFourOctetAS(cs + ds) == WithoutFourOctetAS(cs) + WithoutFourOctetAS(ds)
  {
    if cs == [] {
      assert cs + ds == ds;
    } else {
      assert (cs + ds)[1..] == cs[1..] + ds;
      WithoutOfConcat(cs[1..], ds);
    }
  }

  // ----- errors of the reader

  predicate Says(e: Error, code: byte, subcode: byte, data: seq<byte>) {
    e == NotificationError(Notification(code, subcode, data), true)
  }

  /** Which NOTIFICATION a bad header calls for. */
  lemma HeaderErrors(s: seq<byte>)
    requires |s| >= 19
    ensures (exists i :: 0 <= i < 16 && s[i] != 255) ==> NextMessage(s).Err? && Says(NextMessage(s).error, 1, 1, [])
    ensures (forall i :: 0 <= i < 16 ==> s[i] == 255) && (Two(s, 16) < 19 || Two(s, 16) > 4096) ==>
              NextMessage(s).Err? && Says(NextMessage(s).error, 1, 2, [])
    ensures (forall i :: 0 <= i < 16 ==> s[i] == 255) && 19 <= Two(s, 16) <= 4096 && |s| < Two(s, 16) ==>
              NextMessage(s) == Err(OtherError)
    ensures (forall i :: 0 <= i < 16 ==> s[i] == 255) && 19 <= Two(s, 16) <= 4096 && Two(s, 16) <= |s| ==>
              !(1 <= s[18] <= 4) ==> NextMessage(s).Err? && Says(NextMessage(s).error, 1, 3, [s[18]])
  {
    assert GetU16(s[16..18]) == Two(s, 16);
  }

  /** Which NOTIFICATION an OPEN body that cannot be decoded calls for. */
  lemma OpenErrors(b: seq<byte>)
    ensures |b| < 10 ==> DecodeOpenBody(b).Err? && Says(DecodeOpenBody(b).error, 1, 2, b)
    ensures |b| >= 10 && b[9] != |b| - 10 ==> DecodeOpenBody(b).Err? && Says(DecodeOpenBody(b).error, 2, 0, [])
    ensures |b| >= 10 && DecodeOpenBody(b).Err? ==>
              Says(DecodeOpenBody(b).error, 2, 0, []) || Says(DecodeOpenBody(b).error, 2, 4, [])
  {
    if |b| >= 10 && b[9] == |b| - 10 {
      ParamErrors(b[10..]);
    }
  }

  lemma {:induction false} CapabilityErrors(b: seq<byte>)
    ensures DecodeCapabilities(b).Err? ==> Says(DecodeCapabilities(b).error, 2, 0, [])
    decreases |b|
  {
    if NextTriplet(b).Ok? && NextTriplet(b).value.rest != [] {
      CapabilityErrors(NextTriplet(b).value.rest);
    }
  }

  lemma {:induction false} ParamErrors(b: seq<byte>)
    ensures DecodeParams(b).Err? ==> Says(DecodeParams(b).error, 2, 0, []) || Says(DecodeParams(b).error, 2, 4, [])
    ensures |b| >= 2 && b[1] == |b| - 2 && b[1] < 254 && b[0] != 2 ==>
              DecodeParams(b).Err? && Says(DecodeParams(b).error, 2, 4, [])
    decreases |b|
  {
    if NextTriplet(b).Ok? {
      var t := NextTriplet(b).value;
      CapabilityErrors(t.value);
      if t.rest != [] {
        ParamErrors(t.rest);
      }
    }
  }

  // ----- validation

  /** The OPEN carries this capability. */
  ghost predicate Carries(o: OpenMessage, c: Capability) {
    exists p :: p in o.optionalParams && c in p.capabilities
  }

  /** The value of a four-octet-AS capability names exactly this AS. */
  predicate Names(c: Capability, asn: u32) {
    |c.value| == 4 && Four(c.value, 0) == asn
  }

  lemma {:induction false} ListedIff(ps: seq<OptionalParam>, c: Capability)
    ensures c in CapabilitiesOf(ps) <==> exists p :: p in ps && c in p.capabilities
  {
    if ps != [] {
      ListedIff(ps[1..], c);
      assert forall p :: p in ps <==> p == ps[0] || p in ps[1..];
    }
  }

  /** Position i holds the first four-octet-AS capability that does not name the AS. */
  predicate FirstWrong(cs: seq<Capability>, asn: u32, i: nat) {
    && i < |cs| && cs[i].code == 65 && !Names(cs[i], asn)
    && forall j :: 0 <= j < i && cs[j].code == 65 ==> Names(cs[j], asn)
  }

  lemma {:induction false} CheckMeans(cs: seq<Capability>, asn: u32)
    ensures CheckCapabilities(cs, asn).Ok? <==> forall j :: 0 <= j < |cs| && cs[j].code == 65 ==> Names(cs[j], asn)
    ensures CheckCapabilities(cs, asn).Ok? ==>
              (CheckCapabilities(cs, asn).value <==> exists j :: 0 <= j < |cs| && cs[j].code == 65)
  {
    if cs != [] {
      CheckMeans(cs[1..], asn);
      assert forall j :: 0 < j < |cs| ==> cs[j] == cs[1..][j - 1];
      assert forall j :: 0 <= j < |cs| - 1 ==> cs[1..][j] == cs[j + 1];
      if |cs[0].value| == 4 {
        assert GetU32(cs[0].value) == Four(cs[0].value, 0);
      }
    }
  }

  lemma {:induction false} CheckRefuses(cs: seq<Capability>, asn: u32, i: nat)
    requires FirstWrong(cs, asn, i)
    ensures CheckCapabilities(cs, asn).Err?
    ensures Says(CheckCapabilities(cs, asn).error, 2, if |cs[i].value| != 4 then 0 else 2, [])
  {
    if |cs[0].value| == 4 {
      assert GetU32(cs[0].value) == Four(cs[0].value, 0);
    }
    if i > 0 {
      assert forall j :: 0 <= j < |cs| - 1 ==> cs[1..][j] == cs[j + 1];
      CheckRefuses(cs[1..], asn, i - 1);
    }
  }

  /** The fields in front of the optional parameters are acceptable. */
  predicate FieldsAcceptable(o: OpenMessage, localId: u32, localAS: u32, remoteAS: u32) {
    && o.version == 4
    && (o.asn == 23456 || o.asn == remoteAS)
    && (o.holdTime == 0 || o.holdTime >= 3)
    && !(0xE000_0000 <= o.bgpId <= 0xEFFF_FFFF)
    && !(localAS == remoteAS && localId == o.bgpId)
  }

  /** Exactly which OPENs are accepted. */
  lemma ValidIff(o: OpenMessage, localId: u32, localAS: u32, remoteAS: u32)
    ensures Validate(o, localId, localAS, remoteAS).None? <==>
            && FieldsAcceptable(o, localId, localAS, remoteAS)
            && (exists c :: Carries(o, c) && c.code == 65)
            && (forall c :: Carries(o, c) && c.code == 65 ==> Names(c, remoteAS))
  {
    var cs := CapabilitiesOf(o.optionalParams);
    CheckMeans(cs, remoteAS);
    forall c ensures c in cs <==> Carries(o, c) {
      ListedIff(o.optionalParams, c);
    }
    assert forall j :: 0 <= j < |cs| ==> Carries(o, cs[j]);
  }

  /** And with which NOTIFICATION the others are refused, by the first check that fails. */
  lemma RefusedFor(o: OpenMessage, localId: u32, localAS: u32, remoteAS: u32)
    ensures var v := Validate(o, localId, localAS, remoteAS);
            && (o.version != 4 ==> v.Some? && Says(v.value, 2, 1, [0, 4]))
            && (o.version == 4 && o.asn != 23456 && o.asn != remoteAS ==> v.Some? && Says(v.value, 2, 2, []))
    ensures var v := Validate(o, localId, localAS, remoteAS);
            o.version == 4 && (o.asn == 23456 || o.asn == remoteAS) ==>
              && (1 <= o.holdTime <= 2 ==> v.Some? && Says(v.value, 2, 6, []))
              && (!(1 <= o.holdTime <= 2) && !FieldsAcceptable(o, localId, localAS, remoteAS) ==>
                    v.Some? && Says(v.value, 2, 3, []))
  {
  }

  /** The fields are acceptable, but the capabilities are not. */
  lemma RefusedForCapabilities(o: OpenMessage, localId: u32, localAS: u32, remoteAS: u32, i: nat)
    requires FieldsAcceptable(o, localId, localAS, remoteAS)
    ensures var v, cs := Validate(o, localId, localAS, remoteAS), CapabilitiesOf(o.optionalParams);
            && (FirstWrong(cs, remoteAS, i) ==> v.Some? && Says(v.value, 2, if |cs[i].value| != 4 then 0 else 2, []))
            && ((forall c :: Carries(o, c) ==> c.code != 65) ==>
                  && v.Some?
                  && if o.asn == 23456 then Says(v.value, 2, 2, [])
                     else Says(v.value, 2, 7, [65, 4] + PutU32(remoteAS)))
  {
    var cs := CapabilitiesOf(o.optionalParams);
    CheckMeans(cs, remoteAS);
    if FirstWrong(cs, remoteAS, i) {
      CheckRefuses(cs, remoteAS, i);
    }
    forall c ensures c in cs <==> Carries(o, c) {
      ListedIff(o.optionalParams, c);
    }
    assert forall j :: 0 <= j < |cs| ==> Carries(o, cs[j]);
  }
}
