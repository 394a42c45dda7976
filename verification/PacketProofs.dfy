/**
  What the message codec guarantees: encoding and decoding of OPEN are mutual inverses
  through both nested lists, the narrow index arithmetic is exact on every body the
  decoder accepts, and the local OPEN is accepted by its intended receiver exactly when
  the identifiers and the hold time allow it.
  */
module PacketProofs {
  import opened Bytes
  import opened Notifications
  import opened Packet

  // ----- lists of capabilities

  /** The triplet written in front of any list is the one read back. */
  lemma NextTripletInvertsEncoding(code: byte, value: seq<byte>, rest: seq<byte>)
    requires |value| <= 253
    ensures NextTriplet([code, ToU8(|value|)] + value + rest) == Ok(Triplet(code, value, rest))
  {
    var b := [code, ToU8(|value|)] + value + rest;
    assert b[2..|value| + 2] == value;
    assert b[2 + |value|..] == rest;
  }

  /** A triplet that was read is the front of the list it was read from. */
  lemma NextTripletReencodes(b: seq<byte>)
    requires NextTriplet(b).Ok?
    ensures var t := NextTriplet(b).value;
            |t.value| <= 253 && b == [t.code, ToU8(|t.value|)] + t.value + t.rest
  {
  }

  lemma {:induction false} DecodeInvertsEncodeCapabilities(cs: seq<Capability>)
    requires cs != [] && |EncodeCapabilities(cs)| <= 255
    ensures DecodeCapabilities(EncodeCapabilities(cs)) == Ok(cs)
  {
    var rest := EncodeCapabilities(cs[1..]);
    NextTripletInvertsEncoding(cs[0].code, cs[0].value, rest);
    if |cs| == 1 {
      assert cs == [cs[0]];
    } else {
      assert |rest| >= 2;
      DecodeInvertsEncodeCapabilities(cs[1..]);
      assert cs == [cs[0]] + cs[1..];
    }
  }

  lemma {:induction false} EncodeInvertsDecodeCapabilities(b: seq<byte>)
    requires DecodeCapabilities(b).Ok?
    ensures DecodeCapabilities(b).value != []
    ensures EncodeCapabilities(DecodeCapabilities(b).value) == b
    decreases |b|
  {
    NextTripletReencodes(b);
    var t := NextTriplet(b).value;
    if t.rest != [] {
      EncodeInvertsDecodeCapabilities(t.rest);
      var cs := DecodeCapabilities(t.rest).value;
      assert ([Capability(t.code, t.value)] + cs)[1..] == cs;
    }
  }

  lemma {:induction false} CapabilitiesNeverPanic(b: seq<byte>)
    requires |b| <= 255
    ensures !DecodeCapabilities(b).Panic?
    decreases |b|
  {
    if NextTriplet(b).Ok? && NextTriplet(b).value.rest != [] {
      CapabilitiesNeverPanic(NextTriplet(b).value.rest);
    }
  }

  // ----- lists of optional parameters

  lemma {:induction false} DecodeInvertsEncodeParams(ps: seq<OptionalParam>)
    requires ps != [] && EncodeParams(ps).Ok? && |EncodeParams(ps).value| <= 255
    ensures DecodeParams(EncodeParams(ps).value) == Ok(ps)
  {
    var rest := EncodeParams(ps[1..]).value;
    DecodeFirstParam(ps[0], rest);
    if |ps| == 1 {
      assert ps == [ps[0]];
    } else {
      assert EncodeParam(ps[1]).Ok? && |rest| >= 2;
      DecodeInvertsEncodeParams(ps[1..]);
      assert ps == [ps[0]] + ps[1..];
    }
  }

  /** One encoded parameter in front of a list. */
  lemma DecodeFirstParam(p: OptionalParam, rest: seq<byte>)
    requires EncodeParam(p).Ok? && |EncodeParam(p).value| + |rest| <= 255
    ensures DecodeParams(EncodeParam(p).value + rest) ==
            if rest == [] then Ok([p])
            else if DecodeParams(rest).Ok? then Ok([p] + DecodeParams(rest).value)
            else DecodeParams(rest)
  {
    NextTripletInvertsEncoding(CAPABILITY_PARAM_TYPE, EncodeCapabilities(p.capabilities), rest);
    DecodeInvertsEncodeCapabilities(p.capabilities);
  }

  lemma {:induction false} EncodeInvertsDecodeParams(b: seq<byte>)
    ensures DecodeParams(b).Ok? ==> DecodeParams(b).value != [] && EncodeParams(DecodeParams(b).value) == Ok(b)
    decreases |b|
  {
    if DecodeParams(b).Ok? {
      NextTripletReencodes(b);
      var t := NextTriplet(b).value;
      EncodeInvertsDecodeCapabilities(t.value);
      var p := DecodeParam(t.code, t.value).value;
      if t.rest != [] {
        EncodeInvertsDecodeParams(t.rest);
        var ps := DecodeParams(t.rest).value;
        assert ([p] + ps)[1..] == ps;
      }
    }
  }

  lemma {:induction false} ParamsNeverPanic(b: seq<byte>)
    requires |b| <= 255
    ensures !DecodeParams(b).Panic?
    decreases |b|
  {
    if NextTriplet(b).Ok? {
      var t := NextTriplet(b).value;
      CapabilitiesNeverPanic(t.value);
      if t.rest != [] {
        ParamsNeverPanic(t.rest);
      }
    }
  }

  lemma {:induction false} ParamsEncodeIff(ps: seq<OptionalParam>)
    ensures !EncodeParams(ps).Panic?
    ensures EncodeParams(ps).Ok? <==> forall p :: p in ps ==> p.capabilities != []
  {
    if ps != [] {
      ParamsEncodeIff(ps[1..]);
      assert forall p :: p in ps <==> p == ps[0] || p in ps[1..];
    }
  }

  // ----- OPEN

  /** The parameters of an OPEN that its length octets can describe. */
  predicate Describable(o: OpenMessage) {
    && o.optionalParams != []
    && (forall p :: p in o.optionalParams ==> p.capabilities != [])
    && EncodeParams(o.optionalParams).Ok?
    && |EncodeParams(o.optionalParams).value| <= 255
  }

  lemma FieldsOfFixedPart(o: OpenMessage, n: nat, params: seq<byte>)
    ensures var b := OpenFixedPart(o, n) + params;
            b[9] == ToU8(n) && b[10..] == params && OpenFields(b) == o.(optionalParams := [])
  {
    var b := OpenFixedPart(o, n) + params;
    assert b[1..3] == PutU16(o.asn) + [];
    assert b[3..5] == PutU16(o.holdTime) + [];
    assert b[5..9] == PutU32(o.bgpId) + [];
    GetPutU16(o.asn, []);
    GetPutU16(o.holdTime, []);
    GetPutU32(o.bgpId, []);
  }

  lemma FixedPartOfFields(b: seq<byte>, o: OpenMessage)
    requires |b| >= 10 && b[9] == |b| - 10 && o.(optionalParams := []) == OpenFields(b)
    ensures OpenFixedPart(o, |b| - 10) == b[..10]
  {
    PutGetU16(b[1..3]);
    PutGetU16(b[3..5]);
    PutGetU32(b[5..9]);
    assert b[..10] == [b[0]] + b[1..3][..2] + b[3..5][..2] + b[5..9][..4] + [b[9]];
  }

  lemma LengthOctetIsExactIff(n: nat)
    ensures ToU8(n) == n <==> n <= 255
  {
  }

  /** The decoder, seen from the parameters of a body whose length octet is n. */
  lemma DecodeOpenFrom(b: seq<byte>, params: seq<byte>)
    requires |b| == 10 + |params| && b[9] == ToU8(|params|) && b[10..] == params
    ensures |params| > 255 ==> DecodeOpenBody(b).Err?
    ensures |params| <= 255 && DecodeParams(params).Err? ==> DecodeOpenBody(b).Err?
    ensures |params| <= 255 && DecodeParams(params).Ok? ==>
              DecodeOpenBody(b) == Ok(OpenFields(b).(optionalParams := DecodeParams(params).value))
  {
    LengthOctetIsExactIff(|params|);
  }

  /**
    Decoding undoes encoding exactly for the OPENs whose parameters the length octets can
    describe; every other OPEN either fails to encode or is refused by its receiver.
    */
  lemma OpenRoundTripsIff(o: OpenMessage)
    ensures (EncodeOpenBody(o).Ok? && DecodeOpenBody(EncodeOpenBody(o).value) == Ok(o)) <==> Describable(o)
    ensures EncodeOpenBody(o).Ok? && !Describable(o) ==> DecodeOpenBody(EncodeOpenBody(o).value).Err?
  {
    ParamsEncodeIff(o.optionalParams);
    if EncodeOpenBody(o).Ok? {
      var params := EncodeParams(o.optionalParams).value;
      FieldsOfFixedPart(o, |params|, params);
      DecodeOpenFrom(EncodeOpenBody(o).value, params);
      if Describable(o) {
        DecodeInvertsEncodeParams(o.optionalParams);
      } else if |params| <= 255 {
        assert o.optionalParams == [];
      }
    }
  }

  /** Encoding undoes decoding: an accepted body is the encoding of what was decoded. */
  lemma OpenReencodes(b: seq<byte>)
    requires DecodeOpenBody(b).Ok?
    ensures EncodeOpenBody(DecodeOpenBody(b).value) == Ok(b)
    ensures Describable(DecodeOpenBody(b).value)
  {
    var o := DecodeOpenBody(b).value;
    EncodeInvertsDecodeParams(b[10..]);
    ParamsEncodeIff(o.optionalParams);
    FixedPartOfFields(b, o);
    assert b == b[..10] + b[10..];
  }

  /** The length check of OPEN keeps every `uint8` slice bound from wrapping. */
  lemma OpenDecodeNeverPanics(b: seq<byte>)
    ensures !DecodeOpenBody(b).Panic?
  {
    if |b| >= 10 && b[9] == |b| - 10 {
      ParamsNeverPanic(b[10..]);
    }
  }

  /** On longer lists the slice bound does wrap: the length check is needed. */
  lemma LongCapabilityListPanics(value: seq<byte>)
    requires 254 <= |value| <= 255
    ensures DecodeCapabilities(EncodeCapability(Capability(1, value))).Panic?
  {
    var b := EncodeCapability(Capability(1, value));
    assert b[1] == |value|;
  }

  // ----- the local OPEN at the remote end

  /** The octets of the capabilities an OPEN for this speaker carries. */
  function OwnCapabilities(asn: u32, cs: seq<Capability>): seq<Capability> {
    [FourOctetASCap(asn)] + WithoutFourOctetAS(cs)
  }

  lemma {:induction false} CheckSkipsForeignCapabilities(cs: seq<Capability>, remoteAS: u32)
    requires forall c :: c in cs ==> c.code != CAP_FOUR_OCTET_AS
    ensures CheckCapabilities(cs, remoteAS) == Ok(false)
  {
    if cs != [] {
      assert cs[0] in cs;
      CheckSkipsForeignCapabilities(cs[1..], remoteAS);
    }
  }

  lemma OwnCapabilitiesPassIff(asn: u32, cs: seq<Capability>, remoteAS: u32)
    ensures CheckCapabilities(OwnCapabilities(asn, cs), remoteAS)
         == if asn == remoteAS then Ok(true) else Err(OpenError(NOTIF_SUBCODE_BAD_PEER_AS))
  {
    var own := OwnCapabilities(asn, cs);
    assert own[1..] == WithoutFourOctetAS(cs);
    CheckSkipsForeignCapabilities(own[1..], remoteAS);
    GetPutU32(asn, []);
    assert PutU32(asn) + [] == PutU32(asn);
  }

  /** It carries exactly one four-octet-AS capability, the first, and it names the AS. */
  lemma OneFourOctetASCapability(asn: u32, holdTime: u16, id: u32, cs: seq<Capability>, i: nat)
    requires i < |CapabilitiesOf(NewOpenMessage(asn, holdTime, id, cs).optionalParams)|
    ensures var own := CapabilitiesOf(NewOpenMessage(asn, holdTime, id, cs).optionalParams);
            own[0] == Capability(CAP_FOUR_OCTET_AS, PutU32(asn)) && (own[i].code == CAP_FOUR_OCTET_AS <==> i == 0)
  {
    var o := NewOpenMessage(asn, holdTime, id, cs);
    assert o.optionalParams == [CapabilityParam(OwnCapabilities(asn, cs))];
    assert CapabilitiesOf(o.optionalParams) == OwnCapabilities(asn, cs) + [];
    if i > 0 {
      assert OwnCapabilities(asn, cs)[i] in WithoutFourOctetAS(cs);
    }
  }

  /** The capabilities of the local OPEN fit its length octets. */
  predicate Fits(asn: u32, cs: seq<Capability>) {
    |EncodeCapabilities(OwnCapabilities(asn, cs))| <= 253
  }

  lemma NewOpenDescribableIff(asn: u32, holdTime: u16, id: u32, cs: seq<Capability>)
    ensures EncodeOpenBody(NewOpenMessage(asn, holdTime, id, cs)).Ok?
    ensures Describable(NewOpenMessage(asn, holdTime, id, cs)) <==> Fits(asn, cs)
  {
    var o := NewOpenMessage(asn, holdTime, id, cs);
    var p := CapabilityParam(OwnCapabilities(asn, cs));
    assert o.optionalParams == [p] && o.optionalParams[1..] == [];
    assert EncodeParams(o.optionalParams).Ok?;
    assert |EncodeParams(o.optionalParams).value| == 2 + |EncodeCapabilities(p.capabilities)|;
  }

  /** Validation of the OPEN a speaker builds, at a speaker (localId, localAS) that expects remoteAS. */
  lemma NewOpenValidIff(asn: u32, holdTime: u16, id: u32, cs: seq<Capability>,
                        localId: u32, localAS: u32, remoteAS: u32)
    ensures Validate(NewOpenMessage(asn, holdTime, id, cs), localId, localAS, remoteAS).None? <==>
            && asn == remoteAS
            && !IsMulticast(id)
            && !(localAS == asn && localId == id)
            && (holdTime == 0 || holdTime >= 3)
  {
    var o := NewOpenMessage(asn, holdTime, id, cs);
    assert o.optionalParams == [CapabilityParam(OwnCapabilities(asn, cs))];
    assert CapabilitiesOf(o.optionalParams) == OwnCapabilities(asn, cs) + [];
    assert OwnCapabilities(asn, cs) + [] == OwnCapabilities(asn, cs);
    OwnCapabilitiesPassIff(asn, cs, remoteAS);
  }

  /** What becomes of an OPEN body at a speaker (localId, localAS) that expects remoteAS. */
  predicate Accepted(body: seq<byte>, localId: u32, localAS: u32, remoteAS: u32) {
    DecodeOpenBody(body).Ok? && Validate(DecodeOpenBody(body).value, localId, localAS, remoteAS).None?
  }

  /**
    The OPEN a speaker builds always encodes, and the receiver accepts it exactly when the
    capabilities fit, the receiver expects this AS, the identifier is not multicast, the
    two speakers are distinct and the hold time is 0 or at least 3 seconds.
    */
  lemma NewOpenAcceptedIff(asn: u32, holdTime: u16, id: u32, cs: seq<Capability>,
                           localId: u32, localAS: u32, remoteAS: u32)
    ensures var encoded := EncodeOpenBody(NewOpenMessage(asn, holdTime, id, cs));
            && encoded.Ok?
            && (Accepted(encoded.value, localId, localAS, remoteAS) <==>
                && Fits(asn, cs)
                && asn == remoteAS
                && !IsMulticast(id)
                && !(localAS == asn && localId == id)
                && (holdTime == 0 || holdTime >= 3))
  {
    var o := NewOpenMessage(asn, holdTime, id, cs);
    NewOpenDescribableIff(asn, holdTime, id, cs);
    OpenRoundTripsIff(o);
    NewOpenValidIff(asn, holdTime, id, cs, localId, localAS, remoteAS);
  }

  // ----- NOTIFICATION

  /** A NOTIFICATION survives the wire exactly when it does not carry one octet of data. */
  lemma NotificationRoundTripsIff(n: Notification)
    ensures DecodeNotificationBody(EncodeNotificationBody(n)) == Ok(n) <==> |n.data| != 1
  {
    var b := EncodeNotificationBody(n);
    assert b[2..] == if |n.data| > 1 then n.data else [];
  }
}
