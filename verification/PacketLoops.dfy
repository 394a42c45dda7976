/**
  The loops of the message codec in the program's own form: a cursor that is advanced, a
  buffer that is appended to, early returns. Each computes the function of `Packet` that
  the other proofs are about.
  */
module PacketLoops {
  import opened Bytes
  import opened Notifications
  import opened Packet

  /** Elements already collected in front of what is still to come. */
  function Prepend<T>(done: seq<T>, more: Outcome<seq<T>>): (r: Outcome<seq<T>>)
    ensures done == [] ==> r == more
    ensures more == Ok([]) ==> r == Ok(done)
  {
    assert done + [] == done;
    if more.Ok? then assert [] + more.value == more.value; Ok(done + more.value) else more
  }

  method DecodeCapabilityParam(input: seq<byte>) returns (r: Outcome<seq<Capability>>)
    ensures r == DecodeCapabilities(input)
  {
    var b, capabilities: seq<Capability> := input, [];
    while true
      invariant DecodeCapabilities(input) == Prepend(capabilities, DecodeCapabilities(b))
      decreases |b|
    {
      if |b| < 2 {
        return Err(OpenError(0));
      }
      var capCode, capLen := b[0], b[1];
      if |b| < capLen as int + 2 {
        return Err(OpenError(0));
      }
      var capValue := [];
      if capLen > 0 {
        var end := ToU8(capLen as int + 2);
        if end < 2 {
          return Panic;
        }
        capValue := b[2..end];
      }
      ghost var before := capabilities;
      capabilities := capabilities + [Capability(capCode, capValue)];
      b := b[2 + capLen..];
      if |b| == 0 {
        return Ok(capabilities);
      }
      assert forall more :: before + ([Capability(capCode, capValue)] + more) == capabilities + more;
    }
  }

  method DecodeOptionalParams(input: seq<byte>) returns (r: Outcome<seq<OptionalParam>>)
    ensures r == DecodeParams(input)
  {
    var b, params: seq<OptionalParam> := input, [];
    while true
      invariant DecodeParams(input) == Prepend(params, DecodeParams(b))
      decreases |b|
    {
      if |b| < 2 {
        return Err(OpenError(0));
      }
      var paramCode, paramLen := b[0], b[1];
      if |b| < paramLen as int + 2 {
        return Err(OpenError(0));
      }
      var paramToDecode := [];
      if paramLen > 0 {
        var end := ToU8(paramLen as int + 2);
        if end < 2 {
          return Panic;
        }
        paramToDecode := b[2..end];
      }
      assert NextTriplet(b) == Ok(Triplet(paramCode, paramToDecode, b[2 + paramLen..]));
      b := b[2 + paramLen..];
      if paramCode != CAPABILITY_PARAM_TYPE {
        return Err(OpenError(NOTIF_SUBCODE_UNSUPPORTED_OPTIONAL_PARAM));
      }
      var caps := DecodeCapabilityParam(paramToDecode);
      if !caps.Ok? {
        return if caps.Err? then Err(caps.error) else Panic;
      }
      ghost var before := params;
      params := params + [CapabilityParam(caps.value)];
      if |b| == 0 {
        return Ok(params);
      }
      assert forall more :: before + ([CapabilityParam(caps.value)] + more) == params + more;
    }
  }

  lemma {:induction false} EncodeCapabilitiesAppend(cs: seq<Capability>, c: Capability)
    ensures EncodeCapabilities(cs + [c]) == EncodeCapabilities(cs) + EncodeCapability(c)
  {
    if cs == [] {
      assert cs + [c] == [c];
    } else {
      assert (cs + [c])[1..] == cs[1..] + [c];
      EncodeCapabilitiesAppend(cs[1..], c);
    }
  }

  method EncodeCapabilityParam(p: OptionalParam) returns (r: Outcome<seq<byte>>)
    ensures r == EncodeParam(p)
  {
    if |p.capabilities| == 0 {
      return Err(OtherError);
    }
    var caps: seq<byte> := [];
    for i := 0 to |p.capabilities|
      invariant caps == EncodeCapabilities(p.capabilities[..i])
    {
      EncodeCapabilitiesAppend(p.capabilities[..i], p.capabilities[i]);
      assert p.capabilities[..i] + [p.capabilities[i]] == p.capabilities[..i + 1];
      caps := caps + EncodeCapability(p.capabilities[i]);
    }
    assert p.capabilities[..|p.capabilities|] == p.capabilities;
    return Ok([CAPABILITY_PARAM_TYPE, ToU8(|caps|)] + caps);
  }

  method EncodeOpen(o: OpenMessage) returns (r: Outcome<seq<byte>>)
    ensures r == Encode(Open(o))
  {
    var params: seq<byte> := [];
    assert o.optionalParams[0..] == o.optionalParams;
    for i := 0 to |o.optionalParams|
      invariant EncodeParams(o.optionalParams)
             == Prepend(params, EncodeParams(o.optionalParams[i..]))
    {
      assert o.optionalParams[i..][1..] == o.optionalParams[i + 1..];
      var p := EncodeCapabilityParam(o.optionalParams[i]);
      if !p.Ok? {
        return p;
      }
      ghost var before := params;
      params := params + p.value;
      assert forall more :: before + (p.value + more) == params + more;
    }
    var b := [o.version] + PutU16(o.asn) + PutU16(o.holdTime) + PutU32(o.bgpId);
    b := b + [ToU8(|params|)];
    b := b + params;
    assert b == OpenFixedPart(o, |params|) + params;
    return Ok(PrependHeader(b, OPEN_MESSAGE_TYPE));
  }

  lemma {:induction false} WithoutFourOctetASAppend(cs: seq<Capability>, c: Capability)
    ensures WithoutFourOctetAS(cs + [c])
         == WithoutFourOctetAS(cs) + if c.code != CAP_FOUR_OCTET_AS then [c] else []
  {
    if cs == [] {
      assert cs + [c] == [c];
    } else {
      assert (cs + [c])[1..] == cs[1..] + [c];
      WithoutFourOctetASAppend(cs[1..], c);
    }
  }

  method BuildOpen(asn: u32, holdTime: u16, bgpId: u32, cs: seq<Capability>) returns (o: OpenMessage)
    ensures o == NewOpenMessage(asn, holdTime, bgpId, cs)
  {
    var allCaps := [FourOctetASCap(asn)];
    for i := 0 to |cs|
      invariant allCaps == [FourOctetASCap(asn)] + WithoutFourOctetAS(cs[..i])
    {
      WithoutFourOctetASAppend(cs[..i], cs[i]);
      assert cs[..i] + [cs[i]] == cs[..i + 1];
      if cs[i].code != CAP_FOUR_OCTET_AS {
        allCaps := allCaps + [cs[i]];
      }
    }
    assert cs[..|cs|] == cs;
    return OpenMessage(4, if asn > 0xFFFF then AS_TRANS else asn, holdTime, bgpId, [CapabilityParam(allCaps)]);
  }

  method ValidateOpen(o: OpenMessage, localId: u32, localAS: u32, remoteAS: u32) returns (r: Option<Error>)
    ensures r == Validate(o, localId, localAS, remoteAS)
  {
    if o.version != 4 {
      return Some(Refuse(NOTIF_CODE_OPEN_MESSAGE_ERR, NOTIF_SUBCODE_UNSUPPORTED_VERSION_NUM, PutU16(4)));
    }
    var fourOctetAS, fourOctetASFound := false, false;
    if o.asn == AS_TRANS {
      fourOctetAS := true;
    } else if o.asn != remoteAS {
      return Some(OpenError(NOTIF_SUBCODE_BAD_PEER_AS));
    }
    if o.holdTime < 3 && o.holdTime != 0 {
      return Some(OpenError(NOTIF_SUBCODE_UNACCEPTABLE_HOLD_TIME));
    }
    if IsMulticast(o.bgpId) {
      return Some(OpenError(NOTIF_SUBCODE_BAD_BGP_ID));
    }
    if localAS == remoteAS && localId == o.bgpId {
      return Some(OpenError(NOTIF_SUBCODE_BAD_BGP_ID));
    }
    var caps := CapabilitiesOf(o.optionalParams);
    for i := 0 to |caps|
      invariant CheckCapabilities(caps, remoteAS)
             == var rest := CheckCapabilities(caps[i..], remoteAS);
                if rest.Ok? then Ok(fourOctetASFound || rest.value) else rest
    {
      assert caps[i..][1..] == caps[i + 1..];
      if caps[i].code == CAP_FOUR_OCTET_AS {
        fourOctetASFound := true;
        if |caps[i].value| != 4 {
          return Some(OpenError(0));
        }
        if GetU32(caps[i].value) != remoteAS {
          return Some(OpenError(NOTIF_SUBCODE_BAD_PEER_AS));
        }
      }
    }
    if fourOctetAS && !fourOctetASFound {
      return Some(OpenError(NOTIF_SUBCODE_BAD_PEER_AS));
    } else if !fourOctetASFound {
      return Some(Refuse(NOTIF_CODE_OPEN_MESSAGE_ERR, NOTIF_SUBCODE_UNSUPPORTED_CAPABILITY,
                         EncodeCapability(FourOctetASCap(remoteAS))));
    }
    return None;
  }
}
