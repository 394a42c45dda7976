/**
  The BGP message codec: OPEN with its optional parameters and capabilities,
  NOTIFICATION, KEEPALIVE and UPDATE bodies, the message header, the construction of the
  local OPEN and the validation of a received one.

  Functions define the wire format and the decoders; module PacketLoops holds the loops
  of the program, proved to compute those functions.
  */
module Packet {
  import opened Bytes
  import opened Notifications

  const OPEN_MESSAGE_TYPE: byte := 1
  const UPDATE_MESSAGE_TYPE: byte := 2
  const NOTIFICATION_MESSAGE_TYPE: byte := 3
  const KEEPALIVE_MESSAGE_TYPE: byte := 4
  const HEADER_LENGTH: nat := 19
  const CAPABILITY_PARAM_TYPE: byte := 2
  const CAP_FOUR_OCTET_AS: byte := 65
  const AS_TRANS: u16 := 23456

  datatype Capability = Capability(code: byte, value: seq<byte>)

  /** The only optional parameter the program knows is the list of capabilities. */
  datatype OptionalParam = CapabilityParam(capabilities: seq<Capability>)

  datatype OpenMessage = OpenMessage(
    version: byte, asn: u16, holdTime: u16, bgpId: u32, optionalParams: seq<OptionalParam>)

  datatype Message =
    | Open(open: OpenMessage)
    | Update(body: seq<byte>)
    | Notify(notification: Notification)
    | KeepAlive

  function MessageType(m: Message): byte {
    match m
    case Open(_) => OPEN_MESSAGE_TYPE
    case Update(_) => UPDATE_MESSAGE_TYPE
    case Notify(_) => NOTIFICATION_MESSAGE_TYPE
    case KeepAlive => KEEPALIVE_MESSAGE_TYPE
  }

  // ----- encoding

  function EncodeCapability(c: Capability): (b: seq<byte>)
    ensures |b| == 2 + |c.value|
  {
    [c.code, ToU8(|c.value|)] + c.value
  }

  function EncodeCapabilities(cs: seq<Capability>): seq<byte> {
    if cs == [] then [] else EncodeCapability(cs[0]) + EncodeCapabilities(cs[1..])
  }

  function EncodeParam(p: OptionalParam): Outcome<seq<byte>> {
    if p.capabilities == [] then Err(OtherError)
    else
      var caps := EncodeCapabilities(p.capabilities);
      Ok([CAPABILITY_PARAM_TYPE, ToU8(|caps|)] + caps)
  }

  function EncodeParams(ps: seq<OptionalParam>): Outcome<seq<byte>> {
    if ps == [] then Ok([])
    else
      var p :- EncodeParam(ps[0]);
      var rest :- EncodeParams(ps[1..]);
      Ok(p + rest)
  }

  /** The ten fixed octets of an OPEN body. */
  function OpenFixedPart(o: OpenMessage, paramsLen: nat): (b: seq<byte>)
    ensures |b| == 10
  {
    [o.version] + PutU16(o.asn) + PutU16(o.holdTime) + PutU32(o.bgpId) + [ToU8(paramsLen)]
  }

  function EncodeOpenBody(o: OpenMessage): Outcome<seq<byte>> {
    var params :- EncodeParams(o.optionalParams);
    Ok(OpenFixedPart(o, |params|) + params)
  }

  /** One octet of data is dropped: the program appends the data only when it is longer. */
  function EncodeNotificationBody(n: Notification): seq<byte> {
    [n.code, n.subcode] + if |n.data| > 1 then n.data else []
  }

  function Marker(n: nat): (b: seq<byte>)
    ensures |b| == n
    ensures forall i :: 0 <= i < n ==> b[i] == 0xFF
  {
    seq(n, _ => 0xFF)
  }

  function Header(length: nat, messageType: byte): (b: seq<byte>)
    ensures |b| == HEADER_LENGTH
  {
    Marker(16) + PutU16(ToU16(length)) + [messageType]
  }

  function PrependHeader(m: seq<byte>, messageType: byte): (b: seq<byte>)
    ensures |b| == |m| + HEADER_LENGTH
  {
    Header(|m| + HEADER_LENGTH, messageType) + m
  }

  function EncodeBody(m: Message): Outcome<seq<byte>> {
    match m
    case Open(o) => EncodeOpenBody(o)
    case Update(body) => Ok(body)
    case Notify(n) => Ok(EncodeNotificationBody(n))
    case KeepAlive => Ok([])
  }

  function Encode(m: Message): Outcome<seq<byte>> {
    var body :- EncodeBody(m);
    Ok(PrependHeader(body, MessageType(m)))
  }

  // ----- decoding

  /**
    One type-length-value triplet at the front of a list. `b[2 : l+2]` is computed with
    the length in a `uint8`, so a length of 254 or more makes the slice expression panic.
    */
  datatype Triplet = Triplet(code: byte, value: seq<byte>, rest: seq<byte>)

  function NextTriplet(b: seq<byte>): (r: Outcome<Triplet>)
    ensures r.Ok? ==> |r.value.rest| < |b|
  {
    if |b| < 2 then Err(OpenError(0))
    else if |b| < b[1] as int + 2 then Err(OpenError(0))
    else if b[1] > 0 && ToU8(b[1] as int + 2) < 2 then Panic
    else Ok(Triplet(b[0], if b[1] > 0 then b[2..ToU8(b[1] as int + 2)] else [], b[2 + b[1]..]))
  }

  function DecodeCapabilities(b: seq<byte>): Outcome<seq<Capability>>
    decreases |b|
  {
    var t :- NextTriplet(b);
    var c := Capability(t.code, t.value);
    if t.rest == [] then Ok([c])
    else
      var cs :- DecodeCapabilities(t.rest);
      Ok([c] + cs)
  }

  function DecodeParam(code: byte, value: seq<byte>): Outcome<OptionalParam> {
    if code == CAPABILITY_PARAM_TYPE then
      var cs :- DecodeCapabilities(value);
      Ok(CapabilityParam(cs))
    else Err(OpenError(NOTIF_SUBCODE_UNSUPPORTED_OPTIONAL_PARAM))
  }

  function DecodeParams(b: seq<byte>): Outcome<seq<OptionalParam>>
    decreases |b|
  {
    var t :- NextTriplet(b);
    var p :- DecodeParam(t.code, t.value);
    if t.rest == [] then Ok([p])
    else
      var ps :- DecodeParams(t.rest);
      Ok([p] + ps)
  }

  /** The fixed fields of an OPEN body. */
  function OpenFields(b: seq<byte>): OpenMessage
    requires |b| >= 10
  {
    OpenMessage(b[0], GetU16(b[1..3]), GetU16(b[3..5]), GetU32(b[5..9]), [])
  }

  function DecodeOpenBody(b: seq<byte>): Outcome<OpenMessage> {
    if |b| < 10 then Err(Refuse(NOTIF_CODE_MESSAGE_HEADER_ERR, NOTIF_SUBCODE_BAD_MESSAGE_LEN, b))
    else if b[9] != |b| - 10 then Err(OpenError(0))
    else
      var params :- DecodeParams(b[10..]);
      Ok(OpenFields(b).(optionalParams := params))
  }

  function DecodeNotificationBody(b: seq<byte>): Outcome<Notification> {
    if |b| < 2 then Err(OtherError)
    else Ok(Notification(b[0], b[1], b[2..]))
  }

  function MessageFromBytes(b: seq<byte>, messageType: byte): Outcome<Message> {
    if messageType == OPEN_MESSAGE_TYPE then
      var o :- DecodeOpenBody(b);
      Ok(Open(o))
    else if messageType == UPDATE_MESSAGE_TYPE then Ok(Update(b))
    else if messageType == NOTIFICATION_MESSAGE_TYPE then
      var n :- DecodeNotificationBody(b);
      Ok(Notify(n))
    else if messageType == KEEPALIVE_MESSAGE_TYPE then Ok(KeepAlive)
    else Err(Refuse(NOTIF_CODE_MESSAGE_HEADER_ERR, NOTIF_SUBCODE_BAD_MESSAGE_TYPE, [messageType]))
  }

  // ----- the local OPEN and the validation of the remote one

  function FourOctetASCap(asn: u32): Capability {
    Capability(CAP_FOUR_OCTET_AS, PutU32(asn))
  }

  function WithoutFourOctetAS(cs: seq<Capability>): (r: seq<Capability>)
    ensures forall c :: c in r ==> c.code != CAP_FOUR_OCTET_AS
  {
    if cs == [] then []
    else if cs[0].code != CAP_FOUR_OCTET_AS then [cs[0]] + WithoutFourOctetAS(cs[1..])
    else WithoutFourOctetAS(cs[1..])
  }

  /** The hold time is the peer option, a whole number of seconds. */
  function NewOpenMessage(asn: u32, holdTime: u16, bgpId: u32, cs: seq<Capability>): OpenMessage {
    OpenMessage(4, if asn > 0xFFFF then AS_TRANS else asn, holdTime, bgpId,
                [CapabilityParam([FourOctetASCap(asn)] + WithoutFourOctetAS(cs))])
  }

  function CapabilitiesOf(ps: seq<OptionalParam>): seq<Capability> {
    if ps == [] then [] else ps[0].capabilities + CapabilitiesOf(ps[1..])
  }

  /** 224.0.0.0/4. */
  predicate IsMulticast(id: u32) {
    id / 0x1000_0000 == 14
  }

  /** The loop over the capabilities: whether a four-octet-AS capability was found. */
  function CheckCapabilities(cs: seq<Capability>, remoteAS: u32): (r: Outcome<bool>)
    ensures !r.Panic?
  {
    if cs == [] then Ok(false)
    else if cs[0].code == CAP_FOUR_OCTET_AS then
      if |cs[0].value| != 4 then Err(OpenError(0))
      else if GetU32(cs[0].value) != remoteAS then Err(OpenError(NOTIF_SUBCODE_BAD_PEER_AS))
      else
        var r := CheckCapabilities(cs[1..], remoteAS);
        if r.Ok? then Ok(true) else r
    else CheckCapabilities(cs[1..], remoteAS)
  }

  function Validate(o: OpenMessage, localId: u32, localAS: u32, remoteAS: u32): Option<Error> {
    if o.version != 4 then
      Some(Refuse(NOTIF_CODE_OPEN_MESSAGE_ERR, NOTIF_SUBCODE_UNSUPPORTED_VERSION_NUM, PutU16(4)))
    else if o.asn != AS_TRANS && o.asn != remoteAS then
      Some(OpenError(NOTIF_SUBCODE_BAD_PEER_AS))
    else if o.holdTime < 3 && o.holdTime != 0 then
      Some(OpenError(NOTIF_SUBCODE_UNACCEPTABLE_HOLD_TIME))
    else if IsMulticast(o.bgpId) then
      Some(OpenError(NOTIF_SUBCODE_BAD_BGP_ID))
    else if localAS == remoteAS && localId == o.bgpId then
      Some(OpenError(NOTIF_SUBCODE_BAD_BGP_ID))
    else
      match CheckCapabilities(CapabilitiesOf(o.optionalParams), remoteAS)
      case Ok(found) =>
        if found then None
        else if o.asn == AS_TRANS then Some(OpenError(NOTIF_SUBCODE_BAD_PEER_AS))
        else Some(Refuse(NOTIF_CODE_OPEN_MESSAGE_ERR, NOTIF_SUBCODE_UNSUPPORTED_CAPABILITY,
                         EncodeCapability(FourOctetASCap(remoteAS))))
      case Err(e) => Some(e)
  }
}
