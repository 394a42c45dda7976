/**
  The path attributes of an UPDATE: splitting the block into attributes, delivering the
  first occurrence of each to the plugin's callback, and the errors raised on the way.
  */
module PathAttrs {
  import opened Bytes
  import opened Notifications
  import opened UpdateErrors
  import opened AttrsBitmap

  const PATH_ATTR_ORIGIN: byte := 1
  const PATH_ATTR_AS_PATH: byte := 2
  const PATH_ATTR_MP_REACH_NLRI: byte := 14
  const PATH_ATTR_MP_UNREACH_NLRI: byte := 15

  /** One call of a plugin callback. */
  datatype Delivery =
    | Withdrawn(b: seq<byte>)
    | Attribute(code: byte, flags: byte, b: seq<byte>)
    | Nlri(b: seq<byte>)

  /**
    The plugin's callbacks: the error returned by the last delivery of a history. They
    share state, so what one returns may depend on everything delivered before.
    */
  type Plugin = seq<Delivery> -> Option<Err>

  // ----- splitting the block

  /** `1<<4 & flags != 0`. */
  predicate ExtendedLen(flags: byte) { flags / 16 % 2 == 1 }

  datatype Attr = Attr(flags: byte, code: byte, value: seq<byte>)

  /** The attributes of a block, and the code reported if the block is cut short. */
  datatype Block = Block(attrs: seq<Attr>, fault: Option<byte>)

  /** The octets in front of the value. */
  function HeaderLen(flags: byte): nat { if ExtendedLen(flags) then 4 else 3 }

  datatype Split = Cut(code: byte) | First(attr: Attr, rest: seq<byte>)

  function SplitAttr(b: seq<byte>): (r: Split)
    requires b != []
    ensures r.First? ==> |r.rest| < |b|
  {
    if |b| < 2 then Cut(0)
    else if |b| < HeaderLen(b[0]) then Cut(b[1])
    else
      var length: nat := if ExtendedLen(b[0]) then GetU16(b[2..4]) else b[2];
      var rest := b[HeaderLen(b[0])..];
      if |rest| < length then Cut(b[1]) else First(Attr(b[0], b[1], rest[..length]), rest[length..])
  }

  function ParseBlock(b: seq<byte>): Block
    decreases |b|
  {
    if b == [] then Block([], None)
    else
      match SplitAttr(b)
      case Cut(code) => Block([], Some(code))
      case First(a, rest) => var more := ParseBlock(rest); Block([a] + more.attrs, more.fault)
  }

  // ----- walking over the attributes

  datatype Walk = Walk(log: seq<Delivery>, err: Option<Err>, seen: set<byte>, stopped: bool)

  const MALFORMED_ATTR_LIST := Notification(NOTIF_CODE_UPDATE_MESSAGE_ERR, NOTIF_SUBCODE_MALFORMED_ATTR_LIST, [])

  predicate IsMultiprotocol(code: byte) {
    code == PATH_ATTR_MP_REACH_NLRI || code == PATH_ATTR_MP_UNREACH_NLRI
  }

  function Deliver(p: Plugin, w: Walk, a: Attr): Walk {
    var log := w.log + [Attribute(a.code, a.flags, a.value)];
    var e := p(log);
    Walk(log, if e.Some? then Join(w.err, e) else w.err, w.seen + {a.code}, MayReset(e))
  }

  function Visit(p: Plugin, w: Walk, a: Attr): Walk {
    if a.code !in w.seen then Deliver(p, w, a)
    else if IsMultiprotocol(a.code) then w.(err := Join(w.err, Some(Reset(MALFORMED_ATTR_LIST))), stopped := true)
    else w
  }

  function VisitAll(p: Plugin, w: Walk, attrs: seq<Attr>): Walk
    decreases |attrs|
  {
    if attrs == [] || w.stopped then w else VisitAll(p, Visit(p, w, attrs[0]), attrs[1..])
  }

  function TotalAttrLenErr(code: byte): Err { Withdraw(code, Some(UPDATE_ERROR)) }

  function MissingAttr(code: byte): Err {
    Withdraw(code, Some(Notification(NOTIF_CODE_UPDATE_MESSAGE_ERR, NOTIF_SUBCODE_MISSING_WELL_KNOWN_ATTR, [code])))
  }

  /** The mandatory attribute reported as missing, if routes are announced without it. */
  function MissingCode(seen: set<byte>, hasNLRI: bool): Option<byte> {
    if !(PATH_ATTR_MP_REACH_NLRI in seen || hasNLRI) then None
    else if PATH_ATTR_ORIGIN !in seen then Some(PATH_ATTR_ORIGIN)
    else if PATH_ATTR_AS_PATH !in seen then Some(PATH_ATTR_AS_PATH)
    else None
  }

  function OptErr(e: Option<Err>, add: Option<Err>): Option<Err> { if add.Some? then Join(e, add) else e }

  /** The deliveries and the error of a whole block. */
  datatype Result = Result(log: seq<Delivery>, err: Option<Err>)

  function Conclude(w: Walk, fault: Option<byte>, hasNLRI: bool): Result {
    if w.stopped then Result(w.log, w.err)
    else
      var cut := OptErr(w.err, if fault.Some? then Some(TotalAttrLenErr(fault.value)) else None);
      var missing := MissingCode(w.seen, hasNLRI);
      Result(w.log, OptErr(cut, if missing.Some? then Some(MissingAttr(missing.value)) else None))
  }

  /** An empty block is accepted before any check. */
  function DecodeBlock(p: Plugin, log: seq<Delivery>, b: seq<byte>, hasNLRI: bool): Result {
    if b == [] then Result(log, None)
    else Conclude(VisitAll(p, Walk(log, None, {}, false), ParseBlock(b).attrs), ParseBlock(b).fault, hasNLRI)
  }

  // ----- the loop of the program

  /** Walking over the rest of a block continues the walk over the whole. */
  lemma VisitParsed(p: Plugin, w: Walk, b: seq<byte>)
    requires b != [] && SplitAttr(b).First? && !w.stopped
    ensures VisitAll(p, w, ParseBlock(b).attrs)
         == VisitAll(p, Visit(p, w, SplitAttr(b).attr), ParseBlock(SplitAttr(b).rest).attrs)
    ensures ParseBlock(b).fault == ParseBlock(SplitAttr(b).rest).fault
  {
    var more := ParseBlock(SplitAttr(b).rest).attrs;
    assert ([SplitAttr(b).attr] + more)[1..] == more;
  }

  /** The header of length h in front of a value of the length it states. */
  lemma SplitAfterHeader(b: seq<byte>, rest: seq<byte>, length: nat)
    requires |b| >= 2 && |b| >= HeaderLen(b[0]) && rest == b[HeaderLen(b[0])..] && length <= |rest|
    requires length == if ExtendedLen(b[0]) then GetU16(b[2..4]) else b[2]
    ensures SplitAttr(b) == First(Attr(b[0], b[1], rest[..length]), rest[length..])
  {
  }

  method DecodePathAttrs(p: Plugin, log0: seq<Delivery>, input: seq<byte>, hasNLRI: bool)
    returns (log: seq<Delivery>, err: Option<Err>)
    ensures Result(log, err) == DecodeBlock(p, log0, input, hasNLRI)
  {
    log, err := log0, None;
    if |input| < 1 {
      return;
    }
    var b := input;
    var attrsSeen := new Bitmap();
    while |b| > 0
      invariant attrsSeen.Valid() && fresh(attrsSeen.words)
      invariant DecodeBlock(p, log0, input, hasNLRI) == Conclude(
                  VisitAll(p, Walk(log, err, attrsSeen.Codes(), false), ParseBlock(b).attrs),
                  ParseBlock(b).fault, hasNLRI)
      decreases |b|
    {
      ghost var w := Walk(log, err, attrsSeen.Codes(), false);
      ghost var whole := b;
      var flags := b[0];
      if |b| < 2 {
        err := Join(err, Some(TotalAttrLenErr(0)));
        break;
      }
      var attrType := b[1];
      var attrLen: nat;
      if ExtendedLen(flags) {
        if |b| < 4 {
          err := Join(err, Some(TotalAttrLenErr(attrType)));
          break;
        }
        attrLen := GetU16(b[2..4]);
        b := b[4..];
      } else {
        if |b| < 3 {
          err := Join(err, Some(TotalAttrLenErr(attrType)));
          break;
        }
        attrLen := b[2];
        b := b[3..];
      }
      if |b| < attrLen {
        err := Join(err, Some(TotalAttrLenErr(attrType)));
        break;
      }
      SplitAfterHeader(whole, b, attrLen);
      VisitParsed(p, w, whole);
      var isSeen := attrsSeen.IsSet(attrType);
      if isSeen {
        if attrType == PATH_ATTR_MP_REACH_NLRI || attrType == PATH_ATTR_MP_UNREACH_NLRI {
          err := Join(err, Some(Reset(MALFORMED_ATTR_LIST)));
          return;
        }
        b := b[attrLen..];
        continue;
      }
      attrsSeen.Set(attrType);
      log := log + [Attribute(attrType, flags, b[..attrLen])];
      var e := p(log);
      if e.Some? {
        err := Join(err, e);
        if HasReset(e.value) {
          return;
        }
      }
      b := b[attrLen..];
    }
    var missing := FindMissing(attrsSeen, hasNLRI);
    if missing.Some? {
      err := Join(err, Some(MissingAttr(missing.value)));
    }
  }

  /** The check after the loop. */
  method FindMissing(attrsSeen: Bitmap, hasNLRI: bool) returns (missing: Option<byte>)
    requires attrsSeen.Valid()
    ensures missing == MissingCode(attrsSeen.Codes(), hasNLRI)
  {
    var reach := attrsSeen.IsSet(PATH_ATTR_MP_REACH_NLRI);
    if reach || hasNLRI {
      var asPath := attrsSeen.IsSet(PATH_ATTR_AS_PATH);
      var origin := attrsSeen.IsSet(PATH_ATTR_ORIGIN);
      if !asPath || !origin {
        var missingCode := PATH_ATTR_AS_PATH;
        if !origin {
          missingCode := PATH_ATTR_ORIGIN;
        }
        return Some(missingCode);
      }
    }
    return None;
  }
}
