/**
  The UPDATE decoder: locating the three fields, calling the plugin for each, and the
  error it returns.
  */
module UpdateDecoder {
  import opened Bytes
  import opened Notifications
  import opened UpdateErrors
  import opened PathAttrs
  import opened PathAttrsProofs

  /** The three fields of an UPDATE body. */
  datatype Fields = Fields(withdrawn: seq<byte>, attrs: seq<byte>, nlri: seq<byte>)

  /** What one call of the decoder does: it panics, or makes deliveries and returns an error. */
  datatype Decoding = Decoding(result: Result) | Panicking

  datatype Located = Located(fields: Fields) | Bad(notification: Notification) | Wraps

  /**
    The length checks. `wrl+2` is computed in a `uint16`: when it wraps, the slice
    expression panics.
    */
  function Locate(b: seq<byte>): Located {
    if |b| < 4 then Bad(UPDATE_ERROR)
    else
      var wrl := GetU16(b[..2]);
      var c := b[2..];
      if |c| < wrl as int + 2 then Bad(MALFORMED_ATTR_LIST)
      else if ToU16(wrl as int + 2) < wrl then Wraps
      else
        var pal := GetU16(c[wrl..wrl + 2]);
        if |c| - wrl - 2 < pal then Bad(MALFORMED_ATTR_LIST)
        else Located(Fields(c[..wrl], c[wrl + 2..][..pal], c[wrl + 2..][pal..]))
  }

  /** Withdrawn routes, path attributes, NLRI; a reset in a callback's error ends the decoding. */
  function DecodeFields(p: Plugin, f: Fields): Result {
    var log := [Withdrawn(f.withdrawn)];
    var me := OptErr(None, p(log));
    if MayReset(p(log)) then Result(log, me) else DecodeRest(p, Result(log, me), f)
  }

  function DecodeRest(p: Plugin, r: Result, f: Fields): Result {
    var block := DecodeBlock(p, r.log, f.attrs, f.nlri != []);
    var me := OptErr(r.err, block.err);
    if MayReset(block.err) then Result(block.log, me)
    else
      var log := block.log + [Nlri(f.nlri)];
      Result(log, OptErr(me, p(log)))
  }

  function DecodeUpdate(p: Plugin, b: seq<byte>): Decoding {
    match Locate(b)
    case Bad(n) => Decoding(Result([], Some(Reset(n))))
    case Wraps => Panicking
    case Located(f) => Decoding(DecodeFields(p, f))
  }

  /** The decoder in the program's form. */
  method Decode(p: Plugin, input: seq<byte>) returns (r: Decoding)
    ensures r == DecodeUpdate(p, input)
  {
    if |input| < 4 {
      return Decoding(Result([], Some(Reset(UPDATE_ERROR))));
    }
    var wrl := GetU16(input[..2]);
    var b := input[2..];
    if |b| < wrl as int + 2 {
      return Decoding(Result([], Some(Reset(MALFORMED_ATTR_LIST))));
    }
    var end := ToU16(wrl as int + 2);
    if end < wrl {
      return Panicking;
    }
    var pal := GetU16(b[wrl..end]);
    if |b[end..]| < pal {
      return Decoding(Result([], Some(Reset(MALFORMED_ATTR_LIST))));
    }
    ghost var f := Fields(b[..wrl], b[end..][..pal], b[end..][pal..]);
    assert Locate(input) == Located(f);

    var me: Option<Err> := None;
    var log := [Withdrawn(b[..wrl])];
    var err := p(log);
    if err.Some? {
      me := Join(me, err);
      if HasReset(err.value) {
        return Decoding(Result(log, me));
      }
    }
    b := b[end..];
    assert b[..pal] == f.attrs && b[pal..] == f.nlri;
    assert DecodeFields(p, f) == DecodeRest(p, Result(log, me), f);

    log, err := DecodePathAttrs(p, log, b[..pal], |b[pal..]| > 0);
    if err.Some? {
      me := Join(me, err);
      if HasReset(err.value) {
        return Decoding(Result(log, me));
      }
    }
    b := b[pal..];

    log := log + [Nlri(b)];
    err := p(log);
    if err.Some? {
      me := Join(me, err);
    }
    return Decoding(Result(log, me));
  }

  // ----- the fields

  /** The decoder panics exactly on bodies longer than any message whose first length wraps. */
  lemma PanicsIff(p: Plugin, b: seq<byte>)
    ensures DecodeUpdate(p, b).Panicking? <==> |b| >= 4 && GetU16(b[..2]) >= 0xFFFE && |b| >= GetU16(b[..2]) as int + 4
    ensures |b| <= 0x1_0001 ==> DecodeUpdate(p, b).Decoding?
  {
  }

  function WriteFields(f: Fields): seq<byte>
    requires |f.withdrawn| < 0x1_0000 && |f.attrs| < 0x1_0000
  {
    PutU16(|f.withdrawn|) + f.withdrawn + PutU16(|f.attrs|) + f.attrs + f.nlri
  }

  /** The fields and their lengths rebuild the body exactly, whatever the attributes contain. */
  lemma FieldsRebuildBody(b: seq<byte>)
    requires Locate(b).Located?
    ensures var f := Locate(b).fields;
            |f.withdrawn| < 0x1_0000 && |f.attrs| < 0x1_0000 && WriteFields(f) == b
  {
    var wrl := GetU16(b[..2]);
    var c := b[2..];
    var pal := GetU16(c[wrl..wrl + 2]);
    PutGetU16(b[..2]);
    PutGetU16(c[wrl..wrl + 2]);
    assert b == b[..2][..2] + c[..wrl] + c[wrl..wrl + 2][..2] + c[wrl + 2..][..pal] + c[wrl + 2..][pal..];
  }

  lemma BodyLocatesFields(f: Fields)
    requires |f.withdrawn| < 0xFFFE && |f.attrs| < 0x1_0000
    ensures Locate(WriteFields(f)) == Located(f)
  {
    var b := WriteFields(f);
    var c := b[2..];
    var wrl, pal := |f.withdrawn|, |f.attrs|;
    GetPutU16(wrl, []);
    GetPutU16(pal, []);
    assert b[..2] == PutU16(wrl) + [];
    assert c == f.withdrawn + PutU16(pal) + (f.attrs + f.nlri);
    assert c[wrl..wrl + 2] == PutU16(pal) + [];
    assert c[wrl + 2..] == f.attrs + f.nlri;
  }

  // ----- deliveries and resets

  /** Attribute deliveries only. */
  predicate OnlyAttributes(log: seq<Delivery>, from: nat) {
    forall i :: from <= i < |log| ==> log[i].Attribute?
  }

  lemma {:induction false} WalkDeliversAttributes(p: Plugin, n: nat, w: Walk, attrs: seq<Attr>)
    requires n <= |w.log| && OnlyAttributes(w.log, n)
    ensures w.log <= VisitAll(p, w, attrs).log && OnlyAttributes(VisitAll(p, w, attrs).log, n)
    decreases |attrs|
  {
    if attrs != [] && !w.stopped {
      WalkDeliversAttributes(p, n, Visit(p, w, attrs[0]), attrs[1..]);
    }
  }

  lemma BlockDeliversAttributes(p: Plugin, log: seq<Delivery>, b: seq<byte>, hasNLRI: bool)
    ensures log <= DecodeBlock(p, log, b, hasNLRI).log && OnlyAttributes(DecodeBlock(p, log, b, hasNLRI).log, |log|)
  {
    WalkDeliversAttributes(p, |log|, Walk(log, None, {}, false), ParseBlock(b).attrs);
  }

  /**
    Withdrawn routes come first, then attributes, then the NLRI field as located by the
    lengths; without a reset all three fields are delivered, however malformed the
    attribute list is.
    */
  lemma DeliveryOrder(p: Plugin, f: Fields)
    ensures var r := DecodeFields(p, f);
            && r.log != [] && r.log[0] == Withdrawn(f.withdrawn)
            && (forall i :: 0 < i < |r.log| - 1 ==> r.log[i].Attribute?)
            && (|r.log| > 1 ==> r.log[|r.log| - 1].Attribute? || r.log[|r.log| - 1] == Nlri(f.nlri))
            && (!MayReset(r.err) ==> |r.log| > 1 && r.log[|r.log| - 1] == Nlri(f.nlri))
  {
    var log := [Withdrawn(f.withdrawn)];
    var me := OptErr(None, p(log));
    JoinedMarks(None, p(log), SessionReset);
    if !MayReset(p(log)) {
      BlockDeliversAttributes(p, log, f.attrs, f.nlri != []);
      var block := DecodeBlock(p, log, f.attrs, f.nlri != []);
      JoinedMarks(me, block.err, SessionReset);
    }
  }

  lemma RestHeeds(p: Plugin, r: Result, f: Fields)
    requires |r.log| == 1 && !MayReset(r.err) && !MayReset(p(r.log))
    ensures ResetsHeeded(p, [], DecodeRest(p, r, f))
  {
    var block := DecodeBlock(p, r.log, f.attrs, f.nlri != []);
    BlockHeeds(p, r.log, f.attrs, f.nlri != []);
    var me := OptErr(r.err, block.err);
    JoinedMarks(r.err, block.err, SessionReset);
    assert block.log[..1] == r.log && (|block.log| == 1 ==> block.log == r.log);
    assert Quiet(p, block.log, 0) by {
      forall j | 0 < j < |block.log| ensures !MayReset(p(block.log[..j])) {
        if j > 1 {
          assert |r.log| < j;
        }
      }
    }
    if !MayReset(block.err) {
      var log := block.log + [Nlri(f.nlri)];
      assert log[..|block.log|] == block.log;
      assert forall j :: 0 <= j <= |block.log| ==> log[..j] == block.log[..j];
      JoinedMarks(me, p(log), SessionReset);
    }
  }

  /** After a delivery whose callback raised a reset nothing more is delivered. */
  lemma FieldsHeed(p: Plugin, f: Fields)
    ensures ResetsHeeded(p, [], DecodeFields(p, f))
  {
    var log := [Withdrawn(f.withdrawn)];
    var me := OptErr(None, p(log));
    JoinedMarks(None, p(log), SessionReset);
    if !MayReset(p(log)) {
      RestHeeds(p, Result(log, me), f);
    }
  }

  /**
    Decoding followed by the search for a NOTIFICATION: if any callback raised a reset, it
    was the last one made, no earlier one had raised one, and the NOTIFICATION found is
    its; if the decoder itself reset the session, the NOTIFICATION is the decoder's.
    */
  lemma FirstResetIsReported(p: Plugin, b: seq<byte>)
    requires DecodeUpdate(p, b).Decoding? && MayReset(DecodeUpdate(p, b).result.err)
    ensures var r := DecodeUpdate(p, b).result;
            && Quiet(p, r.log, 0)
            && Highest(MarksOf(r.err)) ==
                 if Locate(b).Bad? then Locate(b).notification
                 else if MayReset(p(r.log)) then Highest(MarksOf(p(r.log)))
                 else MALFORMED_ATTR_LIST
  {
    var r := DecodeUpdate(p, b).result;
    if Locate(b).Located? {
      FieldsHeed(p, Locate(b).fields);
      DeliveryOrder(p, Locate(b).fields);
      assert Highest(MarksOf(r.err)) == ResetOf(r.err).value;
      if MayReset(p(r.log)) {
        assert Highest(MarksOf(p(r.log))) == ResetOf(p(r.log)).value;
      }
    } else {
      assert MarksOf(r.err) == [Mark(SessionReset, Locate(b).notification)];
    }
  }

  /**
    Routes in the NLRI field with a non-empty attribute block: without a reset, ORIGIN and
    AS_PATH were both delivered or the error asks for treat-as-withdraw.
    */
  lemma RoutesHaveMandatoryAttributes(p: Plugin, f: Fields)
    requires f.attrs != [] && f.nlri != [] && !MayReset(DecodeFields(p, f).err)
    ensures var r := DecodeFields(p, f);
            || (Delivered(r.log, 1, PATH_ATTR_ORIGIN) && Delivered(r.log, 1, PATH_ATTR_AS_PATH))
            || AsksWithdraw(r.err)
  {
    var log := [Withdrawn(f.withdrawn)];
    var me := OptErr(None, p(log));
    JoinedMarks(None, p(log), SessionReset);
    var block := DecodeBlock(p, log, f.attrs, true);
    var me' := OptErr(me, block.err);
    JoinedMarks(me, block.err, SessionReset);
    JoinedMarks(me, block.err, TreatAsWithdraw);
    MandatoryAttributesIff(p, log, f.attrs, true);
    var log' := block.log + [Nlri(f.nlri)];
    JoinedMarks(me', p(log'), TreatAsWithdraw);
    DeliveredStays(block.log, log', 1, PATH_ATTR_ORIGIN);
    DeliveredStays(block.log, log', 1, PATH_ATTR_AS_PATH);
  }

  lemma DeliveredStays(log: seq<Delivery>, log': seq<Delivery>, n: nat, code: byte)
    requires log <= log'
    ensures Delivered(log, n, code) ==> Delivered(log', n, code)
  {
    if Delivered(log, n, code) {
      var i :| n <= i < |log| && log[i].Attribute? && log[i].code == code;
      assert log'[i] == log[i];
    }
  }
}
