/**
  Which error an UPDATE is answered with, in terms of its octets, of what was delivered and
  of what the callbacks returned: the errors of the callbacks are all kept, in order, and the
  decoder adds its own exactly where the block is at fault.
  */
module UpdateMeaning {
  import opened Bytes
  import opened Notifications
  import opened UpdateErrors
  import opened PathAttrs
  import opened PathAttrsProofs
  import opened UpdateDecoder

  /** The extended-length bit is 0x10. */
  lemma ExtendedLenBit(flags: byte)
    ensures ExtendedLen(flags) <==> flags as bv8 & 0x10 != 0
  {
  }

  // ----- the errors in an error

  function LeavesOf(e: Option<Err>): seq<Err> {
    if e.Some? then Leaves(e.value) else []
  }

  lemma LeavesOfJoin(a: Option<Err>, b: Option<Err>)
    ensures LeavesOf(Join(a, b)) == LeavesOf(a) + LeavesOf(b)
  {
    var x, y := (if a.Some? then [a.value] else []), (if b.Some? then [b.value] else []);
    LeavesOfConcat(x, y);
    LeavesOfFew(a);
    LeavesOfFew(b);
    assert [] + LeavesOfAll(x + y) == LeavesOfAll(x + y);
  }

  lemma LeavesOfFew(e: Option<Err>)
    ensures LeavesOfAll(if e.Some? then [e.value] else []) == LeavesOf(e)
  {
    if e.Some? {
      assert [e.value][1..] == [] && Leaves(e.value) + [] == Leaves(e.value);
    }
  }

  lemma {:induction false} LeavesOfConcat(a: seq<Err>, b: seq<Err>)
    ensures LeavesOfAll(a + b) == LeavesOfAll(a) + LeavesOfAll(b)
  {
    if a == [] {
      assert a + b == b;
    } else {
      assert (a + b)[1..] == a[1..] + b;
      LeavesOfConcat(a[1..], b);
    }
  }

  lemma LeavesOfOptErr(e: Option<Err>, add: Option<Err>)
    ensures LeavesOf(OptErr(e, add)) == LeavesOf(e) + LeavesOf(add)
  {
    if add.Some? {
      LeavesOfJoin(e, add);
    } else {
      assert LeavesOf(e) + [] == LeavesOf(e);
    }
  }

  lemma HighestOfOne(m: Mark)
    ensures Highest([m]) == m.notification
  {
    assert [m][1..] == [];
    assert forall s :: UpdateErrors.First([m], s) == if m.severity == s then Some(m.notification) else None;
  }

  /** The NOTIFICATION an error carries is the one that is sent; without one, a bare 3/0. */
  lemma CarriedIsSent(code: byte, n: Notification)
    ensures Highest(Marks(Reset(n))) == n
    ensures Highest(Marks(Withdraw(code, Some(n)))) == n == Highest(Marks(Discard(code, Some(n))))
    ensures Highest(Marks(Other(Some(n), []))) == n
    ensures Highest(Marks(Withdraw(code, None))) == Notification(3, 0, []) == Highest(Marks(Discard(code, None)))
    ensures Highest(Marks(Other(None, []))) == Notification(3, 0, [])
  {
    var bare := Notification(3, 0, []);
    HighestOfOne(Mark(SessionReset, n));
    HighestOfOne(Mark(TreatAsWithdraw, n));
    HighestOfOne(Mark(AttrDiscard, n));
    HighestOfOne(Mark(AnyUpdateError, n));
    HighestOfOne(Mark(TreatAsWithdraw, bare));
    HighestOfOne(Mark(AttrDiscard, bare));
    assert Marks(Other(Some(n), [])) == [Mark(AnyUpdateError, n)];
    assert Marks(Other(None, [])) == [];
  }

  // ----- one block of attributes

  /** What the callbacks returned for the deliveries after the first n, in order. */
  function Raised(p: Plugin, log: seq<Delivery>, n: nat): seq<Err>
    decreases |log|
  {
    if |log| <= n then [] else Raised(p, log[..|log| - 1], n) + LeavesOf(p(log))
  }

  lemma RaisedOneMore(p: Plugin, log: seq<Delivery>, d: Delivery, n: nat)
    requires n <= |log|
    ensures Raised(p, log + [d], n) == Raised(p, log, n) + LeavesOf(p(log + [d]))
  {
    assert (log + [d])[..|log|] == log;
  }

  /** The error for octets that are left over: the code is that of the attribute cut short. */
  function CutError(left: seq<byte>): seq<Err> {
    if left == [] then []
    else [Withdraw(if |left| < 2 then 0 else left[1], Some(Notification(3, 0, [])))]
  }

  /** The error for a mandatory attribute that was not delivered although routes are announced. */
  ghost function MissingError(log: seq<Delivery>, n: nat, hasNLRI: bool): seq<Err> {
    if !(hasNLRI || Delivered(log, n, 14)) then []
    else if !Delivered(log, n, 1) then [Withdraw(1, Some(Notification(3, 3, [1])))]
    else if !Delivered(log, n, 2) then [Withdraw(2, Some(Notification(3, 3, [2])))]
    else []
  }

  /** Attribute k is a repeated MP_REACH_NLRI or MP_UNREACH_NLRI. */
  predicate RepeatAt(attrs: seq<Attr>, k: nat) {
    k < |attrs| && (attrs[k].code == 14 || attrs[k].code == 15) && attrs[k].code in CodesOf(attrs[..k])
  }

  /** The walk over the first n attributes ended at one. */
  predicate EndsAtRepeat(attrs: seq<Attr>, n: nat) {
    n > 0 && RepeatAt(attrs, n - 1)
  }

  /** The errors of the decoder itself. */
  ghost function OwnErrors(p: Plugin, n0: nat, repeat: bool, left: seq<byte>, log: seq<Delivery>, hasNLRI: bool)
    : seq<Err>
  {
    if repeat then [Reset(Notification(3, 1, []))]
    else if |log| > n0 && MayReset(p(log)) then []
    else CutError(left) + MissingError(log, n0, hasNLRI)
  }

  /**
    What the walk has reported so far: all that the callbacks returned, and a reset of its own
    if it was stopped by a repeated attribute.
    */
  ghost predicate Reported(p: Plugin, n0: nat, w: Walk, repeat: bool) {
    && n0 <= |w.log|
    && (repeat ==> w.stopped)
    && (|w.log| > n0 ==> (MayReset(p(w.log)) <==> w.stopped && !repeat))
    && (|w.log| == n0 ==> w.stopped == repeat)
    && LeavesOf(w.err) == Raised(p, w.log, n0) + if repeat then [Reset(MALFORMED_ATTR_LIST)] else []
  }

  lemma DeliverReports(p: Plugin, n0: nat, w: Walk, a: Attr)
    requires Reported(p, n0, w, false) && !w.stopped
    ensures Reported(p, n0, Deliver(p, w, a), false)
  {
    var d := Attribute(a.code, a.flags, a.value);
    RaisedOneMore(p, w.log, d, n0);
    LeavesOfOptErr(w.err, p(w.log + [d]));
    assert Raised(p, w.log, n0) + [] == Raised(p, w.log, n0);
  }

  lemma RepeatReports(p: Plugin, n0: nat, w: Walk)
    requires Reported(p, n0, w, false) && !w.stopped
    ensures var reset := Some(Reset(MALFORMED_ATTR_LIST));
            Reported(p, n0, w.(err := Join(w.err, reset), stopped := true), true)
  {
    LeavesOfJoin(w.err, Some(Reset(MALFORMED_ATTR_LIST)));
    assert Raised(p, w.log, n0) + [] == Raised(p, w.log, n0);
  }

  /** The attribute is a repeated MP_REACH_NLRI or MP_UNREACH_NLRI. */
  predicate Repeats(w: Walk, a: Attr) { a.code in w.seen && (a.code == 14 || a.code == 15) }

  lemma VisitReports(p: Plugin, n0: nat, w: Walk, a: Attr)
    requires Reported(p, n0, w, false) && !w.stopped
    ensures Reported(p, n0, Visit(p, w, a), Repeats(w, a))
  {
    if a.code !in w.seen {
      DeliverReports(p, n0, w, a);
    } else if Repeats(w, a) {
      RepeatReports(p, n0, w);
    }
  }

  /** The walk after n attributes, as far as errors are concerned. */
  lemma {:induction false} WalkReports(p: Plugin, log: seq<Delivery>, attrs: seq<Attr>, m: nat) returns (n: nat)
    requires m <= |attrs|
    ensures var w := VisitAll(p, Walk(log, None, {}, false), attrs[..m]);
            && n <= m && WalkedTo(p, log, attrs, n, w) && (!w.stopped ==> n == m)
            && Reported(p, |log|, w, EndsAtRepeat(attrs, n))
  {
    var w := Walk(log, None, {}, false);
    if m == 0 {
      n := 0;
      assert attrs[..0] == [] && log + [] == log;
    } else {
      n := WalkReports(p, log, attrs, m - 1);
      assert attrs[..m] == attrs[..m - 1] + [attrs[m - 1]];
      VisitAllAppend(p, w, attrs[..m - 1], attrs[m - 1]);
      var v := VisitAll(p, w, attrs[..m - 1]);
      if !v.stopped {
        VisitAdvances(p, log, attrs, n, v);
        VisitReports(p, |log|, v, attrs[n]);
        n := m;
      }
    }
  }

  lemma MissingMeans(seen: set<byte>, log: seq<Delivery>, n0: nat, hasNLRI: bool)
    requires forall c: byte :: c in seen <==> Delivered(log, n0, c)
    ensures var missing := MissingCode(seen, hasNLRI);
            MissingError(log, n0, hasNLRI) == if missing.Some? then [MissingAttr(missing.value)] else []
  {
  }

  lemma ConcludeMeans(w: Walk, fault: Option<byte>, hasNLRI: bool)
    requires !w.stopped
    ensures var missing := MissingCode(w.seen, hasNLRI);
            LeavesOf(Conclude(w, fault, hasNLRI).err) == LeavesOf(w.err)
              + (if fault.Some? then [TotalAttrLenErr(fault.value)] else [])
              + (if missing.Some? then [MissingAttr(missing.value)] else [])
  {
    var missing := MissingCode(w.seen, hasNLRI);
    var cut := if fault.Some? then Some(TotalAttrLenErr(fault.value)) else None;
    LeavesOfOptErr(w.err, cut);
    LeavesOfOptErr(OptErr(w.err, cut), if missing.Some? then Some(MissingAttr(missing.value)) else None);
  }

  lemma ConcludeReports(p: Plugin, n0: nat, w: Walk, repeat: bool, left: seq<byte>, hasNLRI: bool)
    requires Reported(p, n0, w, repeat) && forall c: byte :: c in w.seen <==> Delivered(w.log, n0, c)
    ensures var fault := if left == [] then None else Some(if |left| < 2 then 0 else left[1]);
            var r := Conclude(w, fault, hasNLRI);
            r.log == w.log && LeavesOf(r.err) == Raised(p, w.log, n0) + OwnErrors(p, n0, repeat, left, w.log, hasNLRI)
  {
    if !w.stopped {
      ConcludeMeans(w, if left == [] then None else Some(if |left| < 2 then 0 else left[1]), hasNLRI);
      MissingMeans(w.seen, w.log, n0, hasNLRI);
      assert Raised(p, w.log, n0) + [] == Raised(p, w.log, n0);
    }
  }

  /**
    The error of a block that is not empty: everything its callbacks returned, in order, and
    then the decoder's own errors. `left` are the octets after the last whole attribute, and
    the walk went over the first n attributes.
    */
  lemma BlockErrorIs(p: Plugin, log: seq<Delivery>, b: seq<byte>, hasNLRI: bool) returns (n: nat, left: seq<byte>)
    requires b != []
    ensures AllWritable(ParseBlock(b).attrs) && WriteAttrs(ParseBlock(b).attrs) + left == b
    ensures EndsAt(p, log, ParseBlock(b).attrs, n)
    ensures var r := DecodeBlock(p, log, b, hasNLRI);
            LeavesOf(r.err) == Raised(p, r.log, |log|)
              + OwnErrors(p, |log|, EndsAtRepeat(ParseBlock(b).attrs, n), left, r.log, hasNLRI)
  {
    var attrs, w := ParseBlock(b).attrs, Walk(log, None, {}, false);
    left := WriteInvertsParse(b);
    n := WalkReports(p, log, attrs, |attrs|);
    assert attrs[..|attrs|] == attrs;
    SeenIsDelivered(p, |log|, w, attrs);
    ConcludeReports(p, |log|, VisitAll(p, w, attrs), EndsAtRepeat(attrs, n), left, hasNLRI);
  }

  // ----- when there is nothing to report

  ghost predicate NeverErrs(p: Plugin) {
    forall h :: p(h) == None
  }

  lemma {:induction false} NothingRaised(p: Plugin, log: seq<Delivery>, n: nat)
    requires NeverErrs(p)
    ensures Raised(p, log, n) == []
    decreases |log|
  {
    if |log| > n {
      NothingRaised(p, log[..|log| - 1], n);
    }
  }

  /** No error is built around nothing. */
  lemma {:induction false} QuietWalk(p: Plugin, w: Walk, attrs: seq<Attr>)
    requires NeverErrs(p) && (w.err.Some? ==> LeavesOf(w.err) != [])
    ensures var v := VisitAll(p, w, attrs); v.err.Some? ==> LeavesOf(v.err) != []
    decreases |attrs|
  {
    if attrs != [] && !w.stopped {
      LeavesOfJoin(w.err, Some(Reset(MALFORMED_ATTR_LIST)));
      QuietWalk(p, Visit(p, w, attrs[0]), attrs[1..]);
    }
  }

  lemma QuietBlock(p: Plugin, log: seq<Delivery>, b: seq<byte>, hasNLRI: bool)
    requires NeverErrs(p)
    ensures var r := DecodeBlock(p, log, b, hasNLRI); r.err.None? <==> LeavesOf(r.err) == []
  {
    if b != [] {
      var w, block := Walk(log, None, {}, false), ParseBlock(b);
      QuietWalk(p, w, block.attrs);
      var v := VisitAll(p, w, block.attrs);
      if !v.stopped {
        ConcludeMeans(v, block.fault, hasNLRI);
      }
    }
  }

  /** The attributes of an UPDATE that nothing is wrong with. */
  predicate Faultless(attrs: seq<Attr>, hasNLRI: bool) {
    && NoneRepeats(attrs)
    && (hasNLRI || 14 in CodesOf(attrs) ==> 1 in CodesOf(attrs) && 2 in CodesOf(attrs))
  }

  predicate NoneRepeats(attrs: seq<Attr>) {
    forall k :: 0 <= k < |attrs| ==> !RepeatAt(attrs, k)
  }

  /** The octets are the writing of such attributes, or there are none. */
  ghost predicate FaultlessBlock(b: seq<byte>, hasNLRI: bool) {
    b == [] || exists attrs :: AllWritable(attrs) && WriteAttrs(attrs) == b && Faultless(attrs, hasNLRI)
  }

  /** With a plugin that never errs, the walk ends early only at a repeated attribute. */
  lemma QuietEnd(p: Plugin, log: seq<Delivery>, attrs: seq<Attr>, n: nat)
    requires NeverErrs(p) && EndsAt(p, log, attrs, n)
    ensures EndsAtRepeat(attrs, n) <==> !NoneRepeats(attrs)
    ensures NoneRepeats(attrs) ==> n == |attrs|
  {
    if EndsAtRepeat(attrs, n) {
      assert RepeatAt(attrs, n - 1);
    } else {
      forall k | 0 <= k < |attrs| ensures !RepeatAt(attrs, k) {
        if k < n - 1 {
          assert !Stops(p, log, attrs, k);
        }
      }
    }
  }

  /** The codes that were delivered are then those of all attributes. */
  lemma QuietCodes(p: Plugin, log: seq<Delivery>, attrs: seq<Attr>)
    requires NeverErrs(p) && NoneRepeats(attrs)
    ensures VisitAll(p, Walk(log, None, {}, false), attrs).seen == CodesOf(attrs)
  {
    var n := WalkReports(p, log, attrs, |attrs|);
    assert attrs[..|attrs|] == attrs;
    if n > 0 {
      assert !RepeatAt(attrs, n - 1);
    }
  }

  lemma QuietMissing(p: Plugin, log: seq<Delivery>, attrs: seq<Attr>, hasNLRI: bool)
    requires NeverErrs(p) && NoneRepeats(attrs)
    ensures var v := VisitAll(p, Walk(log, None, {}, false), attrs);
            MissingError(v.log, |log|, hasNLRI) == [] <==> Faultless(attrs, hasNLRI)
  {
    QuietCodes(p, log, attrs);
    SeenIsDelivered(p, |log|, Walk(log, None, {}, false), attrs);
  }

  lemma QuietParsed(p: Plugin, log: seq<Delivery>, b: seq<byte>, hasNLRI: bool)
    requires NeverErrs(p) && b != []
    ensures AllWritable(ParseBlock(b).attrs)
    ensures DecodeBlock(p, log, b, hasNLRI).err.None? <==>
            WriteAttrs(ParseBlock(b).attrs) == b && Faultless(ParseBlock(b).attrs, hasNLRI)
  {
    var attrs, r := ParseBlock(b).attrs, DecodeBlock(p, log, b, hasNLRI);
    var n, left := BlockErrorIs(p, log, b, hasNLRI);
    QuietBlock(p, log, b, hasNLRI);
    QuietEnd(p, log, attrs, n);
    NothingRaised(p, r.log, |log|);
    if NoneRepeats(attrs) {
      QuietMissing(p, log, attrs, hasNLRI);
    }
    assert WriteAttrs(attrs) == b <==> left == [] by {
      assert |WriteAttrs(attrs)| + |left| == |b|;
      if left == [] {
        assert WriteAttrs(attrs) + [] == WriteAttrs(attrs);
      }
    }
  }

  /**
    With a plugin that never errs, a block is decoded without an error exactly when it is
    empty, or the writing of attributes none of which is a repeated MP_REACH_NLRI or
    MP_UNREACH_NLRI and among which are ORIGIN and AS_PATH if routes are announced.
    */
  lemma NoErrorIff(p: Plugin, log: seq<Delivery>, b: seq<byte>, hasNLRI: bool)
    requires NeverErrs(p)
    ensures DecodeBlock(p, log, b, hasNLRI).err.None? <==> FaultlessBlock(b, hasNLRI)
  {
    if b != [] {
      QuietParsed(p, log, b, hasNLRI);
      forall attrs | AllWritable(attrs) && WriteAttrs(attrs) == b ensures attrs == ParseBlock(b).attrs {
        ParseInvertsWrite(attrs);
      }
    }
  }

  // ----- the whole UPDATE

  /** What each callback returned and what the block was answered with, in order. */
  lemma DecodeErrorIs(p: Plugin, f: Fields)
    ensures var r := DecodeFields(p, f);
            var first := [Withdrawn(f.withdrawn)];
            var block := DecodeBlock(p, first, f.attrs, f.nlri != []);
            LeavesOf(r.err) == LeavesOf(p(first)) +
              if MayReset(p(first)) then []
              else LeavesOf(block.err) + if MayReset(block.err) then [] else LeavesOf(p(r.log))
  {
    var first := [Withdrawn(f.withdrawn)];
    var me := OptErr(None, p(first));
    LeavesOfOptErr(None, p(first));
    if !MayReset(p(first)) {
      var block := DecodeBlock(p, first, f.attrs, f.nlri != []);
      LeavesOfOptErr(me, block.err);
      LeavesOfOptErr(OptErr(me, block.err), p(block.log + [Nlri(f.nlri)]));
    }
  }

  /** The fields can be found. */
  predicate Findable(f: Fields) {
    |f.withdrawn| < 0xFFFE && |f.attrs| < 0x1_0000
  }

  /** The fields of a body are found exactly when there are any; otherwise the session is reset, with 3/0 or 3/1. */
  lemma LocateMeans(b: seq<byte>)
    ensures Locate(b).Located? <==> exists f :: Findable(f) && WriteFields(f) == b
    ensures Locate(b).Bad? ==> Locate(b).notification == Notification(3, if |b| < 4 then 0 else 1, [])
  {
    if Locate(b).Located? {
      FieldsRebuildBody(b);
      assert Findable(Locate(b).fields) && WriteFields(Locate(b).fields) == b;
    } else {
      forall f | Findable(f) ensures WriteFields(f) != b {
        BodyLocatesFields(f);
      }
    }
  }

  /**
    With a plugin that never errs, an UPDATE is decoded without an error exactly when its
    fields can be found and its attributes are faultless.
    */
  lemma UpdateAcceptedIff(p: Plugin, b: seq<byte>)
    requires NeverErrs(p)
    ensures (DecodeUpdate(p, b).Decoding? && DecodeUpdate(p, b).result.err.None?) <==>
            exists f :: Findable(f) && WriteFields(f) == b && FaultlessBlock(f.attrs, f.nlri != [])
  {
    LocateMeans(b);
    forall f | Findable(f) && WriteFields(f) == b ensures Locate(b) == Located(f) {
      BodyLocatesFields(f);
    }
    if Locate(b).Located? {
      var f := Locate(b).fields;
      NoErrorIff(p, [Withdrawn(f.withdrawn)], f.attrs, f.nlri != []);
    }
  }
}
