/**
  What the path attribute loop guarantees: the split loses no octet, the callback sees
  exactly the first occurrence of each attribute in wire order up to the first stop, and
  announced routes never go without the mandatory attributes unnoticed.
  */
module PathAttrsProofs {
  import opened Bytes
  import opened Notifications
  import opened UpdateErrors
  import opened PathAttrs

  // ----- splitting is the inverse of writing

  predicate Writable(a: Attr) {
    |a.value| < if ExtendedLen(a.flags) then 0x1_0000 else 0x100
  }

  function WriteAttr(a: Attr): seq<byte>
    requires Writable(a)
  {
    [a.flags, a.code] + (if ExtendedLen(a.flags) then PutU16(|a.value|) else [|a.value|]) + a.value
  }

  predicate AllWritable(attrs: seq<Attr>) {
    forall i :: 0 <= i < |attrs| ==> Writable(attrs[i])
  }

  function WriteAttrs(attrs: seq<Attr>): seq<byte>
    requires AllWritable(attrs)
  {
    if attrs == [] then [] else WriteAttr(attrs[0]) + WriteAttrs(attrs[1..])
  }

  lemma SplitInvertsWrite(a: Attr, rest: seq<byte>)
    requires Writable(a)
    ensures SplitAttr(WriteAttr(a) + rest) == First(a, rest)
  {
    var b := WriteAttr(a) + rest;
    if ExtendedLen(a.flags) {
      assert b[2..4] == PutU16(|a.value|) + [];
      GetPutU16(|a.value|, []);
    }
    assert b[HeaderLen(a.flags)..] == a.value + rest;
  }

  lemma WriteInvertsSplit(b: seq<byte>)
    requires b != [] && SplitAttr(b).First?
    ensures Writable(SplitAttr(b).attr)
    ensures WriteAttr(SplitAttr(b).attr) + SplitAttr(b).rest == b
  {
    var s := SplitAttr(b);
    var h := HeaderLen(b[0]);
    assert b == b[..h] + s.attr.value + s.rest;
    if ExtendedLen(b[0]) {
      PutGetU16(b[2..4]);
      assert b[..4] == [b[0], b[1]] + b[2..4][..2];
    } else {
      assert b[..3] == [b[0], b[1]] + [b[2]];
    }
  }

  lemma ParseOneMore(a: Attr, rest: seq<byte>)
    requires Writable(a)
    ensures ParseBlock(WriteAttr(a) + rest) == Block([a] + ParseBlock(rest).attrs, ParseBlock(rest).fault)
  {
    SplitInvertsWrite(a, rest);
  }

  lemma {:induction false} ParseInvertsWrite(attrs: seq<Attr>)
    requires AllWritable(attrs)
    ensures ParseBlock(WriteAttrs(attrs)) == Block(attrs, None)
  {
    if attrs != [] {
      var rest := WriteAttrs(attrs[1..]);
      ParseOneMore(attrs[0], rest);
      ParseInvertsWrite(attrs[1..]);
      assert attrs == [attrs[0]] + attrs[1..];
    }
  }

  lemma WriteOneMore(a: Attr, more: seq<Attr>, left: seq<byte>)
    requires Writable(a) && AllWritable(more)
    ensures AllWritable([a] + more)
    ensures WriteAttrs([a] + more) + left == WriteAttr(a) + (WriteAttrs(more) + left)
  {
    assert ([a] + more)[1..] == more;
  }

  /** The attributes found are a prefix of the block; a fault is reported iff octets are left over, with their code. */
  lemma {:induction false} WriteInvertsParse(b: seq<byte>) returns (left: seq<byte>)
    ensures AllWritable(ParseBlock(b).attrs)
    ensures WriteAttrs(ParseBlock(b).attrs) + left == b
    ensures ParseBlock(b).fault == if left == [] then None else Some(if |left| < 2 then 0 else left[1])
    decreases |b|
  {
    if b == [] || SplitAttr(b).Cut? {
      left := b;
      assert [] + b == b;
    } else {
      var a, rest := SplitAttr(b).attr, SplitAttr(b).rest;
      left := WriteInvertsParse(rest);
      assert Writable(a) && WriteAttr(a) + rest == b by {
        WriteInvertsSplit(b);
      }
      WriteOneMore(a, ParseBlock(rest).attrs, left);
    }
  }

  // ----- what is delivered

  function CodesOf(attrs: seq<Attr>): set<byte> {
    set i | 0 <= i < |attrs| :: attrs[i].code
  }

  /** The first occurrence of each code, in order. */
  function Firsts(attrs: seq<Attr>): seq<Attr> {
    if attrs == [] then []
    else
      var n := |attrs| - 1;
      Firsts(attrs[..n]) + if attrs[n].code in CodesOf(attrs[..n]) then [] else [attrs[n]]
  }

  function Deliveries(attrs: seq<Attr>): seq<Delivery> {
    seq(|attrs|, i requires 0 <= i < |attrs| => Attribute(attrs[i].code, attrs[i].flags, attrs[i].value))
  }

  /** The history when the callback for attribute k has been made. */
  function HistoryAt(log: seq<Delivery>, attrs: seq<Attr>, k: nat): seq<Delivery>
    requires k < |attrs|
  {
    log + Deliveries(Firsts(attrs[..k + 1]))
  }

  /** Attribute k ends the walk: a repeated MP_REACH or MP_UNREACH, or a callback that resets. */
  predicate Stops(p: Plugin, log: seq<Delivery>, attrs: seq<Attr>, k: nat)
    requires k < |attrs|
  {
    if attrs[k].code in CodesOf(attrs[..k]) then IsMultiprotocol(attrs[k].code)
    else MayReset(p(HistoryAt(log, attrs, k)))
  }

  lemma {:induction false} VisitAllAppend(p: Plugin, w: Walk, attrs: seq<Attr>, a: Attr)
    ensures VisitAll(p, w, attrs + [a])
         == var v := VisitAll(p, w, attrs); if v.stopped then v else Visit(p, v, a)
    decreases |attrs|
  {
    if attrs == [] {
      assert attrs + [a] == [a] && [a][1..] == [];
    } else if !w.stopped {
      assert (attrs + [a])[1..] == attrs[1..] + [a];
      VisitAllAppend(p, Visit(p, w, attrs[0]), attrs[1..], a);
    }
  }

  lemma CodesOfAppend(attrs: seq<Attr>, a: Attr)
    ensures CodesOf(attrs + [a]) == CodesOf(attrs) + {a.code}
  {
    var more := attrs + [a];
    assert forall i :: 0 <= i < |attrs| ==> more[i] == attrs[i];
    assert more[|attrs|] == a;
  }

  lemma DeliveriesAppend(log: seq<Delivery>, attrs: seq<Attr>, a: Attr)
    ensures log + Deliveries(attrs + [a]) == log + Deliveries(attrs) + [Attribute(a.code, a.flags, a.value)]
  {
  }

  /** The state of the walk after n attributes, none of the earlier ones having stopped it. */
  ghost predicate WalkedTo(p: Plugin, log: seq<Delivery>, attrs: seq<Attr>, n: nat, w: Walk) {
    && n <= |attrs|
    && w.log == log + Deliveries(Firsts(attrs[..n]))
    && w.seen == CodesOf(attrs[..n])
    && (forall k :: 0 <= k < n - 1 ==> !Stops(p, log, attrs, k))
    && (w.stopped <==> n > 0 && Stops(p, log, attrs, n - 1))
  }

  lemma VisitAdvances(p: Plugin, log: seq<Delivery>, attrs: seq<Attr>, n: nat, w: Walk)
    requires n < |attrs| && WalkedTo(p, log, attrs, n, w) && !w.stopped
    ensures WalkedTo(p, log, attrs, n + 1, Visit(p, w, attrs[n]))
  {
    var before, after := attrs[..n], attrs[..n + 1];
    assert after == before + [attrs[n]] && after[..n] == before;
    CodesOfAppend(before, attrs[n]);
    if attrs[n].code !in w.seen {
      DeliveriesAppend(log, Firsts(before), attrs[n]);
    } else {
      assert Firsts(before) + [] == Firsts(before);
    }
  }

  /**
    The walk is over the attributes in wire order up to and including the first that stops
    it; the callback was made exactly for the first occurrence of each code among them.
    */
  lemma {:induction false} WalkIsFirsts(p: Plugin, log: seq<Delivery>, attrs: seq<Attr>, m: nat) returns (n: nat)
    requires m <= |attrs|
    ensures n <= m && WalkedTo(p, log, attrs, n, VisitAll(p, Walk(log, None, {}, false), attrs[..m]))
    ensures !VisitAll(p, Walk(log, None, {}, false), attrs[..m]).stopped ==> n == m
  {
    var w := Walk(log, None, {}, false);
    if m == 0 {
      n := 0;
      assert attrs[..0] == [] && log + [] == log;
    } else {
      n := WalkIsFirsts(p, log, attrs, m - 1);
      assert attrs[..m] == attrs[..m - 1] + [attrs[m - 1]];
      VisitAllAppend(p, w, attrs[..m - 1], attrs[m - 1]);
      var v := VisitAll(p, w, attrs[..m - 1]);
      if !v.stopped {
        VisitAdvances(p, log, attrs, n, v);
        n := m;
      }
    }
  }

  /** No code is lost and none is kept twice. */
  lemma {:induction false} FirstsKeepCodes(attrs: seq<Attr>)
    ensures CodesOf(Firsts(attrs)) == CodesOf(attrs)
    ensures forall i, j :: 0 <= i < j < |Firsts(attrs)| ==> Firsts(attrs)[i].code != Firsts(attrs)[j].code
  {
    if attrs != [] {
      var n := |attrs| - 1;
      var before := attrs[..n];
      FirstsKeepCodes(before);
      assert attrs == before + [attrs[n]];
      CodesOfAppend(before, attrs[n]);
      CodesOfAppend(Firsts(before), attrs[n]);
      assert forall i :: 0 <= i < |Firsts(before)| ==> Firsts(before)[i].code in CodesOf(Firsts(before));
      assert Firsts(before) + [] == Firsts(before);
    }
  }

  /** The positions of the first occurrences. */
  function FirstIndices(attrs: seq<Attr>): seq<nat> {
    if attrs == [] then []
    else
      var n := |attrs| - 1;
      FirstIndices(attrs[..n]) + if attrs[n].code in CodesOf(attrs[..n]) then [] else [n]
  }

  /** Position k holds the earliest attribute of its code. */
  predicate IsFirst(attrs: seq<Attr>, k: nat) {
    k < |attrs| && attrs[k].code !in CodesOf(attrs[..k])
  }

  lemma {:induction false} IndicesAreFirst(attrs: seq<Attr>)
    ensures forall i :: 0 <= i < |FirstIndices(attrs)| ==> IsFirst(attrs, FirstIndices(attrs)[i])
    ensures forall i, j :: 0 <= i < j < |FirstIndices(attrs)| ==> FirstIndices(attrs)[i] < FirstIndices(attrs)[j]
    ensures forall k :: 0 <= k < |attrs| && IsFirst(attrs, k) ==> k in FirstIndices(attrs)
  {
    if attrs != [] {
      var n := |attrs| - 1;
      var before := attrs[..n];
      IndicesAreFirst(before);
      assert forall k :: 0 <= k < n ==> before[k] == attrs[k] && before[..k] == attrs[..k];
      assert forall k :: 0 <= k < n ==> (IsFirst(before, k) <==> IsFirst(attrs, k));
    }
  }

  lemma {:induction false} FirstsAtIndices(attrs: seq<Attr>)
    ensures |Firsts(attrs)| == |FirstIndices(attrs)|
    ensures forall i :: 0 <= i < |Firsts(attrs)| ==> FirstIndices(attrs)[i] < |attrs|
    ensures forall i :: 0 <= i < |Firsts(attrs)| ==> Firsts(attrs)[i] == attrs[FirstIndices(attrs)[i]]
  {
    if attrs != [] {
      FirstsAtIndices(attrs[..|attrs| - 1]);
    }
  }

  /**
    `Firsts` keeps exactly the attributes at the positions where a code occurs for the first
    time, in wire order.
    */
  lemma FirstsAreFirst(attrs: seq<Attr>) returns (at: seq<nat>)
    ensures |at| == |Firsts(attrs)|
    ensures forall i :: 0 <= i < |at| ==> IsFirst(attrs, at[i]) && Firsts(attrs)[i] == attrs[at[i]]
    ensures forall i, j :: 0 <= i < j < |at| ==> at[i] < at[j]
    ensures forall k :: 0 <= k < |attrs| && IsFirst(attrs, k) ==> k in at
  {
    at := FirstIndices(attrs);
    IndicesAreFirst(attrs);
    FirstsAtIndices(attrs);
  }

  /** The walk goes over the first n attributes: up to the first that stops it, or to the end. */
  ghost predicate EndsAt(p: Plugin, log: seq<Delivery>, attrs: seq<Attr>, n: nat) {
    && n <= |attrs|
    && (forall k :: 0 <= k < n - 1 ==> !Stops(p, log, attrs, k))
    && (n < |attrs| ==> n > 0 && Stops(p, log, attrs, n - 1))
  }

  /**
    The deliveries of a whole block: the first occurrence of each code, in wire order, up to
    the framing fault or the first attribute that stops the walk.
    */
  lemma BlockDelivers(p: Plugin, log: seq<Delivery>, b: seq<byte>, hasNLRI: bool) returns (n: nat)
    ensures EndsAt(p, log, ParseBlock(b).attrs, n)
    ensures DecodeBlock(p, log, b, hasNLRI).log == log + Deliveries(Firsts(ParseBlock(b).attrs[..n]))
  {
    var attrs := ParseBlock(b).attrs;
    n := WalkIsFirsts(p, log, attrs, |attrs|);
    assert attrs[..|attrs|] == attrs;
    if b == [] {
      assert Deliveries(Firsts(attrs[..0])) == [] && log + [] == log;
    }
  }

  // ----- what is reported

  lemma JoinedMarks(e: Option<Err>, add: Option<Err>, s: Severity)
    ensures MarksOf(OptErr(e, add)) == MarksOf(e) + MarksOf(add)
    ensures UpdateErrors.First(MarksOf(OptErr(e, add)), s)
         == OrElse(UpdateErrors.First(MarksOf(e), s), UpdateErrors.First(MarksOf(add), s))
  {
    if add.Some? {
      MarksOfJoin(e, add);
    } else {
      assert MarksOf(e) + [] == MarksOf(e);
    }
    FirstOfConcat(MarksOf(e), MarksOf(add), s);
  }

  /** The NOTIFICATION of an error that resets the session. */
  function ResetOf(e: Option<Err>): Option<Notification> {
    UpdateErrors.First(MarksOf(e), SessionReset)
  }

  /** The callback for attribute a, if it is made, and the error it adds. */
  lemma VisitAdds(p: Plugin, w: Walk, a: Attr)
    ensures var v := Visit(p, w, a);
            ResetOf(v.err) == OrElse(ResetOf(w.err),
              if a.code !in w.seen then ResetOf(p(v.log))
              else if IsMultiprotocol(a.code) then Some(MALFORMED_ATTR_LIST) else None)
  {
    var v := Visit(p, w, a);
    if a.code !in w.seen {
      JoinedMarks(w.err, p(v.log), SessionReset);
    } else if IsMultiprotocol(a.code) {
      JoinedMarks(w.err, Some(Reset(MALFORMED_ATTR_LIST)), SessionReset);
    }
  }

  /** No delivery between the two lengths of the history, the last one excluded, reset the session. */
  ghost predicate Quiet(p: Plugin, log: seq<Delivery>, from: nat) {
    forall j :: from < j < |log| ==> !MayReset(p(log[..j]))
  }

  /** What a walk that began with the history `log` has done about resets. */
  ghost predicate ResetsHeeded(p: Plugin, log: seq<Delivery>, r: Result) {
    && log <= r.log
    && Quiet(p, r.log, |log|)
    && ResetOf(r.err) == if |r.log| > |log| && MayReset(p(r.log)) then ResetOf(p(r.log))
                         else if MayReset(r.err) then Some(MALFORMED_ATTR_LIST) else None
  }

  lemma VisitHeeds(p: Plugin, log: seq<Delivery>, w: Walk, a: Attr)
    requires ResetsHeeded(p, log, Result(w.log, w.err)) && !MayReset(w.err) && !w.stopped
    ensures var v := Visit(p, w, a);
            ResetsHeeded(p, log, Result(v.log, v.err)) && (v.stopped <==> MayReset(v.err))
  {
    VisitAdds(p, w, a);
    var v := Visit(p, w, a);
    if a.code !in w.seen {
      assert v.log[..|w.log|] == w.log;
      assert forall j :: 0 <= j <= |w.log| ==> v.log[..j] == w.log[..j];
    }
  }

  /** A reset stops the walk at once, and it is the one reported. */
  lemma {:induction false} WalkHeeds(p: Plugin, log: seq<Delivery>, w: Walk, attrs: seq<Attr>)
    requires ResetsHeeded(p, log, Result(w.log, w.err)) && (w.stopped <==> MayReset(w.err))
    ensures var v := VisitAll(p, w, attrs);
            ResetsHeeded(p, log, Result(v.log, v.err)) && (v.stopped <==> MayReset(v.err))
    decreases |attrs|
  {
    if attrs != [] && !w.stopped {
      VisitHeeds(p, log, w, attrs[0]);
      WalkHeeds(p, log, Visit(p, w, attrs[0]), attrs[1..]);
    }
  }

  lemma BlockHeeds(p: Plugin, log: seq<Delivery>, b: seq<byte>, hasNLRI: bool)
    ensures ResetsHeeded(p, log, DecodeBlock(p, log, b, hasNLRI))
  {
    if b != [] {
      var w, block := Walk(log, None, {}, false), ParseBlock(b);
      WalkHeeds(p, log, w, block.attrs);
      var v := VisitAll(p, w, block.attrs);
      if !v.stopped {
        var fault := if block.fault.Some? then Some(TotalAttrLenErr(block.fault.value)) else None;
        var missing := MissingCode(v.seen, hasNLRI);
        JoinedMarks(v.err, fault, SessionReset);
        var more := if missing.Some? then Some(MissingAttr(missing.value)) else None;
        JoinedMarks(OptErr(v.err, fault), more, SessionReset);
      }
    }
  }

  // ----- mandatory attributes

  /** The attribute was delivered after the first n deliveries. */
  ghost predicate Delivered(log: seq<Delivery>, n: nat, code: byte) {
    exists i :: n <= i < |log| && log[i].Attribute? && log[i].code == code
  }

  lemma {:induction false} SeenIsDelivered(p: Plugin, n: nat, w: Walk, attrs: seq<Attr>)
    requires n <= |w.log| && forall c: byte :: c in w.seen <==> Delivered(w.log, n, c)
    ensures n <= |VisitAll(p, w, attrs).log|
    ensures forall c: byte :: c in VisitAll(p, w, attrs).seen <==> Delivered(VisitAll(p, w, attrs).log, n, c)
    decreases |attrs|
  {
    if attrs != [] && !w.stopped {
      var v := Visit(p, w, attrs[0]);
      if attrs[0].code !in w.seen {
        forall c: byte ensures c in v.seen <==> Delivered(v.log, n, c) {
          assert v.log[|w.log|].code == attrs[0].code;
          if Delivered(w.log, n, c) {
            var i :| n <= i < |w.log| && w.log[i].Attribute? && w.log[i].code == c;
            assert v.log[i] == w.log[i];
          }
        }
      }
      SeenIsDelivered(p, n, v, attrs[1..]);
    }
  }

  /** The error tree asks for treat-as-withdraw. */
  predicate AsksWithdraw(e: Option<Err>) {
    UpdateErrors.First(MarksOf(e), TreatAsWithdraw).Some?
  }

  /**
    When routes are announced and the session is not reset, both mandatory attributes were
    delivered or the routes are treated as withdrawn, exactly when the attribute block is
    not empty: the empty block slips past the check.
    */
  lemma MandatoryAttributesIff(p: Plugin, log: seq<Delivery>, b: seq<byte>, hasNLRI: bool)
    requires var r := DecodeBlock(p, log, b, hasNLRI);
             !MayReset(r.err) && (hasNLRI || Delivered(r.log, |log|, PATH_ATTR_MP_REACH_NLRI))
    ensures var r := DecodeBlock(p, log, b, hasNLRI);
            b != [] <==>
              || (Delivered(r.log, |log|, PATH_ATTR_ORIGIN) && Delivered(r.log, |log|, PATH_ATTR_AS_PATH))
              || AsksWithdraw(r.err)
  {
    if b != [] {
      var w, block := Walk(log, None, {}, false), ParseBlock(b);
      BlockHeeds(p, log, b, hasNLRI);
      WalkHeeds(p, log, w, block.attrs);
      SeenIsDelivered(p, |log|, w, block.attrs);
      var v := VisitAll(p, w, block.attrs);
      var fault := if block.fault.Some? then Some(TotalAttrLenErr(block.fault.value)) else None;
      var missing := MissingCode(v.seen, hasNLRI);
      if !v.stopped && missing.Some? {
        JoinedMarks(OptErr(v.err, fault), Some(MissingAttr(missing.value)), TreatAsWithdraw);
      }
    }
  }
}
