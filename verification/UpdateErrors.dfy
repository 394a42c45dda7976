/**
  Errors raised while decoding an UPDATE: trees of joined and wrapped errors, and the
  search for the NOTIFICATION of the highest severity in them.
  */
module UpdateErrors {
  import opened Bytes
  import opened Notifications

  /**
    An error tree. `Other` is every error that is none of the program's three concrete
    types: it may implement UpdateError (`asReset`) and it may wrap or join other errors.
    */
  datatype Err =
    | Reset(notification: Notification)
    | Withdraw(code: byte, fallback: Option<Notification>)
    | Discard(code: byte, fallback: Option<Notification>)
    | Other(asReset: Option<Notification>, causes: seq<Err>)

  const UPDATE_ERROR := Notification(NOTIF_CODE_UPDATE_MESSAGE_ERR, 0, [])

  function AsSessionReset(fallback: Option<Notification>): Notification {
    if fallback.Some? then fallback.value else UPDATE_ERROR
  }

  /** Go's `errors.Join` of two errors, either of which may be nil. */
  function Join(a: Option<Err>, b: Option<Err>): Option<Err> {
    if a.None? && b.None? then None
    else Some(Other(None, (if a.Some? then [a.value] else []) + (if b.Some? then [b.value] else [])))
  }

  datatype Severity = SessionReset | TreatAsWithdraw | AttrDiscard | AnyUpdateError

  datatype Mark = Mark(severity: Severity, notification: Notification)

  /** The severities in a tree, depth first, each with the NOTIFICATION it stands for. */
  function Marks(e: Err): seq<Mark>
    decreases e, 1
  {
    match e
    case Reset(n) => [Mark(SessionReset, n)]
    case Withdraw(_, f) => [Mark(TreatAsWithdraw, AsSessionReset(f))]
    case Discard(_, f) => [Mark(AttrDiscard, AsSessionReset(f))]
    case Other(r, causes) => (if r.Some? then [Mark(AnyUpdateError, r.value)] else []) + MarksOfAll(causes)
  }

  function MarksOfAll(es: seq<Err>): seq<Mark>
    decreases es, 0
  {
    if es == [] then [] else Marks(es[0]) + MarksOfAll(es[1..])
  }

  function MarksOf(e: Option<Err>): seq<Mark> {
    if e.Some? then Marks(e.value) else []
  }

  function First(ms: seq<Mark>, s: Severity): Option<Notification> {
    if ms == [] then None
    else if ms[0].severity == s then Some(ms[0].notification)
    else First(ms[1..], s)
  }

  function OrElse(a: Option<Notification>, b: Option<Notification>): Option<Notification> {
    if a.Some? then a else b
  }

  /** Go's `errors.As(err, &notif)`. */
  predicate HasReset(e: Err) {
    First(Marks(e), SessionReset).Some?
  }

  predicate MayReset(e: Option<Err>) {
    e.Some? && HasReset(e.value)
  }

  /** The first mark of the highest severity present. */
  function Highest(ms: seq<Mark>): Notification {
    var found := OrElse(First(ms, SessionReset),
                 OrElse(First(ms, TreatAsWithdraw),
                 OrElse(First(ms, AttrDiscard), First(ms, AnyUpdateError))));
    if found.Some? then found.value else UPDATE_ERROR
  }

  // ----- laws of the marks

  lemma {:induction false} FirstOfConcat(a: seq<Mark>, b: seq<Mark>, s: Severity)
    ensures First(a + b, s) == OrElse(First(a, s), First(b, s))
  {
    if a == [] {
      assert a + b == b;
    } else {
      assert (a + b)[1..] == a[1..] + b;
      FirstOfConcat(a[1..], b, s);
    }
  }

  lemma FirstAfterOneMore(before: seq<Mark>, m: Mark)
    ensures forall s :: First(before + [m], s) ==
              OrElse(First(before, s), if m.severity == s then Some(m.notification) else None)
  {
    forall s ensures First(before + [m], s) ==
        OrElse(First(before, s), if m.severity == s then Some(m.notification) else None)
    {
      FirstOfConcat(before, [m], s);
      assert [m][1..] == [];
    }
  }

  lemma {:induction false} MarksOfConcat(a: seq<Err>, b: seq<Err>)
    ensures MarksOfAll(a + b) == MarksOfAll(a) + MarksOfAll(b)
  {
    if a == [] {
      assert a + b == b;
    } else {
      assert (a + b)[1..] == a[1..] + b;
      MarksOfConcat(a[1..], b);
    }
  }

  lemma MarksOfJoin(a: Option<Err>, b: Option<Err>)
    ensures MarksOf(Join(a, b)) == MarksOf(a) + MarksOf(b)
  {
    if a.Some? {
      MarksOfSingle(a.value);
    }
    if b.Some? {
      MarksOfSingle(b.value);
    }
    MarksOfConcat(if a.Some? then [a.value] else [], if b.Some? then [b.value] else []);
  }

  lemma MarksOfSingle(e: Err)
    ensures MarksOfAll([e]) == Marks(e)
  {
    assert [e][1..] == [];
  }

  lemma Regroup(a: seq<Mark>, b: seq<Mark>, c: seq<Mark>)
    ensures a + (b + c) == a + b + c
  {
  }

  lemma MarksOfNext(before: seq<Err>, e: Err)
    ensures MarksOfAll(before + [e]) == MarksOfAll(before) + Marks(e)
  {
    MarksOfConcat(before, [e]);
    MarksOfSingle(e);
  }

  lemma MarksUpTo(es: seq<Err>, i: nat)
    requires i < |es|
    ensures MarksOfAll(es[..i + 1]) == MarksOfAll(es[..i]) + Marks(es[i])
  {
    var before := es[..i];
    assert es[..i + 1] == before + [es[i]];
    MarksOfNext(before, es[i]);
  }

  lemma MarksFrom(es: seq<Err>, n: nat)
    requires n <= |es|
    ensures MarksOfAll(es) == MarksOfAll(es[..n]) + MarksOfAll(es[n..])
  {
    var before, after := es[..n], es[n..];
    assert es == before + after;
    MarksOfConcat(before, after);
  }

  // ----- flattening

  /** The errors of a tree that are not mere joins or wrappers, depth first. */
  function Leaves(e: Err): seq<Err>
    decreases e, 1
  {
    match e
    case Other(r, causes) => (if r.Some? then [Other(r, [])] else []) + LeavesOfAll(causes)
    case _ => [e]
  }

  function LeavesOfAll(es: seq<Err>): seq<Err>
    decreases es, 0
  {
    if es == [] then [] else Leaves(es[0]) + LeavesOfAll(es[1..])
  }

  /** A single join of all of them. */
  function Flatten(e: Err): Err { Other(None, Leaves(e)) }

  lemma {:induction false} MarksOfLeaves(e: Err)
    ensures MarksOfAll(Leaves(e)) == Marks(e)
    decreases e, 1
  {
    match e
    case Other(r, causes) =>
      MarksOfLeavesOfAll(causes);
      if r.Some? {
        MarksOfConcat([Other(r, [])], LeavesOfAll(causes));
        MarksOfSingle(Other(r, []));
      } else {
        assert [] + LeavesOfAll(causes) == LeavesOfAll(causes);
      }
    case _ => MarksOfSingle(e);
  }

  lemma {:induction false} MarksOfLeavesOfAll(es: seq<Err>)
    ensures MarksOfAll(LeavesOfAll(es)) == MarksOfAll(es)
    decreases es, 0
  {
    if es != [] {
      MarksOfLeaves(es[0]);
      MarksOfLeavesOfAll(es[1..]);
      MarksOfConcat(Leaves(es[0]), LeavesOfAll(es[1..]));
    }
  }

  /** Flattening a tree completely changes nothing that the search can see. */
  lemma FlatteningIsInvisible(e: Err)
    ensures Marks(Flatten(e)) == Marks(e)
    ensures Highest(Marks(Flatten(e))) == Highest(Marks(e))
  {
    MarksOfLeaves(e);
  }

  /** So however two trees nest the same errors, the search finds the same NOTIFICATION. */
  lemma NestingIsInvisible(e: Err, e': Err)
    requires Leaves(e) == Leaves(e')
    ensures Highest(Marks(e)) == Highest(Marks(e'))
  {
    MarksOfLeaves(e);
    MarksOfLeaves(e');
  }

  // ----- the search

  /** The variables the recursive closure of the search assigns. */
  class Search {
    var n: Option<Notification>
    var taw: Option<Notification>
    var ad: Option<Notification>
    var ue: Option<Notification>

    constructor ()
      ensures n.None? && taw.None? && ad.None? && ue.None?
    {
      n, taw, ad, ue := None, None, None, None;
    }

    /** The variables reflect the marks ms, except that nothing below a reset is kept up to date. */
    ghost predicate Reflects(ms: seq<Mark>)
      reads this
    {
      && n == First(ms, SessionReset)
      && (n.None? ==>
            && taw == First(ms, TreatAsWithdraw)
            && ad == First(ms, AttrDiscard)
            && ue == First(ms, AnyUpdateError))
    }

    method Note(severity: Severity, notification: Notification, ghost before: seq<Mark>)
      requires Reflects(before) && n.None?
      modifies this
      ensures Reflects(before + [Mark(severity, notification)])
      ensures n.Some? <==> severity == SessionReset
    {
      FirstAfterOneMore(before, Mark(severity, notification));
      match severity {
        case SessionReset => n := Some(notification);
        case TreatAsWithdraw => if taw.None? { taw := Some(notification); }
        case AttrDiscard => if ad.None? { ad := Some(notification); }
        case AnyUpdateError => if ue.None? { ue := Some(notification); }
      }
    }

    /** Once a reset is found, marks that follow change nothing. */
    lemma Settled(before: seq<Mark>, more: seq<Mark>)
      requires Reflects(before) && n.Some?
      ensures Reflects(before + more)
    {
      FirstOfConcat(before, more, SessionReset);
    }

    method Unwrap(e: Err, ghost before: seq<Mark>)
      requires Reflects(before) && n.None?
      modifies this
      ensures Reflects(before + Marks(e))
      decreases e, 1
    {
      match e {
        case Reset(x) => Note(SessionReset, x, before);
        case Withdraw(_, f) => Note(TreatAsWithdraw, AsSessionReset(f), before);
        case Discard(_, f) => Note(AttrDiscard, AsSessionReset(f), before);
        case Other(r, causes) =>
          ghost var own := if r.Some? then [Mark(AnyUpdateError, r.value)] else [];
          assert before + (own + MarksOfAll(causes)) == before + own + MarksOfAll(causes);
          if r.Some? {
            Note(AnyUpdateError, r.value, before);
          } else {
            assert before + own == before;
          }
          UnwrapAll(causes, before + own);
      }
    }

    /** The loop over joined errors, left as soon as a reset is found. */
    method UnwrapAll(es: seq<Err>, ghost before: seq<Mark>)
      requires Reflects(before) && n.None?
      modifies this
      ensures Reflects(before + MarksOfAll(es))
      decreases es, 0
    {
      assert before + [] == before;
      for i := 0 to |es|
        invariant Reflects(before + MarksOfAll(es[..i])) && n.None?
      {
        MarksUpTo(es, i);
        Regroup(before, MarksOfAll(es[..i]), Marks(es[i]));
        Unwrap(es[i], before + MarksOfAll(es[..i]));
        if n.Some? {
          MarksFrom(es, i + 1);
          Settled(before + MarksOfAll(es[..i + 1]), MarksOfAll(es[i + 1..]));
          Regroup(before, MarksOfAll(es[..i + 1]), MarksOfAll(es[i + 1..]));
          return;
        }
      }
      assert es[..|es|] == es;
    }
  }

  /** The search with its early exits finds the first mark of the highest severity. */
  method UpdateNotificationFromErr(err: Option<Err>) returns (r: Option<Notification>)
    ensures r == if err.None? then None else Some(Highest(Marks(err.value)))
  {
    if err.None? {
      return None;
    }
    var search := new Search();
    search.Unwrap(err.value, []);
    assert [] + Marks(err.value) == Marks(err.value);
    if search.n.Some? {
      return search.n;
    } else if search.taw.Some? {
      return search.taw;
    } else if search.ad.Some? {
      return search.ad;
    } else if search.ue.Some? {
      return search.ue;
    }
    return Some(UPDATE_ERROR);
  }

  // ----- what the search means

  function Rank(s: Severity): nat {
    match s
    case SessionReset => 3
    case TreatAsWithdraw => 2
    case AttrDiscard => 1
    case AnyUpdateError => 0
  }

  lemma {:induction false} FirstIndex(ms: seq<Mark>, s: Severity) returns (i: nat)
    requires First(ms, s).Some?
    ensures i < |ms| && ms[i] == Mark(s, First(ms, s).value)
    ensures forall j :: 0 <= j < i ==> ms[j].severity != s
  {
    if ms[0].severity == s {
      i := 0;
    } else {
      var k := FirstIndex(ms[1..], s);
      i := k + 1;
      assert forall j :: 0 < j <= i ==> ms[j] == ms[1..][j - 1];
    }
  }

  lemma {:induction false} NoneMeansAbsent(ms: seq<Mark>, s: Severity)
    ensures First(ms, s).None? <==> forall j :: 0 <= j < |ms| ==> ms[j].severity != s
  {
    if ms != [] {
      NoneMeansAbsent(ms[1..], s);
      assert forall j :: 0 < j < |ms| ==> ms[j] == ms[1..][j - 1];
    }
  }

  /** Mark i is the earliest of those of greatest rank. */
  ghost predicate FirstOfGreatest(ms: seq<Mark>, i: nat) {
    && i < |ms|
    && (forall j :: 0 <= j < |ms| ==> Rank(ms[j].severity) <= Rank(ms[i].severity))
    && (forall j :: 0 <= j < i ==> Rank(ms[j].severity) < Rank(ms[i].severity))
  }

  /** The chosen NOTIFICATION is that of the earliest mark among those of greatest rank. */
  lemma HighestIsFirstOfGreatest(ms: seq<Mark>) returns (i: nat)
    requires ms != []
    ensures FirstOfGreatest(ms, i) && ms[i].notification == Highest(ms)
  {
    NoneMeansAbsent(ms, SessionReset);
    NoneMeansAbsent(ms, TreatAsWithdraw);
    NoneMeansAbsent(ms, AttrDiscard);
    NoneMeansAbsent(ms, AnyUpdateError);
    if First(ms, SessionReset).Some? {
      i := FirstIndex(ms, SessionReset);
    } else if First(ms, TreatAsWithdraw).Some? {
      i := FirstIndex(ms, TreatAsWithdraw);
    } else if First(ms, AttrDiscard).Some? {
      i := FirstIndex(ms, AttrDiscard);
    } else {
      assert ms[0].severity == AnyUpdateError;
      i := FirstIndex(ms, AnyUpdateError);
    }
  }
}
