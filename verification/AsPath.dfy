/**
  Decoding of the AS_PATH and MP_REACH_NLRI attributes. Both compute a length in a
  `uint8`; the lemmas say exactly on which inputs that matters.
  */
module AsPath {
  import opened Bytes
  import opened Notifications
  import opened UpdateErrors
  import opened PathAttrs

  const AS_SET: byte := 1
  const AS_SEQUENCE: byte := 2

  /** A path segment with the count octet it was read from. */
  datatype Segment = Segment(kind: byte, count: byte, asns: seq<u32>)

  function NumbersOf(b: seq<byte>): seq<u32>
    requires |b| % 4 == 0
  {
    if b == [] then [] else [GetU32(b)] + NumbersOf(b[4..])
  }

  lemma {:induction false} NumbersLength(b: seq<byte>)
    requires |b| % 4 == 0
    ensures |NumbersOf(b)| == |b| / 4
  {
    if b != [] {
      NumbersLength(b[4..]);
    }
  }

  function NumberBytes(ns: seq<u32>): seq<byte> {
    if ns == [] then [] else PutU32(ns[0]) + NumberBytes(ns[1..])
  }

  lemma {:induction false} NumbersRoundTrip(ns: seq<u32>)
    ensures |NumberBytes(ns)| == 4 * |ns|
    ensures NumbersOf(NumberBytes(ns)) == ns
  {
    if ns != [] {
      NumbersRoundTrip(ns[1..]);
      var b := NumberBytes(ns);
      GetPutU32(ns[0], NumberBytes(ns[1..]));
      assert b[4..] == NumberBytes(ns[1..]);
    }
  }

  // ----- the walk over the segments

  datatype PathError = BadLength(rest: seq<byte>) | MalformedPath

  /** The segments read and the error that ended the walk, if any. */
  datatype PathWalk = PathWalk(segments: seq<Segment>, error: Option<PathError>)

  /**
    One segment at the front of b, of `size` octets: the program uses the octet count times
    four truncated to a `uint8`, the format means the full product.
    */
  function TakeSegment(b: seq<byte>, size: nat): (r: Option<Segment>)
    requires |b| >= 2 && size % 4 == 0
  {
    if size == 0 || |b| - 2 < size then None
    else if b[0] != AS_SET && b[0] != AS_SEQUENCE then None
    else Some(Segment(b[0], b[1], NumbersOf(b[2..2 + size])))
  }

  function Truncated(count: byte): (r: nat)
    ensures r % 4 == 0 && r < 256
  {
    ToU8(count as int * 4)
  }

  function WalkPath(b: seq<byte>): PathWalk
    decreases |b|
  {
    if b == [] then PathWalk([], None)
    else if |b| < 6 || |b| % 2 != 0 then PathWalk([], Some(BadLength(b)))
    else
      var s := TakeSegment(b, Truncated(b[1]));
      if s.None? then PathWalk([], Some(MalformedPath))
      else
        var more := WalkPath(b[2 + Truncated(b[1])..]);
        PathWalk([s.value] + more.segments, more.error)
  }

  /** The format: section 4.3 of RFC 4271 with the four-octet AS numbers of RFC 6793. */
  function ReferencePath(b: seq<byte>): Option<seq<Segment>>
    decreases |b|
  {
    if b == [] then Some([])
    else if |b| < 2 then None
    else
      var s := TakeSegment(b, b[1] as int * 4);
      if s.None? then None
      else
        var more := ReferencePath(b[2 + b[1] as int * 4..]);
        if more.None? then None else Some([s.value] + more.value)
  }

  predicate Writable(s: Segment) {
    (s.kind == AS_SET || s.kind == AS_SEQUENCE) && 0 < |s.asns| == s.count
  }

  function WritePath(segments: seq<Segment>): seq<byte> {
    if segments == [] then []
    else [segments[0].kind, segments[0].count] + NumberBytes(segments[0].asns) + WritePath(segments[1..])
  }

  /** The reference reads back every path that can be written. */
  lemma {:induction false} ReferenceReadsWritten(segments: seq<Segment>)
    requires forall i :: 0 <= i < |segments| ==> Writable(segments[i])
    ensures ReferencePath(WritePath(segments)) == Some(segments)
  {
    if segments != [] {
      ReferenceReadsWritten(segments[1..]);
      ReferenceReadsFirst(segments[0], WritePath(segments[1..]));
      assert segments == [segments[0]] + segments[1..];
    }
  }

  lemma ReferenceReadsFirst(s: Segment, rest: seq<byte>)
    requires Writable(s) && ReferencePath(rest).Some?
    ensures ReferencePath([s.kind, s.count] + NumberBytes(s.asns) + rest) == Some([s] + ReferencePath(rest).value)
  {
    var b := [s.kind, s.count] + NumberBytes(s.asns) + rest;
    var size := s.count as int * 4;
    NumbersRoundTrip(s.asns);
    assert b[2..2 + size] == NumberBytes(s.asns) && b[2 + size..] == rest;
    assert TakeSegment(b, size) == Some(s);
  }

  /** And it reads nothing else: what it reads is what was written. */
  lemma {:induction false} ReferenceIsWritten(b: seq<byte>)
    requires ReferencePath(b).Some?
    ensures forall i :: 0 <= i < |ReferencePath(b).value| ==> Writable(ReferencePath(b).value[i])
    ensures WritePath(ReferencePath(b).value) == b
    decreases |b|
  {
    if b != [] {
      var size := b[1] as int * 4;
      var s, rest := TakeSegment(b, size).value, b[2 + size..];
      ReferenceIsWritten(rest);
      SegmentIsWritten(b, s, rest);
      var more := ReferencePath(rest).value;
      assert ([s] + more)[1..] == more && ([s] + more)[0] == s;
    }
  }

  lemma SegmentIsWritten(b: seq<byte>, s: Segment, rest: seq<byte>)
    requires |b| >= 2 && TakeSegment(b, b[1] as int * 4) == Some(s) && rest == b[2 + b[1] as int * 4..]
    ensures Writable(s) && [s.kind, s.count] + NumberBytes(s.asns) + rest == b
  {
    var numbers := b[2..2 + b[1] as int * 4];
    NumbersLength(numbers);
    NumbersReencode(numbers);
    assert b == [b[0], b[1]] + numbers + rest;
  }

  lemma {:induction false} NumbersReencode(b: seq<byte>)
    requires |b| % 4 == 0
    ensures NumberBytes(NumbersOf(b)) == b
  {
    if b != [] {
      NumbersReencode(b[4..]);
      PutGetU32(b);
      assert b == b[..4] + b[4..];
      assert ([GetU32(b)] + NumbersOf(b[4..]))[1..] == NumbersOf(b[4..]);
    }
  }

  predicate SmallCounts(segments: seq<Segment>) {
    forall i :: 0 <= i < |segments| ==> segments[i].count < 64
  }

  lemma {:induction false} ReferenceLength(b: seq<byte>)
    requires ReferencePath(b).Some?
    ensures |b| % 2 == 0 && (b != [] ==> |b| >= 6)
    decreases |b|
  {
    if b != [] {
      ReferenceLength(b[2 + b[1] as int * 4..]);
    }
  }

  lemma {:induction false} ReferenceCounts(b: seq<byte>)
    requires ReferencePath(b).Some?
    ensures forall i :: 0 <= i < |ReferencePath(b).value| ==>
              |ReferencePath(b).value[i].asns| == ReferencePath(b).value[i].count
    decreases |b|
  {
    if b != [] {
      ReferenceCounts(b[2 + b[1] as int * 4..]);
      NumbersLength(b[2..2 + b[1] as int * 4]);
    }
  }

  lemma SmallIsExact(count: byte)
    ensures Truncated(count) == count as int * 4 <==> count < 64
  {
  }

  lemma {:induction false} WalkedCounts(b: seq<byte>)
    ensures forall i :: 0 <= i < |WalkPath(b).segments| ==> |WalkPath(b).segments[i].asns| < 64
    decreases |b|
  {
    if |b| >= 6 && |b| % 2 == 0 && TakeSegment(b, Truncated(b[1])).Some? {
      NumbersLength(b[2..2 + Truncated(b[1])]);
      WalkedCounts(b[2 + Truncated(b[1])..]);
    }
  }

  lemma SmallCountsOf(s: Segment, more: seq<Segment>)
    ensures SmallCounts([s] + more) <==> s.count < 64 && SmallCounts(more)
  {
    var all := [s] + more;
    assert all[0] == s && all[1..] == more;
    assert SmallCounts(all) ==> forall i :: 0 <= i < |more| ==> more[i] == all[i + 1];
  }

  lemma {:induction false} ReferenceIsWalked(b: seq<byte>)
    requires ReferencePath(b).Some? && SmallCounts(ReferencePath(b).value)
    ensures WalkPath(b) == PathWalk(ReferencePath(b).value, None)
    decreases |b|
  {
    if b != [] {
      ReferenceLength(b);
      var rest := b[2 + b[1] as int * 4..];
      var s := TakeSegment(b, b[1] as int * 4).value;
      SmallCountsOf(s, ReferencePath(rest).value);
      SmallIsExact(b[1]);
      ReferenceIsWalked(rest);
    }
  }

  lemma {:induction false} WalkedIsReference(b: seq<byte>)
    requires WalkPath(b).error.None? && SmallCounts(WalkPath(b).segments)
    ensures ReferencePath(b) == Some(WalkPath(b).segments)
    decreases |b|
  {
    if b != [] {
      var rest := b[2 + Truncated(b[1])..];
      var s := TakeSegment(b, Truncated(b[1])).value;
      SmallCountsOf(s, WalkPath(rest).segments);
      SmallIsExact(b[1]);
      WalkedIsReference(rest);
    }
  }

  // ----- the attribute object

  /** The segment of one kind that was read last. */
  function LastOf(segments: seq<Segment>, kind: byte, before: seq<u32>): seq<u32> {
    if segments == [] then before
    else LastOf(segments[1..], kind, if segments[0].kind == kind then segments[0].asns else before)
  }

  /** The walk at b is one segment and then the walk at the rest. */
  lemma WalkUnfolds(b: seq<byte>, s: Segment, rest: seq<byte>, before: seq<u32>, kind: byte)
    requires |b| >= 6 && |b| % 2 == 0
    requires TakeSegment(b, Truncated(b[1])) == Some(s) && rest == b[2 + Truncated(b[1])..]
    ensures WalkPath(b).error == WalkPath(rest).error
    ensures LastOf(WalkPath(b).segments, kind, before)
         == LastOf(WalkPath(rest).segments, kind, if s.kind == kind then s.asns else before)
  {
    var more := WalkPath(rest).segments;
    assert WalkPath(b).segments == [s] + more && ([s] + more)[1..] == more;
  }

  predicate FlagsAre(flags: byte, optional: bool, transitive: bool) {
    (flags / 128 % 2 == 1) == optional && (flags / 64 % 2 == 1) == transitive
  }

  function AttrData(code: byte, data: seq<byte>): seq<byte> {
    [code] + (if |data| > 255 then PutU16(ToU16(|data|)) else [|data|]) + data
  }

  function AttrErr(code: byte, subcode: byte, data: seq<byte>): Err {
    Withdraw(code, Some(Notification(NOTIF_CODE_UPDATE_MESSAGE_ERR, subcode, AttrData(code, data))))
  }

  /** PathAttrFlags.Validate. */
  function FlagsError(code: byte, flags: byte, data: seq<byte>, optional: bool, transitive: bool): Option<Err> {
    if FlagsAre(flags, optional, transitive) then None else Some(AttrErr(code, NOTIF_SUBCODE_ATTR_FLAGS_ERR, data))
  }

  function PathErr(e: PathError): Err {
    match e
    case BadLength(rest) => AttrErr(PATH_ATTR_AS_PATH, NOTIF_SUBCODE_ATTR_LEN_ERR, rest)
    case MalformedPath =>
      Withdraw(PATH_ATTR_AS_PATH,
               Some(Notification(NOTIF_CODE_UPDATE_MESSAGE_ERR, NOTIF_SUBCODE_MALFORMED_AS_PATH, [])))
  }

  /** The error of the whole attribute; an empty one has a bad length. */
  function AsPathError(flags: byte, b: seq<byte>): Option<Err> {
    if !FlagsAre(flags, false, true) then FlagsError(PATH_ATTR_AS_PATH, flags, b, false, true)
    else if b == [] then Some(PathErr(BadLength(b)))
    else if WalkPath(b).error.Some? then Some(PathErr(WalkPath(b).error.value))
    else None
  }

  // ----- what the decoder gets right

  /** All numbers of one kind, which is what the format says they are. */
  function AllOf(segments: seq<Segment>, kind: byte): seq<u32> {
    if segments == [] then []
    else (if segments[0].kind == kind then segments[0].asns else []) + AllOf(segments[1..], kind)
  }

  /** The number of segments of one kind. */
  function CountOf(segments: seq<Segment>, kind: byte): nat {
    if segments == [] then 0 else (if segments[0].kind == kind then 1 else 0) + CountOf(segments[1..], kind)
  }

  predicate OnePerKind(segments: seq<Segment>) {
    CountOf(segments, AS_SET) <= 1 && CountOf(segments, AS_SEQUENCE) <= 1
  }

  /** The decoder accepts b into fresh fields, and the fields hold what the format means. */
  predicate ReadAsMeant(flags: byte, b: seq<byte>, meant: seq<Segment>) {
    && AsPathError(flags, b).None?
    && LastOf(WalkPath(b).segments, AS_SET, []) == AllOf(meant, AS_SET)
    && LastOf(WalkPath(b).segments, AS_SEQUENCE, []) == AllOf(meant, AS_SEQUENCE)
  }

  predicate NoneEmpty(segments: seq<Segment>) {
    forall i :: 0 <= i < |segments| ==> segments[i].asns != []
  }

  lemma {:induction false} NoneOfKind(segments: seq<Segment>, kind: byte, before: seq<u32>)
    requires NoneEmpty(segments)
    ensures CountOf(segments, kind) == 0 <==> AllOf(segments, kind) == []
    ensures CountOf(segments, kind) == 0 ==> LastOf(segments, kind, before) == before
  {
    if segments != [] {
      assert segments[0].asns != [];
      NoneOfKind(segments[1..], kind, before);
    }
  }

  /** The last of a kind is at most as long as all of that kind, and as long only if it is the only one. */
  lemma {:induction false} LastIsAllIff(segments: seq<Segment>, kind: byte, before: seq<u32>)
    requires NoneEmpty(segments)
    ensures CountOf(segments, kind) > 0 ==> |LastOf(segments, kind, before)| <= |AllOf(segments, kind)|
    ensures CountOf(segments, kind) > 1 ==> |LastOf(segments, kind, before)| < |AllOf(segments, kind)|
    ensures CountOf(segments, kind) == 1 ==> LastOf(segments, kind, before) == AllOf(segments, kind)
  {
    if segments != [] {
      assert segments[0].asns != [];
      var own := if segments[0].kind == kind then segments[0].asns else before;
      LastIsAllIff(segments[1..], kind, own);
      NoneOfKind(segments[1..], kind, own);
    }
  }

  lemma {:induction false} WalkedShort(segments: seq<Segment>, kind: byte, before: seq<u32>)
    requires |before| < 64 && forall i :: 0 <= i < |segments| ==> |segments[i].asns| < 64
    ensures |LastOf(segments, kind, before)| < 64
  {
    if segments != [] {
      WalkedShort(segments[1..], kind, if segments[0].kind == kind then segments[0].asns else before);
    }
  }

  lemma {:induction false} AllIsLong(segments: seq<Segment>, i: nat)
    requires i < |segments|
    ensures |AllOf(segments, segments[i].kind)| >= |segments[i].asns|
  {
    if i > 0 {
      AllIsLong(segments[1..], i - 1);
    }
  }

  lemma {:induction false} ReferenceKinds(b: seq<byte>)
    requires ReferencePath(b).Some?
    ensures NoneEmpty(ReferencePath(b).value)
    ensures forall i :: 0 <= i < |ReferencePath(b).value| ==> ReferencePath(b).value[i].kind in {AS_SET, AS_SEQUENCE}
    decreases |b|
  {
    if b != [] {
      NumbersLength(b[2..2 + b[1] as int * 4]);
      ReferenceKinds(b[2 + b[1] as int * 4..]);
    }
  }

  /** A large segment of the format never fits into what is read. */
  lemma LargeIsMisread(flags: byte, b: seq<byte>)
    requires ReferencePath(b).Some? && ReadAsMeant(flags, b, ReferencePath(b).value)
    ensures SmallCounts(ReferencePath(b).value)
  {
    var meant, read := ReferencePath(b).value, WalkPath(b).segments;
    ReferenceCounts(b);
    ReferenceKinds(b);
    WalkedCounts(b);
    WalkedShort(read, AS_SET, []);
    WalkedShort(read, AS_SEQUENCE, []);
    forall i | 0 <= i < |meant| ensures meant[i].count < 64 {
      AllIsLong(meant, i);
    }
  }

  /**
    A well-formed AS_PATH is accepted and its fields hold what the format means exactly when
    its flags are right, it is not empty, no segment has 64 ASes or more, and it has at most
    one segment of each kind.
    */
  lemma WellFormedPathReadIff(flags: byte, b: seq<byte>)
    requires ReferencePath(b).Some?
    ensures ReadAsMeant(flags, b, ReferencePath(b).value) <==>
            && FlagsAre(flags, false, true)
            && b != []
            && SmallCounts(ReferencePath(b).value)
            && OnePerKind(ReferencePath(b).value)
  {
    var meant := ReferencePath(b).value;
    if ReadAsMeant(flags, b, meant) {
      LargeIsMisread(flags, b);
    }
    if SmallCounts(meant) {
      ReferenceIsWalked(b);
      ReferenceKinds(b);
      forall kind | kind in {AS_SET, AS_SEQUENCE}
        ensures LastOf(meant, kind, []) == AllOf(meant, kind) <==> CountOf(meant, kind) <= 1
      {
        NoneOfKind(meant, kind, []);
        LastIsAllIff(meant, kind, []);
      }
    }
  }

  /**
    An accepted AS_PATH was well formed and its fields hold what it means exactly when every
    count octet met was below 64 and no kind was met twice.
    */
  lemma AcceptedPathRightIff(flags: byte, b: seq<byte>)
    requires AsPathError(flags, b).None?
    ensures ReferencePath(b).Some? && ReadAsMeant(flags, b, ReferencePath(b).value) <==>
            SmallCounts(WalkPath(b).segments) && OnePerKind(WalkPath(b).segments)
  {
    if ReferencePath(b).Some? {
      WellFormedPathReadIff(flags, b);
      if SmallCounts(ReferencePath(b).value) {
        ReferenceIsWalked(b);
      }
    }
    if SmallCounts(WalkPath(b).segments) {
      WalkedIsReference(b);
    }
  }

  /** The empty AS_PATH is well formed and refused. */
  lemma EmptyPathIsRefused(flags: byte)
    ensures ReferencePath([]) == Some([]) && AsPathError(flags, []).Some?
  {
  }

  /** A segment of exactly 64 ASes is well formed and refused. */
  lemma SixtyFourIsRefused(flags: byte, kind: byte, numbers: seq<byte>)
    requires (kind == AS_SET || kind == AS_SEQUENCE) && |numbers| == 256
    ensures ReferencePath([kind, 64] + numbers).Some?
    ensures WalkPath([kind, 64] + numbers).error == Some(MalformedPath)
    ensures AsPathError(flags, [kind, 64] + numbers).Some?
  {
    var b := [kind, 64] + numbers;
    assert b[2..258] == numbers && b[258..] == [];
  }

  lemma TwoOfAKind(s: Segment, s': Segment)
    requires s.kind == s'.kind
    ensures LastOf([s, s'], s.kind, []) == s'.asns && AllOf([s, s'], s.kind) == s.asns + s'.asns
    ensures CountOf([s, s'], s.kind) == 2
  {
    var segments := [s, s'];
    assert segments[1..] == [s'] && [s'][1..] == [];
    assert LastOf([s'], s.kind, s.asns) == s'.asns;
    assert AllOf([s'], s.kind) == s'.asns + [] == s'.asns;
    assert CountOf([s'], s.kind) == 1;
  }

  /** Of two segments of one kind the first is lost. */
  lemma RepeatedKindIsLost(flags: byte, s: Segment, s': Segment)
    requires FlagsAre(flags, false, true) && Writable(s) && Writable(s') && s.count < 64 && s'.count < 64
    requires s.kind == s'.kind
    ensures var b := WritePath([s, s']);
            && ReferencePath(b) == Some([s, s']) && AsPathError(flags, b).None?
            && LastOf(WalkPath(b).segments, s.kind, []) == s'.asns
            && AllOf([s, s'], s.kind) == s.asns + s'.asns
            && !ReadAsMeant(flags, b, [s, s'])
  {
    var segments := [s, s'];
    var b := WritePath(segments);
    assert ReferencePath(b) == Some(segments) && b != [] by {
      ReferenceReadsWritten(segments);
    }
    TwoOfAKind(s, s');
    WellFormedPathReadIff(flags, b);
    ReferenceIsWalked(b);
  }

  /** The order of an AS_SET and an AS_SEQUENCE is lost: both orders are read as meant, into the same fields. */
  lemma OrderIsLost(flags: byte, s: Segment, s': Segment)
    requires FlagsAre(flags, false, true) && Writable(s) && Writable(s') && s.count < 64 && s'.count < 64
    requires s.kind == AS_SET && s'.kind == AS_SEQUENCE
    ensures var b, b' := WritePath([s, s']), WritePath([s', s]);
            && b != b'
            && ReadAsMeant(flags, b, [s, s']) && ReadAsMeant(flags, b', [s', s])
            && AllOf([s, s'], AS_SET) == AllOf([s', s], AS_SET) == s.asns
            && AllOf([s, s'], AS_SEQUENCE) == AllOf([s', s], AS_SEQUENCE) == s'.asns
  {
    OneOfEach(s, s', AS_SET, AS_SEQUENCE);
    OneOfEach(s', s, AS_SEQUENCE, AS_SET);
    WrittenIsReadAsMeant(flags, [s, s']);
    WrittenIsReadAsMeant(flags, [s', s]);
    assert [s, s'][0] != [s', s][0];
  }

  lemma WrittenIsReadAsMeant(flags: byte, segments: seq<Segment>)
    requires FlagsAre(flags, false, true) && segments != [] && SmallCounts(segments) && OnePerKind(segments)
    requires forall i :: 0 <= i < |segments| ==> Writable(segments[i])
    ensures ReferencePath(WritePath(segments)) == Some(segments)
    ensures ReadAsMeant(flags, WritePath(segments), segments)
  {
    ReferenceReadsWritten(segments);
    assert WritePath(segments) != [];
    WellFormedPathReadIff(flags, WritePath(segments));
  }

  lemma OneOfEach(s: Segment, s': Segment, kind: byte, kind': byte)
    requires s.kind == kind && s'.kind == kind' && kind != kind'
    ensures AllOf([s, s'], kind) == s.asns && AllOf([s, s'], kind') == s'.asns
    ensures CountOf([s, s'], kind) == 1 && CountOf([s, s'], kind') == 1
  {
    var segments := [s, s'];
    assert segments[1..] == [s'] && [s'][1..] == [];
    assert AllOf([s'], kind) == [];
    assert AllOf([s'], kind') == s'.asns + [] == s'.asns;
    assert CountOf([s'], kind) == 0;
    assert CountOf([s'], kind') == 1;
    assert [] + s'.asns == s'.asns && s.asns + [] == s.asns;
  }

  /** The flags of AS_PATH are 01 in the two top bits, those of MP_REACH_NLRI 10. */
  lemma FlagBits(flags: byte)
    ensures FlagsAre(flags, false, true) <==> flags / 64 == 1
    ensures FlagsAre(flags, true, false) <==> flags / 64 == 2
  {
  }

  /** The attribute in a NOTIFICATION: its code, its length in one octet or two, and its value. */
  lemma AttrDataLayout(code: byte, data: seq<byte>)
    requires |data| < 0x1_0000
    ensures |data| <= 255 ==> AttrData(code, data) == [code, |data|] + data
    ensures |data| > 255 ==> AttrData(code, data) == [code, |data| / 256, |data| % 256] + data
  {
    assert |data| <= 255 ==> [code] + [|data|] == [code, |data|];
    assert |data| > 255 ==> [code] + [|data| / 256, |data| % 256] == [code, |data| / 256, |data| % 256];
  }

  /**
    A bad AS_PATH never resets the session: it is treated as a withdrawal for code 2, with 3/4
    for bad flags, 3/5 for a bad length and 3/11 for a malformed path to fall back on.
    */
  lemma BadPathIsWithdrawn(flags: byte, b: seq<byte>)
    requires AsPathError(flags, b).Some?
    ensures var e := AsPathError(flags, b).value;
            && e.Withdraw? && e.code == 2 && e.fallback.Some?
            && (flags / 64 != 1 ==> e.fallback.value == Notification(3, 4, AttrData(2, b)))
            && (flags / 64 == 1 && (|b| < 6 || |b| % 2 != 0) ==> e.fallback.value == Notification(3, 5, AttrData(2, b)))
            && (flags / 64 == 1 && |b| >= 6 && |b| % 2 == 0 ==>
                  || (e.fallback.value.code == 3 && e.fallback.value.subcode == 5)
                  || e.fallback.value == Notification(3, 11, []))
  {
    FlagBits(flags);
  }

  class ASPathAttr {
    var asSet: seq<u32>
    var asSequence: seq<u32>

    method Decode(flags: byte, input: seq<byte>) returns (err: Option<Err>)
      modifies this
      ensures err == AsPathError(flags, input)
      ensures !FlagsAre(flags, false, true) ==> asSet == old(asSet) && asSequence == old(asSequence)
      ensures FlagsAre(flags, false, true) ==>
                && asSet == LastOf(WalkPath(input).segments, AS_SET, old(asSet))
                && asSequence == LastOf(WalkPath(input).segments, AS_SEQUENCE, old(asSequence))
    {
      err := FlagsError(PATH_ATTR_AS_PATH, flags, input, false, true);
      if err.Some? {
        return;
      }
      if |input| < 6 || |input| % 2 != 0 {
        return Some(PathErr(BadLength(input)));
      }
      var b := input;
      while |b| > 0
        invariant WalkPath(b).error == WalkPath(input).error
        invariant LastOf(WalkPath(b).segments, AS_SET, asSet) == LastOf(WalkPath(input).segments, AS_SET, old(asSet))
        invariant LastOf(WalkPath(b).segments, AS_SEQUENCE, asSequence)
               == LastOf(WalkPath(input).segments, AS_SEQUENCE, old(asSequence))
        decreases |b|
      {
        if |b| < 6 || |b| % 2 != 0 {
          return Some(PathErr(BadLength(b)));
        }
        ghost var whole, set0, sequence0 := b, asSet, asSequence;
        var segType, segLen := b[0], Truncated(b[1]);
        if segLen == 0 {
          return Some(PathErr(MalformedPath));
        }
        b := b[2..];
        if |b| < segLen {
          return Some(PathErr(MalformedPath));
        }
        var numbers := NumbersOf(b[..segLen]);
        assert whole[2..2 + segLen] == b[..segLen] && whole[2 + segLen..] == b[segLen..];
        if segType == AS_SET {
          asSet := numbers;
        } else if segType == AS_SEQUENCE {
          asSequence := numbers;
        } else {
          return Some(PathErr(MalformedPath));
        }
        b := b[segLen..];
        ghost var s := Segment(segType, whole[1], numbers);
        WalkUnfolds(whole, s, b, set0, AS_SET);
        WalkUnfolds(whole, s, b, sequence0, AS_SEQUENCE);
      }
      return None;
    }
  }

  // ----- MP_REACH_NLRI

  datatype MpReach = MpReach(afi: u16, safi: byte, nextHop: seq<byte>, nlri: seq<byte>)

  /** The slices handed to the closure; `b[nhLen+1:]` adds in a `uint8`. */
  function SplitMpReach(b: seq<byte>): Option<MpReach> {
    if |b| < 5 then None
    else
      var nhLen := b[3];
      var c := b[4..];
      if |c| < nhLen as int + 1 then None
      else Some(MpReach(GetU16(b[..2]), b[2], c[..nhLen], c[ToU8(nhLen as int + 1)..]))
  }

  const MP_LEN_ERR := Reset(Notification(NOTIF_CODE_UPDATE_MESSAGE_ERR, NOTIF_SUBCODE_ATTR_LEN_ERR, []))

  /** What the decoder returns: the flag error, joined to the length error or the closure's. */
  function MpReachError(fn: MpReach -> Option<Err>, flags: byte, b: seq<byte>): Option<Err> {
    Join(FlagsError(PATH_ATTR_MP_REACH_NLRI, flags, b, true, false),
         if SplitMpReach(b).Some? then fn(SplitMpReach(b).value) else Some(MP_LEN_ERR))
  }

  /** The decoder in the program's form: what it hands to the closure, if it calls it, and what it returns. */
  method DecodeMpReach(fn: MpReach -> Option<Err>, flags: byte, input: seq<byte>)
    returns (handed: Option<MpReach>, err: Option<Err>)
    ensures handed == SplitMpReach(input) && err == MpReachError(fn, flags, input)
  {
    var me := FlagsError(PATH_ATTR_MP_REACH_NLRI, flags, input, true, false);
    if |input| < 5 {
      return None, Join(me, Some(MP_LEN_ERR));
    }
    var afi, safi, nhLen := GetU16(input[..2]), input[2], input[3];
    var b := input[4..];
    if |b| < nhLen as int + 1 {
      return None, Join(me, Some(MP_LEN_ERR));
    }
    var m := MpReach(afi, safi, b[..nhLen], b[ToU8(nhLen as int + 1)..]);
    return Some(m), Join(me, fn(m));
  }

  /**
    Wrong flags never hide anything: the session is reset exactly when the lengths are
    inconsistent or the closure asks for it, and wrong flags add a treat-as-withdraw.
    */
  lemma MpReachReports(fn: MpReach -> Option<Err>, flags: byte, b: seq<byte>)
    ensures SplitMpReach(b).None? <==> |b| < 5 || |b| < 5 + b[3] as int
    ensures MayReset(MpReachError(fn, flags, b)) <==>
            SplitMpReach(b).None? || MayReset(fn(SplitMpReach(b).value))
    ensures MayReset(MpReachError(fn, flags, b)) ==>
              Highest(MarksOf(MpReachError(fn, flags, b))) ==
              if SplitMpReach(b).None? then Notification(3, 5, []) else Highest(MarksOf(fn(SplitMpReach(b).value)))
    ensures !FlagsAre(flags, true, false) ==>
              UpdateErrors.First(MarksOf(MpReachError(fn, flags, b)), TreatAsWithdraw).Some?
  {
    var me := FlagsError(PATH_ATTR_MP_REACH_NLRI, flags, b, true, false);
    var more := if SplitMpReach(b).Some? then fn(SplitMpReach(b).value) else Some(MP_LEN_ERR);
    MarksOfJoin(me, more);
    FirstOfConcat(MarksOf(me), MarksOf(more), SessionReset);
    FirstOfConcat(MarksOf(me), MarksOf(more), TreatAsWithdraw);
  }

  function WriteMpReach(m: MpReach, reserved: byte): seq<byte>
    requires |m.nextHop| < 0x100
  {
    PutU16(m.afi) + [m.safi, |m.nextHop|] + m.nextHop + [reserved] + m.nlri
  }

  /** An attribute is split into what it was written from exactly when its next hop is shorter than 255 octets. */
  lemma MpReachReadsWrittenIff(m: MpReach, reserved: byte)
    requires |m.nextHop| < 0x100
    ensures SplitMpReach(WriteMpReach(m, reserved)) == Some(m) <==> |m.nextHop| < 255
  {
    var b := WriteMpReach(m, reserved);
    var n := |m.nextHop|;
    GetPutU16(m.afi, []);
    assert b[..2] == PutU16(m.afi) + [];
    assert b[3] == n && b[4..] == m.nextHop + [reserved] + m.nlri;
    assert b[4..][..n] == m.nextHop && b[4..][n + 1..] == m.nlri;
  }

  /**
    The slices and the reserved octet rebuild the attribute exactly when the next hop is
    shorter than 255 octets; at 255 the NLRI slice starts over at the next hop.
    */
  lemma MpReachSplitsRightIff(b: seq<byte>)
    requires SplitMpReach(b).Some?
    ensures var m := SplitMpReach(b).value;
            && |m.nextHop| == b[3]
            && (WriteMpReach(m, b[4 + b[3] as int]) == b <==> b[3] < 255)
            && (b[3] == 255 ==> m.nlri == b[4..])
  {
    var m := SplitMpReach(b).value;
    var n := b[3] as int;
    PutGetU16(b[..2]);
    if n < 255 {
      assert b == b[..2][..2] + [b[2], b[3]] + b[4..][..n] + [b[4 + n]] + b[4..][n + 1..];
    } else {
      assert |WriteMpReach(m, b[4 + n])| > |b|;
    }
  }
}
