/**
  Lists of IP prefixes as they appear in withdrawn routes, NLRI and the multiprotocol
  attributes, with and without add-path identifiers.
  */
module Prefixes {
  import opened Bytes
  import opened Notifications

  /** An address, padded with zeros to its full length, and a number of bits. */
  datatype Prefix = Prefix(addr: seq<byte>, bits: byte)

  /** A prefix, with its path identifier when the list carries them. */
  datatype Route = Route(id: Option<u32>, prefix: Prefix)

  datatype Taken = Taken(route: Route, rest: seq<byte>)

  function AddrLen(ipv6: bool): nat { if ipv6 then 16 else 4 }

  function Zeros(n: nat): (z: seq<byte>)
    ensures |z| == n && forall i :: 0 <= i < n ==> z[i] == 0
  {
    seq(n, _ => 0)
  }

  /** `(bl + 7) / 8` in a `uint8`. */
  function Octets(bits: byte): nat { ToU8(bits as int + 7) / 8 }

  /** decodePrefix, on the octets that follow the path identifier. */
  function TakePrefix(b: seq<byte>, ipv6: bool): (r: Option<(Prefix, seq<byte>)>)
    ensures r.Some? ==> |r.value.1| < |b|
  {
    if |b| < 1 then None
    else if b[0] > 8 * AddrLen(ipv6) then None
    else
      var octets := Octets(b[0]);
      if |b| - 1 < octets then None
      else if octets > AddrLen(ipv6) then None
      else Some((Prefix(b[1..1 + octets] + Zeros(AddrLen(ipv6) - octets), b[0]), b[1 + octets..]))
  }

  function TakeRoute(b: seq<byte>, ipv6: bool, addPath: bool): (r: Option<Taken>)
    ensures r.Some? ==> |r.value.rest| < |b|
  {
    if addPath then
      if |b| < 5 then None
      else
        var t := TakePrefix(b[4..], ipv6);
        if t.None? then None else Some(Taken(Route(Some(GetU32(b[..4])), t.value.0), t.value.1))
    else
      var t := TakePrefix(b, ipv6);
      if t.None? then None else Some(Taken(Route(None, t.value.0), t.value.1))
  }

  function DecodeRoutes(b: seq<byte>, ipv6: bool, addPath: bool): Option<seq<Route>>
    decreases |b|
  {
    if b == [] then Some([])
    else
      var t := TakeRoute(b, ipv6, addPath);
      if t.None? then None
      else
        var more := DecodeRoutes(t.value.rest, ipv6, addPath);
        if more.None? then None else Some([t.value.route] + more.value)
  }

  // ----- the loops of the program

  method DecodePrefix(input: seq<byte>, ipv6: bool) returns (prefix: Option<Prefix>, rest: seq<byte>)
    ensures prefix.Some? ==> TakePrefix(input, ipv6) == Some((prefix.value, rest))
    ensures prefix.None? ==> TakePrefix(input, ipv6).None?
  {
    rest := [];
    if |input| < 1 {
      return None, rest;
    }
    var bl := input[0];
    if (!ipv6 && bl > 32) || (ipv6 && bl > 128) {
      return None, rest;
    }
    var b := input[1..];
    var octets := ToU8(bl as int + 7) / 8;
    if |b| < octets {
      return None, rest;
    }
    if ipv6 {
      if octets > 16 {
        return None, rest;
      }
      assert input[1..1 + octets] == b[..octets] && input[1 + octets..] == b[octets..];
      return Some(Prefix(b[..octets] + Zeros(16 - octets), bl)), b[octets..];
    } else {
      if octets > 4 {
        return None, rest;
      }
      assert input[1..1 + octets] == b[..octets] && input[1 + octets..] == b[octets..];
      return Some(Prefix(b[..octets] + Zeros(4 - octets), bl)), b[octets..];
    }
  }

  /** Routes already decoded in front of those still to come. */
  function Before(done: seq<Route>, more: Option<seq<Route>>): (r: Option<seq<Route>>)
    ensures done == [] ==> r == more
    ensures more == Some([]) ==> r == Some(done)
  {
    assert done + [] == done;
    if more.Some? then assert [] + more.value == more.value; Some(done + more.value) else None
  }

  method DecodePrefixes(input: seq<byte>, ipv6: bool) returns (r: Option<seq<Route>>)
    ensures r == DecodeRoutes(input, ipv6, false)
  {
    if |input| < 1 {
      return Some([]);
    }
    var b, prefixes: seq<Route> := input, [];
    while |b| > 0
      invariant DecodeRoutes(input, ipv6, false) == Before(prefixes, DecodeRoutes(b, ipv6, false))
      decreases |b|
    {
      var p, rest := DecodePrefix(b, ipv6);
      if p.None? {
        return None;
      }
      assert TakeRoute(b, ipv6, false) == Some(Taken(Route(None, p.value), rest));
      ghost var before := prefixes;
      prefixes := prefixes + [Route(None, p.value)];
      b := rest;
      assert forall more :: before + ([Route(None, p.value)] + more) == prefixes + more;
    }
    return Some(prefixes);
  }

  method DecodeAddPathPrefixes(input: seq<byte>, ipv6: bool) returns (r: Option<seq<Route>>)
    ensures r == DecodeRoutes(input, ipv6, true)
  {
    if |input| < 1 {
      return Some([]);
    }
    var b, prefixes: seq<Route> := input, [];
    while |b| > 0
      invariant DecodeRoutes(input, ipv6, true) == Before(prefixes, DecodeRoutes(b, ipv6, true))
      decreases |b|
    {
      if |b| < 5 {
        return None;
      }
      var id := GetU32(b[..4]);
      var p, rest := DecodePrefix(b[4..], ipv6);
      if p.None? {
        return None;
      }
      var a := Route(Some(id), p.value);
      assert TakeRoute(b, ipv6, true) == Some(Taken(a, rest));
      ghost var before := prefixes;
      prefixes := prefixes + [a];
      b := rest;
      assert forall more :: before + ([a] + more) == prefixes + more;
    }
    return Some(prefixes);
  }

  // ----- writing routes

  predicate WellFormedPrefix(p: Prefix, ipv6: bool) {
    && |p.addr| == AddrLen(ipv6)
    && p.bits <= 8 * AddrLen(ipv6)
    && forall i :: (p.bits as int + 7) / 8 <= i < |p.addr| ==> p.addr[i] == 0
  }

  predicate WellFormed(r: Route, ipv6: bool, addPath: bool) {
    WellFormedPrefix(r.prefix, ipv6) && (r.id.Some? <==> addPath)
  }

  predicate AllWellFormed(rs: seq<Route>, ipv6: bool, addPath: bool) {
    forall i :: 0 <= i < |rs| ==> WellFormed(rs[i], ipv6, addPath)
  }

  function WritePrefix(p: Prefix, ipv6: bool): seq<byte>
    requires WellFormedPrefix(p, ipv6)
  {
    [p.bits] + p.addr[..(p.bits as int + 7) / 8]
  }

  function WriteRoute(r: Route, ipv6: bool): seq<byte>
    requires WellFormedPrefix(r.prefix, ipv6)
  {
    (if r.id.Some? then PutU32(r.id.value) else []) + WritePrefix(r.prefix, ipv6)
  }

  function WriteRoutes(rs: seq<Route>, ipv6: bool, addPath: bool): seq<byte>
    requires AllWellFormed(rs, ipv6, addPath)
  {
    if rs == [] then [] else WriteRoute(rs[0], ipv6) + WriteRoutes(rs[1..], ipv6, addPath)
  }

  /** The bit-length check keeps the `uint8` sum from wrapping and the octets within the address. */
  lemma OctetsAreExact(bits: byte, ipv6: bool)
    ensures bits <= 8 * AddrLen(ipv6) ==> Octets(bits) == (bits as int + 7) / 8 <= AddrLen(ipv6)
    ensures bits >= 249 ==> Octets(bits) == 0
  {
  }

  lemma TakeInvertsWritePrefix(p: Prefix, ipv6: bool, rest: seq<byte>)
    requires WellFormedPrefix(p, ipv6)
    ensures TakePrefix(WritePrefix(p, ipv6) + rest, ipv6) == Some((p, rest))
  {
    OctetsAreExact(p.bits, ipv6);
    var octets := Octets(p.bits);
    var b := [p.bits] + p.addr[..octets] + rest;
    assert b[1..1 + octets] == p.addr[..octets];
    assert b[1 + octets..] == rest;
    assert p.addr == p.addr[..octets] + Zeros(AddrLen(ipv6) - octets);
  }

  lemma TakeInvertsWrite(r: Route, ipv6: bool, addPath: bool, rest: seq<byte>)
    requires WellFormed(r, ipv6, addPath)
    ensures TakeRoute(WriteRoute(r, ipv6) + rest, ipv6, addPath) == Some(Taken(r, rest))
  {
    var body := WritePrefix(r.prefix, ipv6) + rest;
    TakeInvertsWritePrefix(r.prefix, ipv6, rest);
    if addPath {
      var b := PutU32(r.id.value) + body;
      assert WriteRoute(r, ipv6) + rest == b;
      assert b[..4] == PutU32(r.id.value) + [] && b[4..] == body;
      GetPutU32(r.id.value, []);
    } else {
      assert WriteRoute(r, ipv6) + rest == body;
    }
  }

  lemma WriteInvertsTakePrefix(b: seq<byte>, ipv6: bool)
    requires TakePrefix(b, ipv6).Some?
    ensures var (p, rest) := TakePrefix(b, ipv6).value;
            WellFormedPrefix(p, ipv6) && WritePrefix(p, ipv6) + rest == b
  {
    OctetsAreExact(b[0], ipv6);
    var octets := Octets(b[0]);
    assert b == [b[0]] + b[1..1 + octets] + b[1 + octets..];
  }

  lemma IdInFront(b: seq<byte>, written: seq<byte>, rest: seq<byte>)
    requires |b| >= 4 && written + rest == b[4..]
    ensures PutU32(GetU32(b[..4])) + written + rest == b
  {
    PutGetU32(b[..4]);
    assert b == b[..4][..4] + b[4..];
  }

  lemma WriteInvertsTake(b: seq<byte>, ipv6: bool, addPath: bool)
    requires TakeRoute(b, ipv6, addPath).Some?
    ensures var t := TakeRoute(b, ipv6, addPath).value;
            WellFormed(t.route, ipv6, addPath) && WriteRoute(t.route, ipv6) + t.rest == b
  {
    var c := if addPath then b[4..] else b;
    var (p, rest) := TakePrefix(c, ipv6).value;
    WriteInvertsTakePrefix(c, ipv6);
    if addPath {
      IdInFront(b, WritePrefix(p, ipv6), rest);
    } else {
      assert [] + WritePrefix(p, ipv6) == WritePrefix(p, ipv6);
    }
  }

  /** Decoding a written list gives the list back. */
  lemma {:induction false} DecodeInvertsWrite(rs: seq<Route>, ipv6: bool, addPath: bool)
    requires AllWellFormed(rs, ipv6, addPath)
    ensures DecodeRoutes(WriteRoutes(rs, ipv6, addPath), ipv6, addPath) == Some(rs)
  {
    if rs != [] {
      var rest := WriteRoutes(rs[1..], ipv6, addPath);
      TakeInvertsWrite(rs[0], ipv6, addPath, rest);
      assert |WriteRoute(rs[0], ipv6)| > 0;
      DecodeInvertsWrite(rs[1..], ipv6, addPath);
      assert rs == [rs[0]] + rs[1..];
    }
  }

  /** A decoded list is well formed, and writing it gives back every octet that was decoded. */
  lemma {:induction false} WriteInvertsDecode(b: seq<byte>, ipv6: bool, addPath: bool)
    requires DecodeRoutes(b, ipv6, addPath).Some?
    ensures AllWellFormed(DecodeRoutes(b, ipv6, addPath).value, ipv6, addPath)
    ensures WriteRoutes(DecodeRoutes(b, ipv6, addPath).value, ipv6, addPath) == b
    decreases |b|
  {
    if b != [] {
      var t := TakeRoute(b, ipv6, addPath).value;
      var more := DecodeRoutes(t.rest, ipv6, addPath).value;
      WriteInvertsDecode(t.rest, ipv6, addPath);
      assert ([t.route] + more)[1..] == more;
      assert WellFormed(t.route, ipv6, addPath) && WriteRoute(t.route, ipv6) + t.rest == b by {
        WriteInvertsTake(b, ipv6, addPath);
      }
    }
  }

  /** Distinct well-formed lists have distinct encodings. */
  lemma EncodingsAreDistinct(rs: seq<Route>, rs': seq<Route>, ipv6: bool, addPath: bool)
    requires AllWellFormed(rs, ipv6, addPath) && AllWellFormed(rs', ipv6, addPath)
    requires WriteRoutes(rs, ipv6, addPath) == WriteRoutes(rs', ipv6, addPath)
    ensures rs == rs'
  {
    DecodeInvertsWrite(rs, ipv6, addPath);
    DecodeInvertsWrite(rs', ipv6, addPath);
  }
}
