/**
  The 256-bit bitmap of attribute codes already seen, as eight 32-bit words.
  */
module AttrsBitmap {
  import opened Bytes

  /** `uint32(1) << k`. */
  function Bit(k: nat): bv32
    requires k < 32
  {
    1 << (k as bv32)
  }

  lemma ConversionIsExact(k: nat)
    requires k < 32
    ensures (k as bv32) as int == k && (k as bv32) < 32
  {
  }

  lemma SetThenTestWord(word: bv32, i: bv32, j: bv32)
    requires i < 32 && j < 32
    ensures ((word | (1 << i)) & (1 << j) != 0) <==> (i == j || (word & (1 << j) != 0))
  {
  }

  /** Setting one bit of a word sets that bit and no other. */
  lemma SetThenTest(word: bv32, i: nat, j: nat)
    requires i < 32 && j < 32
    ensures ((word | Bit(i)) & Bit(j) != 0) <==> (i == j || (word & Bit(j) != 0))
  {
    ConversionIsExact(i);
    ConversionIsExact(j);
    SetThenTestWord(word, i as bv32, j as bv32);
  }

  predicate Holds(words: seq<bv32>, b: byte)
    requires |words| == 8
  {
    words[b / 32] & Bit(b % 32) != 0
  }

  lemma SetWord(words: seq<bv32>, b: byte, c: byte)
    requires |words| == 8
    ensures Holds(words[b / 32 := words[b / 32] | Bit(b % 32)], c) <==> c == b || Holds(words, c)
  {
    SetThenTest(words[b / 32], b % 32, c % 32);
  }

  /** The codes whose bit is set. */
  ghost function CodesIn(words: seq<bv32>): set<byte>
    requires |words| == 8
  {
    set c: byte | 0 <= c < 256 && Holds(words, c)
  }

  lemma CodesAfterSet(words: seq<bv32>, b: byte)
    requires |words| == 8
    ensures CodesIn(words[b / 32 := words[b / 32] | Bit(b % 32)]) == CodesIn(words) + {b}
  {
    var after := words[b / 32 := words[b / 32] | Bit(b % 32)];
    forall c: byte ensures c in CodesIn(after) <==> c in CodesIn(words) + {b} {
      SetWord(words, b, c);
    }
  }

  class Bitmap {
    const words: array<bv32>

    ghost predicate Valid() { words.Length == 8 }

    ghost function Codes(): set<byte>
      requires Valid()
      reads words
    {
      CodesIn(words[..])
    }

    constructor ()
      ensures Valid() && fresh(words) && Codes() == {}
    {
      words := new bv32[8](_ => 0);
      new;
      assert forall c: byte :: words[..][c / 32] == 0;
    }

    method Set(b: byte)
      requires Valid()
      modifies words
      ensures Codes() == old(Codes()) + {b}
    {
      ghost var before := words[..];
      var word := words[b / 32] | Bit(b % 32);
      words[b / 32] := word;
      assert words[..] == before[b / 32 := word];
      CodesAfterSet(before, b);
    }

    method IsSet(b: byte) returns (r: bool)
      requires Valid()
      ensures r <==> b in Codes()
    {
      assert words[..][b / 32] == words[b / 32];
      r := words[b / 32] & Bit(b % 32) != 0;
    }
  }
}
