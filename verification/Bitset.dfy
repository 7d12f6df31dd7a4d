/**
 Sets of small numbers packed into 64-bit words, with the bit-parallel
 population count that feeds the hash.

 The count adds bits in pairs, pairs in nibbles and nibbles in bytes, and sums
 the bytes by one wrapping multiplication.  The proof takes a word apart byte by
 byte: each stage works within bytes, a byte's sum is its number of bits, and
 the top byte of the product is the sum of all bytes.
 */
module Bitsets {

  // ---------------------------------------------------------------- the bits of one word

  predicate BitV(w: bv64, b: bv6) {
    (w >> b) & 1 == 1
  }

  /** Bit `b` of the word, counted from the least significant. */
  predicate Bit(w: bv64, b: nat)
    requires b < 64
  {
    BitV(w, b as bv6)
  }

  lemma FromIndex(b: nat)
    requires b < 64
    ensures b as bv6 as int == b
  {
  }

  lemma ToIndex(b: bv6)
    ensures 0 <= b as int < 64 && b as int as bv6 == b
  {
  }

  lemma SameIndex(m: nat, b: nat)
    requires m < 64 && b < 64
    ensures m as bv6 == b as bv6 <==> m == b
  {
    FromIndex(m);
    FromIndex(b);
  }

  lemma SetBitV(w: bv64, m: bv6, b: bv6)
    ensures BitV(w | (1 << m), b) <==> BitV(w, b) || b == m
  {
  }

  lemma ClearBitV(w: bv64, m: bv6, b: bv6)
    ensures BitV(w & !(1 << m), b) <==> BitV(w, b) && b != m
  {
  }

  lemma SetBit(w: bv64, m: nat, mv: bv6, b: nat)
    requires m < 64 && b < 64 && mv == m as bv6
    ensures Bit(w | (1 << mv), b) <==> Bit(w, b) || b == m
  {
    var bv := b as bv6;
    SameIndex(m, b);
    SetBitV(w, mv, bv);
  }

  lemma ClearBit(w: bv64, m: nat, mv: bv6, b: nat)
    requires m < 64 && b < 64 && mv == m as bv6
    ensures Bit(w & !(1 << mv), b) <==> Bit(w, b) && b != m
  {
    var bv := b as bv6;
    SameIndex(m, b);
    ClearBitV(w, mv, bv);
  }

  function Half(w: bv64): (h: bv64)
    ensures w != 0 ==> h < w
  {
    w >> 1
  }

  lemma HalfBitV(w: bv64, b: bv6)
    ensures BitV(Half(w), b) <==> b < 63 && BitV(w, b + 1)
  {
  }

  lemma NextIndexV(b: nat, x: bv6, y: bv6)
    requires b < 63 && x as nat == b && y == x + 1
    ensures y as nat == b + 1 && x < 63
  {
  }

  lemma NextIndex(b: nat, x: bv6, y: bv6)
    requires b < 63 && x == b as bv6 && y == (b + 1) as bv6
    ensures y == x + 1 && x < 63
  {
    FromIndex(b);
    FromIndex(b + 1);
    NextIndexV(b, x, x + 1);
    ToIndex(x + 1);
  }

  lemma LastIndex(b: nat)
    requires b < 64
    ensures b as bv6 < 63 <==> b < 63
  {
  }

  lemma HalfBit(w: bv64, b: nat)
    requires b < 64
    ensures Bit(Half(w), b) <==> b < 63 && Bit(w, b + 1)
  {
    var bv := b as bv6;
    HalfBitV(w, bv);
    LastIndex(b);
    if b < 63 {
      NextIndex(b, bv, (b + 1) as bv6);
    }
  }

  lemma LowBit(w: bv64)
    ensures Bit(w, 0) <==> w & 1 == 1
  {
  }

  lemma HalfIsZero(w: bv64)
    requires w & 1 != 1 && Half(w) == 0
    ensures w == 0
  {
  }

  lemma {:induction false} NoBits(w: bv64)
    requires forall b: nat :: b < 64 ==> !Bit(w, b)
    ensures w == 0
    decreases w
  {
    assert !Bit(w, 0);
    LowBit(w);
    if w != 0 {
      forall b: nat | b < 64 ensures !Bit(Half(w), b) {
        HalfBit(w, b);
      }
      NoBits(Half(w));
      HalfIsZero(w);
    }
  }

  lemma XorBitV(w: bv64, v: bv64, b: bv6)
    requires BitV(w, b) == BitV(v, b)
    ensures !BitV(w ^ v, b)
  {
  }

  lemma XorIsZero(w: bv64, v: bv64)
    requires w ^ v == 0
    ensures w == v
  {
  }

  /** Two words with the same bits are the same word. */
  lemma {:induction false} SameBitsSameWord(w: bv64, v: bv64)
    requires forall b: nat :: b < 64 ==> Bit(w, b) == Bit(v, b)
    ensures w == v
  {
    var x := w ^ v;
    forall b: nat | b < 64 ensures !Bit(x, b) {
      assert Bit(w, b) == Bit(v, b);
      XorBitV(w, v, b as bv6);
    }
    NoBits(x);
    XorIsZero(w, v);
  }

  // ---------------------------------------------------------------- population count of a word

  // The stages: bits summed in pairs, pairs in nibbles, nibbles in bytes, and
  // all bytes summed into the top byte by one wrapping multiplication.
  function Pairs(v: bv64): bv64 {
    (v & 0x5555_5555_5555_5555) + ((v & 0xAAAA_AAAA_AAAA_AAAA) >> 1)
  }

  function Nibbles(v: bv64): bv64 {
    (v & 0x3333_3333_3333_3333) + ((v & 0xCCCC_CCCC_CCCC_CCCC) >> 2)
  }

  function Bytes(v: bv64): bv64 {
    (v & 0x0F0F_0F0F_0F0F_0F0F) + ((v & 0xF0F0_F0F0_F0F0_F0F0) >> 4)
  }

  function TopByte(v: bv64): bv64 {
    ((v * 0x0101_0101_0101_0101) >> 56) & 0xFF
  }

  function ByteSums(v: bv64): bv64 {
    Bytes(Nibbles(Pairs(v)))
  }

  /** A word read as a number. */
  ghost function Num(x: bv64): nat
    decreases x
  {
    if x == 0 then 0 else Num(x - 1) + 1
  }

  ghost predicate IsByte(x: bv64) {
    x < 256
  }

  ghost predicate AsNat(x: bv64, n: nat) {
    x as nat == n
  }

  lemma AsNatNext(x: bv64, n: nat)
    requires x != 0 && IsByte(x)
    ensures IsByte(x - 1) && x - 1 < x && (AsNat(x - 1, n) ==> AsNat(x, n + 1))
  {
  }

  lemma {:induction false} NumIs(x: bv64)
    requires IsByte(x)
    ensures AsNat(x, Num(x))
    decreases x
  {
    if x != 0 {
      AsNatNext(x, Num(x - 1));
      NumIs(x - 1);
    }
  }

  ghost predicate Adds(a: bv64, b: bv64, c: bv64) {
    a < 256 && b < 256 && c == a + b
  }

  lemma AddsLess(a: bv64, b: bv64, c: bv64)
    requires Adds(a, b, c) && b != 0
    ensures c != 0 && b - 1 < b && Adds(a, b - 1, c - 1)
  {
  }

  lemma AddsZero(a: bv64, b: bv64, c: bv64)
    requires Adds(a, b, c) && b == 0
    ensures c == a
  {
  }

  lemma {:induction false} NumSum(a: bv64, b: bv64, c: bv64)
    requires Adds(a, b, c)
    ensures Num(c) == Num(a) + Num(b)
    decreases b
  {
    if b == 0 {
      AddsZero(a, b, c);
    } else {
      AddsLess(a, b, c);
      NumSum(a, b - 1, c - 1);
    }
  }

  /** The number of set bits, counted one by one. */
  ghost function Ones(v: bv64): nat
    decreases v
  {
    if v == 0 then 0 else (if v & 1 == 1 then 1 else 0) + Ones(Half(v))
  }

  lemma NumBit(x: bv64)
    ensures Num(x & 1) == if x & 1 == 1 then 1 else 0
  {
    assert x & 1 == 0 || x & 1 == 1;
    assert Num(0) == 0;
    assert Num(1) == 1 + Num(0);
  }

  lemma OnesStep(v: bv64)
    ensures Ones(v) == Num(v & 1) + Ones(v >> 1)
  {
    NumBit(v);
    if v == 0 {
      assert v & 1 == 0 && v >> 1 == 0;
    }
  }

  // The lowest `n` bits, added up, and the word without them.
  ghost function LowBits(v: bv64, n: bv64): bv64
    decreases n
  {
    if n == 0 then 0 else (v & 1) + LowBits(v >> 1, n - 1)
  }

  ghost function Drop(v: bv64, n: bv64): bv64
    decreases n
  {
    if n == 0 then v else Drop(v >> 1, n - 1)
  }

  lemma LowBitsAdd(x: bv64, y: bv64, n: bv64)
    requires y < n && n <= 8
    ensures (x & 1) + y <= n && Adds(x & 1, y, (x & 1) + y)
  {
  }

  lemma {:induction false} OnesSplit(v: bv64, n: bv64)
    requires n <= 8
    ensures LowBits(v, n) <= n && Ones(v) == Num(LowBits(v, n)) + Ones(Drop(v, n))
    decreases n
  {
    if n == 0 {
      assert Num(0) == 0;
    } else {
      OnesSplit(v >> 1, n - 1);
      OnesStep(v);
      LowBitsAdd(v, LowBits(v >> 1, n - 1), n);
      NumSum(v & 1, LowBits(v >> 1, n - 1), LowBits(v, n));
    }
  }

  lemma LowBits1(v: bv64)
    ensures LowBits(v, 1) == (v & 1)
  {
  }

  lemma LowBits2(v: bv64)
    ensures LowBits(v, 2) == ((v & 1) + ((v >> 1) & 1))
  {
    LowBits1(v >> 1);
  }

  lemma LowBits3(v: bv64)
    ensures LowBits(v, 3) == ((v & 1) + (((v >> 1) & 1) + ((v >> 2) & 1)))
  {
    LowBits2(v >> 1);
  }

  lemma LowBits4(v: bv64)
    ensures LowBits(v, 4) == ((v & 1) + (((v >> 1) & 1) + (((v >> 2) & 1) + ((v >> 3) & 1))))
  {
    LowBits3(v >> 1);
  }

  lemma LowBits5(v: bv64)
    ensures LowBits(v, 5) == ((v & 1) + (((v >> 1) & 1) + (((v >> 2) & 1) + (((v >> 3) & 1) + ((v >> 4) & 1)))))
  {
    LowBits4(v >> 1);
  }

  lemma LowBits6(v: bv64)
    ensures LowBits(v, 6)
            == ((v & 1) + (((v >> 1) & 1) + (((v >> 2) & 1) + (((v >> 3) & 1) + (((v >> 4) & 1) + ((v >> 5) & 1))))))
  {
    LowBits5(v >> 1);
  }

  lemma LowBits7(v: bv64)
    ensures LowBits(v, 7)
            == ((v & 1)
                + (((v >> 1) & 1)
                   + (((v >> 2) & 1) + (((v >> 3) & 1) + (((v >> 4) & 1) + (((v >> 5) & 1) + ((v >> 6) & 1)))))))
  {
    LowBits6(v >> 1);
  }

  lemma LowBits8(v: bv64)
    ensures LowBits(v, 8)
            == ((v & 1)
                + (((v >> 1) & 1)
                   + (((v >> 2) & 1)
                      + (((v >> 3) & 1) + (((v >> 4) & 1) + (((v >> 5) & 1) + (((v >> 6) & 1) + ((v >> 7) & 1))))))))
  {
    LowBits7(v >> 1);
  }

  lemma DropByte(v: bv64)
    ensures Drop(v, 8) == v >> 8
  {
    assert v >> 1 >> 1 == v >> 2 && v >> 2 >> 1 == v >> 3 && v >> 3 >> 1 == v >> 4 && v >> 4 >> 1 == v >> 5;
    assert v >> 5 >> 1 == v >> 6 && v >> 6 >> 1 == v >> 7 && v >> 7 >> 1 == v >> 8;
    assert Drop(v >> 7, 1) == v >> 8;
    assert Drop(v >> 6, 2) == v >> 8;
    assert Drop(v >> 5, 3) == v >> 8;
    assert Drop(v >> 4, 4) == v >> 8;
    assert Drop(v >> 3, 5) == v >> 8;
    assert Drop(v >> 2, 6) == v >> 8;
    assert Drop(v >> 1, 7) == v >> 8;
  }

  lemma LowByteFlat(v: bv64)
    ensures ByteSums(v) & 0xFF
            == ((v & 1)
                + (((v >> 1) & 1)
                   + (((v >> 2) & 1)
                      + (((v >> 3) & 1) + (((v >> 4) & 1) + (((v >> 5) & 1) + (((v >> 6) & 1) + ((v >> 7) & 1))))))))
  {
  }

  /** After three stages the lowest byte holds the number of set bits in the lowest byte. */
  lemma LowByteSums(v: bv64)
    ensures ByteSums(v) & 0xFF == LowBits(v, 8)
  {
    LowBits8(v);
    LowByteFlat(v);
  }

  lemma OnesByte(v: bv64)
    ensures Ones(v) == Num(ByteSums(v) & 0xFF) + Ones(v >> 8)
  {
    LowByteSums(v);
    DropByte(v);
    OnesSplit(v, 8);
  }

  // Every stage works on each byte alone.
  lemma PairsByByte(v: bv64)
    ensures Pairs(v >> 8) == Pairs(v) >> 8
  {
  }

  lemma NibblesByByte(v: bv64)
    ensures Nibbles(v >> 8) == Nibbles(v) >> 8
  {
  }

  lemma BytesByByte(v: bv64)
    ensures Bytes(v >> 8) == Bytes(v) >> 8
  {
  }

  lemma ByteSumsByByte(v: bv64)
    ensures ByteSums(v >> 8) == ByteSums(v) >> 8
  {
    PairsByByte(v);
    NibblesByByte(Pairs(v));
    BytesByByte(Nibbles(Pairs(v)));
  }

  predicate SmallBytes(x: bv64) {
    x & 0xF0F0_F0F0_F0F0_F0F0 == 0
  }

  lemma ByteSumsSmall(v: bv64)
    ensures SmallBytes(ByteSums(v))
  {
  }

  lemma SmallBytesShift(x: bv64)
    requires SmallBytes(x)
    ensures SmallBytes(x >> 8)
  {
  }

  ghost function SumBytes(v: bv64): nat
    decreases v
  {
    if v == 0 then 0 else Num(v & 0xFF) + SumBytes(RestBytes(v))
  }

  function RestBytes(v: bv64): (h: bv64)
    ensures v != 0 ==> h < v
  {
    v >> 8
  }

  lemma SumBytesStep(v: bv64)
    ensures SumBytes(v) == Num(v & 0xFF) + SumBytes(v >> 8)
  {
    if v == 0 {
      assert v & 0xFF == 0 && v >> 8 == 0 && Num(0) == 0;
    }
  }

  lemma {:induction false} SumBytesIsOnes(v: bv64)
    ensures SumBytes(ByteSums(v)) == Ones(v)
    decreases v
  {
    OnesByte(v);
    SumBytesStep(ByteSums(v));
    ByteSumsByByte(v);
    if v == 0 {
      assert ByteSums(0) == 0;
    } else {
      assert RestBytes(v) < v;
      SumBytesIsOnes(v >> 8);
    }
  }

  // The wrapping multiplication adds up the bytes.
  lemma TopByteAdds(x: bv64, y: bv64, z: bv64)
    requires SmallBytes(x) && SmallBytes(y) && z == x + y
    ensures Adds(TopByte(x), TopByte(y), TopByte(z))
  {
  }

  lemma TopByteSplit(v: bv64, low: bv64, high: bv64)
    requires SmallBytes(v) && low == v & 0xFF && high == v & 0xFFFF_FFFF_FFFF_FF00
    ensures Adds(TopByte(low), TopByte(high), TopByte(v))
  {
    assert v == low + high && SmallBytes(low) && SmallBytes(high);
    TopByteAdds(low, high, v);
  }

  lemma TopByteLow(v: bv64)
    ensures TopByte(v & 0xFF) == v & 0xFF
  {
  }

  lemma TopByteHigh(v: bv64)
    requires SmallBytes(v)
    ensures TopByte(v & 0xFFFF_FFFF_FFFF_FF00) == TopByte(v >> 8)
  {
  }

  lemma {:induction false} TopByteIsSum(v: bv64)
    requires SmallBytes(v)
    ensures Num(TopByte(v)) == SumBytes(v)
    decreases v
  {
    if v == 0 {
      assert TopByte(0) == 0 && Num(0) == 0;
    } else {
      var low, high := v & 0xFF, v & 0xFFFF_FFFF_FFFF_FF00;
      TopByteSplit(v, low, high);
      NumSum(TopByte(low), TopByte(high), TopByte(v));
      TopByteLow(v);
      TopByteHigh(v);
      SmallBytesShift(v);
      assert RestBytes(v) < v;
      TopByteIsSum(v >> 8);
      SumBytesStep(v);
    }
  }

  /** The bit-parallel population count of a word. */
  function PopWord(v: bv64): nat {
    TopByte(ByteSums(v)) as nat
  }

  lemma TopByteIsByte(v: bv64)
    ensures IsByte(TopByte(v))
  {
  }

  lemma PopWordIsOnes(v: bv64)
    ensures PopWord(v) == Ones(v)
  {
    ByteSumsSmall(v);
    TopByteIsSum(ByteSums(v));
    SumBytesIsOnes(v);
    TopByteIsByte(ByteSums(v));
    NumIs(TopByte(ByteSums(v)));
  }

  predicate BitFrom(w: bv64, base: nat, i: nat) {
    base <= i < base + 64 && Bit(w, i - base)
  }

  /** The positions of the set bits of a word that starts at position `base`. */
  ghost function BitsFrom(w: bv64, base: nat): set<nat> {
    set i: nat | i < base + 64 && BitFrom(w, base, i)
  }

  lemma {:induction false} OnesCounts(w: bv64, base: nat)
    ensures Ones(w) == |BitsFrom(w, base)|
    decreases w
  {
    if w == 0 {
      forall i: nat | i < base + 64 ensures !BitFrom(0, base, i) {
        if base <= i {
          ZeroBitV((i - base) as bv6);
        }
      }
      assert BitsFrom(w, base) == {};
    } else {
      OnesCounts(Half(w), base + 1);
      var rest := BitsFrom(Half(w), base + 1);
      forall i: nat | i < base + 65 ensures i in BitsFrom(w, base) <==> (i == base && w & 1 == 1) || i in rest {
        BitFromHalf(w, base, i);
      }
      if w & 1 == 1 {
        assert base !in rest;
        assert BitsFrom(w, base) == {base} + rest;
      } else {
        assert BitsFrom(w, base) == rest;
      }
    }
  }

  lemma ZeroBitV(b: bv6)
    ensures !BitV(0, b)
  {
  }

  lemma BitFromHalf(w: bv64, base: nat, i: nat)
    ensures BitFrom(w, base, i) <==> (i == base && w & 1 == 1) || BitFrom(Half(w), base + 1, i)
  {
    if i == base {
      LowBit(w);
    } else if base + 1 <= i < base + 65 {
      HalfBit(w, i - base - 1);
    }
  }

  /** The bit-parallel count is the number of set bits, for every word. */
  lemma PopWordCounts(w: bv64, base: nat)
    ensures PopWord(w) == |BitsFrom(w, base)|
  {
    PopWordIsOnes(w);
    OnesCounts(w, base);
  }

  // ---------------------------------------------------------------- the vector of words

  /** The set a vector of words stands for. */
  ghost function MembersOf(words: seq<bv64>): set<nat> {
    set i: nat | i < 64 * |words| && Bit(words[i / 64], i % 64)
  }

  lemma MemberAt(words: seq<bv64>, k: nat, b: nat)
    requires k < |words| && b < 64
    ensures 64 * k + b in MembersOf(words) <==> Bit(words[k], b)
  {
    var i := 64 * k + b;
    assert i / 64 == k && i % 64 == b;
  }

  lemma {:induction false} SameMembersSameWords(a: seq<bv64>, b: seq<bv64>)
    requires |a| == |b| && MembersOf(a) == MembersOf(b)
    ensures a == b
  {
    forall k | 0 <= k < |a| ensures a[k] == b[k] {
      forall c: nat | c < 64 ensures Bit(a[k], c) == Bit(b[k], c) {
        MemberAt(a, k, c);
        MemberAt(b, k, c);
      }
      SameBitsSameWord(a[k], b[k]);
    }
  }

  lemma {:induction false} MembersGrow(words: seq<bv64>, k: nat)
    requires k < |words|
    ensures MembersOf(words[..k + 1]) == MembersOf(words[..k]) + BitsFrom(words[k], 64 * k)
    ensures MembersOf(words[..k]) !! BitsFrom(words[k], 64 * k)
  {
    forall i: nat
      ensures i in MembersOf(words[..k + 1]) <==> i in MembersOf(words[..k]) || i in BitsFrom(words[k], 64 * k)
    {
      if 64 * k <= i < 64 * k + 64 {
        MemberAt(words[..k + 1], k, i - 64 * k);
      }
    }
  }

  lemma {:induction false} MembersUpdate(words: seq<bv64>, major: nat, minor: nat, word: bv64, on: bool)
    requires major < |words| && minor < 64
    requires forall b: nat :: b < 64 ==> (Bit(word, b) <==> if b == minor then on else Bit(words[major], b))
    ensures MembersOf(words[major := word]) == if on then MembersOf(words) + {64 * major + minor}
            else MembersOf(words) - {64 * major + minor}
  {
    var pos, after := 64 * major + minor, words[major := word];
    forall i: nat | i < 64 * |words| ensures i in MembersOf(after) <==> if i == pos then on else i in MembersOf(words) {
      var k, b := i / 64, i % 64;
      assert i == 64 * k + b;
      MemberAt(words, k, b);
      MemberAt(after, k, b);
      if k == major {
        assert Bit(word, b) <==> if b == minor then on else Bit(words[major], b);
      }
    }
  }

  ghost function XorAll(words: seq<bv64>, seed: bv64): bv64 {
    if words == [] then seed else XorAll(words[..|words| - 1], seed) ^ words[|words| - 1]
  }

  const TWO_TO_THE_64: nat := 0x1_0000_0000_0000_0000

  function Wrap64(n: nat): bv64 {
    (n % TWO_TO_THE_64) as bv64
  }

  /** The hash: the number of members, folded with every word. */
  ghost function HashOf(words: seq<bv64>): bv64 {
    XorAll(words, Wrap64(|MembersOf(words)|))
  }

  class Bitset {
    var words: seq<bv64>

    ghost function Members(): set<nat>
      reads this
    {
      MembersOf(words)
    }

    constructor (bits: nat)
      ensures Members() == {} && |words| == (bits + 63) / 64 && bits <= 64 * |words|
    {
      var extra := if bits % 64 != 0 then 1 else 0;
      words := seq(bits / 64 + extra, _ => 0);
      new;
      forall i: nat | i < 64 * |words| ensures !Bit(words[i / 64], i % 64) {
        ZeroBitV((i % 64) as bv6);
      }
    }

    constructor Clone(other: Bitset)
      ensures words == other.words
    {
      words := other.words;
    }

    method Set(pos: nat)
      requires pos < 64 * |words|
      modifies this
      ensures Members() == old(Members()) + {pos} && |words| == old(|words|)
    {
      var major, minor := pos / 64, pos % 64;
      var mv := minor as bv6;
      var word := words[major] | (1 << mv);
      forall b: nat | b < 64 ensures Bit(word, b) <==> if b == minor then true else Bit(words[major], b) {
        SetBit(words[major], minor, mv, b);
      }
      MembersUpdate(words, major, minor, word, true);
      words := words[major := word];
    }

    method Clear(pos: nat)
      requires pos < 64 * |words|
      modifies this
      ensures Members() == old(Members()) - {pos} && |words| == old(|words|)
    {
      var major, minor := pos / 64, pos % 64;
      var mv := minor as bv6;
      var word := words[major] & !(1 << mv);
      forall b: nat | b < 64 ensures Bit(word, b) <==> if b == minor then false else Bit(words[major], b) {
        ClearBit(words[major], minor, mv, b);
      }
      MembersUpdate(words, major, minor, word, false);
      words := words[major := word];
    }

    method Popcnt() returns (total: nat)
      ensures total == |Members()|
    {
      total := 0;
      for k := 0 to |words|
        invariant total == |MembersOf(words[..k])|
      {
        PopWordCounts(words[k], 64 * k);
        MembersGrow(words, k);
        total := total + PopWord(words[k]);
      }
      assert words[..|words|] == words;
    }

    method Hash() returns (hash: bv64)
      ensures hash == HashOf(words)
    {
      var count := Popcnt();
      var seed := Wrap64(count);
      hash := seed;
      for k := 0 to |words|
        invariant hash == XorAll(words[..k], seed)
      {
        assert words[..k + 1][..k] == words[..k];
        hash := hash ^ words[k];
      }
      assert words[..|words|] == words;
    }

    method Equals(b2: Bitset) returns (same: bool)
      ensures same <==> words == b2.words
      ensures |words| == |b2.words| ==> (same <==> Members() == b2.Members())
    {
      same := SameWords(words, b2.words);
    }
  }

  /** Word by word; for equally long vectors, whether they stand for the same set. */
  method SameWords(a: seq<bv64>, b: seq<bv64>) returns (same: bool)
    ensures same <==> a == b
    ensures |a| == |b| ==> (same <==> MembersOf(a) == MembersOf(b))
  {
    if |a| == |b| && MembersOf(a) == MembersOf(b) {
      SameMembersSameWords(a, b);
    }
    if |a| != |b| {
      return false;
    }
    for i := 0 to |a|
      invariant a[..i] == b[..i]
    {
      if a[i] != b[i] {
        return false;
      }
    }
    assert a == a[..|a|] && b == b[..|a|];
    return true;
  }
}
