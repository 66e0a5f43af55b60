/** What the generator's arithmetic comes to, in other terms than its code. */
module MtReference {
  import opened Mt

  // ---- Seeding ----

  function Plus(a: bv32, b: bv32): bv32 { a + b }

  // Each fact first of an expression, then of the functions.
  lemma FoldExpressions(x: bv32)
    ensures GrowFold(x + 1) == 1_812_433_253 * x + 1_812_433_253
    ensures KeyedFold(x + 1) == x * 1_664_525 + 1_664_525
    ensures LastFold(x + 1) == x * 1_566_083_941 + 1_566_083_941
  {
  }

  lemma PlusExpressions(x: bv32)
    ensures Plus(1_812_433_253 * x, 1_812_433_253) == 1_812_433_253 * x + 1_812_433_253
    ensures Plus(x * 1_664_525, 1_664_525) == x * 1_664_525 + 1_664_525
    ensures Plus(x * 1_566_083_941, 1_566_083_941) == x * 1_566_083_941 + 1_566_083_941
  {
  }

  /** The three factors of seeding, as adding up: nothing for zero, and one
      factor more for each step, wrapping. */
  lemma FoldsAddUp(x: bv32)
    ensures GrowFold(0) == KeyedFold(0) == LastFold(0) == 0
    ensures GrowFold(x + 1) == Plus(GrowFold(x), 1_812_433_253)
    ensures KeyedFold(x + 1) == Plus(KeyedFold(x), 1_664_525)
    ensures LastFold(x + 1) == Plus(LastFold(x), 1_566_083_941)
  {
    FoldExpressions(x);
    PlusExpressions(x);
  }

  /** Answers any other implementation gives: the second word of the sequences
      seeded by 5489 and by 19650218, and one step of either mixing loop. */
  lemma SeedingKnownAnswers()
    ensures Grow(5489, 1) == 1_301_868_182
    ensures Grow(19_650_218, 1) == 2_194_844_435
    ensures Keyed(0xdead_beef, 0x1234_5678, 0x9abc_def0, 3) == 3_665_940_087
    ensures Last(0xdead_beef, 0x1234_5678, 3) == 2_623_676_769
  {
    assert AsWord(1) == 1 && AsWord(3) == 3;
    assert Scrambled(5489) == 5489 && Scrambled(19_650_218) == 19_650_218;
  }

  // ---- Tempering and twisting ----

  lemma Right11Expression(x: bv32, y: bv32)
    ensures Right11(x ^ y) == (x ^ y) ^ ((x ^ y) >> 11)
    ensures Xor(x ^ (x >> 11), y ^ (y >> 11)) == (x ^ y) ^ ((x ^ y) >> 11)
  {
  }

  lemma Right11IsLinear(x: bv32, y: bv32)
    ensures Right11(Xor(x, y)) == Xor(Right11(x), Right11(y))
  {
    Right11Expression(x, y);
  }

  lemma Left7Expression(x: bv32, y: bv32)
    ensures Left7(x ^ y) == (x ^ y) ^ (((x ^ y) << 7) & 0x9d2c_5680)
    ensures Xor(x ^ ((x << 7) & 0x9d2c_5680), y ^ ((y << 7) & 0x9d2c_5680)) == (x ^ y) ^ (((x ^ y) << 7) & 0x9d2c_5680)
  {
  }

  lemma Left7IsLinear(x: bv32, y: bv32)
    ensures Left7(Xor(x, y)) == Xor(Left7(x), Left7(y))
  {
    Left7Expression(x, y);
  }

  lemma Left15Expression(x: bv32, y: bv32)
    ensures Left15(x ^ y) == (x ^ y) ^ (((x ^ y) << 15) & 0xefc6_0000)
    ensures Xor(x ^ ((x << 15) & 0xefc6_0000), y ^ ((y << 15) & 0xefc6_0000)) ==
            (x ^ y) ^ (((x ^ y) << 15) & 0xefc6_0000)
  {
  }

  lemma Left15IsLinear(x: bv32, y: bv32)
    ensures Left15(Xor(x, y)) == Xor(Left15(x), Left15(y))
  {
    Left15Expression(x, y);
  }

  lemma Right18Expression(x: bv32, y: bv32)
    ensures Right18(x ^ y) == (x ^ y) ^ ((x ^ y) >> 18)
    ensures Xor(x ^ (x >> 18), y ^ (y >> 18)) == (x ^ y) ^ ((x ^ y) >> 18)
  {
  }

  lemma Right18IsLinear(x: bv32, y: bv32)
    ensures Right18(Xor(x, y)) == Xor(Right18(x), Right18(y))
  {
    Right18Expression(x, y);
  }

  /** Tempering takes each bit of a word by itself. */
  lemma TemperingIsLinear(x: bv32, y: bv32)
    ensures Temper(Xor(x, y)) == Xor(Temper(x), Temper(y))
  {
    Right11IsLinear(x, y);
    Left7IsLinear(Right11(x), Right11(y));
    Left15IsLinear(Left7(Right11(x)), Left7(Right11(y)));
    Right18IsLinear(Left15(Left7(Right11(x))), Left15(Left7(Right11(y))));
  }

  /** What each bit becomes, lowest first: with linearity, all of tempering. */
  lemma TemperedBits()
    ensures Temper(0x1) == 0x40_0091 && Temper(0x2) == 0x2
    ensures Temper(0x4) == 0x102_0244 && Temper(0x8) == 0x204_0489
    ensures Temper(0x10) == 0x10 && Temper(0x20) == 0x800_1220
    ensures Temper(0x40) == 0x40 && Temper(0x80) == 0x2040_4890
    ensures Temper(0x100) == 0x80_0120 && Temper(0x200) == 0x100_0240
    ensures Temper(0x400) == 0x200_0480 && Temper(0x800) == 0x444_0990
    ensures Temper(0x1000) == 0x808_1200 && Temper(0x2000) == 0x102_2244
    ensures Temper(0x4000) == 0x2224_4c81 && Temper(0x8000) == 0x4000_9010
    ensures Temper(0x1_0000) == 0x8801_3220 && Temper(0x2_0000) == 0x102_0000
    ensures Temper(0x4_0000) == 0x2044_4891 && Temper(0x8_0000) == 0x488_0022
    ensures Temper(0x10_0000) == 0x910_0044 && Temper(0x20_0000) == 0x1220_0088
    ensures Temper(0x40_0000) == 0x444_0911 && Temper(0x80_0000) == 0x888_1222
    ensures Temper(0x100_0000) == 0x8100_0040 && Temper(0x200_0000) == 0x2220_4888
    ensures Temper(0x400_0000) == 0x4400_9100 && Temper(0x800_0000) == 0x8801_2200
    ensures Temper(0x1000_0000) == 0x1102_0440 && Temper(0x2000_0000) == 0x2004_0801
    ensures Temper(0x4000_0000) == 0x4408_1102 && Temper(0x8000_0000) == 0x8810_2204
  {
  }

  /** The twist halves an even word, and adds the matrix row to what it makes of
      an odd word's even neighbour; it is of the first word's top bit and the
      other bits of the second. */
  lemma TwistIsTheMatrix(x: bv32, y: bv32)
    ensures x & 1 == 0 ==> Twist(x) == x >> 1
    ensures x & 1 != 0 ==> Twist(x) == Xor(Twist(x ^ 1), 0x9908_b0df)
    ensures Joined(x, y) & 0x8000_0000 == x & 0x8000_0000 && Joined(x, y) & 0x7fff_ffff == y & 0x7fff_ffff
  {
  }

  // ---- The seeded words, one by one ----

  /** Each word after the first mixing loop has been past it once. */
  function First<W>(ops: Ops<W>, seed: W, key: seq<W>, i: nat): W
    requires |key| > 0
  {
    if i == 0 then Grown(ops, seed, 0)
    else
      var j := (i - 1) % |key|;
      ops.keyed(First(ops, seed, key, i - 1), Grown(ops, seed, i), key[j], j)
  }

  /** And after the second has been past it; word 1 has by then been passed
      twice by the first loop. */
  function Second<W>(ops: Ops<W>, seed: W, key: seq<W>, i: nat): W
    requires |key| > 0 && 1 <= i
  {
    if i == 1 then
      ops.keyed(First(ops, seed, key, 623), First(ops, seed, key, 1), key[623 % |key|], 623 % |key|)
    else
      ops.last(Second(ops, seed, key, i - 1), First(ops, seed, key, i), i)
  }

  lemma Multiples(a: int, b: int, size: int)
    requires a < b && size > 0
    ensures a * size + size <= b * size
  {
    assert (b - a - 1) * size >= 0;
    assert (b - a - 1) * size == b * size - a * size - size;
  }

  lemma NextDigit(n: nat, size: nat)
    requires size > 0
    ensures (n + 1) % size == if n % size + 1 >= size then 0 else n % size + 1
  {
    var (q, r) := (n / size, n % size);
    var (q', r') := ((n + 1) / size, (n + 1) % size);
    if q' > q + 1 {
      Multiples(q + 1, q', size);
      Multiples(q, q + 1, size);
    } else if q' < q {
      Multiples(q', q, size);
    } else if q' == q + 1 {
      Multiples(q, q + 1, size);
      assert q' * size == q * size + size;
    }
  }

  function GrownWords<W>(ops: Ops<W>, seed: W): (r: seq<W>)
    ensures |r| == 624 && forall k :: 0 <= k < 624 ==> r[k] == Grown(ops, seed, k)
  {
    seq(624, i requires 0 <= i < 624 => Grown(ops, seed, i))
  }

  lemma {:induction false} FirstLoop<W>(ops: Ops<W>, seed: W, key: seq<W>, n: nat)
    requires |key| > 0 && n <= 623
    ensures var (mt, i, j) := KeyRounds(ops, GrownWords(ops, seed), key, n);
      && i == (if n < 623 then n + 1 else 1) && j == n % |key|
      && (forall k :: 1 <= k <= n ==> mt[k] == First(ops, seed, key, k))
      && (forall k :: n < k < 624 ==> mt[k] == Grown(ops, seed, k))
      && mt[0] == First(ops, seed, key, if n < 623 then 0 else 623)
  {
    if n > 0 {
      FirstLoop(ops, seed, key, n - 1);
      NextDigit(n - 1, |key|);
    }
  }

  lemma {:induction false} SecondLoop<W>(ops: Ops<W>, seed: W, key: seq<W>, mt0: seq<W>, n: nat)
    requires |key| > 0 && n <= 622 && |mt0| == 624
    requires mt0[1] == Second(ops, seed, key, 1) && forall k :: 2 <= k < 624 ==> mt0[k] == First(ops, seed, key, k)
    ensures var (mt, i) := LastRounds(ops, mt0, 2, n);
      && i == (if n < 622 then n + 2 else 1)
      && (forall k :: 1 <= k <= n + 1 ==> mt[k] == Second(ops, seed, key, k))
      && (forall k :: n + 1 < k < 624 ==> mt[k] == First(ops, seed, key, k))
      && (n == 622 ==> mt[0] == Second(ops, seed, key, 623))
  {
    if n > 0 {
      SecondLoop(ops, seed, key, mt0, n - 1);
    }
  }

  /** For a key of up to 624 words: word 0 is the constant, word 1 has been
      passed once more by the second loop, from its own end, and every other
      word once by either loop. */
  lemma SeededWords<W>(ops: Ops<W>, seed: W, key: seq<W>, k: nat)
    requires 0 < |key| <= 624 && k < 624
    ensures Seeded(ops, seed, key)[k] ==
            if k == 0 then ops.top
            else if k == 1 then ops.last(Second(ops, seed, key, 623), Second(ops, seed, key, 1), 1)
            else Second(ops, seed, key, k)
  {
    var grown := GrownWords(ops, seed);
    FirstLoop(ops, seed, key, 623);
    var (mt1, i1, j1) := KeyRounds(ops, grown, key, 623);
    var (mt2, i2, j2) := KeyRounds(ops, grown, key, 624);
    assert mt2 == Placed(mt1, 1, Second(ops, seed, key, 1)) && i2 == 2;
    SecondLoop(ops, seed, key, mt2, 622);
    var (mt3, i3) := LastRounds(ops, mt2, 2, 622);
    assert LastRounds(ops, mt2, 2, 623).0 == Placed(mt3, 1, ops.last(mt3[0], mt3[1], 1));
    assert grown == seq(N, i requires 0 <= i < N => Grown(ops, seed, i));
  }

  // ---- Numbers below a bound ----

  function Pow2(n: nat): nat {
    if n == 0 then 1 else 2 * Pow2(n - 1)
  }

  /** As many bits as it takes, and no more. */
  lemma {:induction false} BitLengthIsLeast(n: nat)
    requires n > 0
    ensures Pow2(BitLength(n) - 1) <= n < Pow2(BitLength(n))
  {
    if n > 1 {
      BitLengthIsLeast(n / 2);
    }
  }

  /** The bits are taken from the top. */
  lemma TopKnownAnswers()
    ensures Top(0x8000_0000, 1) == 1 && Top(0x7fff_ffff, 1) == 0 && Top(0x1234_5678, 8) == 0x12
    ensures Top(0x1234_5678, 16) == 0x1234 && Top(0xffff_ffff, 32) == 0xffff_ffff && Top(0xffff_ffff, 0) == 0
  {
  }
}
