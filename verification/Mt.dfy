/** CPython's `random.Random`: the MT19937 generator, its 624 words rewritten
    in place. */
module Mt {
  const N: nat := 624
  const M: nat := 397

  /** The arithmetic on words the generator is built from; the rest of it only
      moves words around. */
  datatype Ops<!W> = Ops(
    next: (W, W, W) -> W,         // from x[n - 624], x[n - 623] and x[n - 227]
    grow: (W, nat) -> W,          // seeding, from the word before
    keyed: (W, W, W, nat) -> W,   // seeding by key, from the word before, the word, the key word
    last: (W, W, nat) -> W,       // and the last round of it
    top: W)

  // ---- The mathematical sequence ----

  /** The n-th term of the sequence that starts with `x`: each word from 397,
      624 and 623 words back. */
  function Term<W>(ops: Ops<W>, x: seq<W>, n: nat): W
    requires |x| == N
  {
    if n < N then x[n] else ops.next(Term(ops, x, n - N), Term(ops, x, n - N + 1), Term(ops, x, n - N + M))
  }

  function TermFrom<W>(ops: Ops<W>, x: seq<W>, p: nat, i: nat): W
    requires |x| == N
  {
    Term(ops, x, p + i)
  }

  ghost predicate SameWindow<W>(ops: Ops<W>, x: seq<W>, y: seq<W>, p: nat, q: nat)
    requires |x| == |y| == N
  {
    forall i :: 0 <= i < N ==> TermFrom(ops, x, p, i) == TermFrom(ops, y, q, i)
  }

  /** Two sequences that agree on 624 terms in a row, wherever each has them,
      agree from there on. */
  lemma {:induction false} AgreeingWindowsAgreeOn<W>(ops: Ops<W>, x: seq<W>, y: seq<W>, p: nat, q: nat, n: nat)
    requires |x| == |y| == N && SameWindow(ops, x, y, p, q)
    ensures TermFrom(ops, x, p, n) == TermFrom(ops, y, q, n)
  {
    if n >= N {
      AgreeingWindowsAgreeOn(ops, x, y, p, q, n - N);
      AgreeingWindowsAgreeOn(ops, x, y, p, q, n - N + 1);
      AgreeingWindowsAgreeOn(ops, x, y, p, q, n - N + M);
      Recurs(ops, x, p, n);
      Recurs(ops, y, q, n);
    }
  }

  lemma Recurs<W>(ops: Ops<W>, x: seq<W>, p: nat, n: nat)
    requires |x| == N && n >= N
    ensures TermFrom(ops, x, p, n) ==
            ops.next(TermFrom(ops, x, p, n - N), TermFrom(ops, x, p, n - N + 1), TermFrom(ops, x, p, n - N + M))
  {
    var k := p + n;
    assert k - N + M == p + (n - N + M) && k - N == p + (n - N) && k - N + 1 == p + (n - N + 1);
  }

  // ---- The words in their array ----

  /** The array holds terms `N * rounds` and on. */
  ghost predicate Holds<W>(mt: array<W>, ops: Ops<W>, x: seq<W>, rounds: nat)
    requires mt.Length == N && |x| == N
    reads mt
  {
    forall j :: 0 <= j < N ==> mt[j] == TermFrom(ops, x, N * rounds, j)
  }

  /** Rewrite all 624 words in place with the next 624 terms. */
  method Regenerate<W>(mt: array<W>, ops: Ops<W>, ghost x: seq<W>, ghost rounds: nat)
    requires mt.Length == N && |x| == N && Holds(mt, ops, x, rounds)
    modifies mt
    ensures Holds(mt, ops, x, rounds + 1)
  {
    for i := 0 to N
      invariant forall j :: 0 <= j < i ==> mt[j] == TermFrom(ops, x, N * (rounds + 1), j)
      invariant forall j :: i <= j < N ==> mt[j] == TermFrom(ops, x, N * rounds, j)
    {
      TermAhead(ops, x, rounds, i);
      mt[i] := ops.next(mt[i], mt[(i + 1) % N], mt[(i + M) % N]);
    }
  }

  /** The new i-th word, from words still old or already new. */
  lemma TermAhead<W>(ops: Ops<W>, x: seq<W>, rounds: nat, i: nat)
    requires |x| == N && i < N
    ensures TermFrom(ops, x, N * (rounds + 1), i) ==
            ops.next(TermFrom(ops, x, N * rounds, i),
                     if i + 1 < N then TermFrom(ops, x, N * rounds, i + 1) else TermFrom(ops, x, N * (rounds + 1), 0),
                     if i + M < N then TermFrom(ops, x, N * rounds, i + M)
                     else TermFrom(ops, x, N * (rounds + 1), i + M - N))
  {
    var (low, high) := (N * rounds, N * (rounds + 1));
    assert high + i - N == low + i && high + i - N + 1 == low + (i + 1) && high + i - N + M == low + (i + M);
    assert i + 1 == N ==> low + (i + 1) == high + 0;
    assert i + M >= N ==> low + (i + M) == high + (i + M - N);
  }

  // ---- Seeding ----

  /** `init_genrand`, word by word. */
  function Grown<W>(ops: Ops<W>, seed: W, i: nat): W {
    if i == 0 then seed else ops.grow(Grown(ops, seed, i - 1), i)
  }

  method InitGenrand<W>(mt: array<W>, ops: Ops<W>, seed: W)
    requires mt.Length == N
    modifies mt
    ensures mt[..] == seq(N, i requires 0 <= i < N => Grown(ops, seed, i))
  {
    mt[0] := seed;
    for i := 1 to N
      invariant forall k :: 0 <= k < i ==> mt[k] == Grown(ops, seed, k)
    {
      mt[i] := ops.grow(mt[i - 1], i);
    }
  }

  /** Where seeding goes after word `i`; word 0 is never mixed, only copied
      from the end. */
  function After(i: nat): nat {
    if i + 1 >= N then 1 else i + 1
  }

  function Placed<W>(mt: seq<W>, i: nat, word: W): (r: seq<W>)
    requires |mt| == N && 1 <= i < N
    ensures |r| == N
  {
    var mt' := mt[i := word];
    if i + 1 >= N then mt'[0 := mt'[N - 1]] else mt'
  }

  method Place<W>(mt: array<W>, i: nat, word: W)
    requires mt.Length == N && 1 <= i < N
    modifies mt
    ensures mt[..] == Placed(old(mt[..]), i, word)
  {
    mt[i] := word;
    if i + 1 >= N {
      mt[0] := mt[N - 1];
    }
  }

  function KeyRounds<W>(ops: Ops<W>, mt: seq<W>, key: seq<W>, n: nat): (r: (seq<W>, nat, nat))
    requires |mt| == N && |key| > 0
    ensures |r.0| == N && 1 <= r.1 < N && r.2 < |key|
  {
    if n == 0 then (mt, 1, 0)
    else
      var (mt', i, j) := KeyRounds(ops, mt, key, n - 1);
      (Placed(mt', i, ops.keyed(mt'[i - 1], mt'[i], key[j], j)), After(i), if j + 1 >= |key| then 0 else j + 1)
  }

  function LastRounds<W>(ops: Ops<W>, mt: seq<W>, i: nat, n: nat): (r: (seq<W>, nat))
    requires |mt| == N && 1 <= i < N
    ensures |r.0| == N && 1 <= r.1 < N
  {
    if n == 0 then (mt, i)
    else
      var (mt', i') := LastRounds(ops, mt, i, n - 1);
      (Placed(mt', i', ops.last(mt'[i' - 1], mt'[i'], i')), After(i'))
  }

  /** `init_by_array` over words grown from `seed`. */
  function Seeded<W>(ops: Ops<W>, seed: W, key: seq<W>): (r: seq<W>)
    requires |key| > 0
    ensures |r| == N
  {
    var grown := seq(N, i requires 0 <= i < N => Grown(ops, seed, i));
    var (mt, i, j) := KeyRounds(ops, grown, key, if |key| > N then |key| else N);
    LastRounds(ops, mt, i, N - 1).0[0 := ops.top]
  }

  method InitByArray<W>(mt: array<W>, ops: Ops<W>, seed: W, key: seq<W>)
    requires mt.Length == N && |key| > 0
    modifies mt
    ensures mt[..] == Seeded(ops, seed, key)
  {
    InitGenrand(mt, ops, seed);
    ghost var grown := mt[..];
    var i, j := 1, 0;
    for n := 0 to if |key| > N then |key| else N
      invariant 1 <= i < N && 0 <= j < |key|
      invariant (mt[..], i, j) == KeyRounds(ops, grown, key, n)
    {
      Place(mt, i, ops.keyed(mt[i - 1], mt[i], key[j], j));
      i, j := After(i), if j + 1 >= |key| then 0 else j + 1;
    }
    MixOnceMore(mt, ops, i);
    mt[0] := ops.top;
  }

  /** The second loop, from where the first one stopped. */
  method MixOnceMore<W>(mt: array<W>, ops: Ops<W>, start: nat)
    requires mt.Length == N && 1 <= start < N
    modifies mt
    ensures mt[..] == LastRounds(ops, old(mt[..]), start, N - 1).0
  {
    var i := start;
    for n := 0 to N - 1
      invariant 1 <= i < N
      invariant (mt[..], i) == LastRounds(ops, old(mt[..]), start, n)
    {
      Place(mt, i, ops.last(mt[i - 1], mt[i], i));
      i := After(i);
    }
  }

  // ---- 32-bit words ----

  /** The new word as the loop computes it. */
  function Mixed(far: bv32, y: bv32): bv32 {
    var next := far ^ (y >> 1);
    if y & 1 != 0 then next ^ 0x9908_b0df else next
  }

  function Joined(upper: bv32, lower: bv32): bv32 {
    (upper & 0x8000_0000) | (lower & 0x7fff_ffff)
  }

  function Next(upper: bv32, lower: bv32, far: bv32): bv32 {
    Mixed(far, Joined(upper, lower))
  }

  /** The twist as the recurrence has it: shifted, with the matrix row added
      when the lowest bit is set. */
  function Twist(y: bv32): bv32 {
    if y & 1 != 0 then (y >> 1) ^ 0x9908_b0df else y >> 1
  }

  function Xor(a: bv32, b: bv32): bv32 { a ^ b }

  lemma MixedExpression(far: bv32, y: bv32)
    ensures Xor(far, (y >> 1) ^ 0x9908_b0df) == (far ^ (y >> 1)) ^ 0x9908_b0df
    ensures Xor(far, y >> 1) == far ^ (y >> 1)
  {
  }

  lemma MixedIsTwisted(far: bv32, y: bv32)
    ensures Mixed(far, y) == Xor(far, Twist(y))
  {
    MixedExpression(far, y);
  }

  function AsWord(n: nat): bv32 {
    (n % BASE) as bv32
  }

  function Scrambled(word: bv32): bv32 {
    word ^ (word >> 30)
  }

  function GrowFold(x: bv32): bv32 { 1_812_433_253 * x }
  function KeyedFold(x: bv32): bv32 { x * 1_664_525 }
  function LastFold(x: bv32): bv32 { x * 1_566_083_941 }

  function Grow(prev: bv32, i: nat): bv32 { GrowFold(Scrambled(prev)) + AsWord(i) }
  function Keyed(prev: bv32, word: bv32, key: bv32, j: nat): bv32 {
    (word ^ KeyedFold(Scrambled(prev))) + key + AsWord(j)
  }
  function Last(prev: bv32, word: bv32, i: nat): bv32 { (word ^ LastFold(Scrambled(prev))) - AsWord(i) }

  /** MT19937's own arithmetic. */
  const MT19937: Ops<bv32> := Ops(Next, Grow, Keyed, Last, 0x8000_0000)

  function Right11(x: bv32): bv32 { x ^ (x >> 11) }
  function Left7(x: bv32): bv32 { x ^ ((x << 7) & 0x9d2c_5680) }
  function Left15(x: bv32): bv32 { x ^ ((x << 15) & 0xefc6_0000) }
  function Right18(x: bv32): bv32 { x ^ (x >> 18) }

  function Temper(x: bv32): bv32 {
    Right18(Left15(Left7(Right11(x))))
  }

  lemma OneTerm<W>(ops: Ops<W>, x: seq<W>, n: nat)
    requires |x| == N
    ensures Term(ops, x, n + N) == ops.next(Term(ops, x, n), Term(ops, x, n + 1), Term(ops, x, n + M))
  {
  }

  lemma NextOf(ops: Ops<bv32>, a: bv32, b: bv32, c: bv32)
    requires ops == MT19937
    ensures ops.next(a, b, c) == Next(a, b, c)
  {
  }

  /** x[n + 624] = x[n + 397] xor twist(top bit of x[n], the rest of
      x[n + 1]). */
  lemma TermRecurrence(ops: Ops<bv32>, x: seq<bv32>, n: nat)
    requires |x| == 624 && ops == MT19937
    ensures Term(ops, x, n + 624) == Xor(Term(ops, x, n + 397), Twist(Joined(Term(ops, x, n), Term(ops, x, n + 1))))
  {
    var (a, b, c) := (Term(ops, x, n), Term(ops, x, n + 1), Term(ops, x, n + M));
    OneTerm(ops, x, n);
    NextOf(ops, a, b, c);
    MixedIsTwisted(c, Joined(a, b));
  }

  // ---- Tempering can be undone ----

  function UndoRight11(y: bv32): bv32 { y ^ (y >> 11) ^ (y >> 22) }
  function UndoLeft15(y: bv32): bv32 { y ^ (((y ^ ((y << 15) & 0xefc6_0000)) << 15) & 0xefc6_0000) }
  function UndoLeft7(y: bv32): bv32 {
    y ^ (((y ^ (((y ^ (((y ^ ((y << 7) & 0x9d2c_5680)) << 7) & 0x9d2c_5680)) << 7) & 0x9d2c_5680)) << 7) & 0x9d2c_5680)
  }

  function Untemper(y: bv32): bv32 {
    UndoRight11(UndoLeft7(UndoLeft15(Right18(y))))
  }

  // Each undoing, first of the expression it undoes, then of the function.
  lemma Right18Expression(x: bv32)
    ensures Right18(x ^ (x >> 18)) == x
  {
  }

  lemma Right18Undone(x: bv32)
    ensures Right18(Right18(x)) == x
  {
    Right18Expression(x);
  }

  lemma Left15Expression(x: bv32)
    ensures UndoLeft15(x ^ ((x << 15) & 0xefc6_0000)) == x
    ensures Left15(x ^ (((x ^ ((x << 15) & 0xefc6_0000)) << 15) & 0xefc6_0000)) == x
  {
  }

  lemma Left15Undone(x: bv32)
    ensures UndoLeft15(Left15(x)) == x && Left15(UndoLeft15(x)) == x
  {
    Left15Expression(x);
  }

  lemma Left7Expression(x: bv32)
    ensures UndoLeft7(x ^ ((x << 7) & 0x9d2c_5680)) == x
    ensures Left7(x ^ (((x ^ (((x ^ (((x ^ ((x << 7) & 0x9d2c_5680)) << 7) & 0x9d2c_5680)) << 7) & 0x9d2c_5680))
                        << 7) & 0x9d2c_5680)) == x
  {
  }

  lemma Left7Undone(x: bv32)
    ensures UndoLeft7(Left7(x)) == x && Left7(UndoLeft7(x)) == x
  {
    Left7Expression(x);
  }

  lemma Right11Expression(x: bv32)
    ensures UndoRight11(x ^ (x >> 11)) == x && Right11(x ^ (x >> 11) ^ (x >> 22)) == x
  {
  }

  lemma Right11Undone(x: bv32)
    ensures UndoRight11(Right11(x)) == x && Right11(UndoRight11(x)) == x
  {
    Right11Expression(x);
  }

  /** Tempering is a bijection, and `Untemper` its inverse. */
  lemma TemperingIsInvertible(x: bv32)
    ensures Untemper(Temper(x)) == x
    ensures Temper(Untemper(x)) == x
  {
    Right11Undone(x);
    Left7Undone(Right11(x));
    Left15Undone(Left7(Right11(x)));
    Right18Undone(Left15(Left7(Right11(x))));
    Right18Undone(x);
    Left15Undone(Right18(x));
    Left7Undone(UndoLeft15(Right18(x)));
    Right11Undone(UndoLeft7(UndoLeft15(Right18(x))));
  }

  // ---- Outputs ----

  /** The k-th number drawn from a generator whose words begin as `x`. */
  function Output(ops: Ops<bv32>, x: seq<bv32>, k: nat): bv32
    requires |x| == N
  {
    Temper(Term(ops, x, N + k))
  }

  /** 624 outputs in a row, untempered. */
  function Recovered(ops: Ops<bv32>, x: seq<bv32>, k: nat): (r: seq<bv32>)
    requires |x| == N
    ensures |r| == N
  {
    seq(N, i requires 0 <= i < N => Untemper(Output(ops, x, k + i)))
  }

  /** A generator whose words are any 624 outputs in a row, untempered, draws
      exactly what the first will draw next, for ever. */
  lemma OutputsDetermineTheRest(ops: Ops<bv32>, x: seq<bv32>, k: nat, n: nat)
    requires |x| == N
    ensures Output(ops, Recovered(ops, x, k), n) == Output(ops, x, k + N + n)
  {
    var y := Recovered(ops, x, k);
    forall i | 0 <= i < N
      ensures TermFrom(ops, y, 0, i) == TermFrom(ops, x, N + k, i)
    {
      RecoveredWord(ops, x, k, i);
    }
    AgreeingWindowsAgreeOn(ops, y, x, 0, N + k, N + n);
    assert (N + k) + (N + n) == N + (k + N + n);
  }

  lemma RecoveredWord(ops: Ops<bv32>, x: seq<bv32>, k: nat, i: nat)
    requires |x| == N && i < N
    ensures TermFrom(ops, Recovered(ops, x, k), 0, i) == TermFrom(ops, x, N + k, i)
  {
    var y := Recovered(ops, x, k);
    assert TermFrom(ops, y, 0, i) == y[i] == Untemper(Output(ops, x, k + i));
    assert N + (k + i) == (N + k) + i;
    TemperingIsInvertible(TermFrom(ops, x, N + k, i));
  }

  // ---- The seed's words ----

  const BASE: nat := 0x1_0000_0000

  /** A number's 32-bit digits, lowest first. */
  function Digits(n: nat): seq<nat> {
    if n == 0 then [] else [n % BASE] + Digits(n / BASE)
  }

  function Value(digits: seq<nat>): nat {
    if digits == [] then 0 else digits[0] + 0x1_0000_0000 * Value(digits[1..])
  }

  /** The digits tell the number, each fits a word, and the highest is not
      zero. */
  lemma {:induction false} DigitsTell(n: nat)
    ensures Value(Digits(n)) == n
    ensures forall d :: d in Digits(n) ==> d < 0x1_0000_0000
    ensures n > 0 ==> Digits(n) != [] && Digits(n)[|Digits(n)| - 1] != 0
  {
    if n > 0 {
      DigitsTell(n / BASE);
      assert Digits(n)[1..] == Digits(n / BASE);
    }
  }

  function Words(digits: seq<nat>): seq<bv32> {
    seq(|digits|, i requires 0 <= i < |digits| => AsWord(digits[i]))
  }

  /** The key a seed is given as. */
  function KeyOf(seed: nat): (key: seq<bv32>)
    ensures |key| > 0
  {
    if seed == 0 then [0] else Words(Digits(seed))
  }

  lemma WordsOneMore(digits: seq<nat>, digit: nat)
    ensures Words(digits + [digit]) == Words(digits) + [AsWord(digit)]
  {
  }

  lemma DigitsOneMore(digits: seq<nat>, n: nat)
    requires n > 0
    ensures digits + [n % BASE] + Digits(n / BASE) == digits + Digits(n)
  {
    assert digits + [n % BASE] + Digits(n / BASE) == digits + ([n % BASE] + Digits(n / BASE));
  }

  method KeyWords(seed: nat) returns (key: seq<bv32>)
    ensures key == KeyOf(seed)
  {
    if seed == 0 {
      return [0];
    }
    key := [];
    var n: nat := seed;
    ghost var digits: seq<nat> := [];
    while n > 0
      invariant digits + Digits(n) == Digits(seed)
      invariant key == Words(digits)
      decreases n
    {
      WordsOneMore(digits, n % BASE);
      DigitsOneMore(digits, n);
      key, digits := key + [AsWord(n % BASE)], digits + [n % BASE];
      n := n / BASE;
    }
    assert digits == Digits(seed);
  }

  /** How many bits `n` takes. */
  function BitLength(n: nat): nat {
    if n == 0 then 0 else 1 + BitLength(n / 2)
  }

  /** The k-th number drawn, cut to as many bits as `n` has. */
  function Candidate(ops: Ops<bv32>, x: seq<bv32>, k: nat, n: nat): nat
    requires |x| == N && BitLength(n) <= 32
  {
    Top(Output(ops, x, k), BitLength(n))
  }

  /** Whether the k-th number drawn gives an answer below `n`. */
  ghost predicate Accepted(ops: Ops<bv32>, x: seq<bv32>, k: nat, n: nat)
    requires |x| == N && BitLength(n) <= 32
  {
    Candidate(ops, x, k, n) < n
  }

  /** The top `bits` bits of a word. */
  function Top(word: bv32, bits: nat): nat
    requires bits <= 32
  {
    (word >> (32 - bits)) as nat
  }

  // ---- The generator ----

  class PyRandom {
    const ops: Ops<bv32>
    const mt: array<bv32>
    var index: nat
    // What the words began as, how often they were rewritten, how many
    // numbers were drawn.
    ghost var origin: seq<bv32>
    ghost var rounds: nat
    ghost var drawn: nat

    ghost predicate Valid()
      reads this, mt
    {
      && mt.Length == N && |origin| == N && index <= N
      && drawn + N == N * rounds + index
      && Holds(mt, ops, origin, rounds)
    }

    constructor (seed: nat)
      ensures Valid() && fresh(mt) && ops == MT19937
      ensures drawn == 0 && origin == Seeded(ops, 19_650_218, KeyOf(seed))
    {
      ops := MT19937;
      mt := new bv32[N](_ => 0);
      index, rounds, drawn := N, 0, 0;
      new;
      var key := KeyWords(seed);
      InitByArray(mt, ops, 19_650_218, key);
      origin := mt[..];
    }

    /** The next word of the sequence, rewriting the words when all are used. */
    method NextWord() returns (word: bv32)
      requires Valid()
      modifies this, mt
      ensures Valid() && origin == old(origin)
      ensures word == Term(ops, origin, N + old(drawn)) && drawn == old(drawn) + 1
    {
      if index >= N {
        Refill();
      }
      word := mt[index];
      assert word == TermFrom(ops, origin, N * rounds, index);
      index, drawn := index + 1, drawn + 1;
    }

    /** The next 624 words, none of them used. */
    method Refill()
      requires Valid() && index == N
      modifies this, mt
      ensures Valid() && origin == old(origin) && drawn == old(drawn) && index == 0
    {
      Regenerate(mt, ops, origin, rounds);
      index, rounds := 0, rounds + 1;
    }

    /** Draw the next number. */
    method NextU32() returns (r: bv32)
      requires Valid()
      modifies this, mt
      ensures Valid() && origin == old(origin)
      ensures r == Output(ops, origin, old(drawn)) && drawn == old(drawn) + 1
    {
      var word := NextWord();
      r := Temper(word);
    }

    /** Draw until the top bits of a number fall below `n`: the answer is the
        first draw that does, and only the draws up to it are used. Without
        such a draw there is no answer to wait for. */
    method RandBelow(n: nat) returns (r: nat)
      requires Valid() && BitLength(n) <= 32
      requires exists k: nat :: drawn <= k && Accepted(ops, origin, k, n)
      modifies this, mt
      ensures Valid() && origin == old(origin)
      ensures old(drawn) < drawn && r < n && r == Candidate(ops, origin, drawn - 1, n)
      ensures forall k :: old(drawn) <= k < drawn - 1 ==> !Accepted(ops, origin, k, n)
    {
      ghost var last: nat :| drawn <= last && Accepted(ops, origin, last, n);
      while true
        invariant Valid() && origin == old(origin) && old(drawn) <= drawn <= last
        invariant forall k :: old(drawn) <= k < drawn ==> !Accepted(ops, origin, k, n)
        decreases last - drawn
      {
        r := TopOfNext(n);
        if r < n {
          return;
        }
      }
    }

    method TopOfNext(n: nat) returns (r: nat)
      requires Valid() && BitLength(n) <= 32
      modifies this, mt
      ensures Valid() && origin == old(origin) && drawn == old(drawn) + 1
      ensures r == Candidate(ops, origin, old(drawn), n)
      ensures r < n <==> Accepted(ops, origin, old(drawn), n)
    {
      var word := NextU32();
      r := Top(word, BitLength(n));
    }
  }
}
