/** The proxy's rate limit: a token bucket whose balance may go into debt, the
    debt being the queue. Times and tokens are reals. */
module TokenBucket {
  import opened Chain

  /** The tokens earned in a time, and the time that earns some tokens. */
  datatype Rate = Rate(earned: real -> real, owed: real -> real)

  function PerSecond(rate: real): Rate {
    Rate((time: real) => time * rate, (tokens: real) => if rate > 0.0 then tokens / rate else 0.0)
  }

  datatype Bucket = Bucket(rate: Rate, burst: real, tokens: real, updated: real)

  function Min(a: real, b: real): real { if a <= b then a else b }
  function Max(a: real, b: real): real { if a >= b then a else b }

  function Refilled(b: Bucket, now: real): Bucket {
    b.(tokens := Min(b.burst, b.tokens + b.rate.earned(Max(0.0, now - b.updated))), updated := now)
  }

  /** How long until the balance is no longer in debt. */
  function Wait(b: Bucket): real {
    if b.tokens < 0.0 then b.rate.owed(-b.tokens) else 0.0
  }

  datatype Call =
    | Reserve(at: real, tokens: real)
    | TryConsume(at: real, tokens: real)
    | Available(at: real)

  /** What `try_consume` answers. */
  predicate LetsThrough(b: Bucket, c: Call)
    requires c.TryConsume?
  {
    Refilled(b, c.at).tokens >= c.tokens
  }

  function Called(b: Bucket, c: Call): Bucket {
    var r := Refilled(b, c.at);
    match c
    case Reserve(_, tokens) => r.(tokens := r.tokens - tokens)
    case TryConsume(_, tokens) => if LetsThrough(b, c) then r.(tokens := r.tokens - tokens) else r
    case Available(_) => r
  }

  class TokenBucket {
    const rate: real
    const burst: real
    var balance: real
    var updated: real

    function State(): Bucket
      reads this
    {
      Bucket(PerSecond(rate), burst, balance, updated)
    }

    constructor (rate: real, burst: real, now: real)
      ensures State() == Bucket(PerSecond(rate), burst, burst, now)
    {
      this.rate, this.burst := rate, burst;
      balance, updated := burst, now;
    }

    method RefillLocked(now: real)
      modifies this
      ensures State() == Refilled(old(State()), now)
    {
      balance := Min(burst, balance + Max(0.0, now - updated) * rate);
      updated := now;
    }

    /** Charge `tokens`, and say how long to wait. */
    method Reserve(tokens: real, now: real) returns (wait: real)
      requires rate > 0.0
      modifies this
      ensures State() == Called(old(State()), Call.Reserve(now, tokens)) && wait == Wait(State())
    {
      RefillLocked(now);
      balance := balance - tokens;
      var deficit := -balance;
      wait := if deficit > 0.0 then deficit / rate else 0.0;
    }

    /** Whether `tokens` could be charged without going into debt. */
    method TryConsume(tokens: real, now: real) returns (ok: bool)
      modifies this
      ensures ok == LetsThrough(old(State()), Call.TryConsume(now, tokens))
      ensures State() == Called(old(State()), Call.TryConsume(now, tokens))
    {
      RefillLocked(now);
      if balance < tokens {
        return false;
      }
      balance := balance - tokens;
      return true;
    }

    method Available(now: real) returns (r: real)
      modifies this
      ensures State() == Called(old(State()), Call.Available(now)) && r == State().tokens
    {
      RefillLocked(now);
      return balance;
    }
  }

  /** A bucket for a rate and an optional burst, or none when either is not
      positive; the burst defaults to one second of the rate. */
  method Create(ratePerSecond: real, burst: Option<real>, now: real) returns (b: Option<TokenBucket>)
    ensures b.Some? <==> ratePerSecond > 0.0 && (burst.Some? ==> burst.value > 0.0)
    ensures b.Some? ==>
      var full := if burst.Some? then burst.value else ratePerSecond;
      fresh(b.value) && b.value.State() == Bucket(PerSecond(ratePerSecond), full, full, now)
  {
    if ratePerSecond <= 0.0 {
      return None;
    }
    var capacity := if burst.Some? then burst.value else ratePerSecond;
    if capacity <= 0.0 {
      return None;
    }
    var bucket := new TokenBucket(ratePerSecond, capacity, now);
    return Some(bucket);
  }

  // ---- What a rate is ----

  ghost predicate Adds(r: Rate, x: real, y: real) {
    r.earned(x) + r.earned(y) == r.earned(x + y)
  }

  ghost predicate Grows(r: Rate, x: real, y: real) {
    x <= y <==> r.earned(x) <= r.earned(y)
  }

  ghost predicate Pays(r: Rate, n: real) {
    n >= 0.0 ==> r.owed(n) >= 0.0 && r.earned(r.owed(n)) == n
  }

  /** More time earns more, in proportion, and what is owed takes its time. */
  ghost predicate Steady(r: Rate) {
    (forall x, y :: Adds(r, x, y)) && (forall x, y :: Grows(r, x, y)) && (forall n :: Pays(r, n))
  }

  lemma Products(rate: real, x: real, y: real)
    requires rate > 0.0
    ensures x <= y <==> x * rate <= y * rate
    ensures x >= 0.0 ==> x / rate >= 0.0 && x / rate * rate == x
  {
  }

  /** A positive rate is steady, and earns itself times the time. */
  lemma PerSecondIsSteady(rate: real)
    requires rate > 0.0
    ensures Steady(PerSecond(rate))
    ensures forall time: real :: PerSecond(rate).earned(time) == time * rate
  {
    var r := PerSecond(rate);
    forall x, y
      ensures Adds(r, x, y) && Grows(r, x, y)
    {
      Products(rate, x, y);
    }
    forall n
      ensures Pays(r, n)
    {
      Products(rate, n, n);
    }
  }

  // ---- Runs of calls ----

  /** The bucket after the first `n` calls. */
  function After(b: Bucket, calls: seq<Call>, n: nat): Bucket
    requires n <= |calls|
  {
    if n == 0 then b else Called(After(b, calls, n - 1), calls[n - 1])
  }

  /** The tokens a call asked for and was given: all that is reserved, and what
      `try_consume` answered true to. */
  function GivenTo(b: Bucket, c: Call): real {
    match c
    case Reserve(_, tokens) => tokens
    case TryConsume(_, tokens) => if LetsThrough(b, c) then tokens else 0.0
    case Available(_) => 0.0
  }

  function GivenAt(b: Bucket, calls: seq<Call>, i: nat): real
    requires i < |calls|
  {
    GivenTo(After(b, calls, i), calls[i])
  }

  /** What calls `m` up to `n` were given. */
  function Given(b: Bucket, calls: seq<Call>, m: nat, n: nat): real
    requires m <= n <= |calls|
  {
    if n == m then 0.0 else Given(b, calls, m, n - 1) + GivenAt(b, calls, n - 1)
  }

  /** Calls on a clock that never goes back, asking for no negative amounts. */
  ghost predicate Monotone(b: Bucket, calls: seq<Call>) {
    && (forall i :: 0 <= i < |calls| ==> b.updated <= calls[i].at && (calls[i].Available? || calls[i].tokens >= 0.0))
    && (forall i, j :: 0 <= i < j < |calls| ==> calls[i].at <= calls[j].at)
  }

  ghost predicate Fair(b: Bucket) {
    Steady(b.rate) && b.tokens <= b.burst && b.burst >= 0.0
  }

  /** One call: time earns, the call charges, the burst caps. */
  lemma CalledSound(b: Bucket, c: Call)
    requires Fair(b) && b.updated <= c.at && (c.Available? || c.tokens >= 0.0)
    ensures var a := Called(b, c);
      && Fair(a) && a.rate == b.rate && a.burst == b.burst && a.updated == c.at && GivenTo(b, c) >= 0.0
      && a.tokens <= b.burst - GivenTo(b, c) && a.tokens <= b.tokens + b.rate.earned(c.at - b.updated) - GivenTo(b, c)
  {
  }

  lemma {:induction false} AfterSound(b: Bucket, calls: seq<Call>, n: nat)
    requires Fair(b) && Monotone(b, calls) && n <= |calls|
    ensures var a := After(b, calls, n);
      Fair(a) && a.rate == b.rate && a.burst == b.burst && a.updated == if n == 0 then b.updated else calls[n - 1].at
  {
    if n > 0 {
      AfterSound(b, calls, n - 1);
      CalledSound(After(b, calls, n - 1), calls[n - 1]);
    }
  }

  lemma GivenIsNotNegative(b: Bucket, calls: seq<Call>, i: nat)
    requires Fair(b) && Monotone(b, calls) && i < |calls|
    ensures GivenAt(b, calls, i) >= 0.0
  {
    AfterSound(b, calls, i);
    CalledSound(After(b, calls, i), calls[i]);
  }

  /** However much is given from one call on, the balance shows it: what the
      bucket could hold then and what it earned since, less what was given. */
  lemma {:induction false} BalanceBounds(b: Bucket, calls: seq<Call>, m: nat, n: nat)
    requires Fair(b) && Monotone(b, calls) && m < n <= |calls|
    ensures After(b, calls, n).tokens <=
            b.burst + b.rate.earned(calls[n - 1].at - calls[m].at) - Given(b, calls, m, n)
    decreases n - m
  {
    OneCallBalance(b, calls, n);
    if m < n - 1 {
      BalanceBounds(b, calls, m, n - 1);
      assert Adds(b.rate, calls[n - 2].at - calls[m].at, calls[n - 1].at - calls[n - 2].at);
    } else {
      assert Adds(b.rate, 0.0, 0.0);
    }
  }

  lemma OneCallBalance(b: Bucket, calls: seq<Call>, n: nat)
    requires Fair(b) && Monotone(b, calls) && 0 < n <= |calls|
    ensures After(b, calls, n).tokens <= b.burst - GivenAt(b, calls, n - 1)
    ensures n > 1 ==>
      After(b, calls, n).tokens <=
      After(b, calls, n - 1).tokens + b.rate.earned(calls[n - 1].at - calls[n - 2].at) - GivenAt(b, calls, n - 1)
  {
    AfterSound(b, calls, n - 1);
    CalledSound(After(b, calls, n - 1), calls[n - 1]);
  }

  /** A call on a clock that does not go back: the balance grows by what the
      time earned, up to the burst; it then falls by all that is reserved, by
      what `try_consume` is asked for if it covers that, which is exactly when
      it answers true, and by nothing else. */
  lemma CallIsExact(b: Bucket, c: Call)
    requires b.updated <= c.at
    ensures var full := b.tokens + b.rate.earned(c.at - b.updated);
      var balance := if full <= b.burst then full else b.burst;
      && (c.TryConsume? ==> (LetsThrough(b, c) <==> balance >= c.tokens))
      && Called(b, c) == b.(updated := c.at, tokens :=
           if c.Reserve? || (c.TryConsume? && balance >= c.tokens) then balance - c.tokens else balance)
  {
  }

  /** A clock that went back earns nothing, and counts from there. */
  lemma BackwardsEarnsNothing(b: Bucket, c: Call)
    requires Steady(b.rate) && b.tokens <= b.burst && c.Available? && c.at <= b.updated
    ensures Called(b, c) == b.(updated := c.at)
  {
    assert Adds(b.rate, 0.0, 0.0);
  }

  /** What the balance is if the bucket was full when call `m` was made, or,
      without a call named, if it has not been full since the start. */
  function Since(b: Bucket, calls: seq<Call>, m: Option<nat>, n: nat): real
    requires 0 < n <= |calls| && (m.Some? ==> m.value < n)
  {
    if m.Some? then b.burst + b.rate.earned(calls[n - 1].at - calls[m.value].at) - Given(b, calls, m.value, n)
    else b.tokens + b.rate.earned(calls[n - 1].at - b.updated) - Given(b, calls, 0, n)
  }

  /** The bound is met: some call found the bucket full, or none did, and from
      there on the balance is just what was earned less what was given. So a
      bucket earns all its time, and loses only what it cannot hold. */
  lemma {:induction false} BalanceIsTight(b: Bucket, calls: seq<Call>, n: nat) returns (m: Option<nat>)
    requires Fair(b) && Monotone(b, calls) && 0 < n <= |calls|
    ensures m.Some? ==> m.value < n
    ensures After(b, calls, n).tokens == Since(b, calls, m, n)
  {
    CallAtIsExact(b, calls, n);
    var (before, c) := (After(b, calls, n - 1), calls[n - 1]);
    if before.tokens + b.rate.earned(c.at - before.updated) > b.burst {
      m := Some(n - 1);
      FoundFull(b, calls, n);
    } else if n == 1 {
      m := None;
      FromTheStart(b, calls);
    } else {
      m := BalanceIsTight(b, calls, n - 1);
      SinceGoesOn(b, calls, m, n);
    }
  }

  lemma CallAtIsExact(b: Bucket, calls: seq<Call>, n: nat)
    requires Fair(b) && Monotone(b, calls) && 0 < n <= |calls|
    ensures var before := After(b, calls, n - 1);
      var full := before.tokens + b.rate.earned(calls[n - 1].at - before.updated);
      && before.updated == (if n == 1 then b.updated else calls[n - 2].at)
      && After(b, calls, n).tokens == (if full <= b.burst then full else b.burst) - GivenAt(b, calls, n - 1)
  {
    AfterSound(b, calls, n - 1);
    CallIsExact(After(b, calls, n - 1), calls[n - 1]);
  }

  lemma FoundFull(b: Bucket, calls: seq<Call>, n: nat)
    requires Fair(b) && 0 < n <= |calls|
    ensures Since(b, calls, Some(n - 1), n) == b.burst - GivenAt(b, calls, n - 1)
  {
    assert Given(b, calls, n - 1, n - 1) == 0.0 && calls[n - 1].at - calls[n - 1].at == 0.0;
    assert Adds(b.rate, 0.0, 0.0);
  }

  lemma FromTheStart(b: Bucket, calls: seq<Call>)
    requires |calls| > 0
    ensures Since(b, calls, None, 1) == b.tokens + b.rate.earned(calls[0].at - b.updated) - GivenAt(b, calls, 0)
    ensures After(b, calls, 0) == b
  {
    assert Given(b, calls, 0, 0) == 0.0;
    assert Given(b, calls, 0, 1) == Given(b, calls, 0, 0) + GivenAt(b, calls, 0);
  }

  lemma SinceGoesOn(b: Bucket, calls: seq<Call>, m: Option<nat>, n: nat)
    requires Fair(b) && 1 < n <= |calls| && (m.Some? ==> m.value < n - 1)
    ensures Since(b, calls, m, n) ==
            Since(b, calls, m, n - 1) + b.rate.earned(calls[n - 1].at - calls[n - 2].at) - GivenAt(b, calls, n - 1)
  {
    var from := if m.Some? then calls[m.value].at else b.updated;
    assert Adds(b.rate, calls[n - 2].at - from, calls[n - 1].at - calls[n - 2].at);
  }

  /** What `try_consume` alone let through among calls `m` up to `n`. */
  function Consumed(b: Bucket, calls: seq<Call>, m: nat, n: nat): real
    requires m <= n <= |calls|
  {
    if n == m then 0.0
    else Consumed(b, calls, m, n - 1) + if calls[n - 1].TryConsume? then GivenAt(b, calls, n - 1) else 0.0
  }

  lemma {:induction false} ConsumedWasGiven(b: Bucket, calls: seq<Call>, m: nat, n: nat)
    requires Fair(b) && Monotone(b, calls) && m <= n <= |calls|
    ensures 0.0 <= Consumed(b, calls, m, n) <= Given(b, calls, m, n)
  {
    if m < n {
      ConsumedWasGiven(b, calls, m, n - 1);
      GivenIsNotNegative(b, calls, n - 1);
    }
  }

  lemma {:induction false} ConsumedInWindow(b: Bucket, calls: seq<Call>, m: nat, n: nat, length: real)
    requires Fair(b) && Monotone(b, calls) && m <= n <= |calls| && length >= 0.0
    requires m < n ==> calls[n - 1].at - calls[m].at <= length
    ensures Consumed(b, calls, m, n) <= b.burst + b.rate.earned(length)
    decreases n - m
  {
    assert Adds(b.rate, 0.0, 0.0) && Grows(b.rate, 0.0, length);
    if m < n {
      var c := calls[n - 1];
      if c.TryConsume? && LetsThrough(After(b, calls, n - 1), c) {
        BalanceBounds(b, calls, m, n);
        ConsumedWasGiven(b, calls, m, n);
        assert Grows(b.rate, c.at - calls[m].at, length);
      } else {
        ConsumedInWindow(b, calls, m, n - 1, length);
      }
    }
  }

  /** In every window of time, whatever else the bucket is asked, `try_consume`
      admits at most the burst and the rate times the window. */
  lemma AdmittedInWindow(rate: real, b: Bucket, calls: seq<Call>, m: nat, n: nat, s: real, t: real)
    requires rate > 0.0 && b.rate == PerSecond(rate) && b.tokens <= b.burst && b.burst >= 0.0
    requires Monotone(b, calls) && m <= n <= |calls| && s <= t
    requires forall i :: m <= i < n ==> s <= calls[i].at <= t
    ensures Consumed(b, calls, m, n) <= b.burst + PerSecond(rate).earned(t - s)
  {
    assert Steady(b.rate) by {
      PerSecondIsSteady(rate);
    }
    ConsumedInWindow(b, calls, m, n, t - s);
  }

  // ---- Admission through the queue ----

  /** When whatever has been charged so far is paid off: the moment the last
      reservation may go ahead. */
  function Admission(b: Bucket): real {
    b.updated + Wait(b)
  }

  lemma PaidOff(b: Bucket)
    requires Steady(b.rate)
    ensures Wait(b) >= 0.0 && b.rate.earned(Wait(b)) == if b.tokens < 0.0 then -b.tokens else 0.0
  {
    assert Pays(b.rate, -b.tokens) && Adds(b.rate, 0.0, 0.0);
  }

  /** No call brings an admission forward. */
  lemma AdmissionNeverFalls(b: Bucket, c: Call)
    requires Fair(b) && b.updated <= c.at && (c.Available? || c.tokens >= 0.0)
    ensures Admission(b) <= Admission(Called(b, c))
  {
    var (a, elapsed) := (Called(b, c), c.at - b.updated);
    CalledSound(b, c);
    PaidOff(b);
    PaidOff(a);
    assert Adds(b.rate, elapsed, Wait(a));
    assert Adds(b.rate, 0.0, 0.0) && Grows(b.rate, 0.0, elapsed);
    assert Grows(b.rate, Wait(b), elapsed + Wait(a));
  }

  /** Reservations go ahead in the order they were made. */
  lemma {:induction false} AdmissionsInOrder(b: Bucket, calls: seq<Call>, m: nat, n: nat)
    requires Fair(b) && Monotone(b, calls) && m <= n <= |calls|
    ensures Admission(After(b, calls, m)) <= Admission(After(b, calls, n))
    decreases n - m
  {
    if m < n {
      AdmissionsInOrder(b, calls, m, n - 1);
      AfterSound(b, calls, n - 1);
      AdmissionNeverFalls(After(b, calls, n - 1), calls[n - 1]);
    }
  }

  /** All that was charged up to a call is earned by that call's admission. */
  lemma EarnedByAdmission(b: Bucket, calls: seq<Call>, n: nat)
    requires Fair(b) && Monotone(b, calls) && 0 < n <= |calls|
    ensures Given(b, calls, 0, n) <= b.burst + b.rate.earned(Admission(After(b, calls, n)) - b.updated)
  {
    var a := After(b, calls, n);
    AfterSound(b, calls, n);
    BalanceBounds(b, calls, 0, n);
    PaidOff(a);
    assert Grows(b.rate, calls[n - 1].at - calls[0].at, calls[n - 1].at - b.updated);
    assert Adds(b.rate, calls[n - 1].at - b.updated, Wait(a));
  }

  /** The tokens whose calls may go ahead by time `t`. */
  function AdmittedBy(b: Bucket, calls: seq<Call>, n: nat, t: real): real
    requires n <= |calls|
  {
    if n == 0 then 0.0
    else AdmittedBy(b, calls, n - 1, t) + if Admission(After(b, calls, n)) <= t then GivenAt(b, calls, n - 1) else 0.0
  }

  lemma {:induction false} AdmittedWasGiven(b: Bucket, calls: seq<Call>, n: nat, t: real)
    requires Fair(b) && Monotone(b, calls) && n <= |calls|
    ensures AdmittedBy(b, calls, n, t) <= Given(b, calls, 0, n)
  {
    if n > 0 {
      AdmittedWasGiven(b, calls, n - 1, t);
      GivenIsNotNegative(b, calls, n - 1);
    }
  }

  lemma {:induction false} AdmittedByEarned(b: Bucket, calls: seq<Call>, n: nat, t: real)
    requires Fair(b) && Monotone(b, calls) && n <= |calls| && t >= b.updated
    ensures AdmittedBy(b, calls, n, t) <= b.burst + b.rate.earned(t - b.updated)
  {
    if n == 0 {
      assert Adds(b.rate, 0.0, 0.0) && Grows(b.rate, 0.0, t - b.updated);
    } else if Admission(After(b, calls, n)) <= t {
      AdmittedWasGiven(b, calls, n, t);
      EarnedByAdmission(b, calls, n);
      assert Grows(b.rate, Admission(After(b, calls, n)) - b.updated, t - b.updated);
    } else {
      AdmittedByEarned(b, calls, n - 1, t);
    }
  }

  /** Whatever the mix of `reserve` and `try_consume`, the tokens admitted by
      time `t` never exceed the burst and what was earned since the start. */
  lemma AdmittedIsEarned(rate: real, b: Bucket, calls: seq<Call>, t: real)
    requires rate > 0.0 && b.rate == PerSecond(rate) && b.tokens <= b.burst && b.burst >= 0.0
    requires Monotone(b, calls) && t >= b.updated
    ensures AdmittedBy(b, calls, |calls|, t) <= b.burst + PerSecond(rate).earned(t - b.updated)
  {
    assert Steady(b.rate) by {
      PerSecondIsSteady(rate);
    }
    AdmittedByEarned(b, calls, |calls|, t);
  }

  /** A request larger than the burst is never let through by `try_consume`,
      and any other is, once the bucket has had time to fill. */
  lemma ConsumesExactlyWithinBurst(b: Bucket, c: Call)
    requires Fair(b) && c.TryConsume? && c.at >= b.updated && b.tokens + b.rate.earned(c.at - b.updated) >= b.burst
    ensures LetsThrough(b, c) <==> c.tokens <= b.burst
  {
  }
}
