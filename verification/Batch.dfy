/** Fetching a set of keys as JSON-RPC batches, retried while the provider is
    rate limiting. */
module Batch {
  import opened Chain
  import opened Fetch

  const RATE_LIMIT_RETRIES: nat := 6

  datatype Verdict = Sent | RateLimited | Failed

  /** How one batch ends: what is cached by then, by its own replies or by
      other threads, and what the provider said. */
  datatype Outcome = Outcome(cached: set<StateKey>, verdict: Verdict)

  /** The batches sent, in order, how the last one ended, and the cache. */
  datatype Resolution = Resolution(batches: seq<seq<StateKey>>, verdict: Verdict, cache: Cache)

  /** The keys still to ask for, in the order they were given. */
  function Missing(keys: seq<StateKey>, cache: Cache): seq<StateKey> {
    if keys == [] then []
    else
      var last := |keys| - 1;
      Missing(keys[..last], cache) + if keys[last] in cache then [] else [keys[last]]
  }

  lemma {:induction false} MissingIsUncached(keys: seq<StateKey>, cache: Cache)
    ensures forall k :: k in Missing(keys, cache) <==> k in keys && k !in cache
  {
    if keys != [] {
      var last := |keys| - 1;
      assert keys == keys[..last] + [keys[last]];
      MissingIsUncached(keys[..last], cache);
    }
  }

  /** A batch that succeeds has cached all it asked for; one that fails may
      have cached some of it. */
  function CacheAfter(up: Upstream, cache: Cache, asked: seq<StateKey>, o: Outcome): Cache {
    Landed(up, cache, o.cached + if o.verdict.Sent? then set k | k in asked else {})
  }

  /** What each round does: what it asks for, given the cache; the cache after
      it; and how it ends. Passed as one value, so that statements about the
      loop speak of none of their insides. */
  datatype Rounds = Rounds(ask: Cache -> seq<StateKey>, land: (Cache, nat) -> Cache, ends: nat -> Verdict)

  function RoundsOf(up: Upstream, keys: seq<StateKey>, outcomes: nat -> Outcome): Rounds {
    Rounds((cache: Cache) => Missing(keys, cache),
           (cache: Cache, n: nat) => CacheAfter(up, cache, Missing(keys, cache), outcomes(n)),
           (n: nat) => outcomes(n).verdict)
  }

  function Loop(r: Rounds, cache: Cache, retries: nat, attempt: nat): Resolution
    requires attempt <= retries
    decreases retries - attempt
  {
    if r.ask(cache) == [] then Resolution([], Sent, cache)
    else if r.ends(attempt).RateLimited? && attempt < retries then
      var rest := Loop(r, r.land(cache, attempt), retries, attempt + 1);
      rest.(batches := [r.ask(cache)] + rest.batches)
    else
      Resolution([r.ask(cache)], r.ends(attempt), r.land(cache, attempt))
  }

  function Resolved(up: Upstream, keys: seq<StateKey>, cache: Cache, outcomes: nat -> Outcome,
                    retries: nat): Resolution {
    Loop(RoundsOf(up, keys, outcomes), cache, retries, 0)
  }

  // ---- When it stops ----

  /** Why `e`, from `attempt` on, ended where it did: there was nothing to ask
      for; or its last batch left nothing, or ended otherwise than by a rate
      limit, or was the last retry. */
  predicate ForCause(r: Rounds, retries: nat, attempt: nat, e: Resolution) {
    if |e.batches| == 0 then e.verdict == Sent && r.ask(e.cache) == []
    else
      var last := attempt + |e.batches| - 1;
      if r.ends(last).RateLimited? && last < retries then e.verdict == Sent && r.ask(e.cache) == []
      else e.verdict == r.ends(last)
  }

  lemma {:induction false} LoopStopsForCause(r: Rounds, cache: Cache, retries: nat, attempt: nat)
    requires attempt <= retries
    ensures ForCause(r, retries, attempt, Loop(r, cache, retries, attempt))
    decreases retries - attempt
  {
    if r.ask(cache) != [] && r.ends(attempt).RateLimited? && attempt < retries {
      LoopStopsForCause(r, r.land(cache, attempt), retries, attempt + 1);
    }
  }

  lemma {:induction false} LoopIsBounded(r: Rounds, cache: Cache, retries: nat, attempt: nat)
    requires attempt <= retries
    ensures |Loop(r, cache, retries, attempt).batches| <= 1 + retries - attempt
    decreases retries - attempt
  {
    if r.ask(cache) != [] && r.ends(attempt).RateLimited? && attempt < retries {
      LoopIsBounded(r, r.land(cache, attempt), retries, attempt + 1);
    }
  }

  lemma {:induction false} RetriedWasRateLimited(r: Rounds, cache: Cache, retries: nat, attempt: nat, i: nat)
    requires attempt <= retries && attempt <= i < attempt + |Loop(r, cache, retries, attempt).batches| - 1
    ensures r.ends(i) == RateLimited
    decreases retries - attempt
  {
    if attempt < i {
      RetriedWasRateLimited(r, r.land(cache, attempt), retries, attempt + 1, i);
    }
  }

  /** At most one batch and `retries` more are sent, and only a rate limit is
      retried. It stops only for cause: everything is cached; or the last batch
      ended otherwise than by a rate limit, which is then the answer; or it was
      the last retry, and was rate limited too. So a batch that is rate limited,
      with retries left and keys missing, is followed by another. */
  lemma RetriesAreBounded(up: Upstream, keys: seq<StateKey>, cache: Cache, outcomes: nat -> Outcome, retries: nat)
    ensures var e := Resolved(up, keys, cache, outcomes, retries);
      var last := |e.batches| - 1;
      && |e.batches| <= 1 + retries
      && (forall i :: 0 <= i < last ==> outcomes(i).verdict == RateLimited)
      && (if |e.batches| == 0 || (outcomes(last).verdict == RateLimited && last < retries)
          then e.verdict == Sent && forall k :: k in keys ==> k in e.cache
          else e.verdict == outcomes(last).verdict)
  {
    var r := RoundsOf(up, keys, outcomes);
    var e := Loop(r, cache, retries, 0);
    LoopIsBounded(r, cache, retries, 0);
    forall i | 0 <= i < |e.batches| - 1
      ensures outcomes(i).verdict == RateLimited
    {
      RetriedWasRateLimited(r, cache, retries, 0, i);
    }
    LoopStopsForCause(r, cache, retries, 0);
    if r.ask(e.cache) == [] {
      NothingLeft(keys, e.cache);
    }
  }

  lemma NothingLeft(keys: seq<StateKey>, cache: Cache)
    requires Missing(keys, cache) == []
    ensures forall k :: k in keys ==> k in cache
  {
    MissingIsUncached(keys, cache);
    assert forall k :: k in keys && k !in cache ==> k in Missing(keys, cache);
  }

  // ---- What it caches ----

  /** A round caches only the truth, and forgets nothing; one that succeeds
      leaves nothing to ask for. */
  ghost predicate RoundOk(up: Upstream, r: Rounds, cache: Cache, n: nat) {
    Truthful(up, cache) ==>
      && Truthful(up, r.land(cache, n)) && cache.Keys <= r.land(cache, n).Keys
      && (r.ends(n).Sent? ==> r.ask(r.land(cache, n)) == [])
  }

  lemma RoundsAreOk(up: Upstream, keys: seq<StateKey>, outcomes: nat -> Outcome, cache: Cache, n: nat)
    ensures RoundOk(up, RoundsOf(up, keys, outcomes), cache, n)
  {
    var cache' := CacheAfter(up, cache, Missing(keys, cache), outcomes(n));
    MissingIsUncached(keys, cache);
    MissingIsUncached(keys, cache');
    if outcomes(n).verdict.Sent? && Missing(keys, cache') != [] {
      assert Missing(keys, cache')[0] in Missing(keys, cache');
    }
  }

  lemma {:induction false} LoopIsSound(up: Upstream, r: Rounds, cache: Cache, retries: nat, attempt: nat)
    requires attempt <= retries && Truthful(up, cache) && forall c, n :: RoundOk(up, r, c, n)
    ensures var e := Loop(r, cache, retries, attempt);
      && Truthful(up, e.cache) && cache.Keys <= e.cache.Keys && (e.verdict.Sent? ==> r.ask(e.cache) == [])
    decreases retries - attempt
  {
    assert RoundOk(up, r, cache, attempt);
    if r.ask(cache) != [] && r.ends(attempt).RateLimited? && attempt < retries {
      LoopIsSound(up, r, r.land(cache, attempt), retries, attempt + 1);
    }
  }

  /** Success means every key is cached, with upstream's value; nothing cached
      is ever lost. */
  lemma ResolvedSound(up: Upstream, keys: seq<StateKey>, cache: Cache, outcomes: nat -> Outcome, retries: nat)
    requires Truthful(up, cache)
    ensures var e := Resolved(up, keys, cache, outcomes, retries);
      && Truthful(up, e.cache) && cache.Keys <= e.cache.Keys
      && (e.verdict.Sent? ==> forall k :: k in keys ==> k in e.cache)
  {
    forall c, n
      ensures RoundOk(up, RoundsOf(up, keys, outcomes), c, n)
    {
      RoundsAreOk(up, keys, outcomes, c, n);
    }
    LoopIsSound(up, RoundsOf(up, keys, outcomes), cache, retries, 0);
    if Resolved(up, keys, cache, outcomes, retries).verdict.Sent? {
      NothingLeft(keys, Resolved(up, keys, cache, outcomes, retries).cache);
    }
  }

  // ---- What each batch asks for ----

  /** None of the outcomes from `first` until `end` has `k` cached. */
  ghost predicate StillUncached(outcomes: nat -> Outcome, first: nat, end: nat, k: StateKey) {
    forall i :: first <= i < end ==> k !in outcomes(i).cached
  }

  /** A round that is retried caches `k` exactly if its outcome does, and asks
      for it exactly if it is wanted and not cached. */
  ghost predicate AsksFor(r: Rounds, keys: seq<StateKey>, outcomes: nat -> Outcome, k: StateKey, cache: Cache, n: nat) {
    && (k in r.ask(cache) <==> k in keys && k !in cache)
    && (r.ends(n).RateLimited? ==> (k in r.land(cache, n) <==> k in cache || k in outcomes(n).cached))
  }

  lemma RoundsAsk(up: Upstream, keys: seq<StateKey>, outcomes: nat -> Outcome, k: StateKey, cache: Cache, n: nat)
    ensures AsksFor(RoundsOf(up, keys, outcomes), keys, outcomes, k, cache, n)
  {
    MissingIsUncached(keys, cache);
  }

  lemma {:induction false} LoopAsks(r: Rounds, keys: seq<StateKey>, outcomes: nat -> Outcome, cache: Cache,
                                    retries: nat, attempt: nat, n: nat, k: StateKey)
    requires attempt <= retries && n < |Loop(r, cache, retries, attempt).batches|
    requires forall c, i :: AsksFor(r, keys, outcomes, k, c, i)
    ensures k in Loop(r, cache, retries, attempt).batches[n] <==>
            k in keys && k !in cache && StillUncached(outcomes, attempt, attempt + n, k)
    decreases n
  {
    assert AsksFor(r, keys, outcomes, k, cache, attempt);
    if n > 0 {
      LoopAsks(r, keys, outcomes, r.land(cache, attempt), retries, attempt + 1, n - 1, k);
      OneMoreOutcome(outcomes, attempt, attempt + n, k);
    }
  }

  lemma OneMoreOutcome(outcomes: nat -> Outcome, first: nat, end: nat, k: StateKey)
    requires first < end
    ensures StillUncached(outcomes, first, end, k) <==>
            k !in outcomes(first).cached && StillUncached(outcomes, first + 1, end, k)
  {
  }

  /** A batch asks for exactly the requested keys nothing before it cached. */
  lemma EachBatchAsksForTheRest(up: Upstream, keys: seq<StateKey>, cache: Cache, outcomes: nat -> Outcome, retries: nat,
                                n: nat, k: StateKey)
    requires n < |Resolved(up, keys, cache, outcomes, retries).batches|
    ensures k in Resolved(up, keys, cache, outcomes, retries).batches[n] <==>
            k in keys && k !in cache && StillUncached(outcomes, 0, n, k)
  {
    forall c, i
      ensures AsksFor(RoundsOf(up, keys, outcomes), keys, outcomes, k, c, i)
    {
      RoundsAsk(up, keys, outcomes, k, c, i);
    }
    LoopAsks(RoundsOf(up, keys, outcomes), keys, outcomes, cache, retries, 0, n, k);
  }

  /** The read cache a batcher fills. */
  class Batcher {
    const up: Upstream
    const retries: nat
    var cache: Cache

    constructor (up: Upstream)
      ensures this.up == up && retries == 6 && cache == map[]
    {
      this.up, retries := up, RATE_LIMIT_RETRIES;
      cache := map[];
    }

    method StillMissing(keys: seq<StateKey>) returns (missing: seq<StateKey>)
      ensures missing == Missing(keys, cache)
    {
      missing := [];
      for n := 0 to |keys|
        invariant missing == Missing(keys[..n], cache)
      {
        assert keys[..n + 1][..n] == keys[..n];
        if keys[n] !in cache {
          missing := missing + [keys[n]];
        }
      }
      assert keys[..|keys|] == keys;
    }

    /** `outcomes(n)` is how the n-th batch ends, if it is sent. */
    method ResolveBatched(keys: seq<StateKey>, outcomes: nat -> Outcome)
      returns (verdict: Verdict, batches: seq<seq<StateKey>>)
      modifies this`cache
      ensures Resolution(batches, verdict, cache) == Resolved(up, keys, old(cache), outcomes, retries)
    {
      verdict, batches := RunLoop(keys, outcomes, RoundsOf(up, keys, outcomes));
    }

    method RunLoop(keys: seq<StateKey>, outcomes: nat -> Outcome, ghost r: Rounds)
      returns (verdict: Verdict, batches: seq<seq<StateKey>>)
      requires r == RoundsOf(up, keys, outcomes)
      modifies this`cache
      ensures Resolution(batches, verdict, cache) == Loop(r, old(cache), retries, 0)
    {
      var attempt := 0;
      batches := [];
      ghost var whole := Loop(r, cache, retries, 0);
      while true
        invariant attempt <= retries
        invariant var rest := Loop(r, cache, retries, attempt);
          rest.(batches := batches + rest.batches) == whole
        decreases retries - attempt
      {
        var missing := StillMissing(keys);
        if missing == [] {
          return Sent, batches;
        }
        var o := outcomes(attempt);
        cache := CacheAfter(up, cache, missing, o);
        batches := batches + [missing];
        if !o.verdict.RateLimited? || attempt >= retries {
          return o.verdict, batches;
        }
        attempt := attempt + 1;
      }
    }
  }
}
