/** Any number of concurrent `resolve` calls sharing one read cache: each
    missing key is fetched by one of them while the others wait. */
module SingleFlight {
  import opened Chain
  import opened Collections
  import opened Fetch

  type CallerId = nat
  type FlightId = nat

  /** One key's fetch: in progress until it lands, which it does whether the
      fetch cached the key or failed. */
  datatype Flight = Flight(owner: CallerId, key: StateKey, landed: bool, failed: bool)

  /** Where a call to `resolve` is. */
  datatype Phase =
    | Claiming
    | Fetching(mine: seq<StateKey>, theirs: seq<FlightId>, asked: set<StateKey>)
    | Landing(mine: seq<StateKey>, theirs: seq<FlightId>, ok: bool)
    | Waiting(theirs: seq<FlightId>)
    | Returned(ok: bool)

  /** A call: the keys it was asked for, and, for the statements, how often it
      has waited and how many of those waits saw a fetch fail. */
  datatype Caller = Caller(keys: seq<StateKey>, phase: Phase, waits: nat, failures: nat)

  datatype Table = Table(cache: Cache, inFlight: map<StateKey, FlightId>, flights: seq<Flight>)

  datatype Config = Config(table: Table, callers: map<CallerId, Caller>, fetched: seq<StateKey>)

  const START := Config(Table(map[], map[], []), map[], [])

  /** The uncached keys a caller now owns the fetch of, the flights of those
      someone is already fetching, and the table afterwards. */
  datatype Claimed = Claimed(mine: seq<StateKey>, theirs: seq<FlightId>, table: Table)

  function ClaimKey(id: CallerId, key: StateKey, c: Claimed): Claimed {
    if key in c.table.cache then c
    else if key in c.table.inFlight then c.(theirs := c.theirs + [c.table.inFlight[key]])
    else
      var flight := Flight(id, key, false, false);
      Claimed(c.mine + [key], c.theirs,
              c.table.(inFlight := c.table.inFlight[key := |c.table.flights|], flights := c.table.flights + [flight]))
  }

  function Claim(id: CallerId, keys: seq<StateKey>, table: Table): Claimed {
    if keys == [] then Claimed([], [], table)
    else
      var last := |keys| - 1;
      ClaimKey(id, keys[last], Claim(id, keys[..last], table))
  }

  /** The flight of `key` ended; whoever waits on it may go on. */
  function LandKey(key: StateKey, t: Table): Table {
    if key in t.inFlight && t.inFlight[key] < |t.flights| then
      var f := t.inFlight[key];
      t.(inFlight := t.inFlight - {key},
         flights := t.flights[f := t.flights[f].(landed := true, failed := key !in t.cache)])
    else t
  }

  function Land(keys: seq<StateKey>, t: Table): Table {
    if keys == [] then t
    else
      var last := |keys| - 1;
      LandKey(keys[last], Land(keys[..last], t))
  }

  /** What follows once a call has nothing of its own left to fetch. */
  function AfterLanding(theirs: seq<FlightId>): Phase {
    if theirs == [] then Returned(true) else Waiting(theirs)
  }

  predicate AnyFailed(theirs: seq<FlightId>, flights: seq<Flight>) {
    exists f :: f in theirs && f < |flights| && flights[f].failed
  }

  datatype Step =
    | Call(id: CallerId, keys: seq<StateKey>)
    | ClaimStep(id: CallerId)
    | Ask(id: CallerId, key: StateKey)             // a fetch of `key` is sent
    | Arrive(id: CallerId, key: StateKey)          // and answered
    | Drop(id: CallerId, key: StateKey)            // or not
    | FetchEnd(id: CallerId, ok: bool)
    | LandStep(id: CallerId)
    | Wake(id: CallerId)                           // every awaited flight has landed
    | Outside(key: StateKey)                       // a blocking read elsewhere caches a key

  ghost predicate Enabled(c: Config, step: Step) {
    match step
    case Call(id, _) => id !in c.callers
    case ClaimStep(id) => id in c.callers && c.callers[id].phase.Claiming?
    case Ask(id, key) =>
      // Only what is still missing is asked for.
      id in c.callers && c.callers[id].phase.Fetching? && key in c.callers[id].phase.mine && key !in c.table.cache
    case Arrive(id, key) => id in c.callers && c.callers[id].phase.Fetching? && key in c.callers[id].phase.asked
    case Drop(id, key) => id in c.callers && c.callers[id].phase.Fetching? && key in c.callers[id].phase.asked
    case FetchEnd(id, ok) =>
      // A fetch that succeeds has cached everything it was for.
      && id in c.callers && c.callers[id].phase.Fetching?
      && (ok ==> forall k :: k in c.callers[id].phase.mine ==> k in c.table.cache)
    case LandStep(id) => id in c.callers && c.callers[id].phase.Landing?
    case Wake(id) =>
      && id in c.callers && c.callers[id].phase.Waiting?
      && forall f :: f in c.callers[id].phase.theirs ==> f < |c.table.flights| && c.table.flights[f].landed
    case Outside(_) => true
  }

  function WithPhase(c: Config, id: CallerId, phase: Phase): Config
    requires id in c.callers
  {
    c.(callers := c.callers[id := c.callers[id].(phase := phase)])
  }

  ghost function Next(up: Upstream, c: Config, step: Step): Config
    requires Enabled(c, step)
  {
    match step
    case Call(id, keys) => c.(callers := c.callers[id := Caller(keys, Claiming, 0, 0)])
    case ClaimStep(id) =>
      var r := Claim(id, c.callers[id].keys, c.table);
      WithPhase(c.(table := r.table), id,
                if r.mine != [] then Fetching(r.mine, r.theirs, {}) else AfterLanding(r.theirs))
    case Ask(id, key) =>
      var p := c.callers[id].phase;
      WithPhase(c, id, p.(asked := p.asked + {key}))
    case Arrive(id, key) =>
      var p := c.callers[id].phase;
      WithPhase(c.(table := c.table.(cache := c.table.cache[key := up.Truth(key)]), fetched := c.fetched + [key]),
                id, p.(asked := p.asked - {key}))
    case Drop(id, key) =>
      var p := c.callers[id].phase;
      WithPhase(c, id, p.(asked := p.asked - {key}))
    case FetchEnd(id, ok) =>
      var p := c.callers[id].phase;
      WithPhase(c, id, Landing(p.mine, p.theirs, ok))
    case LandStep(id) =>
      var p := c.callers[id].phase;
      WithPhase(c.(table := Land(p.mine, c.table)), id, if p.ok then AfterLanding(p.theirs) else Returned(false))
    case Wake(id) =>
      var (caller, flights) := (c.callers[id], c.table.flights);
      var failed := if AnyFailed(caller.phase.theirs, flights) then 1 else 0;
      c.(callers := c.callers[id := caller.(phase := Claiming, waits := caller.waits + 1,
                                            failures := caller.failures + failed)])
    case Outside(key) => c.(table := c.table.(cache := c.table.cache[key := up.Truth(key)]))
  }

  ghost predicate IsRun(up: Upstream, steps: seq<Step>, trace: seq<Config>) {
    && |trace| == |steps| + 1
    && trace[0] == START
    && forall i :: 0 <= i < |steps| ==> Follows(up, steps, trace, i)
  }

  ghost predicate Follows(up: Upstream, steps: seq<Step>, trace: seq<Config>, i: nat)
    requires i < |steps| < |trace|
  {
    Enabled(trace[i], steps[i]) && trace[i + 1] == Next(up, trace[i], steps[i])
  }

  ghost predicate Reachable(up: Upstream, c: Config) {
    exists steps, trace :: IsRun(up, steps, trace) && trace[|steps|] == c
  }

  // ---- The invariant ----

  /** Keys whose flights `caller` owns and has not landed. */
  function Mine(caller: Caller): seq<StateKey> {
    if caller.phase.Fetching? || caller.phase.Landing? then caller.phase.mine else []
  }

  function Theirs(caller: Caller): seq<FlightId> {
    if caller.phase.Fetching? || caller.phase.Landing? || caller.phase.Waiting? then caller.phase.theirs else []
  }

  function Asked(caller: Caller): set<StateKey> {
    if caller.phase.Fetching? then caller.phase.asked else {}
  }

  /** Every flight in progress has one owner, still fetching; what has landed
      without failing is cached. */
  ghost predicate TableOk(up: Upstream, t: Table, callers: map<CallerId, Caller>) {
    && Truthful(up, t.cache)
    && (forall k :: k in t.inFlight ==>
          t.inFlight[k] < |t.flights| && t.flights[t.inFlight[k]].key == k && !t.flights[t.inFlight[k]].landed)
    && (forall f :: 0 <= f < |t.flights| ==> FlightOk(t, callers, f))
  }

  ghost predicate FlightOk(t: Table, callers: map<CallerId, Caller>, f: FlightId)
    requires f < |t.flights|
  {
    var flight := t.flights[f];
    && (!flight.landed ==>
          && flight.key in t.inFlight && t.inFlight[flight.key] == f
          && flight.owner in callers && flight.key in Mine(callers[flight.owner]))
    && (flight.landed && !flight.failed ==> flight.key in t.cache)
  }

  /** Each requested key is cached, owned, or awaited. */
  ghost predicate Covered(t: Table, caller: Caller) {
    forall k :: k in caller.keys ==>
      || k in t.cache || k in Mine(caller)
      || exists f :: f in Theirs(caller) && f < |t.flights| && t.flights[f].key == k
  }

  ghost predicate AllCached(t: Table, caller: Caller) {
    forall k :: k in caller.keys ==> k in t.cache
  }

  ghost predicate CallerOk(t: Table, id: CallerId, caller: Caller) {
    && NoRepeats(Mine(caller))
    && (forall k :: k in Mine(caller) ==>
          k in t.inFlight && t.inFlight[k] < |t.flights| && t.flights[t.inFlight[k]].owner == id)
    && (forall f :: f in Theirs(caller) ==> f < |t.flights|)
    && (forall k :: k in Asked(caller) ==> k in Mine(caller))
    && (caller.phase.Fetching? || caller.phase.Landing? || caller.phase.Waiting? ==> Covered(t, caller))
    && (caller.phase.Landing? && caller.phase.ok ==> forall k :: k in Mine(caller) ==> k in t.cache)
    && (caller.phase.Returned? && caller.phase.ok ==> AllCached(t, caller))
    && (match caller.phase
        case Claiming =>
          caller.waits <= caller.failures || (caller.waits == caller.failures + 1 && AllCached(t, caller))
        case Returned(_) => caller.waits <= caller.failures + 1
        case _ => caller.waits <= caller.failures)
  }

  /** What `resolve` has fetched is cached, was fetched once, and is not being
      asked for again. */
  ghost predicate FetchedOk(c: Config) {
    && NoRepeats(c.fetched)
    && (forall k :: k in c.fetched ==> k in c.table.cache)
    && (forall k, id :: k in c.fetched && id in c.callers ==> k !in Asked(c.callers[id]))
  }

  ghost predicate Inv(up: Upstream, c: Config) {
    && TableOk(up, c.table, c.callers)
    && (forall id :: id in c.callers ==> CallerOk(c.table, id, c.callers[id]))
    && FetchedOk(c)
  }

  // ---- Claiming and landing, key by key ----

  ghost predicate InFlightOk(t: Table) {
    forall k :: k in t.inFlight ==> t.inFlight[k] < |t.flights| && t.flights[t.inFlight[k]].key == k
  }

  /** What a claim by `id` has added to `t0` so far. */
  ghost predicate ClaimedFrom(id: CallerId, t0: Table, c: Claimed) {
    var t := c.table;
    && t.cache == t0.cache && t0.flights <= t.flights
    && InFlightOk(t)
    && NoRepeats(c.mine)
    && (forall k :: k in t.inFlight <==> k in t0.inFlight || k in c.mine)
    && (forall k :: k in t0.inFlight ==> k !in c.mine && t.inFlight[k] == t0.inFlight[k])
    && (forall k :: k in c.mine ==> k !in t.cache && t.flights[t.inFlight[k]] == Flight(id, k, false, false))
    && (forall f :: |t0.flights| <= f < |t.flights| ==> t.flights[f].key in c.mine && t.inFlight[t.flights[f].key] == f)
    && (forall f :: f in c.theirs ==> f < |t.flights| && t.flights[f].key !in t.cache)
  }

  ghost predicate Accounts(k: StateKey, c: Claimed) {
    || k in c.table.cache || k in c.mine
    || exists f :: f in c.theirs && f < |c.table.flights| && c.table.flights[f].key == k
  }

  lemma ClaimKeySound(id: CallerId, key: StateKey, t0: Table, c: Claimed)
    requires ClaimedFrom(id, t0, c)
    ensures ClaimedFrom(id, t0, ClaimKey(id, key, c))
    ensures Accounts(key, ClaimKey(id, key, c))
    ensures forall k :: Accounts(k, c) ==> Accounts(k, ClaimKey(id, key, c))
  {
    var c' := ClaimKey(id, key, c);
    if key !in c.table.cache && key in c.table.inFlight {
      assert c.table.inFlight[key] in c'.theirs;
    }
    forall k | Accounts(k, c)
      ensures Accounts(k, c')
    {
      StillAccounts(id, key, c, k);
    }
  }

  lemma StillAccounts(id: CallerId, key: StateKey, c: Claimed, k: StateKey)
    requires Accounts(k, c)
    ensures Accounts(k, ClaimKey(id, key, c))
  {
    var c' := ClaimKey(id, key, c);
    if f :| f in c.theirs && f < |c.table.flights| && c.table.flights[f].key == k {
      assert f in c'.theirs && c'.table.flights[f].key == k;
    }
  }

  lemma {:induction false} ClaimSound(id: CallerId, keys: seq<StateKey>, t: Table)
    requires InFlightOk(t)
    ensures ClaimedFrom(id, t, Claim(id, keys, t))
    ensures forall k :: k in keys ==> Accounts(k, Claim(id, keys, t))
  {
    if keys != [] {
      var last := |keys| - 1;
      ClaimSound(id, keys[..last], t);
      ClaimKeySound(id, keys[last], t, Claim(id, keys[..last], t));
      assert keys == keys[..last] + [keys[last]];
    }
  }

  ghost predicate EmptyHanded(c: Claimed) {
    c.mine == [] && c.theirs == []
  }

  lemma ClaimKeyEmpty(id: CallerId, key: StateKey, c: Claimed)
    ensures ClaimKey(id, key, c).table.cache == c.table.cache
    ensures EmptyHanded(ClaimKey(id, key, c)) <==> EmptyHanded(c) && key in c.table.cache
  {
  }

  /** A claim comes back empty-handed exactly when everything is cached. */
  lemma {:induction false} ClaimEmpty(id: CallerId, keys: seq<StateKey>, t: Table)
    ensures Claim(id, keys, t).table.cache == t.cache
    ensures EmptyHanded(Claim(id, keys, t)) <==> forall k :: k in keys ==> k in t.cache
  {
    if keys != [] {
      var last := |keys| - 1;
      ClaimEmpty(id, keys[..last], t);
      ClaimKeyEmpty(id, keys[last], Claim(id, keys[..last], t));
      assert forall k :: k in keys <==> k in keys[..last] || k == keys[last];
    }
  }

  /** `t'` is `t` with exactly the flights of `keys` ended. */
  ghost predicate LandedTo(keys: seq<StateKey>, t: Table, t': Table)
    requires forall k :: k in keys ==> k in t.inFlight
  {
    && t'.cache == t.cache && |t'.flights| == |t.flights|
    && (forall k :: k in t'.inFlight <==> k in t.inFlight && k !in keys)
    && (forall k :: k in t'.inFlight ==> t'.inFlight[k] == t.inFlight[k])
    && (forall f :: 0 <= f < |t.flights| ==>
          t'.flights[f] == if t.flights[f].key in keys && t.inFlight[t.flights[f].key] == f
                           then t.flights[f].(landed := true, failed := t.flights[f].key !in t.cache)
                           else t.flights[f])
  }

  lemma {:induction false} LandSound(keys: seq<StateKey>, t: Table)
    requires InFlightOk(t) && NoRepeats(keys) && forall k :: k in keys ==> k in t.inFlight
    ensures LandedTo(keys, t, Land(keys, t))
  {
    if keys != [] {
      var last := |keys| - 1;
      LandSound(keys[..last], t);
      assert keys[last] in keys;
      assert keys[last] !in keys[..last];
      assert forall k :: k in keys <==> k in keys[..last] || k == keys[last];
    }
  }

  // ---- Every step ----

  /** A caller untouched by a step that only adds to the cache and to the
      flights, and lands none of its own, is still in order. */
  lemma CallerStays(t: Table, t': Table, id: CallerId, caller: Caller)
    requires CallerOk(t, id, caller)
    requires t.cache.Keys <= t'.cache.Keys && |t.flights| <= |t'.flights|
    requires forall f :: 0 <= f < |t.flights| ==>
             t'.flights[f].key == t.flights[f].key && t'.flights[f].owner == t.flights[f].owner
    requires forall k :: k in Mine(caller) ==> k in t'.inFlight && t'.inFlight[k] == t.inFlight[k]
    ensures CallerOk(t', id, caller)
  {
    if caller.phase.Fetching? || caller.phase.Landing? || caller.phase.Waiting? {
      forall k | k in caller.keys && k !in t'.cache && k !in Mine(caller)
        ensures exists f :: f in Theirs(caller) && f < |t'.flights| && t'.flights[f].key == k
      {
        var f :| f in Theirs(caller) && f < |t.flights| && t.flights[f].key == k;
        assert t'.flights[f].key == k;
      }
    }
  }

  lemma ClaimedFlightsOk(t: Table, r: Claimed, callers: map<CallerId, Caller>, callers': map<CallerId, Caller>,
                         id: CallerId)
    requires ClaimedFrom(id, t, r) && id in callers && Mine(callers[id]) == []
    requires callers'.Keys == callers.Keys && Mine(callers'[id]) == r.mine
    requires forall i :: i in callers && i != id ==> callers'[i] == callers[i]
    requires forall f :: 0 <= f < |t.flights| ==> FlightOk(t, callers, f)
    ensures forall f :: 0 <= f < |r.table.flights| ==> FlightOk(r.table, callers', f)
  {
    forall f | 0 <= f < |r.table.flights|
      ensures FlightOk(r.table, callers', f)
    {
      if f < |t.flights| {
        assert FlightOk(t, callers, f) && r.table.flights[f] == t.flights[f];
      }
    }
  }

  lemma ClaimedCallerOk(t: Table, r: Claimed, id: CallerId, caller: Caller)
    requires CallerOk(t, id, caller) && caller.phase.Claiming?
    requires ClaimedFrom(id, t, r) && (forall k :: k in caller.keys ==> Accounts(k, r))
    requires r.mine == [] && r.theirs == [] <==> AllCached(t, caller)
    ensures CallerOk(r.table, id,
                     caller.(phase := if r.mine != [] then Fetching(r.mine, r.theirs, {}) else AfterLanding(r.theirs)))
  {
    var caller' := caller.(phase := if r.mine != [] then Fetching(r.mine, r.theirs, {}) else AfterLanding(r.theirs));
    forall k | k in caller.keys && !caller'.phase.Returned? && k !in r.table.cache && k !in Mine(caller')
      ensures exists f :: f in Theirs(caller') && f < |r.table.flights| && r.table.flights[f].key == k
    {
      assert Accounts(k, r);
    }
  }

  /** A claim leaves the flights and keys of every other caller alone. */
  lemma OthersClaimedOk(t: Table, r: Claimed, id: CallerId, other: CallerId, caller: Caller)
    requires ClaimedFrom(id, t, r) && CallerOk(t, other, caller)
    ensures CallerOk(r.table, other, caller)
  {
    CallerStays(t, r.table, other, caller);
  }

  lemma ClaimedTableOk(up: Upstream, t: Table, r: Claimed, callers: map<CallerId, Caller>,
                       callers': map<CallerId, Caller>, id: CallerId)
    requires TableOk(up, t, callers) && ClaimedFrom(id, t, r)
    requires forall f :: 0 <= f < |r.table.flights| ==> FlightOk(r.table, callers', f)
    ensures TableOk(up, r.table, callers')
  {
  }

  lemma ClaimKeeps(up: Upstream, c: Config, id: CallerId)
    requires Inv(up, c) && Enabled(c, ClaimStep(id))
    ensures Inv(up, Next(up, c, ClaimStep(id)))
  {
    var (t, caller) := (c.table, c.callers[id]);
    var r := Claim(id, caller.keys, t);
    ClaimSound(id, caller.keys, t);
    var c' := Next(up, c, ClaimStep(id));
    assert CallerOk(c'.table, id, c'.callers[id]) by {
      ClaimEmpty(id, caller.keys, t);
      ClaimedCallerOk(t, r, id, caller);
    }
    assert TableOk(up, c'.table, c'.callers) by {
      ClaimedFlightsOk(t, r, c.callers, c'.callers, id);
      ClaimedTableOk(up, t, r, c.callers, c'.callers, id);
    }
    forall i | i in c.callers && i != id
      ensures CallerOk(c'.table, i, c'.callers[i])
    {
      OthersClaimedOk(t, r, id, i, c.callers[i]);
    }
  }

  /** A call whose own keys are all cached and who waits on nobody is done. */
  lemma CoveredAlone(t: Table, caller: Caller)
    requires Covered(t, caller) && Theirs(caller) == [] && forall k :: k in Mine(caller) ==> k in t.cache
    ensures AllCached(t, caller)
  {
  }

  lemma LandedCallerOk(t: Table, t': Table, id: CallerId, caller: Caller)
    requires CallerOk(t, id, caller) && caller.phase.Landing?
    requires t'.cache == t.cache && |t'.flights| == |t.flights| &&
             (forall f :: 0 <= f < |t.flights| ==> t'.flights[f].key == t.flights[f].key)
    ensures CallerOk(t', id,
                     caller.(phase := if caller.phase.ok then AfterLanding(caller.phase.theirs) else Returned(false)))
  {
    if caller.phase.ok {
      var caller' := caller.(phase := AfterLanding(caller.phase.theirs));
      assert Theirs(caller') == Theirs(caller);
      if caller.phase.theirs == [] {
        CoveredAlone(t, caller);
      } else {
        forall k | k in caller.keys && k !in t'.cache
          ensures exists f :: f in Theirs(caller') && f < |t'.flights| && t'.flights[f].key == k
        {
          var f :| f in caller.phase.theirs && f < |t.flights| && t.flights[f].key == k;
          assert t'.flights[f].key == k;
        }
        assert Covered(t', caller');
      }
    }
  }

  lemma LandedFlightsOk(c: Config, c': Config, id: CallerId)
    requires id in c.callers && c.callers[id].phase.Landing? && CallerOk(c.table, id, c.callers[id])
    requires InFlightOk(c.table) && c'.table == Land(c.callers[id].phase.mine, c.table)
    requires c'.callers.Keys == c.callers.Keys
    requires forall i :: i in c.callers && i != id ==> c'.callers[i] == c.callers[i]
    requires forall f :: 0 <= f < |c.table.flights| ==> FlightOk(c.table, c.callers, f)
    ensures forall f :: 0 <= f < |c'.table.flights| ==> FlightOk(c'.table, c'.callers, f)
  {
    LandSound(c.callers[id].phase.mine, c.table);
    forall f | 0 <= f < |c'.table.flights|
      ensures FlightOk(c'.table, c'.callers, f)
    {
      assert FlightOk(c.table, c.callers, f);
    }
  }

  /** Landing one call's keys leaves every other caller in order. */
  lemma OthersLandedOk(t: Table, t': Table, id: CallerId, owner: Caller, other: CallerId, caller: Caller)
    requires id != other && CallerOk(t, id, owner) && CallerOk(t, other, caller) && LandedTo(Mine(owner), t, t')
    ensures CallerOk(t', other, caller)
  {
    assert forall k :: k in Mine(caller) ==> k !in Mine(owner);
    CallerStays(t, t', other, caller);
  }

  lemma LandedTableOk(up: Upstream, t: Table, t': Table, keys: seq<StateKey>, callers: map<CallerId, Caller>,
                      callers': map<CallerId, Caller>)
    requires TableOk(up, t, callers) && (forall k :: k in keys ==> k in t.inFlight) && LandedTo(keys, t, t')
    requires forall f :: 0 <= f < |t'.flights| ==> FlightOk(t', callers', f)
    ensures TableOk(up, t', callers')
  {
  }

  lemma LandKeeps(up: Upstream, c: Config, id: CallerId)
    requires Inv(up, c) && Enabled(c, LandStep(id))
    ensures Inv(up, Next(up, c, LandStep(id)))
  {
    var (t, caller) := (c.table, c.callers[id]);
    assert CallerOk(t, id, caller) && Mine(caller) == caller.phase.mine;
    LandSound(caller.phase.mine, t);
    var c' := Next(up, c, LandStep(id));
    assert CallerOk(c'.table, id, c'.callers[id]) by {
      LandedCallerOk(t, c'.table, id, caller);
    }
    assert TableOk(up, c'.table, c'.callers) by {
      LandedFlightsOk(c, c', id);
      LandedTableOk(up, t, c'.table, caller.phase.mine, c.callers, c'.callers);
    }
    assert FetchedOk(c') by {
      LandedFetchedOk(c, id, c');
    }
    forall i | i in c.callers && i != id
      ensures CallerOk(c'.table, i, c'.callers[i])
    {
      OthersLandedOk(t, c'.table, id, caller, i, c.callers[i]);
    }
  }

  lemma LandedFetchedOk(c: Config, id: CallerId, c': Config)
    requires FetchedOk(c) && id in c.callers && c'.fetched == c.fetched && c'.table.cache == c.table.cache
    requires c'.callers.Keys == c.callers.Keys && Asked(c'.callers[id]) == {}
    requires forall i :: i in c.callers && i != id ==> c'.callers[i] == c.callers[i]
    ensures FetchedOk(c')
  {
  }

  /** A caller goes on to another phase with the same keys of its own. */
  lemma PhaseKeeps(up: Upstream, c: Config, id: CallerId, caller: Caller)
    requires Inv(up, c) && id in c.callers && CallerOk(c.table, id, caller) && Mine(caller) == Mine(c.callers[id])
    requires forall k :: k in c.fetched ==> k !in Asked(caller)
    ensures Inv(up, c.(callers := c.callers[id := caller]))
  {
    var c' := c.(callers := c.callers[id := caller]);
    forall f | 0 <= f < |c.table.flights|
      ensures FlightOk(c.table, c'.callers, f)
    {
      assert FlightOk(c.table, c.callers, f);
    }
  }

  /** Every flight it waited on has landed: either one failed, or all of what
      it asked for is cached. */
  lemma AllLandedAllCached(up: Upstream, c: Config, id: CallerId)
    requires Inv(up, c) && Enabled(c, Wake(id)) && !AnyFailed(c.callers[id].phase.theirs, c.table.flights)
    ensures AllCached(c.table, c.callers[id])
  {
    var theirs := c.callers[id].phase.theirs;
    assert Covered(c.table, c.callers[id]);
    assert forall f :: f in theirs ==> FlightOk(c.table, c.callers, f);
  }

  /** Only a failed flight makes a woken call's next round an extra one. */
  lemma WokenOk(t: Table, id: CallerId, caller: Caller, failed: bool)
    requires CallerOk(t, id, caller) && caller.phase.Waiting? && (failed || AllCached(t, caller))
    ensures CallerOk(t, id, caller.(phase := Claiming, waits := caller.waits + 1,
                                    failures := caller.failures + if failed then 1 else 0))
  {
  }

  lemma WakeKeeps(up: Upstream, c: Config, id: CallerId)
    requires Inv(up, c) && Enabled(c, Wake(id))
    ensures Inv(up, Next(up, c, Wake(id)))
  {
    var caller := c.callers[id];
    var failed := AnyFailed(caller.phase.theirs, c.table.flights);
    if !failed {
      AllLandedAllCached(up, c, id);
    }
    WokenOk(c.table, id, caller, failed);
    PhaseKeeps(up, c, id, caller.(phase := Claiming, waits := caller.waits + 1,
                                  failures := caller.failures + if failed then 1 else 0));
  }

  lemma AskedKeeps(up: Upstream, c: Config, id: CallerId, asked: set<StateKey>)
    requires Inv(up, c) && id in c.callers && c.callers[id].phase.Fetching?
    requires forall k :: k in asked ==> k in c.callers[id].phase.mine && k !in c.fetched
    ensures Inv(up, WithPhase(c, id, c.callers[id].phase.(asked := asked)))
  {
    var (t, caller) := (c.table, c.callers[id]);
    var caller' := caller.(phase := caller.phase.(asked := asked));
    assert CallerOk(t, id, caller);
    CallerStays(t, t, id, caller);
    assert Theirs(caller') == Theirs(caller) && (Covered(t, caller) ==> Covered(t, caller'));
    PhaseKeeps(up, c, id, caller');
  }

  lemma FetchEndKeeps(up: Upstream, c: Config, id: CallerId, ok: bool)
    requires Inv(up, c) && Enabled(c, FetchEnd(id, ok))
    ensures Inv(up, Next(up, c, FetchEnd(id, ok)))
  {
    var (t, caller) := (c.table, c.callers[id]);
    var caller' := caller.(phase := Landing(caller.phase.mine, caller.phase.theirs, ok));
    assert CallerOk(t, id, caller);
    assert Theirs(caller') == Theirs(caller) && (Covered(t, caller) ==> Covered(t, caller'));
    PhaseKeeps(up, c, id, caller');
  }

  /** Caching a true value disturbs nothing. */
  lemma CachingKeeps(up: Upstream, c: Config, key: StateKey)
    requires Inv(up, c)
    ensures Inv(up, c.(table := c.table.(cache := c.table.cache[key := up.Truth(key)])))
  {
    var t' := c.table.(cache := c.table.cache[key := up.Truth(key)]);
    forall f | 0 <= f < |t'.flights|
      ensures FlightOk(t', c.callers, f)
    {
      assert FlightOk(c.table, c.callers, f);
    }
    forall i | i in c.callers
      ensures CallerOk(t', i, c.callers[i])
    {
      CallerStays(c.table, t', i, c.callers[i]);
    }
  }

  /** A key is recorded as fetched once it is cached and nobody asks for it. */
  lemma FetchedKeeps(up: Upstream, c: Config, key: StateKey)
    requires Inv(up, c) && key in c.table.cache && key !in c.fetched
    requires forall i :: i in c.callers ==> key !in Asked(c.callers[i])
    ensures Inv(up, c.(fetched := c.fetched + [key]))
  {
  }

  /** Only a key's owner asks for it. */
  lemma OthersDoNotAsk(up: Upstream, c: Config, i: CallerId, owner: CallerId, key: StateKey)
    requires Inv(up, c) && i in c.callers && owner in c.callers && i != owner && key in Mine(c.callers[owner])
    ensures key !in Mine(c.callers[i]) && key !in Asked(c.callers[i])
  {
    assert CallerOk(c.table, i, c.callers[i]) && CallerOk(c.table, owner, c.callers[owner]);
  }

  lemma ArriveKeeps(up: Upstream, c: Config, id: CallerId, key: StateKey)
    requires Inv(up, c) && Enabled(c, Arrive(id, key))
    ensures Inv(up, Next(up, c, Arrive(id, key)))
  {
    var p := c.callers[id].phase;
    assert CallerOk(c.table, id, c.callers[id]) && key in Asked(c.callers[id]);
    var c1 := c.(table := c.table.(cache := c.table.cache[key := up.Truth(key)]));
    CachingKeeps(up, c, key);
    forall k | k in p.asked - {key}
      ensures k in p.mine && k !in c.fetched
    {
      assert k in Asked(c.callers[id]);
    }
    AskedKeeps(up, c1, id, p.asked - {key});
    var c2 := WithPhase(c1, id, p.(asked := p.asked - {key}));
    forall i | i in c2.callers
      ensures key !in Asked(c2.callers[i])
    {
      if i != id {
        OthersDoNotAsk(up, c, i, id, key);
      }
    }
    FetchedKeeps(up, c2, key);
  }

  lemma CallKeeps(up: Upstream, c: Config, id: CallerId, keys: seq<StateKey>)
    requires Inv(up, c) && Enabled(c, Call(id, keys))
    ensures Inv(up, Next(up, c, Call(id, keys)))
  {
    var c' := Next(up, c, Call(id, keys));
    forall f | 0 <= f < |c.table.flights|
      ensures FlightOk(c.table, c'.callers, f)
    {
      assert FlightOk(c.table, c.callers, f);
    }
  }

  lemma StepKeeps(up: Upstream, c: Config, step: Step)
    requires Inv(up, c) && Enabled(c, step)
    ensures Inv(up, Next(up, c, step))
  {
    match step
    case Call(id, keys) => CallKeeps(up, c, id, keys);
    case ClaimStep(id) => ClaimKeeps(up, c, id);
    case Ask(id, key) =>
      AskedAreOwn(up, c, id);
      AskedKeeps(up, c, id, c.callers[id].phase.asked + {key});
    case Arrive(id, key) => ArriveKeeps(up, c, id, key);
    case Drop(id, key) =>
      AskedAreOwn(up, c, id);
      AskedKeeps(up, c, id, c.callers[id].phase.asked - {key});
    case FetchEnd(id, ok) => FetchEndKeeps(up, c, id, ok);
    case LandStep(id) => LandKeeps(up, c, id);
    case Wake(id) => WakeKeeps(up, c, id);
    case Outside(key) => CachingKeeps(up, c, key);
  }

  lemma AskedAreOwn(up: Upstream, c: Config, id: CallerId)
    requires Inv(up, c) && id in c.callers && c.callers[id].phase.Fetching?
    ensures forall k :: k in c.callers[id].phase.asked ==> k in c.callers[id].phase.mine && k !in c.fetched
  {
    assert CallerOk(c.table, id, c.callers[id]);
    forall k | k in c.callers[id].phase.asked
      ensures k in c.callers[id].phase.mine && k !in c.fetched
    {
      assert k in Asked(c.callers[id]);
    }
  }

  lemma {:induction false} RunKeeps(up: Upstream, steps: seq<Step>, trace: seq<Config>, n: nat)
    requires IsRun(up, steps, trace) && n < |trace|
    ensures Inv(up, trace[n])
  {
    if n > 0 {
      RunKeeps(up, steps, trace, n - 1);
      assert Follows(up, steps, trace, n - 1);
      StepKeeps(up, trace[n - 1], steps[n - 1]);
    }
  }

  lemma ReachableIsInv(up: Upstream, c: Config)
    requires Reachable(up, c)
    ensures Inv(up, c)
  {
    var steps, trace :| IsRun(up, steps, trace) && trace[|steps|] == c;
    RunKeeps(up, steps, trace, |steps|);
  }

  // ---- What the invariant means for callers ----

  /** Every key in flight is owned by exactly one call, which has claimed it
      and not landed it; and every key a call owns is in flight. */
  lemma OneOwner(up: Upstream, c: Config, key: StateKey)
    requires Reachable(up, c)
    ensures key in c.table.inFlight <==> exists i :: i in c.callers && key in Mine(c.callers[i])
    ensures forall i, j ::
              i in c.callers && j in c.callers && key in Mine(c.callers[i]) && key in Mine(c.callers[j]) ==> i == j
  {
    ReachableIsInv(up, c);
    if key in c.table.inFlight {
      assert FlightOk(c.table, c.callers, c.table.inFlight[key]);
    }
    forall i | i in c.callers && key in Mine(c.callers[i])
      ensures key in c.table.inFlight
    {
      assert CallerOk(c.table, i, c.callers[i]);
    }
    forall i, j | i in c.callers && j in c.callers && key in Mine(c.callers[i]) && key in Mine(c.callers[j])
      ensures i == j
    {
      if i != j {
        OthersDoNotAsk(up, c, i, j, key);
      }
    }
  }

  /** Only its owner asks for a key, so no two calls fetch it at once. */
  lemma OnlyOwnersAsk(up: Upstream, c: Config, i: CallerId, j: CallerId, key: StateKey)
    requires Reachable(up, c) && i in c.callers && j in c.callers && i != j && key in Asked(c.callers[i])
    ensures key in c.table.inFlight && key in Mine(c.callers[i])
    ensures key !in Mine(c.callers[j]) && key !in Asked(c.callers[j])
  {
    ReachableIsInv(up, c);
    assert CallerOk(c.table, i, c.callers[i]);
    OthersDoNotAsk(up, c, j, i, key);
  }

  /** What the shared cache holds is what upstream holds. */
  lemma CacheIsTruthful(up: Upstream, c: Config)
    requires Reachable(up, c)
    ensures Truthful(up, c.table.cache)
  {
    ReachableIsInv(up, c);
  }

  lemma {:induction false} FetchedOnlyGrows(up: Upstream, steps: seq<Step>, trace: seq<Config>, m: nat, n: nat,
                                            key: StateKey)
    requires IsRun(up, steps, trace) && m <= n < |trace| && key in trace[m].fetched
    ensures key in trace[n].fetched
  {
    if m < n {
      FetchedOnlyGrows(up, steps, trace, m, n - 1, key);
      assert Follows(up, steps, trace, n - 1);
    }
  }

  /** Over a whole run, a key one `resolve` fetched is not asked for, and so
      not fetched, by any `resolve` again. */
  lemma NeverFetchedAgain(up: Upstream, steps: seq<Step>, trace: seq<Config>, m: nat, n: nat, i: CallerId, j: CallerId,
                          key: StateKey)
    requires IsRun(up, steps, trace) && m < n < |steps| && steps[m] == Arrive(i, key)
    ensures steps[n] != Ask(j, key) && steps[n] != Arrive(j, key)
  {
    assert Follows(up, steps, trace, m);
    FetchedOnlyGrows(up, steps, trace, m + 1, n, key);
    RunKeeps(up, steps, trace, n);
    assert Follows(up, steps, trace, n);
    assert j in trace[n].callers ==> key !in Asked(trace[n].callers[j]);
  }

  /** A step that takes some call further: nobody has to move first. A fetch
      in progress ends one way or the other. */
  ghost predicate Advances(c: Config, step: Step) {
    && (step.ClaimStep? || (step.FetchEnd? && !step.ok) || step.LandStep? || step.Wake?)
    && Enabled(c, step)
  }

  /** The owner of a flight in progress is not waiting. */
  lemma OwnerIsFetching(up: Upstream, c: Config, f: FlightId)
    requires Inv(up, c) && f < |c.table.flights| && !c.table.flights[f].landed
    ensures var owner := c.table.flights[f].owner;
      owner in c.callers && (c.callers[owner].phase.Fetching? || c.callers[owner].phase.Landing?)
  {
    assert FlightOk(c.table, c.callers, f);
  }

  lemma FetchingAdvances(c: Config, id: CallerId)
    requires id in c.callers && (c.callers[id].phase.Fetching? || c.callers[id].phase.Landing?)
    ensures exists step :: Advances(c, step)
  {
    assert Advances(c, FetchEnd(id, false)) || Advances(c, LandStep(id));
  }

  lemma WaiterOrOwnerAdvances(up: Upstream, c: Config, id: CallerId)
    requires Inv(up, c) && id in c.callers && c.callers[id].phase.Waiting?
    ensures exists step :: Advances(c, step)
  {
    assert CallerOk(c.table, id, c.callers[id]);
    var theirs := Theirs(c.callers[id]);
    if f :| f in theirs && !c.table.flights[f].landed {
      OwnerIsFetching(up, c, f);
      FetchingAdvances(c, c.table.flights[f].owner);
    } else {
      assert Advances(c, Wake(id));
    }
  }

  /** Whoever waits owns no flight in progress, so waiting never goes round
      in a circle: while a call has not returned, some call can go on. */
  lemma NoDeadlock(up: Upstream, c: Config, id: CallerId)
    requires Reachable(up, c) && id in c.callers && !c.callers[id].phase.Returned?
    ensures forall f :: 0 <= f < |c.table.flights| && !c.table.flights[f].landed && c.callers[id].phase.Waiting? ==>
              c.table.flights[f].owner != id
    ensures exists step :: Advances(c, step)
  {
    ReachableIsInv(up, c);
    forall f | 0 <= f < |c.table.flights| && !c.table.flights[f].landed && c.callers[id].phase.Waiting?
      ensures c.table.flights[f].owner != id
    {
      OwnerIsFetching(up, c, f);
    }
    if c.callers[id].phase.Waiting? {
      WaiterOrOwnerAdvances(up, c, id);
    } else if c.callers[id].phase.Claiming? {
      assert Advances(c, ClaimStep(id));
    } else {
      FetchingAdvances(c, id);
    }
  }

  /** A call waits at most one round more than the rounds in which a fetch it
      waited on failed, and `Ok` means every key it asked for is cached. */
  lemma WaitsAreBounded(up: Upstream, c: Config, id: CallerId)
    requires Reachable(up, c) && id in c.callers
    ensures c.callers[id].waits <= c.callers[id].failures + 1
    ensures c.callers[id].phase == Returned(true) ==> AllCached(c.table, c.callers[id])
  {
    ReachableIsInv(up, c);
    assert CallerOk(c.table, id, c.callers[id]);
  }

  ghost predicate Failing(c: Config, id: CallerId) {
    id in c.callers &&
    (c.callers[id].phase == Returned(false) || (c.callers[id].phase.Landing? && !c.callers[id].phase.ok))
  }

  /** A call ends in an error exactly when its own fetch failed: the failures
      it waited on it never sees. */
  lemma {:induction false} OnlyTheOwnerSeesTheError(up: Upstream, steps: seq<Step>, trace: seq<Config>, n: nat,
                                                    id: CallerId)
    requires IsRun(up, steps, trace) && n <= |steps|
    ensures Failing(trace[n], id) <==> FetchEnd(id, false) in steps[..n]
    ensures FetchEnd(id, false) in steps[..n] ==> id in trace[n].callers
  {
    if n > 0 {
      OnlyTheOwnerSeesTheError(up, steps, trace, n - 1, id);
      assert steps[..n] == steps[..n - 1] + [steps[n - 1]];
      assert Follows(up, steps, trace, n - 1);
    }
  }

  // ---- The table, updated in place ----

  class FlightTable {
    var cache: Cache
    var inFlight: map<StateKey, FlightId>
    var flights: seq<Flight>

    constructor ()
      ensures State() == START.table
    {
      cache, inFlight, flights := map[], map[], [];
    }

    function State(): Table
      reads this
    {
      Table(cache, inFlight, flights)
    }

    /** `mine` are the keys `id` must fetch from here on; `theirs` the flights
        it has only to wait for. */
    method ClaimKeys(id: CallerId, keys: seq<StateKey>) returns (mine: seq<StateKey>, theirs: seq<FlightId>)
      modifies this`inFlight, this`flights
      ensures Claimed(mine, theirs, State()) == Claim(id, keys, old(State()))
    {
      mine, theirs := [], [];
      for n := 0 to |keys|
        invariant cache == old(cache)
        invariant Claimed(mine, theirs, State()) == Claim(id, keys[..n], old(State()))
      {
        var key := keys[n];
        assert keys[..n + 1][..n] == keys[..n];
        if key in cache {
          continue;
        }
        if key in inFlight {
          theirs := theirs + [inFlight[key]];
        } else {
          inFlight := inFlight[key := |flights|];
          flights := flights + [Flight(id, key, false, false)];
          mine := mine + [key];
        }
      }
      assert keys[..|keys|] == keys;
    }

    /** End the flights of `keys`, whether their fetch worked or not. */
    method LandKeys(keys: seq<StateKey>)
      modifies this`inFlight, this`flights
      ensures State() == Land(keys, old(State()))
    {
      for n := 0 to |keys|
        invariant cache == old(cache)
        invariant State() == Land(keys[..n], old(State()))
      {
        var key := keys[n];
        assert keys[..n + 1][..n] == keys[..n];
        if key in inFlight && inFlight[key] < |flights| {
          var f := inFlight[key];
          inFlight := inFlight - {key};
          flights := flights[f := flights[f].(landed := true, failed := key !in cache)];
        }
      }
      assert keys[..|keys|] == keys;
    }
  }
}
