/** One pass of a job over a session: a reader program run speculatively,
    blocking, or aborted part way, against the plain run it must equal. */
module Passes {
  import opened Chain
  import opened Fetch
  import opened Engine

  /** What a client is told. */
  datatype Reply =
    | Ack
    | UnknownSession
    | AccountReply(info: Option<AccountInfo>)
    | WordReply(word: Word)
    | CodeReply(bytes: seq<nat>)
    | ReadError(cause: Answer)
    | Executed(output: seq<nat>)
    | Rejected(reason: seq<nat>)
    | StateReply(state: Layer, number: nat)
    | BlockNumberTooLarge
    | BranchReply(child: SessionData)
    | EnvReply(env: BlockEnv)

  /** A deterministic reader of session state: execution, seen from the
      database. It asks, and what it does next depends on all it was told;
      answers outside `next` go to `otherwise`. `Done` carries the diff to
      write if the job is to write one; a rejected execution has none. */
  datatype Program =
    | Done(reply: Reply, diff: Option<Diff>)
    | Read(query: Query, next: imap<Answer, Program>, otherwise: Program)
  {
    function Next(a: Answer): (p: Program)
      requires Read?
      ensures p < this
    {
      if a in next then next[a] else otherwise
    }
  }

  datatype PassResult = PassResult(reply: Reply, diff: Option<Diff>, session: SessionData, fetcher: Fetcher)

  /** `p` run to its end against `s`, reading through the fork's cache. */
  function RunPass(w: World, p: Program, s: SessionData, f: Fetcher): PassResult
    decreases p
  {
    if p.Done? then PassResult(p.reply, p.diff, s, f)
    else
      var (a, s', f') := Ask(w, s, f, p.query);
      RunPass(w, p.Next(a), s', f')
  }

  /** Session and reader after at most `n` of `p`'s reads: a pass that a panic
      cut short. */
  function Aborted(w: World, p: Program, s: SessionData, f: Fetcher, n: nat): (SessionData, Fetcher)
    decreases n
  {
    if p.Done? || n == 0 then (s, f)
    else
      var (a, s', f') := Ask(w, s, f, p.query);
      Aborted(w, p.Next(a), s', f', n - 1)
  }

  // ---- The plain run: no cache, no placeholder, every read real ----

  /** One read that goes straight to upstream; `fault` says it fails there. */
  function AskPlain(up: Upstream, s: SessionData, q: Query, fault: bool): (Answer, SessionData) {
    if Local(s, q).Some? then (Local(s, q).value, s)
    else if q.CodeQ? then
      match up.code(q.hash)
      case Some(code) => (CodeA(code), Remember(s, q, CodeA(code)))
      case None => (CodeMissA(q.hash), s)
    else if fault then (OnFailure(q), s)
    else (ToAnswer(up.Truth(KeyOf(q))), Remember(s, q, ToAnswer(up.Truth(KeyOf(q)))))
  }

  datatype PlainResult = PlainResult(reply: Reply, diff: Option<Diff>, session: SessionData)

  /** `p` run with real reads; `faults` are the reads that fail, counted
      from `i`. */
  function RunPlain(up: Upstream, p: Program, s: SessionData, faults: set<nat>, i: nat): PlainResult
    decreases p
  {
    if p.Done? then PlainResult(p.reply, p.diff, s)
    else
      var (a, s') := AskPlain(up, s, p.query, i in faults);
      RunPlain(up, p.Next(a), s', faults, i + 1)
  }

  /** The answer to `q` in `s`'s view: its own writes over upstream. */
  function Look(up: Upstream, s: SessionData, q: Query): Answer {
    AskPlain(up, s, q, false).0
  }

  /** `p`'s outcome when every read is answered from the one view of `s`. */
  function Eval(up: Upstream, p: Program, s: SessionData): (Reply, Option<Diff>)
    decreases p
  {
    if p.Done? then (p.reply, p.diff)
    else Eval(up, p.Next(Look(up, s, p.query)), s)
  }

  ghost predicate SameView(up: Upstream, s: SessionData, t: SessionData) {
    forall q :: Look(up, s, q) == Look(up, t, q)
  }

  /** Caching one answer changes no other: only its own key is now held, with
      the value a read would give. */
  lemma RememberKeepsLook(up: Upstream, s: SessionData, q: Query, a: Answer, other: Query)
    requires Local(s, q).None? && a == Look(up, s, q)
    ensures Look(up, Remember(s, q, a), other) == Look(up, s, other)
  {
  }

  lemma AskPlainKeepsView(up: Upstream, s: SessionData, q: Query, fault: bool)
    ensures SameView(up, s, AskPlain(up, s, q, fault).1)
  {
    forall other
      ensures Look(up, s, other) == Look(up, AskPlain(up, s, q, fault).1, other)
    {
      if AskPlain(up, s, q, fault).1 != s {
        RememberKeepsLook(up, s, q, Look(up, s, q), other);
      }
    }
  }

  /** Caching what a run read changes nothing it, or a later run, will read;
      the fault-free run answers as if from one fixed view. */
  lemma {:induction false} PlainRunKeepsView(up: Upstream, p: Program, s: SessionData, faults: set<nat>, i: nat)
    ensures SameView(up, s, RunPlain(up, p, s, faults, i).session)
    ensures faults == {} ==> var r := RunPlain(up, p, s, faults, i); (r.reply, r.diff) == Eval(up, p, s)
    decreases p
  {
    if p.Read? {
      var (a, s') := AskPlain(up, s, p.query, i in faults);
      AskPlainKeepsView(up, s, p.query, i in faults);
      PlainRunKeepsView(up, p.Next(a), s', faults, i + 1);
      if faults == {} {
        SameViewSameEval(up, p.Next(a), s, s');
      }
    }
  }

  lemma {:induction false} SameViewSameEval(up: Upstream, p: Program, s: SessionData, t: SessionData)
    requires SameView(up, s, t)
    ensures Eval(up, p, s) == Eval(up, p, t)
    decreases p
  {
    if p.Read? {
      assert Look(up, s, p.query) == Look(up, t, p.query);
      SameViewSameEval(up, p.Next(Look(up, s, p.query)), s, t);
    }
  }

  /** What a commit does to the view: the diff's entries, and nothing else. */
  lemma CommitView(up: Upstream, s: SessionData, d: Diff, q: Query)
    ensures Look(up, Committed(s, d), q) ==
      match q
      case AccountQ(a) => if a in d.accounts then AccountA(Some(d.accounts[a])) else Look(up, s, q)
      case StorageQ(a, i) => if (a, i) in d.storage then WordA(d.storage[(a, i)]) else Look(up, s, q)
      case _ => Look(up, s, q)
  {
    var t := Committed(s, d);
    match q
    case AccountQ(a) => assert a in t.overlay.accounts <==> a in s.overlay.accounts || a in d.accounts;
    case StorageQ(a, i) => assert (a, i) in t.overlay.storage <==> (a, i) in s.overlay.storage || (a, i) in d.storage;
    case _ =>
  }

  // ---- A pass against the plain run ----

  /** Whether the pass's next read reaches upstream and fails there. */
  predicate AskFails(w: World, s: SessionData, f: Fetcher, q: Query) {
    Local(s, q).None? && !q.CodeQ? && ReadFails(w, f, KeyOf(q))
  }

  /** Which of a pass's reads failed upstream. */
  ghost function FaultsOf(w: World, p: Program, s: SessionData, f: Fetcher, i: nat): set<nat>
    decreases p
  {
    if p.Done? then {}
    else
      var (a, s', f') := Ask(w, s, f, p.query);
      (if AskFails(w, s, f, p.query) then {i} else {}) + FaultsOf(w, p.Next(a), s', f', i + 1)
  }

  /** One read of a pass: unless it is recorded as a miss, it answers and
      caches exactly what a plain read does. */
  lemma AskMatchesPlain(w: World, s: SessionData, f: Fetcher, q: Query)
    requires Truthful(w.up, f.cache)
    ensures var (a, s', f') := Ask(w, s, f, q);
      && Truthful(w.up, f'.cache) && f.cache.Keys <= f'.cache.Keys
      && (f'.misses == f.misses ==> (a, s') == AskPlain(w.up, s, q, AskFails(w, s, f, q)))
      && (f'.misses != f.misses ==>
            f.misses.Some? && Local(s, q).None? && !q.CodeQ? && KeyOf(q) !in f.cache &&
              f'.misses == Some(f.misses.value + [KeyOf(q)]))
      && (AskFails(w, s, f, q) ==> f.misses.None? && w.fails(f.clock))
  {
    if Local(s, q).None? && !q.CodeQ? {
      ReadRefSound(w, f, KeyOf(q));
    }
  }

  // ---- Reads upstream does not answer ----

  /** A key neither held nor cached, nor just landed by another thread. */
  predicate Uncached(w: World, s: SessionData, f: Fetcher, q: Query) {
    !q.CodeQ? && Local(s, q).None? && KeyOf(q) !in f.cache && KeyOf(q) !in w.lands(f.clock)
  }

  /** A read that upstream fails: a slot reads as zero, anything else is an
      error; and neither session nor cache has it afterwards. */
  lemma FailedRead(w: World, s: SessionData, f: Fetcher, q: Query)
    requires Uncached(w, s, f, q) && f.misses.None? && w.fails(f.clock)
    ensures var (a, s', f') := Ask(w, s, f, q);
      && a == (if q.StorageQ? then WordA(0) else FallbackErrorA)
      && s' == s && f'.misses.None? && f'.cache.Keys == f.cache.Keys + w.lands(f.clock) && KeyOf(q) !in f'.cache
  {
  }

  /** The same in the plain run. */
  lemma FailedPlainRead(up: Upstream, s: SessionData, q: Query)
    requires !q.CodeQ? && Local(s, q).None?
    ensures AskPlain(up, s, q, true) == (if q.StorageQ? then WordA(0) else FallbackErrorA, s)
  {
  }

  /** A read a speculating thread would have to wait for: it is noted, nothing
      is fetched, and the pass goes on as if nothing were there. */
  lemma MissedRead(w: World, s: SessionData, f: Fetcher, q: Query)
    requires Uncached(w, s, f, q) && f.misses.Some?
    ensures var (a, s', f') := Ask(w, s, f, q);
      && a == (if q.AccountQ? then AccountA(None) else if q.StorageQ? then WordA(0) else HashA(0))
      && f'.misses == Some(f.misses.value + [KeyOf(q)])
      && f'.cache.Keys == f.cache.Keys + w.lands(f.clock)
  {
  }

  /** Another thread landed `k` before one of this thread's reads. */
  ghost predicate LandedMeanwhile(w: World, first: nat, end: nat, k: StateKey) {
    exists n: nat :: first <= n < end && k in w.lands(n)
  }

  /** A speculating pass never waits on upstream: all it finds in the cache was
      there before, or another thread landed it meanwhile; and it is the same
      whatever upstream would have failed. */
  lemma {:induction false} SpeculationNeverFetches(w: World, fails: nat -> bool, p: Program, s: SessionData, f: Fetcher)
    requires f.misses.Some?
    ensures var f' := RunPass(w, p, s, f).fetcher;
      && f'.misses.Some? && f.clock <= f'.clock
      && forall k :: k in f'.cache ==> k in f.cache || LandedMeanwhile(w, f.clock, f'.clock, k)
    ensures RunPass(w.(fails := fails), p, s, f) == RunPass(w, p, s, f)
    decreases p
  {
    if p.Read? {
      var (a, s', f') := Ask(w, s, f, p.query);
      SpeculationNeverFetches(w, fails, p.Next(a), s', f');
      forall k | k in RunPass(w, p.Next(a), s', f').fetcher.cache
        ensures k in f.cache || LandedMeanwhile(w, f.clock, RunPass(w, p, s, f).fetcher.clock, k)
      {
        if k in f'.cache && k !in f.cache {
          assert f.clock < f'.clock && k in w.lands(f.clock);
        }
      }
    }
  }

  /** What a pass misses was not cached when it began. */
  lemma {:induction false} MissesWereUncached(w: World, p: Program, s: SessionData, f: Fetcher, k: StateKey)
    requires Truthful(w.up, f.cache) && f.misses.Some?
    requires k in MissesOf(RunPass(w, p, s, f).fetcher) && k !in f.misses.value
    ensures k !in f.cache
    decreases p
  {
    if p.Read? {
      AskMatchesPlain(w, s, f, p.query);
      var (a, s', f') := Ask(w, s, f, p.query);
      if k !in f'.misses.value {
        MissesWereUncached(w, p.Next(a), s', f', k);
      }
    }
  }

  /** What an upstream read told is held from then on, unless it is that there
      is no such account, or a block's hash. */
  lemma AnsweredIsHeld(up: Upstream, s: SessionData, q: Query)
    requires Local(s, q).None?
    ensures var (a, s') := AskPlain(up, s, q, false);
      Local(s', q) == if a == AccountA(None) || q.BlockHashQ? || a.CodeMissA? then None else Some(a)
  {
  }

  /** Misses are only ever added, and the cache only grows. */
  lemma {:induction false} PassOnlyAdds(w: World, p: Program, s: SessionData, f: Fetcher)
    requires Truthful(w.up, f.cache)
    ensures var f' := RunPass(w, p, s, f).fetcher;
      && Truthful(w.up, f'.cache) && f.cache.Keys <= f'.cache.Keys
      && f'.misses.Some? == f.misses.Some?
      && (f.misses.Some? ==> f.misses.value <= f'.misses.value)
    decreases p
  {
    if p.Read? {
      AskMatchesPlain(w, s, f, p.query);
      var (a, s', f') := Ask(w, s, f, p.query);
      PassOnlyAdds(w, p.Next(a), s', f');
    }
  }

  lemma {:induction false} FaultsFrom(w: World, p: Program, s: SessionData, f: Fetcher, i: nat)
    ensures forall n :: n in FaultsOf(w, p, s, f, i) ==> i <= n
    decreases p
  {
    if p.Read? {
      var (a, s', f') := Ask(w, s, f, p.query);
      FaultsFrom(w, p.Next(a), s', f', i + 1);
    }
  }

  /** A plain run only looks at the faults from where it stands. */
  lemma {:induction false} PlainIgnoresPast(up: Upstream, p: Program, s: SessionData, a: set<nat>, b: set<nat>, i: nat)
    requires forall n :: i <= n ==> (n in a <==> n in b)
    ensures RunPlain(up, p, s, a, i) == RunPlain(up, p, s, b, i)
    decreases p
  {
    if p.Read? {
      var (x, s') := AskPlain(up, s, p.query, i in a);
      PlainIgnoresPast(up, p.Next(x), s', a, b, i + 1);
    }
  }

  /** A pass that recorded no miss computed exactly what the plain run does:
      same reply, same diff, same session, whatever other threads landed in
      the cache meanwhile. A speculating pass has no faults at all. */
  lemma {:induction false} UnmissedPassIsPlain(w: World, p: Program, s: SessionData, f: Fetcher, i: nat)
    requires Truthful(w.up, f.cache)
    requires RunPass(w, p, s, f).fetcher.misses == f.misses
    ensures var r := RunPass(w, p, s, f);
      PlainResult(r.reply, r.diff, r.session) == RunPlain(w.up, p, s, FaultsOf(w, p, s, f, i), i)
    ensures f.misses.Some? || (forall n :: !w.fails(n)) ==> FaultsOf(w, p, s, f, i) == {}
    decreases p
  {
    if p.Read? {
      AskMatchesPlain(w, s, f, p.query);
      var (a, s', f') := Ask(w, s, f, p.query);
      PassOnlyAdds(w, p.Next(a), s', f');
      UnmissedPassIsPlain(w, p.Next(a), s', f', i + 1);
      FaultsFrom(w, p.Next(a), s', f', i + 1);
      var (all, rest) := (FaultsOf(w, p, s, f, i), FaultsOf(w, p.Next(a), s', f', i + 1));
      assert i in all <==> AskFails(w, s, f, p.query);
      PlainIgnoresPast(w.up, p.Next(a), s', rest, all, i + 1);
    }
  }

  // ---- Rolling a pass back ----

  /** The overlay now is the overlay at the start plus the logged keys, and
      the two are disjoint. */
  ghost predicate RollsBackTo(s: SessionData, s0: SessionData) {
    && s.log.Some?
    && s0 == s.(log := s0.log, overlay := s0.overlay)
    && Without(s.overlay, s.log.value) == s0.overlay
    && Without(s0.overlay, s.log.value) == s0.overlay
  }

  /** A read only ever caches a key the overlay does not hold. */
  lemma RememberRollsBack(s: SessionData, s0: SessionData, q: Query, a: Answer)
    requires RollsBackTo(s, s0) && Local(s, q).None?
    ensures RollsBackTo(Remember(s, q, a), s0)
  {
    var s' := Remember(s, q, a);
    if s' != s {
      var log := s.log.value;
      var key := s'.log.value[|log|];
      assert s'.log.value == log + [key];
      assert Forget(s'.overlay, key) == s.overlay;
      ForgetOneMore(s'.overlay, log, key);
      assert Forget(s.overlay, key) == s.overlay;
      ForgetOneMore(s.overlay, log, key);
      ForgetOneMore(s0.overlay, log, key);
    }
  }

  /** Wherever a speculative pass stops, forgetting its log undoes it. */
  lemma {:induction false} AbortedRollsBack(w: World, p: Program, s: SessionData, f: Fetcher, s0: SessionData, n: nat)
    requires RollsBackTo(s, s0)
    ensures RollsBackTo(Aborted(w, p, s, f, n).0, s0)
    decreases n
  {
    if p.Read? && n > 0 {
      var (a, s', f') := Ask(w, s, f, p.query);
      if s' != s {
        RememberRollsBack(s, s0, p.query, a);
      }
      AbortedRollsBack(w, p.Next(a), s', f', s0, n - 1);
    }
  }

  lemma {:induction false} PassRollsBack(w: World, p: Program, s: SessionData, f: Fetcher, s0: SessionData)
    requires RollsBackTo(s, s0)
    ensures RollsBackTo(RunPass(w, p, s, f).session, s0)
    decreases p
  {
    if p.Read? {
      var (a, s', f') := Ask(w, s, f, p.query);
      if s' != s {
        RememberRollsBack(s, s0, p.query, a);
      }
      PassRollsBack(w, p.Next(a), s', f', s0);
    }
  }

  /** `Begin` then `End(false)` around a pass, whole or cut short by a panic
      after any number of reads, gives back the very session it started from. */
  lemma RollbackIsExact(w: World, p: Program, s: SessionData, f: Fetcher, n: nat)
    requires s.log == None
    ensures SpeculationEnded(RunPass(w, p, Speculating(s), f).session, false) == s
    ensures SpeculationEnded(Aborted(w, p, Speculating(s), f, n).0, false) == s
  {
    assert Without(s.overlay, []) == s.overlay;
    PassRollsBack(w, p, Speculating(s), f, s);
    AbortedRollsBack(w, p, Speculating(s), f, s, n);
  }

  // ---- One attempt: a pass and what is kept of it ----

  datatype Attempt =
    | Finished(reply: Reply, diff: Option<Diff>, session: SessionData, fetcher: Fetcher)
    | Missed(keys: set<StateKey>, session: SessionData, fetcher: Fetcher)

  function MissesOf(f: Fetcher): seq<StateKey> {
    if f.misses.Some? then f.misses.value else []
  }

  /** One try at `p`. A blocking one always finishes; a speculative one
      finishes if it missed nothing, and is rolled back if it did. What it
      missed is a set here, sorted and freed of duplicates in the source. */
  function Attempted(w: World, p: Program, s: SessionData, f: Fetcher, blocking: bool): Attempt {
    if blocking then
      var r := RunPass(w, p, s, f);
      Finished(r.reply, r.diff, r.session, r.fetcher)
    else
      var r := RunPass(w, p, Speculating(s), f.(misses := Some([])));
      var misses := MissesOf(r.fetcher);
      var s' := SpeculationEnded(r.session, misses == []);
      var f' := r.fetcher.(misses := f.misses);
      if misses == [] then Finished(r.reply, r.diff, s', f')
      else Missed((set k | k in misses), s', f')
  }

  /** The reads an attempt saw fail. */
  ghost function AttemptFaults(w: World, p: Program, s: SessionData, f: Fetcher, blocking: bool): set<nat> {
    if blocking then FaultsOf(w, p, s, f, 0) else {}
  }

  /** The log is only ever written. */
  lemma {:induction false} LogIsInert(up: Upstream, p: Program, s: SessionData, log: Option<seq<ReadKey>>,
                                      faults: set<nat>, i: nat)
    ensures var (r, r') := (RunPlain(up, p, s, faults, i), RunPlain(up, p, s.(log := log), faults, i));
      r'.(session := r'.session.(log := None)) == r.(session := r.session.(log := None))
    ensures s.log.None? ==> RunPlain(up, p, s, faults, i).session.log.None?
    decreases p
  {
    if p.Read? {
      var (a, s') := AskPlain(up, s, p.query, i in faults);
      var (a', t') := AskPlain(up, s.(log := log), p.query, i in faults);
      assert a == a' && t' == s'.(log := t'.log);
      LogIsInert(up, p.Next(a), s', t'.log, faults, i + 1);
    }
  }

  /** The upstream keys `p` reads when every read is real. */
  function TruePath(up: Upstream, p: Program, s: SessionData): set<StateKey>
    decreases p
  {
    if p.Done? then {}
    else
      var (a, s') := AskPlain(up, s, p.query, false);
      (if Local(s, p.query).None? && !p.query.CodeQ? then {KeyOf(p.query)} else {}) + TruePath(up, p.Next(a), s')
  }

  /** Placeholders only ever come after it: the first key a pass misses is
      one the program truly reads, and was not cached when the pass began. */
  lemma {:induction false} FirstMissIsOnTruePath(w: World, p: Program, s: SessionData, f: Fetcher)
    requires Truthful(w.up, f.cache) && f.misses.Some?
    requires RunPass(w, p, s, f).fetcher.misses != f.misses
    ensures var (before, after) := (f.misses.value, MissesOf(RunPass(w, p, s, f).fetcher));
      && before < after
      && after[|before|] in TruePath(w.up, p, s) && after[|before|] !in f.cache
    decreases p
  {
    PassOnlyAdds(w, p, s, f);
    if p.Read? {
      AskMatchesPlain(w, s, f, p.query);
      var (a, s', f') := Ask(w, s, f, p.query);
      PassOnlyAdds(w, p.Next(a), s', f');
      if f'.misses == f.misses {
        FirstMissIsOnTruePath(w, p.Next(a), s', f');
      }
    }
  }

  lemma {:induction false} TruePathIgnoresLog(up: Upstream, p: Program, s: SessionData, log: Option<seq<ReadKey>>)
    ensures TruePath(up, p, s.(log := log)) == TruePath(up, p, s)
    decreases p
  {
    if p.Read? {
      var (a, s') := AskPlain(up, s, p.query, false);
      var (a', t') := AskPlain(up, s.(log := log), p.query, false);
      assert a == a' && t' == s'.(log := t'.log);
      TruePathIgnoresLog(up, p.Next(a), s', t'.log);
    }
  }

  /** An attempt either is the plain run, or changes nothing and hands back a
      key the job truly needs and did not have. */
  lemma AttemptIsPlainOrNothing(w: World, p: Program, s: SessionData, f: Fetcher, blocking: bool)
    requires Truthful(w.up, f.cache) && s.log == None && f.misses == None
    ensures var r := Attempted(w, p, s, f, blocking);
      && Truthful(w.up, r.fetcher.cache) && f.cache.Keys <= r.fetcher.cache.Keys && r.fetcher.misses == None
      && match r
         case Finished(reply, diff, s', _) =>
           PlainResult(reply, diff, s') == RunPlain(w.up, p, s, AttemptFaults(w, p, s, f, blocking), 0) &&
             s'.log == None
         case Missed(keys, s', _) =>
           !blocking && s' == s && exists k :: k in keys && k in TruePath(w.up, p, s) && k !in f.cache
    ensures !blocking || (forall n :: !w.fails(n)) ==> AttemptFaults(w, p, s, f, blocking) == {}
  {
    if blocking {
      PassOnlyAdds(w, p, s, f);
      UnmissedPassIsPlain(w, p, s, f, 0);
      LogIsInert(w.up, p, s, None, FaultsOf(w, p, s, f, 0), 0);
    } else {
      var (s1, f1) := (Speculating(s), f.(misses := Some([])));
      PassOnlyAdds(w, p, s1, f1);
      if MissesOf(RunPass(w, p, s1, f1).fetcher) == [] {
        UnmissedPassIsPlain(w, p, s1, f1, 0);
        LogIsInert(w.up, p, s, Some([]), {}, 0);
      } else {
        FirstMissIsOnTruePath(w, p, s1, f1);
        TruePathIgnoresLog(w.up, p, s, Some([]));
        RollbackIsExact(w, p, s, f1, 0);
      }
    }
  }

  /** What a job still has to fetch, at most. */
  ghost function Outstanding(up: Upstream, p: Program, s: SessionData, cache: Cache): nat {
    |TruePath(up, p, s) - cache.Keys|
  }

  lemma OutstandingShrinks(up: Upstream, p: Program, s: SessionData, cache: Cache, cache': Cache)
    requires cache.Keys <= cache'.Keys
    ensures Outstanding(up, p, s, cache') <= Outstanding(up, p, s, cache)
    ensures (exists k :: k in TruePath(up, p, s) && k !in cache && k in cache') ==>
              Outstanding(up, p, s, cache') < Outstanding(up, p, s, cache)
  {
    var (before, after) := (TruePath(up, p, s) - cache.Keys, TruePath(up, p, s) - cache'.Keys);
    assert before == after + (before - after);
    if k :| k in TruePath(up, p, s) && k !in cache && k in cache' {
      assert k in before - after;
    }
  }

  /** `tries` are the readers at the start of a job's passes so far, all
      dirty: between one and the next, its misses were fetched and the shared
      cache may have gained anything else. */
  ghost predicate Retries(w: World, p: Program, s: SessionData, tries: seq<Fetcher>) {
    && (forall i :: 0 <= i < |tries| ==>
          Truthful(w.up, tries[i].cache) && tries[i].misses == None && Attempted(w, p, s, tries[i], false).Missed?)
    && (forall i :: 0 <= i < |tries| - 1 ==>
          Attempted(w, p, s, tries[i], false).keys + Attempted(w, p, s, tries[i], false).fetcher.cache.Keys <=
            tries[i + 1].cache.Keys)
  }

  /** Each retry gets strictly further: a job has at most as many dirty passes
      as its true path had keys missing from the cache at the first. */
  lemma {:induction false} DirtyPassesAreBounded(w: World, p: Program, s: SessionData, tries: seq<Fetcher>)
    requires s.log == None && tries != [] && Retries(w, p, s, tries)
    ensures |tries| <= Outstanding(w.up, p, s, tries[0].cache)
  {
    if |tries| == 1 {
      RetryGetsFurther(w, p, s, tries[0],
                       tries[0].cache + map k | k in Attempted(w, p, s, tries[0], false).keys +
                                                     Attempted(w, p, s, tries[0], false).fetcher.cache.Keys ::
                                          w.up.Truth(k));
    } else {
      RetryGetsFurther(w, p, s, tries[0], tries[1].cache);
      DirtyPassesAreBounded(w, p, s, tries[1..]);
    }
  }

  /** With what a dirty pass missed fetched, less is outstanding. */
  lemma RetryGetsFurther(w: World, p: Program, s: SessionData, f: Fetcher, next: Cache)
    requires s.log == None && Truthful(w.up, f.cache) && f.misses == None && Attempted(w, p, s, f, false).Missed?
    requires Attempted(w, p, s, f, false).keys + Attempted(w, p, s, f, false).fetcher.cache.Keys <= next.Keys
    ensures Outstanding(w.up, p, s, next) < Outstanding(w.up, p, s, f.cache)
  {
    AttemptIsPlainOrNothing(w, p, s, f, false);
    OutstandingShrinks(w.up, p, s, f.cache, next);
  }

  lemma {:induction false} NotSpeculatingStays(w: World, p: Program, s: SessionData, f: Fetcher)
    requires f.misses == None
    ensures RunPass(w, p, s, f).fetcher.misses == None
    decreases p
  {
    if p.Read? {
      var (a, s', f') := Ask(w, s, f, p.query);
      NotSpeculatingStays(w, p.Next(a), s', f');
    }
  }

  /** An attempt leaves its session on its fork and in its block. */
  lemma {:induction false} PassStays(w: World, p: Program, s: SessionData, f: Fetcher)
    ensures RunPass(w, p, s, f).session.fork == s.fork && RunPass(w, p, s, f).session.env == s.env
    decreases p
  {
    if p.Read? {
      var (a, s', f') := Ask(w, s, f, p.query);
      PassStays(w, p.Next(a), s', f');
    }
  }

  lemma AttemptStays(w: World, p: Program, s: SessionData, f: Fetcher, blocking: bool)
    ensures Attempted(w, p, s, f, blocking).session.fork == s.fork &&
            Attempted(w, p, s, f, blocking).session.env == s.env
  {
    PassStays(w, p, s, f);
    PassStays(w, p, Speculating(s), f.(misses := Some([])));
  }
}
