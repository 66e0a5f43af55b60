/** Every retry of a parked job gets strictly further: a job never has more
    speculative passes than its true path had keys missing from the cache. */
module WorkerProgress {
  import opened Chain
  import opened Collections
  import opened Fetch
  import opened Engine
  import opened Passes
  import opened WorkerModel
  import opened WorkerInvariant

  ghost function Cached(c: Config, fork: ForkId): set<StateKey> {
    Reader(c, fork).cache.Keys
  }

  /** What a job on a session truly reads upstream, and how many keys a set
      has: passed as one value, so that statements speak of neither's inside. */
  datatype Measure = Measure(needs: (SessionData, Job) -> set<StateKey>, size: set<StateKey> -> nat)

  ghost function MeasureBy(worlds: Worlds): Measure {
    Measure((s: SessionData, job: Job) =>
              if Reading(job) then TruePath(worlds(s.fork).up, JobProgram(job, s.env), s) else {},
            (keys: set<StateKey>) => |keys|)
  }

  ghost predicate Fits(m: Measure, a: set<StateKey>, b: set<StateKey>) {
    a <= b ==> m.size(a) <= m.size(b) && (a != b ==> m.size(a) < m.size(b))
  }

  ghost predicate Counts(m: Measure) {
    forall a, b :: Fits(m, a, b)
  }

  lemma MeasureCounts(worlds: Worlds)
    ensures Counts(MeasureBy(worlds))
  {
    forall a: set<StateKey>, b: set<StateKey>
      ensures Fits(MeasureBy(worlds), a, b)
    {
      if a <= b {
        SubsetFits(a, b);
      }
    }
  }

  /** A session parked with its front job still to read. */
  ghost predicate Waits(c: Config, id: SessionId) {
    id in c.blocked && id in c.sessions && c.blocked[id].queue != [] && Reading(c.blocked[id].queue[0])
  }

  /** What the front job needs and will not find cached when it is woken by a
      resolve that succeeds. */
  ghost function Lacks(m: Measure, c: Config, id: SessionId): set<StateKey>
    requires Waits(c, id)
  {
    var s := c.sessions[id];
    m.needs(s, c.blocked[id].queue[0]) - Cached(c, s.fork) - if id in c.resolving then c.resolving[id].keys else {}
  }

  ghost predicate Woken(c: Config, id: SessionId, failed: bool) {
    Unblock(id, failed) in c.inbox
  }

  /** What counts of a parked session. */
  datatype Wait = Wait(rounds: nat, lacks: nat, resolving: bool, ownFork: bool, woken: bool, wokenFailed: bool)

  ghost function WaitOf(m: Measure, c: Config, id: SessionId): Wait
    requires Waits(c, id)
  {
    Wait(c.blocked[id].rounds, m.size(Lacks(m, c, id)), id in c.resolving,
         id in c.resolving && c.resolving[id].fork == Some(c.sessions[id].fork),
         Woken(c, id, false), Woken(c, id, true))
  }

  /** The front job has had at most `total` passes; and, while a wake-up that
      may succeed is outstanding, will have had after all it lacks. */
  predicate Paid(w: Wait, total: nat) {
    && w.rounds <= total
    && (w.resolving || w.woken ==> w.rounds + w.lacks <= total)
    && (w.resolving ==> w.ownFork && !w.woken && !w.wokenFailed)
  }

  ghost predicate OnBudget(m: Measure, c: Config, id: SessionId, total: nat)
    requires Waits(c, id)
  {
    Paid(WaitOf(m, c, id), total)
  }

  // ---- Steps that do not run the session's own jobs ----

  ghost predicate CachesGrow(c: Config, c': Config) {
    forall fork :: Cached(c, fork) <= Cached(c', fork)
  }

  /** Nothing of `id` changed but what is behind its front job, and maybe the
      session is gone. */
  ghost predicate Untouched(c: Config, c': Config, id: SessionId) {
    && CachesGrow(c, c')
    && (id in c'.sessions ==> id in c.sessions && c'.sessions[id] == c.sessions[id])
    && (id in c.blocked <==> id in c'.blocked)
    && (id in c.blocked && c.blocked[id].queue != [] ==>
          c'.blocked[id].queue != [] && c'.blocked[id].queue[0] == c.blocked[id].queue[0] &&
            c'.blocked[id].rounds == c.blocked[id].rounds)
    && Get(c'.resolving, id) == Get(c.resolving, id)
    && (Woken(c', id, false) ==> Woken(c, id, false)) && (Woken(c', id, true) ==> Woken(c, id, true))
  }

  lemma UntouchedKeeps(m: Measure, c: Config, c': Config, id: SessionId, total: nat)
    requires Counts(m) && Waits(c, id) && OnBudget(m, c, id, total) && Untouched(c, c', id) && id in c'.sessions
    ensures Waits(c', id) && OnBudget(m, c', id, total)
  {
    assert Fits(m, Lacks(m, c', id), Lacks(m, c, id));
  }

  lemma UntouchedTwice(c: Config, c1: Config, c2: Config, id: SessionId)
    requires Untouched(c, c1, id) && Untouched(c1, c2, id) && (id in c.blocked ==> c.blocked[id].queue != [])
    ensures Untouched(c, c2, id)
  {
    forall fork
      ensures Cached(c, fork) <= Cached(c2, fork)
    {
      assert Cached(c, fork) <= Cached(c1, fork) && Cached(c1, fork) <= Cached(c2, fork);
    }
  }

  lemma {:induction false} PassGrows(w: World, p: Program, s: SessionData, f: Fetcher)
    ensures f.cache.Keys <= RunPass(w, p, s, f).fetcher.cache.Keys
    decreases p
  {
    if p.Read? {
      var (a, s', f') := Ask(w, s, f, p.query);
      PassGrows(w, p.Next(a), s', f');
    }
  }

  /** Running a job of one session leaves every other alone. */
  lemma HandleLeavesOthers(worlds: Worlds, c: Config, job: Job, blocking: bool, id: SessionId)
    requires id != job.id
    ensures Untouched(c, Handle(worlds, c, job, blocking).c, id)
  {
    HandleGrows(worlds, c, job, blocking);
    OneSessionRan(c, Handle(worlds, c, job, blocking).c, id);
  }

  lemma OneSessionRan(c: Config, c': Config, id: SessionId)
    requires CachesGrow(c, c') && c'.blocked == c.blocked && c'.inbox == c.inbox && c'.resolving == c.resolving
    requires Get(c'.sessions, id) == Get(c.sessions, id)
    ensures Untouched(c, c', id)
  {
  }

  lemma AttemptGrows(w: World, p: Program, s: SessionData, f: Fetcher, blocking: bool)
    ensures f.cache.Keys <= Attempted(w, p, s, f, blocking).fetcher.cache.Keys
  {
    PassGrows(w, p, s, f);
    PassGrows(w, p, Speculating(s), f.(misses := Some([])));
  }

  /** What answering or deferring a job may change. */
  ghost predicate RanOne(c: Config, c': Config, ran: SessionId) {
    && CachesGrow(c, c') && c'.resolving == c.resolving
    && forall id :: id != ran ==> Get(c'.sessions, id) == Get(c.sessions, id)
  }

  lemma ConcludeGrows(c: Config, job: Job, fork: ForkId, r: Attempt, faults: set<nat>, blocking: bool)
    requires Cached(c, fork) <= r.fetcher.cache.Keys
    ensures RanOne(c, Conclude(c, job, fork, r, faults, blocking).c, job.id)
  {
  }

  lemma SimpleGrows(c: Config, job: Job, session: Option<SessionData>, reply: Reply)
    ensures RanOne(c, RecordSimple(c, job, session, reply), job.id)
  {
  }

  lemma HandleGrows(worlds: Worlds, c: Config, job: Job, blocking: bool)
    ensures RanOne(c, Handle(worlds, c, job, blocking).c, job.id)
  {
    if !Reading(job) {
      var (s, reply) := HandleJob(job, Get(c.sessions, job.id));
      SimpleGrows(c, job, s, reply);
    } else if job.id in c.sessions {
      var s := c.sessions[job.id];
      var (w, f, p) := (worlds(s.fork), Reader(c, s.fork), JobProgram(job, s.env));
      AttemptGrows(w, p, s, f, blocking);
      ConcludeGrows(c, job, s.fork, Attempted(w, p, s, f, blocking), AttemptFaults(w, p, s, f, blocking), blocking);
    }
  }

  lemma ParkLeavesOthers(c: Config, job: Job, keys: set<StateKey>, b: Blocked, spawned: bool, id: SessionId)
    requires id != job.id
    ensures Untouched(c, Park(c, job, keys, b, spawned), id)
  {
  }

  lemma {:induction false} QueueLeavesOthers(worlds: Worlds, c: Config, queue: seq<Job>, rounds: nat, blocking: bool,
                                             spawned: bool,
                                             id: SessionId)
    requires (forall j :: j in queue ==> j.id != id) && (id in c.blocked ==> c.blocked[id].queue != [])
    ensures Untouched(c, RunQueue(worlds, c, queue, rounds, blocking, spawned), id)
    decreases |queue|
  {
    if queue != [] {
      HandleLeavesOthers(worlds, c, queue[0], blocking, id);
      match Handle(worlds, c, queue[0], blocking)
      case Handled(c1) =>
        QueueLeavesOthers(worlds, c1, queue[1..], 0, false, spawned, id);
        UntouchedTwice(c, c1, RunQueue(worlds, c1, queue[1..], 0, false, spawned), id);
      case Deferred(c1, keys) =>
        ParkLeavesOthers(c1, queue[0], keys, Blocked(queue[1..], rounds), spawned, id);
        UntouchedTwice(c, c1, Park(c1, queue[0], keys, Blocked(queue[1..], rounds), spawned), id);
    }
  }

  // ---- The session's own jobs ----

  /** Some of `keys` is truly read by `job`, and was not cached. */
  ghost predicate FoundMissing(m: Measure, c: Config, s: SessionData, job: Job, keys: set<StateKey>) {
    exists k :: k in keys && k in m.needs(s, job) && k !in Cached(c, s.fork)
  }

  /** A deferred pass changed nothing but the cache, and found missing a key
      the job needs that was not cached when it began. */
  lemma DeferredFinds(worlds: Worlds, c: Config, job: Job, blocking: bool)
    requires ReadersOk(worlds, c) && (job.id in c.sessions ==> c.sessions[job.id].log == None)
    requires Handle(worlds, c, job, blocking).Deferred?
    ensures !blocking && Reading(job) && job.id in c.sessions
    ensures var m := MeasureBy(worlds);
      var o := Handle(worlds, c, job, blocking);
      && o.c.sessions == c.sessions
      && FoundMissing(m, c, c.sessions[job.id], job, o.keys)
  {
    var s := c.sessions[job.id];
    var (w, f, p) := (worlds(s.fork), Reader(c, s.fork), JobProgram(job, s.env));
    AttemptIsPlainOrNothing(w, p, s, f, blocking);
    PutBack(c.sessions, job.id);
  }

  lemma {:induction false} NoneWoken(inbox: seq<Message>, id: SessionId)
    requires Unblocks(inbox, id) == 0
    ensures forall failed :: Unblock(id, failed) !in inbox
  {
    if inbox != [] {
      var last := |inbox| - 1;
      NoneWoken(inbox[..last], id);
      assert inbox == inbox[..last] + [inbox[last]];
    }
  }

  /** Parked after a pass that began with `before` cached: one more round, and
      at least one key fewer lacking. */
  lemma ParkBudgets(m: Measure, c: Config, c1: Config, job: Job, keys: set<StateKey>, b: Blocked, spawned: bool)
    requires Counts(m) && Wakeups(c1, job.id) == 0 && job.id in c1.sessions && Reading(job) && CachesGrow(c, c1)
    requires FoundMissing(m, c, c1.sessions[job.id], job, keys)
    ensures var c' := Park(c1, job, keys, b, spawned);
      && Waits(c', job.id)
      && OnBudget(m, c', job.id,
                  b.rounds + m.size(m.needs(c1.sessions[job.id], job) - Cached(c, c1.sessions[job.id].fork)))
  {
    NoneWoken(c1.inbox, job.id);
    if spawned {
      ParkedLacksLess(m, c, c1, job, keys, b);
    } else {
      MissingSome(m, c, c1.sessions[job.id], job, keys);
    }
  }

  lemma MissingSome(m: Measure, c: Config, s: SessionData, job: Job, keys: set<StateKey>)
    requires Counts(m) && FoundMissing(m, c, s, job, keys)
    ensures m.size(m.needs(s, job) - Cached(c, s.fork)) > 0
  {
    var k :| k in keys && k in m.needs(s, job) && k !in Cached(c, s.fork);
    assert k in m.needs(s, job) - Cached(c, s.fork);
    assert Fits(m, {}, m.needs(s, job) - Cached(c, s.fork));
  }

  lemma ParkedLacksLess(m: Measure, c: Config, c1: Config, job: Job, keys: set<StateKey>, b: Blocked)
    requires Counts(m) && job.id in c1.sessions && Reading(job) && CachesGrow(c, c1)
    requires FoundMissing(m, c, c1.sessions[job.id], job, keys)
    ensures Waits(Park(c1, job, keys, b, true), job.id)
    ensures m.size(Lacks(m, Park(c1, job, keys, b, true), job.id)) <
            m.size(m.needs(c1.sessions[job.id], job) - Cached(c, c1.sessions[job.id].fork))
  {
    var (c', s) := (Park(c1, job, keys, b, true), c1.sessions[job.id]);
    var missing := m.needs(s, job) - Cached(c, s.fork);
    var k :| k in keys && k in m.needs(s, job) && k !in Cached(c, s.fork);
    assert Cached(c, s.fork) <= Cached(c1, s.fork) == Cached(c', s.fork);
    assert k in missing && k !in Lacks(m, c', job.id);
    assert Fits(m, Lacks(m, c', job.id), missing);
  }

  /** The passes a parked front job may have: by what it needed when the
      message that first ran it was taken. */
  ghost function Total(m: Measure, c: Config, parked: Config, id: SessionId): nat
    requires Waits(parked, id)
  {
    m.size(m.needs(parked.sessions[id], parked.blocked[id].queue[0]) - Cached(c, parked.sessions[id].fork))
  }

  ghost predicate SameWait(c: Config, c': Config, id: SessionId)
    requires Waits(c, id) && Waits(c', id)
  {
    c'.blocked[id].queue[0] == c.blocked[id].queue[0] && c'.sessions[id] == c.sessions[id]
  }

  lemma SameTotal(m: Measure, x: Config, c: Config, c': Config, id: SessionId)
    requires Waits(c, id) && Waits(c', id) && SameWait(c, c', id)
    ensures Total(m, x, c', id) == Total(m, x, c, id)
  {
  }

  lemma TotalShrinks(m: Measure, c: Config, c1: Config, parked: Config, id: SessionId)
    requires Counts(m) && Waits(parked, id) && CachesGrow(c, c1)
    ensures Total(m, c1, parked, id) <= Total(m, c, parked, id)
  {
    var fork := parked.sessions[id].fork;
    assert Cached(c, fork) <= Cached(c1, fork);
    var needed := m.needs(parked.sessions[id], parked.blocked[id].queue[0]);
    assert Fits(m, needed - Cached(c1, fork), needed - Cached(c, fork));
  }

  ghost predicate SameFront(c: Config, h: Held, parked: Config)
    requires Waits(parked, h.id)
  {
    h.queue != [] && parked.blocked[h.id].queue[0] == h.queue[0] && Get(c.sessions, h.id) == Some(parked.sessions[h.id])
  }

  /** What running a session's queue leaves: if it is parked again, its front
      job is within what its passes so far allowed, or it is a new one, within
      what it needed when its first pass began. */
  ghost predicate QueuePaid(m: Measure, c: Config, h: Held, c': Config, total: nat) {
    h.id in c'.blocked ==>
      && Waits(c', h.id)
      && ((h.rounds > 0 && SameFront(c, h, c') && OnBudget(m, c', h.id, total)) ||
          (c'.blocked[h.id].rounds == 1 && OnBudget(m, c', h.id, Total(m, c, c', h.id))))
  }

  /** What the front job was allowed before. */
  ghost predicate FrontPaid(m: Measure, c: Config, h: Held, total: nat) {
    h.queue != [] && h.rounds > 0 && h.id in c.sessions && Reading(h.queue[0]) ==>
      h.rounds + m.size(m.needs(c.sessions[h.id], h.queue[0]) - Cached(c, c.sessions[h.id].fork)) <= total
  }

  /** Its front job answered, the rest is as new. */
  lemma HandledPays(m: Measure, c: Config, c1: Config, h: Held, c': Config, total: nat)
    requires Counts(m) && CachesGrow(c, c1) && h.queue != [] && QueuePaid(m, c1, Held(h.id, h.queue[1..], 0), c', total)
    ensures QueuePaid(m, c, h, c', total)
  {
    if h.id in c'.blocked {
      TotalShrinks(m, c, c1, c', h.id);
    }
  }

  /** Its front job parked again. */
  lemma DeferredPays(m: Measure, c: Config, c1: Config, h: Held, keys: set<StateKey>, spawned: bool, total: nat)
    requires Counts(m) && CachesGrow(c, c1) && h.queue != [] && h.queue[0].id == h.id && FrontPaid(m, c, h, total)
    requires c1.sessions == c.sessions && h.id in c.sessions && Reading(h.queue[0]) && Wakeups(c1, h.id) == 0
    requires FoundMissing(m, c, c.sessions[h.id], h.queue[0], keys)
    ensures QueuePaid(m, c, h, Park(c1, h.queue[0], keys, Blocked(h.queue[1..], h.rounds), spawned), total)
  {
    ParkBudgets(m, c, c1, h.queue[0], keys, Blocked(h.queue[1..], h.rounds), spawned);
  }

  lemma {:induction false} QueueBudgets(worlds: Worlds, plain: Plain, m: Measure, c: Config, h: Held, blocking: bool,
                                        spawned: bool, total: nat)
    requires plain == PlainBy(worlds) && m == MeasureBy(worlds) && Counts(m) && InvWith(worlds, plain, c, Some(h)) &&
             h.id !in c.blocked
    requires blocking || (h.rounds < MAX_SPECULATIVE_ROUNDS && FrontPaid(m, c, h, total))
    ensures QueuePaid(m, c, h, RunQueue(worlds, c, h.queue, h.rounds, blocking, spawned), total)
    decreases |h.queue|
  {
    if h.queue != [] {
      var job := h.queue[0];
      HandleKeeps(worlds, plain, c, h, blocking);
      FrontIsOwn(worlds, plain, c, h);
      HandleGrows(worlds, c, job, blocking);
      match Handle(worlds, c, job, blocking)
      case Handled(c1) =>
        QueueBudgets(worlds, plain, m, c1, Held(h.id, h.queue[1..], 0), false, spawned, total);
        HandledPays(m, c, c1, h, RunQueue(worlds, c1, h.queue[1..], 0, false, spawned), total);
      case Deferred(c1, keys) =>
        DeferredFinds(worlds, c, job, blocking);
        assert ShareOk(plain, ShareOf(c1, Some(Held(h.id, h.queue, h.rounds + 1)), h.id));
        DeferredPays(m, c, c1, h, keys, spawned, total);
    }
  }

  // ---- Every step ----

  /** A step other than the worker running the session's own jobs, or its
      resolver ending. */
  ghost predicate Aside(c: Config, step: Step, id: SessionId)
    requires Enabled(c, step)
  {
    match step
    case Take(_) => if c.inbox[0].Unblock? then c.inbox[0].id != id else c.inbox[0].job.id != id || id in c.blocked
    case Resolved(resolved, _) => resolved != id
    case _ => true
  }

  lemma AsideLeaves(worlds: Worlds, plain: Plain, c: Config, step: Step, id: SessionId)
    requires plain == PlainBy(worlds) && Inv(worlds, plain, c) && Enabled(c, step) && Aside(c, step, id)
    ensures Untouched(c, Next(worlds, c, step), id)
  {
    if step.Take? {
      TakingLeaves(worlds, plain, c, step.spawned, id);
    } else {
      FrontIsThere(worlds, plain, c, id);
      NoTakeLeaves(worlds, c, step, id);
    }
  }

  lemma TakingLeaves(worlds: Worlds, plain: Plain, c: Config, spawned: bool, id: SessionId)
    requires plain == PlainBy(worlds) && Inv(worlds, plain, c) && c.inbox != [] && Aside(c, Take(spawned), id)
    ensures Untouched(c, Accept(worlds, c.(inbox := c.inbox[1..]), c.inbox[0], spawned), id)
  {
    var c1 := c.(inbox := c.inbox[1..]);
    match c.inbox[0]
    case Unblock(other, failed) => WakeLeavesOthers(worlds, plain, c, other, failed, spawned, id);
    case Request(job) =>
      AcceptedRequest(worlds, c1, job, spawned);
      RequestLeavesOthers(worlds, plain, c, job, spawned, id, Accept(worlds, c1, Request(job), spawned));
  }

  lemma FrontIsThere(worlds: Worlds, plain: Plain, c: Config, id: SessionId)
    requires Inv(worlds, plain, c)
    ensures id in c.blocked ==> c.blocked[id].queue != []
  {
    assert ShareOk(plain, ShareOf(c, None, id));
  }

  /** A step in which the worker does nothing. */
  lemma NoTakeLeaves(worlds: Worlds, c: Config, step: Step, id: SessionId)
    requires Enabled(c, step) && Aside(c, step, id) && !step.Take? && (id in c.blocked ==> c.blocked[id].queue != [])
    ensures Untouched(c, Next(worlds, c, step), id)
  {
    match step
    case Send(job) => SendingLeaves(c, job, id);
    case Resolved(resolved, failed) => PostingLeaves(c, resolved, failed, id);
    case Grow(_, _) =>
    case Reap(_) =>
  }

  lemma SendingLeaves(c: Config, job: Job, id: SessionId)
    requires id in c.blocked ==> c.blocked[id].queue != []
    ensures Untouched(c, Sent(c, job), id)
  {
  }

  lemma PostingLeaves(c: Config, resolved: SessionId, failed: bool, id: SessionId)
    requires resolved != id && (id in c.blocked ==> c.blocked[id].queue != [])
    ensures Untouched(c, Posted(c, resolved, failed), id)
  {
  }

  /** Taking a message out of the inbox, and another session out of `blocked`. */
  lemma TakingLeavesOthers(c: Config, other: SessionId, id: SessionId)
    requires c.inbox != [] && other != id
    ensures Untouched(c, c.(inbox := c.inbox[1..]), id)
    ensures Untouched(c, c.(inbox := c.inbox[1..], blocked := c.blocked - {other}), id)
  {
  }

  lemma WakeLeavesOthers(worlds: Worlds, plain: Plain, c: Config, other: SessionId, failed: bool, spawned: bool,
                         id: SessionId)
    requires plain == PlainBy(worlds) && Inv(worlds, plain, c) && c.inbox != [] &&
             c.inbox[0] == Unblock(other, failed) && other != id
    ensures Untouched(c, Unblocked(worlds, c.(inbox := c.inbox[1..]), other, failed, spawned), id)
  {
    FrontIsThere(worlds, plain, c, id);
    TakingLeavesOthers(c, other, id);
    if other in c.blocked {
      assert ShareOk(plain, ShareOf(c, None, other));
      var (b, c2) := (c.blocked[other], c.(inbox := c.inbox[1..], blocked := c.blocked - {other}));
      var blocking := failed || b.rounds >= MAX_SPECULATIVE_ROUNDS;
      QueueLeavesOthers(worlds, c2, b.queue, b.rounds, blocking, spawned, id);
      UntouchedTwice(c, c2, RunQueue(worlds, c2, b.queue, b.rounds, blocking, spawned), id);
    }
  }

  lemma EnqueuingLeavesFront(c: Config, job: Job, id: SessionId)
    requires c.inbox != [] && job.id in c.blocked && (id in c.blocked ==> c.blocked[id].queue != [])
    ensures Untouched(c, Enqueued(c.(inbox := c.inbox[1..]), job), id)
  {
  }

  lemma RunningLeavesOthers(worlds: Worlds, c: Config, job: Job, spawned: bool, id: SessionId)
    requires c.inbox != [] && job.id != id && job.id !in c.blocked && (id in c.blocked ==> c.blocked[id].queue != [])
    ensures Untouched(c, RunQueue(worlds, c.(inbox := c.inbox[1..]), [job], 0, false, spawned), id)
  {
    var c1 := c.(inbox := c.inbox[1..]);
    TakingLeavesOthers(c, job.id, id);
    QueueLeavesOthers(worlds, c1, [job], 0, false, spawned, id);
    UntouchedTwice(c, c1, RunQueue(worlds, c1, [job], 0, false, spawned), id);
  }

  lemma AcceptedRequest(worlds: Worlds, c: Config, job: Job, spawned: bool)
    ensures Accept(worlds, c, Request(job), spawned) ==
            if job.id in c.blocked then Enqueued(c, job) else RunQueue(worlds, c, [job], 0, false, spawned)
  {
    if job.id !in c.blocked {
      AcceptIsRunQueue(worlds, c, job, spawned);
    }
  }

  lemma RequestLeavesOthers(worlds: Worlds, plain: Plain, c: Config, job: Job, spawned: bool, id: SessionId, c': Config)
    requires Inv(worlds, plain, c) && c.inbox != [] && (job.id != id || id in c.blocked)
    requires var c1 := c.(inbox := c.inbox[1..]);
      c' == if job.id in c.blocked then Enqueued(c1, job) else RunQueue(worlds, c1, [job], 0, false, spawned)
    ensures Untouched(c, c', id)
  {
    FrontIsThere(worlds, plain, c, id);
    if job.id in c.blocked {
      EnqueuingLeavesFront(c, job, id);
    } else {
      RunningLeavesOthers(worlds, c, job, spawned, id);
    }
  }

  /** A resolver that ends has cached what the session lacked of its keys, or
      failed, and then no more speculative passes follow. */
  lemma ResolvedBudgets(m: Measure, c: Config, id: SessionId, failed: bool, total: nat)
    requires Enabled(c, Resolved(id, failed)) && Waits(c, id) && OnBudget(m, c, id, total)
    ensures Waits(Posted(c, id, failed), id) && OnBudget(m, Posted(c, id, failed), id, total)
    ensures SameWait(c, Posted(c, id, failed), id)
  {
    var c' := Posted(c, id, failed);
    PostedWakes(c, id, failed);
    if !failed {
      PostedLacks(m, c, id);
    }
  }

  lemma PostedWakes(c: Config, id: SessionId, failed: bool)
    ensures forall f :: Woken(Posted(c, id, failed), id, f) <==> Woken(c, id, f) || f == failed
  {
    assert forall m :: m in c.inbox + [Unblock(id, failed)] <==> m in c.inbox || m == Unblock(id, failed);
  }

  lemma PostedLacks(m: Measure, c: Config, id: SessionId)
    requires Waits(c, id) && Enabled(c, Resolved(id, false)) && c.resolving[id].fork == Some(c.sessions[id].fork)
    ensures Waits(Posted(c, id, false), id) && Lacks(m, Posted(c, id, false), id) == Lacks(m, c, id)
  {
    assert c.resolving[id].keys <= Cached(c, c.sessions[id].fork);
  }

  /** A session woken by a success has nothing still resolving: what it lacks
      is what is not cached. */
  lemma WokenHasAll(m: Measure, c: Config, id: SessionId, total: nat)
    requires Waits(c, id) && OnBudget(m, c, id, total) && Woken(c, id, false)
    ensures c.blocked[id].rounds +
            m.size(m.needs(c.sessions[id], c.blocked[id].queue[0]) - Cached(c, c.sessions[id].fork)) <= total
  {
    assert Lacks(m, c, id) == m.needs(c.sessions[id], c.blocked[id].queue[0]) - Cached(c, c.sessions[id].fork);
  }

  /** What the run of the session's own queue leaves it with. */
  ghost predicate Renewed(m: Measure, c: Config, c': Config, id: SessionId, total: nat) {
    id in c'.blocked && id in c'.sessions ==>
      && Waits(c', id)
      && ((Waits(c, id) && SameWait(c, c', id) && OnBudget(m, c', id, total)) ||
          (c'.blocked[id].rounds == 1 && OnBudget(m, c', id, Total(m, c, c', id))))
  }

  lemma PaidRenews(m: Measure, c: Config, c2: Config, h: Held, c': Config, total: nat)
    requires h.id in c.blocked && h.queue == c.blocked[h.id].queue && c2.sessions == c.sessions &&
             c2.readers == c.readers
    requires QueuePaid(m, c2, h, c', total) && (h.id in c.sessions ==> Waits(c, h.id))
    ensures Renewed(m, c, c', h.id, total)
  {
    if h.id in c'.blocked {
      assert Total(m, c2, c', h.id) == Total(m, c, c', h.id);
    }
  }

  lemma WakeBudgets(worlds: Worlds, plain: Plain, m: Measure, c: Config, failed: bool, spawned: bool, id: SessionId,
                    total: nat)
    requires plain == PlainBy(worlds) && m == MeasureBy(worlds) && Counts(m) && Inv(worlds, plain, c)
    requires c.inbox != [] && c.inbox[0] == Unblock(id, failed)
    requires id in c.blocked && id in c.sessions ==> Waits(c, id) && OnBudget(m, c, id, total)
    ensures Renewed(m, c, Unblocked(worlds, c.(inbox := c.inbox[1..]), id, failed, spawned), id, total)
  {
    TakeUnblock(worlds, plain, c);
    var b := c.blocked[id];
    var c2 := c.(inbox := c.inbox[1..], blocked := c.blocked - {id});
    var h := Held(id, b.queue, b.rounds);
    var blocking := failed || b.rounds >= MAX_SPECULATIVE_ROUNDS;
    FrontIsOwn(worlds, plain, c2, h);
    if !blocking {
      WokenPays(m, c, c2, h, total);
    }
    QueueBudgets(worlds, plain, m, c2, h, blocking, spawned, total);
    PaidRenews(m, c, c2, h, RunQueue(worlds, c2, b.queue, b.rounds, blocking, spawned), total);
  }

  lemma WokenPays(m: Measure, c: Config, c2: Config, h: Held, total: nat)
    requires h.id in c.blocked && h.queue == c.blocked[h.id].queue && h.rounds == c.blocked[h.id].rounds
    requires c2.sessions == c.sessions && c2.readers == c.readers && Woken(c, h.id, false)
    requires h.id in c.sessions ==> Waits(c, h.id) && OnBudget(m, c, h.id, total)
    ensures FrontPaid(m, c2, h, total)
  {
    if h.id in c.sessions {
      WokenHasAll(m, c, h.id, total);
    }
  }

  /** A queue of one that had had no pass. */
  lemma NewPaidRenews(m: Measure, c: Config, c1: Config, job: Job, c': Config, total: nat)
    requires c1.readers == c.readers && QueuePaid(m, c1, Held(job.id, [job], 0), c', total)
    ensures Renewed(m, c, c', job.id, total)
  {
    if job.id in c'.blocked {
      assert Total(m, c1, c', job.id) == Total(m, c, c', job.id);
    }
  }

  lemma RequestBudgets(worlds: Worlds, plain: Plain, m: Measure, c: Config, job: Job, spawned: bool, total: nat)
    requires plain == PlainBy(worlds) && m == MeasureBy(worlds) && Counts(m) && Inv(worlds, plain, c)
    requires c.inbox != [] && c.inbox[0] == Request(job) && job.id !in c.blocked
    ensures Renewed(m, c, Accept(worlds, c.(inbox := c.inbox[1..]), Request(job), spawned), job.id, total)
  {
    var c1 := c.(inbox := c.inbox[1..]);
    TakeRequest(worlds, plain, c);
    AcceptIsRunQueue(worlds, c1, job, spawned);
    QueueBudgets(worlds, plain, m, c1, Held(job.id, [job], 0), false, spawned, total);
    NewPaidRenews(m, c, c1, job, RunQueue(worlds, c1, [job], 0, false, spawned), total);
  }

  // ---- Whole runs ----

  /** A parked session's front job is within what it needed at some earlier
      moment of the run. */
  ghost predicate Budgeted(m: Measure, trace: seq<Config>, n: nat, id: SessionId)
    requires n < |trace|
  {
    id in trace[n].blocked && id in trace[n].sessions ==>
      Waits(trace[n], id) && exists a: nat :: BudgetedSince(m, trace, a, n, id)
  }

  ghost predicate BudgetedSince(m: Measure, trace: seq<Config>, a: nat, n: nat, id: SessionId)
    requires n < |trace| && Waits(trace[n], id)
  {
    WaitingSince(trace, a, n, id) && OnBudget(m, trace[n], id, Total(m, trace[a], trace[n], id))
  }

  /** The front job had its first pass in the step from `a`, and has been
      parked with its session unchanged ever since. */
  ghost predicate WaitingSince(trace: seq<Config>, a: nat, n: nat, id: SessionId)
    requires n < |trace| && Waits(trace[n], id)
  {
    && a < n
    && (forall p :: a < p <= n ==> StillWaits(trace, p, n, id))
    && StillWaits(trace, a + 1, n, id) && trace[a + 1].blocked[id].rounds == 1
  }

  ghost predicate StillWaits(trace: seq<Config>, p: nat, n: nat, id: SessionId)
    requires p <= n < |trace| && Waits(trace[n], id)
  {
    Waits(trace[p], id) && SameWait(trace[p], trace[n], id)
  }

  lemma WaitsLonger(trace: seq<Config>, a: nat, n: nat, next: nat, id: SessionId)
    requires next == n + 1 < |trace| && Waits(trace[n], id) && Waits(trace[next], id)
    requires WaitingSince(trace, a, n, id) && SameWait(trace[n], trace[next], id)
    ensures WaitingSince(trace, a, next, id)
  {
    forall p | a < p <= next
      ensures StillWaits(trace, p, next, id)
    {
      assert p <= n ==> StillWaits(trace, p, n, id);
    }
  }

  lemma AsideBudgets(m: Measure, trace: seq<Config>, n: nat, id: SessionId)
    requires Counts(m) && n + 1 < |trace| && Budgeted(m, trace, n, id) && Untouched(trace[n], trace[n + 1], id)
    ensures Budgeted(m, trace, n + 1, id)
  {
    var (c, c') := (trace[n], trace[n + 1]);
    if id in c'.blocked && id in c'.sessions {
      var a: nat :| BudgetedSince(m, trace, a, n, id);
      UntouchedKeeps(m, c, c', id, Total(m, trace[a], c, id));
      SameTotal(m, trace[a], c, c', id);
      WaitsLonger(trace, a, n, n + 1, id);
      assert BudgetedSince(m, trace, a, n + 1, id);
    }
  }

  lemma PostedBudgets(m: Measure, trace: seq<Config>, n: nat, id: SessionId, failed: bool)
    requires n + 1 < |trace| && Budgeted(m, trace, n, id)
    requires Enabled(trace[n], Resolved(id, failed)) && trace[n + 1] == Posted(trace[n], id, failed)
    ensures Budgeted(m, trace, n + 1, id)
  {
    var (c, c') := (trace[n], trace[n + 1]);
    if id in c'.blocked && id in c'.sessions {
      var a: nat :| BudgetedSince(m, trace, a, n, id);
      ResolvedBudgets(m, c, id, failed, Total(m, trace[a], c, id));
      SameTotal(m, trace[a], c, c', id);
      WaitsLonger(trace, a, n, n + 1, id);
      assert BudgetedSince(m, trace, a, n + 1, id);
    }
  }

  lemma RenewedBudgets(m: Measure, trace: seq<Config>, a: nat, n: nat, id: SessionId, total: nat)
    requires n + 1 < |trace| && Renewed(m, trace[n], trace[n + 1], id, total)
    requires Allowed(m, trace, a, n, id, total)
    ensures Budgeted(m, trace, n + 1, id)
  {
    var (c, c') := (trace[n], trace[n + 1]);
    if id in c'.blocked && id in c'.sessions {
      if Waits(c, id) && SameWait(c, c', id) && OnBudget(m, c', id, total) {
        SameTotal(m, trace[a], c, c', id);
        WaitsLonger(trace, a, n, n + 1, id);
        assert BudgetedSince(m, trace, a, n + 1, id);
      } else {
        assert StillWaits(trace, n + 1, n + 1, id);
        assert BudgetedSince(m, trace, n, n + 1, id);
      }
    }
  }

  /** What the session was allowed so far. */
  ghost predicate Allowed(m: Measure, trace: seq<Config>, a: nat, n: nat, id: SessionId, total: nat)
    requires n < |trace|
  {
    id in trace[n].blocked && id in trace[n].sessions ==>
      && Waits(trace[n], id) && WaitingSince(trace, a, n, id) && total == Total(m, trace[a], trace[n], id) &&
         OnBudget(m, trace[n], id, total)
  }

  lemma SomethingAllowed(m: Measure, trace: seq<Config>, n: nat, id: SessionId) returns (a: nat, total: nat)
    requires n < |trace| && Budgeted(m, trace, n, id)
    ensures Allowed(m, trace, a, n, id, total)
  {
    a, total := 0, 0;
    if id in trace[n].blocked && id in trace[n].sessions {
      var since: nat :| BudgetedSince(m, trace, since, n, id);
      a, total := since, Total(m, trace[since], trace[n], id);
    }
  }

  lemma OwnTakeBudgets(worlds: Worlds, plain: Plain, m: Measure, trace: seq<Config>, n: nat, spawned: bool,
                       id: SessionId)
    requires plain == PlainBy(worlds) && m == MeasureBy(worlds) && Counts(m)
    requires n + 1 < |trace| && Inv(worlds, plain, trace[n]) && Budgeted(m, trace, n, id)
    requires Enabled(trace[n], Take(spawned)) && !Aside(trace[n], Take(spawned), id)
    requires trace[n + 1] == Next(worlds, trace[n], Take(spawned))
    ensures Budgeted(m, trace, n + 1, id)
  {
    var a, total := SomethingAllowed(m, trace, n, id);
    OwnTakeRenews(worlds, plain, m, trace[n], spawned, id, total);
    RenewedBudgets(m, trace, a, n, id, total);
  }

  lemma OwnTakeRenews(worlds: Worlds, plain: Plain, m: Measure, c: Config, spawned: bool, id: SessionId, total: nat)
    requires plain == PlainBy(worlds) && m == MeasureBy(worlds) && Counts(m) && Inv(worlds, plain, c)
    requires Enabled(c, Take(spawned)) && !Aside(c, Take(spawned), id)
    requires id in c.blocked && id in c.sessions ==> Waits(c, id) && OnBudget(m, c, id, total)
    ensures Renewed(m, c, Next(worlds, c, Take(spawned)), id, total)
  {
    match c.inbox[0]
    case Unblock(_, failed) => WakeBudgets(worlds, plain, m, c, failed, spawned, id, total);
    case Request(job) => RequestBudgets(worlds, plain, m, c, job, spawned, total);
  }

  lemma StepBudgets(worlds: Worlds, plain: Plain, m: Measure, trace: seq<Config>, n: nat, step: Step, id: SessionId)
    requires plain == PlainBy(worlds) && m == MeasureBy(worlds) && Counts(m)
    requires n + 1 < |trace| && Inv(worlds, plain, trace[n]) && Budgeted(m, trace, n, id)
    requires Enabled(trace[n], step) && trace[n + 1] == Next(worlds, trace[n], step)
    ensures Budgeted(m, trace, n + 1, id)
  {
    if Aside(trace[n], step, id) {
      AsideLeaves(worlds, plain, trace[n], step, id);
      AsideBudgets(m, trace, n, id);
    } else if step.Resolved? {
      PostedBudgets(m, trace, n, id, step.failed);
    } else {
      OwnTakeBudgets(worlds, plain, m, trace, n, step.spawned, id);
    }
  }

  lemma FollowsBudgets(worlds: Worlds, plain: Plain, m: Measure, steps: seq<Step>, trace: seq<Config>, n: nat,
                       id: SessionId)
    requires plain == PlainBy(worlds) && m == MeasureBy(worlds) && Counts(m)
    requires IsRun(worlds, steps, trace) && n < |steps| && Budgeted(m, trace, n, id)
    ensures Budgeted(m, trace, n + 1, id)
  {
    RunKeeps(worlds, steps, trace, n);
    assert Follows(worlds, steps, trace, n);
    StepBudgets(worlds, plain, m, trace, n, steps[n], id);
  }

  lemma {:induction false} RunIsBudgeted(worlds: Worlds, plain: Plain, m: Measure, steps: seq<Step>, trace: seq<Config>,
                                         n: nat, id: SessionId)
    requires plain == PlainBy(worlds) && m == MeasureBy(worlds) && Counts(m) && IsRun(worlds, steps, trace) &&
             n <= |steps|
    ensures Budgeted(m, trace, n, id)
  {
    if n > 0 {
      RunIsBudgeted(worlds, plain, m, steps, trace, n - 1, id);
      FollowsBudgets(worlds, plain, m, steps, trace, n - 1, id);
    }
  }

  /** Over any run: a waiting job has had no more passes than its true path
      had keys missing from the cache when the step of its first pass began;
      and while a wake-up that may succeed is outstanding it is short of that
      by the keys it will still lack. So each retry gets strictly further. */
  lemma RetriesGetFurther(worlds: Worlds, steps: seq<Step>, trace: seq<Config>, n: nat, id: SessionId)
    requires IsRun(worlds, steps, trace) && n <= |steps| && id in trace[n].blocked && id in trace[n].sessions
    ensures Waits(trace[n], id)
    ensures exists a: nat ::
              WaitingSince(trace, a, n, id) &&
              OnBudget(MeasureBy(worlds), trace[n], id, Total(MeasureBy(worlds), trace[a], trace[n], id))
  {
    MeasureCounts(worlds);
    RunIsBudgeted(worlds, PlainBy(worlds), MeasureBy(worlds), steps, trace, n, id);
    var a: nat :| BudgetedSince(MeasureBy(worlds), trace, a, n, id);
    assert WaitingSince(trace, a, n, id);
  }

  // ---- Jobs that have been answered ----

  /** What running a held queue adds to the log: its front job's answer, with
      one pass more than it had if that was speculative, and answers of later
      jobs that took one pass at most. */
  ghost predicate Logged(c: Config, h: Held, c': Config, blocking: bool) {
    && c.log <= c'.log
    && forall i :: |c.log| <= i < |c'.log| ==> LoggedOk(h, c'.log[i], blocking)
  }

  ghost predicate LoggedOk(h: Held, e: Event, blocking: bool) {
    && e.Answered?
    && (e.speculative <= 1 ||
        (h.queue != [] && e.job == h.queue[0] && e.speculative <= h.rounds + if blocking then 0 else 1))
  }

  lemma ConcludeLogs(c: Config, h: Held, fork: ForkId, r: Attempt, faults: set<nat>, blocking: bool)
    requires h.queue != [] && Tried(c, h.queue[0].id) == h.rounds
    ensures match Conclude(c, h.queue[0], fork, r, faults, blocking)
      case Handled(c1) => Logged(c, h, c1, blocking)
      case Deferred(c1, _) => c1.log == c.log
  {
  }

  /** An answer without a pass. */
  lemma RecordLogs(c: Config, h: Held, reply: Reply, blocking: bool)
    requires h.queue != [] && Tried(c, h.queue[0].id) == h.rounds
    ensures Logged(c, h, Record(c, h.queue[0], reply, {}, Tried(c, h.queue[0].id), 0), blocking)
  {
  }

  lemma HandleLogs(worlds: Worlds, c: Config, h: Held, blocking: bool)
    requires h.queue != [] && Tried(c, h.queue[0].id) == h.rounds
    ensures match Handle(worlds, c, h.queue[0], blocking)
      case Handled(c1) => Logged(c, h, c1, blocking)
      case Deferred(c1, _) => c1.log == c.log
  {
    var job := h.queue[0];
    if Reading(job) && job.id in c.sessions {
      var s := c.sessions[job.id];
      var (w, f, p) := (worlds(s.fork), Reader(c, s.fork), JobProgram(job, s.env));
      ConcludeLogs(c, h, s.fork, Attempted(w, p, s, f, blocking), AttemptFaults(w, p, s, f, blocking), blocking);
    } else if Reading(job) {
      RecordLogs(c, h, UnknownSession, blocking);
    } else {
      var (s, reply) := HandleJob(job, Get(c.sessions, job.id));
      RecordLogs(c.(sessions := Put(c.sessions, job.id, s)), h, reply, blocking);
    }
  }

  lemma {:induction false} QueueLogs(worlds: Worlds, plain: Plain, c: Config, h: Held, blocking: bool, spawned: bool)
    requires plain == PlainBy(worlds) && InvWith(worlds, plain, c, Some(h)) &&
             (blocking || h.rounds < MAX_SPECULATIVE_ROUNDS)
    ensures Logged(c, h, RunQueue(worlds, c, h.queue, h.rounds, blocking, spawned), blocking)
    decreases |h.queue|
  {
    if h.queue != [] {
      FrontIsOwn(worlds, plain, c, h);
      HandleKeeps(worlds, plain, c, h, blocking);
      HandleLogs(worlds, c, h, blocking);
      match Handle(worlds, c, h.queue[0], blocking)
      case Handled(c1) =>
        var rest := Held(h.id, h.queue[1..], 0);
        QueueLogs(worlds, plain, c1, rest, false, spawned);
        LogsJoin(c, h, c1, rest, RunQueue(worlds, c1, rest.queue, 0, false, spawned), blocking);
      case Deferred(c1, keys) =>
    }
  }

  lemma LogsJoin(c: Config, h: Held, c1: Config, rest: Held, c': Config, blocking: bool)
    requires Logged(c, h, c1, blocking) && Logged(c1, rest, c', false) && rest.rounds == 0
    ensures Logged(c, h, c', blocking)
  {
    forall i | |c.log| <= i < |c'.log|
      ensures LoggedOk(h, c'.log[i], blocking)
    {
      if i < |c1.log| {
        assert c'.log[i] == c1.log[i] && LoggedOk(h, c1.log[i], blocking);
      } else {
        assert LoggedOk(rest, c'.log[i], false);
      }
    }
  }

  /** What a step adds to the log: reapings, jobs that took one pass at most,
      and the front jobs of woken sessions. */
  ghost predicate Recorded(c: Config, e: Event) {
    e.Answered? && e.speculative > 1 ==>
      && e.job.id in c.blocked && c.blocked[e.job.id].queue != [] && c.blocked[e.job.id].queue[0] == e.job
      && e.speculative <= c.blocked[e.job.id].rounds + 1
  }

  lemma TakeRecords(worlds: Worlds, plain: Plain, c: Config, spawned: bool, i: nat)
    requires plain == PlainBy(worlds) && Inv(worlds, plain, c) && c.inbox != []
    ensures var c' := Next(worlds, c, Take(spawned));
      c.log <= c'.log && (|c.log| <= i < |c'.log| ==> Recorded(c, c'.log[i]))
  {
    var c1 := c.(inbox := c.inbox[1..]);
    match c.inbox[0]
    case Unblock(id, failed) => WakeRecords(worlds, plain, c, spawned, i);
    case Request(job) =>
      TakeRequest(worlds, plain, c);
      if job.id !in c.blocked {
        AcceptIsRunQueue(worlds, c1, job, spawned);
        QueueLogs(worlds, plain, c1, Held(job.id, [job], 0), false, spawned);
        var c' := Next(worlds, c, Take(spawned));
        assert |c.log| <= i < |c'.log| ==> LoggedOk(Held(job.id, [job], 0), c'.log[i], false);
      }
  }

  lemma WakeRecords(worlds: Worlds, plain: Plain, c: Config, spawned: bool, i: nat)
    requires plain == PlainBy(worlds) && Inv(worlds, plain, c) && c.inbox != [] && c.inbox[0].Unblock?
    ensures var c' := Next(worlds, c, Take(spawned));
      c.log <= c'.log && (|c.log| <= i < |c'.log| ==> Recorded(c, c'.log[i]))
  {
    var (id, failed) := (c.inbox[0].id, c.inbox[0].failed);
    TakeUnblock(worlds, plain, c);
    var b := c.blocked[id];
    var (c2, h) := (c.(inbox := c.inbox[1..], blocked := c.blocked - {id}), Held(id, b.queue, b.rounds));
    var blocking := failed || b.rounds >= MAX_SPECULATIVE_ROUNDS;
    FrontIsOwn(worlds, plain, c2, h);
    QueueLogs(worlds, plain, c2, h, blocking, spawned);
    var c' := Next(worlds, c, Take(spawned));
    assert |c.log| <= i < |c'.log| ==> LoggedOk(h, c'.log[i], blocking);
  }

  lemma StepRecords(worlds: Worlds, plain: Plain, c: Config, step: Step, i: nat)
    requires plain == PlainBy(worlds) && Inv(worlds, plain, c) && Enabled(c, step)
    ensures var c' := Next(worlds, c, step);
      c.log <= c'.log && (|c.log| <= i < |c'.log| ==> Recorded(c, c'.log[i]))
  {
    if step.Take? {
      TakeRecords(worlds, plain, c, step.spawned, i);
    }
  }

  // Where a session was reaped while parked, its job had its passes before.

  /** After running its queue a session that is parked again is there. */
  lemma ParkedIsThere(worlds: Worlds, plain: Plain, m: Measure, c: Config, h: Held, blocking: bool, spawned: bool)
    requires plain == PlainBy(worlds) && m == MeasureBy(worlds) && Counts(m) && InvWith(worlds, plain, c, Some(h))
    requires h.id !in c.blocked && (blocking || h.rounds < MAX_SPECULATIVE_ROUNDS)
    ensures var c' := RunQueue(worlds, c, h.queue, h.rounds, blocking, spawned);
      h.id in c'.blocked ==> h.id in c'.sessions
  {
    var needed := if h.queue != [] && h.id in c.sessions
                  then m.size(m.needs(c.sessions[h.id], h.queue[0]) - Cached(c, c.sessions[h.id].fork)) else 0;
    QueueBudgets(worlds, plain, m, c, h, blocking, spawned, h.rounds + needed);
  }

  lemma OwnTakeIsThere(worlds: Worlds, plain: Plain, c: Config, spawned: bool, id: SessionId)
    requires plain == PlainBy(worlds) && Inv(worlds, plain, c) && c.inbox != [] && !Aside(c, Take(spawned), id)
    ensures var c' := Accept(worlds, c.(inbox := c.inbox[1..]), c.inbox[0], spawned);
      id in c'.blocked ==> id in c'.sessions
  {
    MeasureCounts(worlds);
    match c.inbox[0]
    case Unblock(_, failed) =>
      TakeUnblock(worlds, plain, c);
      var b := c.blocked[id];
      ParkedIsThere(worlds, plain, MeasureBy(worlds), c.(inbox := c.inbox[1..], blocked := c.blocked - {id}),
                    Held(id, b.queue, b.rounds), failed || b.rounds >= MAX_SPECULATIVE_ROUNDS, spawned);
    case Request(job) =>
      TakeRequest(worlds, plain, c);
      AcceptIsRunQueue(worlds, c.(inbox := c.inbox[1..]), job, spawned);
      ParkedIsThere(worlds, plain, MeasureBy(worlds), c.(inbox := c.inbox[1..]), Held(id, [job], 0), false, spawned);
  }

  /** A parked session that is gone was parked as it is before that step. */
  lemma GoneWasParked(worlds: Worlds, plain: Plain, c: Config, step: Step, id: SessionId)
    requires plain == PlainBy(worlds) && Inv(worlds, plain, c) && Enabled(c, step)
    requires var c' := Next(worlds, c, step); id in c'.blocked && id !in c'.sessions
    ensures id in c.blocked && c.blocked[id].queue != [] && SameParked(c, Next(worlds, c, step), id)
  {
    FrontIsThere(worlds, plain, c, id);
    if Aside(c, step, id) {
      AsideLeaves(worlds, plain, c, step, id);
    } else if step.Take? {
      OwnTakeIsThere(worlds, plain, c, step.spawned, id);
    }
  }

  ghost predicate SameParked(c: Config, c': Config, id: SessionId) {
    && id in c.blocked && id in c'.blocked && c.blocked[id].queue != [] && c'.blocked[id].queue != []
    && c'.blocked[id].queue[0] == c.blocked[id].queue[0] && c'.blocked[id].rounds == c.blocked[id].rounds
  }

  /** At `q` the job parked at `p` was parked as it is, its session there; and
      if that was before, it is gone since. */
  ghost predicate LastThere(trace: seq<Config>, q: nat, p: nat, id: SessionId)
    requires p < |trace|
  {
    q <= p && Waits(trace[q], id) && SameParked(trace[q], trace[p], id) && (q < p ==> id !in trace[p].sessions)
  }

  lemma {:induction false} ParkedWasThere(worlds: Worlds, steps: seq<Step>, trace: seq<Config>, p: nat, id: SessionId)
    requires IsRun(worlds, steps, trace) && p <= |steps| && id in trace[p].blocked
    ensures exists q: nat :: LastThere(trace, q, p, id)
  {
    if id in trace[p].sessions {
      RetriesGetFurther(worlds, steps, trace, p, id);
      assert LastThere(trace, p, p, id);
    } else {
      RunKeeps(worlds, steps, trace, p - 1);
      assert Follows(worlds, steps, trace, p - 1);
      GoneWasParked(worlds, PlainBy(worlds), trace[p - 1], steps[p - 1], id);
      ParkedWasThere(worlds, steps, trace, p - 1, id);
      var q: nat :| LastThere(trace, q, p - 1, id);
      assert LastThere(trace, q, p, id);
    }
  }

  /** Where an answer of more than one pass came from: its job was parked, one
      pass short of that at most, and, when its session was last there, within
      what it had needed when its first pass began. */
  ghost predicate AnsweredFrom(m: Measure, trace: seq<Config>, p: nat, e: Event)
    requires p < |trace|
  {
    && e.Answered? && Recorded(trace[p], e) && e.job.id in trace[p].blocked
    && exists q: nat, a: nat :: LastThere(trace, q, p, e.job.id) && WithinTotal(m, trace, a, q, e.job.id)
  }

  ghost predicate WithinTotal(m: Measure, trace: seq<Config>, a: nat, q: nat, id: SessionId) {
    && q < |trace| && Waits(trace[q], id) && WaitingSince(trace, a, q, id)
    && trace[q].blocked[id].rounds <= Total(m, trace[a], trace[q], id)
  }

  /** The step from `p` logged entry `i`. */
  ghost predicate LoggedAt(trace: seq<Config>, p: nat, i: nat) {
    p + 1 < |trace| && |trace[p].log| <= i < |trace[p + 1].log|
  }

  /** Every answered job had at most one pass more than its true path had keys
      missing from the cache when the step of its first pass began: it took a
      single pass, or was answered from where it was parked within that. */
  lemma {:induction false} AnswersAreWithinBudget(worlds: Worlds, steps: seq<Step>, trace: seq<Config>, n: nat, i: nat)
    requires IsRun(worlds, steps, trace) && n <= |steps| && i < |trace[n].log|
    requires trace[n].log[i].Answered? && trace[n].log[i].speculative > 1
    ensures exists p ::
              0 <= p < n && LoggedAt(trace, p, i) && AnsweredFrom(MeasureBy(worlds), trace, p, trace[n].log[i])
  {
    if n > 0 {
      RunKeeps(worlds, steps, trace, n - 1);
      assert Follows(worlds, steps, trace, n - 1);
      StepRecords(worlds, PlainBy(worlds), trace[n - 1], steps[n - 1], i);
      var e := trace[n].log[i];
      if i < |trace[n - 1].log| {
        assert trace[n - 1].log[i] == e;
        AnswersAreWithinBudget(worlds, steps, trace, n - 1, i);
      } else {
        assert LoggedAt(trace, n - 1, i);
        RecordedIsWithin(worlds, steps, trace, n - 1, e);
      }
    }
  }

  lemma RecordedIsWithin(worlds: Worlds, steps: seq<Step>, trace: seq<Config>, p: nat, e: Event)
    requires IsRun(worlds, steps, trace) && p <= |steps| && e.Answered? && e.speculative > 1 && Recorded(trace[p], e)
    ensures AnsweredFrom(MeasureBy(worlds), trace, p, e)
  {
    var id := e.job.id;
    ParkedWasThere(worlds, steps, trace, p, id);
    var q: nat :| LastThere(trace, q, p, id);
    RetriesGetFurther(worlds, steps, trace, q, id);
    var a: nat :| WaitingSince(trace, a, q, id) &&
        OnBudget(MeasureBy(worlds), trace[q], id, Total(MeasureBy(worlds), trace[a], trace[q], id));
    assert WithinTotal(MeasureBy(worlds), trace, a, q, id);
  }
}
