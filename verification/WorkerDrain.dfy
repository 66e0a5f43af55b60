/** The worker gets done: over any run, its turns and its resolvers' are
    bounded by the jobs it was sent. */
module WorkerDrain {
  import opened Chain
  import opened Engine
  import opened WorkerModel
  import opened WorkerInvariant
  import opened WorkerTheorems
  import opened WorkerProgress

  /** Turns a session can still take: each job in the inbox is taken once, and
      each job in the queue is woken at most seventeen times, by a resolver's
      turn and the worker's. */
  ghost function Left(c: Config, id: SessionId): int {
    35 * |Pending(c.inbox, id)| +
    if id !in c.blocked then 0
    else 34 * |c.blocked[id].queue| - 2 * c.blocked[id].rounds + if id in c.resolving then 1 else 0
  }

  /** The worker takes a message of this session's, or its resolver ends. */
  ghost predicate Own(c: Config, step: Step, id: SessionId)
    requires Enabled(c, step)
  {
    match step
    case Take(_) => if c.inbox[0].Unblock? then c.inbox[0].id == id else c.inbox[0].job.id == id
    case Resolved(resolved, _) => resolved == id
    case _ => false
  }

  // ---- Another session's turn ----

  ghost predicate Spared(c: Config, c': Config, id: SessionId) {
    && Get(c'.blocked, id) == Get(c.blocked, id) && Pending(c'.inbox, id) == Pending(c.inbox, id)
    && (id in c'.resolving <==> id in c.resolving)
  }

  /** Running a queue adds no job to the inbox. */
  lemma {:induction false} QueueKeepsPending(worlds: Worlds, plain: Plain, c: Config, h: Held, blocking: bool,
                                             spawned: bool, id: SessionId)
    requires plain == PlainBy(worlds) && InvWith(worlds, plain, c, Some(h)) &&
             (blocking || h.rounds < MAX_SPECULATIVE_ROUNDS)
    ensures var c' := RunQueue(worlds, c, h.queue, h.rounds, blocking, spawned);
      Pending(c'.inbox, id) == Pending(c.inbox, id) && (id != h.id ==> Spared(c, c', id))
    decreases |h.queue|
  {
    if h.queue != [] {
      var job := h.queue[0];
      FrontIsOwn(worlds, plain, c, h);
      HandleKeeps(worlds, plain, c, h, blocking);
      HandleGrows(worlds, c, job, blocking);
      match Handle(worlds, c, job, blocking)
      case Handled(c1) => QueueKeepsPending(worlds, plain, c1, Held(h.id, h.queue[1..], 0), false, spawned, id);
      case Deferred(c1, keys) =>
        HeldIsNotResolving(worlds, plain, c1, Held(h.id, h.queue, h.rounds + 1));
        ParkSpares(c1, job, keys, Blocked(h.queue[1..], h.rounds), spawned, id);
    }
  }

  lemma ParkSpares(c: Config, job: Job, keys: set<StateKey>, b: Blocked, spawned: bool, id: SessionId)
    requires job.id !in c.resolving
    ensures Pending(Park(c, job, keys, b, spawned).inbox, id) == Pending(c.inbox, id)
    ensures id != job.id ==> Spared(c, Park(c, job, keys, b, spawned), id)
  {
    var c' := Park(c, job, keys, b, spawned);
    if spawned {
      assert c'.inbox == c.inbox;
    } else {
      assert c'.inbox == c.inbox + [Unblock(job.id, true)] && c'.inbox[..|c.inbox|] == c.inbox;
    }
  }

  // ---- One's own turn ----

  lemma WakeLowers(worlds: Worlds, plain: Plain, c: Config, spawned: bool, id: SessionId)
    requires plain == PlainBy(worlds) && Inv(worlds, plain, c) && c.inbox != [] && c.inbox[0].Unblock?
    ensures var (woken, c') := (c.inbox[0].id, Next(worlds, c, Take(spawned)));
      if id == woken then Left(c', id) < Left(c, id) else Left(c', id) == Left(c, id)
  {
    WokenIsBlocked(worlds, plain, c);
    var m := c.inbox[0];
    WokenLowers(worlds, plain, c, m.id, m.failed || c.blocked[m.id].rounds >= MAX_SPECULATIVE_ROUNDS, spawned, id);
  }

  lemma WokenIsBlocked(worlds: Worlds, plain: Plain, c: Config)
    requires Inv(worlds, plain, c) && c.inbox != [] && c.inbox[0].Unblock?
    ensures c.inbox[0].id in c.blocked
  {
    TakeUnblock(worlds, plain, c);
  }

  lemma WokenLowers(worlds: Worlds, plain: Plain, c: Config, woken: SessionId, blocking: bool, spawned: bool,
                    id: SessionId)
    requires plain == PlainBy(worlds) && Inv(worlds, plain, c) && c.inbox != [] && c.inbox[0].Unblock? &&
             c.inbox[0].id == woken
    requires woken in c.blocked && (blocking || c.blocked[woken].rounds < MAX_SPECULATIVE_ROUNDS)
    ensures var b := c.blocked[woken];
      var c' := RunQueue(worlds, c.(inbox := c.inbox[1..], blocked := c.blocked - {woken}), b.queue, b.rounds, blocking,
                         spawned);
      if id == woken then Left(c', id) < Left(c, id) else Left(c', id) == Left(c, id)
  {
    TakeUnblock(worlds, plain, c);
    var c1 := c.(inbox := c.inbox[1..], blocked := c.blocked - {woken});
    var h := Held(woken, c.blocked[woken].queue, c.blocked[woken].rounds);
    QueueKeepsPending(worlds, plain, c1, h, blocking, spawned, id);
    ConsPending(c.inbox, id);
    if id == woken {
      QueueOnlyShrinks(worlds, plain, c1, h, blocking, spawned);
      RunQueueKeeps(worlds, plain, c1, h, blocking, spawned);
      WakeArithmetic(worlds, plain, c, RunQueue(worlds, c1, h.queue, h.rounds, blocking, spawned), id);
    }
  }

  /** A shorter queue, or one more round behind the same. */
  lemma WakeArithmetic(worlds: Worlds, plain: Plain, c: Config, c': Config, id: SessionId)
    requires Inv(worlds, plain, c) && Inv(worlds, plain, c')
    requires id in c.blocked && c.inbox != [] && c.inbox[0].Unblock? && c.inbox[0].id == id
    requires Pending(c'.inbox, id) == Pending(c.inbox, id)
    requires id in c'.blocked ==>
      || |c'.blocked[id].queue| < |c.blocked[id].queue|
      || c'.blocked[id] == Blocked(c.blocked[id].queue, c.blocked[id].rounds + 1)
    ensures Left(c', id) < Left(c, id)
  {
    ConsUnblocks(c.inbox, id);
    assert ShareOk(plain, ShareOf(c, None, id)) && ShareOk(plain, ShareOf(c', None, id));
  }

  /** Parked at once, a job has a queue of one and had one pass. */
  lemma NewArithmetic(worlds: Worlds, plain: Plain, c: Config, c': Config, job: Job)
    requires Inv(worlds, plain, c) && Inv(worlds, plain, c') && job.id !in c.blocked
    requires Pending(c.inbox, job.id) == [job] + Pending(c'.inbox, job.id)
    requires job.id in c'.blocked ==> |c'.blocked[job.id].queue| < 1 || c'.blocked[job.id] == Blocked([job], 1)
    ensures Left(c', job.id) < Left(c, job.id)
  {
    assert ShareOk(plain, ShareOf(c', None, job.id));
  }

  lemma RequestLowers(worlds: Worlds, plain: Plain, c: Config, spawned: bool, id: SessionId)
    requires plain == PlainBy(worlds) && Inv(worlds, plain, c) && c.inbox != [] && c.inbox[0].Request?
    ensures var (job, c') := (c.inbox[0].job, Next(worlds, c, Take(spawned)));
      if id == job.id then Left(c', id) < Left(c, id) else Left(c', id) == Left(c, id)
  {
    var (job, c1) := (c.inbox[0].job, c.(inbox := c.inbox[1..]));
    if job.id in c.blocked {
      BehindLowers(c, job, id);
    } else {
      AcceptIsRunQueue(worlds, c1, job, spawned);
      NewLowers(worlds, plain, c, job, spawned, id);
    }
  }

  /** Queued behind a parked job, a job is a little nearer to its answer. */
  lemma BehindLowers(c: Config, job: Job, id: SessionId)
    requires c.inbox != [] && c.inbox[0] == Request(job) && job.id in c.blocked
    ensures var c' := Enqueued(c.(inbox := c.inbox[1..]), job);
      if id == job.id then Left(c', id) < Left(c, id) else Left(c', id) == Left(c, id)
  {
    ConsPending(c.inbox, id);
  }

  lemma NewLowers(worlds: Worlds, plain: Plain, c: Config, job: Job, spawned: bool, id: SessionId)
    requires plain == PlainBy(worlds) && Inv(worlds, plain, c) && c.inbox != [] && c.inbox[0] == Request(job) &&
             job.id !in c.blocked
    ensures var c' := RunQueue(worlds, c.(inbox := c.inbox[1..]), [job], 0, false, spawned);
      if id == job.id then Left(c', id) < Left(c, id) else Left(c', id) == Left(c, id)
  {
    var (c1, h) := (c.(inbox := c.inbox[1..]), Held(job.id, [job], 0));
    TakeRequest(worlds, plain, c);
    ConsPending(c.inbox, id);
    QueueKeepsPending(worlds, plain, c1, h, false, spawned, id);
    if id == job.id {
      QueueOnlyShrinks(worlds, plain, c1, h, false, spawned);
      RunQueueKeeps(worlds, plain, c1, h, false, spawned);
      NewArithmetic(worlds, plain, c, RunQueue(worlds, c1, [job], 0, false, spawned), job);
    }
  }

  lemma PostedLowers(worlds: Worlds, plain: Plain, c: Config, posted: SessionId, failed: bool, id: SessionId)
    requires Inv(worlds, plain, c) && posted in c.resolving
    ensures if id == posted then Left(Posted(c, posted, failed), id) < Left(c, id)
            else Left(Posted(c, posted, failed), id) == Left(c, id)
  {
    assert ShareOk(plain, ShareOf(c, None, id));
    SnocMessage(c.inbox, Unblock(posted, failed), id);
  }

  /** Every turn lowers what is left of exactly one session; a job that
      arrives adds one job's worth; nothing else counts. */
  lemma StepLowers(worlds: Worlds, plain: Plain, c: Config, step: Step, id: SessionId)
    requires plain == PlainBy(worlds) && Inv(worlds, plain, c) && Enabled(c, step)
    ensures var c' := Next(worlds, c, step);
      if Own(c, step, id) then Left(c', id) < Left(c, id)
      else Left(c', id) == Left(c, id) + if step.Send? && step.job.id == id then 35 else 0
  {
    match step
    case Send(job) => SnocMessage(c.inbox, Request(job), id);
    case Take(spawned) =>
      if c.inbox[0].Unblock? {
        WakeLowers(worlds, plain, c, spawned, id);
      } else {
        RequestLowers(worlds, plain, c, spawned, id);
      }
    case Resolved(resolved, failed) => PostedLowers(worlds, plain, c, resolved, failed, id);
    case Grow(_, _) =>
    case Reap(_) =>
  }

  // ---- All sessions together ----

  ghost function Sum(f: SessionId -> int, ids: set<SessionId>): int {
    if ids == {} then 0
    else
      var x := Least(ids);
      f(x) + Sum(f, ids - {x})
  }

  lemma {:induction false} SumSame(f: SessionId -> int, g: SessionId -> int, ids: set<SessionId>)
    requires forall x :: x in ids ==> f(x) == g(x)
    ensures Sum(f, ids) == Sum(g, ids)
  {
    if ids != {} {
      SumSame(f, g, ids - {Least(ids)});
    }
  }

  lemma {:induction false} SumDiffersAt(f: SessionId -> int, g: SessionId -> int, ids: set<SessionId>, x: SessionId)
    requires x in ids && forall y :: y in ids && y != x ==> f(y) == g(y)
    ensures Sum(g, ids) == Sum(f, ids) + g(x) - f(x)
  {
    var y := Least(ids);
    if x == y {
      SumSame(f, g, ids - {y});
    } else {
      SumDiffersAt(f, g, ids - {y}, x);
    }
  }

  lemma {:induction false} SumNotNegative(f: SessionId -> int, ids: set<SessionId>)
    requires forall x :: x in ids ==> f(x) >= 0
    ensures Sum(f, ids) >= 0
  {
    if ids != {} {
      SumNotNegative(f, ids - {Least(ids)});
    }
  }

  ghost function LeftIn(c: Config): SessionId -> int {
    (id: SessionId) => Left(c, id)
  }

  predicate Turn(step: Step) {
    step.Take? || step.Resolved?
  }

  function Turns(steps: seq<Step>): nat {
    if steps == [] then 0
    else Turns(steps[..|steps| - 1]) + if Turn(steps[|steps| - 1]) then 1 else 0
  }

  /** Whose turn a turn is. */
  ghost function Owner(c: Config, step: Step): SessionId
    requires Enabled(c, step) && Turn(step)
  {
    if step.Resolved? then step.id else if c.inbox[0].Unblock? then c.inbox[0].id else c.inbox[0].job.id
  }

  ghost function IdsOf(jobs: seq<Job>): set<SessionId> {
    set job | job in jobs :: job.id
  }

  lemma {:induction false} JobsForAreSent(jobs: seq<Job>, id: SessionId)
    requires JobsFor(jobs, id) != []
    ensures id in IdsOf(jobs)
  {
    var last := |jobs| - 1;
    assert jobs == jobs[..last] + [jobs[last]];
    if jobs[last].id != id {
      JobsForAreSent(jobs[..last], id);
    } else {
      assert jobs[last] in jobs;
    }
  }

  /** A turn is a session's that was sent something. */
  lemma OwnerWasSent(worlds: Worlds, plain: Plain, c: Config, step: Step)
    requires Inv(worlds, plain, c) && Enabled(c, step) && Turn(step)
    ensures Owner(c, step) in IdsOf(c.sent)
  {
    var id := Owner(c, step);
    assert ShareOk(plain, ShareOf(c, None, id));
    if step.Take? {
      ConsPending(c.inbox, id);
      ConsUnblocks(c.inbox, id);
    }
    JobsForAreSent(c.sent, id);
  }

  lemma LeftIsNotNegative(worlds: Worlds, plain: Plain, c: Config, ids: set<SessionId>)
    requires Inv(worlds, plain, c)
    ensures Sum(LeftIn(c), ids) >= 0
  {
    forall id | id in ids
      ensures LeftIn(c)(id) >= 0
    {
      assert ShareOk(plain, ShareOf(c, None, id));
    }
    SumNotNegative(LeftIn(c), ids);
  }

  lemma StepLowersSum(worlds: Worlds, plain: Plain, c: Config, step: Step, ids: set<SessionId>)
    requires plain == PlainBy(worlds) && Inv(worlds, plain, c) && Enabled(c, step) &&
             IdsOf(Next(worlds, c, step).sent) <= ids
    ensures var c' := Next(worlds, c, step);
      && c'.sent == c.sent + (if step.Send? then [step.job] else [])
      && Sum(LeftIn(c'), ids) + (if Turn(step) then 1 else 0) <= Sum(LeftIn(c), ids) + if step.Send? then 35 else 0
  {
    var c' := Next(worlds, c, step);
    SentOnlyBySending(worlds, c, step);
    forall id
      ensures if Own(c, step, id) then Left(c', id) < Left(c, id)
              else Left(c', id) == Left(c, id) + if step.Send? && step.job.id == id then 35 else 0
    {
      StepLowers(worlds, plain, c, step, id);
    }
    if Turn(step) {
      OwnerWasSent(worlds, plain, c, step);
      SumDiffersAt(LeftIn(c), LeftIn(c'), ids, Owner(c, step));
    } else if step.Send? {
      assert step.job in c'.sent;
      SumDiffersAt(LeftIn(c), LeftIn(c'), ids, step.job.id);
    } else {
      SumSame(LeftIn(c), LeftIn(c'), ids);
    }
  }

  lemma {:induction false} QueueSendsNothing(worlds: Worlds, c: Config, queue: seq<Job>, rounds: nat, blocking: bool,
                                             spawned: bool)
    ensures RunQueue(worlds, c, queue, rounds, blocking, spawned).sent == c.sent
    decreases |queue|
  {
    if queue != [] {
      match Handle(worlds, c, queue[0], blocking)
      case Handled(c1) => QueueSendsNothing(worlds, c1, queue[1..], 0, false, spawned);
      case Deferred(c1, keys) =>
    }
  }

  lemma AcceptingSendsNothing(worlds: Worlds, c: Config, m: Message, spawned: bool)
    ensures Accept(worlds, c, m, spawned).sent == c.sent
  {
    match m
    case Unblock(id, failed) =>
      if id in c.blocked {
        var b := c.blocked[id];
        QueueSendsNothing(worlds, c.(blocked := c.blocked - {id}), b.queue, b.rounds,
                          failed || b.rounds >= MAX_SPECULATIVE_ROUNDS, spawned);
      }
    case Request(job) =>
      if job.id !in c.blocked {
        AcceptIsRunQueue(worlds, c, job, spawned);
        QueueSendsNothing(worlds, c, [job], 0, false, spawned);
      }
  }

  lemma SentOnlyBySending(worlds: Worlds, c: Config, step: Step)
    requires Enabled(c, step)
    ensures Next(worlds, c, step).sent == c.sent + if step.Send? then [step.job] else []
  {
    if step.Take? {
      AcceptingSendsNothing(worlds, c.(inbox := c.inbox[1..]), c.inbox[0], step.spawned);
    }
  }

  lemma {:induction false} SentGrows(worlds: Worlds, steps: seq<Step>, trace: seq<Config>, m: nat, n: nat)
    requires IsRun(worlds, steps, trace) && m <= n <= |steps|
    ensures IdsOf(trace[m].sent) <= IdsOf(trace[n].sent)
  {
    if m < n {
      SentGrows(worlds, steps, trace, m, n - 1);
      RunKeeps(worlds, steps, trace, n - 1);
      assert Follows(worlds, steps, trace, n - 1);
      SentOnlyBySending(worlds, trace[n - 1], steps[n - 1]);
    }
  }

  lemma {:induction false} TurnsAndLeft(worlds: Worlds, steps: seq<Step>, trace: seq<Config>, n: nat,
                                        ids: set<SessionId>)
    requires IsRun(worlds, steps, trace) && n <= |steps| && IdsOf(trace[n].sent) <= ids
    ensures Turns(steps[..n]) + Sum(LeftIn(trace[n]), ids) <= 35 * |trace[n].sent|
  {
    if n == 0 {
      SumOfNothing(ids);
    } else {
      SentGrows(worlds, steps, trace, n - 1, n);
      TurnsAndLeft(worlds, steps, trace, n - 1, ids);
      RunKeeps(worlds, steps, trace, n - 1);
      assert Follows(worlds, steps, trace, n - 1);
      StepLowersSum(worlds, PlainBy(worlds), trace[n - 1], steps[n - 1], ids);
      assert steps[..n][..n - 1] == steps[..n - 1];
    }
  }

  lemma {:induction false} SumOfNothing(ids: set<SessionId>)
    ensures Sum(LeftIn(START), ids) == 0
  {
    if ids != {} {
      SumOfNothing(ids - {Least(ids)});
    }
  }

  /** Over any run, the worker has taken its messages and its resolvers have
      ended at most 35 times for each job sent: so once no more jobs arrive,
      only so many turns can follow, and while a job is unanswered one can. */
  lemma TurnsAreBounded(worlds: Worlds, steps: seq<Step>, trace: seq<Config>, n: nat)
    requires IsRun(worlds, steps, trace) && n <= |steps|
    ensures Turns(steps[..n]) <= 35 * |trace[n].sent|
  {
    TurnsAndLeft(worlds, steps, trace, n, IdsOf(trace[n].sent));
    RunKeeps(worlds, steps, trace, n);
    LeftIsNotNegative(worlds, PlainBy(worlds), trace[n], IdsOf(trace[n].sent));
  }

  /** When no turn is possible any more, every session's jobs have all been
      answered, in the order they were sent. */
  lemma QuietMeansAnswered(worlds: Worlds, c: Config, id: SessionId)
    requires Reachable(worlds, c) && c.inbox == [] && c.resolving == map[]
    ensures AnsweredJobs(EventsOf(c.log, id)) == JobsFor(c.sent, id)
  {
    if AnsweredJobs(EventsOf(c.log, id)) != JobsFor(c.sent, id) {
      NoJobIsStuck(worlds, c, id);
    }
  }
}
