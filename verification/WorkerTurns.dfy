/** What the worker does with one message, to the pass: which jobs get a
    speculative pass, and that a blocking one is the last resort. */
module WorkerTurns {
  import opened Chain
  import opened Fetch
  import opened Engine
  import opened Passes
  import opened WorkerModel
  import opened WorkerInvariant
  import opened WorkerTheorems
  import opened WorkerProgress

  /** Whether running `job` now takes a pass: it reads, and its session is
      there. */
  predicate TakesPass(c: Config, job: Job) {
    Reading(job) && job.id in c.sessions
  }

  /** `e` answers `job` after `rounds` speculative passes and one more pass,
      blocking or not. */
  ghost predicate AnsweredAfter(c: Config, job: Job, rounds: nat, blocking: bool, e: Event) {
    && e.Answered? && e.job == job
    && e.speculative == rounds + (if TakesPass(c, job) && !blocking then 1 else 0)
    && e.blocking == if TakesPass(c, job) && blocking then 1 else 0
  }

  /** `e` answers a job in the turn it was first tried in. */
  predicate AnsweredAtOnce(e: Event) {
    e.Answered? && e.blocking == 0 && e.speculative <= 1
  }

  /** What one turn with `queue`, whose front has had `rounds` passes, comes to:
      the front job is answered after a pass of the kind called for, and then
      others at once; or, if that pass was speculative, it may be parked with
      the whole queue behind it and one more round. */
  ghost predicate Turned(c: Config, id: SessionId, queue: seq<Job>, rounds: nat, blocking: bool, c': Config) {
    && c.log <= c'.log
    && (c'.log != c.log ==>
          queue != [] && AnsweredAfter(c, queue[0], rounds, blocking, c'.log[|c.log|])
          && forall i :: |c.log| < i < |c'.log| ==> AnsweredAtOnce(c'.log[i]))
    && (c'.log == c.log && queue != [] ==>
          !blocking && TakesPass(c, queue[0]) && id in c'.blocked && c'.blocked[id] == Blocked(queue, rounds + 1))
  }

  lemma ConcludeTurns(c: Config, job: Job, fork: ForkId, r: Attempt, faults: set<nat>, blocking: bool, rounds: nat)
    requires TakesPass(c, job) && Tried(c, job.id) == rounds && (r.Missed? ==> !blocking)
    ensures match Conclude(c, job, fork, r, faults, blocking)
      case Handled(c1) => |c1.log| == |c.log| + 1 && c.log <= c1.log &&
                          AnsweredAfter(c, job, rounds, blocking, c1.log[|c.log|])
      case Deferred(c1, _) => c1.log == c.log && !blocking
  {
  }

  /** An answer that takes no pass. */
  lemma RecordTurns(c: Config, sessions: map<SessionId, SessionData>, job: Job, reply: Reply, blocking: bool)
    requires !TakesPass(c, job)
    ensures var c1 := Record(c.(sessions := sessions), job, reply, {}, Tried(c, job.id), 0);
      |c1.log| == |c.log| + 1 && c.log <= c1.log &&
      AnsweredAfter(c, job, Tried(c, job.id), blocking, c1.log[|c.log|])
  {
  }

  lemma HandleTurns(worlds: Worlds, c: Config, job: Job, blocking: bool, rounds: nat)
    requires Tried(c, job.id) == rounds
    ensures match Handle(worlds, c, job, blocking)
      case Handled(c1) => |c1.log| == |c.log| + 1 && c.log <= c1.log &&
                          AnsweredAfter(c, job, rounds, blocking, c1.log[|c.log|])
      case Deferred(c1, _) => c1.log == c.log && !blocking && TakesPass(c, job)
  {
    if TakesPass(c, job) {
      var s := c.sessions[job.id];
      var (w, f, p) := (worlds(s.fork), Reader(c, s.fork), JobProgram(job, s.env));
      ConcludeTurns(c, job, s.fork, Attempted(w, p, s, f, blocking), AttemptFaults(w, p, s, f, blocking), blocking,
                    rounds);
    } else if Reading(job) {
      RecordTurns(c, c.sessions, job, UnknownSession, blocking);
    } else {
      var (s, reply) := HandleJob(job, Get(c.sessions, job.id));
      RecordTurns(c, Put(c.sessions, job.id, s), job, reply, blocking);
    }
  }

  /** One job answered, and then the rest of the queue from there. */
  lemma TurnsJoin(c: Config, id: SessionId, queue: seq<Job>, rounds: nat, blocking: bool, c1: Config, c': Config)
    requires queue != [] && |c1.log| == |c.log| + 1 && c.log <= c1.log
    requires AnsweredAfter(c, queue[0], rounds, blocking, c1.log[|c.log|])
    requires Turned(c1, id, queue[1..], 0, false, c')
    ensures Turned(c, id, queue, rounds, blocking, c')
  {
    assert c'.log[|c.log|] == c1.log[|c.log|];
    forall i | |c.log| < i < |c'.log|
      ensures AnsweredAtOnce(c'.log[i])
    {
      assert i == |c1.log| || i > |c1.log|;
    }
  }

  lemma {:induction false} QueueTurns(worlds: Worlds, plain: Plain, c: Config, h: Held, blocking: bool, spawned: bool)
    requires plain == PlainBy(worlds) && InvWith(worlds, plain, c, Some(h))
    requires blocking || h.rounds < MAX_SPECULATIVE_ROUNDS
    ensures Turned(c, h.id, h.queue, h.rounds, blocking, RunQueue(worlds, c, h.queue, h.rounds, blocking, spawned))
    decreases |h.queue|
  {
    if h.queue != [] {
      FrontIsOwn(worlds, plain, c, h);
      HandleKeeps(worlds, plain, c, h, blocking);
      HandleTurns(worlds, c, h.queue[0], blocking, h.rounds);
      match Handle(worlds, c, h.queue[0], blocking)
      case Handled(c1) =>
        QueueTurns(worlds, plain, c1, Held(h.id, h.queue[1..], 0), false, spawned);
        TurnsJoin(c, h.id, h.queue, h.rounds, blocking, c1, RunQueue(worlds, c1, h.queue[1..], 0, false, spawned));
      case Deferred(c1, keys) =>
        assert [h.queue[0]] + h.queue[1..] == h.queue;
    }
  }

  /** A wake-up: if the resolve failed, or the front job has had sixteen passes,
      it is answered by a blocking pass; otherwise by a speculative one, or it
      is parked again with the round counted. */
  lemma WakeUpTurns(worlds: Worlds, c: Config, spawned: bool)
    requires Reachable(worlds, c) && c.inbox != [] && c.inbox[0].Unblock?
    ensures c.inbox[0].id in c.blocked
    ensures var (id, c') := (c.inbox[0].id, Next(worlds, c, Take(spawned)));
      Turned(c, id, c.blocked[id].queue, c.blocked[id].rounds, c.inbox[0].failed || c.blocked[id].rounds == 16, c')
  {
    ReachableIsInv(worlds, c);
    TakeUnblock(worlds, PlainBy(worlds), c);
    WokenTurns(worlds, PlainBy(worlds), c, c.inbox[0].id, c.inbox[0].failed, spawned);
  }

  lemma WokenTurns(worlds: Worlds, plain: Plain, c: Config, id: SessionId, failed: bool, spawned: bool)
    requires plain == PlainBy(worlds) && Inv(worlds, plain, c) && c.inbox != [] && c.inbox[0] == Unblock(id, failed)
    ensures id in c.blocked
    ensures Turned(c, id, c.blocked[id].queue, c.blocked[id].rounds, failed || c.blocked[id].rounds == 16,
                   Unblocked(worlds, c.(inbox := c.inbox[1..]), id, failed, spawned))
  {
    TakeUnblock(worlds, plain, c);
    var b := c.blocked[id];
    var (c2, h) := (c.(inbox := c.inbox[1..], blocked := c.blocked - {id}), Held(id, b.queue, b.rounds));
    FrontIsOwn(worlds, plain, c2, h);
    QueueTurns(worlds, plain, c2, h, failed || b.rounds >= MAX_SPECULATIVE_ROUNDS, spawned);
  }

  /** A job whose session is not waiting is answered at once, by a speculative
      pass if it takes one, or parked alone after that pass. */
  lemma RequestTurns(worlds: Worlds, c: Config, spawned: bool)
    requires Reachable(worlds, c) && c.inbox != [] && c.inbox[0].Request? && c.inbox[0].job.id !in c.blocked
    ensures var job := c.inbox[0].job;
      Turned(c, job.id, [job], 0, false, Next(worlds, c, Take(spawned)))
  {
    var (plain, job, c1) := (PlainBy(worlds), c.inbox[0].job, c.(inbox := c.inbox[1..]));
    ReachableIsInv(worlds, c);
    TakeRequest(worlds, plain, c);
    AcceptIsRunQueue(worlds, c1, job, spawned);
    QueueTurns(worlds, plain, c1, Held(job.id, [job], 0), false, spawned);
  }

  /** At `p` the worker takes a wake-up that leaves `e`'s job no choice: its
      session was parked with the job in front, and the resolve failed, or the
      job had had its sixteen passes. */
  ghost predicate LastResort(steps: seq<Step>, trace: seq<Config>, p: nat, e: Event)
    requires p < |trace| && p < |steps|
  {
    var c := trace[p];
    && e.Answered? && steps[p].Take? && c.inbox != [] && c.inbox[0].Unblock? && c.inbox[0].id == e.job.id
    && e.job.id in c.blocked && c.blocked[e.job.id].queue != [] && c.blocked[e.job.id].queue[0] == e.job
    && e.speculative == c.blocked[e.job.id].rounds
    && (c.inbox[0].failed || e.speculative == 16)
  }

  lemma StepTurns(worlds: Worlds, steps: seq<Step>, trace: seq<Config>, p: nat, i: nat)
    requires IsRun(worlds, steps, trace) && p < |steps| && LoggedAt(trace, p, i)
    requires trace[p + 1].log[i].Answered? && trace[p + 1].log[i].blocking != 0
    ensures LastResort(steps, trace, p, trace[p + 1].log[i])
  {
    var (c, e) := (trace[p], trace[p + 1].log[i]);
    assert Follows(worlds, steps, trace, p);
    RunReaches(worlds, steps, trace, p);
    if steps[p].Take? {
      if c.inbox[0].Unblock? {
        WakeUpTurns(worlds, c, steps[p].spawned);
        FrontIsOurs(worlds, c, c.inbox[0].id);
      } else if c.inbox[0].job.id !in c.blocked {
        RequestTurns(worlds, c, steps[p].spawned);
      }
    }
  }

  lemma FrontIsOurs(worlds: Worlds, c: Config, id: SessionId)
    requires Reachable(worlds, c) && id in c.blocked
    ensures c.blocked[id].queue != [] && c.blocked[id].queue[0].id == id
  {
    ReachableIsInv(worlds, c);
    assert ShareOk(PlainBy(worlds), ShareOf(c, None, id));
  }

  lemma RunReaches(worlds: Worlds, steps: seq<Step>, trace: seq<Config>, n: nat)
    requires IsRun(worlds, steps, trace) && n <= |steps|
    ensures Reachable(worlds, trace[n])
  {
    var (steps', trace') := (steps[..n], trace[..n + 1]);
    forall i | 0 <= i < |steps'|
      ensures Follows(worlds, steps', trace', i)
    {
      assert Follows(worlds, steps, trace, i);
    }
    assert IsRun(worlds, steps', trace') && trace'[|steps'|] == trace[n];
  }

  /** Over any run: a job that was answered by a blocking pass had had sixteen
      speculative ones, or it was woken by a resolve that failed. */
  lemma {:induction false} BlockingIsTheLastResort(worlds: Worlds, steps: seq<Step>, trace: seq<Config>, n: nat, i: nat)
    requires IsRun(worlds, steps, trace) && n <= |steps| && i < |trace[n].log|
    requires trace[n].log[i].Answered? && trace[n].log[i].blocking != 0
    ensures exists p :: 0 <= p < n && LoggedAt(trace, p, i) && LastResort(steps, trace, p, trace[n].log[i])
  {
    if n > 0 {
      RunKeeps(worlds, steps, trace, n - 1);
      assert Follows(worlds, steps, trace, n - 1);
      StepRecords(worlds, PlainBy(worlds), trace[n - 1], steps[n - 1], i);
      if i < |trace[n - 1].log| {
        assert trace[n - 1].log[i] == trace[n].log[i];
        BlockingIsTheLastResort(worlds, steps, trace, n - 1, i);
      } else {
        assert LoggedAt(trace, n - 1, i);
        StepTurns(worlds, steps, trace, n - 1, i);
      }
    }
  }
}
