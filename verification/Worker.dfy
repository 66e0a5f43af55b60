/** The worker thread itself, updating its sessions and queues in place; each
    method does to `State()` exactly what the step machine says. */
module Worker {
  import opened Chain
  import opened Fetch
  import opened Engine
  import opened Passes
  import opened WorkerModel

  /** What became of an attempt. */
  datatype Verdict = Clean(reply: Reply, diff: Option<Diff>) | Dirty(keys: set<StateKey>)

  /** The verdict, session and reader that `Attempted` leaves. */
  ghost predicate Matches(v: Verdict, s: SessionData, f: Fetcher, r: Attempt) {
    r == match v
         case Clean(reply, diff) => Finished(reply, diff, s, f)
         case Dirty(keys) => Missed(keys, s, f)
  }

  method Ask(s: Session, q: Query, t: Thread) returns (a: Answer)
    modifies s, s.fallback, t
    ensures (a, s.Data(), s.fallback.Seen(t)) == old(Engine.Ask(s.fallback.world, s.Data(), s.fallback.Seen(t), q))
  {
    match q {
      case AccountQ(address) => a := s.Basic(address, t);
      case StorageQ(owner, slot) => a := s.Storage(owner, slot, t);
      case CodeQ(hash) => a := s.CodeByHash(hash, t);
      case BlockHashQ(number) => a := s.BlockHash(number, t);
    }
  }

  /** One execution: ask, be told, go on, until it is done. */
  method Transact(s: Session, program: Program, t: Thread) returns (reply: Reply, diff: Option<Diff>)
    modifies s, s.fallback, t
    ensures PassResult(reply, diff, s.Data(), s.fallback.Seen(t))
            == old(RunPass(s.fallback.world, program, s.Data(), s.fallback.Seen(t)))
  {
    var p := program;
    while p.Read?
      invariant RunPass(s.fallback.world, p, s.Data(), s.fallback.Seen(t))
                == old(RunPass(s.fallback.world, program, s.Data(), s.fallback.Seen(t)))
      decreases p
    {
      var a := Ask(s, p.query, t);
      p := p.Next(a);
    }
    return p.reply, p.diff;
  }

  /** Touch sender and recipient, then execute. */
  method Execute(s: Session, tx: Tx, disableChecks: bool, t: Thread) returns (reply: Reply, diff: Option<Diff>)
    modifies s, s.fallback, t
    ensures PassResult(reply, diff, s.Data(), s.fallback.Seen(t))
            == old(RunPass(s.fallback.world, Transaction(tx, disableChecks, s.blockEnv), s.Data(), s.fallback.Seen(t)))
  {
    var _ := s.Basic(tx.caller, t);
    if tx.to.Some? {
      var _ := s.Basic(tx.to.value, t);
    }
    reply, diff := Transact(s, tx.run(s.blockEnv, disableChecks), t);
  }

  /** An account's bytecode, resolved the way execution does. */
  method CodeOf(s: Session, job: Job, t: Thread) returns (reply: Reply)
    requires job.Code?
    modifies s, s.fallback, t
    ensures PassResult(reply, None, s.Data(), s.fallback.Seen(t))
            == old(RunPass(s.fallback.world, JobProgram(job, s.blockEnv), s.Data(), s.fallback.Seen(t)))
  {
    var a := s.Basic(job.address, t);
    if !a.AccountA? {
      return ReadError(a);
    }
    if a.info.None? {
      return CodeReply([]);
    }
    var info := a.info.value;
    if info.code.Some? {
      return CodeReply(info.code.value.bytes);
    }
    if info.codeHash == KECCAK_EMPTY {
      return CodeReply([]);
    }
    var code := s.CodeByHash(info.codeHash, t);
    assert RunPass(s.fallback.world, CodeDone(code), s.Data(), s.fallback.Seen(t)).session == s.Data();
    return if code.CodeA? then CodeReply(code.code.bytes) else ReadError(code);
  }

  /** The closure each reading job hands to `Attempt`. */
  method RunBody(s: Session, job: Job, t: Thread) returns (reply: Reply, diff: Option<Diff>)
    requires Reading(job)
    modifies s, s.fallback, t
    ensures PassResult(reply, diff, s.Data(), s.fallback.Seen(t))
            == old(RunPass(s.fallback.world, JobProgram(job, s.blockEnv), s.Data(), s.fallback.Seen(t)))
  {
    match job {
      case Simulate(_, tx, disableChecks) =>
        reply, diff := Execute(s, tx, disableChecks, t);
      case Advance(_, tx) =>
        reply, diff := Execute(s, tx, false, t);
      case Storage(_, address, key) =>
        var a := s.Storage(address, key, t);
        reply, diff := if a.WordA? then WordReply(a.word) else ReadError(a), None;
      case Code(_, _) =>
        reply := CodeOf(s, job, t);
        diff := None;
      case Basic(_, address) =>
        var a := s.Basic(address, t);
        reply, diff := if a.AccountA? then AccountReply(a.info) else ReadError(a), None;
    }
  }

  /** One try at `job` on `s`, rolled back if it was speculative and missed
      something. */
  method RunAttempt(s: Session, job: Job, blocking: bool, t: Thread) returns (v: Verdict)
    requires Reading(job)
    modifies s, s.fallback, t
    ensures Matches(v, s.Data(), s.fallback.Seen(t),
                    old(Attempted(s.fallback.world, JobProgram(job, s.blockEnv), s.Data(), s.fallback.Seen(t),
                                  blocking)))
  {
    if blocking {
      var reply, diff := RunBody(s, job, t);
      return Clean(reply, diff);
    }
    s.BeginSpeculation();
    var outer := t.misses;
    t.misses := Some([]);
    var reply, diff := RunBody(s, job, t);
    var misses := if t.misses.Some? then t.misses.value else [];
    t.misses := outer;
    s.EndSpeculation(misses == []);
    if misses == [] {
      return Clean(reply, diff);
    }
    return Dirty(set k | k in misses);
  }

  /** The worker's map owns its sessions, so no two entries can share one:
      `sessions` holds their values, and a job that works on one borrows it
      as an object and writes it back. */
  class WorkerThread {
    ghost const worlds: Worlds
    // Every fork a session may read through, and this thread's misses.
    const forks: map<ForkId, ReadThrough>
    const thread: Thread
    var sessions: map<SessionId, SessionData>
    var blocked: map<SessionId, Blocked>
    // This worker's own channel: clients and resolvers append, it takes the front.
    var inbox: seq<Message>
    // What each fork's cache holds; resolver threads at work; and the history
    // the statements speak of.
    ghost var readers: map<ForkId, Fetcher>
    ghost var resolving: map<SessionId, Resolve>
    ghost var sent: seq<Job>
    ghost var log: seq<Event>
    ghost var tried: map<SessionId, nat>

    ghost predicate Valid()
      reads this`sessions, this`readers, this`blocked, thread, forks.Values
    {
      && thread.misses == None
      && readers.Keys == forks.Keys
      && (forall f :: f in forks ==>
          forks[f].id == f && forks[f].world == worlds(f) && readers[f] == forks[f].Seen(thread))
      && (forall i :: i in sessions ==> sessions[i].fork in forks)
      && QueuesKnown()
    }

    ghost predicate QueuesKnown()
      reads this`blocked
    {
      forall i :: i in blocked ==> AllKnown(blocked[i].queue)
    }

    ghost predicate AllKnown(jobs: seq<Job>) {
      forall j :: j in jobs ==> JobKnown(j)
    }

    /** The step machine's configuration this object stands for. */
    ghost function State(): Config
      reads this
    {
      Config(sessions, blocked, inbox, resolving, readers, sent, log, tried)
    }

    constructor (ghost worlds: Worlds, forks: map<ForkId, ReadThrough>)
      requires forall f :: f in forks ==> forks[f].id == f && forks[f].world == worlds(f)
      ensures Valid() && fresh(thread)
      ensures this.worlds == worlds && this.forks == forks
      ensures State() == START.(readers := readers)
    {
      this.worlds, this.forks := worlds, forks;
      var t := new Thread();
      thread := t;
      sessions, blocked, inbox := map[], map[], [];
      resolving, sent, log, tried := map[], [], [], map[];
      readers := map f | f in forks :: forks[f].Seen(t);
    }

    /** A job done without a pass: what becomes of its session, and what is
        answered. */
    method HandleJob(job: Job, session: Option<SessionData>) returns (after: Option<SessionData>, reply: Reply)
      requires !Reading(job) && JobKnown(job) && (session.Some? ==> session.value.fork in forks)
      requires forall f :: f in forks ==> forks[f].id == f
      ensures (after, reply) == WorkerModel.HandleJob(job, session)
    {
      if job.Fork? {
        var state := if job.seed.Some? then job.seed.value else EMPTY_LAYER;
        var s := new Session.Restore(job.base, forks[job.fork], job.env, state);
        return Some(s.Data()), Ack;
      }
      if job.Adopt? {
        return Some(job.session), Ack;
      }
      if job.Discard? {
        return None, Ack;
      }
      if session.None? {
        return None, UnknownSession;
      }
      var s := new Session.Holding(session.value, forks[session.value.fork]);
      reply := InPlace(job, s);
      after := Some(s.Data());
    }

    /** A job on a session that stays where it is. */
    method InPlace(job: Job, s: Session) returns (reply: Reply)
      requires !Reading(job) && !job.Fork? && !job.Adopt? && !job.Discard?
      modifies s
      ensures (Some(s.Data()), reply) == WorkerModel.HandleJob(job, Some(old(s.Data())))
    {
      reply := Ack;
      if job.State? {
        if s.blockEnv.number > U64_MAX {
          return BlockNumberTooLarge;
        }
        var state := s.State(job.walk);
        reply := StateReply(state, s.blockEnv.number);
      } else if job.Branch? {
        var child := s.Branch();
        reply := BranchReply(child.Data());
      } else if job.BlockEnvOf? {
        reply := EnvReply(s.blockEnv);
      } else if job.SetAccount? {
        s.SetAccount(job.address, job.info);
      } else {
        s.SetStorage(job.address, job.key, job.value);
      }
    }

    /** Whether the forks a job names exist. */
    predicate JobKnown(job: Job) {
      (job.Fork? ==> job.fork in forks) && (job.Adopt? ==> job.session.fork in forks)
    }

    /** A job that may read upstream state, on a session it borrows: its
        verdict, and the session afterwards. */
    method Borrow(job: Job, session: SessionData, fork: ReadThrough, blocking: bool)
      returns (v: Verdict, after: SessionData)
      requires Reading(job) && session.fork == fork.id && thread.misses == None
      modifies thread, fork
      ensures thread.misses == None
      ensures var r := Attempted(fork.world, JobProgram(job, session.env), session, old(fork.Seen(thread)), blocking);
        && v == (if r.Finished? then Clean(r.reply, r.diff) else Dirty(r.keys))
        && after == (if r.Finished? then Accepted(job, r.session, r.diff) else r.session)
        && fork.Seen(thread) == r.fetcher
      ensures after.fork == session.fork
    {
      AttemptStays(fork.world, JobProgram(job, session.env), session, fork.Seen(thread), blocking);
      NotSpeculatingStays(fork.world, JobProgram(job, session.env), session, fork.Seen(thread));
      var s := new Session.Holding(session, fork);
      v := RunAttempt(s, job, blocking, thread);
      if v.Clean? && job.Advance? && v.diff.Some? {
        s.Commit(v.diff.value);
      }
      after := s.Data();
    }

    /** Answer `job`, or, if its pass was speculative and missed something,
        leave it unanswered and return what it missed. */
    method Handle(job: Job, blocking: bool) returns (deferred: Option<set<StateKey>>)
      requires Valid() && JobKnown(job)
      modifies this`sessions, this`readers, this`log, this`tried, thread, forks.Values
      ensures Valid()
      ensures var o := WorkerModel.Handle(worlds, old(State()), job, blocking);
        State() == o.c && deferred == if o.Deferred? then Some(o.keys) else None
    {
      if !Reading(job) {
        HandleSimple(job, blocking);
        return None;
      }
      if job.id !in sessions {
        Answer(job, UnknownSession, {}, Tried(State(), job.id), 0);
        return None;
      }
      deferred := HandleReading(job, blocking);
    }

    ghost method Answer(job: Job, reply: Reply, faults: set<nat>, speculative: nat, blocking: nat)
      requires Valid()
      modifies this`log, this`tried
      ensures Valid() && State() == Record(old(State()), job, reply, faults, speculative, blocking)
    {
      log, tried := log + [Answered(job, reply, faults, speculative, blocking)], tried - {job.id};
    }

    method HandleSimple(job: Job, ghost blocking: bool)
      requires Valid() && JobKnown(job) && !Reading(job)
      modifies this`sessions, this`log, this`tried
      ensures Valid() && WorkerModel.Handle(worlds, old(State()), job, blocking) == Handled(State())
    {
      var after, reply := HandleJob(job, Get(sessions, job.id));
      HandleJobStays(job, Get(sessions, job.id));
      SettleSimple(job, after, reply);
    }

    method SettleSimple(job: Job, after: Option<SessionData>, reply: Reply)
      requires Valid() && (after.Some? ==> after.value.fork in forks)
      modifies this`sessions, this`log, this`tried
      ensures Valid() && State() == RecordSimple(old(State()), job, after, reply)
    {
      log, tried := log + [Answered(job, reply, {}, Tried(State(), job.id), 0)], tried - {job.id};
      sessions := Put(sessions, job.id, after);
    }

    lemma HandleJobStays(job: Job, session: Option<SessionData>)
      requires !Reading(job) && JobKnown(job) && (session.Some? ==> session.value.fork in forks)
      ensures var after := WorkerModel.HandleJob(job, session).0; after.Some? ==> after.value.fork in forks
    {
    }

    method HandleReading(job: Job, blocking: bool) returns (deferred: Option<set<StateKey>>)
      requires Valid() && Reading(job) && job.id in sessions
      modifies this`sessions, this`readers, this`log, this`tried, thread, forks.Values
      ensures Valid()
      ensures var o := WorkerModel.Handle(worlds, old(State()), job, blocking);
        State() == o.c && deferred == if o.Deferred? then Some(o.keys) else None
    {
      ghost var s := sessions[job.id];
      ghost var (w, f, p) := (worlds(s.fork), readers[s.fork], JobProgram(job, s.env));
      ghost var (r, faults) := (Attempted(w, p, s, f, blocking), AttemptFaults(w, p, s, f, blocking));
      var fork, v, after := Lend(job, blocking);
      deferred := Finish(job, fork, v, after, r, faults, blocking);
    }

    /** All is well but for what the cache of `fork`, just read through, is
        known to hold. */
    ghost predicate Lent(fork: ReadThrough)
      reads this`sessions, this`readers, this`blocked, thread, forks.Values
    {
      && thread.misses == None
      && readers.Keys == forks.Keys && fork.id in forks && forks[fork.id] == fork
      && (forall f :: f in forks ==> forks[f].id == f && forks[f].world == worlds(f))
      && (forall f :: f in forks && f != fork.id ==> readers[f] == forks[f].Seen(thread))
      && (forall i :: i in sessions ==> sessions[i].fork in forks)
      && QueuesKnown()
    }

    /** Let `job` have its session, and the fork it reads through. */
    method Lend(job: Job, blocking: bool) returns (fork: ReadThrough, v: Verdict, after: SessionData)
      requires Valid() && Reading(job) && job.id in sessions
      modifies thread, forks.Values
      ensures Lent(fork) && fork.id == sessions[job.id].fork == after.fork
      ensures var s := sessions[job.id];
        var r := Attempted(worlds(s.fork), JobProgram(job, s.env), s, readers[s.fork], blocking);
        && v == (if r.Finished? then Clean(r.reply, r.diff) else Dirty(r.keys))
        && after == (if r.Finished? then Accepted(job, r.session, r.diff) else r.session)
        && fork.Seen(thread) == r.fetcher
    {
      fork := forks[sessions[job.id].fork];
      v, after := Borrow(job, sessions[job.id], fork, blocking);
    }

    method Finish(job: Job, fork: ReadThrough, v: Verdict, after: SessionData, ghost r: Attempt, ghost faults: set<nat>,
                  blocking: bool)
      returns (deferred: Option<set<StateKey>>)
      requires Lent(fork) && fork.Seen(thread) == r.fetcher && after.fork in forks
      requires v == if r.Finished? then Clean(r.reply, r.diff) else Dirty(r.keys)
      requires after == if r.Finished? then Accepted(job, r.session, r.diff) else r.session
      modifies this`sessions, this`readers, this`log, this`tried
      ensures Valid()
      ensures var o := Conclude(old(State()), job, fork.id, r, faults, blocking);
        State() == o.c && deferred == if o.Deferred? then Some(o.keys) else None
    {
      WriteBack(job.id, fork, after);
      deferred := Settle(job, v, faults, blocking);
    }

    /** Write a borrowed session back, and its fork's cache with it. */
    method WriteBack(id: SessionId, fork: ReadThrough, after: SessionData)
      requires Lent(fork) && after.fork in forks
      modifies this`sessions, this`readers
      ensures Valid()
      ensures State() == WrittenBack(old(State()), id, after, fork.id, fork.Seen(thread))
    {
      NoteCache(fork);
      PutBack(id, after);
    }

    method PutBack(id: SessionId, after: SessionData)
      requires Valid() && after.fork in forks
      modifies this`sessions
      ensures Valid() && State() == old(State()).(sessions := old(sessions)[id := after])
    {
      sessions := sessions[id := after];
    }

    ghost method NoteCache(fork: ReadThrough)
      requires Lent(fork)
      modifies this`readers
      ensures Valid() && State() == old(State()).(readers := old(readers)[fork.id := fork.Seen(thread)])
    {
      readers := readers[fork.id := fork.Seen(thread)];
    }

    /** Record what became of an attempt: an answer, or one more pass. */
    method Settle(job: Job, v: Verdict, ghost faults: set<nat>, blocking: bool)
      returns (deferred: Option<set<StateKey>>)
      requires Valid()
      modifies this`log, this`tried
      ensures Valid()
      ensures State() == if v.Clean? then RecordPass(old(State()), job, v.reply, faults, blocking)
              else OneMorePass(old(State()), job.id)
      ensures deferred == if v.Dirty? then Some(v.keys) else None
    {
      if v.Clean? {
        Answer(job, v.reply, faults, Tried(State(), job.id) + (if blocking then 0 else 1), if blocking then 1 else 0);
        deferred := None;
      } else {
        tried := tried[job.id := Tried(State(), job.id) + 1];
        deferred := Some(v.keys);
      }
    }

    method Block(job: Job, b: Blocked)
      requires Valid() && JobKnown(job) && AllKnown(b.queue)
      modifies this`blocked
      ensures Valid()
      ensures State() == old(State()).(blocked := old(blocked)[job.id := Blocked([job] + b.queue, b.rounds + 1)])
    {
      var queue := [job] + b.queue;
      assert AllKnown(queue);
      blocked := blocked[job.id := Blocked(queue, b.rounds + 1)];
    }

    /** Block `job`'s session on `keys`, with `job` the first to be tried again.
        Without a thread to fetch them, the wake-up is posted at once. */
    method Park(job: Job, keys: set<StateKey>, b: Blocked, spawned: bool)
      requires Valid() && JobKnown(job) && AllKnown(b.queue)
      modifies this`blocked, this`inbox, this`resolving
      ensures Valid()
      ensures State() == WorkerModel.Park(old(State()), job, keys, b, spawned)
    {
      Block(job, b);
      if spawned {
        StartResolving(job.id, keys);
      } else {
        WakeUp(job.id);
      }
    }

    /** A resolver thread for `keys`, which will post a wake-up. */
    ghost method StartResolving(id: SessionId, keys: set<StateKey>)
      requires Valid()
      modifies this`resolving
      ensures Valid()
      ensures var fork := if id in sessions then Some(sessions[id].fork) else None;
        State() == old(State()).(resolving := old(resolving)[id := Resolve(fork, keys)])
    {
      resolving := resolving[id := Resolve(if id in sessions then Some(sessions[id].fork) else None, keys)];
    }

    /** No thread could be spawned: the session's wake-up, failed, at once. */
    method WakeUp(id: SessionId)
      requires Valid()
      modifies this`inbox
      ensures Valid() && State() == old(State()).(inbox := old(inbox) + [Unblock(id, true)])
    {
      inbox := inbox + [Unblock(id, true)];
    }

    /** Session `id` wakes up: its parked jobs are answered in order, up to the
        first that has to be parked again. */
    method Unblocked(id: SessionId, failed: bool, spawned: bool)
      requires Valid()
      modifies this`sessions, this`readers, this`blocked, this`inbox, this`resolving, this`log, this`tried, thread,
        forks.Values
      ensures Valid()
      ensures State() == WorkerModel.Unblocked(worlds, old(State()), id, failed, spawned)
    {
      if id in blocked {
        var b := Unpark(id);
        RunParked(b.queue, b.rounds, failed || b.rounds >= MAX_SPECULATIVE_ROUNDS, spawned);
      }
    }

    lemma FrontIsKnown(queue: seq<Job>)
      requires queue != [] && AllKnown(queue)
      ensures JobKnown(queue[0]) && AllKnown(queue[1..])
    {
      assert forall j :: j in queue[1..] ==> j in queue;
    }

    method RunParked(parked: seq<Job>, tries: nat, waiting: bool, spawned: bool)
      requires Valid() && AllKnown(parked)
      modifies this`sessions, this`readers, this`blocked, this`inbox, this`resolving, this`log, this`tried, thread,
        forks.Values
      ensures Valid()
      ensures State() == RunQueue(worlds, old(State()), parked, tries, waiting, spawned)
    {
      var (queue, rounds, blocking) := (parked, tries, waiting);
      while queue != []
        invariant Valid() && AllKnown(queue)
        invariant RunQueue(worlds, State(), queue, rounds, blocking, spawned)
                  == RunQueue(worlds, old(State()), parked, tries, waiting, spawned)
        decreases |queue|
      {
        FrontIsKnown(queue);
        var job := queue[0];
        queue := queue[1..];
        var done := HandleOrPark(job, Blocked(queue, rounds), blocking, spawned);
        if !done {
          return;
        }
        blocking, rounds := false, 0;
      }
    }

    method Unpark(id: SessionId) returns (b: Blocked)
      requires Valid() && id in blocked
      modifies this`blocked
      ensures Valid() && AllKnown(b.queue) && b == old(blocked)[id]
      ensures State() == old(State()).(blocked := old(blocked) - {id})
    {
      b := blocked[id];
      blocked := blocked - {id};
    }

    /** Answer `job`, or park it with the jobs behind it. */
    method HandleOrPark(job: Job, b: Blocked, blocking: bool, spawned: bool) returns (done: bool)
      requires Valid() && JobKnown(job) && AllKnown(b.queue)
      modifies this`sessions, this`readers, this`blocked, this`inbox, this`resolving, this`log, this`tried, thread,
        forks.Values
      ensures Valid()
      ensures match WorkerModel.Handle(worlds, old(State()), job, blocking)
        case Handled(c) => done && State() == c
        case Deferred(c, keys) => !done && State() == WorkerModel.Park(c, job, keys, b, spawned)
    {
      var deferred := Handle(job, blocking);
      if deferred.Some? {
        Park(job, deferred.value, b, spawned);
      }
      return deferred.None?;
    }

    /** The worker takes one message: a wake-up, a job for a session that is
        waiting, or a job to run now. */
    method Accept(m: Message, spawned: bool)
      requires Valid() && (m.Request? ==> JobKnown(m.job))
      modifies this`sessions, this`readers, this`blocked, this`inbox, this`resolving, this`log, this`tried, thread,
        forks.Values
      ensures Valid()
      ensures State() == WorkerModel.Accept(worlds, old(State()), m, spawned)
    {
      if m.Unblock? {
        Unblocked(m.id, m.failed, spawned);
        return;
      }
      var job := m.job;
      if job.id in blocked {
        var b := blocked[job.id];
        blocked := blocked[job.id := b.(queue := b.queue + [job])];
        return;
      }
      var _ := HandleOrPark(job, Blocked([], 0), false, spawned);
    }
  }
}
