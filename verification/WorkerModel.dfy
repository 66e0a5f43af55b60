/** One worker thread as a step machine: jobs arrive, passes run, a job that
    missed upstream state is parked with its session's later jobs behind it,
    resolvers fetch, and `Unblock` retries. */
module WorkerModel {
  import opened Chain
  import opened Fetch
  import opened Engine
  import opened Passes

  type SessionId = nat

  /** A session outside any pass. */
  type Settled = s: SessionData | s.log == None
    witness Forked(BaseSnapshot(EMPTY_LAYER, map[]), 0, BlockEnv(0, 0, 0, 0))

  /** A transaction. `run` is its execution, which may depend on the block env
      and on whether balance and fee checks are off. */
  datatype Tx = Tx(caller: Address, to: Option<Address>, run: (BlockEnv, bool) -> Program)

  datatype Job =
    | Fork(id: SessionId, base: BaseSnapshot, fork: ForkId, env: BlockEnv, seed: Option<Layer>)
    | State(id: SessionId, walk: Walk)
    | Branch(id: SessionId)
    | Adopt(id: SessionId, session: Settled)
    | Simulate(id: SessionId, tx: Tx, disableChecks: bool)
    | Advance(id: SessionId, tx: Tx)
    | Discard(id: SessionId)
    | Storage(id: SessionId, address: Address, key: Slot)
    | Code(id: SessionId, address: Address)
    | Basic(id: SessionId, address: Address)
    | BlockEnvOf(id: SessionId)
    | SetAccount(id: SessionId, address: Address, info: AccountInfo)
    | SetStorage(id: SessionId, address: Address, key: Slot, value: Word)

  /** What a worker's inbox carries: clients' jobs, and resolvers' wake-ups. */
  datatype Message = Request(job: Job) | Unblock(id: SessionId, failed: bool)

  const MAX_SPECULATIVE_ROUNDS: nat := 16

  // ---- What each job does ----

  /** The jobs that read upstream state, and so may be deferred. */
  predicate Reading(job: Job) {
    job.Simulate? || job.Advance? || job.Storage? || job.Code? || job.Basic?
  }

  /** Sender and recipient first, then the execution. */
  function Transaction(tx: Tx, disableChecks: bool, env: BlockEnv): Program {
    var run := tx.run(env, disableChecks);
    Read(AccountQ(tx.caller), imap[],
         match tx.to
         case Some(to) => Read(AccountQ(to), imap[], run)
         case None => run)
  }

  function AccountDone(a: Answer): Program {
    Done(if a.AccountA? then AccountReply(a.info) else ReadError(a), None)
  }

  function WordDone(a: Answer): Program {
    Done(if a.WordA? then WordReply(a.word) else ReadError(a), None)
  }

  function CodeDone(a: Answer): Program {
    Done(if a.CodeA? then CodeReply(a.code.bytes) else ReadError(a), None)
  }

  /** The account's own inline code, nothing for the empty hash, otherwise a
      lookup by hash. A missing account has no code. */
  ghost function CodeAfterAccount(a: Answer): Program {
    if !a.AccountA? then Done(ReadError(a), None)
    else if a.info.None? then Done(CodeReply([]), None)
    else if a.info.value.code.Some? then Done(CodeReply(a.info.value.code.value.bytes), None)
    else if a.info.value.codeHash == KECCAK_EMPTY then Done(CodeReply([]), None)
    else Read(CodeQ(a.info.value.codeHash), imap c: Answer | true :: CodeDone(c), Done(CodeReply([]), None))
  }

  ghost function JobProgram(job: Job, env: BlockEnv): Program
    requires Reading(job)
  {
    match job
    case Simulate(_, tx, disableChecks) => Transaction(tx, disableChecks, env)
    case Advance(_, tx) => Transaction(tx, false, env)
    case Storage(_, address, key) =>
      Read(StorageQ(address, key), imap a: Answer | true :: WordDone(a), Done(Ack, None))
    case Code(_, address) =>
      Read(AccountQ(address), imap a: Answer | true :: CodeAfterAccount(a), Done(Ack, None))
    case Basic(_, address) =>
      Read(AccountQ(address), imap a: Answer | true :: AccountDone(a), Done(Ack, None))
  }

  /** The session once a pass's outcome is accepted: only `Advance` writes. */
  function Accepted(job: Job, s: SessionData, diff: Option<Diff>): SessionData {
    if job.Advance? && diff.Some? then Committed(s, diff.value) else s
  }

  /** The jobs done at once, without a pass. */
  function HandleJob(job: Job, s: Option<SessionData>): (Option<SessionData>, Reply)
    requires !Reading(job)
  {
    if job.Fork? then
      (Some(if job.seed.Some? then Restored(job.base, job.fork, job.env, job.seed.value)
            else Forked(job.base, job.fork, job.env)), Ack)
    else if job.Adopt? then (Some(job.session), Ack)
    else if job.Discard? then (None, Ack)
    else if s.None? then (None, UnknownSession)
    else if job.State? then
      (s, if s.value.env.number <= U64_MAX then StateReply(StateOf(s.value, job.walk), s.value.env.number)
       else BlockNumberTooLarge)
    else if job.Branch? then (s, BranchReply(Branched(s.value)))
    else if job.BlockEnvOf? then (s, EnvReply(s.value.env))
    else if job.SetAccount? then (Some(WithAccount(s.value, job.address, job.info)), Ack)
    else (Some(WithStorage(s.value, job.address, job.key, job.value)), Ack)
  }

  // ---- The plain worker: one job at a time, every read real ----

  type Worlds = ForkId -> World

  /** `job` on its session by a worker that blocks on every read. */
  ghost function PlainHandle(worlds: Worlds, s: Option<SessionData>, job: Job,
                             faults: set<nat>): (Option<SessionData>, Reply) {
    if !Reading(job) then HandleJob(job, s)
    else if s.None? then (None, UnknownSession)
    else
      var r := RunPlain(worlds(s.value.fork).up, JobProgram(job, s.value.env), s.value, faults, 0);
      (Some(Accepted(job, r.session, r.diff)), r.reply)
  }

  /** A plain worker, as what it makes of one job. */
  type Plain = (Option<SessionData>, Job, set<nat>) -> (Option<SessionData>, Reply)

  ghost function PlainBy(worlds: Worlds): Plain {
    (s: Option<SessionData>, job: Job, faults: set<nat>) => PlainHandle(worlds, s, job, faults)
  }

  /** One session's life under a plain worker, no read failing. */
  ghost function SessionBy(plain: Plain, jobs: seq<Job>): Option<SessionData> {
    if jobs == [] then None
    else
      var last := |jobs| - 1;
      plain(SessionBy(plain, jobs[..last]), jobs[last], {}).0
  }

  ghost function RepliesBy(plain: Plain, jobs: seq<Job>): seq<Reply> {
    if jobs == [] then []
    else
      var last := |jobs| - 1;
      RepliesBy(plain, jobs[..last]) + [plain(SessionBy(plain, jobs[..last]), jobs[last], {}).1]
  }

  ghost function PlainSession(worlds: Worlds, jobs: seq<Job>): Option<SessionData> {
    SessionBy(PlainBy(worlds), jobs)
  }

  ghost function PlainReplies(worlds: Worlds, jobs: seq<Job>): seq<Reply> {
    RepliesBy(PlainBy(worlds), jobs)
  }

  // ---- The speculating worker ----

  datatype Blocked = Blocked(queue: seq<Job>, rounds: nat)

  datatype Resolve = Resolve(fork: Option<ForkId>, keys: set<StateKey>)

  /** What happened to a session, in order: a job answered, with the passes it
      took and the reads that failed in its blocking one, or a reaping. */
  datatype Event =
    | Answered(job: Job, reply: Reply, faults: set<nat>, speculative: nat, blocking: nat)
    | Reaped(id: SessionId)
  {
    function Session(): SessionId {
      if Answered? then job.id else id
    }
  }

  datatype Config = Config(
    sessions: map<SessionId, SessionData>,
    blocked: map<SessionId, Blocked>,
    inbox: seq<Message>,
    resolving: map<SessionId, Resolve>,
    readers: map<ForkId, Fetcher>,
    // For the statements only: what was sent, what happened, and how many
    // speculative passes each session's front job has had.
    sent: seq<Job>,
    log: seq<Event>,
    tried: map<SessionId, nat>)

  const START := Config(map[], map[], [], map[], map[], [], [], map[])

  function Get<V>(m: map<nat, V>, id: nat): Option<V> {
    if id in m then Some(m[id]) else None
  }

  function Put<V>(m: map<nat, V>, id: nat, v: Option<V>): map<nat, V> {
    if v.Some? then m[id := v.value] else m - {id}
  }

  function Reader(c: Config, fork: ForkId): Fetcher {
    if fork in c.readers then c.readers[fork] else Fetcher(map[], 0, None)
  }

  function Tried(c: Config, id: SessionId): nat {
    if id in c.tried then c.tried[id] else 0
  }

  datatype Outcome = Handled(c: Config) | Deferred(c: Config, keys: set<StateKey>)

  /** Record `job`'s answer; the next job starts with no passes behind it. */
  function Record(c: Config, job: Job, reply: Reply, faults: set<nat>, speculative: nat, blocking: nat): Config {
    c.(log := c.log + [Answered(job, reply, faults, speculative, blocking)], tried := c.tried - {job.id})
  }

  function RecordSimple(c: Config, job: Job, session: Option<SessionData>, reply: Reply): Config {
    Record(c.(sessions := Put(c.sessions, job.id, session)), job, reply, {}, Tried(c, job.id), 0)
  }

  function RecordPass(c: Config, job: Job, reply: Reply, faults: set<nat>, blocking: bool): Config {
    Record(c, job, reply, faults, Tried(c, job.id) + (if blocking then 0 else 1), if blocking then 1 else 0)
  }

  function OneMorePass(c: Config, id: SessionId): Config {
    c.(tried := c.tried[id := Tried(c, id) + 1])
  }

  function WrittenBack(c: Config, id: SessionId, session: SessionData, fork: ForkId, f: Fetcher): Config {
    c.(sessions := c.sessions[id := session], readers := c.readers[fork := f])
  }

  /** What is made of an attempt at `job` through `fork`: answer it, or hand
      it back with what it found missing. */
  function Conclude(c: Config, job: Job, fork: ForkId, r: Attempt, faults: set<nat>, blocking: bool): (o: Outcome)
    ensures o.c.blocked == c.blocked && o.c.inbox == c.inbox && o.c.sent == c.sent
  {
    var session := if r.Finished? then Accepted(job, r.session, r.diff) else r.session;
    var c1 := WrittenBack(c, job.id, session, fork, r.fetcher);
    if r.Finished? then Handled(RecordPass(c1, job, r.reply, faults, blocking))
    else Deferred(OneMorePass(c1, job.id), r.keys)
  }

  /** What the worker makes of `job`: an answer, or, from a speculative pass
      that missed something, the job unanswered and what it missed. */
  ghost function Handle(worlds: Worlds, c: Config, job: Job, blocking: bool): (o: Outcome)
    ensures o.c.blocked == c.blocked && o.c.inbox == c.inbox && o.c.sent == c.sent
  {
    if !Reading(job) then
      var (s, reply) := HandleJob(job, Get(c.sessions, job.id));
      Handled(RecordSimple(c, job, s, reply))
    else if job.id !in c.sessions then
      Handled(Record(c, job, UnknownSession, {}, Tried(c, job.id), 0))
    else
      var s := c.sessions[job.id];
      var (w, f, p) := (worlds(s.fork), Reader(c, s.fork), JobProgram(job, s.env));
      Conclude(c, job, s.fork, Attempted(w, p, s, f, blocking), AttemptFaults(w, p, s, f, blocking), blocking)
  }

  /** Block `job`'s session on `keys`, with `job` the first to be tried again.
      Without a thread to fetch them, a failed wake-up is posted at once. */
  function Park(c: Config, job: Job, keys: set<StateKey>, b: Blocked, spawned: bool): Config {
    var parked := c.(blocked := c.blocked[job.id := Blocked([job] + b.queue, b.rounds + 1)]);
    if spawned then
      var fork := if job.id in c.sessions then Some(c.sessions[job.id].fork) else None;
      parked.(resolving := c.resolving[job.id := Resolve(fork, keys)])
    else
      parked.(inbox := c.inbox + [Unblock(job.id, true)])
  }

  /** Answer the jobs of `queue` in order, up to the first that is deferred;
      it and those behind it are parked. */
  ghost function RunQueue(worlds: Worlds, c: Config, queue: seq<Job>, rounds: nat, blocking: bool,
                          spawned: bool): Config
    decreases |queue|
  {
    if queue == [] then c
    else
      match Handle(worlds, c, queue[0], blocking)
      case Handled(c') => RunQueue(worlds, c', queue[1..], 0, false, spawned)
      case Deferred(c', keys) => Park(c', queue[0], keys, Blocked(queue[1..], rounds), spawned)
  }

  ghost function Unblocked(worlds: Worlds, c: Config, id: SessionId, failed: bool, spawned: bool): Config {
    if id !in c.blocked then c
    else
      var b := c.blocked[id];
      RunQueue(worlds, c.(blocked := c.blocked - {id}), b.queue, b.rounds,
               failed || b.rounds >= MAX_SPECULATIVE_ROUNDS, spawned)
  }

  /** Behind the job its session is waiting for. */
  function Enqueued(c: Config, job: Job): Config
    requires job.id in c.blocked
  {
    var b := c.blocked[job.id];
    c.(blocked := c.blocked[job.id := b.(queue := b.queue + [job])])
  }

  /** The worker takes its next message. */
  ghost function Accept(worlds: Worlds, c: Config, m: Message, spawned: bool): Config {
    match m
    case Unblock(id, failed) => Unblocked(worlds, c, id, failed, spawned)
    case Request(job) =>
      if job.id in c.blocked then Enqueued(c, job)
      else
        match Handle(worlds, c, job, false)
        case Handled(c') => c'
        case Deferred(c', keys) => Park(c', job, keys, Blocked([], 0), spawned)
  }

  // ---- Runs ----

  datatype Step =
    | Send(job: Job)                           // a client's job reaches the inbox
    | Take(spawned: bool)                      // the worker takes a message; whether a thread could be spawned
    | Resolved(id: SessionId, failed: bool)    // a resolver is done and posts its wake-up
    | Grow(fork: ForkId, keys: set<StateKey>)  // other threads land keys in a fork's cache
    | Reap(id: SessionId)                      // a session outlives its TTL

  ghost predicate Enabled(c: Config, step: Step) {
    match step
    case Send(_) => true
    case Take(_) => c.inbox != []
    case Resolved(id, failed) =>
      // A resolve that succeeds has cached every key it was asked for.
      id in c.resolving &&
      (!failed ==>
         c.resolving[id].fork.Some? && c.resolving[id].keys <= Reader(c, c.resolving[id].fork.value).cache.Keys)
    case Grow(_, _) => true
    case Reap(id) => id in c.sessions
  }

  function Sent(c: Config, job: Job): Config {
    c.(inbox := c.inbox + [Request(job)], sent := c.sent + [job])
  }

  function Posted(c: Config, id: SessionId, failed: bool): Config {
    c.(resolving := c.resolving - {id}, inbox := c.inbox + [Unblock(id, failed)])
  }

  function Grown(c: Config, fork: ForkId, up: Upstream, keys: set<StateKey>): Config {
    var f := Reader(c, fork);
    c.(readers := c.readers[fork := f.(cache := Landed(up, f.cache, keys))])
  }

  function Expired(c: Config, id: SessionId): Config {
    c.(sessions := c.sessions - {id}, log := c.log + [Reaped(id)])
  }

  ghost function Next(worlds: Worlds, c: Config, step: Step): Config
    requires Enabled(c, step)
  {
    match step
    case Send(job) => Sent(c, job)
    case Take(spawned) => Accept(worlds, c.(inbox := c.inbox[1..]), c.inbox[0], spawned)
    case Resolved(id, failed) => Posted(c, id, failed)
    case Grow(fork, keys) => Grown(c, fork, worlds(fork).up, keys)
    case Reap(id) => Expired(c, id)
  }

  /** `trace` is the configurations of a run from the start, step by step. */
  ghost predicate IsRun(worlds: Worlds, steps: seq<Step>, trace: seq<Config>) {
    && |trace| == |steps| + 1
    && trace[0] == START
    && forall i :: 0 <= i < |steps| ==> Follows(worlds, steps, trace, i)
  }

  ghost predicate Follows(worlds: Worlds, steps: seq<Step>, trace: seq<Config>, i: nat)
    requires i < |steps| < |trace|
  {
    Enabled(trace[i], steps[i]) && trace[i + 1] == Next(worlds, trace[i], steps[i])
  }

  ghost predicate Reachable(worlds: Worlds, c: Config) {
    exists steps, trace :: IsRun(worlds, steps, trace) && trace[|steps|] == c
  }
}
