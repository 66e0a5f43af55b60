/** What each job means to its client, in terms of its session's view. */
module WorkerJobs {
  import opened Chain
  import opened Fetch
  import opened Engine
  import opened Passes
  import opened Views
  import opened Lineage
  import opened WorkerModel
  import opened WorkerInvariant
  import opened WorkerTheorems

  /** Touching sender and recipient first changes nothing an execution
      computes: it runs as if from the session's one view. */
  lemma TouchingChangesNothing(up: Upstream, tx: Tx, disableChecks: bool, env: BlockEnv, s: SessionData)
    ensures Eval(up, Transaction(tx, disableChecks, env), s) == Eval(up, tx.run(env, disableChecks), s)
  {
    var p := Transaction(tx, disableChecks, env);
    var rest := p.Next(Look(up, s, p.query));
    if tx.to.Some? {
      assert rest.Next(Look(up, s, rest.query)) == tx.run(env, disableChecks);
    }
  }

  /** Account `a` is answered without upstream, or the pass misses its key. */
  ghost predicate Reported(s: SessionData, a: Address, r: PassResult) {
    Local(s, AccountQ(a)).Some? || AccountKey(a) in r.fetcher.cache || AccountKey(a) in MissesOf(r.fetcher)
  }

  lemma AskReports(w: World, p: Program, s: SessionData, f: Fetcher, a: Address)
    requires Truthful(w.up, f.cache) && f.misses.Some? && p.Read? && p.query == AccountQ(a)
    ensures Reported(s, a, RunPass(w, p, s, f))
  {
    AskMatchesPlain(w, s, f, p.query);
    var (x, s', f') := Ask(w, s, f, p.query);
    PassOnlyAdds(w, p.Next(x), s', f');
    if Local(s, p.query).None? {
      ReadRefSound(w, f, AccountKey(a));
      assert AccountKey(a) in f'.cache || AccountKey(a) in f'.misses.value;
    }
  }

  lemma PassReportsBothEnds(w: World, tx: Tx, disableChecks: bool, env: BlockEnv, s: SessionData, f: Fetcher)
    requires Truthful(w.up, f.cache) && f.misses.Some?
    ensures var r := RunPass(w, Transaction(tx, disableChecks, env), s, f);
      Reported(s, tx.caller, r) && (tx.to.Some? ==> Reported(s, tx.to.value, r))
  {
    var p := Transaction(tx, disableChecks, env);
    AskReports(w, p, s, f, tx.caller);
    if tx.to.Some? && tx.to.value != tx.caller {
      AskMatchesPlain(w, s, f, p.query);
      var (x, s', f') := Ask(w, s, f, p.query);
      AskReports(w, p.Next(x), s', f', tx.to.value);
      assert Local(s', AccountQ(tx.to.value)) == Local(s, AccountQ(tx.to.value));
    }
  }

  /** However early an execution stops, its first speculative pass hands back
      both its ends, so that one fetch brings the two: each is held already, or
      cached by now, or among the keys to be fetched. */
  lemma BothEndsAreReported(worlds: Worlds, s: SessionData, f: Fetcher, job: Job)
    requires (job.Simulate? || job.Advance?) && Truthful(worlds(s.fork).up, f.cache)
    ensures var r := Attempted(worlds(s.fork), JobProgram(job, s.env), s, f, false);
      forall a :: a == job.tx.caller || Some(a) == job.tx.to ==>
        || Local(s, AccountQ(a)).Some? || AccountKey(a) in r.fetcher.cache
        || (r.Missed? && AccountKey(a) in r.keys)
  {
    var (w, s1, f1) := (worlds(s.fork), Speculating(s), f.(misses := Some([])));
    PassReportsBothEnds(w, job.tx, job.Simulate? && job.disableChecks, s.env, s1, f1);
    assert forall a :: Local(s1, AccountQ(a)) == Local(s, AccountQ(a));
  }

  /** With no read failing, `Basic` and `Storage` answer the view, and `Code`
      the code the view has for the account: inline, or under its hash. */
  lemma ReadJobsAnswerTheView(worlds: Worlds, s: SessionData, job: Job)
    requires job.Basic? || job.Storage? || job.Code?
    ensures var (up, reply) := (worlds(s.fork).up, PlainHandle(worlds, Some(s), job, {}).1);
      match job
      case Storage(_, a, i) =>
        Look(up, s, StorageQ(a, i)).WordA? && reply == WordReply(Look(up, s, StorageQ(a, i)).word)
      case Basic(_, a) => Look(up, s, AccountQ(a)).AccountA? && reply == AccountReply(Look(up, s, AccountQ(a)).info)
      case Code(_, a) =>
        && Look(up, s, AccountQ(a)).AccountA?
        && (match Look(up, s, AccountQ(a)).info
            case None => reply == CodeReply([])
            case Some(info) =>
              if info.code.Some? then reply == CodeReply(info.code.value.bytes)
              else if info.codeHash == KECCAK_EMPTY then reply == CodeReply([])
              else
                var code := Look(up, s, CodeQ(info.codeHash));
                reply == if code.CodeA? then CodeReply(code.code.bytes) else ReadError(code))
      case _ => true
  {
    var (up, p) := (worlds(s.fork).up, JobProgram(job, s.env));
    PlainRunKeepsView(up, p, s, {}, 0);
    assert PlainHandle(worlds, Some(s), job, {}).1 == Eval(up, p, s).0;
    var a := Look(up, s, p.query);
    assert Eval(up, p, s) == Eval(up, p.Next(a), s);
    if job.Code? && p.Next(a).Read? {
      var q := p.Next(a);
      assert Eval(up, q, s) == Eval(up, q.Next(Look(up, s, q.query)), s);
    }
  }

  /** A read job whose read upstream fails: an account, or an account's code,
      is an error; a slot is zero; and the session is as it was. */
  lemma FailedReadsAreTold(worlds: Worlds, s: SessionData, job: Job, faults: set<nat>)
    requires job.Basic? || job.Code? || job.Storage?
    requires Local(s, if job.Storage? then StorageQ(job.address, job.key) else AccountQ(job.address)).None?
    requires 0 in faults
    ensures PlainHandle(worlds, Some(s), job, faults) ==
            (Some(s), if job.Storage? then WordReply(0) else ReadError(FallbackErrorA))
  {
    var (up, p) := (worlds(s.fork).up, JobProgram(job, s.env));
    FailedPlainRead(up, s, p.query);
    assert RunPlain(up, p, s, faults, 0) == RunPlain(up, p.Next(AskPlain(up, s, p.query, true).0), s, faults, 1);
  }

  /** A cheat write changes exactly what it names, from then on. */
  lemma WriteJobsAreExact(up: Upstream, s: SessionData, job: Job, q: Query)
    requires job.SetAccount? || job.SetStorage?
    ensures HandleJob(job, Some(s)).0.Some? && HandleJob(job, Some(s)).1 == Ack
    ensures Look(up, HandleJob(job, Some(s)).0.value, q) ==
      if job.SetAccount? && q == AccountQ(job.address) then AccountA(Some(job.info))
      else if job.SetStorage? && q == StorageQ(job.address, job.key) then WordA(job.value)
      else Look(up, s, q)
  {
  }

  // ---- A session is its view ----

  /** All that can be told of a session from outside. */
  datatype Seen = Seen(view: View, fork: ForkId, env: BlockEnv)

  /** What a job does to a session known only by its view. */
  ghost function After(worlds: Worlds, v: Option<Seen>, job: Job): Option<Seen> {
    if job.Fork? then
      var base := Laid(job.base.layer, Ground(worlds(job.fork).up, job.base.blockHashes));
      Some(Seen(if job.seed.Some? then Laid(job.seed.value, base) else base, job.fork, job.env))
    else if job.Adopt? then
      Some(Seen(ViewOf(worlds(job.session.fork).up, job.session), job.session.fork, job.session.env))
    else if job.Discard? || v.None? then None
    else if job.SetAccount? then
      Some(v.value.(view := Laid(EMPTY_LAYER.(accounts := map[job.address := job.info]), v.value.view)))
    else if job.SetStorage? then
      Some(v.value.(view := Laid(EMPTY_LAYER.(storage := map[(job.address, job.key) := job.value]), v.value.view)))
    else if job.Advance? then
      var diff := OnView(v.value.view, job.tx.run(v.value.env, false)).1;
      if diff.None? then v
      else Some(v.value.(view := Laid(Layer(diff.value.accounts, map[], diff.value.storage), v.value.view)))
    else v
  }

  ghost predicate Sees(worlds: Worlds, s: SessionData, v: Seen) {
    s.fork == v.fork && s.env == v.env && forall q :: Look(worlds(s.fork).up, s, q) == v.view(q)
  }

  ghost predicate Shows(worlds: Worlds, s: Option<SessionData>, v: Option<Seen>) {
    s.Some? == v.Some? && (s.Some? ==> Sees(worlds, s.value, v.value))
  }

  /** The code `view` has for an account: inline, or under its hash. */
  function CodeTold(view: View, a: Address): Reply {
    match view(AccountQ(a))
    case AccountA(None) => CodeReply([])
    case AccountA(Some(info)) =>
      if info.code.Some? then CodeReply(info.code.value.bytes)
      else if info.codeHash == KECCAK_EMPTY then CodeReply([])
      else if view(CodeQ(info.codeHash)).CodeA? then CodeReply(view(CodeQ(info.codeHash)).code.bytes)
      else ReadError(view(CodeQ(info.codeHash)))
    case failure => ReadError(failure)
  }

  /** What a job that reads is told: an execution, by running it on the view. */
  ghost predicate ToldOfReading(v: Seen, job: Job, reply: Reply)
    requires Reading(job)
  {
    match job
    case Simulate(_, tx, disableChecks) => reply == OnView(v.view, tx.run(v.env, disableChecks)).0
    case Advance(_, tx) => reply == OnView(v.view, tx.run(v.env, false)).0
    case Storage(_, a, i) => v.view(StorageQ(a, i)).WordA? && reply == WordReply(v.view(StorageQ(a, i)).word)
    case Basic(_, a) => v.view(AccountQ(a)).AccountA? && reply == AccountReply(v.view(AccountQ(a)).info)
    case Code(_, a) => reply == CodeTold(v.view, a)
  }

  /** What a client is told, by the view alone; a child has its parent's.
      Of a saved state `SeededForkReadsAlike` says how it reads. */
  ghost predicate Told(worlds: Worlds, v: Option<Seen>, job: Job, reply: Reply) {
    if job.Fork? || job.Adopt? || job.Discard? then reply == Ack
    else if v.None? then reply == UnknownSession
    else if Reading(job) then ToldOfReading(v.value, job, reply)
    else
      match job
      case BlockEnvOf(_) => reply == EnvReply(v.value.env)
      case Branch(_) => reply.BranchReply? && reply.child.log == None && Sees(worlds, reply.child, v.value)
      case State(_, _) =>
        if v.value.env.number >= 0x1_0000_0000_0000_0000 then reply == BlockNumberTooLarge
        else reply.StateReply? && reply.number == v.value.env.number
      case _ => reply == Ack
  }

  lemma OpeningShows(worlds: Worlds, job: Job)
    requires job.Fork?
    ensures Shows(worlds, HandleJob(job, None).0, After(worlds, None, job))
  {
    var (s, v) := (HandleJob(job, None).0.value, After(worlds, None, job).value);
    forall q
      ensures Look(worlds(s.fork).up, s, q) == v.view(q)
    {
      LookIsTheView(worlds(s.fork).up, s, q);
    }
  }

  lemma WritingShows(worlds: Worlds, s: SessionData, v: Seen, job: Job)
    requires Sees(worlds, s, v) && (job.SetAccount? || job.SetStorage?)
    ensures Shows(worlds, HandleJob(job, Some(s)).0, After(worlds, Some(v), job))
  {
    var (s', v') := (HandleJob(job, Some(s)).0.value, After(worlds, Some(v), job).value);
    forall q
      ensures Look(worlds(s.fork).up, s', q) == v'.view(q)
    {
      assert Look(worlds(s.fork).up, s, q) == v.view(q);
      WriteJobsAreExact(worlds(s.fork).up, s, job, q);
    }
  }

  /** An `Advance` lays its diff over the view. */
  lemma AcceptedShows(worlds: Worlds, s: SessionData, v: Seen, job: Job, diff: Option<Diff>)
    requires Sees(worlds, s, v)
    ensures Sees(worlds, Accepted(job, s, diff),
                 if job.Advance? && diff.Some?
                 then v.(view := Laid(Layer(diff.value.accounts, map[], diff.value.storage), v.view))
                 else v)
  {
    if job.Advance? && diff.Some? {
      forall q
        ensures Look(worlds(s.fork).up, Committed(s, diff.value), q) ==
                Laid(Layer(diff.value.accounts, map[], diff.value.storage), v.view)(q)
      {
        assert Look(worlds(s.fork).up, s, q) == v.view(q);
        CommitView(worlds(s.fork).up, s, diff.value, q);
      }
    }
  }

  lemma ReadingShows(worlds: Worlds, s: SessionData, v: Seen, job: Job)
    requires Sees(worlds, s, v) && Reading(job)
    ensures var (s', reply) := PlainHandle(worlds, Some(s), job, {});
      Shows(worlds, s', After(worlds, Some(v), job)) && Told(worlds, Some(v), job, reply)
  {
    var (up, p) := (worlds(s.fork).up, JobProgram(job, s.env));
    var r := RunPlain(up, p, s, {}, 0);
    PlainRunKeepsView(up, p, s, {}, 0);
    PlainRunStays(up, p, s, {}, 0);
    assert Sees(worlds, r.session, v);
    AcceptedShows(worlds, r.session, v, job, r.diff);
    if job.Simulate? {
      ExecutionIsOfTheView(up, job.tx, job.disableChecks, s, v);
    } else if job.Advance? {
      ExecutionIsOfTheView(up, job.tx, false, s, v);
    } else {
      ReadTellsTheView(worlds, s, v, job);
    }
  }

  /** An execution comes to what `tx.run` comes to on the view. */
  lemma ExecutionIsOfTheView(up: Upstream, tx: Tx, disableChecks: bool, s: SessionData, v: Seen)
    requires v.env == s.env && forall q :: Look(up, s, q) == v.view(q)
    ensures Eval(up, Transaction(tx, disableChecks, s.env), s) == OnView(v.view, tx.run(s.env, disableChecks))
  {
    TouchingChangesNothing(up, tx, disableChecks, s.env, s);
    EvalIsOnView(up, tx.run(s.env, disableChecks), s, v.view);
  }

  lemma ReadTellsTheView(worlds: Worlds, s: SessionData, v: Seen, job: Job)
    requires Sees(worlds, s, v) && (job.Storage? || job.Basic? || job.Code?)
    ensures ToldOfReading(v, job, PlainHandle(worlds, Some(s), job, {}).1)
  {
    var up := worlds(s.fork).up;
    ReadJobsAnswerTheView(worlds, s, job);
    if job.Storage? {
      assert Look(up, s, StorageQ(job.address, job.key)) == v.view(StorageQ(job.address, job.key));
    } else {
      assert Look(up, s, AccountQ(job.address)) == v.view(AccountQ(job.address));
    }
    if job.Code? && Look(up, s, AccountQ(job.address)).info.Some? {
      var h := Look(up, s, AccountQ(job.address)).info.value.codeHash;
      assert Look(up, s, CodeQ(h)) == v.view(CodeQ(h));
    }
  }

  /** An `Advance` answers what its transaction, with the checks on, comes to
      on the session's view, and leaves that view with the run's diff laid
      over it. */
  lemma AdvanceRunsItsTransaction(worlds: Worlds, s: SessionData, id: SessionId, tx: Tx)
    ensures var (up, after) := (worlds(s.fork).up, PlainHandle(worlds, Some(s), Advance(id, tx), {}));
      var (reply, diff) := OnView(ViewOf(up, s), tx.run(s.env, false));
      && after.1 == reply && after.0.Some?
      && forall q :: Look(up, after.0.value, q) ==
           (if diff.Some? then Laid(Layer(diff.value.accounts, map[], diff.value.storage), ViewOf(up, s))
            else ViewOf(up, s))(q)
  {
    SessionShowsItsView(worlds, s);
    ReadingShows(worlds, s, Seen(ViewOf(worlds(s.fork).up, s), s.fork, s.env), Advance(id, tx));
  }

  /** A `Simulate` answers what its transaction comes to on the session's view,
      with or without the checks as it was asked, and changes no answer. */
  lemma SimulateRunsItsTransaction(worlds: Worlds, s: SessionData, id: SessionId, tx: Tx, disableChecks: bool)
    ensures var (up, after) := (worlds(s.fork).up, PlainHandle(worlds, Some(s), Simulate(id, tx, disableChecks), {}));
      && after.1 == OnView(ViewOf(up, s), tx.run(s.env, disableChecks)).0 && after.0.Some?
      && forall q :: Look(up, after.0.value, q) == ViewOf(up, s)(q)
  {
    SessionShowsItsView(worlds, s);
    ReadingShows(worlds, s, Seen(ViewOf(worlds(s.fork).up, s), s.fork, s.env), Simulate(id, tx, disableChecks));
  }

  /** Whatever reads fail, only an `Advance` changes what a session sees, and
      it only accounts and slots. */
  lemma OnlyAdvanceWrites(worlds: Worlds, s: SessionData, job: Job, faults: set<nat>)
    requires Reading(job)
    ensures var (up, after) := (worlds(s.fork).up, PlainHandle(worlds, Some(s), job, faults).0);
      && after.Some?
      && (!job.Advance? ==> SameView(up, s, after.value))
      && forall q: Query :: q.CodeQ? || q.BlockHashQ? ==> Look(up, after.value, q) == Look(up, s, q)
  {
    var (up, p) := (worlds(s.fork).up, JobProgram(job, s.env));
    PlainRunKeepsView(up, p, s, faults, 0);
    var r := RunPlain(up, p, s, faults, 0);
    forall q: Query | q.CodeQ? || q.BlockHashQ?
      ensures Look(up, Accepted(job, r.session, r.diff), q) == Look(up, s, q)
    {
      assert Look(up, r.session, q) == Look(up, s, q);
      if r.diff.Some? {
        CommitView(up, r.session, r.diff.value, q);
      }
    }
  }

  lemma SessionShowsItsView(worlds: Worlds, s: SessionData)
    ensures Sees(worlds, s, Seen(ViewOf(worlds(s.fork).up, s), s.fork, s.env))
  {
    forall q
      ensures Look(worlds(s.fork).up, s, q) == ViewOf(worlds(s.fork).up, s)(q)
    {
      LookIsTheView(worlds(s.fork).up, s, q);
    }
  }

  lemma {:induction false} PlainRunStays(up: Upstream, p: Program, s: SessionData, faults: set<nat>, i: nat)
    ensures var t := RunPlain(up, p, s, faults, i).session; t.fork == s.fork && t.env == s.env
    decreases p
  {
    if p.Read? {
      var (a, s') := AskPlain(up, s, p.query, i in faults);
      PlainRunStays(up, p.Next(a), s', faults, i + 1);
    }
  }

  /** One job, whatever it is: the session it leaves shows what the job makes
      of the view, and the client is told what the view says. */
  lemma JobsActOnViews(worlds: Worlds, s: Option<SessionData>, v: Option<Seen>, job: Job)
    requires Shows(worlds, s, v)
    ensures var (s', reply) := PlainHandle(worlds, s, job, {});
      Shows(worlds, s', After(worlds, v, job)) && Told(worlds, v, job, reply)
  {
    if job.Fork? {
      OpeningShows(worlds, job);
    } else if job.Adopt? {
      SessionShowsItsView(worlds, job.session);
    } else if s.Some? && Reading(job) {
      ReadingShows(worlds, s.value, v.value, job);
    } else if s.Some? && (job.SetAccount? || job.SetStorage?) {
      WritingShows(worlds, s.value, v.value, job);
    } else if s.Some? && job.Branch? {
      forall q
        ensures Look(worlds(s.value.fork).up, Branched(s.value), q) == v.value.view(q)
      {
        BranchKeepsView(s.value, q);
        assert Look(worlds(s.value.fork).up, s.value, q) == v.value.view(q);
      }
    }
  }

  ghost function Life(worlds: Worlds, jobs: seq<Job>): Option<Seen> {
    if jobs == [] then None
    else After(worlds, Life(worlds, jobs[..|jobs| - 1]), jobs[|jobs| - 1])
  }

  lemma {:induction false} ReplyAt(plain: Plain, jobs: seq<Job>, i: nat)
    requires i < |jobs|
    ensures |RepliesBy(plain, jobs)| == |jobs|
    ensures RepliesBy(plain, jobs)[i] == plain(SessionBy(plain, jobs[..i]), jobs[i], {}).1
  {
    var last := |jobs| - 1;
    if i < last {
      ReplyAt(plain, jobs[..last], i);
      assert jobs[..last][..i] == jobs[..i];
    } else if last > 0 {
      ReplyAt(plain, jobs[..last], 0);
    }
  }

  lemma {:induction false} LifeShows(worlds: Worlds, plain: Plain, jobs: seq<Job>)
    requires plain == PlainBy(worlds)
    ensures Shows(worlds, SessionBy(plain, jobs), Life(worlds, jobs))
  {
    if jobs != [] {
      var last := |jobs| - 1;
      LifeShows(worlds, plain, jobs[..last]);
      JobsActOnViews(worlds, SessionBy(plain, jobs[..last]), Life(worlds, jobs[..last]), jobs[last]);
    }
  }

  lemma LifeTells(worlds: Worlds, plain: Plain, jobs: seq<Job>, i: nat)
    requires plain == PlainBy(worlds) && i < |jobs|
    ensures |RepliesBy(plain, jobs)| == |jobs|
    ensures Told(worlds, Life(worlds, jobs[..i]), jobs[i], RepliesBy(plain, jobs)[i])
  {
    ReplyAt(plain, jobs, i);
    LifeShows(worlds, plain, jobs[..i]);
    JobsActOnViews(worlds, SessionBy(plain, jobs[..i]), Life(worlds, jobs[..i]), jobs[i]);
  }

  /** A whole life of forking, seeding, branching, adopting, executing,
      writing and discarding is that of a bare view: overlay, base, caches and
      inherited state can be told neither from the session nor from a reply. */
  lemma LifeOfASession(worlds: Worlds, jobs: seq<Job>)
    ensures Shows(worlds, PlainSession(worlds, jobs), Life(worlds, jobs))
    ensures |PlainReplies(worlds, jobs)| == |jobs|
    ensures forall i :: 0 <= i < |jobs| ==>
      Told(worlds, Life(worlds, jobs[..i]), jobs[i], PlainReplies(worlds, jobs)[i])
  {
    LifeShows(worlds, PlainBy(worlds), jobs);
    if jobs != [] {
      LifeTells(worlds, PlainBy(worlds), jobs, 0);
    }
    forall i | 0 <= i < |jobs|
      ensures Told(worlds, Life(worlds, jobs[..i]), jobs[i], PlainReplies(worlds, jobs)[i])
    {
      LifeTells(worlds, PlainBy(worlds), jobs, i);
    }
  }

  /** The same of the speculating worker, at every point of every healthy run:
      what clients are told is what bare views say. */
  lemma WorkerShowsViews(worlds: Worlds, c: Config, id: SessionId)
    requires Reachable(worlds, c) && Healthy(worlds) && Unreaped(EventsOf(c.log, id))
    ensures var jobs := AnsweredJobs(EventsOf(c.log, id));
      && Shows(worlds, Get(c.sessions, id), Life(worlds, jobs))
      && |Replies(EventsOf(c.log, id))| == |jobs|
      && forall i :: 0 <= i < |jobs| ==> Told(worlds, Life(worlds, jobs[..i]), jobs[i], Replies(EventsOf(c.log, id))[i])
  {
    HealthyRunsArePlain(worlds, c, id);
    LifeOfASession(worlds, AnsweredJobs(EventsOf(c.log, id)));
  }

  // ---- Adopting and resuming ----

  /** The same of its own, and the same answers without the fallback, however
      each is split into overlay, inherited state and base. */
  ghost predicate Twins(s: SessionData, t: SessionData) {
    s.fork == t.fork && s.env == t.env && Own(s) == Own(t) && forall q :: Local(s, q) == Local(t, q)
  }

  ghost predicate TwinsOrNone(s: Option<SessionData>, t: Option<SessionData>) {
    s.Some? == t.Some? && (s.Some? ==> Twins(s.value, t.value))
  }

  ghost predicate SameAnswer(r: Reply, r': Reply) {
    if r.BranchReply? && r'.BranchReply? then Twins(r.child, r'.child) else r == r'
  }

  lemma BranchIsATwin(s: SessionData)
    ensures Twins(Branched(s), s)
  {
    OverIsAssociative(Own(s), EMPTY_LAYER, EMPTY_LAYER);
    forall q
      ensures Local(Branched(s), q) == Local(s, q)
    {
      BranchKeepsView(s, q);
    }
  }

  /** `s` with `layer` written into its overlay. */
  function Added(s: SessionData, layer: Layer): SessionData {
    s.(overlay := layer.Over(s.overlay))
  }

  lemma LocalAdded(s: SessionData, layer: Layer, q: Query)
    ensures Local(Added(s, layer), q) ==
      if q.AccountQ? && q.address in layer.accounts then Some(AccountA(Some(layer.accounts[q.address])))
      else if q.StorageQ? && (q.owner, q.slot) in layer.storage then Some(WordA(layer.storage[(q.owner, q.slot)]))
      else if q.CodeQ? && q.hash in layer.code then Some(CodeA(layer.code[q.hash]))
      else Local(s, q)
  {
  }

  lemma TwinsAdd(s: SessionData, t: SessionData, layer: Layer)
    requires Twins(s, t)
    ensures Twins(Added(s, layer), Added(t, layer))
  {
    OverIsAssociative(layer, s.overlay, s.inherited);
    OverIsAssociative(layer, t.overlay, t.inherited);
    forall q
      ensures Local(Added(s, layer), q) == Local(Added(t, layer), q)
    {
      assert Local(s, q) == Local(t, q);
      LocalAdded(s, layer, q);
      LocalAdded(t, layer, q);
    }
  }

  /** What is remembered of an answer. */
  function EntryOf(q: Query, a: Answer): Layer {
    match (q, a)
    case (AccountQ(address), AccountA(Some(info))) => EMPTY_LAYER.(accounts := map[address := info])
    case (CodeQ(h), CodeA(code)) => EMPTY_LAYER.(code := map[h := code])
    case (StorageQ(owner, slot), WordA(word)) => EMPTY_LAYER.(storage := map[(owner, slot) := word])
    case _ => EMPTY_LAYER
  }

  lemma PutIsAdd<K, V>(m: map<K, V>, k: K, v: V)
    ensures m + map[k := v] == m[k := v] && m + map[] == m
  {
  }

  lemma RememberAdds(s: SessionData, q: Query, a: Answer)
    ensures Remember(s, q, a) == Added(s, EntryOf(q, a)).(log := Remember(s, q, a).log)
  {
    PutIsAdd(s.overlay.accounts, if q.AccountQ? then q.address else 0,
             if a.AccountA? && a.info.Some? then a.info.value else AccountInfo(0, 0, 0, None));
    PutIsAdd(s.overlay.code, if q.CodeQ? then q.hash else 0, if a.CodeA? then a.code else Bytecode([]));
    PutIsAdd(s.overlay.storage, if q.StorageQ? then (q.owner, q.slot) else (0, 0), if a.WordA? then a.word else 0);
  }

  lemma TwinsIgnoreLogs(s: SessionData, t: SessionData, log: Option<seq<ReadKey>>, log': Option<seq<ReadKey>>)
    requires Twins(s, t)
    ensures Twins(s.(log := log), t.(log := log'))
  {
    forall q
      ensures Local(s.(log := log), q) == Local(t.(log := log'), q)
    {
      LogIsNotRead(s, log, q);
      LogIsNotRead(t, log', q);
    }
  }

  lemma LogIsNotRead(s: SessionData, log: Option<seq<ReadKey>>, q: Query)
    ensures Local(s.(log := log), q) == Local(s, q)
  {
  }

  lemma TwinsRemember(s: SessionData, t: SessionData, q: Query, a: Answer)
    requires Twins(s, t)
    ensures Twins(Remember(s, q, a), Remember(t, q, a))
  {
    var layer := EntryOf(q, a);
    TwinsAdd(s, t, layer);
    RememberAdds(s, q, a);
    RememberAdds(t, q, a);
    TwinsIgnoreLogs(Added(s, layer), Added(t, layer), Remember(s, q, a).log, Remember(t, q, a).log);
  }

  lemma {:induction false} TwinsRunAlike(up: Upstream, p: Program, s: SessionData, t: SessionData, faults: set<nat>,
                                         i: nat)
    requires Twins(s, t)
    ensures var (r, r') := (RunPlain(up, p, s, faults, i), RunPlain(up, p, t, faults, i));
      r.reply == r'.reply && r.diff == r'.diff && Twins(r.session, r'.session)
    decreases p
  {
    if p.Read? {
      assert Local(s, p.query) == Local(t, p.query);
      var (a, s') := AskPlain(up, s, p.query, i in faults);
      var (_, t') := AskPlain(up, t, p.query, i in faults);
      TwinsRemember(s, t, p.query, a);
      TwinsRunAlike(up, p.Next(a), s', t', faults, i + 1);
    }
  }

  lemma TwinsCommit(s: SessionData, t: SessionData, d: Diff)
    requires Twins(s, t)
    ensures Twins(Committed(s, d), Committed(t, d))
  {
    var layer := Layer(d.accounts, map[], d.storage);
    assert s.overlay.code + map[] == s.overlay.code && t.overlay.code + map[] == t.overlay.code;
    assert Committed(s, d) == Added(s, layer) && Committed(t, d) == Added(t, layer);
    TwinsAdd(s, t, layer);
  }

  /** A cheat write is the commit of a diff of one entry. */
  lemma WritesAreCommits(s: SessionData, a: Address, info: AccountInfo, i: Slot, word: Word)
    ensures WithAccount(s, a, info) == Committed(s, Diff(map[a := info], map[]))
    ensures WithStorage(s, a, i, word) == Committed(s, Diff(map[], map[(a, i) := word]))
  {
    assert s.overlay.accounts + map[a := info] == s.overlay.accounts[a := info];
    assert s.overlay.storage + map[(a, i) := word] == s.overlay.storage[(a, i) := word];
    assert s.overlay.accounts + map[] == s.overlay.accounts && s.overlay.storage + map[] == s.overlay.storage;
  }

  /** The base's code only matters where the session has none of its own. */
  lemma {:induction false} GatherAlike(order: seq<Address>, accounts: map<Address, AccountInfo>,
                                       base: map<Hash, Bytecode>, base': map<Hash, Bytecode>, code: map<Hash, Bytecode>)
    requires forall a :: a in order ==> a in accounts
    requires forall h :: h !in code ==> (h in base <==> h in base') && (h in base ==> base[h] == base'[h])
    ensures Gather(order, accounts, base, code) == Gather(order, accounts, base', code)
    ensures code.Keys <= Gather(order, accounts, base, code).Keys
  {
    if order != [] {
      GatherAlike(order[..|order| - 1], accounts, base, base', code);
    }
  }

  lemma TwinsSaveAlike(s: SessionData, t: SessionData, order: seq<Address>)
    requires Twins(s, t) && Enumerates(order, Own(s).accounts.Keys)
    ensures StateIn(s, order) == StateIn(t, order)
  {
    var (base, base', code) := (s.base.layer.code, t.base.layer.code, Own(s).code);
    forall h | h !in code
      ensures (h in base <==> h in base') && (h in base ==> base[h] == base'[h])
    {
      assert Local(s, CodeQ(h)) == Local(t, CodeQ(h));
      assert h !in s.overlay.code && h !in Own(t).code;
    }
    GatherAlike(order, Own(s).accounts, base, base', code);
  }

  lemma TwinsReadAlike(worlds: Worlds, s: SessionData, t: SessionData, job: Job, faults: set<nat>)
    requires Twins(s, t) && Reading(job)
    ensures var (a, b) := (PlainHandle(worlds, Some(s), job, faults), PlainHandle(worlds, Some(t), job, faults));
      TwinsOrNone(a.0, b.0) && a.1 == b.1
  {
    var (up, p) := (worlds(s.fork).up, JobProgram(job, s.env));
    TwinsRunAlike(up, p, s, t, faults, 0);
    var (r, r') := (RunPlain(up, p, s, faults, 0), RunPlain(up, p, t, faults, 0));
    if job.Advance? && r.diff.Some? {
      TwinsCommit(r.session, r'.session, r.diff.value);
    }
  }

  lemma TwinsBranchAlike(s: SessionData, t: SessionData)
    requires Twins(s, t)
    ensures Twins(Branched(s), Branched(t))
  {
    BranchIsATwin(s);
    BranchIsATwin(t);
    forall q
      ensures Local(Branched(s), q) == Local(Branched(t), q)
    {
      assert Local(Branched(s), q) == Local(s, q) == Local(t, q) == Local(Branched(t), q);
    }
  }

  /** Twins answer every job alike, and stay twins. */
  lemma TwinsAnswerAlike(worlds: Worlds, s: Option<SessionData>, t: Option<SessionData>, job: Job, faults: set<nat>)
    requires TwinsOrNone(s, t)
    ensures var (a, b) := (PlainHandle(worlds, s, job, faults), PlainHandle(worlds, t, job, faults));
      TwinsOrNone(a.0, b.0) && SameAnswer(a.1, b.1)
  {
    if s.Some? {
      if Reading(job) {
        TwinsReadAlike(worlds, s.value, t.value, job, faults);
      } else if job.Branch? {
        TwinsBranchAlike(s.value, t.value);
      } else if job.State? {
        TwinsSaveAlike(s.value, t.value, job.walk(Own(s.value).accounts.Keys));
      } else if job.SetAccount? {
        WritesAreCommits(s.value, job.address, job.info, 0, 0);
        WritesAreCommits(t.value, job.address, job.info, 0, 0);
        TwinsCommit(s.value, t.value, Diff(map[job.address := job.info], map[]));
      } else if job.SetStorage? {
        WritesAreCommits(s.value, job.address, AccountInfo(0, 0, 0, None), job.key, job.value);
        WritesAreCommits(t.value, job.address, AccountInfo(0, 0, 0, None), job.key, job.value);
        TwinsCommit(s.value, t.value, Diff(map[], map[(job.address, job.key) := job.value]));
      }
    }
  }

  lemma {:induction false} TwinsForLife(worlds: Worlds, plain: Plain, a: seq<Job>, b: seq<Job>, more: seq<Job>)
    requires plain == PlainBy(worlds) && TwinsOrNone(SessionBy(plain, a), SessionBy(plain, b))
    ensures TwinsOrNone(SessionBy(plain, a + more), SessionBy(plain, b + more))
  {
    if more == [] {
      assert a + more == a && b + more == b;
    } else {
      var last := |more| - 1;
      TwinsForLife(worlds, plain, a, b, more[..last]);
      assert (a + more)[..|a + more| - 1] == a + more[..last] && (b + more)[..|b + more| - 1] == b + more[..last];
      TwinsAnswerAlike(worlds, SessionBy(plain, a + more[..last]), SessionBy(plain, b + more[..last]), more[last], {});
    }
  }

  lemma ReplyAfter(plain: Plain, jobs: seq<Job>, more: seq<Job>, i: nat)
    requires i < |more|
    ensures |RepliesBy(plain, jobs + more)| == |jobs| + |more|
    ensures RepliesBy(plain, jobs + more)[|jobs| + i] == plain(SessionBy(plain, jobs + more[..i]), more[i], {}).1
  {
    ReplyAt(plain, jobs + more, |jobs| + i);
    assert (jobs + more)[..|jobs| + i] == jobs + more[..i];
  }

  lemma TwinsReplyAlike(worlds: Worlds, plain: Plain, a: seq<Job>, b: seq<Job>, more: seq<Job>, i: nat)
    requires plain == PlainBy(worlds) && TwinsOrNone(SessionBy(plain, a), SessionBy(plain, b)) && i < |more|
    ensures |RepliesBy(plain, a + more)| == |a| + |more| && |RepliesBy(plain, b + more)| == |b| + |more|
    ensures SameAnswer(RepliesBy(plain, a + more)[|a| + i], RepliesBy(plain, b + more)[|b| + i])
  {
    TwinsForLife(worlds, plain, a, b, more[..i]);
    ReplyAfter(plain, a, more, i);
    ReplyAfter(plain, b, more, i);
    TwinsAnswerAlike(worlds, SessionBy(plain, a + more[..i]), SessionBy(plain, b + more[..i]), more[i], {});
  }

  lemma AdoptedIsATwin(worlds: Worlds, jobs: seq<Job>, id: SessionId)
    requires PlainSession(worlds, jobs).Some?
    ensures TwinsOrNone(PlainSession(worlds, [Adopt(id, Branched(PlainSession(worlds, jobs).value))]),
                        PlainSession(worlds, jobs))
  {
    var s := PlainSession(worlds, jobs).value;
    assert [Adopt(id, Branched(s))][..0] == [];
    BranchIsATwin(s);
  }

  /** Whatever is asked of either from then on, an adopted child answers as its
      parent would have: the same reply, the same saved state, children that
      are twins. */
  lemma AdoptedChildLivesAsParent(worlds: Worlds, jobs: seq<Job>, id: SessionId, more: seq<Job>, i: nat)
    requires PlainSession(worlds, jobs).Some? && i < |more|
    ensures var adopted := [Adopt(id, Branched(PlainSession(worlds, jobs).value))] + more;
      && |PlainReplies(worlds, adopted)| == 1 + |more| && |PlainReplies(worlds, jobs + more)| == |jobs| + |more|
      && SameAnswer(PlainReplies(worlds, adopted)[1 + i], PlainReplies(worlds, jobs + more)[|jobs| + i])
      && TwinsOrNone(PlainSession(worlds, adopted), PlainSession(worlds, jobs + more))
  {
    var adopt := [Adopt(id, Branched(PlainSession(worlds, jobs).value))];
    AdoptedIsATwin(worlds, jobs, id);
    TwinsForLife(worlds, PlainBy(worlds), adopt, jobs, more);
    TwinsReplyAlike(worlds, PlainBy(worlds), adopt, jobs, more, i);
  }

  /** What `State` answered, seeded into a fork of the base the session's
      lineage began on, opens a session that reads as it did, and finds by hash
      the code it held or could name. */
  lemma SeededForkReadsAlike(worlds: Worlds, root: BaseSnapshot, s: SessionData, walk: Walk, id: SessionId, q: Query)
    requires Rooted(root, s) && s.env.number <= U64_MAX
    ensures HandleJob(State(id, walk), Some(s)).1.StateReply?
    ensures var saved := HandleJob(State(id, walk), Some(s)).1.state;
      var t := HandleJob(Fork(id, root, s.fork, s.env, Some(saved)), None).0;
      && t.Some?
      && (!q.CodeQ? ==> Look(worlds(s.fork).up, t.value, q) == Look(worlds(s.fork).up, s, q))
      && (q.CodeQ? ==> (Local(t.value, q).Some? <==>
            Local(s, q).Some? || exists a :: Names(Own(s).accounts, s.base.layer.code, a, q.hash)))
  {
    var order := walk(Own(s).accounts.Keys);
    if q.CodeQ? {
      RestoreFindsCode(root, s, order, q.hash);
    } else {
      RestoreAnswersAlike(root, s, order, q);
    }
  }
}
