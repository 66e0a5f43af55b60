/** What every step of the worker keeps: order and conservation of jobs,
    wake-up accounting, the bound on passes, and that every session is where
    the plain worker would have it. */
module WorkerInvariant {
  import opened Chain
  import opened Fetch
  import opened Engine
  import opened Passes
  import opened WorkerModel

  // ---- One session's share of a run ----

  ghost function JobsFor(jobs: seq<Job>, id: SessionId): seq<Job> {
    if jobs == [] then []
    else
      var last := |jobs| - 1;
      JobsFor(jobs[..last], id) + if jobs[last].id == id then [jobs[last]] else []
  }

  ghost function Pending(inbox: seq<Message>, id: SessionId): seq<Job> {
    if inbox == [] then []
    else
      var last := |inbox| - 1;
      Pending(inbox[..last], id) + if inbox[last].Request? && inbox[last].job.id == id then [inbox[last].job] else []
  }

  ghost function Unblocks(inbox: seq<Message>, id: SessionId): nat {
    if inbox == [] then 0
    else
      var last := |inbox| - 1;
      Unblocks(inbox[..last], id) + if inbox[last].Unblock? && inbox[last].id == id then 1 else 0
  }

  ghost function EventsOf(log: seq<Event>, id: SessionId): seq<Event> {
    if log == [] then []
    else
      var last := |log| - 1;
      EventsOf(log[..last], id) + if log[last].Session() == id then [log[last]] else []
  }

  ghost function AnsweredJobs(events: seq<Event>): seq<Job> {
    if events == [] then []
    else
      var last := |events| - 1;
      AnsweredJobs(events[..last]) + if events[last].Answered? then [events[last].job] else []
  }

  lemma SnocJob(jobs: seq<Job>, job: Job, id: SessionId)
    ensures JobsFor(jobs + [job], id) == JobsFor(jobs, id) + if job.id == id then [job] else []
  {
    assert (jobs + [job])[..|jobs|] == jobs;
  }

  lemma SnocMessage(inbox: seq<Message>, m: Message, id: SessionId)
    ensures Pending(inbox + [m], id) == Pending(inbox, id) + if m.Request? && m.job.id == id then [m.job] else []
    ensures Unblocks(inbox + [m], id) == Unblocks(inbox, id) + if m.Unblock? && m.id == id then 1 else 0
  {
    assert (inbox + [m])[..|inbox|] == inbox;
  }

  lemma {:induction false} ConsPending(inbox: seq<Message>, id: SessionId)
    requires inbox != []
    ensures Pending(inbox, id) ==
            (if inbox[0].Request? && inbox[0].job.id == id then [inbox[0].job] else []) + Pending(inbox[1..], id)
  {
    var last := |inbox| - 1;
    if last > 0 {
      var (front, back) := (inbox[..last], inbox[1..]);
      ConsPending(front, id);
      assert back[..|back| - 1] == front[1..] && back[|back| - 1] == inbox[last];
    }
  }

  lemma {:induction false} ConsUnblocks(inbox: seq<Message>, id: SessionId)
    requires inbox != []
    ensures Unblocks(inbox, id) ==
            (if inbox[0].Unblock? && inbox[0].id == id then 1 else 0) + Unblocks(inbox[1..], id)
  {
    var last := |inbox| - 1;
    if last > 0 {
      var (front, back) := (inbox[..last], inbox[1..]);
      ConsUnblocks(front, id);
      assert back[..|back| - 1] == front[1..] && back[|back| - 1] == inbox[last];
    }
  }

  lemma SnocEvent(log: seq<Event>, e: Event, id: SessionId)
    ensures EventsOf(log + [e], id) == EventsOf(log, id) + if e.Session() == id then [e] else []
  {
    assert (log + [e])[..|log|] == log;
  }

  lemma SnocAnswer(events: seq<Event>, e: Event)
    ensures AnsweredJobs(events + [e]) == AnsweredJobs(events) + if e.Answered? then [e.job] else []
  {
    assert (events + [e])[..|events|] == events;
  }

  // ---- The plain worker on the same history ----

  /** Where the plain worker's session is after `events`: the same jobs, the
      same failed reads, reaped when it was. */
  ghost function PlainAfter(plain: Plain, events: seq<Event>): Option<SessionData> {
    if events == [] then None
    else
      var last := |events| - 1;
      match events[last]
      case Answered(job, _, faults, _, _) => plain(PlainAfter(plain, events[..last]), job, faults).0
      case Reaped(_) => None
  }

  /** Every reply is the plain worker's. */
  ghost predicate Faithful(plain: Plain, events: seq<Event>) {
    events != [] ==>
      var last := |events| - 1;
      && Faithful(plain, events[..last])
      && (events[last].Answered? ==>
            events[last].reply ==
            plain(PlainAfter(plain, events[..last]), events[last].job, events[last].faults).1)
  }

  lemma SnocPlain(plain: Plain, events: seq<Event>, e: Event)
    ensures PlainAfter(plain, events + [e]) ==
            if e.Answered? then plain(PlainAfter(plain, events), e.job, e.faults).0 else None
    ensures Faithful(plain, events + [e]) <==>
            Faithful(plain, events) &&
            (e.Answered? ==> e.reply == plain(PlainAfter(plain, events), e.job, e.faults).1)
  {
    assert (events + [e])[..|events|] == events;
  }

  // ---- The invariant ----

  /** A queue the worker has taken out of `blocked` and is running: between
      messages there is none. */
  datatype Held = Held(id: SessionId, queue: seq<Job>, rounds: nat)

  /** One session's share of a configuration. */
  datatype Share = Share(
    id: SessionId,
    session: Option<SessionData>,
    events: seq<Event>,
    held: bool,
    blocked: bool,
    queue: seq<Job>,
    rounds: nat,
    tried: nat,
    wakeups: nat,
    pending: seq<Job>,
    sent: seq<Job>)

  ghost function Wakeups(c: Config, id: SessionId): nat {
    Unblocks(c.inbox, id) + if id in c.resolving then 1 else 0
  }

  ghost function ShareOf(c: Config, h: Option<Held>, id: SessionId): Share {
    var held := h.Some? && h.value.id == id;
    Share(id, Get(c.sessions, id), EventsOf(c.log, id), held, id in c.blocked,
          if held then h.value.queue else if id in c.blocked then c.blocked[id].queue else [],
          if held then h.value.rounds else if id in c.blocked then c.blocked[id].rounds else 0,
          Tried(c, id), Wakeups(c, id), Pending(c.inbox, id), JobsFor(c.sent, id))
  }

  /** The session is exactly where the plain worker's is. */
  ghost predicate Explained(plain: Plain, s: Share) {
    && (s.session.Some? ==> s.session.value.log == None)
    && PlainAfter(plain, s.events) == s.session
    && Faithful(plain, s.events)
  }

  /** Blocked means exactly one wake-up outstanding; the front job has had as
      many speculative passes as `rounds` says. */
  ghost predicate Accounted(s: Share) {
    && (s.held ==> !s.blocked && (s.queue == [] ==> s.rounds == 0))
    && (s.blocked ==> s.queue != [] && s.rounds >= 1)
    && (forall j :: j in s.queue ==> j.id == s.id)
    && s.rounds <= MAX_SPECULATIVE_ROUNDS
    && s.tried == s.rounds
    && s.wakeups == if s.blocked then 1 else 0
  }

  /** Answered, then queued, then still in the inbox: all that was sent, in
      the order it was sent. */
  ghost predicate Conserved(s: Share) {
    AnsweredJobs(s.events) + s.queue + s.pending == s.sent
  }

  ghost predicate ShareOk(plain: Plain, s: Share) {
    Explained(plain, s) && Accounted(s) && Conserved(s)
  }

  ghost predicate ReadersOk(worlds: Worlds, c: Config) {
    forall f :: f in c.readers ==> c.readers[f].misses == None && Truthful(worlds(f).up, c.readers[f].cache)
  }

  /** Upstream never fails a read. */
  ghost predicate Healthy(worlds: Worlds) {
    forall fork, n :: !worlds(fork).fails(n)
  }

  ghost predicate BoundedEvent(worlds: Worlds, e: Event) {
    e.Answered? ==>
      e.speculative <= MAX_SPECULATIVE_ROUNDS && e.blocking <= 1 &&
        (e.blocking == 0 || Healthy(worlds) ==> e.faults == {})
  }

  ghost predicate Bounded(worlds: Worlds, c: Config) {
    forall e :: e in c.log ==> BoundedEvent(worlds, e)
  }

  ghost predicate InvWith(worlds: Worlds, plain: Plain, c: Config, h: Option<Held>) {
    && ReadersOk(worlds, c)
    && Bounded(worlds, c)
    && forall id :: ShareOk(plain, ShareOf(c, h, id))
  }

  ghost predicate Inv(worlds: Worlds, plain: Plain, c: Config) {
    InvWith(worlds, plain, c, None)
  }

  // ---- What can happen to a share ----

  /** Its front job is answered, as the plain worker would. */
  lemma AnswerShare(plain: Plain, s: Share, e: Event, session: Option<SessionData>)
    requires ShareOk(plain, s) && s.held && s.queue != []
    requires e.Answered? && e.job == s.queue[0]
    requires plain(s.session, e.job, e.faults) == (session, e.reply)
    requires session.Some? ==> session.value.log == None
    ensures ShareOk(plain, s.(session := session, events := s.events + [e], queue := s.queue[1..], rounds := 0,
                              tried := 0))
  {
    SnocPlain(plain, s.events, e);
    SnocAnswer(s.events, e);
    assert s.queue == [e.job] + s.queue[1..];
  }

  /** It is reaped. */
  lemma ReapShare(plain: Plain, s: Share)
    requires ShareOk(plain, s)
    ensures ShareOk(plain, s.(session := None, events := s.events + [Reaped(s.id)]))
  {
    SnocPlain(plain, s.events, Reaped(s.id));
    SnocAnswer(s.events, Reaped(s.id));
  }

  /** One more job of its own is sent. */
  lemma SendShare(plain: Plain, s: Share, job: Job)
    requires ShareOk(plain, s)
    ensures ShareOk(plain, s.(pending := s.pending + [job], sent := s.sent + [job]))
  {
    assert AnsweredJobs(s.events) + s.queue + (s.pending + [job]) ==
           AnsweredJobs(s.events) + s.queue + s.pending + [job];
  }

  /** The worker takes its next job, to queue it or to run it. */
  lemma TakeShare(plain: Plain, s: Share, job: Job, rest: seq<Job>)
    requires ShareOk(plain, s) && !s.held && (s.blocked || (s.queue == [] && s.rounds == 0))
    requires s.pending == [job] + rest && job.id == s.id
    ensures ShareOk(plain, s.(held := !s.blocked, queue := if s.blocked then s.queue + [job] else [job],
                              pending := rest))
  {
    assert [] + [job] == [job];
    assert AnsweredJobs(s.events) + s.queue + s.pending == AnsweredJobs(s.events) + (s.queue + [job]) + rest;
  }

  // ---- One job handled ----

  lemma RecordMoves(c: Config, c1: Config, h: Held, e: Event, id: SessionId)
    requires e.Answered? && h.queue != [] && e.job == h.queue[0] && e.job.id == h.id
    requires c1 == c.(sessions := c1.sessions, readers := c1.readers)
    requires id != h.id ==> Get(c1.sessions, id) == Get(c.sessions, id)
    ensures var (c2, s) := (Record(c1, e.job, e.reply, e.faults, e.speculative, e.blocking), ShareOf(c, Some(h), id));
      ShareOf(c2, Some(Held(h.id, h.queue[1..], 0)), id) ==
      if id == h.id
      then s.(session := Get(c1.sessions, id), events := s.events + [e], queue := s.queue[1..], rounds := 0, tried := 0)
      else s
  {
    SnocEvent(c.log, e, id);
  }

  /** Answering the held queue's front job, however it was done, when the
      plain worker would have done the same. */
  lemma AnswerKeeps(worlds: Worlds, plain: Plain, c: Config, c1: Config, h: Held, reply: Reply, faults: set<nat>,
                    speculative: nat, blocking: nat)
    requires InvWith(worlds, plain, c, Some(h)) && h.queue != []
    requires c1 == c.(sessions := c1.sessions, readers := c1.readers) && ReadersOk(worlds, c1)
    requires forall id :: id != h.id ==> Get(c1.sessions, id) == Get(c.sessions, id)
    requires h.id in c1.sessions ==> c1.sessions[h.id].log == None
    requires plain(Get(c.sessions, h.id), h.queue[0], faults) == (Get(c1.sessions, h.id), reply)
    requires BoundedEvent(worlds, Answered(h.queue[0], reply, faults, speculative, blocking))
    ensures InvWith(worlds, plain, Record(c1, h.queue[0], reply, faults, speculative, blocking),
                    Some(Held(h.id, h.queue[1..], 0)))
  {
    var e := Answered(h.queue[0], reply, faults, speculative, blocking);
    var (c2, h2) := (Record(c1, e.job, reply, faults, speculative, blocking), Some(Held(h.id, h.queue[1..], 0)));
    FrontIsOwn(worlds, plain, c, h);
    forall id
      ensures ShareOk(plain, ShareOf(c2, h2, id))
    {
      assert ShareOk(plain, ShareOf(c, Some(h), id));
      RecordMoves(c, c1, h, e, id);
      if id == h.id {
        AnswerShare(plain, ShareOf(c, Some(h), id), e, Get(c1.sessions, id));
      }
    }
  }

  lemma FrontIsOwn(worlds: Worlds, plain: Plain, c: Config, h: Held)
    requires InvWith(worlds, plain, c, Some(h))
    ensures h.queue != [] ==> h.queue[0].id == h.id
    ensures h.rounds <= MAX_SPECULATIVE_ROUNDS && Tried(c, h.id) == h.rounds
    ensures h.id in c.sessions ==> c.sessions[h.id].log == None
  {
    assert ShareOk(plain, ShareOf(c, Some(h), h.id));
  }

  lemma OneMorePassMoves(c: Config, c1: Config, h: Held, id: SessionId)
    requires c1 == c.(readers := c1.readers)
    ensures var (c2, s) := (OneMorePass(c1, h.id), ShareOf(c, Some(h), id));
      ShareOf(c2, Some(Held(h.id, h.queue, h.rounds + 1)), id) ==
      if id == h.id then s.(rounds := s.rounds + 1, tried := s.tried + 1) else s
  {
  }

  /** A dirty pass changed nothing but the cache, and counts. */
  lemma DeferKeeps(worlds: Worlds, plain: Plain, c: Config, c1: Config, h: Held)
    requires InvWith(worlds, plain, c, Some(h)) && h.queue != [] && h.rounds < MAX_SPECULATIVE_ROUNDS
    requires c1 == c.(readers := c1.readers) && ReadersOk(worlds, c1)
    ensures InvWith(worlds, plain, OneMorePass(c1, h.id), Some(Held(h.id, h.queue, h.rounds + 1)))
  {
    var h1 := Some(Held(h.id, h.queue, h.rounds + 1));
    forall id
      ensures ShareOk(plain, ShareOf(OneMorePass(c1, h.id), h1, id))
    {
      assert ShareOk(plain, ShareOf(c, Some(h), id));
      OneMorePassMoves(c, c1, h, id);
    }
  }

  lemma PutBack<V>(m: map<SessionId, V>, id: SessionId)
    requires id in m
    ensures m[id := m[id]] == m
  {
  }

  lemma WrittenBackReaders(worlds: Worlds, c: Config, id: SessionId, session: SessionData, fork: ForkId, f: Fetcher)
    requires ReadersOk(worlds, c) && f.misses == None && Truthful(worlds(fork).up, f.cache)
    ensures ReadersOk(worlds, WrittenBack(c, id, session, fork, f))
  {
  }

  lemma WrittenBackMoves(c: Config, id: SessionId, session: SessionData, fork: ForkId, f: Fetcher)
    ensures var c1 := WrittenBack(c, id, session, fork, f);
      && c1 == c.(sessions := c1.sessions, readers := c1.readers) && Get(c1.sessions, id) == Some(session)
      && forall other :: other != id ==> Get(c1.sessions, other) == Get(c.sessions, other)
  {
  }

  /** The passes an answer records, after a last one of either kind. */
  lemma PassIsBounded(worlds: Worlds, plain: Plain, c: Config, h: Held, reply: Reply, faults: set<nat>, blocking: bool)
    requires InvWith(worlds, plain, c, Some(h)) && h.queue != []
    requires blocking || h.rounds < MAX_SPECULATIVE_ROUNDS
    requires !blocking || Healthy(worlds) ==> faults == {}
    ensures BoundedEvent(worlds, Answered(h.queue[0], reply, faults, Tried(c, h.id) + (if blocking then 0 else 1),
                                          if blocking then 1 else 0))
  {
    FrontIsOwn(worlds, plain, c, h);
  }

  /** A pass that finished as the plain worker does. */
  lemma FinishedKeeps(worlds: Worlds, plain: Plain, c: Config, h: Held, session: SessionData, fork: ForkId, f: Fetcher,
                      reply: Reply,
                      faults: set<nat>, blocking: bool)
    requires InvWith(worlds, plain, c, Some(h)) && h.queue != [] && session.log == None
    requires ReadersOk(worlds, WrittenBack(c, h.id, session, fork, f))
    requires plain(Get(c.sessions, h.id), h.queue[0], faults) == (Some(session), reply)
    requires BoundedEvent(worlds,
                          Answered(h.queue[0], reply, faults, Tried(c, h.id) + (if blocking then 0 else 1),
                                   if blocking then 1 else 0))
    ensures InvWith(worlds, plain,
                    RecordPass(WrittenBack(c, h.id, session, fork, f), h.queue[0], reply, faults, blocking),
                    Some(Held(h.id, h.queue[1..], 0)))
  {
    FrontIsOwn(worlds, plain, c, h);
    WrittenBackMoves(c, h.id, session, fork, f);
    AnswerKeeps(worlds, plain, c, WrittenBack(c, h.id, session, fork, f), h, reply, faults,
                Tried(c, h.id) + (if blocking then 0 else 1), if blocking then 1 else 0);
  }

  /** An attempt that missed, and left its session as it was. */
  lemma MissedKeeps(worlds: Worlds, plain: Plain, c: Config, h: Held, r: Attempt, faults: set<nat>)
    requires InvWith(worlds, plain, c, Some(h)) && h.queue != [] && h.id in c.sessions && h.queue[0].id == h.id
    requires h.rounds < MAX_SPECULATIVE_ROUNDS && r.Missed? && r.session == c.sessions[h.id]
    requires r.fetcher.misses == None && Truthful(worlds(c.sessions[h.id].fork).up, r.fetcher.cache)
    ensures var c1 := WrittenBack(c, h.id, r.session, c.sessions[h.id].fork, r.fetcher);
      c1.sessions == c.sessions &&
      InvWith(worlds, plain, OneMorePass(c1, h.id), Some(Held(h.id, h.queue, h.rounds + 1)))
  {
    var fork := c.sessions[h.id].fork;
    PutBack(c.sessions, h.id);
    WrittenBackReaders(worlds, c, h.id, r.session, fork, r.fetcher);
    DeferKeeps(worlds, plain, c, WrittenBack(c, h.id, r.session, fork, r.fetcher), h);
  }

  lemma ReadingJobKeeps(worlds: Worlds, plain: Plain, c: Config, h: Held, blocking: bool)
    requires plain == PlainBy(worlds) && InvWith(worlds, plain, c, Some(h)) && h.queue != []
    requires blocking || h.rounds < MAX_SPECULATIVE_ROUNDS
    requires Reading(h.queue[0]) && h.queue[0].id == h.id && h.id in c.sessions
    ensures match Handle(worlds, c, h.queue[0], blocking)
      case Handled(c') => InvWith(worlds, plain, c', Some(Held(h.id, h.queue[1..], 0)))
      case Deferred(c', keys) =>
        !blocking && c'.sessions == c.sessions && InvWith(worlds, plain, c', Some(Held(h.id, h.queue, h.rounds + 1)))
  {
    FrontIsOwn(worlds, plain, c, h);
    var s := c.sessions[h.id];
    var (w, f, p) := (worlds(s.fork), Reader(c, s.fork), JobProgram(h.queue[0], s.env));
    AttemptIsPlainOrNothing(w, p, s, f, blocking);
    var (r, faults) := (Attempted(w, p, s, f, blocking), AttemptFaults(w, p, s, f, blocking));
    if r.Finished? {
      var session := Accepted(h.queue[0], r.session, r.diff);
      WrittenBackReaders(worlds, c, h.id, session, s.fork, r.fetcher);
      PassIsBounded(worlds, plain, c, h, r.reply, faults, blocking);
      FinishedKeeps(worlds, plain, c, h, session, s.fork, r.fetcher, r.reply, faults, blocking);
    } else {
      MissedKeeps(worlds, plain, c, h, r, faults);
    }
  }

  lemma SimpleJobKeeps(worlds: Worlds, plain: Plain, c: Config, h: Held, blocking: bool)
    requires plain == PlainBy(worlds) && InvWith(worlds, plain, c, Some(h)) && h.queue != [] && !Reading(h.queue[0])
    ensures var o := Handle(worlds, c, h.queue[0], blocking);
      o.Handled? && InvWith(worlds, plain, o.c, Some(Held(h.id, h.queue[1..], 0)))
  {
    FrontIsOwn(worlds, plain, c, h);
    var job := h.queue[0];
    var (s, reply) := HandleJob(job, Get(c.sessions, job.id));
    assert plain(Get(c.sessions, job.id), job, {}) == (s, reply);
    AnswerKeeps(worlds, plain, c, c.(sessions := Put(c.sessions, job.id, s)), h, reply, {}, Tried(c, job.id), 0);
  }

  lemma UnknownJobKeeps(worlds: Worlds, plain: Plain, c: Config, h: Held, blocking: bool)
    requires plain == PlainBy(worlds) && InvWith(worlds, plain, c, Some(h)) && h.queue != [] && Reading(h.queue[0])
    requires h.id !in c.sessions
    ensures var o := Handle(worlds, c, h.queue[0], blocking);
      o.Handled? && InvWith(worlds, plain, o.c, Some(Held(h.id, h.queue[1..], 0)))
  {
    FrontIsOwn(worlds, plain, c, h);
    assert plain(None, h.queue[0], {}) == (None, UnknownSession);
    AnswerKeeps(worlds, plain, c, c, h, UnknownSession, {}, Tried(c, h.id), 0);
  }

  /** One job, run either way: answered as the plain worker would, or back
      with nothing changed but the cache and one more pass behind it. */
  lemma HandleKeeps(worlds: Worlds, plain: Plain, c: Config, h: Held, blocking: bool)
    requires plain == PlainBy(worlds) && InvWith(worlds, plain, c, Some(h)) && h.queue != []
    requires blocking || h.rounds < MAX_SPECULATIVE_ROUNDS
    ensures match Handle(worlds, c, h.queue[0], blocking)
      case Handled(c') => InvWith(worlds, plain, c', Some(Held(h.id, h.queue[1..], 0)))
      case Deferred(c', keys) =>
        !blocking && c'.sessions == c.sessions && InvWith(worlds, plain, c', Some(Held(h.id, h.queue, h.rounds + 1)))
  {
    if !Reading(h.queue[0]) {
      SimpleJobKeeps(worlds, plain, c, h, blocking);
    } else if h.id !in c.sessions {
      UnknownJobKeeps(worlds, plain, c, h, blocking);
    } else {
      FrontIsOwn(worlds, plain, c, h);
      ReadingJobKeeps(worlds, plain, c, h, blocking);
    }
  }

  /** What an unspawned resolver's wake-up does to the inbox. */
  lemma WakeUpMoves(c: Config, woken: SessionId, failed: bool, id: SessionId)
    ensures var c' := c.(inbox := c.inbox + [Unblock(woken, failed)]);
      && Pending(c'.inbox, id) == Pending(c.inbox, id)
      && Wakeups(c', id) == Wakeups(c, id) + if id == woken then 1 else 0
  {
    SnocMessage(c.inbox, Unblock(woken, failed), id);
  }

  lemma ParkWakes(c: Config, job: Job, keys: set<StateKey>, b: Blocked, spawned: bool, id: SessionId)
    requires job.id !in c.resolving
    ensures var c' := Park(c, job, keys, b, spawned);
      && Pending(c'.inbox, id) == Pending(c.inbox, id)
      && Wakeups(c', id) == Wakeups(c, id) + if id == job.id then 1 else 0
  {
    if !spawned {
      WakeUpMoves(c, job.id, true, id);
    }
  }

  lemma ParkMoves(c: Config, job: Job, keys: set<StateKey>, b: Blocked, spawned: bool, id: SessionId)
    requires job.id !in c.resolving
    ensures var s := ShareOf(c, Some(Held(job.id, [job] + b.queue, b.rounds + 1)), id);
      ShareOf(Park(c, job, keys, b, spawned), None, id) ==
      if id == job.id then s.(held := false, blocked := true, wakeups := s.wakeups + 1) else s
  {
    ParkWakes(c, job, keys, b, spawned, id);
  }

  lemma ParkShare(plain: Plain, s: Share)
    requires ShareOk(plain, s) && s.held && s.queue != [] && s.rounds >= 1
    ensures ShareOk(plain, s.(held := false, blocked := true, wakeups := s.wakeups + 1))
  {
  }

  lemma ParkedShareOk(plain: Plain, c: Config, job: Job, keys: set<StateKey>, b: Blocked, spawned: bool, id: SessionId)
    requires job.id !in c.resolving
    requires ShareOk(plain, ShareOf(c, Some(Held(job.id, [job] + b.queue, b.rounds + 1)), id))
    ensures ShareOk(plain, ShareOf(Park(c, job, keys, b, spawned), None, id))
  {
    ParkMoves(c, job, keys, b, spawned, id);
    if id == job.id {
      ParkShare(plain, ShareOf(c, Some(Held(job.id, [job] + b.queue, b.rounds + 1)), id));
    }
  }

  lemma HeldIsNotResolving(worlds: Worlds, plain: Plain, c: Config, h: Held)
    requires InvWith(worlds, plain, c, Some(h))
    ensures h.id !in c.resolving && h.id !in c.blocked
  {
    assert ShareOk(plain, ShareOf(c, Some(h), h.id));
  }

  lemma ParkKeeps(worlds: Worlds, plain: Plain, c: Config, job: Job, keys: set<StateKey>, b: Blocked, spawned: bool)
    requires InvWith(worlds, plain, c, Some(Held(job.id, [job] + b.queue, b.rounds + 1)))
    ensures Inv(worlds, plain, Park(c, job, keys, b, spawned))
  {
    HeldIsNotResolving(worlds, plain, c, Held(job.id, [job] + b.queue, b.rounds + 1));
    forall id
      ensures ShareOk(plain, ShareOf(Park(c, job, keys, b, spawned), None, id))
    {
      ParkedShareOk(plain, c, job, keys, b, spawned, id);
    }
  }

  lemma NothingHeld(worlds: Worlds, plain: Plain, c: Config, h: Held)
    requires InvWith(worlds, plain, c, Some(h)) && h.queue == []
    ensures Inv(worlds, plain, c)
  {
    forall id
      ensures ShareOk(plain, ShareOf(c, None, id))
    {
      var s := ShareOf(c, Some(h), id);
      assert ShareOk(plain, s);
      assert ShareOf(c, None, id) == s.(held := false);
    }
  }

  lemma DeferredKeeps(worlds: Worlds, plain: Plain, c1: Config, h: Held, keys: set<StateKey>, spawned: bool)
    requires h.queue != [] && InvWith(worlds, plain, c1, Some(Held(h.id, h.queue, h.rounds + 1)))
    ensures Inv(worlds, plain, Park(c1, h.queue[0], keys, Blocked(h.queue[1..], h.rounds), spawned))
  {
    FrontIsOwn(worlds, plain, c1, Held(h.id, h.queue, h.rounds + 1));
    assert [h.queue[0]] + h.queue[1..] == h.queue;
    ParkKeeps(worlds, plain, c1, h.queue[0], keys, Blocked(h.queue[1..], h.rounds), spawned);
  }

  lemma {:induction false} RunQueueKeeps(worlds: Worlds, plain: Plain, c: Config, h: Held, blocking: bool,
                                         spawned: bool)
    requires plain == PlainBy(worlds) && InvWith(worlds, plain, c, Some(h))
    requires blocking || h.rounds < MAX_SPECULATIVE_ROUNDS
    ensures Inv(worlds, plain, RunQueue(worlds, c, h.queue, h.rounds, blocking, spawned))
    decreases |h.queue|
  {
    if h.queue == [] {
      NothingHeld(worlds, plain, c, h);
    } else {
      HandleKeeps(worlds, plain, c, h, blocking);
      match Handle(worlds, c, h.queue[0], blocking)
      case Handled(c') => RunQueueKeeps(worlds, plain, c', Held(h.id, h.queue[1..], 0), false, spawned);
      case Deferred(c', keys) => DeferredKeeps(worlds, plain, c', h, keys, spawned);
    }
  }

  // ---- Every step ----

  /** Taking a wake-up out of the inbox, and its session out of `blocked`. */
  lemma TakeUnblock(worlds: Worlds, plain: Plain, c: Config)
    requires Inv(worlds, plain, c) && c.inbox != [] && c.inbox[0].Unblock?
    ensures var id := c.inbox[0].id;
      && id in c.blocked
      && InvWith(worlds, plain, c.(inbox := c.inbox[1..], blocked := c.blocked - {id}),
                 Some(Held(id, c.blocked[id].queue, c.blocked[id].rounds)))
  {
    var woken := c.inbox[0].id;
    ConsUnblocks(c.inbox, woken);
    assert ShareOk(plain, ShareOf(c, None, woken));
    var c' := c.(inbox := c.inbox[1..], blocked := c.blocked - {woken});
    var h := Some(Held(woken, c.blocked[woken].queue, c.blocked[woken].rounds));
    forall id
      ensures ShareOk(plain, ShareOf(c', h, id))
    {
      assert ShareOk(plain, ShareOf(c, None, id));
      WokenMoves(c, id);
    }
  }

  lemma WokenMoves(c: Config, id: SessionId)
    requires c.inbox != [] && c.inbox[0].Unblock? && c.inbox[0].id in c.blocked
    requires ShareOf(c, None, c.inbox[0].id).wakeups > 0
    ensures var (woken, s) := (c.inbox[0].id, ShareOf(c, None, id));
      var h := Some(Held(woken, c.blocked[woken].queue, c.blocked[woken].rounds));
      ShareOf(c.(inbox := c.inbox[1..], blocked := c.blocked - {woken}), h, id) ==
        if id == woken then s.(held := true, blocked := false, wakeups := s.wakeups - 1) else s
  {
    ConsPending(c.inbox, id);
    ConsUnblocks(c.inbox, id);
  }

  lemma QueueMoves(c: Config, id: SessionId)
    requires c.inbox != [] && c.inbox[0].Request? && c.inbox[0].job.id in c.blocked
    ensures var (c', job, s) := (Enqueued(c.(inbox := c.inbox[1..]), c.inbox[0].job), c.inbox[0].job,
                                 ShareOf(c, None, id));
      ShareOf(c', None, id) ==
        if id == job.id then s.(queue := s.queue + [job], pending := Pending(c.inbox[1..], id)) else s
  {
    ConsPending(c.inbox, id);
    ConsUnblocks(c.inbox, id);
  }

  lemma HoldMoves(c: Config, id: SessionId)
    requires c.inbox != [] && c.inbox[0].Request? && c.inbox[0].job.id !in c.blocked
    ensures var (job, s) := (c.inbox[0].job, ShareOf(c, None, id));
      ShareOf(c.(inbox := c.inbox[1..]), Some(Held(job.id, [job], 0)), id)
      == if id == job.id then s.(held := true, queue := [job], pending := Pending(c.inbox[1..], id)) else s
  {
    ConsPending(c.inbox, id);
    ConsUnblocks(c.inbox, id);
  }

  /** Taking a job: it joins its blocked session's queue, or is held alone. */
  lemma TakeRequest(worlds: Worlds, plain: Plain, c: Config)
    requires Inv(worlds, plain, c) && c.inbox != [] && c.inbox[0].Request?
    ensures var (c1, job) := (c.(inbox := c.inbox[1..]), c.inbox[0].job);
      if job.id in c.blocked
      then Inv(worlds, plain, Enqueued(c1, job))
      else InvWith(worlds, plain, c1, Some(Held(job.id, [job], 0)))
  {
    var (c1, job) := (c.(inbox := c.inbox[1..]), c.inbox[0].job);
    var queued := job.id in c.blocked;
    var c' := if queued then Enqueued(c1, job) else c1;
    var h := if queued then None else Some(Held(job.id, [job], 0));
    forall id
      ensures ShareOk(plain, ShareOf(c', h, id))
    {
      assert ShareOk(plain, ShareOf(c, None, id));
      RequestedShareOk(plain, c, id);
    }
  }

  lemma RequestedShareOk(plain: Plain, c: Config, id: SessionId)
    requires c.inbox != [] && c.inbox[0].Request? && ShareOk(plain, ShareOf(c, None, id))
    ensures var (c1, job) := (c.(inbox := c.inbox[1..]), c.inbox[0].job);
      if job.id in c.blocked then ShareOk(plain, ShareOf(Enqueued(c1, job), None, id))
      else ShareOk(plain, ShareOf(c1, Some(Held(job.id, [job], 0)), id))
  {
    var job := c.inbox[0].job;
    if job.id in c.blocked {
      QueueMoves(c, id);
    } else {
      HoldMoves(c, id);
    }
    if id == job.id {
      ConsPending(c.inbox, id);
      TakeShare(plain, ShareOf(c, None, id), job, Pending(c.inbox[1..], id));
    }
  }

  /** A job that finds its session unblocked is a queue of one. */
  lemma AcceptIsRunQueue(worlds: Worlds, c: Config, job: Job, spawned: bool)
    requires job.id !in c.blocked
    ensures Accept(worlds, c, Request(job), spawned) == RunQueue(worlds, c, [job], 0, false, spawned)
  {
    assert [job][1..] == [];
  }

  lemma TakeKeeps(worlds: Worlds, plain: Plain, c: Config, spawned: bool)
    requires plain == PlainBy(worlds) && Inv(worlds, plain, c) && c.inbox != []
    ensures Inv(worlds, plain, Accept(worlds, c.(inbox := c.inbox[1..]), c.inbox[0], spawned))
  {
    var c1 := c.(inbox := c.inbox[1..]);
    match c.inbox[0]
    case Unblock(id, failed) =>
      TakeUnblock(worlds, plain, c);
      var b := c.blocked[id];
      FrontIsOwn(worlds, plain, c1.(blocked := c.blocked - {id}), Held(id, b.queue, b.rounds));
      RunQueueKeeps(worlds, plain, c1.(blocked := c.blocked - {id}), Held(id, b.queue, b.rounds),
                    failed || b.rounds >= MAX_SPECULATIVE_ROUNDS, spawned);
    case Request(job) =>
      TakeRequest(worlds, plain, c);
      if job.id !in c.blocked {
        AcceptIsRunQueue(worlds, c1, job, spawned);
        RunQueueKeeps(worlds, plain, c1, Held(job.id, [job], 0), false, spawned);
      }
  }

  lemma SendMoves(c: Config, job: Job, id: SessionId)
    ensures var s := ShareOf(c, None, id);
      ShareOf(Sent(c, job), None, id) ==
        if id == job.id then s.(pending := s.pending + [job], sent := s.sent + [job]) else s
  {
    SnocJob(c.sent, job, id);
    SnocMessage(c.inbox, Request(job), id);
  }

  lemma SendKeeps(worlds: Worlds, plain: Plain, c: Config, job: Job)
    requires Inv(worlds, plain, c)
    ensures Inv(worlds, plain, Sent(c, job))
  {
    forall id
      ensures ShareOk(plain, ShareOf(Sent(c, job), None, id))
    {
      assert ShareOk(plain, ShareOf(c, None, id));
      SendMoves(c, job, id);
      SendShare(plain, ShareOf(c, None, id), job);
    }
  }

  lemma PostMoves(c: Config, posted: SessionId, failed: bool, id: SessionId)
    requires posted in c.resolving
    ensures ShareOf(Posted(c, posted, failed), None, id) == ShareOf(c, None, id)
  {
    SnocMessage(c.inbox, Unblock(posted, failed), id);
  }

  lemma ResolvedKeeps(worlds: Worlds, plain: Plain, c: Config, resolved: SessionId, failed: bool)
    requires Inv(worlds, plain, c) && resolved in c.resolving
    ensures Inv(worlds, plain, Posted(c, resolved, failed))
  {
    forall id
      ensures ShareOk(plain, ShareOf(Posted(c, resolved, failed), None, id))
    {
      assert ShareOk(plain, ShareOf(c, None, id));
      PostMoves(c, resolved, failed, id);
    }
  }

  lemma ReapMoves(c: Config, reaped: SessionId, id: SessionId)
    ensures var s := ShareOf(c, None, id);
      ShareOf(Expired(c, reaped), None, id) ==
        if id == reaped then s.(session := None, events := s.events + [Reaped(id)]) else s
  {
    SnocEvent(c.log, Reaped(reaped), id);
  }

  lemma ReapKeeps(worlds: Worlds, plain: Plain, c: Config, reaped: SessionId)
    requires Inv(worlds, plain, c)
    ensures Inv(worlds, plain, Expired(c, reaped))
  {
    forall id
      ensures ShareOk(plain, ShareOf(Expired(c, reaped), None, id))
    {
      assert ShareOk(plain, ShareOf(c, None, id));
      ReapMoves(c, reaped, id);
      ReapShare(plain, ShareOf(c, None, id));
    }
  }

  lemma GrowKeeps(worlds: Worlds, plain: Plain, c: Config, fork: ForkId, keys: set<StateKey>)
    requires Inv(worlds, plain, c)
    ensures Inv(worlds, plain, Grown(c, fork, worlds(fork).up, keys))
  {
    var c' := Grown(c, fork, worlds(fork).up, keys);
    forall id
      ensures ShareOk(plain, ShareOf(c', None, id))
    {
      assert ShareOk(plain, ShareOf(c, None, id));
      assert ShareOf(c', None, id) == ShareOf(c, None, id);
    }
  }

  lemma StepKeeps(worlds: Worlds, plain: Plain, c: Config, step: Step)
    requires plain == PlainBy(worlds) && Inv(worlds, plain, c) && Enabled(c, step)
    ensures Inv(worlds, plain, Next(worlds, c, step))
  {
    match step
    case Send(job) => SendKeeps(worlds, plain, c, job);
    case Take(spawned) => TakeKeeps(worlds, plain, c, spawned);
    case Resolved(id, failed) => ResolvedKeeps(worlds, plain, c, id, failed);
    case Grow(fork, keys) => GrowKeeps(worlds, plain, c, fork, keys);
    case Reap(id) => ReapKeeps(worlds, plain, c, id);
  }

  lemma StartKeeps(worlds: Worlds, plain: Plain)
    ensures Inv(worlds, plain, START)
  {
    forall id
      ensures ShareOk(plain, ShareOf(START, None, id))
    {
    }
  }

  lemma {:induction false} RunKeeps(worlds: Worlds, steps: seq<Step>, trace: seq<Config>, n: nat)
    requires IsRun(worlds, steps, trace) && n < |trace|
    ensures Inv(worlds, PlainBy(worlds), trace[n])
  {
    if n == 0 {
      StartKeeps(worlds, PlainBy(worlds));
    } else {
      RunKeeps(worlds, steps, trace, n - 1);
      assert Follows(worlds, steps, trace, n - 1);
      StepKeeps(worlds, PlainBy(worlds), trace[n - 1], steps[n - 1]);
    }
  }

  lemma ReachableIsInv(worlds: Worlds, c: Config)
    requires Reachable(worlds, c)
    ensures Inv(worlds, PlainBy(worlds), c)
  {
    var steps, trace :| IsRun(worlds, steps, trace) && trace[|steps|] == c;
    RunKeeps(worlds, steps, trace, |steps|);
  }
}
