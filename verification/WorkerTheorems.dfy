/** What the worker guarantees at every configuration of every run: any
    interleaving of arrivals, resolver successes and failures, cache growth
    and reaping, over any number of sessions. */
module WorkerTheorems {
  import opened Chain
  import opened Fetch
  import opened Engine
  import opened Passes
  import opened WorkerModel
  import opened WorkerInvariant

  /** The speculating worker refines the plain one: every session is exactly
      where the plain worker, doing the same jobs with the same reads failing,
      would have it, and every reply is the plain worker's. Reads fail only in
      a blocking pass, and only if upstream fails them. */
  lemma WorkerRefinesPlain(worlds: Worlds, c: Config, id: SessionId)
    requires Reachable(worlds, c)
    ensures PlainAfter(PlainBy(worlds), EventsOf(c.log, id)) == Get(c.sessions, id)
    ensures Faithful(PlainBy(worlds), EventsOf(c.log, id))
    ensures forall e :: e in c.log && e.Answered? && (e.blocking == 0 || Healthy(worlds)) ==> e.faults == {}
  {
    ReachableIsInv(worlds, c);
    assert ShareOk(PlainBy(worlds), ShareOf(c, None, id));
    forall e | e in c.log && e.Answered? && (e.blocking == 0 || Healthy(worlds))
      ensures e.faults == {}
    {
      assert BoundedEvent(worlds, e);
    }
  }

  /** Jobs answered, then those parked, then those still in the inbox: all
      that were sent, in the order they were sent. None is lost, answered
      twice or overtaken. */
  lemma OrderAndConservation(worlds: Worlds, c: Config, id: SessionId)
    requires Reachable(worlds, c)
    ensures AnsweredJobs(EventsOf(c.log, id)) + (if id in c.blocked then c.blocked[id].queue else []) +
            Pending(c.inbox, id)
            == JobsFor(c.sent, id)
  {
    ReachableIsInv(worlds, c);
    assert ShareOk(PlainBy(worlds), ShareOf(c, None, id));
  }

  /** A session is blocked exactly when one wake-up for it is outstanding, in
      a resolver or in the inbox; never two. */
  lemma BlockedIffOneWakeup(worlds: Worlds, c: Config, id: SessionId)
    requires Reachable(worlds, c)
    ensures Wakeups(c, id) <= 1
    ensures id in c.blocked <==> Wakeups(c, id) == 1
    ensures id in c.blocked ==> c.blocked[id].queue != [] && 1 <= c.blocked[id].rounds <= MAX_SPECULATIVE_ROUNDS
  {
    ReachableIsInv(worlds, c);
    assert ShareOk(PlainBy(worlds), ShareOf(c, None, id));
  }

  /** Every job takes at most sixteen speculative passes and at most one
      blocking pass. */
  lemma PassesAreBounded(worlds: Worlds, c: Config, e: Event)
    requires Reachable(worlds, c) && e in c.log && e.Answered?
    ensures e.speculative <= 16 && e.blocking <= 1
  {
    ReachableIsInv(worlds, c);
    assert BoundedEvent(worlds, e);
  }

  /** No stuck waiter: while a session has a job unanswered, the worker has a
      message to take or that session's own resolver has yet to end. */
  lemma NoJobIsStuck(worlds: Worlds, c: Config, id: SessionId)
    requires Reachable(worlds, c)
    requires AnsweredJobs(EventsOf(c.log, id)) != JobsFor(c.sent, id)
    ensures Enabled(c, Take(true)) || Enabled(c, Resolved(id, true))
    ensures Pending(c.inbox, id) != [] || Unblocks(c.inbox, id) > 0 || Enabled(c, Resolved(id, true))
  {
    OrderAndConservation(worlds, c, id);
    BlockedIffOneWakeup(worlds, c, id);
    var answered := AnsweredJobs(EventsOf(c.log, id));
    assert answered + [] + [] == answered;
  }

  // ---- With upstream healthy and the session not reaped ----

  ghost function Replies(events: seq<Event>): seq<Reply> {
    if events == [] then []
    else
      var last := |events| - 1;
      Replies(events[..last]) + if events[last].Answered? then [events[last].reply] else []
  }

  ghost predicate Unreaped(events: seq<Event>) {
    forall e :: e in events ==> e.Answered?
  }

  lemma {:induction false} FaithfulRepliesArePlain(plain: Plain, events: seq<Event>)
    requires Faithful(plain, events) && Unreaped(events)
    requires forall e :: e in events ==> e.faults == {}
    ensures Replies(events) == RepliesBy(plain, AnsweredJobs(events))
    ensures PlainAfter(plain, events) == SessionBy(plain, AnsweredJobs(events))
  {
    if events != [] {
      var last := |events| - 1;
      FaithfulRepliesArePlain(plain, events[..last]);
      var (jobs, job) := (AnsweredJobs(events[..last]), events[last].job);
      assert AnsweredJobs(events) == jobs + [job] && (jobs + [job])[..|jobs|] == jobs;
      assert events[last].faults == {};
    }
  }

  lemma {:induction false} EventsOfAreLogged(log: seq<Event>, id: SessionId)
    ensures forall e :: e in EventsOf(log, id) ==> e in log
  {
    if log != [] {
      EventsOfAreLogged(log[..|log| - 1], id);
    }
  }

  /** With upstream healthy, an unreaped session's replies and state are those
      of the plain worker run on a prefix of its jobs, in the order clients
      sent them; on all of them, once nothing is parked or in the inbox. */
  lemma HealthyRunsArePlain(worlds: Worlds, c: Config, id: SessionId)
    requires Reachable(worlds, c) && Healthy(worlds) && Unreaped(EventsOf(c.log, id))
    ensures var jobs := AnsweredJobs(EventsOf(c.log, id));
      && jobs <= JobsFor(c.sent, id)
      && (id !in c.blocked && Pending(c.inbox, id) == [] ==> jobs == JobsFor(c.sent, id))
      && Replies(EventsOf(c.log, id)) == PlainReplies(worlds, jobs)
      && Get(c.sessions, id) == PlainSession(worlds, jobs)
  {
    WorkerRefinesPlain(worlds, c, id);
    OrderAndConservation(worlds, c, id);
    EventsOfAreLogged(c.log, id);
    FaithfulRepliesArePlain(PlainBy(worlds), EventsOf(c.log, id));
    var jobs := AnsweredJobs(EventsOf(c.log, id));
    if id !in c.blocked && Pending(c.inbox, id) == [] {
      assert jobs + [] + [] == jobs;
    }
  }

  // ---- Sessions do not interfere ----

  /** The same job, with the same reads failing, or a reaping of both. */
  ghost predicate SameDeed(e: Event, e': Event) {
    e.Answered? == e'.Answered? && (e.Answered? ==> e.job == e'.job && e.faults == e'.faults)
  }

  ghost predicate SameHistory(a: seq<Event>, b: seq<Event>) {
    |a| == |b| && forall i :: 0 <= i < |a| ==> SameDeed(a[i], b[i])
  }

  ghost predicate SameUpstream(worlds: Worlds, worlds': Worlds) {
    forall fork: ForkId :: worlds(fork).up == worlds'(fork).up
  }

  lemma {:induction false} HistoryDecides(worlds: Worlds, worlds': Worlds, a: seq<Event>, b: seq<Event>)
    requires SameUpstream(worlds, worlds') && SameHistory(a, b)
    requires Faithful(PlainBy(worlds), a) && Faithful(PlainBy(worlds'), b)
    ensures PlainAfter(PlainBy(worlds), a) == PlainAfter(PlainBy(worlds'), b)
    ensures Replies(a) == Replies(b)
  {
    if a != [] {
      var last := |a| - 1;
      assert SameDeed(a[last], b[last]);
      assert forall i :: 0 <= i < last ==> SameDeed(a[..last][i], b[..last][i]);
      HistoryDecides(worlds, worlds', a[..last], b[..last]);
      if a[last].Answered? {
        SameUpstreamSameReply(worlds, worlds', PlainAfter(PlainBy(worlds), a[..last]), a[last].job, a[last].faults);
      }
    }
  }

  lemma SameUpstreamSameReply(worlds: Worlds, worlds': Worlds, s: Option<SessionData>, job: Job, faults: set<nat>)
    requires SameUpstream(worlds, worlds')
    ensures PlainHandle(worlds, s, job, faults) == PlainHandle(worlds', s, job, faults)
  {
    if s.Some? {
      assert worlds(s.value.fork).up == worlds'(s.value.fork).up;
    }
  }

  /** Two workers, on two runs of their own, with other sessions, caches filled
      otherwise, other passes and parkings: where a session has had the same
      jobs answered with the same reads failing, it is the same, and so are
      all its replies. */
  lemma OnlyOwnHistoryMatters(worlds: Worlds, c: Config, worlds': Worlds, c': Config, id: SessionId)
    requires Reachable(worlds, c) && Reachable(worlds', c') && SameUpstream(worlds, worlds')
    requires SameHistory(EventsOf(c.log, id), EventsOf(c'.log, id))
    ensures Get(c.sessions, id) == Get(c'.sessions, id)
    ensures Replies(EventsOf(c.log, id)) == Replies(EventsOf(c'.log, id))
  {
    WorkerRefinesPlain(worlds, c, id);
    WorkerRefinesPlain(worlds', c', id);
    HistoryDecides(worlds, worlds', EventsOf(c.log, id), EventsOf(c'.log, id));
  }

  // ---- Each wake-up gets the session on ----

  /** Taking a wake-up, no job arriving: the queue gets shorter, or it is as
      long with one more round behind its front job. A failed resolve, or a
      front job at the round limit, always answers at least that job. */
  lemma UnblockLowersMeasure(worlds: Worlds, c: Config, spawned: bool)
    requires Reachable(worlds, c) && c.inbox != [] && c.inbox[0].Unblock?
    ensures var (id, c') := (c.inbox[0].id, Next(worlds, c, Take(spawned)));
      && id in c.blocked
      && (id in c'.blocked ==>
            var (b, b') := (c.blocked[id], c'.blocked[id]);
            || |b'.queue| < |b.queue|
            || (|b'.queue| == |b.queue| && b'.rounds == b.rounds + 1 <= MAX_SPECULATIVE_ROUNDS
                && !c.inbox[0].failed && b.rounds < MAX_SPECULATIVE_ROUNDS))
  {
    ReachableIsInv(worlds, c);
    TakeUnblock(worlds, PlainBy(worlds), c);
    var (id, failed) := (c.inbox[0].id, c.inbox[0].failed);
    BlockedIffOneWakeup(worlds, c, id);
    var b := c.blocked[id];
    var c1 := c.(inbox := c.inbox[1..], blocked := c.blocked - {id});
    QueueOnlyShrinks(worlds, PlainBy(worlds), c1, Held(id, b.queue, b.rounds),
                     failed || b.rounds >= MAX_SPECULATIVE_ROUNDS, spawned);
  }

  lemma {:induction false} QueueOnlyShrinks(worlds: Worlds, plain: Plain, c: Config, h: Held, blocking: bool,
                                            spawned: bool)
    requires plain == PlainBy(worlds) && InvWith(worlds, plain, c, Some(h)) && h.id !in c.blocked
    requires blocking || h.rounds < MAX_SPECULATIVE_ROUNDS
    ensures var c' := RunQueue(worlds, c, h.queue, h.rounds, blocking, spawned);
      h.id in c'.blocked ==>
        || |c'.blocked[h.id].queue| < |h.queue|
        || (!blocking && c'.blocked[h.id] == Blocked(h.queue, h.rounds + 1))
    decreases |h.queue|
  {
    if h.queue != [] {
      HandleKeeps(worlds, plain, c, h, blocking);
      FrontIsOwn(worlds, plain, c, h);
      match Handle(worlds, c, h.queue[0], blocking)
      case Handled(c') =>
        QueueOnlyShrinks(worlds, plain, c', Held(h.id, h.queue[1..], 0), false, spawned);
      case Deferred(c', keys) =>
        assert [h.queue[0]] + h.queue[1..] == h.queue;
    }
  }
}
