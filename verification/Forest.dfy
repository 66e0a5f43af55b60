/** Every session of a process at once, all forks and branches of one another
    sharing read caches: what one session does never reaches another. */
module Forest {
  import opened Chain
  import opened Fetch
  import opened Engine
  import opened Passes
  import opened Lineage
  import opened Views

  type SessionId = nat
  type Worlds = ForkId -> World

  datatype Event =
    // Fork, or resume a saved state.
    | Open(id: SessionId, base: BaseSnapshot, fork: ForkId, env: BlockEnv, state: Layer)
    | Branch(parent: SessionId, child: SessionId)
    | Execute(id: SessionId, program: Program, commit: bool)
    | SetAccount(id: SessionId, address: Address, info: AccountInfo)
    | SetStorage(id: SessionId, address: Address, slot: Slot, word: Word)
    | Discard(id: SessionId)

  datatype Forest = Forest(sessions: map<SessionId, SessionData>, caches: map<ForkId, Cache>, clocks: map<ForkId, nat>)

  const BARE := Forest(map[], map[], map[])

  function Reader(f: Forest, fork: ForkId): Fetcher {
    Fetcher(if fork in f.caches then f.caches[fork] else map[], if fork in f.clocks then f.clocks[fork] else 0, None)
  }

  function Wrote(s: SessionData, diff: Option<Diff>, commit: bool): SessionData {
    if commit && diff.Some? then Committed(s, diff.value) else s
  }

  function Changed(f: Forest, id: SessionId, s: SessionData): Forest {
    f.(sessions := f.sessions[id := s])
  }

  function Cached(f: Forest, fork: ForkId, r: Fetcher): Forest {
    f.(caches := f.caches[fork := r.cache], clocks := f.clocks[fork := r.clock])
  }

  /** An event for a session that is not there, or that would open one over
      another, does nothing. */
  predicate Applies(f: Forest, e: Event) {
    match e
    case Open(id, _, _, _, _) => id !in f.sessions
    case Branch(parent, child) => parent in f.sessions && child !in f.sessions
    case _ => e.id in f.sessions
  }

  function Step(worlds: Worlds, f: Forest, e: Event): Forest {
    if !Applies(f, e) then f
    else
      match e
      case Open(id, base, fork, env, state) => Changed(f, id, Restored(base, fork, env, state))
      case Branch(parent, child) => Changed(f, child, Branched(f.sessions[parent]))
      case Execute(id, p, commit) =>
        var s := f.sessions[id];
        var r := RunPass(worlds(s.fork), p, s, Reader(f, s.fork));
        Cached(Changed(f, id, Wrote(r.session, r.diff, commit)), s.fork, r.fetcher)
      case SetAccount(id, a, info) => Changed(f, id, WithAccount(f.sessions[id], a, info))
      case SetStorage(id, a, i, word) => Changed(f, id, WithStorage(f.sessions[id], a, i, word))
      case Discard(id) => f.(sessions := f.sessions - {id})
  }

  function Run(worlds: Worlds, events: seq<Event>): Forest {
    if events == [] then BARE
    else Step(worlds, Run(worlds, events[..|events| - 1]), events[|events| - 1])
  }

  function ReplyOf(worlds: Worlds, f: Forest, e: Event): Option<Reply> {
    if e.Execute? && Applies(f, e) then
      Some(RunPass(worlds(f.sessions[e.id].fork), e.program, f.sessions[e.id], Reader(f, f.sessions[e.id].fork)).reply)
    else None
  }

  // ---- One session's own history ----

  /** What happened to a session itself, or to an ancestor before it branched
      off: how it began, its branchings, and its own executions and writes,
      with the reads upstream failed. */
  datatype Deed =
    | Born(session: SessionData)
    | BranchedOff
    | Ran(program: Program, commit: bool, faults: set<nat>)
    | AccountSet(address: Address, info: AccountInfo)
    | StorageSet(owner: Address, slot: Slot, word: Word)

  ghost function Redo(up: ForkId -> Upstream, deeds: seq<Deed>): Option<SessionData> {
    if deeds == [] then None
    else Again(up, Redo(up, deeds[..|deeds| - 1]), deeds[|deeds| - 1])
  }

  ghost function Again(up: ForkId -> Upstream, before: Option<SessionData>, deed: Deed): Option<SessionData> {
    if deed.Born? then Some(deed.session)
    else if before.None? then None
    else
      var s := before.value;
      match deed
      case BranchedOff => Some(Branched(s))
      case Ran(p, commit, faults) =>
        var r := RunPlain(up(s.fork), p, s, faults, 0);
        Some(Wrote(r.session, r.diff, commit))
      case AccountSet(a, info) => Some(WithAccount(s, a, info))
      case StorageSet(a, i, word) => Some(WithStorage(s, a, i, word))
  }

  ghost function FaultsIn(worlds: Worlds, f: Forest, e: Event): set<nat>
    requires e.Execute? && Applies(f, e)
  {
    FaultsOf(worlds(f.sessions[e.id].fork), e.program, f.sessions[e.id], Reader(f, f.sessions[e.id].fork), 0)
  }

  /** The deeds behind session `id`, out of everything that happened: other
      sessions' deeds are not in it. */
  ghost function History(worlds: Worlds, events: seq<Event>, id: SessionId): seq<Deed> {
    if events == [] then []
    else
      var before := events[..|events| - 1];
      var e := events[|events| - 1];
      var f := Run(worlds, before);
      var own := History(worlds, before, id);
      if !Applies(f, e) then own
      else
        match e
        case Open(i, base, fork, env, state) => if i == id then [Born(Restored(base, fork, env, state))] else own
        case Branch(parent, child) => if child == id then History(worlds, before, parent) + [BranchedOff] else own
        case Execute(i, p, commit) => if i == id then own + [Ran(p, commit, FaultsIn(worlds, f, e))] else own
        case SetAccount(i, a, info) => if i == id then own + [AccountSet(a, info)] else own
        case SetStorage(i, a, slot, word) => if i == id then own + [StorageSet(a, slot, word)] else own
        case Discard(i) => if i == id then [] else own
  }

  /** `worlds` are one interleaving and one pattern of outages over the
      upstream `up`. */
  ghost predicate Over(worlds: Worlds, up: ForkId -> Upstream) {
    forall fork: ForkId :: worlds(fork).up == up(fork)
  }

  ghost predicate CachesTruthful(worlds: Worlds, f: Forest) {
    forall fork :: fork in f.caches ==> Truthful(worlds(fork).up, f.caches[fork])
  }

  /** The shared caches never hold anything but upstream's own values. */
  lemma {:induction false} CachesStayTruthful(worlds: Worlds, events: seq<Event>)
    ensures CachesTruthful(worlds, Run(worlds, events))
  {
    if events != [] {
      var (before, e) := (events[..|events| - 1], events[|events| - 1]);
      CachesStayTruthful(worlds, before);
      var f := Run(worlds, before);
      if e.Execute? && Applies(f, e) {
        var s := f.sessions[e.id];
        PassOnlyAdds(worlds(s.fork), e.program, s, Reader(f, s.fork));
      }
    }
  }

  /** An execution in a forest is the plain run of its own session. */
  lemma ExecuteIsPlain(worlds: Worlds, f: Forest, e: Event)
    requires CachesTruthful(worlds, f) && e.Execute? && Applies(f, e)
    ensures var s := f.sessions[e.id];
      var r := RunPass(worlds(s.fork), e.program, s, Reader(f, s.fork));
      PlainResult(r.reply, r.diff, r.session) == RunPlain(worlds(s.fork).up, e.program, s, FaultsIn(worlds, f, e), 0)
    ensures (forall n :: !worlds(f.sessions[e.id].fork).fails(n)) ==> FaultsIn(worlds, f, e) == {}
  {
    var s := f.sessions[e.id];
    PassOnlyAdds(worlds(s.fork), e.program, s, Reader(f, s.fork));
    UnmissedPassIsPlain(worlds(s.fork), e.program, s, Reader(f, s.fork), 0);
  }

  ghost predicate Explains(up: ForkId -> Upstream, worlds: Worlds, f: Forest, events: seq<Event>, id: SessionId) {
    Redo(up, History(worlds, events, id)) == if id in f.sessions then Some(f.sessions[id]) else None
  }

  lemma RedoOneMore(up: ForkId -> Upstream, deeds: seq<Deed>, deed: Deed)
    ensures Redo(up, deeds + [deed]) == Again(up, Redo(up, deeds), deed)
  {
    assert (deeds + [deed])[..|deeds|] == deeds;
  }

  lemma ExecutionExplained(up: ForkId -> Upstream, worlds: Worlds, events: seq<Event>, e: Event, id: SessionId)
    requires Over(worlds, up) && e.Execute? && CachesTruthful(worlds, Run(worlds, events))
    requires Explains(up, worlds, Run(worlds, events), events, id)
    ensures Explains(up, worlds, Run(worlds, events + [e]), events + [e], id)
  {
    var f := Run(worlds, events);
    RunOneMore(worlds, events, e);
    assert (events + [e])[..|events|] == events;
    if Applies(f, e) && e.id == id {
      ExecuteIsPlain(worlds, f, e);
      RedoOneMore(up, History(worlds, events, id), Ran(e.program, e.commit, FaultsIn(worlds, f, e)));
    }
  }

  lemma WriteExplained(up: ForkId -> Upstream, worlds: Worlds, events: seq<Event>, e: Event, id: SessionId)
    requires (e.SetAccount? || e.SetStorage?) && Explains(up, worlds, Run(worlds, events), events, id)
    ensures Explains(up, worlds, Run(worlds, events + [e]), events + [e], id)
  {
    RunOneMore(worlds, events, e);
    assert (events + [e])[..|events|] == events;
    if Applies(Run(worlds, events), e) && e.id == id {
      RedoOneMore(up, History(worlds, events, id),
                  if e.SetAccount? then AccountSet(e.address, e.info) else StorageSet(e.address, e.slot, e.word));
    }
  }

  lemma BirthExplained(up: ForkId -> Upstream, worlds: Worlds, events: seq<Event>, e: Event, id: SessionId)
    requires (e.Open? || e.Branch?) && Explains(up, worlds, Run(worlds, events), events, id)
    requires e.Branch? ==> Explains(up, worlds, Run(worlds, events), events, e.parent)
    ensures Explains(up, worlds, Run(worlds, events + [e]), events + [e], id)
  {
    RunOneMore(worlds, events, e);
    assert (events + [e])[..|events|] == events;
    if e.Open? {
      RedoOneMore(up, [], Born(Restored(e.base, e.fork, e.env, e.state)));
      assert [] + [Born(Restored(e.base, e.fork, e.env, e.state))] == [Born(Restored(e.base, e.fork, e.env, e.state))];
    } else {
      RedoOneMore(up, History(worlds, events, e.parent), BranchedOff);
    }
  }

  lemma DiscardExplained(up: ForkId -> Upstream, worlds: Worlds, events: seq<Event>, e: Event, id: SessionId)
    requires e.Discard? && Explains(up, worlds, Run(worlds, events), events, id)
    ensures Explains(up, worlds, Run(worlds, events + [e]), events + [e], id)
  {
    RunOneMore(worlds, events, e);
    assert (events + [e])[..|events|] == events;
  }

  /** Over any run of forks, branches, executions, writes and discards, every
      session is exactly its own history redone alone on a plain reader: the
      other sessions, and the caches they share, change nothing in it. */
  lemma {:induction false} NonInterference(up: ForkId -> Upstream, worlds: Worlds, events: seq<Event>, id: SessionId)
    requires Over(worlds, up)
    ensures Explains(up, worlds, Run(worlds, events), events, id)
  {
    if events != [] {
      var (before, e) := (events[..|events| - 1], events[|events| - 1]);
      assert before + [e] == events;
      NonInterference(up, worlds, before, id);
      match e
      case Open(_, _, _, _, _) => BirthExplained(up, worlds, before, e, id);
      case Branch(parent, _) =>
        NonInterference(up, worlds, before, parent);
        BirthExplained(up, worlds, before, e, id);
      case Execute(_, _, _) =>
        CachesStayTruthful(worlds, before);
        ExecutionExplained(up, worlds, before, e, id);
      case SetAccount(_, _, _) => WriteExplained(up, worlds, before, e, id);
      case SetStorage(_, _, _, _) => WriteExplained(up, worlds, before, e, id);
      case Discard(_) => DiscardExplained(up, worlds, before, e, id);
    }
  }

  /** Two runs that agree on one session's own history leave it the same, and
      answer it the same if upstream failed the same of the reads it then made,
      whatever else went on in either and however their threads interleaved. */
  lemma RepliesDependOnHistory(up: ForkId -> Upstream, worlds: Worlds, events: seq<Event>, worlds': Worlds,
                               events': seq<Event>, e: Event)
    requires Over(worlds, up) && Over(worlds', up)
    requires e.Execute? && History(worlds, events, e.id) == History(worlds', events', e.id)
    requires Applies(Run(worlds, events), e) && Applies(Run(worlds', events'), e) ==>
      FaultsIn(worlds, Run(worlds, events), e) == FaultsIn(worlds', Run(worlds', events'), e)
    ensures Explains(up, worlds, Run(worlds', events'), events, e.id)
    ensures ReplyOf(worlds, Run(worlds, events), e) == ReplyOf(worlds', Run(worlds', events'), e)
  {
    NonInterference(up, worlds, events, e.id);
    NonInterference(up, worlds', events', e.id);
    CachesStayTruthful(worlds, events);
    CachesStayTruthful(worlds', events');
    var (f, f') := (Run(worlds, events), Run(worlds', events'));
    if Applies(f, e) {
      ExecuteIsPlain(worlds, f, e);
      ExecuteIsPlain(worlds', f', e);
    }
  }

  /** What others do, the parent's end included, leaves a session alone. */
  lemma {:induction false} OthersChangeNothing(worlds: Worlds, events: seq<Event>, more: seq<Event>, id: SessionId)
    requires id in Run(worlds, events).sessions
    requires forall e :: e in more ==> if e.Branch? then e.child != id else e.id != id
    ensures id in Run(worlds, events + more).sessions
    ensures Run(worlds, events + more).sessions[id] == Run(worlds, events).sessions[id]
  {
    if more == [] {
      assert events + more == events;
    } else {
      var last := |more| - 1;
      assert (events + more)[..|events + more| - 1] == events + more[..last];
      OthersChangeNothing(worlds, events, more[..last], id);
    }
  }

  /** A child starts with its parent's view exactly, and keeps it through
      whatever happens to the parent and to everyone else. */
  lemma ChildStartsAsParent(worlds: Worlds, events: seq<Event>, parent: SessionId, child: SessionId, more: seq<Event>)
    requires Applies(Run(worlds, events), Branch(parent, child))
    requires forall e :: e in more ==> if e.Branch? then e.child != child else e.id != child
    ensures child in Run(worlds, events + [Branch(parent, child)] + more).sessions
    ensures var (p, c) := (Run(worlds, events).sessions[parent],
                           Run(worlds, events + [Branch(parent, child)] + more).sessions[child]);
      && (forall q :: Local(c, q) == Local(p, q))
      && c.fork == p.fork && c.env == p.env && SameView(worlds(p.fork).up, c, p)
  {
    var after := events + [Branch(parent, child)];
    assert after[..|after| - 1] == events;
    OthersChangeNothing(worlds, after, more, child);
    var (p, c) := (Run(worlds, events).sessions[parent], Run(worlds, after + more).sessions[child]);
    forall q
      ensures Local(c, q) == Local(p, q)
    {
      BranchKeepsView(p, q);
    }
  }

  // ---- What each event does to what a session answers ----

  /** What a session answers after an event of its own that applied: an opened
      one its state over its base over upstream, a branched one what its parent
      does, a written one the entry written, and an executed one what its diff,
      computed on what it answered, lays over that, if it was to be kept. */
  function ViewAfter(up: Upstream, f: Forest, e: Event): View
    requires Applies(f, e) && !e.Discard?
  {
    match e
    case Open(_, base, _, _, state) => Laid(state, Laid(base.layer, Ground(up, base.blockHashes)))
    case Branch(parent, _) => ViewOf(up, f.sessions[parent])
    case SetAccount(id, a, info) => Laid(EMPTY_LAYER.(accounts := map[a := info]), ViewOf(up, f.sessions[id]))
    case SetStorage(id, a, i, word) => Laid(EMPTY_LAYER.(storage := map[(a, i) := word]), ViewOf(up, f.sessions[id]))
    case Execute(id, p, commit) =>
      var (view, diff) := (ViewOf(up, f.sessions[id]), OnView(ViewOf(up, f.sessions[id]), p).1);
      if commit && diff.Some? then Laid(Layer(diff.value.accounts, map[], diff.value.storage), view) else view
  }

  /** The session an event is about, and the fork it reads. */
  function Subject(e: Event): SessionId {
    if e.Branch? then e.child else e.id
  }

  function ForkOf(f: Forest, e: Event): ForkId
    requires Applies(f, e)
  {
    match e
    case Open(_, _, fork, _, _) => fork
    case Branch(parent, _) => f.sessions[parent].fork
    case _ => f.sessions[e.id].fork
  }

  lemma WritesActOnTheView(up: Upstream, s: SessionData, a: Address, info: AccountInfo, i: Slot, word: Word, q: Query)
    ensures Look(up, WithAccount(s, a, info), q) == Laid(EMPTY_LAYER.(accounts := map[a := info]), ViewOf(up, s))(q)
    ensures Look(up, WithStorage(s, a, i, word), q) ==
            Laid(EMPTY_LAYER.(storage := map[(a, i) := word]), ViewOf(up, s))(q)
  {
    LookIsTheView(up, s, q);
  }

  /** A discard removes its session; any other event leaves a session where it
      acts; and no other session is touched. */
  lemma OnlyTheSubjectChanges(worlds: Worlds, f: Forest, e: Event)
    requires Applies(f, e)
    ensures var f' := Step(worlds, f, e);
      if e.Discard? then f'.sessions == f.sessions - {e.id}
      else Subject(e) in f'.sessions && f'.sessions == f.sessions[Subject(e) := f'.sessions[Subject(e)]]
  {
  }

  /** With no read failing, an event that applies makes its own session answer
      so, and an execution replies what it comes to on what the session
      answered. */
  lemma EventsActOnViews(worlds: Worlds, f: Forest, e: Event, q: Query)
    requires CachesTruthful(worlds, f) && Applies(f, e) && !e.Discard?
    requires e.Execute? ==> FaultsIn(worlds, f, e) == {}
    ensures Subject(e) in Step(worlds, f, e).sessions
    ensures var up := worlds(ForkOf(f, e)).up;
      Look(up, Step(worlds, f, e).sessions[Subject(e)], q) == ViewAfter(up, f, e)(q)
    ensures e.Execute? ==>
      ReplyOf(worlds, f, e) == Some(OnView(ViewOf(worlds(ForkOf(f, e)).up, f.sessions[e.id]), e.program).0)
  {
    var up := worlds(ForkOf(f, e)).up;
    match e
    case Open(id, base, fork, env, state) => LookIsTheView(up, Restored(base, fork, env, state), q);
    case Branch(parent, child) =>
      BranchKeepsView(f.sessions[parent], q);
      LookIsTheView(up, f.sessions[parent], q);
    case Execute(id, p, commit) => ExecutionActsOnTheView(worlds, f, e, q);
    case SetAccount(id, a, info) => WritesActOnTheView(up, f.sessions[id], a, info, 0, 0, q);
    case SetStorage(id, a, i, word) =>
      WritesActOnTheView(up, f.sessions[id], a, AccountInfo(0, 0, 0, None), i, word, q);
  }

  lemma ExecutionActsOnTheView(worlds: Worlds, f: Forest, e: Event, q: Query)
    requires CachesTruthful(worlds, f) && Applies(f, e) && e.Execute? && FaultsIn(worlds, f, e) == {}
    ensures var (f', up) := (Step(worlds, f, e), worlds(f.sessions[e.id].fork).up);
      && Look(up, f'.sessions[e.id], q) == ViewAfter(up, f, e)(q)
      && ReplyOf(worlds, f, e) == Some(OnView(ViewOf(up, f.sessions[e.id]), e.program).0)
  {
    var s := f.sessions[e.id];
    var up := worlds(s.fork).up;
    ExecuteIsPlain(worlds, f, e);
    var r := RunPlain(up, e.program, s, {}, 0);
    PlainRunKeepsView(up, e.program, s, {}, 0);
    EvalOnView(up, e.program, s);
    assert Look(up, r.session, q) == Look(up, s, q);
    LookIsTheView(up, s, q);
    if e.commit && r.diff.Some? {
      CommitView(up, r.session, r.diff.value, q);
    }
  }

  lemma EvalOnView(up: Upstream, p: Program, s: SessionData)
    ensures Eval(up, p, s) == OnView(ViewOf(up, s), p)
  {
    forall q
      ensures Look(up, s, q) == ViewOf(up, s)(q)
    {
      LookIsTheView(up, s, q);
    }
    EvalIsOnView(up, p, s, ViewOf(up, s));
  }

  // ---- Saving any session of the forest ----

  lemma {:induction false} PassKeepsRoot(w: World, p: Program, s: SessionData, f: Fetcher)
    ensures var t := RunPass(w, p, s, f).session;
      t.base == s.base && t.inherited == s.inherited && t.fork == s.fork && t.env == s.env
    decreases p
  {
    if p.Read? {
      var (a, s', f') := Ask(w, s, f, p.query);
      PassKeepsRoot(w, p.Next(a), s', f');
    }
  }

  /** Where the lineage of `id` began. */
  ghost function RootOf(deeds: seq<Deed>): Option<BaseSnapshot> {
    if deeds == [] then None
    else if deeds[0].Born? then Some(deeds[0].session.base)
    else None
  }

  /** Every session's base is the base its lineage was born on, overridden by
      what it inherited, at every depth of branching. */
  lemma {:induction false} EverySessionIsRooted(worlds: Worlds, events: seq<Event>, id: SessionId)
    requires id in Run(worlds, events).sessions
    ensures RootOf(History(worlds, events, id)).Some?
    ensures Rooted(RootOf(History(worlds, events, id)).value, Run(worlds, events).sessions[id])
  {
    var (before, e) := (events[..|events| - 1], events[|events| - 1]);
    var f := Run(worlds, before);
    if e.Branch? && e.child == id && Applies(f, e) {
      EverySessionIsRooted(worlds, before, e.parent);
      BranchStaysRooted(RootOf(History(worlds, before, e.parent)).value, f.sessions[e.parent]);
    } else if e.Open? && e.id == id && Applies(f, e) {
      BornRooted(e.base, e.fork, e.env, e.state);
    } else {
      EverySessionIsRooted(worlds, before, id);
      if e.Execute? && e.id == id {
        PassKeepsRoot(worlds(f.sessions[id].fork), e.program, f.sessions[id], Reader(f, f.sessions[id].fork));
      }
    }
  }

  /** Save any session of any run and resume it over the base its lineage
      began on, or any other base of that block: it reads as it did. */
  lemma SavedSessionsResume(worlds: Worlds, events: seq<Event>, id: SessionId, order: seq<Address>, other: BaseSnapshot,
                            fork: ForkId, q: Query)
    requires id in Run(worlds, events).sessions && !q.CodeQ?
    requires Enumerates(order, Own(Run(worlds, events).sessions[id]).accounts.Keys)
    ensures RootOf(History(worlds, events, id)).Some?
    ensures var (s, root) := (Run(worlds, events).sessions[id], RootOf(History(worlds, events, id)).value);
      && Local(Restored(root, s.fork, s.env, StateIn(s, order)), q) == Local(s, q)
      && (AgreesWith(worlds(s.fork).up, root) && AgreesWith(worlds(s.fork).up, other) ==>
            Look(worlds(s.fork).up, Restored(other, fork, s.env, StateIn(s, order)), q) ==
              Look(worlds(s.fork).up, s, q))
      && (Mirrors(worlds(s.fork).up, root) && Mirrors(worlds(s.fork).up, other) ==>
            SameButEmptyCode(Look(worlds(s.fork).up, Restored(other, fork, s.env, StateIn(s, order)), q),
                             Look(worlds(s.fork).up, s, q)))
  {
    EverySessionIsRooted(worlds, events, id);
    var (s, root) := (Run(worlds, events).sessions[id], RootOf(History(worlds, events, id)).value);
    RestoreAnswersAlike(root, s, order, q);
    if AgreesWith(worlds(s.fork).up, root) && AgreesWith(worlds(s.fork).up, other) {
      RestoreOverAnyBase(worlds(s.fork).up, root, other, s, order, fork, q);
    }
    if Mirrors(worlds(s.fork).up, root) && Mirrors(worlds(s.fork).up, other) {
      RestoreOverAnyMirror(worlds(s.fork).up, root, other, s, order, fork, q);
    }
  }

  // ---- A saved state that depends on the walk ----

  const ONE_HASH_TWO_CODES: seq<Event> := [
    Open(0, BaseSnapshot(EMPTY_LAYER, map[]), 0, BlockEnv(1, 1, 1, 1), EMPTY_LAYER),
    SetAccount(0, 1, AccountInfo(0, 0, 5, Some(Bytecode([1])))),
    SetAccount(0, 2, AccountInfo(0, 0, 5, Some(Bytecode([2]))))]

  lemma RunOneMore(worlds: Worlds, events: seq<Event>, e: Event)
    ensures Run(worlds, events + [e]) == Step(worlds, Run(worlds, events), e)
  {
    assert (events + [e])[..|events|] == events;
  }

  /** It happens: two accounts are set under one code hash with different
      inline code, and what is saved depends on which the hash map hands over
      first. */
  lemma ASavedStateMayDependOnTheWalk(worlds: Worlds)
    ensures 0 in Run(worlds, ONE_HASH_TWO_CODES).sessions
    ensures !OrderFree(Run(worlds, ONE_HASH_TWO_CODES).sessions[0])
  {
    var (events, x, y) := (ONE_HASH_TWO_CODES, AccountInfo(0, 0, 5, Some(Bytecode([1]))),
                           AccountInfo(0, 0, 5, Some(Bytecode([2]))));
    RunOneMore(worlds, [], events[0]);
    RunOneMore(worlds, [events[0]], events[1]);
    RunOneMore(worlds, [events[0], events[1]], events[2]);
    assert [] + [events[0]] == [events[0]] && [events[0]] + [events[1]] == [events[0], events[1]];
    assert [events[0], events[1]] + [events[2]] == events;
    var s := Run(worlds, events).sessions[0];
    assert s.overlay.accounts == map[1 := x, 2 := y] && Own(s).accounts == s.overlay.accounts && Own(s).code == map[];
    AmbiguousIsNotOrderFree(s, 1, 2, 5);
  }
}
