/** Opening sessions: on the manager's default block, which moves, or on a
    pinned one. Each of `refresh_fallback`, `fork_seeded`, `fork_at_block_seeded`
    and `restore` is one step here. */
module Manager {
  import opened Chain
  import opened Fetch
  import opened Engine
  import opened Passes
  import opened Lineage
  import opened PinnedBlocks
  import opened Views

  type SessionId = nat

  const NO_BASE := BaseSnapshot(EMPTY_LAYER, map[])

  /** A block's shared state: what every session opened at it starts from. */
  datatype Block = Block(base: BaseSnapshot, fork: ForkId, env: BlockEnv)

  /** What the factory gives for a block: a fork of it and its env. */
  datatype Made = Made(fork: ForkId, env: BlockEnv)

  /** `factory` is false for a manager that cannot fork other blocks. */
  datatype Manager = Manager(
    current: Block,
    warm: Warm,
    cap: nat,
    values: map<CellId, Block>,
    factory: bool,
    sessions: map<SessionId, SessionData>,
    nextId: SessionId)

  datatype Op =
    | Refresh(fork: ForkId, env: BlockEnv)
    | SetEnv(newEnv: BlockEnv)
    | ForkDefault(seed: Layer)
    | ForkAt(block: nat, seed: Layer, made: Option<Made>)     // and what the factory would answer
    | Restore(block: nat, seed: Layer, made: Option<Made>)
    | BranchFrom(parent: SessionId)
    | Work(id: SessionId, done: SessionData)                   // jobs ran in a session
    | Discard(id: SessionId)

  function Registered(m: Manager, s: SessionData): Manager {
    m.(sessions := m.sessions[m.nextId := s], nextId := m.nextId + 1)
  }

  function Opened(m: Manager, b: Block, seed: Layer): Manager {
    Registered(m, Restored(b.base, b.fork, b.env, seed))
  }

  /** A block just forked starts with nothing in its base. */
  function FreshBlock(made: Option<Made>): Option<Block> {
    if made.Some? then Some(Block(NO_BASE, made.value.fork, made.value.env)) else None
  }

  /** The pinned block, from its cell or from the factory; asking moves the
      block to the recent end even when it cannot be had. */
  function Pinned(m: Manager, block: nat, made: Option<Made>): (Option<Block>, Manager) {
    var cell := CellFor(m.warm, block);
    var m' := m.(warm := Requested(m.warm, m.cap, block));
    if !m.factory then (None, m')
    else
      var (b, values) := GetOrTryInit(m.values, cell, FreshBlock(made));
      (b, m'.(values := values))
  }

  function OpenedAt(m: Manager, block: nat, seed: Layer, made: Option<Made>): (Option<SessionId>, Manager) {
    var (b, m') := Pinned(m, block, made);
    if b.Some? then (Some(m.nextId), Opened(m', b.value, seed)) else (None, m')
  }

  /** Whether the default block is `block`, a `u64`. */
  predicate IsCurrent(m: Manager, block: nat) {
    m.current.env.number <= U64_MAX && m.current.env.number == block
  }

  /** A session's jobs change what it holds, never where it came from. */
  predicate SameOrigin(s: SessionData, t: SessionData) {
    s.base == t.base && s.fork == t.fork && s.env == t.env && s.inherited == t.inherited
  }

  predicate Enabled(m: Manager, op: Op) {
    match op
    case BranchFrom(parent) => parent in m.sessions
    case Work(id, done) => id in m.sessions && SameOrigin(m.sessions[id], done)
    case _ => true
  }

  /** The session an operation opened, and the manager after it. */
  function Performed(m: Manager, op: Op): (Option<SessionId>, Manager)
    requires Enabled(m, op)
  {
    match op
    case Refresh(fork, env) => (None, m.(current := Block(NO_BASE, fork, env)))
    case SetEnv(env) => (None, m.(current := m.current.(env := env)))
    case ForkDefault(seed) => (Some(m.nextId), Opened(m, m.current, seed))
    case ForkAt(block, seed, made) => OpenedAt(m, block, seed, made)
    case Restore(block, seed, made) =>
      if IsCurrent(m, block) then (Some(m.nextId), Opened(m, m.current, seed)) else OpenedAt(m, block, seed, made)
    case BranchFrom(parent) => (Some(m.nextId), Registered(m, Branched(m.sessions[parent])))
    case Work(id, done) => (None, m.(sessions := m.sessions[id := done]))
    case Discard(id) => (None, m.(sessions := m.sessions - {id}))
  }

  // ---- One block each ----

  /** Which block a fork reads, a block's env, and what upstream holds there. */
  datatype Blocks = Blocks(blockOf: ForkId -> nat, envOf: nat -> BlockEnv, up: ForkId -> Upstream)

  /** `env` is, field by field, that of the block `fork` reads. */
  ghost predicate EnvOk(w: Blocks, fork: ForkId, env: BlockEnv) {
    env == w.envOf(w.blockOf(fork)) && env.number == w.blockOf(fork)
  }

  ghost predicate BlockOk(w: Blocks, b: Block) {
    EnvOk(w, b.fork, b.env) && Mirrors(w.up(b.fork), b.base)
  }

  /** Everything a session reads describes its one block: its env, its
      fallback, and its base but for what its own lineage put there. */
  ghost predicate SessionOk(w: Blocks, s: SessionData) {
    EnvOk(w, s.fork, s.env) && exists root :: Mirrors(w.up(s.fork), root) && Rooted(root, s)
  }

  /** Warm blocks have cells of their own, filled with that block or empty. */
  ghost predicate PinnedOk(w: Blocks, warm: Warm, values: map<CellId, Block>) {
    && TableOk(warm)
    && (forall c :: c in values ==> c < warm.made && BlockOk(w, values[c]))
    && (forall b :: b in warm.cells && warm.cells[b] in values ==> values[warm.cells[b]].env.number == b)
  }

  ghost predicate Consistent(w: Blocks, m: Manager) {
    && BlockOk(w, m.current) && PinnedOk(w, m.warm, m.values)
    && (forall id :: id in m.sessions ==> id < m.nextId && SessionOk(w, m.sessions[id]))
  }

  /** What callers owe: a refresh brings the env of the block its fallback
      forks, a factory answers for the block it was asked for, and the env is
      only ever set to the fallback's own block. */
  ghost predicate Honest(w: Blocks, m: Manager, op: Op) {
    match op
    case Refresh(fork, env) => EnvOk(w, fork, env)
    case SetEnv(env) => EnvOk(w, m.current.fork, env)
    case ForkAt(block, _, made) => made.Some? ==> HonestMade(w, block, made.value)
    case Restore(block, _, made) => made.Some? ==> HonestMade(w, block, made.value)
    case _ => true
  }

  ghost predicate HonestMade(w: Blocks, block: nat, made: Made) {
    w.blockOf(made.fork) == block && EnvOk(w, made.fork, made.env)
  }

  lemma NoBaseAgrees(up: Upstream)
    ensures Mirrors(up, NO_BASE)
  {
  }

  lemma OpenedKeeps(w: Blocks, m: Manager, b: Block, seed: Layer)
    requires Consistent(w, m) && BlockOk(w, b)
    ensures Consistent(w, Opened(m, b, seed))
  {
    BornRooted(b.base, b.fork, b.env, seed);
    assert SessionOk(w, Restored(b.base, b.fork, b.env, seed)) by {
      assert Mirrors(w.up(b.fork), b.base) && Rooted(b.base, Restored(b.base, b.fork, b.env, seed));
    }
    SessionsKeep(w, m, m.nextId, Restored(b.base, b.fork, b.env, seed));
  }

  lemma RequestKeepsPinned(w: Blocks, warm: Warm, cap: nat, values: map<CellId, Block>, block: nat)
    requires PinnedOk(w, warm, values)
    ensures PinnedOk(w, Requested(warm, cap, block), values)
    ensures CellFor(warm, block) in values ==> values[CellFor(warm, block)].env.number == block
  {
    RequestedSound(warm, cap, block);
    MadeGrows(warm, cap, block);
  }

  lemma FillKeepsPinned(w: Blocks, warm: Warm, cap: nat, values: map<CellId, Block>, block: nat, made: Made)
    requires PinnedOk(w, warm, values) && HonestMade(w, block, made)
    ensures PinnedOk(w, Requested(warm, cap, block), values[CellFor(warm, block) := FreshBlock(Some(made)).value])
  {
    RequestKeepsPinned(w, warm, cap, values, block);
    RequestedSound(warm, cap, block);
    MadeGrows(warm, cap, block);
    NoBaseAgrees(w.up(made.fork));
  }

  /** The pinned block asked for is the block asked for. */
  lemma PinnedSound(w: Blocks, m: Manager, block: nat, made: Option<Made>)
    requires PinnedOk(w, m.warm, m.values) && (made.Some? ==> HonestMade(w, block, made.value))
    ensures var (b, m') := Pinned(m, block, made);
      && PinnedOk(w, m'.warm, m'.values) && m' == m.(warm := m'.warm, values := m'.values)
      && (b.Some? ==> BlockOk(w, b.value) && b.value.env.number == block)
      && (b.None? ==> !m.factory || made.None?)
  {
    RequestKeepsPinned(w, m.warm, m.cap, m.values, block);
    if made.Some? {
      FillKeepsPinned(w, m.warm, m.cap, m.values, block, made.value);
      NoBaseAgrees(w.up(made.value.fork));
    }
  }

  lemma MadeGrows(warm: Warm, cap: nat, block: nat)
    requires TableOk(warm)
    ensures Requested(warm, cap, block).made >= warm.made
    ensures CellFor(warm, block) < Requested(warm, cap, block).made
    ensures forall b :: b in warm.cells && b != block ==> warm.cells[b] != CellFor(warm, block)
  {
    EnteredSound(warm, block);
    EvictedIsLatest(Entered(warm, block), cap);
  }

  lemma OpenedAtKeeps(w: Blocks, m: Manager, block: nat, seed: Layer, made: Option<Made>)
    requires Consistent(w, m) && (made.Some? ==> HonestMade(w, block, made.value))
    ensures Consistent(w, OpenedAt(m, block, seed, made).1)
  {
    PinnedSound(w, m, block, made);
    var (b, m') := Pinned(m, block, made);
    if b.Some? {
      OpenedKeeps(w, m', b.value, seed);
    }
  }

  lemma BranchKeeps(w: Blocks, s: SessionData)
    requires SessionOk(w, s)
    ensures SessionOk(w, Branched(s))
  {
    var root :| Mirrors(w.up(s.fork), root) && Rooted(root, s);
    BranchStaysRooted(root, s);
  }

  lemma WorkKeeps(w: Blocks, s: SessionData, t: SessionData)
    requires SessionOk(w, s) && SameOrigin(s, t)
    ensures SessionOk(w, t)
  {
    var root :| Mirrors(w.up(s.fork), root) && Rooted(root, s);
    assert Rooted(root, t);
  }

  lemma SessionsKeep(w: Blocks, m: Manager, id: SessionId, s: SessionData)
    requires Consistent(w, m) && SessionOk(w, s) && id <= m.nextId
    ensures Consistent(w, m.(sessions := m.sessions[id := s], nextId := if id == m.nextId then id + 1 else m.nextId))
  {
  }

  lemma CurrentKeeps(w: Blocks, m: Manager, b: Block)
    requires Consistent(w, m) && BlockOk(w, b)
    ensures Consistent(w, m.(current := b))
  {
  }

  /** Over any operations honest callers make, each session keeps one block:
      its env, its fallback and the root of its base are of that block. */
  lemma DoneKeepsConsistent(w: Blocks, m: Manager, op: Op)
    requires Consistent(w, m) && Enabled(m, op) && Honest(w, m, op)
    ensures Consistent(w, Performed(m, op).1)
  {
    match op
    case Refresh(fork, env) =>
      NoBaseAgrees(w.up(fork));
      CurrentKeeps(w, m, Block(NO_BASE, fork, env));
    case SetEnv(env) => CurrentKeeps(w, m, m.current.(env := env));
    case ForkDefault(seed) => OpenedKeeps(w, m, m.current, seed);
    case ForkAt(block, seed, made) => OpenedAtKeeps(w, m, block, seed, made);
    case Restore(block, seed, made) =>
      if IsCurrent(m, block) {
        OpenedKeeps(w, m, m.current, seed);
      } else {
        OpenedAtKeeps(w, m, block, seed, made);
      }
    case BranchFrom(parent) =>
      BranchKeeps(w, m.sessions[parent]);
      SessionsKeep(w, m, m.nextId, Branched(m.sessions[parent]));
    case Work(id, done) =>
      WorkKeeps(w, m.sessions[id], done);
      SessionsKeep(w, m, id, done);
    case Discard(id) =>
  }

  lemma OpenedAtOnlyAdds(m: Manager, block: nat, seed: Layer, made: Option<Made>)
    ensures var (id, m') := OpenedAt(m, block, seed, made);
      if id.Some? then id.value == m.nextId && m'.sessions == m.sessions[m.nextId := m'.sessions[m.nextId]]
      else m'.sessions == m.sessions
  {
  }

  /** No operation moves a live session to another block, nor re-uses its id. */
  lemma SessionsKeepTheirBlock(w: Blocks, m: Manager, op: Op, id: SessionId)
    requires Consistent(w, m) && Enabled(m, op) && id in m.sessions && id in Performed(m, op).1.sessions
    ensures SameOrigin(m.sessions[id], Performed(m, op).1.sessions[id])
    ensures !op.Work? ==> Performed(m, op).1.sessions[id] == m.sessions[id]
    ensures Performed(m, op).0 != Some(id)
  {
    if op.ForkAt? || op.Restore? {
      OpenedAtOnlyAdds(m, op.block, op.seed, op.made);
    }
  }

  /** A resumed session is at its snapshot's block, on whichever base, and
      holds exactly the snapshot's state; it fails only when the block is not
      the default and cannot be forked. */
  lemma RestoreIsAtItsBlock(w: Blocks, m: Manager, block: nat, seed: Layer, made: Option<Made>)
    requires Consistent(w, m) && (made.Some? ==> HonestMade(w, block, made.value))
    ensures var (id, m') := Performed(m, Restore(block, seed, made));
      && (id.Some? ==>
            id.value in m'.sessions && m'.sessions[id.value].env.number == block &&
            m'.sessions[id.value].overlay == seed)
      && (id.None? ==> !IsCurrent(m, block) && (!m.factory || made.None?))
      && (id.Some? ==> w.blockOf(m'.sessions[id.value].fork) == block)
  {
    PinnedSound(w, m, block, made);
  }

  /** The session a fork opens right after the env alone was set. */
  ghost function AfterSetEnv(m: Manager, env: BlockEnv, seed: Layer): SessionData {
    Performed(Performed(m, SetEnv(env)).1, ForkDefault(seed)).1.sessions[m.nextId]
  }

  /** Setting the env alone keeps new sessions on one block exactly when it is
      the env of the fallback's block. */
  lemma SetEnvAloneMayTearBlocks(w: Blocks, m: Manager, env: BlockEnv, seed: Layer)
    requires Consistent(w, m)
    ensures SessionOk(w, AfterSetEnv(m, env, seed)) <==> EnvOk(w, m.current.fork, env)
  {
    var b := m.current.(env := env);
    BornRooted(b.base, b.fork, b.env, seed);
    assert Rooted(b.base, Restored(b.base, b.fork, b.env, seed));
  }

  /** What such a session reads: under the env it was given, the state of the
      block its fallback forks. */
  lemma SetEnvAloneReads(w: Blocks, m: Manager, env: BlockEnv, seed: Layer, q: Query)
    requires Consistent(w, m) && !q.CodeQ? && Local(AfterSetEnv(m, env, seed), q) == None
    ensures AfterSetEnv(m, env, seed).env == env
    ensures Look(w.up(AfterSetEnv(m, env, seed).fork), AfterSetEnv(m, env, seed), q) ==
            ToAnswer(w.up(m.current.fork).Truth(KeyOf(q)))
  {
  }

  /** Two blocks that differ: account 7 holds 100 at block 100, forked by 0,
      and 101 at block 101, forked by 1. */
  const TWO_BLOCKS := Blocks((fork: ForkId) => if fork == 1 then 101 else 100,
                             (number: nat) => BlockEnv(number, 12 * number, 7, 30_000_000),
                             (fork: ForkId) => HoldingOnly(if fork == 1 then 101 else 100))

  function HoldingOnly(balance: Word): Upstream {
    Upstream((a: Address) => Some(AccountInfo(balance, 0, KECCAK_EMPTY, None)), (a: Address, i: Slot) => 0,
             (n: nat) => n,
             (h: Hash) => None)
  }

  /** It happens: a manager on block 100 is given the env of block 101 and no
      fork of it, and the next session reads under number 101 a balance the
      account does not have at block 101. */
  lemma ASetEnvTearsABlock()
    ensures var (w, m) := (TWO_BLOCKS,
                           Manager(Block(NO_BASE, 0, TWO_BLOCKS.envOf(100)), EMPTY, 1, map[], false, map[], 0));
      var s := AfterSetEnv(m, w.envOf(101), EMPTY_LAYER);
      && Consistent(w, m) && !SessionOk(w, s)
      && s.env.number == 101 == w.blockOf(1)
      && Look(w.up(s.fork), s, AccountQ(7)) != ToAnswer(w.up(1).Truth(AccountKey(7)))
  {
    var (w, m) := (TWO_BLOCKS, Manager(Block(NO_BASE, 0, TWO_BLOCKS.envOf(100)), EMPTY, 1, map[], false, map[], 0));
    NoBaseAgrees(w.up(0));
    assert Consistent(w, m);
    SetEnvAloneMayTearBlocks(w, m, w.envOf(101), EMPTY_LAYER);
    var s := AfterSetEnv(m, w.envOf(101), EMPTY_LAYER);
    assert s.fork == 0 && Local(s, AccountQ(7)) == None;
    SetEnvAloneReads(w, m, w.envOf(101), EMPTY_LAYER, AccountQ(7));
    assert w.up(0) == HoldingOnly(100) && w.up(1) == HoldingOnly(101);
  }

  // ---- What each operation gives ----

  /** Session `id` is new, the next one, and no other is touched. */
  ghost predicate OneMore(m: Manager, id: Option<SessionId>, m': Manager) {
    && id == Some(m.nextId) && m.nextId in m'.sessions && m'.nextId == m.nextId + 1
    && m'.sessions == m.sessions[m.nextId := m'.sessions[m.nextId]]
  }

  /** `s` is a session at a block of this fork and env, answering `seed` first,
      then the block's base, then upstream. */
  ghost predicate StartsFrom(w: Blocks, s: SessionData, b: Block, seed: Layer) {
    && s.fork == b.fork && s.env == b.env && Own(s) == seed
    && forall q ::
         Look(w.up(s.fork), s, q) == Laid(seed, Laid(b.base.layer, Ground(w.up(b.fork), b.base.blockHashes)))(q)
  }

  lemma OpenedStarts(w: Blocks, m: Manager, b: Block, seed: Layer)
    ensures OneMore(m, Some(m.nextId), Opened(m, b, seed))
    ensures StartsFrom(w, Opened(m, b, seed).sessions[m.nextId], b, seed)
  {
    var s := Opened(m, b, seed).sessions[m.nextId];
    OverIsAssociative(seed, EMPTY_LAYER, EMPTY_LAYER);
    forall q
      ensures Look(w.up(s.fork), s, q) == Laid(seed, Laid(b.base.layer, Ground(w.up(b.fork), b.base.blockHashes)))(q)
    {
      LookIsTheView(w.up(s.fork), s, q);
    }
  }

  /** A fork of the default block answers its seed over the default base over
      the default fallback. */
  lemma ForkDefaultReads(w: Blocks, m: Manager, seed: Layer)
    ensures var (id, m') := Performed(m, ForkDefault(seed));
      && OneMore(m, id, m') && m' == m.(sessions := m'.sessions, nextId := m'.nextId)
      && StartsFrom(w, m'.sessions[id.value], m.current, seed)
  {
    OpenedStarts(w, m, m.current, seed);
  }

  /** A fork of another block: of what its cell holds, whatever the factory
      would answer; if that is nothing, of what the factory answers, with no
      base, and the cell is filled with it; and if that is nothing too, there
      is no session, and no cell is filled. Asking counts as use regardless. */
  lemma ForkAtReads(w: Blocks, m: Manager, block: nat, seed: Layer, made: Option<Made>)
    ensures var (id, m') := Performed(m, ForkAt(block, seed, made));
      var cell := CellFor(m.warm, block);
      && m'.warm == Requested(m.warm, m.cap, block) && m'.current == m.current
      && if m.factory && cell in m.values then
           OneMore(m, id, m') && m'.values == m.values && StartsFrom(w, m'.sessions[id.value], m.values[cell], seed)
         else if m.factory && made.Some? then
           var b := Block(NO_BASE, made.value.fork, made.value.env);
           OneMore(m, id, m') && m'.values == m.values[cell := b] && StartsFrom(w, m'.sessions[id.value], b, seed)
         else
           id == None && m' == m.(warm := m'.warm)
  {
    var (b, m') := Pinned(m, block, made);
    if b.Some? {
      OpenedStarts(w, m', b.value, seed);
    }
  }

  /** Two sessions asked for at one block, one after the other, are on one
      fork, env and base: the factory is only asked once. */
  lemma PinnedIsShared(m: Manager, block: nat, seed: Layer, made: Option<Made>, seed': Layer, made': Option<Made>)
    requires m.cap > 0 && TableOk(m.warm)
    requires Performed(m, ForkAt(block, seed, made)).0.Some?
    ensures var (id, m1) := Performed(m, ForkAt(block, seed, made));
      var (id', m2) := Performed(m1, ForkAt(block, seed', made'));
      && id'.Some? && id.value in m2.sessions && id'.value in m2.sessions && id != id'
      && m2.sessions[id'.value].fork == m2.sessions[id.value].fork
      && m2.sessions[id'.value].env == m2.sessions[id.value].env
      && m2.sessions[id'.value].base == m2.sessions[id.value].base
      && m2.values == m1.values
  {
    var m1 := Performed(m, ForkAt(block, seed, made)).1;
    JustRequestedKeepsItsCell(m.warm, m.cap, block);
    OpenedFromItsCell(m, block, seed, made);
    OpenedFromItsCell(m1, block, seed', made');
  }

  lemma OpenedFromItsCell(m: Manager, block: nat, seed: Layer, made: Option<Made>)
    ensures var (id, m') := OpenedAt(m, block, seed, made);
      var cell := CellFor(m.warm, block);
      && m'.warm == Requested(m.warm, m.cap, block) && m'.cap == m.cap && m'.factory == m.factory
      && (m.factory && cell in m.values ==> id.Some? && m'.values == m.values)
      && (id.Some? ==>
            && m.factory && id.value == m.nextId && m'.nextId == m.nextId + 1 && cell in m'.values
            && m'.sessions == m.sessions[m.nextId := m'.sessions[m.nextId]] && m.nextId in m'.sessions
            && var (s, b) := (m'.sessions[m.nextId], m'.values[cell]);
              s.fork == b.fork && s.env == b.env && s.base == b.base)
  {
  }

  /** Resuming is forking the default block when that is the block asked for,
      and forking at the block otherwise. */
  lemma RestoreForks(m: Manager, block: nat, seed: Layer, made: Option<Made>)
    requires block <= U64_MAX
    ensures Performed(m, Restore(block, seed, made)) ==
            Performed(m, if m.current.env.number == block then ForkDefault(seed) else ForkAt(block, seed, made))
  {
  }

  /** After a refresh new sessions fork the new default, under its env and with
      no base; those there are as they were. */
  lemma RefreshMovesTheDefault(w: Blocks, m: Manager, fork: ForkId, env: BlockEnv, seed: Layer)
    ensures var m1 := Performed(m, Refresh(fork, env)).1;
      var (id, m2) := Performed(m1, ForkDefault(seed));
      && m1.sessions == m.sessions && m1.values == m.values && m1.warm == m.warm
      && OneMore(m, id, m2) && StartsFrom(w, m2.sessions[id.value], Block(NO_BASE, fork, env), seed)
  {
    ForkDefaultReads(w, Performed(m, Refresh(fork, env)).1, seed);
  }

  /** A child answers every query without upstream as its parent does, owns
      what its parent owns, and is on its fork and env; the parent and all
      others are as they were. */
  lemma ForkFromReads(m: Manager, parent: SessionId)
    requires parent in m.sessions && forall id :: id in m.sessions ==> id < m.nextId
    ensures var (id, m') := Performed(m, BranchFrom(parent));
      && OneMore(m, id, m') && m' == m.(sessions := m'.sessions, nextId := m'.nextId)
      && parent in m'.sessions && m'.sessions[parent] == m.sessions[parent]
      && var (p, child) := (m.sessions[parent], m'.sessions[id.value]);
        && (forall q :: Local(child, q) == Local(p, q))
        && Own(child) == Own(p) && child.fork == p.fork && child.env == p.env
  {
    var p := m.sessions[parent];
    OverIsAssociative(Own(p), EMPTY_LAYER, EMPTY_LAYER);
    forall q
      ensures Local(Branched(p), q) == Local(p, q)
    {
      BranchKeepsView(p, q);
    }
  }

  /** A discarded session is gone, and nothing else is. */
  lemma DiscardRemoves(m: Manager, id: SessionId)
    ensures var m' := Performed(m, Discard(id)).1;
      && id !in m'.sessions && m' == m.(sessions := m'.sessions)
      && forall other :: other != id ==>
           ((other in m'.sessions <==> other in m.sessions) &&
            (other in m.sessions ==> m'.sessions[other] == m.sessions[other]))
  {
  }

  // ---- Whole runs ----

  ghost predicate AreOps(w: Blocks, ops: seq<Op>, trace: seq<Manager>) {
    && |trace| == |ops| + 1 && Consistent(w, trace[0])
    && forall i :: 0 <= i < |ops| ==> Follows(w, ops, trace, i)
  }

  ghost predicate Follows(w: Blocks, ops: seq<Op>, trace: seq<Manager>, i: nat)
    requires i < |ops| < |trace|
  {
    Enabled(trace[i], ops[i]) && Honest(w, trace[i], ops[i]) && trace[i + 1] == Performed(trace[i], ops[i]).1
  }

  /** Over whole runs of honest operations, everything stays consistent. */
  lemma {:induction false} AlwaysConsistent(w: Blocks, ops: seq<Op>, trace: seq<Manager>, n: nat)
    requires AreOps(w, ops, trace) && n <= |ops|
    ensures Consistent(w, trace[n])
  {
    if n > 0 {
      AlwaysConsistent(w, ops, trace, n - 1);
      assert Follows(w, ops, trace, n - 1);
      DoneKeepsConsistent(w, trace[n - 1], ops[n - 1]);
    }
  }

  /** And a session opened once is, for as long as it lives, on the block it
      was opened on. */
  lemma {:induction false} BlocksNeverChange(w: Blocks, ops: seq<Op>, trace: seq<Manager>, m: nat, n: nat,
                                             id: SessionId)
    requires AreOps(w, ops, trace) && m <= n <= |ops|
    requires forall k :: m <= k <= n ==> id in trace[k].sessions
    ensures trace[n].sessions[id].env == trace[m].sessions[id].env &&
            trace[n].sessions[id].fork == trace[m].sessions[id].fork
    decreases n
  {
    if m < n {
      BlocksNeverChange(w, ops, trace, m, n - 1, id);
      assert id in trace[n - 1].sessions && id in trace[n].sessions;
      StepKeepsBlock(w, ops, trace, n - 1, id);
    }
  }

  lemma StepKeepsBlock(w: Blocks, ops: seq<Op>, trace: seq<Manager>, n: nat, id: SessionId)
    requires AreOps(w, ops, trace) && n < |ops| && id in trace[n].sessions && id in trace[n + 1].sessions
    ensures trace[n + 1].sessions[id].env == trace[n].sessions[id].env
    ensures trace[n + 1].sessions[id].fork == trace[n].sessions[id].fork
  {
    assert Follows(w, ops, trace, n);
    AlwaysConsistent(w, ops, trace, n);
    SessionsKeepTheirBlock(w, trace[n], ops[n], id);
  }

  // ---- The manager, in place ----

  class SessionManager {
    var base: BaseSnapshot
    var fallback: ForkId
    var blockEnv: BlockEnv
    var warm: Warm
    const cap: nat
    var values: map<CellId, Block>
    const factory: bool
    var sessions: map<SessionId, SessionData>
    var nextId: SessionId

    function State(): Manager
      reads this
    {
      Manager(Block(base, fallback, blockEnv), warm, cap, values, factory, sessions, nextId)
    }

    constructor (fallback: ForkId, env: BlockEnv, base: BaseSnapshot, factory: bool, maxPinnedBlocks: nat)
      ensures State() == Manager(Block(base, fallback, env), EMPTY, if maxPinnedBlocks > 1 then maxPinnedBlocks else 1,
                                 map[], factory, map[], 0)
    {
      this.base, this.fallback, blockEnv := base, fallback, env;
      warm, cap, values := EMPTY, if maxPinnedBlocks > 1 then maxPinnedBlocks else 1, map[];
      this.factory, sessions, nextId := factory, map[], 0;
    }

    method RefreshFallback(fork: ForkId, env: BlockEnv)
      modifies this
      ensures State() == Performed(old(State()), Refresh(fork, env)).1
    {
      fallback := fork;
      blockEnv := env;
      // A base outranks the fallback: kept, the old one would go on
      // answering with the old block's values.
      base := NO_BASE;
    }

    method SetBlockEnv(env: BlockEnv)
      modifies this
      ensures State() == Performed(old(State()), SetEnv(env)).1
    {
      blockEnv := env;
    }

    method Register(base: BaseSnapshot, fork: ForkId, env: BlockEnv, seed: Layer) returns (id: SessionId)
      modifies this
      ensures id == old(nextId) && State() == Opened(old(State()), Block(base, fork, env), seed)
    {
      id := nextId;
      nextId := nextId + 1;
      sessions := sessions[id := Restored(base, fork, env, seed)];
    }

    method ForkSeeded(seed: Layer) returns (id: SessionId)
      modifies this
      ensures (Some(id), State()) == Performed(old(State()), ForkDefault(seed))
    {
      id := Register(base, fallback, blockEnv, seed);
    }

    /** A session at `block`, whatever the default; `made` is what the factory
        would answer. */
    method ForkAtBlockSeeded(block: nat, seed: Layer, made: Option<Made>) returns (id: Option<SessionId>)
      modifies this
      ensures (id, State()) == Performed(old(State()), ForkAt(block, seed, made))
    {
      var cell := CellFor(warm, block);
      warm := Requested(warm, cap, block);
      if !factory {
        return None;
      }
      var pinned, filled := Fill(values, cell, FreshBlock(made));
      values := filled;
      if pinned.None? {
        return None;
      }
      var session := Register(pinned.value.base, pinned.value.fork, pinned.value.env, seed);
      return Some(session);
    }

    method RestoreAt(block: nat, seed: Layer, made: Option<Made>) returns (id: Option<SessionId>)
      modifies this
      ensures (id, State()) == Performed(old(State()), Restore(block, seed, made))
    {
      if blockEnv.number <= U64_MAX && blockEnv.number == block {
        var session := ForkSeeded(seed);
        return Some(session);
      }
      id := ForkAtBlockSeeded(block, seed, made);
    }

    method ForkFrom(parent: SessionId) returns (id: Option<SessionId>)
      modifies this
      ensures parent !in old(sessions) ==> id == None && State() == old(State())
      ensures parent in old(sessions) ==> (id, State()) == Performed(old(State()), BranchFrom(parent))
    {
      if parent !in sessions {
        return None;
      }
      // An id is only taken once the branch succeeded.
      var child := Branched(sessions[parent]);
      id := Some(nextId);
      nextId := nextId + 1;
      sessions := sessions[id.value := child];
    }
  }
}
