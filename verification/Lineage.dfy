/** A session and its descendants: what branching, saving and resuming keep. */
module Lineage {
  import opened Chain
  import opened Fetch
  import opened Engine
  import opened Passes

  /** The base is the shared base the lineage started from, overridden by what
      branching has folded in since. */
  ghost predicate Rooted(root: BaseSnapshot, s: SessionData) {
    s.base == BaseSnapshot(s.inherited.Over(root.layer), root.blockHashes)
  }

  lemma MapsOver<K, V>(a: map<K, V>, b: map<K, V>, c: map<K, V>)
    ensures (a + b) + c == a + (b + c)
    ensures map[] + a == a == a + map[]
  {
  }

  lemma OverIsAssociative(a: Layer, b: Layer, c: Layer)
    ensures a.Over(b).Over(c) == a.Over(b.Over(c))
    ensures EMPTY_LAYER.Over(a) == a == a.Over(EMPTY_LAYER)
  {
    MapsOver(c.accounts, b.accounts, a.accounts);
    MapsOver(c.code, b.code, a.code);
    MapsOver(c.storage, b.storage, a.storage);
    MapsOver(a.accounts, b.accounts, c.accounts);
    MapsOver(a.code, b.code, c.code);
    MapsOver(a.storage, b.storage, c.storage);
  }

  lemma BornRooted(base: BaseSnapshot, fork: ForkId, env: BlockEnv, state: Layer)
    ensures Rooted(base, Restored(base, fork, env, state))
  {
    OverIsAssociative(base.layer, EMPTY_LAYER, EMPTY_LAYER);
  }

  /** A child still comes from the root its parent came from, and owns what its
      parent owned. */
  lemma BranchStaysRooted(root: BaseSnapshot, s: SessionData)
    requires Rooted(root, s)
    ensures Rooted(root, Branched(s)) && Own(Branched(s)) == Own(s)
  {
    OverIsAssociative(s.overlay, s.inherited, root.layer);
    OverIsAssociative(Own(s), EMPTY_LAYER, EMPTY_LAYER);
  }

  /** A child answers everything its parent answers without the fallback, and
      the same. */
  lemma BranchKeepsView(s: SessionData, q: Query)
    ensures Local(Branched(s), q) == Local(s, q)
  {
    var t := Branched(s);
    match q
    case AccountQ(a) => assert t.base.layer.accounts == s.base.layer.accounts + s.overlay.accounts;
    case StorageQ(a, i) => assert t.base.layer.storage == s.base.layer.storage + s.overlay.storage;
    case CodeQ(h) => assert t.base.layer.code == s.base.layer.code + s.overlay.code;
    case BlockHashQ(n) =>
  }

  // ---- The code `state` gathers ----

  /** The code a session can name for an account without asking by hash. */
  function Found(info: AccountInfo, baseCode: map<Hash, Bytecode>): Option<Bytecode> {
    if info.code.Some? then info.code
    else if info.codeHash in baseCode then Some(baseCode[info.codeHash])
    else None
  }

  /** `a` is a contract of hash `h` whose code can be named. */
  predicate Names(accounts: map<Address, AccountInfo>, baseCode: map<Hash, Bytecode>, a: Address, h: Hash) {
    a in accounts && accounts[a].codeHash == h != KECCAK_EMPTY && Found(accounts[a], baseCode).Some?
  }

  /** Accounts of one hash name one code, unless `known` has it already. */
  ghost predicate Unambiguous(accounts: map<Address, AccountInfo>, baseCode: map<Hash, Bytecode>,
                              known: map<Hash, Bytecode>) {
    forall a, b, h :: h !in known && Names(accounts, baseCode, a, h) && Names(accounts, baseCode, b, h) ==>
      Found(accounts[a], baseCode) == Found(accounts[b], baseCode)
  }

  /** Gathering keeps the code that was known, and adds the code of exactly
      the contracts visited whose code can be named. */
  lemma {:induction false} GatherFinds(order: seq<Address>, accounts: map<Address, AccountInfo>,
                                       baseCode: map<Hash, Bytecode>, known: map<Hash, Bytecode>, h: Hash)
    requires forall a :: a in order ==> a in accounts
    ensures var g := Gather(order, accounts, baseCode, known);
      && (h in known ==> h in g && g[h] == known[h])
      && (h !in known ==> (h in g <==> exists a :: a in order && Names(accounts, baseCode, a, h)))
      && (h !in known && h in g ==>
            exists a :: a in order && Names(accounts, baseCode, a, h) && Found(accounts[a], baseCode) == Some(g[h]))
  {
    if order != [] {
      var last := |order| - 1;
      GatherFinds(order[..last], accounts, baseCode, known, h);
      assert order == order[..last] + [order[last]];
      var g' := Gather(order[..last], accounts, baseCode, known);
      var g := Gather(order, accounts, baseCode, known);
      assert g == GatherOne(accounts[order[last]], baseCode, g');
      if h !in g' && h in g {
        assert Names(accounts, baseCode, order[last], h) && Found(accounts[order[last]], baseCode) == Some(g[h]);
      }
    }
  }

  lemma GatherIsUnordered(s: SessionData, o1: seq<Address>, o2: seq<Address>)
    requires Enumerates(o1, Own(s).accounts.Keys) && Enumerates(o2, Own(s).accounts.Keys)
    requires Unambiguous(Own(s).accounts, s.base.layer.code, Own(s).code)
    ensures StateIn(s, o1) == StateIn(s, o2)
  {
    var (accounts, code) := (Own(s).accounts, Own(s).code);
    var (g1, g2) := (Gather(o1, accounts, s.base.layer.code, code), Gather(o2, accounts, s.base.layer.code, code));
    forall h
      ensures (h in g1 <==> h in g2) && (h in g1 ==> g1[h] == g2[h])
    {
      GatherFinds(o1, accounts, s.base.layer.code, code, h);
      GatherFinds(o2, accounts, s.base.layer.code, code, h);
    }
    assert g1 == g2;
  }

  /** Whoever is visited first decides. */
  lemma {:induction false} FirstVisitedWins(a: Address, rest: seq<Address>, accounts: map<Address, AccountInfo>,
                                            baseCode: map<Hash, Bytecode>, known: map<Hash, Bytecode>, h: Hash)
    requires forall x :: x in [a] + rest ==> x in accounts
    requires h !in known && Names(accounts, baseCode, a, h)
    ensures var g := Gather([a] + rest, accounts, baseCode, known);
      h in g && Some(g[h]) == Found(accounts[a], baseCode)
  {
    var order := [a] + rest;
    if rest == [] {
      assert order[..0] == [];
    } else {
      var last := |rest| - 1;
      assert order[..|order| - 1] == [a] + rest[..last];
      FirstVisitedWins(a, rest[..last], accounts, baseCode, known, h);
    }
  }

  ghost predicate OrderFree(s: SessionData) {
    forall o1, o2 :: Enumerates(o1, Own(s).accounts.Keys) && Enumerates(o2, Own(s).accounts.Keys) ==>
      StateIn(s, o1) == StateIn(s, o2)
  }

  lemma AmbiguousIsNotOrderFree(s: SessionData, a: Address, b: Address, h: Hash)
    requires h !in Own(s).code && Names(Own(s).accounts, s.base.layer.code, a, h) &&
             Names(Own(s).accounts, s.base.layer.code, b, h)
    requires Found(Own(s).accounts[a], s.base.layer.code) != Found(Own(s).accounts[b], s.base.layer.code)
    ensures !OrderFree(s)
  {
    var (accounts, baseCode, known) := (Own(s).accounts, s.base.layer.code, Own(s).code);
    var (o1, o2) := ([a] + Ascending(accounts.Keys - {a}), [b] + Ascending(accounts.Keys - {b}));
    FirstVisitedWins(a, Ascending(accounts.Keys - {a}), accounts, baseCode, known, h);
    FirstVisitedWins(b, Ascending(accounts.Keys - {b}), accounts, baseCode, known, h);
    assert Enumerates(o1, accounts.Keys) && Enumerates(o2, accounts.Keys);
    assert StateIn(s, o1).code[h] != StateIn(s, o2).code[h];
  }

  /** A saved state does not depend on the order a hash map hands accounts
      over, exactly when accounts of one code hash name one code. */
  lemma OrderIsIrrelevant(s: SessionData)
    ensures Unambiguous(Own(s).accounts, s.base.layer.code, Own(s).code) <==> OrderFree(s)
  {
    var (accounts, baseCode, known) := (Own(s).accounts, s.base.layer.code, Own(s).code);
    if a, b, h :| h !in known && Names(accounts, baseCode, a, h) && Names(accounts, baseCode, b, h) &&
                  Found(accounts[a], baseCode) != Found(accounts[b], baseCode)
    {
      AmbiguousIsNotOrderFree(s, a, b, h);
    } else {
      forall o1, o2 | Enumerates(o1, accounts.Keys) && Enumerates(o2, accounts.Keys)
        ensures StateIn(s, o1) == StateIn(s, o2)
      {
        GatherIsUnordered(s, o1, o2);
      }
    }
  }

  // ---- State and restore ----

  /** Restoring what a session saved over the base its lineage started from
      answers every account, slot and block hash as the session did, however
      deep in a tree of branches it was. */
  lemma RestoreAnswersAlike(root: BaseSnapshot, s: SessionData, order: seq<Address>, q: Query)
    requires Rooted(root, s) && Enumerates(order, Own(s).accounts.Keys) && !q.CodeQ?
    ensures Local(Restored(root, s.fork, s.env, StateIn(s, order)), q) == Local(s, q)
  {
    var (own, base) := (Own(s), s.base);
    match q
    case AccountQ(a) => assert a in own.accounts <==> a in s.overlay.accounts || a in s.inherited.accounts;
    case StorageQ(a, i) =>
      assert (a, i) in own.storage <==> (a, i) in s.overlay.storage || (a, i) in s.inherited.storage;
    case BlockHashQ(n) =>
  }

  /** Code the session could name by hash it can still name, and so it can the
      code of every contract it held; nothing else is added. */
  lemma RestoreFindsCode(root: BaseSnapshot, s: SessionData, order: seq<Address>, h: Hash)
    requires Rooted(root, s) && Enumerates(order, Own(s).accounts.Keys)
    ensures Local(Restored(root, s.fork, s.env, StateIn(s, order)), CodeQ(h)).Some? <==>
            || Local(s, CodeQ(h)).Some?
            || exists a :: Names(Own(s).accounts, s.base.layer.code, a, h)
  {
    GatherFinds(order, Own(s).accounts, s.base.layer.code, Own(s).code, h);
    assert h in Own(s).code <==> h in s.overlay.code || h in s.inherited.code;
    assert forall a :: Names(Own(s).accounts, s.base.layer.code, a, h) ==> a in order;
  }

  /** Inline code and code by hash is what its hash says. */
  ghost predicate Hashed(preimage: Hash -> Bytecode, layer: Layer) {
    && (forall h :: h in layer.code ==> layer.code[h] == preimage(h))
    && (forall a :: a in layer.accounts && layer.accounts[a].code.Some? ==>
          layer.accounts[a].code.value == preimage(layer.accounts[a].codeHash))
  }

  lemma SavedCodeIsHashed(preimage: Hash -> Bytecode, s: SessionData, order: seq<Address>, h: Hash)
    requires Enumerates(order, Own(s).accounts.Keys) && h in StateIn(s, order).code
    requires Hashed(preimage, Own(s)) && Hashed(preimage, s.base.layer)
    ensures StateIn(s, order).code[h] == preimage(h)
  {
    GatherFinds(order, Own(s).accounts, s.base.layer.code, Own(s).code, h);
  }

  lemma NamedCodeIsHashed(preimage: Hash -> Bytecode, s: SessionData, h: Hash)
    requires Hashed(preimage, Own(s)) && Hashed(preimage, s.base.layer)
    ensures Local(s, CodeQ(h)).Some? ==> Local(s, CodeQ(h)) == Some(CodeA(preimage(h)))
  {
    assert h in s.overlay.code ==> h in Own(s).code && Own(s).code[h] == s.overlay.code[h];
  }

  /** With every code under its own hash the saved state is one state, and code
      that could be named before is named the same after. */
  lemma RestoreKeepsCode(preimage: Hash -> Bytecode, root: BaseSnapshot, s: SessionData, order: seq<Address>, h: Hash)
    requires Rooted(root, s) && Enumerates(order, Own(s).accounts.Keys)
    requires Hashed(preimage, Own(s)) && Hashed(preimage, s.base.layer)
    ensures var t := Restored(root, s.fork, s.env, StateIn(s, order));
      && (Local(s, CodeQ(h)).Some? ==> Local(t, CodeQ(h)) == Local(s, CodeQ(h)))
      && (Local(t, CodeQ(h)).Some? ==> Local(t, CodeQ(h)) == Some(CodeA(preimage(h))))
  {
    RestoreFindsCode(root, s, order, h);
    NamedCodeIsHashed(preimage, s, h);
    if h in StateIn(s, order).code {
      SavedCodeIsHashed(preimage, s, order, h);
    } else {
      GatherFinds(order, Own(s).accounts, s.base.layer.code, Own(s).code, h);
      assert h in s.base.layer.code <==> h in root.layer.code;
    }
  }

  lemma HashedIsOrderFree(preimage: Hash -> Bytecode, s: SessionData)
    requires Hashed(preimage, Own(s)) && Hashed(preimage, s.base.layer)
    ensures OrderFree(s)
  {
    OrderIsIrrelevant(s);
  }

  /** A base that says nothing but what upstream says, code aside. */
  ghost predicate AgreesWith(up: Upstream, base: BaseSnapshot) {
    && (forall a :: a in base.layer.accounts ==> up.account(a) == Some(base.layer.accounts[a]))
    && (forall a, i :: (a, i) in base.layer.storage ==> up.storage(a, i) == base.layer.storage[(a, i)])
    && (forall n :: n in base.blockHashes ==> up.blockHash(n) == base.blockHashes[n])
  }

  /** Any other base of the same block does as well: what the resumed session
      then has to fetch is what the original's base said. */
  lemma RestoreOverAnyBase(up: Upstream, root: BaseSnapshot, other: BaseSnapshot, s: SessionData, order: seq<Address>,
                           fork: ForkId, q: Query)
    requires Rooted(root, s) && Enumerates(order, Own(s).accounts.Keys) && !q.CodeQ?
    requires AgreesWith(up, root) && AgreesWith(up, other)
    ensures Look(up, Restored(other, fork, s.env, StateIn(s, order)), q) == Look(up, s, q)
  {
    var (own, base) := (Own(s), s.base);
    match q
    case AccountQ(a) =>
      assert a in own.accounts <==> a in s.overlay.accounts || a in s.inherited.accounts;
      assert a in base.layer.accounts <==> a in s.inherited.accounts || a in root.layer.accounts;
    case StorageQ(a, i) =>
      assert (a, i) in own.storage <==> (a, i) in s.overlay.storage || (a, i) in s.inherited.storage;
      assert (a, i) in base.layer.storage <==> (a, i) in s.inherited.storage || (a, i) in root.layer.storage;
    case BlockHashQ(n) =>
  }

  /** As `AgreesWith`, but for empty code carried inline by one side only. */
  ghost predicate Mirrors(up: Upstream, base: BaseSnapshot) {
    && (forall a :: a in base.layer.accounts ==>
          up.account(a).Some? && Trimmed(up.account(a).value) == Trimmed(base.layer.accounts[a]))
    && (forall a, i :: (a, i) in base.layer.storage ==> up.storage(a, i) == base.layer.storage[(a, i)])
    && (forall n :: n in base.blockHashes ==> up.blockHash(n) == base.blockHashes[n])
  }

  predicate SameButEmptyCode(x: Answer, y: Answer) {
    if x.AccountA? && x.info.Some? && y.AccountA? && y.info.Some? then Trimmed(x.info.value) == Trimmed(y.info.value)
    else x == y
  }

  /** A base read back from a cache file may have lost empty inline code: over
      it the resumed session sees the same view, that aside. */
  lemma RestoreOverAnyMirror(up: Upstream, root: BaseSnapshot, other: BaseSnapshot, s: SessionData, order: seq<Address>,
                             fork: ForkId, q: Query)
    requires Rooted(root, s) && Enumerates(order, Own(s).accounts.Keys) && !q.CodeQ?
    requires Mirrors(up, root) && Mirrors(up, other)
    ensures SameButEmptyCode(Look(up, Restored(other, fork, s.env, StateIn(s, order)), q), Look(up, s, q))
  {
    var (own, base) := (Own(s), s.base);
    match q
    case AccountQ(a) =>
      assert a in own.accounts <==> a in s.overlay.accounts || a in s.inherited.accounts;
      assert a in base.layer.accounts <==> a in s.inherited.accounts || a in root.layer.accounts;
    case StorageQ(a, i) =>
      assert (a, i) in own.storage <==> (a, i) in s.overlay.storage || (a, i) in s.inherited.storage;
      assert (a, i) in base.layer.storage <==> (a, i) in s.inherited.storage || (a, i) in root.layer.storage;
    case BlockHashQ(n) =>
  }
}
