/** The files sessions and caches are saved in, as records, and the
    content-addressed store of session snapshots. */
module Persist {
  import opened Chain
  import opened Fetch
  import opened Engine
  import opened Lineage
  import opened Canon

  const SNAPSHOT_FORMAT := "forkyard-session-snapshot"
  const SNAPSHOT_FORMAT_VERSION: nat := 1
  const SNAPSHOT_ID_LEN: nat := 32

  datatype StoredAccount = StoredAccount(address: Address, balance: Word, nonce: nat, codeHash: Hash)
  datatype StoredCode = StoredCode(hash: Hash, bytes: seq<nat>)

  /** The JSON of either kind of file, field by field. */
  datatype File = File(
    format: Option<string>,
    version: Option<nat>,
    chainId: Option<nat>,
    blockNumber: Option<nat>,
    accounts: seq<StoredAccount>,
    code: seq<StoredCode>,
    storage: seq<((Address, Slot), Word)>,
    blockHashes: seq<(nat, Hash)>,
    blockEnv: Option<BlockEnv>)

  /** What bytes on disk amount to. */
  datatype Content = Unparsable | Parsed(file: File)

  datatype CacheError =
    | Missing
    | Io
    | Malformed
    | NotAForkyardCache(found: Option<string>)
    | VersionMismatch(foundVersion: Option<nat>)
    | KeyMismatch(foundChain: Option<nat>, foundBlock: Option<nat>)
    | InvalidSnapshotId(id: string)

  datatype Result<+T> = Ok(value: T) | Err(error: CacheError)

  /** `Session::state()` as it leaves the engine: sorted lists. */
  datatype SessionState = SessionState(
    accounts: seq<(Address, AccountInfo)>,
    code: seq<(Hash, Bytecode)>,
    storage: seq<((Address, Slot), Word)>)

  predicate AccountBefore(x: (Address, AccountInfo), y: (Address, AccountInfo)) { x.0 < y.0 }
  predicate CodeBefore(x: (Hash, Bytecode), y: (Hash, Bytecode)) { x.0 < y.0 }
  predicate SlotBefore(x: ((Address, Slot), Word), y: ((Address, Slot), Word)) {
    x.0.0 < y.0.0 || (x.0.0 == y.0.0 && x.0.1 < y.0.1)
  }

  lemma OrdersAreByKey()
    ensures ByKey(AccountBefore) && ByKey(CodeBefore) && ByKey(SlotBefore)
  {
    assert forall x: ((Address, Slot), Word), y: ((Address, Slot), Word) :: x.0 != y.0 ==>
           x.0.0 != y.0.0 || x.0.1 != y.0.1;
  }

  /** `st` is `layer` in its sorted form. */
  ghost predicate Saves(st: SessionState, layer: Layer) {
    && SortedListing(AccountBefore, st.accounts, layer.accounts)
    && SortedListing(CodeBefore, st.code, layer.code)
    && SortedListing(SlotBefore, st.storage, layer.storage)
  }

  /** Equal session maps save as equal lists. */
  lemma SavesIsUnique(a: SessionState, b: SessionState, layer: Layer)
    requires Saves(a, layer) && Saves(b, layer)
    ensures a == b
  {
    OrdersAreByKey();
    SortedIsUnique(AccountBefore, a.accounts, b.accounts, layer.accounts);
    SortedIsUnique(CodeBefore, a.code, b.code, layer.code);
    SortedIsUnique(SlotBefore, a.storage, b.storage, layer.storage);
  }

  /** Sorting whatever lists the hash maps hand over gives that form. */
  lemma SortedListsSave(accounts: seq<(Address, AccountInfo)>, code: seq<(Hash, Bytecode)>,
                        storage: seq<((Address, Slot), Word)>,
                        layer: Layer)
    requires Listing(accounts, layer.accounts) && Listing(code, layer.code) && Listing(storage, layer.storage)
    ensures Saves(SessionState(Sort(AccountBefore, accounts), Sort(CodeBefore, code), Sort(SlotBefore, storage)), layer)
  {
    OrdersAreByKey();
    SortingLists(AccountBefore, accounts, layer.accounts);
    SortingLists(CodeBefore, code, layer.code);
    SortingLists(SlotBefore, storage, layer.storage);
  }

  /** What laying `st` over a fresh session puts in its overlay. */
  function LayerOf(st: SessionState): Layer {
    Layer(Collected(st.accounts), Collected(st.code), Collected(st.storage))
  }

  // ---- Accounts and code, in and out of a file ----

  function Stored(e: (Address, AccountInfo)): StoredAccount {
    StoredAccount(e.0, e.1.balance, e.1.nonce, e.1.codeHash)
  }

  function StoredAccounts(accounts: seq<(Address, AccountInfo)>): seq<StoredAccount> {
    seq(|accounts|, i requires 0 <= i < |accounts| => Stored(accounts[i]))
  }

  function StoredCodes(code: seq<(Hash, Bytecode)>): seq<StoredCode> {
    seq(|code|, i requires 0 <= i < |code| => StoredCode(code[i].0, code[i].1.bytes))
  }

  function CodeFor(h: Hash, code: map<Hash, Bytecode>): Option<Bytecode> {
    if h in code then Some(code[h]) else None
  }

  /** An account read back: its code is whatever the file has for its hash. */
  function Revived(a: StoredAccount, code: map<Hash, Bytecode>): (Address, AccountInfo) {
    (a.address, AccountInfo(a.balance, a.nonce, a.codeHash, CodeFor(a.codeHash, code)))
  }

  function AttachCode(accounts: seq<StoredAccount>, code: seq<(Hash, Bytecode)>): seq<(Address, AccountInfo)> {
    seq(|accounts|, i requires 0 <= i < |accounts| => Revived(accounts[i], Collected(code)))
  }

  function Rebuilt(stored: seq<StoredCode>): seq<(Hash, Bytecode)> {
    seq(|stored|, i requires 0 <= i < |stored| => (stored[i].hash, Bytecode(stored[i].bytes)))
  }

  /** Stored code as bytecode, all of it or nothing; `decodes` says which
      bytes are bytecode at all. */
  function DecodedCode(decodes: seq<nat> -> bool, stored: seq<StoredCode>): Result<seq<(Hash, Bytecode)>> {
    if exists i :: 0 <= i < |stored| && !decodes(stored[i].bytes) then Err(Malformed)
    else Ok(Rebuilt(stored))
  }

  method DecodeCode(decodes: seq<nat> -> bool, stored: seq<StoredCode>) returns (r: Result<seq<(Hash, Bytecode)>>)
    ensures r == DecodedCode(decodes, stored)
  {
    var code: seq<(Hash, Bytecode)> := [];
    for n := 0 to |stored|
      invariant |code| == n
      invariant forall i :: 0 <= i < n ==>
                decodes(stored[i].bytes) && code[i] == (stored[i].hash, Bytecode(stored[i].bytes))
    {
      if !decodes(stored[n].bytes) {
        return Err(Malformed);
      }
      code := code + [(stored[n].hash, Bytecode(stored[n].bytes))];
    }
    assert code == Rebuilt(stored);
    return Ok(code);
  }

  ghost predicate AllDecode(decodes: seq<nat> -> bool, code: seq<(Hash, Bytecode)>) {
    forall i :: 0 <= i < |code| ==> decodes(code[i].1.bytes)
  }

  lemma CodeRoundTrips(decodes: seq<nat> -> bool, code: seq<(Hash, Bytecode)>)
    requires AllDecode(decodes, code)
    ensures DecodedCode(decodes, StoredCodes(code)) == Ok(code)
  {
    assert Rebuilt(StoredCodes(code)) == code;
    assert forall i :: 0 <= i < |code| ==> StoredCodes(code)[i].bytes == code[i].1.bytes;
  }

  // ---- Snapshots ----

  function SnapshotOf(chainId: nat, blockNumber: nat, st: SessionState): File {
    File(Some(SNAPSHOT_FORMAT), Some(SNAPSHOT_FORMAT_VERSION), Some(chainId), Some(blockNumber),
         StoredAccounts(st.accounts), StoredCodes(st.code), st.storage, [], None)
  }

  function LoadSnapshot(decodes: seq<nat> -> bool, chainId: nat, content: Content): Result<(nat, SessionState)> {
    if content.Unparsable? then Err(Malformed)
    else
      var file := content.file;
      if file.format != Some(SNAPSHOT_FORMAT) then Err(NotAForkyardCache(file.format))
      else if file.version != Some(SNAPSHOT_FORMAT_VERSION) then Err(VersionMismatch(file.version))
      else if file.chainId.None? || file.blockNumber.None? then Err(Malformed)
      else if file.chainId.value != chainId then Err(KeyMismatch(file.chainId, file.blockNumber))
      else
        match DecodedCode(decodes, file.code)
        case Err(e) => Err(e)
        case Ok(code) => Ok((file.blockNumber.value, SessionState(AttachCode(file.accounts, code), code, file.storage)))
  }

  /** A snapshot loads exactly when it is a parsable snapshot of this version,
      of this chain, naming its block, all of whose code is code; and then as
      the block it names. */
  lemma SnapshotLoadsExactlyWhen(decodes: seq<nat> -> bool, chainId: nat, content: Content)
    ensures LoadSnapshot(decodes, chainId, content).Ok? <==>
      && content.Parsed?
      && content.file.format == Some("forkyard-session-snapshot") && content.file.version == Some(1)
      && content.file.chainId == Some(chainId) && content.file.blockNumber.Some?
      && (forall i :: 0 <= i < |content.file.code| ==> decodes(content.file.code[i].bytes))
    ensures LoadSnapshot(decodes, chainId, content).Ok? ==>
      Some(LoadSnapshot(decodes, chainId, content).value.0) == content.file.blockNumber
  {
  }

  /** A refused snapshot is refused for what is first wrong with it. */
  lemma SnapshotRefusalsSayWhy(decodes: seq<nat> -> bool, chainId: nat, content: Content)
    requires LoadSnapshot(decodes, chainId, content).Err?
    ensures match LoadSnapshot(decodes, chainId, content).error
      case NotAForkyardCache(found) =>
        content.Parsed? && found == content.file.format && found != Some("forkyard-session-snapshot")
      case VersionMismatch(found) =>
        && content.Parsed? && content.file.format == Some("forkyard-session-snapshot")
        && found == content.file.version && found != Some(1)
      case KeyMismatch(chain, block) =>
        && content.Parsed? && content.file.format == Some("forkyard-session-snapshot")
        && content.file.version == Some(1) && chain == content.file.chainId && block == content.file.blockNumber
        && chain.Some? && block.Some? && chain.value != chainId
      case Malformed =>
        content.Unparsable? ||
        (&& content.file.format == Some("forkyard-session-snapshot") && content.file.version == Some(1)
         && (content.file.chainId.None? || content.file.blockNumber.None? || content.file.chainId == Some(chainId)))
      case _ => false
  {
  }

  /** `st` after a trip through a file: every account's inline code is what
      the code list has for its hash. */
  function Reattached(st: SessionState): SessionState {
    st.(accounts := AttachCode(StoredAccounts(st.accounts), st.code))
  }

  /** A snapshot loads as the state it was made from, each account's code
      inline when the state has it; that is the same state exactly when it
      was so already. */
  lemma SnapshotRoundTrips(decodes: seq<nat> -> bool, chainId: nat, blockNumber: nat, st: SessionState)
    requires AllDecode(decodes, st.code)
    ensures LoadSnapshot(decodes, chainId, Parsed(SnapshotOf(chainId, blockNumber, st))) ==
            Ok((blockNumber, Reattached(st)))
    ensures Reattached(st) == st <==>
      forall i :: 0 <= i < |st.accounts| ==>
        st.accounts[i].1.code == CodeFor(st.accounts[i].1.codeHash, Collected(st.code))
  {
    CodeRoundTrips(decodes, st.code);
    forall i | 0 <= i < |st.accounts|
      ensures Reattached(st).accounts[i] ==
              (st.accounts[i].0, st.accounts[i].1.(code := CodeFor(st.accounts[i].1.codeHash, Collected(st.code))))
    {
    }
    if Reattached(st) == st {
      forall i | 0 <= i < |st.accounts|
        ensures st.accounts[i].1.code == CodeFor(st.accounts[i].1.codeHash, Collected(st.code))
      {
        assert Reattached(st).accounts[i] == st.accounts[i];
      }
    }
  }

  /** Snapshots of one file are snapshots of one state, inline code aside, so
      an id cannot stand for two. */
  lemma SnapshotTellsStates(chainId: nat, b1: nat, b2: nat, s1: SessionState, s2: SessionState)
    requires SnapshotOf(chainId, b1, s1) == SnapshotOf(chainId, b2, s2)
    ensures b1 == b2 && Reattached(s1) == Reattached(s2)
  {
    var (c1, c2) := (StoredCodes(s1.code), StoredCodes(s2.code));
    assert |s1.code| == |c1| == |c2| == |s2.code|;
    forall i | 0 <= i < |s1.code|
      ensures s1.code[i] == s2.code[i]
    {
      assert c1[i] == c2[i];
    }
    assert s1.code == s2.code;
  }

  // ---- The snapshot fixed point ----

  /** Account by account, `layer` with every inline code looked up in its
      code. */
  function RevivedLayer(layer: Layer): Layer {
    layer.(accounts := map a | a in layer.accounts ::
           layer.accounts[a].(code := CodeFor(layer.accounts[a].codeHash, layer.code)))
  }

  lemma RevivedListing(st: SessionState, layer: Layer)
    requires Listing(st.accounts, layer.accounts) && Collected(st.code) == layer.code
    ensures Listing(Reattached(st).accounts, RevivedLayer(layer).accounts)
  {
    var (accounts, revived, m) := (st.accounts, Reattached(st).accounts, RevivedLayer(layer).accounts);
    forall i | 0 <= i < |accounts|
      ensures revived[i].0 == accounts[i].0 && revived[i].0 in m && m[revived[i].0] == revived[i].1
    {
    }
    forall a | a in m
      ensures (a, m[a]) in revived
    {
      RevivedListed(st, layer, a);
    }
  }

  lemma RevivedListed(st: SessionState, layer: Layer, a: Address)
    requires Listing(st.accounts, layer.accounts) && Collected(st.code) == layer.code && a in layer.accounts
    ensures (a, RevivedLayer(layer).accounts[a]) in Reattached(st).accounts
  {
    var i :| 0 <= i < |st.accounts| && st.accounts[i] == (a, layer.accounts[a]);
    assert Reattached(st).accounts[i] == (a, RevivedLayer(layer).accounts[a]);
  }

  lemma RevivedAscends(accounts: seq<(Address, AccountInfo)>, code: seq<(Hash, Bytecode)>)
    requires Ascends(AccountBefore, accounts)
    ensures Ascends(AccountBefore, AttachCode(StoredAccounts(accounts), code))
  {
    var revived := AttachCode(StoredAccounts(accounts), code);
    assert forall i :: 0 <= i < |accounts| ==> revived[i].0 == accounts[i].0;
    assert forall i, j :: 0 <= i < j < |accounts| ==> AccountBefore(accounts[i], accounts[j]);
  }

  /** Going through a file keeps the sorted form, of the revived layer. */
  lemma ReattachedSaves(st: SessionState, layer: Layer)
    requires Saves(st, layer)
    ensures Saves(Reattached(st), RevivedLayer(layer))
    ensures LayerOf(Reattached(st)) == RevivedLayer(layer)
  {
    CollectedListing(st.code, layer.code);
    CollectedListing(st.storage, layer.storage);
    RevivedListing(st, layer);
    RevivedAscends(st.accounts, st.code);
    CollectedListing(Reattached(st).accounts, RevivedLayer(layer).accounts);
  }

  lemma ReattachedStoresAlike(st: SessionState)
    ensures StoredAccounts(Reattached(st).accounts) == StoredAccounts(st.accounts)
  {
  }

  /** Every contract of the state whose code the session or `base` could name
      has it in the state's own code. */
  ghost predicate CodeComplete(layer: Layer, base: map<Hash, Bytecode>) {
    forall a ::
      a in layer.accounts && layer.accounts[a].codeHash != KECCAK_EMPTY && layer.accounts[a].codeHash in base ==>
      layer.accounts[a].codeHash in layer.code
  }

  lemma StateIsCodeComplete(root: BaseSnapshot, s: SessionData, order: seq<Address>)
    requires Rooted(root, s) && Enumerates(order, Own(s).accounts.Keys)
    ensures CodeComplete(StateIn(s, order), root.layer.code)
  {
    var layer := StateIn(s, order);
    forall a | a in layer.accounts && layer.accounts[a].codeHash != KECCAK_EMPTY &&
      layer.accounts[a].codeHash in root.layer.code
      ensures layer.accounts[a].codeHash in layer.code
    {
      GatherFinds(order, Own(s).accounts, s.base.layer.code, Own(s).code, layer.accounts[a].codeHash);
      assert a in order && Names(Own(s).accounts, s.base.layer.code, a, layer.accounts[a].codeHash);
    }
  }

  /** Nothing is left to gather. */
  lemma {:induction false} NothingToGather(order: seq<Address>, layer: Layer, base: map<Hash, Bytecode>)
    requires forall a :: a in order ==> a in layer.accounts
    requires CodeComplete(layer, base)
    ensures Gather(order, RevivedLayer(layer).accounts, base, layer.code) == layer.code
  {
    if order != [] {
      var last := |order| - 1;
      NothingToGather(order[..last], layer, base);
    }
  }

  /** A session just restored from a saved state has that state, revived. */
  lemma RestoredStateIs(root: BaseSnapshot, fork: ForkId, env: BlockEnv, layer: Layer, order: seq<Address>)
    requires CodeComplete(layer, root.layer.code)
    requires Enumerates(order, Own(Restored(root, fork, env, RevivedLayer(layer))).accounts.Keys)
    ensures StateIn(Restored(root, fork, env, RevivedLayer(layer)), order) == RevivedLayer(layer)
  {
    OverIsAssociative(RevivedLayer(layer), EMPTY_LAYER, EMPTY_LAYER);
    assert Own(Restored(root, fork, env, RevivedLayer(layer))) == RevivedLayer(layer);
    NothingToGather(order, layer, root.layer.code);
  }

  /** Snapshot a session, load the file, resume it over the same root and
      snapshot again: the same file, so the same id, in whatever orders the
      hash maps were walked and however deep the session had branched. */
  lemma SnapshotIsAFixedPoint(decodes: seq<nat> -> bool, root: BaseSnapshot, s: SessionData, chainId: nat,
                              order: seq<Address>, st: SessionState, order': seq<Address>, st': SessionState)
    requires Rooted(root, s) && Enumerates(order, Own(s).accounts.Keys)
    requires Saves(st, StateIn(s, order)) && AllDecode(decodes, st.code)
    requires var t := Restored(root, s.fork, s.env, LayerOf(Reattached(st)));
      Enumerates(order', Own(t).accounts.Keys) && Saves(st', StateIn(t, order'))
    ensures LoadSnapshot(decodes, chainId, Parsed(SnapshotOf(chainId, s.env.number, st))) ==
            Ok((s.env.number, Reattached(st)))
    ensures SnapshotOf(chainId, s.env.number, st') == SnapshotOf(chainId, s.env.number, st)
  {
    var layer := StateIn(s, order);
    SnapshotRoundTrips(decodes, chainId, s.env.number, st);
    ReattachedSaves(st, layer);
    StateIsCodeComplete(root, s, order);
    RestoredStateIs(root, s.fork, s.env, layer, order');
    SavesIsUnique(st', Reattached(st), RevivedLayer(layer));
    ReattachedStoresAlike(st);
  }

  /** The same answer, but for code carried inline. */
  predicate SameButCode(x: Option<Answer>, y: Option<Answer>) {
    match (x, y)
    case (Some(AccountA(Some(i))), Some(AccountA(Some(j)))) => i.(code := None) == j.(code := None)
    case _ => x == y
  }

  lemma RevivedReads(root: BaseSnapshot, fork: ForkId, env: BlockEnv, layer: Layer, q: Query)
    ensures SameButCode(Local(Restored(root, fork, env, RevivedLayer(layer)), q),
                        Local(Restored(root, fork, env, layer), q))
    ensures !q.AccountQ? ==>
      Local(Restored(root, fork, env, RevivedLayer(layer)), q) == Local(Restored(root, fork, env, layer), q)
    ensures q.AccountQ? && q.address in layer.accounts ==>
      Local(Restored(root, fork, env, RevivedLayer(layer)), q) ==
      Some(AccountA(Some(layer.accounts[q.address].(code := CodeFor(layer.accounts[q.address].codeHash, layer.code)))))
  {
  }

  /** A session resumed from its file reads as the one that was saved: slots
      and block hashes the same, accounts the same with their code now inline
      whenever the state has it, and code by hash as `RestoreFindsCode` and
      `RestoreKeepsCode` say. */
  lemma ResumedSessionReads(root: BaseSnapshot, s: SessionData, order: seq<Address>, st: SessionState, q: Query)
    requires Rooted(root, s) && Enumerates(order, Own(s).accounts.Keys) && Saves(st, StateIn(s, order))
    ensures !q.CodeQ? ==> SameButCode(Local(Restored(root, s.fork, s.env, LayerOf(Reattached(st))), q), Local(s, q))
    ensures q.CodeQ? ==> Local(Restored(root, s.fork, s.env, LayerOf(Reattached(st))), q) ==
                         Local(Restored(root, s.fork, s.env, StateIn(s, order)), q)
    ensures q.AccountQ? && q.address in StateIn(s, order).accounts ==>
      var info := StateIn(s, order).accounts[q.address];
      Local(Restored(root, s.fork, s.env, LayerOf(Reattached(st))), q) ==
      Some(AccountA(Some(info.(code := CodeFor(info.codeHash, StateIn(s, order).code)))))
  {
    ReattachedSaves(st, StateIn(s, order));
    RevivedReads(root, s.fork, s.env, StateIn(s, order), q);
    if !q.CodeQ? {
      RestoreAnswersAlike(root, s, order, q);
    }
  }

  // ---- The store ----

  predicate ValidId(id: string) {
    |id| == SNAPSHOT_ID_LEN && forall i :: 0 <= i < |id| ==> '0' <= id[i] <= '9' || 'a' <= id[i] <= 'f'
  }

  type Path = (nat, string)
  type Files = map<Path, Content>

  /** `idOf` is the id the hash of a file's bytes gives. */
  function StoreIn(idOf: File -> string, files: Files, chainId: nat, file: File,
                   failed: bool): (Result<string>, Files) {
    var (id, path) := (idOf(file), (chainId, idOf(file)));
    if !ValidId(id) then (Err(InvalidSnapshotId(id)), files)
    else if path in files then (Ok(id), files)
    else if failed then (Err(Io), files)
    else (Ok(id), files[path := Parsed(file)])
  }

  /** `failed` says the file is there and cannot be read. */
  function LoadFrom(decodes: seq<nat> -> bool, files: Files, chainId: nat, id: string,
                    failed: bool): Result<(nat, SessionState)> {
    if !ValidId(id) then Err(InvalidSnapshotId(id))
    else if (chainId, id) !in files then Err(Missing)
    else if failed then Err(Io)
    else LoadSnapshot(decodes, chainId, files[(chainId, id)])
  }

  /** Only what could be an id is looked up: 32 digits, decimal or `a` to `f`;
      anything else never reaches the disk. A file that is there and cannot be
      read is an error of its own. */
  lemma OnlyIdsAreLookedUp(decodes: seq<nat> -> bool, files: Files, chainId: nat, id: string, failed: bool)
    ensures var r := LoadFrom(decodes, files, chainId, id, failed);
      if |id| != 32 || exists i :: 0 <= i < |id| && id[i] !in "0123456789abcdef" then r == Err(InvalidSnapshotId(id))
      else if (chainId, id) !in files then r == Err(Missing)
      else if failed then r == Err(Io)
      else r == LoadSnapshot(decodes, chainId, files[(chainId, id)])
  {
  }

  /** A stored state loads back from the id `Store` gave, exactly when no
      other file had taken that id. */
  lemma StoreThenLoad(decodes: seq<nat> -> bool, idOf: File -> string, files: Files, chainId: nat, blockNumber: nat,
                      st: SessionState, failed: bool)
    requires AllDecode(decodes, st.code)
    ensures var (file, path) := (SnapshotOf(chainId, blockNumber, st),
                                 (chainId, idOf(SnapshotOf(chainId, blockNumber, st))));
      var (r, files') := StoreIn(idOf, files, chainId, file, failed);
      r.Ok? ==>
        && (path in files' && (files'[path] == Parsed(file) <==> path !in files || files[path] == Parsed(file)))
        && (path !in files || files[path] == Parsed(file) ==>
              LoadFrom(decodes, files', chainId, r.value, false) == Ok((blockNumber, Reattached(st))))
  {
    SnapshotRoundTrips(decodes, chainId, blockNumber, st);
  }

  /** A store of a fit id answers it if the id is there already, whatever the
      disk would do, or else if the disk takes the file; and whatever the disk
      does then, storing the same again answers the same and writes nothing. */
  lemma StoringAgainAnswers(idOf: File -> string, files: Files, chainId: nat, file: File, failed: bool, again: bool)
    ensures var ((r, files'), path) := (StoreIn(idOf, files, chainId, file, failed), (chainId, idOf(file)));
      && (r.Ok? <==> ValidId(idOf(file)) && (path in files || !failed))
      && (r.Ok? ==>
            r.value == idOf(file) && path in files' && StoreIn(idOf, files', chainId, file, again) == (r, files'))
      && (path in files || r.Err? ==> files' == files)
      && (forall p :: p != path ==> (p in files' <==> p in files) && (p in files ==> files'[p] == files[p]))
  {
  }

  /** One process's call to `store`, and whether the disk failed it. */
  datatype StoreCall = StoreCall(chainId: nat, blockNumber: nat, state: SessionState, failed: bool)

  function CallFile(c: StoreCall): File {
    SnapshotOf(c.chainId, c.blockNumber, c.state)
  }

  function StoreAll(idOf: File -> string, calls: seq<StoreCall>): Files {
    if calls == [] then map[]
    else
      var c := calls[|calls| - 1];
      StoreIn(idOf, StoreAll(idOf, calls[..|calls| - 1]), c.chainId, CallFile(c), c.failed).1
  }

  /** No two of the files stored have one id: the hash behind ids is taken
      not to collide on them. */
  ghost predicate NoCollision(idOf: File -> string, calls: seq<StoreCall>) {
    forall i, j :: 0 <= i < |calls| && 0 <= j < |calls| && idOf(CallFile(calls[i])) == idOf(CallFile(calls[j])) ==>
      CallFile(calls[i]) == CallFile(calls[j])
  }

  /** Whatever is under an id, one of the calls of that id put there. */
  lemma {:induction false} StoredUnderItsId(idOf: File -> string, calls: seq<StoreCall>, path: Path)
    requires path in StoreAll(idOf, calls)
    ensures exists i ::
              0 <= i < |calls| && path.1 == idOf(CallFile(calls[i])) &&
              StoreAll(idOf, calls)[path] == Parsed(CallFile(calls[i]))
  {
    var last := |calls| - 1;
    var before := StoreAll(idOf, calls[..last]);
    if path in before {
      StoredUnderItsId(idOf, calls[..last], path);
      var i :| 0 <= i < last && path.1 == idOf(CallFile(calls[..last][i])) &&
          before[path] == Parsed(CallFile(calls[..last][i]));
      assert calls[..last][i] == calls[i];
    } else {
      assert StoreAll(idOf, calls)[path] == Parsed(CallFile(calls[last]));
    }
  }

  /** What was given to `c` is under its id. */
  ghost predicate Kept(idOf: File -> string, files: Files, c: StoreCall) {
    var id := idOf(CallFile(c));
    ValidId(id) && (c.chainId, id) in files && files[(c.chainId, id)] == Parsed(CallFile(c))
  }

  /** The n-th call answered with an id. */
  ghost predicate AnsweredId(idOf: File -> string, calls: seq<StoreCall>, n: nat)
    requires n < |calls|
  {
    StoreIn(idOf, StoreAll(idOf, calls[..n]), calls[n].chainId, CallFile(calls[n]), calls[n].failed).0.Ok?
  }

  lemma {:induction false} KeptStays(idOf: File -> string, calls: seq<StoreCall>, n: nat, c: StoreCall)
    requires n <= |calls| && Kept(idOf, StoreAll(idOf, calls[..n]), c)
    ensures Kept(idOf, StoreAll(idOf, calls), c)
  {
    if n == |calls| {
      assert calls[..n] == calls;
    } else {
      assert calls[..|calls| - 1][..n] == calls[..n];
      KeptStays(idOf, calls[..|calls| - 1], n, c);
    }
  }

  lemma LoadsBack(decodes: seq<nat> -> bool, idOf: File -> string, files: Files, c: StoreCall)
    requires Kept(idOf, files, c) && AllDecode(decodes, c.state.code)
    ensures LoadFrom(decodes, files, c.chainId, idOf(CallFile(c)), false) == Ok((c.blockNumber, Reattached(c.state)))
  {
    SnapshotRoundTrips(decodes, c.chainId, c.blockNumber, c.state);
  }

  lemma StoredIsKept(idOf: File -> string, calls: seq<StoreCall>, n: nat)
    requires NoCollision(idOf, calls) && n < |calls| && AnsweredId(idOf, calls, n)
    ensures Kept(idOf, StoreAll(idOf, calls[..n + 1]), calls[n])
  {
    var made := calls[..n + 1];
    var path := (calls[n].chainId, idOf(CallFile(calls[n])));
    assert made[..n] == calls[..n];
    StoredUnderItsId(idOf, made, path);
    var i :| 0 <= i < |made| && path.1 == idOf(CallFile(made[i])) &&
        StoreAll(idOf, made)[path] == Parsed(CallFile(made[i]));
    assert made[i] == calls[i];
  }

  lemma KeptFromThenOn(idOf: File -> string, calls: seq<StoreCall>, n: nat)
    requires n < |calls| && Kept(idOf, StoreAll(idOf, calls[..n + 1]), calls[n])
    ensures Kept(idOf, StoreAll(idOf, calls), calls[n])
  {
    KeptStays(idOf, calls, n + 1, calls[n]);
  }

  lemma StoredIsKeptForGood(idOf: File -> string, calls: seq<StoreCall>, n: nat)
    requires NoCollision(idOf, calls) && n < |calls| && AnsweredId(idOf, calls, n)
    ensures Kept(idOf, StoreAll(idOf, calls), calls[n])
  {
    StoredIsKept(idOf, calls, n);
    KeptFromThenOn(idOf, calls, n);
  }

  /** Over any run of stores by any number of processes sharing the
      directory, an id some store answered with loads, from then on, the very
      state that store was given, for as long as no file is lost. */
  lemma IdsNeverChange(decodes: seq<nat> -> bool, idOf: File -> string, calls: seq<StoreCall>, n: nat)
    requires NoCollision(idOf, calls) && n < |calls| && AnsweredId(idOf, calls, n)
    requires AllDecode(decodes, calls[n].state.code)
    ensures LoadFrom(decodes, StoreAll(idOf, calls), calls[n].chainId, idOf(CallFile(calls[n])), false) ==
            Ok((calls[n].blockNumber, Reattached(calls[n].state)))
  {
    StoredIsKeptForGood(idOf, calls, n);
    LoadsBack(decodes, idOf, StoreAll(idOf, calls), calls[n]);
  }

  class SnapshotStore {
    const chainId: nat
    const decodes: seq<nat> -> bool
    const idOf: File -> string
    var files: Files

    constructor (chainId: nat, decodes: seq<nat> -> bool, idOf: File -> string, files: Files)
      ensures this.chainId == chainId && this.decodes == decodes && this.idOf == idOf && this.files == files
    {
      this.chainId, this.decodes, this.idOf, this.files := chainId, decodes, idOf, files;
    }

    /** Write `state`, a session at `blockNumber`, and return its id. */
    method Store(blockNumber: nat, state: SessionState, failed: bool) returns (r: Result<string>)
      modifies this
      ensures (r, files) == StoreIn(idOf, old(files), chainId, SnapshotOf(chainId, blockNumber, state), failed)
    {
      var file := SnapshotOf(chainId, blockNumber, state);
      var id := idOf(file);
      if !ValidId(id) {
        return Err(InvalidSnapshotId(id));
      }
      if (chainId, id) !in files {
        if failed {
          return Err(Io);
        }
        files := files[(chainId, id) := Parsed(file)];
      }
      return Ok(id);
    }

    /** What an earlier `Store` answered `id` for. */
    method Load(id: string, failed: bool) returns (r: Result<(nat, SessionState)>)
      ensures r == LoadFrom(decodes, files, chainId, id, failed)
    {
      if !ValidId(id) {
        return Err(InvalidSnapshotId(id));
      }
      if (chainId, id) !in files {
        return Err(Missing);
      }
      if failed {
        return Err(Io);
      }
      var content := files[(chainId, id)];
      if content.Unparsable? {
        return Err(Malformed);
      }
      var file := content.file;
      if file.format != Some(SNAPSHOT_FORMAT) {
        return Err(NotAForkyardCache(file.format));
      }
      if file.version != Some(SNAPSHOT_FORMAT_VERSION) {
        return Err(VersionMismatch(file.version));
      }
      if file.chainId.None? || file.blockNumber.None? {
        return Err(Malformed);
      }
      if file.chainId.value != chainId {
        return Err(KeyMismatch(file.chainId, file.blockNumber));
      }
      var code := DecodeCode(decodes, file.code);
      if code.Err? {
        return Err(code.error);
      }
      return Ok((file.blockNumber.value,
                 SessionState(AttachCode(file.accounts, code.value), code.value, file.storage)));
    }
  }
}
