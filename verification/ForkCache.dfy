/** The warm cache of one (chain, block), written at the end of a run and
    seeding the next one. */
module ForkCache {
  import opened Chain
  import opened Engine
  import opened Lineage
  import opened Canon
  import opened Persist

  const CACHE_FORMAT := "forkyard-fork-cache"
  const CACHE_FORMAT_VERSION: nat := 1

  datatype CacheKey = CacheKey(chainId: nat, blockNumber: nat)

  /** A snapshot's maps as the lists a file holds, in any order. */
  datatype Lists = Lists(
    accounts: seq<(Address, AccountInfo)>,
    code: seq<(Hash, Bytecode)>,
    storage: seq<((Address, Slot), Word)>,
    blockHashes: seq<(nat, Hash)>)

  ghost predicate ListsOf(l: Lists, b: BaseSnapshot) {
    && Listing(l.accounts, b.layer.accounts)
    && Listing(l.code, b.layer.code)
    && Listing(l.storage, b.layer.storage)
    && Listing(l.blockHashes, b.blockHashes)
  }

  /** The env as stored; one whose number is no `u64` is not. */
  function FromEnv(env: BlockEnv): Option<BlockEnv> {
    if env.number > U64_MAX then None else Some(env)
  }

  /** Only an env of the block the file is keyed by survives loading. */
  function Filtered(env: Option<BlockEnv>, key: CacheKey): Option<BlockEnv> {
    if env.Some? && env.value.number == key.blockNumber then env else None
  }

  function CacheFile(key: CacheKey, l: Lists, env: Option<BlockEnv>): File {
    File(Some(CACHE_FORMAT), Some(CACHE_FORMAT_VERSION), Some(key.chainId), Some(key.blockNumber),
         StoredAccounts(l.accounts), StoredCodes(l.code), l.storage, l.blockHashes, Filtered(env, key))
  }

  function FromParts(l: Lists): BaseSnapshot {
    BaseSnapshot(Layer(Collected(l.accounts), Collected(l.code), Collected(l.storage)), Collected(l.blockHashes))
  }

  function LoadCache(decodes: seq<nat> -> bool, key: CacheKey,
                     content: Content): Result<(BaseSnapshot, Option<BlockEnv>)> {
    if content.Unparsable? then Err(Malformed)
    else
      var file := content.file;
      if file.format != Some(CACHE_FORMAT) then Err(NotAForkyardCache(file.format))
      else if file.version != Some(CACHE_FORMAT_VERSION) then Err(VersionMismatch(file.version))
      else if file.chainId != Some(key.chainId) || file.blockNumber != Some(key.blockNumber) then
        Err(KeyMismatch(file.chainId, file.blockNumber))
      else
        match DecodedCode(decodes, file.code)
        case Err(e) => Err(e)
        case Ok(code) =>
          Ok((FromParts(Lists(AttachCode(file.accounts, code), code, file.storage, file.blockHashes)),
              Filtered(file.blockEnv, key)))
  }

  function Revive(b: BaseSnapshot): BaseSnapshot {
    b.(layer := RevivedLayer(b.layer))
  }

  /** Every account carries exactly the code the snapshot has for its hash. */
  ghost predicate CodeClosed(b: BaseSnapshot) {
    forall a :: a in b.layer.accounts ==>
      b.layer.accounts[a].code == CodeFor(b.layer.accounts[a].codeHash, b.layer.code)
  }

  /** What was stored loads back, with each account's code inline, which is
      the same snapshot exactly when it was closed under code; and so does
      the env, when it is of the key's block and its number fits. */
  lemma CacheRoundTrips(decodes: seq<nat> -> bool, key: CacheKey, b: BaseSnapshot, l: Lists, env: BlockEnv)
    requires ListsOf(l, b) && AllDecode(decodes, l.code)
    ensures LoadCache(decodes, key, Parsed(CacheFile(key, l, FromEnv(env)))) ==
            Ok((Revive(b), if env.number <= U64_MAX && env.number == key.blockNumber then Some(env) else None))
    ensures LoadCache(decodes, key, Parsed(CacheFile(key, l, None))) == Ok((Revive(b), None))
    ensures Revive(b) == b <==> CodeClosed(b)
  {
    CodeRoundTrips(decodes, l.code);
    CollectedListing(l.code, b.layer.code);
    CollectedListing(l.storage, b.layer.storage);
    CollectedListing(l.blockHashes, b.blockHashes);
    var st := SessionState(l.accounts, l.code, l.storage);
    RevivedListing(st, b.layer);
    CollectedListing(Reattached(st).accounts, RevivedLayer(b.layer).accounts);
    ReviveChangesOnlyOpenCode(b);
  }

  lemma ReviveChangesOnlyOpenCode(b: BaseSnapshot)
    ensures Revive(b) == b <==> CodeClosed(b)
  {
    var revived := RevivedLayer(b.layer).accounts;
    if Revive(b) == b {
      forall a | a in b.layer.accounts
        ensures b.layer.accounts[a].code == CodeFor(b.layer.accounts[a].codeHash, b.layer.code)
      {
        assert revived[a] == b.layer.accounts[a];
      }
    }
    if CodeClosed(b) {
      assert revived == b.layer.accounts;
    }
  }

  /** A file loads for a key exactly when it is a parsable cache file of this
      version, of that very chain and block, and all its code decodes. */
  lemma LoadsExactlyWhen(decodes: seq<nat> -> bool, key: CacheKey, content: Content)
    ensures LoadCache(decodes, key, content).Ok? <==>
      && content.Parsed?
      && content.file.format == Some("forkyard-fork-cache") && content.file.version == Some(1)
      && content.file.chainId == Some(key.chainId) && content.file.blockNumber == Some(key.blockNumber)
      && (forall i :: 0 <= i < |content.file.code| ==> decodes(content.file.code[i].bytes))
  {
  }

  /** A refused cache is refused for what is first wrong with it. */
  lemma CacheRefusalsSayWhy(decodes: seq<nat> -> bool, key: CacheKey, content: Content)
    requires LoadCache(decodes, key, content).Err?
    ensures match LoadCache(decodes, key, content).error
      case NotAForkyardCache(found) =>
        content.Parsed? && found == content.file.format && found != Some("forkyard-fork-cache")
      case VersionMismatch(found) =>
        && content.Parsed? && content.file.format == Some("forkyard-fork-cache")
        && found == content.file.version && found != Some(1)
      case KeyMismatch(chain, block) =>
        && content.Parsed? && content.file.format == Some("forkyard-fork-cache") && content.file.version == Some(1)
        && chain == content.file.chainId && block == content.file.blockNumber
        && (chain, block) != (Some(key.chainId), Some(key.blockNumber))
      case Malformed =>
        content.Unparsable? ||
        (&& content.file.format == Some("forkyard-fork-cache") && content.file.version == Some(1)
         && content.file.chainId == Some(key.chainId) && content.file.blockNumber == Some(key.blockNumber))
      case _ => false
  {
  }

  /** The env that comes with a loaded cache is the file's, and of its block. */
  lemma LoadedEnvIsOfTheBlock(decodes: seq<nat> -> bool, key: CacheKey, content: Content)
    requires LoadCache(decodes, key, content).Ok?
    ensures var env := LoadCache(decodes, key, content).value.1;
      env == if content.file.blockEnv.Some? && content.file.blockEnv.value.number == key.blockNumber
             then content.file.blockEnv else None
  {
  }

  /** No file serves two keys, and neither kind of file is read as the other. */
  lemma OtherFilesAreRefused(decodes: seq<nat> -> bool, key: CacheKey, other: CacheKey, l: Lists, env: Option<BlockEnv>,
                             blockNumber: nat, st: SessionState)
    ensures other != key ==> LoadCache(decodes, other, Parsed(CacheFile(key, l, env))).Err?
    ensures LoadCache(decodes, key, Parsed(SnapshotOf(key.chainId, blockNumber, st))).Err?
    ensures LoadSnapshot(decodes, key.chainId, Parsed(CacheFile(key, l, env))).Err?
  {
    assert CACHE_FORMAT[9] != SNAPSHOT_FORMAT[9];
  }

  // ---- Run after run ----

  /** What one run has fetched, as the backend holds it: code only inline. */
  datatype Backend = Backend(accounts: seq<(Address, AccountInfo)>, storage: map<(Address, Slot), Word>,
                             blockHashes: map<nat, Hash>)

  function CodeEntries(hashOf: Bytecode -> Hash, accounts: seq<(Address, AccountInfo)>): seq<(Hash, Bytecode)> {
    if accounts == [] then []
    else
      var last := |accounts| - 1;
      var code := accounts[last].1.code;
      CodeEntries(hashOf, accounts[..last]) +
      if code.Some? && code.value.bytes != [] then [(hashOf(code.value), code.value)] else []
  }

  function CacheSnapshot(hashOf: Bytecode -> Hash, backend: Backend): BaseSnapshot {
    BaseSnapshot(Layer(Collected(backend.accounts), Collected(CodeEntries(hashOf, backend.accounts)), backend.storage),
                 backend.blockHashes)
  }

  /** Upstream answers contracts with their code inline and under its own
      hash, and any other account with no code or with empty code. */
  ghost predicate Lawful(up: Upstream, hashOf: Bytecode -> Hash) {
    && hashOf(Bytecode([])) == KECCAK_EMPTY
    && forall a :: up.account(a).Some? ==>
         var info := up.account(a).value;
         if info.codeHash == KECCAK_EMPTY then Trimmed(info).code == None
         else info.code.Some? && hashOf(info.code.value) == info.codeHash
  }

  ghost predicate HashesTell(hashOf: Bytecode -> Hash) {
    forall x, y :: hashOf(x) == hashOf(y) ==> x == y
  }

  /** A snapshot of nothing but upstream's state, empty inline code aside, with
      the code of all its contracts. */
  ghost predicate Sound(up: Upstream, hashOf: Bytecode -> Hash, b: BaseSnapshot) {
    && Mirrors(up, b)
    && (forall h :: h in b.layer.code ==> h != KECCAK_EMPTY && hashOf(b.layer.code[h]) == h)
    && (forall a :: a in b.layer.accounts && b.layer.accounts[a].codeHash != KECCAK_EMPTY ==>
          b.layer.accounts[a].codeHash in b.layer.code)
  }

  /** `b` with no empty code inline. */
  function TrimmedBase(b: BaseSnapshot): BaseSnapshot {
    b.(layer := b.layer.(accounts := map a | a in b.layer.accounts :: Trimmed(b.layer.accounts[a])))
  }

  /** One account of a sound snapshot, through a file and back. */
  lemma SoundAccountRevives(up: Upstream, hashOf: Bytecode -> Hash, b: BaseSnapshot, a: Address)
    requires Lawful(up, hashOf) && HashesTell(hashOf) && Sound(up, hashOf, b) && a in b.layer.accounts
    ensures var info := b.layer.accounts[a];
      info.(code := CodeFor(info.codeHash, b.layer.code)) == Trimmed(info)
  {
    var (info, truth) := (b.layer.accounts[a], up.account(a).value);
    assert Trimmed(info) == Trimmed(truth);
    if info.codeHash != KECCAK_EMPTY {
      assert truth.code != Some(Bytecode([]));
      assert info.code.value == b.layer.code[info.codeHash];
    }
  }

  /** A sound snapshot comes back from its file without its empty inline code,
      and with nothing else changed: so it comes back the same exactly when it
      had none. */
  lemma SoundRevives(up: Upstream, hashOf: Bytecode -> Hash, b: BaseSnapshot)
    requires Lawful(up, hashOf) && HashesTell(hashOf) && Sound(up, hashOf, b)
    ensures Revive(b) == TrimmedBase(b) && Sound(up, hashOf, Revive(b))
    ensures Revive(b) == b <==> forall a :: a in b.layer.accounts ==> b.layer.accounts[a].code != Some(Bytecode([]))
  {
    var (revived, trimmed) := (Revive(b).layer.accounts, TrimmedBase(b).layer.accounts);
    forall a | a in b.layer.accounts
      ensures revived[a] == trimmed[a]
    {
      SoundAccountRevives(up, hashOf, b, a);
    }
    assert revived == trimmed;
    TrimmedIsSound(up, hashOf, b);
    TrimmedIsSame(b);
  }

  lemma TrimmedIsSound(up: Upstream, hashOf: Bytecode -> Hash, b: BaseSnapshot)
    requires Sound(up, hashOf, b)
    ensures Sound(up, hashOf, TrimmedBase(b))
  {
  }

  lemma TrimmedIsSame(b: BaseSnapshot)
    ensures TrimmedBase(b) == b <==>
            forall a :: a in b.layer.accounts ==> b.layer.accounts[a].code != Some(Bytecode([]))
  {
    var trimmed := TrimmedBase(b).layer.accounts;
    if TrimmedBase(b) == b {
      assert forall a :: a in b.layer.accounts ==> trimmed[a] == b.layer.accounts[a];
    } else {
      assert trimmed != b.layer.accounts;
    }
  }

  ghost predicate Fetched(up: Upstream, backend: Backend) {
    && (forall i :: 0 <= i < |backend.accounts| ==> up.account(backend.accounts[i].0) == Some(backend.accounts[i].1))
    && (forall a, i :: (a, i) in backend.storage ==> up.storage(a, i) == backend.storage[(a, i)])
    && (forall n :: n in backend.blockHashes ==> up.blockHash(n) == backend.blockHashes[n])
  }

  lemma {:induction false} CodeEntriesCover(hashOf: Bytecode -> Hash, accounts: seq<(Address, AccountInfo)>)
    ensures forall e :: e in CodeEntries(hashOf, accounts) ==>
      exists i :: 0 <= i < |accounts| && accounts[i].1.code == Some(e.1) && e.1.bytes != [] && hashOf(e.1) == e.0
    ensures forall i :: 0 <= i < |accounts| && accounts[i].1.code.Some? && accounts[i].1.code.value.bytes != [] ==>
      (hashOf(accounts[i].1.code.value), accounts[i].1.code.value) in CodeEntries(hashOf, accounts)
  {
    if accounts != [] {
      var last := |accounts| - 1;
      CodeEntriesCover(hashOf, accounts[..last]);
      forall e | e in CodeEntries(hashOf, accounts)
        ensures exists i ::
                  0 <= i < |accounts| && accounts[i].1.code == Some(e.1) && e.1.bytes != [] && hashOf(e.1) == e.0
      {
        if e in CodeEntries(hashOf, accounts[..last]) {
          var i :| 0 <= i < last && accounts[..last][i].1.code == Some(e.1) && e.1.bytes != [] && hashOf(e.1) == e.0;
          assert accounts[i].1.code == Some(e.1);
        } else {
          assert accounts[last].1.code == Some(e.1);
        }
      }
      forall i | 0 <= i < |accounts| && accounts[i].1.code.Some? && accounts[i].1.code.value.bytes != []
        ensures (hashOf(accounts[i].1.code.value), accounts[i].1.code.value) in CodeEntries(hashOf, accounts)
      {
        if i < last {
          assert accounts[..last][i] == accounts[i];
        }
      }
    }
  }

  /** What a run fetched is a sound snapshot, whatever the order the backend
      lists it in. */
  lemma CacheSnapshotIsSound(up: Upstream, hashOf: Bytecode -> Hash, backend: Backend)
    requires Lawful(up, hashOf) && Fetched(up, backend)
    ensures Sound(up, hashOf, CacheSnapshot(hashOf, backend))
  {
    var b := CacheSnapshot(hashOf, backend);
    FetchedMirrors(up, hashOf, backend);
    CollectedHolds(CodeEntries(hashOf, backend.accounts));
    forall h | h in b.layer.code
      ensures h != KECCAK_EMPTY && hashOf(b.layer.code[h]) == h
    {
      EntryIsHashed(up, hashOf, backend, (h, b.layer.code[h]));
    }
    forall a | a in b.layer.accounts && b.layer.accounts[a].codeHash != KECCAK_EMPTY
      ensures b.layer.accounts[a].codeHash in b.layer.code
    {
      FetchedCodeIsHeld(up, hashOf, backend, a);
    }
  }

  /** Nothing fetched is left out: every account, slot and block hash, and the
      code of every account that has any, under its own hash. */
  lemma CacheHoldsAllFetched(up: Upstream, hashOf: Bytecode -> Hash, backend: Backend)
    requires Fetched(up, backend)
    ensures var b := CacheSnapshot(hashOf, backend);
      && (forall i :: 0 <= i < |backend.accounts| ==>
            var (a, info) := backend.accounts[i];
            && a in b.layer.accounts && b.layer.accounts[a] == info
            && (info.code.Some? && info.code.value.bytes != [] ==> hashOf(info.code.value) in b.layer.code))
      && b.layer.storage == backend.storage && b.blockHashes == backend.blockHashes
  {
    var b := CacheSnapshot(hashOf, backend);
    CollectedHolds(backend.accounts);
    forall i | 0 <= i < |backend.accounts|
      ensures var (a, info) := backend.accounts[i];
        && a in b.layer.accounts && b.layer.accounts[a] == info
        && (info.code.Some? && info.code.value.bytes != [] ==> hashOf(info.code.value) in b.layer.code)
    {
      var (a, info) := backend.accounts[i];
      assert (a, b.layer.accounts[a]) in backend.accounts;
      assert up.account(a) == Some(info);
      if info.code.Some? && info.code.value.bytes != [] {
        CodeIsListed(hashOf, backend.accounts, i);
      }
    }
  }

  lemma CodeIsListed(hashOf: Bytecode -> Hash, accounts: seq<(Address, AccountInfo)>, i: nat)
    requires i < |accounts| && accounts[i].1.code.Some? && accounts[i].1.code.value.bytes != []
    ensures hashOf(accounts[i].1.code.value) in Collected(CodeEntries(hashOf, accounts))
  {
    var (entries, code) := (CodeEntries(hashOf, accounts), accounts[i].1.code.value);
    CodeEntriesCover(hashOf, accounts);
    CollectedHolds(entries);
    var j :| 0 <= j < |entries| && entries[j] == (hashOf(code), code);
    assert entries[j].0 == hashOf(code);
  }

  lemma FetchedMirrors(up: Upstream, hashOf: Bytecode -> Hash, backend: Backend)
    requires Fetched(up, backend)
    ensures Mirrors(up, CacheSnapshot(hashOf, backend))
  {
    CollectedHolds(backend.accounts);
  }

  /** A contract that was fetched has its code among the entries. */
  lemma FetchedCodeIsHeld(up: Upstream, hashOf: Bytecode -> Hash, backend: Backend, a: Address)
    requires Lawful(up, hashOf) && Fetched(up, backend)
    requires a in Collected(backend.accounts) && Collected(backend.accounts)[a].codeHash != KECCAK_EMPTY
    ensures Collected(backend.accounts)[a].codeHash in Collected(CodeEntries(hashOf, backend.accounts))
  {
    var (entries, info) := (CodeEntries(hashOf, backend.accounts), Collected(backend.accounts)[a]);
    CollectedHolds(backend.accounts);
    var i :| 0 <= i < |backend.accounts| && backend.accounts[i] == (a, info);
    assert up.account(a) == Some(info);
    CodeEntriesCover(hashOf, backend.accounts);
    assert (hashOf(info.code.value), info.code.value) in entries;
    CollectedHolds(entries);
    var j :| 0 <= j < |entries| && entries[j] == (hashOf(info.code.value), info.code.value);
    assert entries[j].0 == info.codeHash;
  }

  /** Empty code is left out, so nothing stands under the empty hash. */
  lemma EntryIsHashed(up: Upstream, hashOf: Bytecode -> Hash, backend: Backend, e: (Hash, Bytecode))
    requires Lawful(up, hashOf) && Fetched(up, backend) && e in CodeEntries(hashOf, backend.accounts)
    ensures e.0 != KECCAK_EMPTY && hashOf(e.1) == e.0
  {
    CodeEntriesCover(hashOf, backend.accounts);
    var i :| 0 <= i < |backend.accounts| && backend.accounts[i].1.code == Some(e.1) && e.1.bytes != [] &&
        hashOf(e.1) == e.0;
    var info := backend.accounts[i].1;
    assert up.account(backend.accounts[i].0) == Some(info);
    assert Trimmed(info) == info;
  }

  /** An upstream that gives every account with empty code inline. */
  const INLINE_EMPTY: AccountInfo := AccountInfo(1, 0, KECCAK_EMPTY, Some(Bytecode([])))
  const ALL_INLINE_EMPTY: Upstream :=
    Upstream((a: Address) => Some(INLINE_EMPTY), (a: Address, i: Slot) => 0, (n: nat) => n, (h: Hash) => None)

  /** It happens: one such account is fetched, and the snapshot of it does not
      come back from its file as it was. */
  lemma ASnapshotIsTrimmed(hashOf: Bytecode -> Hash, a: Address)
    requires hashOf(Bytecode([])) == KECCAK_EMPTY && HashesTell(hashOf)
    ensures var (up, backend) := (ALL_INLINE_EMPTY, Backend([(a, INLINE_EMPTY)], map[], map[]));
      var b := CacheSnapshot(hashOf, backend);
      && Lawful(up, hashOf) && Fetched(up, backend) && Sound(up, hashOf, b)
      && a in b.layer.accounts && b.layer.accounts[a].code == Some(Bytecode([]))
      && a in Revive(b).layer.accounts && Revive(b).layer.accounts[a].code == None
  {
    var (up, backend) := (ALL_INLINE_EMPTY, Backend([(a, INLINE_EMPTY)], map[], map[]));
    var b := CacheSnapshot(hashOf, backend);
    CacheSnapshotIsSound(up, hashOf, backend);
    CollectedHolds(backend.accounts);
    assert backend.accounts[0] == (a, INLINE_EMPTY);
    SoundRevives(up, hashOf, b);
  }

  /** Folding what a run fetched into what it was seeded with loses no key and
      stays sound. */
  lemma MergeIsSound(up: Upstream, hashOf: Bytecode -> Hash, seeded: BaseSnapshot, fetched: BaseSnapshot)
    requires Sound(up, hashOf, seeded) && Sound(up, hashOf, fetched)
    ensures var m := seeded.MergedWith(fetched);
      && Sound(up, hashOf, m) && Includes(m, seeded) && Includes(m, fetched)
  {
    MergedMirrors(up, seeded, fetched);
    var m := seeded.MergedWith(fetched);
    assert m.layer.accounts == seeded.layer.accounts + fetched.layer.accounts;
    assert m.layer.code == seeded.layer.code + fetched.layer.code;
  }

  /** Where both have an entry the newer snapshot's is taken, and otherwise
      whichever there is. */
  lemma MergePrefersNewer(older: BaseSnapshot, newer: BaseSnapshot, a: Address, i: Slot, h: Hash, n: nat)
    ensures var m := older.MergedWith(newer);
      && Get(m.layer.accounts, a) == First(Get(newer.layer.accounts, a), Get(older.layer.accounts, a))
      && Get(m.layer.storage, (a, i)) == First(Get(newer.layer.storage, (a, i)), Get(older.layer.storage, (a, i)))
      && Get(m.layer.code, h) == First(Get(newer.layer.code, h), Get(older.layer.code, h))
      && Get(m.blockHashes, n) == First(Get(newer.blockHashes, n), Get(older.blockHashes, n))
  {
  }

  function Get<K, V>(m: map<K, V>, k: K): Option<V> {
    if k in m then Some(m[k]) else None
  }

  function First<V>(a: Option<V>, b: Option<V>): Option<V> {
    if a.Some? then a else b
  }

  lemma MergedMirrors(up: Upstream, seeded: BaseSnapshot, fetched: BaseSnapshot)
    requires Mirrors(up, seeded) && Mirrors(up, fetched)
    ensures Mirrors(up, seeded.MergedWith(fetched))
  {
    var m := seeded.MergedWith(fetched);
    assert m.layer.accounts == seeded.layer.accounts + fetched.layer.accounts;
    assert m.layer.storage == seeded.layer.storage + fetched.layer.storage;
  }

  /** `m` has every key of `b`. */
  ghost predicate Includes(m: BaseSnapshot, b: BaseSnapshot) {
    && b.layer.accounts.Keys <= m.layer.accounts.Keys
    && b.layer.code.Keys <= m.layer.code.Keys
    && b.layer.storage.Keys <= m.layer.storage.Keys
    && b.blockHashes.Keys <= m.blockHashes.Keys
  }

  /** One run of the server at the key: what it fetched, the lists and env it
      wrote, and whether the write failed. */
  datatype RunOf = RunOf(backend: Backend, lists: Lists, env: BlockEnv, failed: bool)

  /** What a run is seeded with: the file, if it loads. */
  function Seed(decodes: seq<nat> -> bool, key: CacheKey, disk: Option<Content>): Option<BaseSnapshot> {
    if disk.Some? && LoadCache(decodes, key, disk.value).Ok?
    then Some(LoadCache(decodes, key, disk.value).value.0)
    else None
  }

  /** What the run saves: its seed, if the file loaded, and what it fetched. */
  function Saved(decodes: seq<nat> -> bool, hashOf: Bytecode -> Hash, key: CacheKey, disk: Option<Content>,
                 run: RunOf): BaseSnapshot {
    var fetched := CacheSnapshot(hashOf, run.backend);
    var seed := Seed(decodes, key, disk);
    if seed.Some? then seed.value.MergedWith(fetched) else fetched
  }

  function After(key: CacheKey, disk: Option<Content>, run: RunOf): Option<Content> {
    if run.failed then disk else Some(Parsed(CacheFile(key, run.lists, FromEnv(run.env))))
  }

  ghost predicate HonestRun(up: Upstream, decodes: seq<nat> -> bool, hashOf: Bytecode -> Hash, key: CacheKey,
                            disk: Option<Content>, run: RunOf) {
    && Fetched(up, run.backend)
    && run.env.number == key.blockNumber <= U64_MAX
    && ListsOf(run.lists, Saved(decodes, hashOf, key, disk, run)) && AllDecode(decodes, run.lists.code)
  }

  /** The file is absent, or loads as a sound snapshot with its block's env. */
  ghost predicate WarmOrAbsent(up: Upstream, decodes: seq<nat> -> bool, hashOf: Bytecode -> Hash, key: CacheKey,
                               disk: Option<Content>) {
    disk.Some? ==>
      var r := LoadCache(decodes, key, disk.value);
      r.Ok? && Sound(up, hashOf, r.value.0) && r.value.1.Some? && r.value.1.value.number == key.blockNumber
  }

  lemma RunKeepsCache(up: Upstream, decodes: seq<nat> -> bool, hashOf: Bytecode -> Hash, key: CacheKey,
                      disk: Option<Content>, run: RunOf)
    requires Lawful(up, hashOf) && HashesTell(hashOf)
    requires WarmOrAbsent(up, decodes, hashOf, key, disk) && HonestRun(up, decodes, hashOf, key, disk, run)
    ensures WarmOrAbsent(up, decodes, hashOf, key, After(key, disk, run))
    ensures !run.failed ==> LoadCache(decodes, key, After(key, disk, run).value) ==
                            Ok((TrimmedBase(Saved(decodes, hashOf, key, disk, run)), Some(run.env)))
    ensures Sound(up, hashOf, Saved(decodes, hashOf, key, disk, run))
  {
    var saved := Saved(decodes, hashOf, key, disk, run);
    CacheSnapshotIsSound(up, hashOf, run.backend);
    if Seed(decodes, key, disk).Some? {
      MergeIsSound(up, hashOf, Seed(decodes, key, disk).value, CacheSnapshot(hashOf, run.backend));
    }
    SoundRevives(up, hashOf, saved);
    CacheRoundTrips(decodes, key, saved, run.lists, run.env);
  }

  ghost predicate AreRuns(up: Upstream, decodes: seq<nat> -> bool, hashOf: Bytecode -> Hash, key: CacheKey,
                          runs: seq<RunOf>, disks: seq<Option<Content>>) {
    && |disks| == |runs| + 1 && disks[0] == None
    && forall i :: 0 <= i < |runs| ==> Follows(up, decodes, hashOf, key, runs, disks, i)
  }

  ghost predicate Follows(up: Upstream, decodes: seq<nat> -> bool, hashOf: Bytecode -> Hash, key: CacheKey,
                          runs: seq<RunOf>, disks: seq<Option<Content>>, i: nat)
    requires i < |runs| < |disks|
  {
    HonestRun(up, decodes, hashOf, key, disks[i], runs[i]) && disks[i + 1] == After(key, disks[i], runs[i])
  }

  /** Over any number of runs at one chain and block, the file is always
      absent or sound, and a run that saves loads again as all it was seeded
      with and all it fetched, nothing lost and nothing but upstream's. */
  lemma {:induction false} CacheOnlyWarms(up: Upstream, decodes: seq<nat> -> bool, hashOf: Bytecode -> Hash,
                                          key: CacheKey, runs: seq<RunOf>, disks: seq<Option<Content>>, n: nat)
    requires Lawful(up, hashOf) && HashesTell(hashOf) && AreRuns(up, decodes, hashOf, key, runs, disks) && n <= |runs|
    ensures WarmOrAbsent(up, decodes, hashOf, key, disks[n])
    ensures n > 0 && !runs[n - 1].failed ==>
      var (before, after) := (Seed(decodes, key, disks[n - 1]), Seed(decodes, key, disks[n]));
      && after.Some? && Includes(after.value, CacheSnapshot(hashOf, runs[n - 1].backend))
      && (before.Some? ==> Includes(after.value, before.value))
    ensures n > 0 && runs[n - 1].failed ==> disks[n] == disks[n - 1]
  {
    if n > 0 {
      CacheOnlyWarms(up, decodes, hashOf, key, runs, disks, n - 1);
      var (disk, run) := (disks[n - 1], runs[n - 1]);
      assert Follows(up, decodes, hashOf, key, runs, disks, n - 1);
      RunKeepsCache(up, decodes, hashOf, key, disk, run);
      CacheSnapshotIsSound(up, hashOf, run.backend);
      if Seed(decodes, key, disk).Some? {
        MergeIsSound(up, hashOf, Seed(decodes, key, disk).value, CacheSnapshot(hashOf, run.backend));
      }
    }
  }
}
