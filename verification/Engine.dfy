/** One forked session: a private overlay over an immutable base over the
    fork's fallback. `SessionData` and its functions say what each operation
    computes; the class performs it in place. */
module Engine {
  import opened Chain
  import opened Fetch

  /** Accounts, code by hash, and storage: what an overlay holds, and what a
      base and `inherited` hold of the same. */
  datatype Layer = Layer(
    accounts: map<Address, AccountInfo>,
    code: map<Hash, Bytecode>,
    storage: map<(Address, Slot), Word>)
  {
    /** This layer laid over `lower`, this one winning. */
    function Over(lower: Layer): Layer {
      Layer(lower.accounts + accounts, lower.code + code, lower.storage + storage)
    }
  }

  const EMPTY_LAYER := Layer(map[], map[], map[])

  datatype BaseSnapshot = BaseSnapshot(layer: Layer, blockHashes: map<nat, Hash>) {
    /** Both snapshots' entries; where they differ, `newer` is right. */
    function MergedWith(newer: BaseSnapshot): BaseSnapshot {
      BaseSnapshot(newer.layer.Over(layer), blockHashes + newer.blockHashes)
    }
  }

  /** What a pass may have to forget again: a key it only read. */
  datatype ReadKey = AccountRead(address: Address) | CodeRead(hash: Hash) | StorageRead(owner: Address, slot: Slot)

  /** What execution may ask a session, and what it is told. */
  datatype Query =
    | AccountQ(address: Address)
    | StorageQ(owner: Address, slot: Slot)
    | CodeQ(hash: Hash)
    | BlockHashQ(number: nat)
  datatype Answer = AccountA(info: Option<AccountInfo>) | WordA(word: Word) | CodeA(code: Bytecode) | HashA(hash: Hash)
                  | CodeMissA(codeHash: Hash) | FallbackErrorA

  /** What an execution would write: each touched account, and each of its
      slots. */
  datatype Diff = Diff(accounts: map<Address, AccountInfo>, storage: map<(Address, Slot), Word>)

  datatype SessionData = SessionData(
    base: BaseSnapshot,
    fork: ForkId,
    env: BlockEnv,
    overlay: Layer,
    inherited: Layer,
    log: Option<seq<ReadKey>>)

  function Forked(base: BaseSnapshot, fork: ForkId, env: BlockEnv): SessionData {
    SessionData(base, fork, env, EMPTY_LAYER, EMPTY_LAYER, None)
  }

  function Restored(base: BaseSnapshot, fork: ForkId, env: BlockEnv, state: Layer): SessionData {
    Forked(base, fork, env).(overlay := state)
  }

  /** What a session answers without its fallback. Block hashes have no
      overlay. */
  function Local(s: SessionData, q: Query): Option<Answer> {
    match q
    case AccountQ(a) =>
      if a in s.overlay.accounts then Some(AccountA(Some(s.overlay.accounts[a])))
      else if a in s.base.layer.accounts then Some(AccountA(Some(s.base.layer.accounts[a])))
      else None
    case StorageQ(a, i) =>
      if (a, i) in s.overlay.storage then Some(WordA(s.overlay.storage[(a, i)]))
      else if (a, i) in s.base.layer.storage then Some(WordA(s.base.layer.storage[(a, i)]))
      else None
    case CodeQ(h) =>
      if h in s.overlay.code then Some(CodeA(s.overlay.code[h]))
      else if h in s.base.layer.code then Some(CodeA(s.base.layer.code[h]))
      else None
    case BlockHashQ(n) =>
      if n in s.base.blockHashes then Some(HashA(s.base.blockHashes[n])) else None
  }

  function KeyOf(q: Query): StateKey
    requires !q.CodeQ?
  {
    match q
    case AccountQ(a) => AccountKey(a)
    case StorageQ(a, i) => StorageKey(a, i)
    case BlockHashQ(n) => BlockHashKey(n)
  }

  function ToAnswer(v: StateValue): Answer {
    match v
    case AccountValue(info) => AccountA(info)
    case WordValue(word) => WordA(word)
    case HashValue(hash) => HashA(hash)
  }

  /** What execution is told when the fallback fails: an untouched slot reads
      as zero, and so does one that could not be fetched. */
  function OnFailure(q: Query): Answer {
    if q.StorageQ? then WordA(0) else FallbackErrorA
  }

  function Logged(log: Option<seq<ReadKey>>, key: ReadKey): Option<seq<ReadKey>> {
    if log.Some? then Some(log.value + [key]) else None
  }

  /** The session after caching what its fallback answered to `q`. A missing
      account, a block hash and an error are not cached. */
  function Remember(s: SessionData, q: Query, a: Answer): SessionData {
    match (q, a)
    case (AccountQ(address), AccountA(Some(info))) =>
      s.(overlay := s.overlay.(accounts := s.overlay.accounts[address := info]),
         log := Logged(s.log, AccountRead(address)))
    case (CodeQ(h), CodeA(code)) =>
      s.(overlay := s.overlay.(code := s.overlay.code[h := code]), log := Logged(s.log, CodeRead(h)))
    case (StorageQ(owner, slot), WordA(word)) =>
      s.(overlay := s.overlay.(storage := s.overlay.storage[(owner, slot) := word]),
         log := Logged(s.log, StorageRead(owner, slot)))
    case _ => s
  }

  /** One read: overlay, then base, then fallback. */
  function Ask(w: World, s: SessionData, f: Fetcher, q: Query): (Answer, SessionData, Fetcher) {
    if Local(s, q).Some? then (Local(s, q).value, s, f)
    else if q.CodeQ? then
      match w.up.code(q.hash)
      case Some(code) => (CodeA(code), Remember(s, q, CodeA(code)), f)
      case None => (CodeMissA(q.hash), s, f)
    else
      var (r, f') := ReadRef(w, f, KeyOf(q));
      match r
      case Some(v) => (ToAnswer(v), Remember(s, q, ToAnswer(v)), f')
      case None => (OnFailure(q), s, f')
  }

  function AccountReads(log: seq<ReadKey>): set<Address> { set k | k in log && k.AccountRead? :: k.address }
  function CodeReads(log: seq<ReadKey>): set<Hash> { set k | k in log && k.CodeRead? :: k.hash }
  function StorageReads(log: seq<ReadKey>): set<(Address, Slot)> {
    set k | k in log && k.StorageRead? :: (k.owner, k.slot)
  }

  /** `layer` without the keys `log` lists. */
  function Without(layer: Layer, log: seq<ReadKey>): Layer {
    Layer(layer.accounts - AccountReads(log), layer.code - CodeReads(log), layer.storage - StorageReads(log))
  }

  function Forget(layer: Layer, key: ReadKey): Layer {
    match key
    case AccountRead(a) => layer.(accounts := layer.accounts - {a})
    case CodeRead(h) => layer.(code := layer.code - {h})
    case StorageRead(a, i) => layer.(storage := layer.storage - {(a, i)})
  }

  /** Forgetting a longer log is forgetting its last key too, first or last. */
  lemma ForgetOneMore(layer: Layer, log: seq<ReadKey>, key: ReadKey)
    ensures Without(layer, log + [key]) == Forget(Without(layer, log), key) == Without(Forget(layer, key), log)
  {
    ReadsOneMore(log, key);
    match key
    case AccountRead(a) => DroppedTogether(layer.accounts, AccountReads(log), {a});
    case CodeRead(h) => DroppedTogether(layer.code, CodeReads(log), {h});
    case StorageRead(a, i) => DroppedTogether(layer.storage, StorageReads(log), {(a, i)});
  }

  lemma ReadsOneMore(log: seq<ReadKey>, key: ReadKey)
    ensures AccountReads(log + [key]) == AccountReads(log) + if key.AccountRead? then {key.address} else {}
    ensures CodeReads(log + [key]) == CodeReads(log) + if key.CodeRead? then {key.hash} else {}
    ensures StorageReads(log + [key]) == StorageReads(log) + if key.StorageRead? then {(key.owner, key.slot)} else {}
  {
    assert forall k :: k in log + [key] <==> k in log || k == key;
  }

  lemma DroppedTogether<K, V>(m: map<K, V>, a: set<K>, b: set<K>)
    ensures m - (a + b) == m - a - b == m - b - a
  {
  }

  function Speculating(s: SessionData): SessionData {
    s.(log := Some([]))
  }

  function SpeculationEnded(s: SessionData, keep: bool): SessionData {
    if s.log.None? || keep then s.(log := None)
    else s.(log := None, overlay := Without(s.overlay, s.log.value))
  }

  function WithAccount(s: SessionData, a: Address, info: AccountInfo): SessionData {
    s.(overlay := s.overlay.(accounts := s.overlay.accounts[a := info]))
  }

  function WithStorage(s: SessionData, a: Address, i: Slot, word: Word): SessionData {
    s.(overlay := s.overlay.(storage := s.overlay.storage[(a, i) := word]))
  }

  /** The session after `advance` wrote `d` into its overlay. */
  function Committed(s: SessionData, d: Diff): SessionData {
    s.(overlay := Layer(s.overlay.accounts + d.accounts, s.overlay.code, s.overlay.storage + d.storage))
  }

  /** The child: the overlay folded into a fresh base and into `inherited`. */
  function Branched(s: SessionData): SessionData {
    SessionData(BaseSnapshot(s.overlay.Over(s.base.layer), s.base.blockHashes), s.fork, s.env,
                EMPTY_LAYER, s.overlay.Over(s.inherited), None)
  }

  /** Everything the session holds that its root base does not, code aside. */
  function Own(s: SessionData): Layer {
    s.overlay.Over(s.inherited)
  }

  ghost predicate Enumerates<T(!new)>(order: seq<T>, keys: set<T>) {
    forall x :: x in order <==> x in keys
  }

  /** `code`, and the code of every contract account that has none in it,
      visiting accounts in `order`: the account's own inline code, else the
      base's. */
  function Gather(order: seq<Address>, accounts: map<Address, AccountInfo>, baseCode: map<Hash, Bytecode>,
                  code: map<Hash, Bytecode>): map<Hash, Bytecode>
    requires forall a :: a in order ==> a in accounts
  {
    if order == [] then code
    else
      var last := |order| - 1;
      GatherOne(accounts[order[last]], baseCode, Gather(order[..last], accounts, baseCode, code))
  }

  function GatherOne(info: AccountInfo, baseCode: map<Hash, Bytecode>, code: map<Hash, Bytecode>): map<Hash, Bytecode> {
    if info.codeHash == KECCAK_EMPTY || info.codeHash in code then code
    else if info.code.Some? then code[info.codeHash := info.code.value]
    else if info.codeHash in baseCode then code[info.codeHash := baseCode[info.codeHash]]
    else code
  }

  /** The session's own state, for one order in which a hash map might hand
      its accounts over. */
  function StateIn(s: SessionData, order: seq<Address>): Layer
    requires Enumerates(order, Own(s).accounts.Keys)
  {
    Layer(Own(s).accounts, Gather(order, Own(s).accounts, s.base.layer.code, Own(s).code), Own(s).storage)
  }

  ghost predicate IsLeast(x: nat, keys: set<nat>) {
    x in keys && forall y :: y in keys ==> x <= y
  }

  lemma {:induction false} HasLeast(keys: set<nat>)
    requires keys != {}
    ensures exists x :: IsLeast(x, keys)
  {
    var x :| x in keys;
    var rest := keys - {x};
    if rest == {} {
      assert keys == {x};
      assert IsLeast(x, keys);
    } else {
      HasLeast(rest);
      var m :| IsLeast(m, rest);
      var least := if m <= x then m else x;
      assert forall y :: y in keys ==> y == x || y in rest;
      assert IsLeast(least, keys);
    }
  }

  function Least(keys: set<nat>): (x: nat)
    requires keys != {}
    ensures IsLeast(x, keys)
  {
    HasLeast(keys);
    assert exists x :: x in keys && forall y :: y in keys ==> x <= y by {
      var x :| IsLeast(x, keys);
    }
    var x :| x in keys && forall y :: y in keys ==> x <= y;
    x
  }

  lemma LeastThenRest(x: nat, rest: seq<nat>, keys: set<nat>)
    requires IsLeast(x, keys) && Enumerates(rest, keys - {x})
    requires forall i, j :: 0 <= i < j < |rest| ==> rest[i] < rest[j]
    ensures Enumerates([x] + rest, keys)
    ensures forall i, j :: 0 <= i < j < |[x] + rest| ==> ([x] + rest)[i] < ([x] + rest)[j]
  {
    assert forall j :: 0 <= j < |rest| ==> rest[j] in keys - {x};
  }

  function Ascending(keys: set<nat>): (order: seq<nat>)
    ensures Enumerates(order, keys)
    ensures forall i, j :: 0 <= i < j < |order| ==> order[i] < order[j]
  {
    if keys == {} then []
    else
      var x := Least(keys);
      var rest := Ascending(keys - {x});
      LeastThenRest(x, rest, keys);
      [x] + rest
  }

  /** How a hash map walks its keys: any order at all. */
  type Walk = w: set<Address> -> seq<Address> | forall keys :: Enumerates(w(keys), keys)
    ghost witness Ascending

  /** `state()`, accounts walked as `walk` says; `Lineage.OrderIsIrrelevant`
      says when every walk gives the same. */
  function StateOf(s: SessionData, walk: Walk): Layer {
    StateIn(s, walk(Own(s).accounts.Keys))
  }

  /** `m` with every entry of `entries` inserted. */
  method Extend<K(==), V>(m: map<K, V>, entries: map<K, V>) returns (r: map<K, V>)
    ensures r == m + entries
  {
    r := m;
    var todo := entries.Keys;
    while todo != {}
      invariant todo <= entries.Keys
      invariant r == m + (entries - todo)
      decreases todo
    {
      var k :| k in todo;
      r := r[k := entries[k]];
      todo := todo - {k};
    }
    assert entries - todo == entries;
  }

  class Session {
    var base: BaseSnapshot
    const fallback: ReadThrough
    const blockEnv: BlockEnv
    var overlayAccounts: map<Address, AccountInfo>
    var overlayCode: map<Hash, Bytecode>
    var overlayStorage: map<(Address, Slot), Word>
    var inherited: Layer
    var readLog: Option<seq<ReadKey>>

    function Data(): SessionData
      reads this
    {
      SessionData(base, fallback.id, blockEnv, Layer(overlayAccounts, overlayCode, overlayStorage), inherited, readLog)
    }

    /** A session over `base`, with `state` laid over it: `EMPTY_LAYER` forks,
        a previous session's state restores. */
    constructor Restore(base: BaseSnapshot, fallback: ReadThrough, env: BlockEnv, state: Layer)
      ensures Data() == Restored(base, fallback.id, env, state) && this.fallback == fallback
    {
      this.base, this.fallback, blockEnv := base, fallback, env;
      overlayAccounts, overlayCode, overlayStorage := map[], map[], map[];
      inherited, readLog := EMPTY_LAYER, None;
      new;
      overlayAccounts := Extend(overlayAccounts, state.accounts);
      overlayCode := Extend(overlayCode, state.code);
      overlayStorage := Extend(overlayStorage, state.storage);
    }

    /** The object holding exactly `data`. */
    constructor Holding(data: SessionData, fallback: ReadThrough)
      requires data.fork == fallback.id
      ensures Data() == data && this.fallback == fallback
    {
      base, this.fallback, blockEnv := data.base, fallback, data.env;
      overlayAccounts, overlayCode, overlayStorage := data.overlay.accounts, data.overlay.code, data.overlay.storage;
      inherited, readLog := data.inherited, data.log;
    }

    method BeginSpeculation()
      modifies this`readLog
      ensures Data() == Speculating(old(Data()))
    {
      readLog := Some([]);
    }

    /** End a pass; unless it is kept, what it cached goes with it. */
    method EndSpeculation(keep: bool)
      modifies this
      ensures Data() == SpeculationEnded(old(Data()), keep)
    {
      if readLog.None? {
        return;
      }
      var log := readLog.value;
      readLog := None;
      if keep {
        return;
      }
      ghost var before := Layer(overlayAccounts, overlayCode, overlayStorage);
      assert log[..0] == [];
      for n := 0 to |log|
        invariant unchanged(`base) && unchanged(`inherited) && readLog == None
        invariant Layer(overlayAccounts, overlayCode, overlayStorage) == Without(before, log[..n])
      {
        ForgetOneMore(before, log[..n], log[n]);
        assert log[..n + 1] == log[..n] + [log[n]];
        match log[n] {
          case AccountRead(address) => overlayAccounts := overlayAccounts - {address};
          case CodeRead(hash) => overlayCode := overlayCode - {hash};
          case StorageRead(owner, slot) => overlayStorage := overlayStorage - {(owner, slot)};
        }
      }
      assert log[..|log|] == log;
    }

    method LogRead(key: ReadKey)
      modifies this`readLog
      ensures readLog == Logged(old(readLog), key)
    {
      if readLog.Some? {
        readLog := Some(readLog.value + [key]);
      }
    }

    method Basic(address: Address, t: Thread) returns (r: Answer)
      modifies this, fallback, t
      ensures (r, Data(), fallback.Seen(t)) == old(Ask(fallback.world, Data(), fallback.Seen(t), AccountQ(address)))
    {
      if address in overlayAccounts {
        return AccountA(Some(overlayAccounts[address]));
      }
      if address in base.layer.accounts {
        return AccountA(Some(base.layer.accounts[address]));
      }
      var read := fallback.Read(AccountKey(address), t);
      if read.None? {
        return FallbackErrorA;
      }
      r := ToAnswer(read.value);
      if r.AccountA? && r.info.Some? {
        overlayAccounts := overlayAccounts[address := r.info.value];
        LogRead(AccountRead(address));
      }
    }

    method CodeByHash(codeHash: Hash, t: Thread) returns (r: Answer)
      modifies this, fallback, t
      ensures (r, Data(), fallback.Seen(t)) == old(Ask(fallback.world, Data(), fallback.Seen(t), CodeQ(codeHash)))
    {
      if codeHash in overlayCode {
        return CodeA(overlayCode[codeHash]);
      }
      if codeHash in base.layer.code {
        return CodeA(base.layer.code[codeHash]);
      }
      match fallback.world.up.code(codeHash) {
        case Some(code) =>
          overlayCode := overlayCode[codeHash := code];
          LogRead(CodeRead(codeHash));
          return CodeA(code);
        case None =>
          return CodeMissA(codeHash);
      }
    }

    method Storage(address: Address, index: Slot, t: Thread) returns (r: Answer)
      modifies this, fallback, t
      ensures (r, Data(), fallback.Seen(t)) ==
              old(Ask(fallback.world, Data(), fallback.Seen(t), StorageQ(address, index)))
    {
      if (address, index) in overlayStorage {
        return WordA(overlayStorage[(address, index)]);
      }
      if (address, index) in base.layer.storage {
        return WordA(base.layer.storage[(address, index)]);
      }
      var read := fallback.Read(StorageKey(address, index), t);
      if read.None? {
        return WordA(0);
      }
      r := ToAnswer(read.value);
      if r.WordA? {
        overlayStorage := overlayStorage[(address, index) := r.word];
        LogRead(StorageRead(address, index));
      }
    }

    method BlockHash(number: nat, t: Thread) returns (r: Answer)
      modifies fallback, t
      ensures (r, Data(), fallback.Seen(t)) == old(Ask(fallback.world, Data(), fallback.Seen(t), BlockHashQ(number)))
    {
      if number in base.blockHashes {
        return HashA(base.blockHashes[number]);
      }
      var read := fallback.Read(BlockHashKey(number), t);
      return if read.Some? then ToAnswer(read.value) else FallbackErrorA;
    }

    method SetAccount(address: Address, info: AccountInfo)
      modifies this`overlayAccounts
      ensures Data() == WithAccount(old(Data()), address, info)
    {
      overlayAccounts := overlayAccounts[address := info];
    }

    method SetStorage(address: Address, key: Slot, value: Word)
      modifies this`overlayStorage
      ensures Data() == WithStorage(old(Data()), address, key, value)
    {
      overlayStorage := overlayStorage[(address, key) := value];
    }

    /** Write an execution's diff into the overlay. */
    method Commit(changes: Diff)
      modifies this`overlayAccounts, this`overlayStorage
      ensures Data() == Committed(old(Data()), changes)
    {
      overlayStorage := Extend(overlayStorage, changes.storage);
      overlayAccounts := Extend(overlayAccounts, changes.accounts);
    }

    /** A child that starts out seeing what this session sees now. */
    method Branch() returns (child: Session)
      ensures fresh(child) && child.Data() == Branched(Data()) && child.fallback == fallback
    {
      var accounts := Extend(base.layer.accounts, overlayAccounts);
      var inheritedAccounts := Extend(inherited.accounts, overlayAccounts);
      var code := Extend(base.layer.code, overlayCode);
      var inheritedCode := Extend(inherited.code, overlayCode);
      var storage := Extend(base.layer.storage, overlayStorage);
      var inheritedStorage := Extend(inherited.storage, overlayStorage);
      child := new Session.Holding(
        SessionData(BaseSnapshot(Layer(accounts, code, storage), base.blockHashes), fallback.id, blockEnv,
                    EMPTY_LAYER, Layer(inheritedAccounts, inheritedCode, inheritedStorage), None), fallback);
    }

    /** Inherited state and overlay together, overlay winning, with the code
        of every contract account this session can see. */
    method State(walk: Walk) returns (state: Layer)
      ensures state == StateOf(Data(), walk)
    {
      var accounts := Extend(inherited.accounts, overlayAccounts);
      var code := Extend(inherited.code, overlayCode);
      var storage := Extend(inherited.storage, overlayStorage);
      code := GatherCode(walk(accounts.Keys), accounts, base.layer.code, code);
      state := Layer(accounts, code, storage);
    }
  }

  method GatherCode(order: seq<Address>, accounts: map<Address, AccountInfo>, baseCode: map<Hash, Bytecode>,
                    known: map<Hash, Bytecode>) returns (code: map<Hash, Bytecode>)
    requires forall a :: a in order ==> a in accounts
    ensures code == Gather(order, accounts, baseCode, known)
  {
    code := known;
    for n := 0 to |order|
      invariant code == Gather(order[..n], accounts, baseCode, known)
    {
      var info := accounts[order[n]];
      assert order[..n + 1][..n] == order[..n];
      if info.codeHash == KECCAK_EMPTY || info.codeHash in code {
        continue;
      }
      var found := if info.code.Some? then info.code
                   else if info.codeHash in baseCode then Some(baseCode[info.codeHash])
                   else None;
      if found.Some? {
        code := code[info.codeHash := found.value];
      }
    }
    assert order[..|order|] == order;
  }
}
