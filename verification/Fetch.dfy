/** The concurrent read cache in front of upstream, and the thread-local list
    of misses that turns a read into a speculative one. */
module Fetch {
  import opened Chain

  type Cache = map<StateKey, StateValue>

  /** Everything outside the reading thread, for one fork: what upstream
      holds, which keys other threads have landed in the shared cache before
      this thread's n-th read, and whether upstream fails that read. Every
      theorem holds for all worlds, so for every interleaving and outage. */
  datatype World = World(up: Upstream, lands: nat -> set<StateKey>, fails: nat -> bool)

  /** What a reading thread sees of a fork: the shared cache, how many reads
      went before, and this thread's misses while it speculates. */
  datatype Fetcher = Fetcher(cache: Cache, clock: nat, misses: Option<seq<StateKey>>)

  ghost predicate Truthful(up: Upstream, cache: Cache) {
    forall k :: k in cache ==> cache[k] == up.Truth(k)
  }

  function Landed(up: Upstream, cache: Cache, keys: set<StateKey>): Cache {
    cache + map k | k in keys :: up.Truth(k)
  }

  /** The made-up answer of a read that was recorded instead of fetched. */
  function Placeholder(key: StateKey): StateValue {
    match key
    case AccountKey(_) => AccountValue(None)
    case StorageKey(_, _) => WordValue(0)
    case BlockHashKey(_) => HashValue(0)
  }

  /** One read through the cache; `None` is an upstream error. */
  function ReadRef(w: World, f: Fetcher, key: StateKey): (r: (Option<StateValue>, Fetcher))
  {
    var cache := Landed(w.up, f.cache, w.lands(f.clock));
    var f' := f.(cache := cache, clock := f.clock + 1);
    if key in cache then
      (Some(cache[key]), f')
    else if f.misses.Some? then
      (Some(Placeholder(key)), f'.(misses := Some(f.misses.value + [key])))
    else if w.fails(f.clock) then
      (None, f')
    else
      (Some(w.up.Truth(key)), f'.(cache := cache[key := w.up.Truth(key)]))
  }

  /** Whether a read reaches upstream and fails there. */
  predicate ReadFails(w: World, f: Fetcher, key: StateKey) {
    ReadRef(w, f, key).0.None?
  }

  /** A read keeps the cache truthful and never forgets a key; only a
      recorded miss answers anything but the truth, and it says so. */
  lemma ReadRefSound(w: World, f: Fetcher, key: StateKey)
    requires Truthful(w.up, f.cache)
    ensures var (r, f') := ReadRef(w, f, key);
      && Truthful(w.up, f'.cache) && f.cache.Keys <= f'.cache.Keys
      && (f'.misses == f.misses && r.Some? ==> r.value == w.up.Truth(key) && key in f'.cache)
      && (f'.misses != f.misses ==> key !in f.cache && f.misses.Some? && f'.misses == Some(f.misses.value + [key]))
      && (r.None? ==> f.misses.None? && w.fails(f.clock))
  {
    if f.misses.Some? {
      assert |f.misses.value + [key]| != |f.misses.value|;
    }
  }

  /** The misses of the thread: `Some` while it speculates. */
  class Thread {
    var misses: Option<seq<StateKey>>

    constructor ()
      ensures misses == None
    {
      misses := None;
    }

    /** Whether a pass is on, and so whether `key` was noted as missed. */
    method RecordMiss(key: StateKey) returns (recorded: bool)
      modifies this
      ensures recorded == old(misses).Some?
      ensures misses == if recorded then Some(old(misses).value + [key]) else None
    {
      if misses.Some? {
        misses := Some(misses.value + [key]);
        return true;
      }
      return false;
    }
  }

  // Which fork, so which upstream block and read cache.
  type ForkId = nat

  /** The shared read cache of one fork. */
  class ReadThrough {
    const id: ForkId
    const world: World
    var cache: Cache
    var clock: nat

    constructor (id: ForkId, world: World)
      ensures this.id == id && this.world == world && cache == map[] && clock == 0
    {
      this.id, this.world := id, world;
      cache, clock := map[], 0;
    }

    function Seen(t: Thread): Fetcher
      reads this, t
    {
      Fetcher(cache, clock, t.misses)
    }

    /** Answer `key` from the cache, else record it as a miss, else ask
        upstream. Errors are never cached. */
    method Read(key: StateKey, t: Thread) returns (r: Option<StateValue>)
      modifies this, t
      ensures (r, Seen(t)) == ReadRef(world, old(Seen(t)), key)
    {
      var failed := world.fails(clock);
      cache := Landed(world.up, cache, world.lands(clock));
      clock := clock + 1;
      if key in cache {
        return Some(cache[key]);
      }
      var recorded := t.RecordMiss(key);
      if recorded {
        return Some(Placeholder(key));
      }
      if failed {
        return None;
      }
      r := Some(world.up.Truth(key));
      cache := cache[key := r.value];
    }
  }
}
