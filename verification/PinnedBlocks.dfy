/** The blocks kept warm for `fork_at_block`: a bounded map, least recently
    used first out, whose cells are each filled at most once. */
module PinnedBlocks {
  import opened Chain
  import opened Collections

  type CellId = nat

  /** `cells` says which cell a warm block has, `recency` lists the warm blocks
      least recently used first. Cells are numbered as they are made. */
  datatype Warm = Warm(cells: map<nat, CellId>, recency: seq<nat>, made: CellId)

  function Retained(recency: seq<nat>, block: nat): seq<nat> {
    if recency == [] then []
    else
      var last := |recency| - 1;
      Retained(recency[..last], block) + if recency[last] == block then [] else [recency[last]]
  }

  /** `block` moved, or added, to the recent end. */
  function Used(recency: seq<nat>, block: nat): seq<nat> {
    Retained(recency, block) + [block]
  }

  /** Drop the least recent until `cap` are left. */
  function Evicted(w: Warm, cap: nat): Warm
    decreases |w.recency|
  {
    if |w.recency| <= cap then w
    else Evicted(w.(cells := w.cells - {w.recency[0]}, recency := w.recency[1..]), cap)
  }

  function Entered(w: Warm, block: nat): Warm {
    if block in w.cells then w.(recency := Used(w.recency, block))
    else Warm(w.cells[block := w.made], Used(w.recency, block), w.made + 1)
  }

  /** `get_or_insert` answers with the block's cell, */
  function CellFor(w: Warm, block: nat): CellId {
    if block in w.cells then w.cells[block] else w.made
  }

  /** and leaves this table. */
  function Requested(w: Warm, cap: nat, block: nat): Warm {
    Evicted(Entered(w, block), cap)
  }

  /** `tables[n]` is the table after the first `n` requests. */
  ghost predicate Served(tables: seq<Warm>, blocks: seq<nat>, cap: nat) {
    && |tables| == |blocks| + 1 && tables[0] == EMPTY
    && forall n :: 0 <= n < |blocks| ==> Follows(tables, blocks, cap, n)
  }

  ghost predicate Follows(tables: seq<Warm>, blocks: seq<nat>, cap: nat, n: nat)
    requires n < |blocks| < |tables|
  {
    tables[n + 1] == Requested(tables[n], cap, blocks[n])
  }

  const EMPTY := Warm(map[], [], 0)

  // ---- Recency ----

  /** All blocks ever requested, in the order of their last requests. */
  function ByLastUse(blocks: seq<nat>): seq<nat> {
    if blocks == [] then [] else Used(ByLastUse(blocks[..|blocks| - 1]), blocks[|blocks| - 1])
  }

  /** The `cap` last. */
  function Latest(s: seq<nat>, cap: nat): seq<nat> {
    if |s| <= cap then s else s[|s| - cap..]
  }

  /** What comes after `b`. */
  function Behind(s: seq<nat>, b: nat): seq<nat> {
    if s == [] || s[|s| - 1] == b then []
    else Behind(s[..|s| - 1], b) + [s[|s| - 1]]
  }

  lemma {:induction false} RetainedSound(s: seq<nat>, b: nat)
    ensures forall x :: x in Retained(s, b) <==> x in s && x != b
    ensures NoRepeats(s) ==> NoRepeats(Retained(s, b))
    ensures b !in s ==> Retained(s, b) == s
    ensures NoRepeats(s) && b in s ==> |Retained(s, b)| == |s| - 1
  {
    if s != [] {
      var last := |s| - 1;
      RetainedSound(s[..last], b);
      LastIsNew(s);
      if s[last] != b {
        var r := Retained(s, b);
        assert r[..|r| - 1] == Retained(s[..last], b);
        LastIsNew(r);
      }
    }
  }

  lemma UsedSound(s: seq<nat>, b: nat)
    ensures forall x :: x in Used(s, b) <==> x in s || x == b
    ensures NoRepeats(s) ==> NoRepeats(Used(s, b))
  {
    RetainedSound(s, b);
    assert Used(s, b)[..|Used(s, b)| - 1] == Retained(s, b);
    LastIsNew(Used(s, b));
  }

  lemma {:induction false} BehindIsWithin(s: seq<nat>, b: nat)
    ensures |Behind(s, b)| <= |s|
    ensures forall x :: x in Behind(s, b) ==> x in s
  {
    if s != [] {
      BehindIsWithin(s[..|s| - 1], b);
    }
  }

  lemma {:induction false} BehindHasNoRepeats(s: seq<nat>, b: nat)
    requires NoRepeats(s)
    ensures NoRepeats(Behind(s, b))
  {
    if s != [] && s[|s| - 1] != b {
      var last := |s| - 1;
      LastIsNew(s);
      BehindHasNoRepeats(s[..last], b);
      BehindIsWithin(s[..last], b);
      var r := Behind(s, b);
      assert r[..|r| - 1] == Behind(s[..last], b);
      LastIsNew(r);
    }
  }

  /** `b` itself stands right before what is behind it. */
  lemma {:induction false} StandsBeforeBehind(s: seq<nat>, b: nat)
    requires b in s
    ensures |Behind(s, b)| < |s| && s[|s| - 1 - |Behind(s, b)|] == b
  {
    var last := |s| - 1;
    if s[last] != b {
      assert s == s[..last] + [s[last]];
      StandsBeforeBehind(s[..last], b);
    }
  }

  /** Using another block takes nothing behind `b` away but may bring it
      back there. */
  lemma {:induction false} BehindRetained(s: seq<nat>, b: nat, x: nat)
    requires x != b
    ensures forall y :: y in Behind(Retained(s, x), b) <==> y in Behind(s, b) && y != x
  {
    if s != [] {
      var last := |s| - 1;
      BehindRetained(s[..last], b, x);
      var r := Retained(s, x);
      if s[last] == x {
        assert r == Retained(s[..last], x);
      } else {
        assert r[|r| - 1] == s[last] && r[..|r| - 1] == Retained(s[..last], x);
        assert s[last] != b ==> Behind(r, b) == Behind(Retained(s[..last], x), b) + [s[last]];
      }
    }
  }

  lemma BehindUsed(s: seq<nat>, b: nat, x: nat)
    ensures x == b ==> Behind(Used(s, x), b) == []
    ensures x != b ==> forall y :: y in Behind(Used(s, x), b) <==> y == x || y in Behind(s, b)
  {
    assert Used(s, x)[..|Used(s, x)| - 1] == Retained(s, x);
    if x != b {
      BehindRetained(s, b, x);
    }
  }

  lemma {:induction false} ByLastUseSound(blocks: seq<nat>)
    ensures NoRepeats(ByLastUse(blocks))
    ensures forall b :: b in ByLastUse(blocks) <==> b in blocks
  {
    if blocks != [] {
      var last := |blocks| - 1;
      ByLastUseSound(blocks[..last]);
      UsedSound(ByLastUse(blocks[..last]), blocks[last]);
      assert blocks == blocks[..last] + [blocks[last]];
    }
  }

  /** `b` was requested at `i` and not after. */
  ghost predicate LastRequest(blocks: seq<nat>, b: nat, i: nat) {
    i < |blocks| && blocks[i] == b && b !in blocks[i + 1..]
  }

  /** The list is in the order of last requests: whatever was requested after
      `a` last was stands behind it, and nothing else. */
  lemma {:induction false} OrderIsOfLastUse(blocks: seq<nat>, a: nat, i: nat, b: nat)
    requires LastRequest(blocks, a, i)
    ensures b in Behind(ByLastUse(blocks), a) <==> b in blocks[i + 1..]
  {
    var last := |blocks| - 1;
    BehindUsed(ByLastUse(blocks[..last]), a, blocks[last]);
    if i < last {
      assert blocks[i + 1..] == blocks[..last][i + 1..] + [blocks[last]];
      OrderIsOfLastUse(blocks[..last], a, i, b);
    }
  }

  lemma {:induction false} RetainedOfSum(s: seq<nat>, t: seq<nat>, b: nat)
    ensures Retained(s + t, b) == Retained(s, b) + Retained(t, b)
  {
    if t == [] {
      assert s + t == s;
    } else {
      var last := |t| - 1;
      assert (s + t)[..|s + t| - 1] == s + t[..last];
      RetainedOfSum(s, t[..last], b);
    }
  }

  /** Forgetting all but the latest before a use changes nothing among the
      latest after it. */
  lemma LatestUsed(s: seq<nat>, cap: nat, b: nat)
    requires NoRepeats(s) && cap > 0
    ensures Latest(Used(Latest(s, cap), b), cap) == Latest(Used(s, b), cap)
  {
    if |s| > cap {
      var (gone, kept) := (s[..|s| - cap], s[|s| - cap..]);
      SplitUsed(s, cap, b);
      LatestOfSum(Retained(gone, b), Used(kept, b), cap);
    }
  }

  lemma UsedIsAsLong(s: seq<nat>, b: nat)
    requires NoRepeats(s)
    ensures |Used(s, b)| >= |s|
  {
    RetainedSound(s, b);
  }

  lemma SuffixHasNoRepeats(s: seq<nat>, i: nat)
    requires NoRepeats(s) && i <= |s|
    ensures NoRepeats(s[i..])
  {
  }

  lemma SplitUsed(s: seq<nat>, cap: nat, b: nat)
    requires NoRepeats(s) && 0 < cap < |s|
    ensures var (gone, kept) := (s[..|s| - cap], s[|s| - cap..]);
      Used(s, b) == Retained(gone, b) + Used(kept, b) && |Used(kept, b)| >= cap
  {
    var (gone, kept) := (s[..|s| - cap], s[|s| - cap..]);
    assert s == gone + kept;
    RetainedOfSum(gone, kept, b);
    SuffixHasNoRepeats(s, |s| - cap);
    UsedIsAsLong(kept, b);
  }

  lemma LatestOfSum(s: seq<nat>, t: seq<nat>, cap: nat)
    requires |t| >= cap
    ensures Latest(s + t, cap) == Latest(t, cap)
  {
  }

  // ---- The table ----

  /** Warm blocks are exactly the listed ones, each with a cell of its own. */
  ghost predicate TableOk(w: Warm) {
    && NoRepeats(w.recency)
    && (forall b :: b in w.cells <==> b in w.recency)
    && (forall b :: b in w.cells ==> w.cells[b] < w.made)
    && (forall a, b :: a in w.cells && b in w.cells && a != b ==> w.cells[a] != w.cells[b])
  }

  /** The table without its least recent block. */
  function OneEvicted(w: Warm): Warm
    requires w.recency != []
  {
    w.(cells := w.cells - {w.recency[0]}, recency := w.recency[1..])
  }

  lemma OneEvictedOk(w: Warm)
    requires TableOk(w) && w.recency != []
    ensures TableOk(OneEvicted(w))
  {
    assert w.recency == [w.recency[0]] + w.recency[1..];
  }

  lemma {:induction false} EvictedIsLatest(w: Warm, cap: nat)
    ensures Evicted(w, cap).recency == Latest(w.recency, cap) && Evicted(w, cap).made == w.made
    decreases |w.recency|
  {
    if |w.recency| > cap {
      EvictedIsLatest(OneEvicted(w), cap);
      LatestOfTail(w.recency, cap);
    }
  }

  lemma LatestOfTail(s: seq<nat>, cap: nat)
    requires |s| > cap
    ensures Latest(s[1..], cap) == Latest(s, cap)
  {
  }

  lemma {:induction false} EvictedSound(w: Warm, cap: nat)
    requires TableOk(w)
    ensures TableOk(Evicted(w, cap))
    ensures forall b :: b in Evicted(w, cap).cells ==> b in w.cells && Evicted(w, cap).cells[b] == w.cells[b]
    decreases |w.recency|
  {
    if |w.recency| > cap {
      OneEvictedOk(w);
      EvictedSound(OneEvicted(w), cap);
    }
  }

  lemma EnteredSound(w: Warm, block: nat)
    requires TableOk(w)
    ensures TableOk(Entered(w, block))
  {
    UsedSound(w.recency, block);
  }

  lemma RequestedSound(w: Warm, cap: nat, block: nat)
    requires TableOk(w)
    ensures TableOk(Requested(w, cap, block)) && Requested(w, cap, block).recency == Latest(Used(w.recency, block), cap)
    ensures forall b :: b in Requested(w, cap, block).cells ==> b == block || b in w.cells
    ensures forall b :: b in Requested(w, cap, block).cells ==> Requested(w, cap, block).cells[b] == CellFor(w, b)
  {
    EnteredSound(w, block);
    EvictedSound(Entered(w, block), cap);
    EvictedIsLatest(Entered(w, block), cap);
  }

  /** The block just asked for keeps the cell it was given. */
  lemma JustRequestedKeepsItsCell(w: Warm, cap: nat, block: nat)
    requires TableOk(w) && cap > 0
    ensures CellFor(Requested(w, cap, block), block) == CellFor(w, block)
  {
    RequestedSound(w, cap, block);
    var (used, recency) := (Used(w.recency, block), Requested(w, cap, block).recency);
    assert used[|used| - 1] == block && recency[|recency| - 1] == used[|used| - 1];
    assert block in recency;
  }

  /** After any history, `recency` is exactly the last `cap` distinct blocks
      requested, in the order of their last requests, and they are the blocks
      that have a cell. */
  lemma {:induction false} RecencyIsTheLastDistinct(tables: seq<Warm>, blocks: seq<nat>, cap: nat, n: nat)
    requires cap > 0 && Served(tables, blocks, cap) && n <= |blocks|
    ensures tables[n].recency == Latest(ByLastUse(blocks[..n]), cap)
    ensures TableOk(tables[n])
  {
    if n > 0 {
      RecencyIsTheLastDistinct(tables, blocks, cap, n - 1);
      assert blocks[..n][..n - 1] == blocks[..n - 1];
      ByLastUseSound(blocks[..n - 1]);
      LatestUsed(ByLastUse(blocks[..n - 1]), cap, blocks[n - 1]);
      assert Follows(tables, blocks, cap, n - 1);
      RequestedSound(tables[n - 1], cap, blocks[n - 1]);
    }
  }

  // ---- Sharing ----

  /** The other blocks requested from `i` up to `j`. */
  function Others(blocks: seq<nat>, i: nat, j: nat): set<nat>
    requires i < |blocks| && i <= j <= |blocks|
  {
    (set b | b in blocks[i..j]) - {blocks[i]}
  }

  lemma OthersOneMore(blocks: seq<nat>, i: nat, j: nat)
    requires i < j <= |blocks|
    ensures Others(blocks, i, j) == Others(blocks, i, j - 1) + ({blocks[j - 1]} - {blocks[i]})
  {
    assert blocks[i..j] == blocks[i..j - 1] + [blocks[j - 1]];
  }

  /** What is behind a block was requested since. */
  lemma {:induction false} BehindWasRequested(blocks: seq<nat>, i: nat, n: nat)
    requires i < n <= |blocks|
    ensures forall y :: y in Behind(ByLastUse(blocks[..n]), blocks[i]) ==> y in Others(blocks, i, n)
    decreases n - i
  {
    assert blocks[..n][..n - 1] == blocks[..n - 1];
    var r := ByLastUse(blocks[..n - 1]);
    BehindUsed(r, blocks[i], blocks[n - 1]);
    OthersOneMore(blocks, i, n);
    if i < n - 1 {
      BehindWasRequested(blocks, i, n - 1);
    }
  }

  /** A block stays warm while fewer than `cap` others are requested. */
  lemma StaysWarm(tables: seq<Warm>, blocks: seq<nat>, cap: nat, i: nat, n: nat)
    requires cap > 0 && Served(tables, blocks, cap) && i < n <= |blocks| && |Others(blocks, i, n)| < cap
    ensures blocks[i] in tables[n].cells
  {
    var (b, r) := (blocks[i], ByLastUse(blocks[..n]));
    ByLastUseSound(blocks[..n]);
    assert blocks[..n][i] == b;
    BehindWasRequested(blocks, i, n);
    BehindHasNoRepeats(r, b);
    StandsBeforeBehind(r, b);
    DistinctFit(Behind(r, b), Others(blocks, i, n));
    RecencyIsTheLastDistinct(tables, blocks, cap, n);
    LatestHas(r, cap, |r| - 1 - |Behind(r, b)|);
  }

  lemma LatestHas(s: seq<nat>, cap: nat, k: nat)
    requires |s| - cap <= k < |s|
    ensures s[k] in Latest(s, cap)
  {
    if |s| > cap {
      assert Latest(s, cap)[k - (|s| - cap)] == s[k];
    }
  }

  lemma FewerOthers(blocks: seq<nat>, i: nat, m: nat, n: nat)
    requires i <= m <= n <= |blocks| && i < |blocks|
    ensures |Others(blocks, i, m)| <= |Others(blocks, i, n)|
  {
    assert blocks[i..n] == blocks[i..m] + blocks[m..n];
    SubsetFits(Others(blocks, i, m), Others(blocks, i, n));
  }

  /** Until it is evicted, a block keeps its cell. */
  lemma {:induction false} KeepsCell(tables: seq<Warm>, blocks: seq<nat>, cap: nat, i: nat, n: nat)
    requires cap > 0 && Served(tables, blocks, cap) && i < n <= |blocks| && |Others(blocks, i, n)| < cap
    ensures blocks[i] in tables[n].cells && tables[n].cells[blocks[i]] == CellFor(tables[i], blocks[i])
    decreases n - i
  {
    StaysWarm(tables, blocks, cap, i, n);
    RecencyIsTheLastDistinct(tables, blocks, cap, n - 1);
    RequestedSound(tables[n - 1], cap, blocks[n - 1]);
    assert Follows(tables, blocks, cap, n - 1);
    if i < n - 1 {
      FewerOthers(blocks, i, n - 1, n);
      KeepsCell(tables, blocks, cap, i, n - 1);
    }
  }

  /** Requests for one block with fewer than `cap` others between are given
      one cell. */
  lemma NearRequestsShareACell(tables: seq<Warm>, blocks: seq<nat>, cap: nat, i: nat, j: nat)
    requires cap > 0 && Served(tables, blocks, cap)
    requires i < j < |blocks| && blocks[i] == blocks[j] && |Others(blocks, i, j)| < cap
    ensures CellFor(tables[i], blocks[i]) == CellFor(tables[j], blocks[j])
  {
    KeepsCell(tables, blocks, cap, i, j);
  }

  // ---- What is in the cells ----

  /** A request, the cell it was given, and what the factory would answer if
      asked. */
  datatype Request<V> = Request(block: nat, cell: CellId, made: Option<V>)

  /** The requests were given the cells the tables say. */
  ghost predicate Given<V>(requests: seq<Request<V>>, tables: seq<Warm>, blocks: seq<nat>, cap: nat) {
    && Served(tables, blocks, cap) && |requests| == |blocks|
    && forall i :: 0 <= i < |blocks| ==>
       requests[i].block == blocks[i] && requests[i].cell == CellFor(tables[i], blocks[i])
  }

  /** `get_or_try_init`: the cell's value, made by the factory when it has
      none; a failure leaves it empty. */
  function GetOrTryInit<V>(values: map<CellId, V>, cell: CellId, made: Option<V>): (Option<V>, map<CellId, V>) {
    if cell in values then (Some(values[cell]), values)
    else if made.Some? then (made, values[cell := made.value])
    else (None, values)
  }

  /** The filled cells after the first `n` requests. */
  function Filled<V>(requests: seq<Request<V>>, n: nat): map<CellId, V>
    requires n <= |requests|
  {
    if n == 0 then map[] else GetOrTryInit(Filled(requests, n - 1), requests[n - 1].cell, requests[n - 1].made).1
  }

  function AnswerAt<V>(requests: seq<Request<V>>, i: nat): Option<V>
    requires i < |requests|
  {
    GetOrTryInit(Filled(requests, i), requests[i].cell, requests[i].made).0
  }

  /** Whether the i-th request had to ask the factory. */
  predicate CalledAt<V>(requests: seq<Request<V>>, i: nat)
    requires i < |requests|
  {
    requests[i].cell !in Filled(requests, i)
  }

  /** A filled cell stays filled, with what it was filled with. */
  lemma {:induction false} ValuesStay<V>(requests: seq<Request<V>>, m: nat, n: nat, cell: CellId)
    requires m <= n <= |requests| && cell in Filled(requests, m)
    ensures cell in Filled(requests, n) && Filled(requests, n)[cell] == Filled(requests, m)[cell]
  {
    if m < n {
      ValuesStay(requests, m, n - 1, cell);
    }
  }

  /** A cell is filled by at most one success, however often it is asked for. */
  lemma OneSuccessPerCell<V>(requests: seq<Request<V>>, i: nat, j: nat)
    requires i < j < |requests| && requests[i].cell == requests[j].cell && AnswerAt(requests, i).Some?
    ensures !CalledAt(requests, j) && AnswerAt(requests, j) == AnswerAt(requests, i)
  {
    ValuesStay(requests, i + 1, j, requests[i].cell);
  }

  /** Two requests for one block with fewer than `cap` others between share
      one cell: once one succeeded the other gets the same answer without
      asking the factory. */
  lemma NearRequestsShare<V>(requests: seq<Request<V>>, tables: seq<Warm>, blocks: seq<nat>, cap: nat, i: nat, j: nat)
    requires cap > 0 && Given(requests, tables, blocks, cap)
    requires i < j < |blocks| && blocks[i] == blocks[j] && |Others(blocks, i, j)| < cap
    ensures requests[i].cell == requests[j].cell
    ensures AnswerAt(requests, i).Some? ==> AnswerAt(requests, j) == AnswerAt(requests, i) && !CalledAt(requests, j)
  {
    NearRequestsShareACell(tables, blocks, cap, i, j);
    if AnswerAt(requests, i).Some? {
      OneSuccessPerCell(requests, i, j);
    }
  }

  /** A cell is filled exactly when some request for it found the factory
      willing. */
  lemma {:induction false} FilledBySuccess<V>(requests: seq<Request<V>>, n: nat, cell: CellId)
    requires n <= |requests|
    ensures cell in Filled(requests, n) <==>
            exists k :: 0 <= k < n && requests[k].cell == cell && requests[k].made.Some?
  {
    if n > 0 {
      FilledBySuccess(requests, n - 1, cell);
    }
  }

  /** A failed request fills nothing: the next one for its cell, however many
      for other cells come between, asks the factory again and has its
      answer. */
  lemma FailureIsRetryable<V>(requests: seq<Request<V>>, i: nat, j: nat)
    requires i < j < |requests| && requests[i].cell == requests[j].cell && AnswerAt(requests, i) == None
    requires forall k :: i < k < j ==> requests[k].cell != requests[i].cell
    ensures CalledAt(requests, j) && AnswerAt(requests, j) == requests[j].made
  {
    FilledBySuccess(requests, i, requests[i].cell);
    FilledBySuccess(requests, j, requests[j].cell);
  }

  // ---- The table, in place ----

  class PinnedTable {
    var cells: map<nat, CellId>
    var recency: seq<nat>
    const cap: nat
    var made: CellId

    constructor (maxPinnedBlocks: nat)
      ensures cap == (if maxPinnedBlocks > 1 then maxPinnedBlocks else 1) && State() == EMPTY
    {
      cap := if maxPinnedBlocks > 1 then maxPinnedBlocks else 1;
      cells, recency, made := map[], [], 0;
    }

    function State(): Warm
      reads this
    {
      Warm(cells, recency, made)
    }

    /** The cell of `block`, made if it has none, evicting the least recently
        used beyond `cap`. */
    method CellOf(block: nat) returns (cell: CellId)
      modifies this`cells, this`recency, this`made
      ensures cell == CellFor(old(State()), block) && State() == Requested(old(State()), cap, block)
    {
      recency := Retained(recency, block) + [block];
      if block !in cells {
        cells, made := cells[block := made], made + 1;
      }
      cell := cells[block];
      while |recency| > cap
        invariant Evicted(State(), cap) == Evicted(Entered(old(State()), block), cap)
        decreases |recency|
      {
        cells, recency := cells - {recency[0]}, recency[1..];
      }
    }
  }

  method Fill<V>(values: map<CellId, V>, cell: CellId, made: Option<V>)
    returns (value: Option<V>, filled: map<CellId, V>)
    ensures (value, filled) == GetOrTryInit(values, cell, made)
  {
    if cell in values {
      return Some(values[cell]), values;
    }
    return made, if made.Some? then values[cell := made.value] else values;
  }
}
