/** What a session answers, as a function and nothing else: no overlay, base or
    cache in it. */
module Views {
  import opened Chain
  import opened Fetch
  import opened Engine
  import opened Passes

  type View = Query -> Answer

  /** `layer`'s entries over `view`. */
  function Laid(layer: Layer, view: View): View {
    (q: Query) =>
      if q.AccountQ? && q.address in layer.accounts then AccountA(Some(layer.accounts[q.address]))
      else if q.StorageQ? && (q.owner, q.slot) in layer.storage then WordA(layer.storage[(q.owner, q.slot)])
      else if q.CodeQ? && q.hash in layer.code then CodeA(layer.code[q.hash])
      else view(q)
  }

  /** Upstream's state, but for the block hashes that are given. */
  function Ground(up: Upstream, blockHashes: map<nat, Hash>): View {
    (q: Query) =>
      match q
      case AccountQ(a) => AccountA(up.account(a))
      case StorageQ(a, i) => WordA(up.storage(a, i))
      case BlockHashQ(n) => HashA(if n in blockHashes then blockHashes[n] else up.blockHash(n))
      case CodeQ(h) => if up.code(h).Some? then CodeA(up.code(h).value) else CodeMissA(h)
  }

  /** Overlay over base over upstream: what a session holds, as a view. */
  function ViewOf(up: Upstream, s: SessionData): View {
    Laid(s.overlay, Laid(s.base.layer, Ground(up, s.base.blockHashes)))
  }

  lemma LookIsTheView(up: Upstream, s: SessionData, q: Query)
    ensures Look(up, s, q) == ViewOf(up, s)(q)
  {
    match q
    case AccountQ(_) =>
    case StorageQ(_, _) =>
    case CodeQ(_) =>
    case BlockHashQ(_) =>
  }

  /** `p`'s outcome with every read answered from `view`. */
  function OnView(view: View, p: Program): (Reply, Option<Diff>)
    decreases p
  {
    if p.Done? then (p.reply, p.diff) else OnView(view, p.Next(view(p.query)))
  }

  lemma {:induction false} EvalIsOnView(up: Upstream, p: Program, s: SessionData, view: View)
    requires forall q :: Look(up, s, q) == view(q)
    ensures Eval(up, p, s) == OnView(view, p)
    decreases p
  {
    if p.Read? {
      assert Look(up, s, p.query) == view(p.query);
      EvalIsOnView(up, p.Next(view(p.query)), s, view);
    }
  }
}
