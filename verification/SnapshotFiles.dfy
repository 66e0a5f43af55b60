/** Session snapshots as files on a disk that may lose power: what an id stands
    for, whatever becomes of the disk. */
module SnapshotFiles {
  import opened Chain
  import opened Persist
  import Crash

  /** How a store's paths and files are a disk's targets and bytes. */
  datatype Coding = Coding(target: Path -> nat, bytes: File -> Crash.Bytes, parse: Crash.Bytes -> Content)

  ghost predicate Faithful(coding: Coding) {
    && (forall p, q :: coding.target(p) == coding.target(q) ==> p == q)
    && (forall file :: coding.parse(coding.bytes(file)) == Parsed(file))
  }

  function PathOf(idOf: File -> string, c: StoreCall): Path {
    (c.chainId, idOf(CallFile(c)))
  }

  /** Writing `w` is what the call `c` does to the disk. */
  ghost predicate Writes(coding: Coding, idOf: File -> string, c: StoreCall, w: Crash.Writer) {
    w.target == coding.target(PathOf(idOf, c)) && w.bytes == coding.bytes(CallFile(c))
  }

  /** Whatever is written, one of `calls` writes it. */
  ghost predicate OnlyStores(coding: Coding, idOf: File -> string, calls: seq<StoreCall>, steps: seq<Crash.Step>) {
    forall i :: 0 <= i < |steps| && steps[i].Begin? ==>
      exists j :: 0 <= j < |calls| && Writes(coding, idOf, calls[j], steps[i].writer)
  }

  /** What is found under one path. */
  function Found(coding: Coding, d: Crash.Disk, path: Path): Files {
    match Crash.ReadBack(d, coding.target(path))
    case Some(bytes) => map[path := coding.parse(bytes)]
    case None => map[]
  }

  /** What loading the id of `c` gives. */
  function Loaded(decodes: seq<nat> -> bool, coding: Coding, idOf: File -> string, d: Crash.Disk, c: StoreCall)
    : Result<(nat, SessionState)>
  {
    LoadFrom(decodes, Found(coding, d, PathOf(idOf, c)), c.chainId, idOf(CallFile(c)), false)
  }

  /** The file of `c`'s id is there. */
  predicate There(coding: Coding, idOf: File -> string, d: Crash.Disk, c: StoreCall) {
    Crash.Target(coding.target(PathOf(idOf, c))) in d.live
  }

  /** Of one path all calls write the same bytes: the id is theirs. */
  lemma OneContentPerId(coding: Coding, idOf: File -> string, calls: seq<StoreCall>, steps: seq<Crash.Step>,
                        c: StoreCall, i: nat)
    requires Faithful(coding) && NoCollision(idOf, calls) && OnlyStores(coding, idOf, calls, steps) && c in calls
    requires i < |steps| && steps[i].Begin? && steps[i].writer.target == coding.target(PathOf(idOf, c))
    ensures steps[i].writer.bytes == coding.bytes(CallFile(c))
  {
    var j :| 0 <= j < |calls| && Writes(coding, idOf, calls[j], steps[i].writer);
    assert PathOf(idOf, calls[j]) == PathOf(idOf, c);
    var k :| 0 <= k < |calls| && calls[k] == c;
    assert CallFile(calls[j]) == CallFile(calls[k]);
  }

  lemma FoundLoads(decodes: seq<nat> -> bool, coding: Coding, idOf: File -> string, d: Crash.Disk, c: StoreCall)
    requires Faithful(coding) && ValidId(idOf(CallFile(c))) && AllDecode(decodes, c.state.code)
    requires Crash.ReadBack(d, coding.target(PathOf(idOf, c))) == Some(coding.bytes(CallFile(c)))
    ensures Loaded(decodes, coding, idOf, d, c) == Ok((c.blockNumber, Reattached(c.state)))
  {
    LoadsBack(decodes, idOf, Found(coding, d, PathOf(idOf, c)), c);
  }

  /** At every moment of every run, across power losses, kills, failed writes
      and concurrent stores: an id loads the very state it was minted for, or
      is missing; nothing else is ever found under it. */
  lemma AnIdLoadsItsStateOrNone(decodes: seq<nat> -> bool, coding: Coding, idOf: File -> string,
                                calls: seq<StoreCall>, steps: seq<Crash.Step>, trace: seq<Crash.Disk>, n: nat,
                                c: StoreCall)
    requires Faithful(coding) && NoCollision(idOf, calls) && OnlyStores(coding, idOf, calls, steps) && c in calls
    requires Crash.IsRun(steps, trace) && n < |trace|
    requires ValidId(idOf(CallFile(c))) && AllDecode(decodes, c.state.code)
    ensures Loaded(decodes, coding, idOf, trace[n], c) ==
            if There(coding, idOf, trace[n], c) then Ok((c.blockNumber, Reattached(c.state))) else Err(Missing)
  {
    if There(coding, idOf, trace[n], c) {
      var target := coding.target(PathOf(idOf, c));
      forall i | 0 <= i < |steps| && steps[i].Begin? && steps[i].writer.target == target
        ensures steps[i].writer.bytes == coding.bytes(CallFile(c))
      {
        OneContentPerId(coding, idOf, calls, steps, c, i);
      }
      Crash.SkippingAnExistingFileIsSound(steps, trace, n, target, coding.bytes(CallFile(c)));
      FoundLoads(decodes, coding, idOf, trace[n], c);
    }
  }

  /** An id that was there at `m`, written or found, is there until power is
      lost; and after the next loss, at `n`, exactly if it was when the
      directory last reached the disk, at `k`. */
  lemma AnAnsweredIdStays(coding: Coding, idOf: File -> string, c: StoreCall, steps: seq<Crash.Step>,
                          trace: seq<Crash.Disk>, m: nat, k: nat, n: nat)
    requires Crash.IsRun(steps, trace) && m <= n < |steps| && There(coding, idOf, trace[m], c)
    requires (forall j :: m <= j < n ==> !steps[j].PowerLoss?) && steps[n].PowerLoss? && Crash.LastSaved(steps, k, n)
    ensures There(coding, idOf, trace[n], c)
    ensures There(coding, idOf, trace[n + 1], c) <==> There(coding, idOf, trace[k], c)
    ensures m <= k ==> There(coding, idOf, trace[k], c)
  {
    var target := coding.target(PathOf(idOf, c));
    Crash.TargetStays(steps, trace, m, n, target);
    Crash.LossGoesBackToTheLastSave(steps, trace, k, n, target);
    Crash.TargetIsWhole(steps, trace, n + 1, target);
    Crash.TargetIsWhole(steps, trace, k, target);
    if m <= k {
      Crash.TargetStays(steps, trace, m, k, target);
    }
  }
}
