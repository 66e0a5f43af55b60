/** Writing a file by way of a temporary one, step by step, on a disk that may
    lose power between any two steps, with any number of writers. */
module Crash {
  import opened Chain

  type Bytes = seq<nat>
  type WriterId = nat
  type InodeId = nat

  /** A file being addressed, and the temporary name a process writes it under:
      its stem, the process id and that process's counter. */
  datatype Name = Target(target: nat) | Temp(stem: nat, pid: nat, nonce: nat)

  /** `dirty` data is not on the disk yet, or only some of it. */
  datatype Inode = Inode(data: Bytes, dirty: bool)

  datatype Phase = Ready | Writing(inode: InodeId) | Synced(inode: InodeId) | Removing | Done(ok: bool)

  /** One call that writes `bytes` as `target`. */
  datatype Writer = Writer(target: nat, pid: nat, nonce: nat, bytes: Bytes, phase: Phase)

  type Directory = map<Name, InodeId>

  /** `live` is the directory every process sees, `durable` the one a reboot
      would find; `calls` are all the writes ever begun. */
  datatype Disk = Disk(
    inodes: map<InodeId, Inode>,
    live: Directory,
    durable: Directory,
    writers: map<WriterId, Writer>,
    calls: set<(nat, Bytes)>)

  const BLANK := Disk(map[], map[], map[], map[], {})

  function TempOf(w: Writer): Name {
    Temp(w.target, w.pid, w.nonce)
  }

  datatype Step =
    | Begin(id: WriterId, writer: Writer)
    | Create(id: WriterId, unused: InodeId)
    | Write(id: WriterId, upTo: nat)
    | Sync(id: WriterId)
    | Rename(id: WriterId)
    | Fail(id: WriterId)                       // any of the above reports an error
    | Remove(id: WriterId)
    | Checkpoint                               // the directory reaches the disk
    | Kill(pid: nat)                           // a process ends anywhere
    | PowerLoss(torn: map<InodeId, Bytes>)     // what unsynced data is found as

  predicate Active(w: Writer) {
    !w.phase.Done?
  }

  predicate Enabled(d: Disk, step: Step) {
    match step
    case Begin(id, w) =>
      // Live processes have distinct ids, and each counts its temp files.
      && id !in d.writers && w.phase.Ready?
      && (forall i :: i in d.writers && Active(d.writers[i]) ==> TempOf(d.writers[i]) != TempOf(w))
    case Create(id, unused) => id in d.writers && d.writers[id].phase.Ready? && unused !in d.inodes
    case Write(id, upTo) =>
      && id in d.writers && d.writers[id].phase.Writing? && d.writers[id].phase.inode in d.inodes
      && |d.inodes[d.writers[id].phase.inode].data| <= upTo <= |d.writers[id].bytes|
    case Sync(id) =>
      && id in d.writers && d.writers[id].phase.Writing? && d.writers[id].phase.inode in d.inodes
      && |d.inodes[d.writers[id].phase.inode].data| == |d.writers[id].bytes|
    case Rename(id) => id in d.writers && d.writers[id].phase.Synced? && TempOf(d.writers[id]) in d.live
    case Fail(id) =>
      id in d.writers && (d.writers[id].phase.Writing? || d.writers[id].phase.Synced? || d.writers[id].phase.Ready?)
    case Remove(id) => id in d.writers && d.writers[id].phase.Removing?
    case Checkpoint => true
    case Kill(_) => true
    case PowerLoss(_) => true
  }

  function WithPhase(d: Disk, id: WriterId, phase: Phase): Disk
    requires id in d.writers
  {
    d.(writers := d.writers[id := d.writers[id].(phase := phase)])
  }

  /** Opening a name for writing empties the file that has it, or makes one. */
  function Opened(d: Disk, name: Name, unused: InodeId): (Disk, InodeId) {
    if name in d.live then (d.(inodes := d.inodes[d.live[name] := Inode([], true)]), d.live[name])
    else (d.(inodes := d.inodes[unused := Inode([], true)], live := d.live[name := unused]), unused)
  }

  function Next(d: Disk, step: Step): Disk
    requires Enabled(d, step)
  {
    match step
    case Begin(id, w) => d.(writers := d.writers[id := w], calls := d.calls + {(w.target, w.bytes)})
    case Create(id, unused) =>
      var (d', inode) := Opened(d, TempOf(d.writers[id]), unused);
      WithPhase(d', id, Writing(inode))
    case Write(id, upTo) =>
      d.(inodes := d.inodes[d.writers[id].phase.inode := Inode(d.writers[id].bytes[..upTo], true)])
    case Sync(id) =>
      var inode := d.writers[id].phase.inode;
      WithPhase(d.(inodes := d.inodes[inode := d.inodes[inode].(dirty := false)]), id, Synced(inode))
    case Rename(id) =>
      var w := d.writers[id];
      WithPhase(d.(live := (d.live - {TempOf(w)})[Target(w.target) := d.live[TempOf(w)]]), id, Done(true))
    case Fail(id) => WithPhase(d, id, Removing)
    case Remove(id) => WithPhase(d.(live := d.live - {TempOf(d.writers[id])}), id, Done(false))
    case Checkpoint => d.(durable := d.live)
    case Kill(pid) => d.(writers := map i | i in d.writers && d.writers[i].pid != pid :: d.writers[i])
    case PowerLoss(torn) =>
      d.(live := d.durable, writers := map[],
         inodes := map i | i in d.inodes ::
           if d.inodes[i].dirty then Inode(if i in torn then torn[i] else [], false) else d.inodes[i])
  }

  /** `trace` is the disks `steps` lead through, one after the other. */
  ghost predicate IsPath(steps: seq<Step>, trace: seq<Disk>) {
    |trace| == |steps| + 1 && forall i :: 0 <= i < |steps| ==> Follows(steps, trace, i)
  }

  ghost predicate IsRun(steps: seq<Step>, trace: seq<Disk>) {
    IsPath(steps, trace) && trace[0] == BLANK
  }

  ghost predicate Follows(steps: seq<Step>, trace: seq<Disk>, i: nat)
    requires i < |steps| < |trace|
  {
    Enabled(trace[i], steps[i]) && trace[i + 1] == Next(trace[i], steps[i])
  }

  // ---- The invariant ----

  /** Every target of `dir` is a synced file holding one call's bytes whole. */
  ghost predicate TargetsWhole(d: Disk, dir: Directory) {
    forall t: nat :: Target(t) in dir ==>
      dir[Target(t)] in d.inodes && !d.inodes[dir[Target(t)]].dirty && (t, d.inodes[dir[Target(t)]].data) in d.calls
  }

  /** Names of `dir` are files of their own. */
  ghost predicate Separate(d: Disk, dir: Directory) {
    && (forall n :: n in dir ==> dir[n] in d.inodes)
    && (forall m, n :: m in dir && n in dir && m != n ==> dir[m] != dir[n])
  }

  /** No temporary name in use is a file some target has on disk. */
  ghost predicate TempsApart(d: Disk) {
    forall m: Name, t: nat :: m in d.live && m.Temp? && Target(t) in d.durable ==> d.live[m] != d.durable[Target(t)]
  }

  /** What a writer holds open is what its temporary name says, and what it
      wrote so far is the beginning of its bytes. */
  ghost predicate WriterOk(d: Disk, w: Writer) {
    && (Active(w) ==> (w.target, w.bytes) in d.calls)
    && (w.phase.Writing? || w.phase.Synced? ==>
          TempOf(w) in d.live && d.live[TempOf(w)] == w.phase.inode && w.phase.inode in d.inodes)
    && (w.phase.Writing? ==> d.inodes[w.phase.inode].data <= w.bytes)
    && (w.phase.Synced? ==> d.inodes[w.phase.inode] == Inode(w.bytes, false))
  }

  ghost predicate WritersApart(d: Disk) {
    forall i, j :: i in d.writers && j in d.writers && i != j && Active(d.writers[i]) && Active(d.writers[j]) ==>
      TempOf(d.writers[i]) != TempOf(d.writers[j])
  }

  ghost predicate Inv(d: Disk) {
    && TargetsWhole(d, d.live) && TargetsWhole(d, d.durable)
    && Separate(d, d.live) && Separate(d, d.durable) && TempsApart(d)
    && (forall i :: i in d.writers ==> WriterOk(d, d.writers[i]))
    && WritersApart(d)
  }

  // ---- Every step ----

  /** Changing a file under a temporary name reaches no target and no other
      writer. */
  lemma TempFileChanges(d: Disk, name: Name, inode: Inode, w: Writer)
    requires Inv(d) && name.Temp? && name in d.live
    ensures var d' := d.(inodes := d.inodes[d.live[name] := inode]);
      && TargetsWhole(d', d.live) && TargetsWhole(d', d.durable)
      && Separate(d', d.live) && Separate(d', d.durable) && TempsApart(d')
      && (WriterOk(d, w) && TempOf(w) != name ==> WriterOk(d', w))
  {
  }

  lemma FreshTemp(d: Disk, name: Name, unused: InodeId, w: Writer)
    requires Inv(d) && name.Temp? && name !in d.live && unused !in d.inodes
    ensures var d' := d.(inodes := d.inodes[unused := Inode([], true)], live := d.live[name := unused]);
      && TargetsWhole(d', d'.live) && TargetsWhole(d', d'.durable)
      && Separate(d', d'.live) && Separate(d', d'.durable) && TempsApart(d')
      && (WriterOk(d, w) && TempOf(w) != name ==> WriterOk(d', w))
  {
  }

  lemma CreateKeeps(d: Disk, id: WriterId, unused: InodeId)
    requires Inv(d) && Enabled(d, Create(id, unused))
    ensures Inv(Next(d, Create(id, unused)))
  {
    var d' := Next(d, Create(id, unused));
    var name := TempOf(d.writers[id]);
    var w := d.writers[id];
    if name in d.live {
      TempFileChanges(d, name, Inode([], true), w);
    } else {
      FreshTemp(d, name, unused, w);
    }
    forall i | i in d'.writers
      ensures WriterOk(d', d'.writers[i])
    {
      if i != id {
        if name in d.live {
          TempFileChanges(d, name, Inode([], true), d.writers[i]);
        } else {
          FreshTemp(d, name, unused, d.writers[i]);
        }
      }
    }
  }

  /** A writer changes its own open file. */
  lemma OwnFileKeeps(d: Disk, id: WriterId, inode: Inode, phase: Phase)
    requires Inv(d) && id in d.writers && d.writers[id].phase.Writing?
    requires WriterOk(d.(inodes := d.inodes[d.writers[id].phase.inode := inode]), d.writers[id].(phase := phase))
    requires Active(d.writers[id].(phase := phase))
    ensures Inv(WithPhase(d.(inodes := d.inodes[d.writers[id].phase.inode := inode]), id, phase))
  {
    var w := d.writers[id];
    var d' := WithPhase(d.(inodes := d.inodes[w.phase.inode := inode]), id, phase);
    assert WriterOk(d, w);
    TempFileChanges(d, TempOf(w), inode, w);
    forall i | i in d'.writers
      ensures WriterOk(d', d'.writers[i])
    {
      if i != id {
        assert Active(d.writers[i]) ==> TempOf(d.writers[i]) != TempOf(w);
        TempFileChanges(d, TempOf(w), inode, d.writers[i]);
      }
    }
  }

  lemma WriteKeeps(d: Disk, id: WriterId, upTo: nat)
    requires Inv(d) && Enabled(d, Write(id, upTo))
    ensures Inv(Next(d, Write(id, upTo)))
  {
    assert WriterOk(d, d.writers[id]);
    OwnFileKeeps(d, id, Inode(d.writers[id].bytes[..upTo], true), d.writers[id].phase);
    assert d.writers[id := d.writers[id]] == d.writers;
  }

  lemma SyncKeeps(d: Disk, id: WriterId)
    requires Inv(d) && Enabled(d, Sync(id))
    ensures Inv(Next(d, Sync(id)))
  {
    var (w, inode) := (d.writers[id], d.writers[id].phase.inode);
    assert WriterOk(d, w);
    assert d.inodes[inode].data == w.bytes;
    OwnFileKeeps(d, id, d.inodes[inode].(dirty := false), Synced(inode));
  }

  lemma FailKeeps(d: Disk, id: WriterId)
    requires Inv(d) && Enabled(d, Fail(id))
    ensures Inv(Next(d, Fail(id)))
  {
  }

  lemma KillKeeps(d: Disk, pid: nat)
    requires Inv(d)
    ensures Inv(Next(d, Kill(pid)))
  {
  }

  lemma RenameKeeps(d: Disk, id: WriterId)
    requires Inv(d) && Enabled(d, Rename(id))
    ensures Inv(Next(d, Rename(id)))
  {
    var d' := Next(d, Rename(id));
    assert WriterOk(d, d.writers[id]);
    forall i | i in d'.writers
      ensures WriterOk(d', d'.writers[i])
    {
      assert WriterOk(d, d.writers[i]);
      assert i != id && Active(d.writers[i]) ==> TempOf(d.writers[i]) != TempOf(d.writers[id]);
    }
  }

  lemma RemoveKeeps(d: Disk, id: WriterId)
    requires Inv(d) && Enabled(d, Remove(id))
    ensures Inv(Next(d, Remove(id)))
  {
    var d' := Next(d, Remove(id));
    forall i | i in d'.writers
      ensures WriterOk(d', d'.writers[i])
    {
      assert WriterOk(d, d.writers[i]);
      assert i != id && Active(d.writers[i]) ==> TempOf(d.writers[i]) != TempOf(d.writers[id]);
    }
  }

  lemma BeginKeeps(d: Disk, id: WriterId, w: Writer)
    requires Inv(d) && Enabled(d, Begin(id, w))
    ensures Inv(Next(d, Begin(id, w)))
  {
    forall i | i in d.writers
      ensures WriterOk(Next(d, Begin(id, w)), d.writers[i])
    {
      assert WriterOk(d, d.writers[i]);
    }
  }

  lemma PowerLossKeeps(d: Disk, torn: map<InodeId, Bytes>)
    requires Inv(d)
    ensures Inv(Next(d, PowerLoss(torn)))
  {
  }

  lemma StepKeeps(d: Disk, step: Step)
    requires Inv(d) && Enabled(d, step)
    ensures Inv(Next(d, step))
  {
    match step
    case Begin(id, w) => BeginKeeps(d, id, w);
    case Create(id, unused) => CreateKeeps(d, id, unused);
    case Write(id, upTo) => WriteKeeps(d, id, upTo);
    case Sync(id) => SyncKeeps(d, id);
    case Rename(id) => RenameKeeps(d, id);
    case Fail(id) => FailKeeps(d, id);
    case Remove(id) => RemoveKeeps(d, id);
    case Checkpoint =>
    case Kill(pid) => KillKeeps(d, pid);
    case PowerLoss(torn) => PowerLossKeeps(d, torn);
  }

  lemma {:induction false} RunKeeps(steps: seq<Step>, trace: seq<Disk>, n: nat)
    requires IsRun(steps, trace) && n < |trace|
    ensures Inv(trace[n])
  {
    if n > 0 {
      RunKeeps(steps, trace, n - 1);
      assert Follows(steps, trace, n - 1);
      StepKeeps(trace[n - 1], steps[n - 1]);
    }
  }

  // ---- What readers see ----

  /** What opening a target finds. */
  function ReadBack(d: Disk, target: nat): Option<Bytes> {
    if Target(target) in d.live && d.live[Target(target)] in d.inodes
    then Some(d.inodes[d.live[Target(target)]].data)
    else None
  }

  /** At any moment of any run, before or after power losses, killed
      processes, failures and other writers' steps, a target is absent or
      holds the complete bytes of one call that wrote that target. */
  lemma TargetIsWhole(steps: seq<Step>, trace: seq<Disk>, n: nat, target: nat)
    requires IsRun(steps, trace) && n < |trace|
    ensures ReadBack(trace[n], target).Some? <==> Target(target) in trace[n].live
    ensures ReadBack(trace[n], target).Some? ==> (target, ReadBack(trace[n], target).value) in trace[n].calls
  {
    RunKeeps(steps, trace, n);
  }

  lemma {:induction false} CallsBegan(steps: seq<Step>, trace: seq<Disk>, n: nat, target: nat, bytes: Bytes)
    requires IsRun(steps, trace) && n < |trace| && (target, bytes) in trace[n].calls
    ensures exists i ::
              0 <= i < n && steps[i].Begin? && steps[i].writer.target == target && steps[i].writer.bytes == bytes
  {
    if n > 0 {
      assert Follows(steps, trace, n - 1);
      if (target, bytes) in trace[n - 1].calls {
        CallsBegan(steps, trace, n - 1, target, bytes);
      } else {
        assert steps[n - 1].Begin?;
      }
    }
  }

  /** A target named after its own bytes, when found, holds them: whoever
      finds it need not write it again. */
  lemma SkippingAnExistingFileIsSound(steps: seq<Step>, trace: seq<Disk>, n: nat, target: nat, bytes: Bytes)
    requires IsRun(steps, trace) && n < |trace| && Target(target) in trace[n].live
    requires forall i :: 0 <= i < |steps| && steps[i].Begin? && steps[i].writer.target == target ==>
             steps[i].writer.bytes == bytes
    ensures ReadBack(trace[n], target) == Some(bytes)
  {
    TargetIsWhole(steps, trace, n, target);
    CallsBegan(steps, trace, n, target, ReadBack(trace[n], target).value);
  }

  /** A rename that is done stands until another replaces it or power is
      lost; after a power loss the target is what the last directory to
      reach the disk had. */
  lemma TargetsOnlyChangeBy(d: Disk, step: Step, target: nat)
    requires Inv(d) && Enabled(d, step)
    ensures match step
      case Rename(id) =>
        ReadBack(Next(d, step), target) ==
          if d.writers[id].target == target then Some(d.writers[id].bytes) else ReadBack(d, target)
      case PowerLoss(_) => ReadBack(Next(d, step), target) == ReadBack(d.(live := d.durable), target)
      case _ => ReadBack(Next(d, step), target) == ReadBack(d, target)
  {
    match step
    case Create(id, unused) => assert WriterOk(d, d.writers[id]);
    case Write(id, _) => assert WriterOk(d, d.writers[id]);
    case Sync(id) => assert WriterOk(d, d.writers[id]);
    case Rename(id) => assert WriterOk(d, d.writers[id]);
    case _ =>
  }

  /** The directory itself is not synced, so a store that has answered may
      still be lost, never torn: if power goes right after the rename, the
      bytes are found again exactly when the directory on disk had them under
      this name already; once the directory has reached the disk they stay. */
  lemma AnAnsweredStoreMayBeLost(d: Disk, id: WriterId, torn: map<InodeId, Bytes>)
    requires Inv(d) && Enabled(d, Rename(id))
    ensures var (w, d1) := (d.writers[id], Next(d, Rename(id)));
      && d1.writers[id].phase == Done(true) && ReadBack(d1, w.target) == Some(w.bytes)
      && (ReadBack(Next(d1, PowerLoss(torn)), w.target) == Some(w.bytes) <==>
            Target(w.target) in d.durable && d.inodes[d.durable[Target(w.target)]].data == w.bytes)
      && ReadBack(Next(Next(d1, Checkpoint), PowerLoss(torn)), w.target) == Some(w.bytes)
  {
    assert WriterOk(d, d.writers[id]);
  }

  // ---- What a power loss leaves ----

  /** What opening a target would find if power went. */
  function DurableRead(d: Disk, target: nat): Option<Bytes> {
    ReadBack(d.(live := d.durable), target)
  }

  /** Until the directory reaches the disk again, nothing changes what a loss
      would leave of any target. */
  lemma DurableStays(d: Disk, step: Step, target: nat)
    requires Inv(d) && Enabled(d, step) && !step.Checkpoint? && !step.PowerLoss?
    ensures DurableRead(Next(d, step), target) == DurableRead(d, target)
  {
    match step
    case Create(id, unused) => assert WriterOk(d, d.writers[id]);
    case Write(id, _) => assert WriterOk(d, d.writers[id]);
    case Sync(id) => assert WriterOk(d, d.writers[id]);
    case _ =>
  }

  /** At `k` the directory had just reached the disk, or been found on it, for
      the last time before `n`. */
  ghost predicate LastSaved(steps: seq<Step>, k: nat, n: nat) {
    && k <= n <= |steps|
    && (k == 0 || steps[k - 1].Checkpoint? || steps[k - 1].PowerLoss?)
    && forall i :: k <= i < n ==> !steps[i].Checkpoint? && !steps[i].PowerLoss?
  }

  lemma {:induction false} DurableSince(steps: seq<Step>, trace: seq<Disk>, k: nat, n: nat, target: nat)
    requires IsRun(steps, trace) && LastSaved(steps, k, n)
    ensures DurableRead(trace[n], target) == ReadBack(trace[k], target)
    decreases n
  {
    if k < n {
      DurableSince(steps, trace, k, n - 1, target);
      RunKeeps(steps, trace, n - 1);
      assert Follows(steps, trace, n - 1);
      DurableStays(trace[n - 1], steps[n - 1], target);
    } else if k > 0 {
      assert Follows(steps, trace, k - 1);
    }
  }

  /** Over any run, whatever was renamed, removed, killed or half written in
      between: a power loss leaves of every target exactly what it held when
      the directory last reached the disk. */
  lemma LossGoesBackToTheLastSave(steps: seq<Step>, trace: seq<Disk>, k: nat, n: nat, target: nat)
    requires IsRun(steps, trace) && n < |steps| && steps[n].PowerLoss? && LastSaved(steps, k, n)
    ensures ReadBack(trace[n + 1], target) == ReadBack(trace[k], target)
  {
    DurableSince(steps, trace, k, n, target);
    RunKeeps(steps, trace, n);
    assert Follows(steps, trace, n);
    TargetsOnlyChangeBy(trace[n], steps[n], target);
  }

  /** Without a power loss a target once there stays there. */
  lemma {:induction false} TargetStays(steps: seq<Step>, trace: seq<Disk>, m: nat, n: nat, target: nat)
    requires IsRun(steps, trace) && m <= n <= |steps| && Target(target) in trace[m].live
    requires forall i :: m <= i < n ==> !steps[i].PowerLoss?
    ensures Target(target) in trace[n].live
    decreases n
  {
    if m < n {
      TargetStays(steps, trace, m, n - 1, target);
      assert Follows(steps, trace, n - 1);
    }
  }

  /** A call that answered at `m`, having renamed its file to a target named
      after its bytes or found it there, may lose it: after a loss at `n` the
      target holds the bytes exactly when it was there at the last save, which
      it was if that came after the answer and no other loss between. */
  lemma AnAnswerSurvivesIffSaved(steps: seq<Step>, trace: seq<Disk>, m: nat, k: nat, n: nat, target: nat, bytes: Bytes)
    requires IsRun(steps, trace) && m <= n < |steps| && steps[n].PowerLoss? && LastSaved(steps, k, n)
    requires forall i :: 0 <= i < |steps| && steps[i].Begin? && steps[i].writer.target == target ==>
             steps[i].writer.bytes == bytes
    requires Target(target) in trace[m].live
    ensures ReadBack(trace[m], target) == Some(bytes)
    ensures ReadBack(trace[n + 1], target) == Some(bytes) <==> Target(target) in trace[k].live
    ensures m <= k && (forall i :: m <= i < k ==> !steps[i].PowerLoss?) ==> Target(target) in trace[k].live
  {
    SkippingAnExistingFileIsSound(steps, trace, m, target, bytes);
    LossGoesBackToTheLastSave(steps, trace, k, n, target);
    if Target(target) in trace[k].live {
      SkippingAnExistingFileIsSound(steps, trace, k, target, bytes);
    }
    if m <= k && forall i :: m <= i < k ==> !steps[i].PowerLoss? {
      TargetStays(steps, trace, m, k, target);
    }
  }

  lemma PathOneMore(steps: seq<Step>, trace: seq<Disk>, step: Step)
    requires IsPath(steps, trace) && Enabled(trace[|steps|], step)
    ensures IsPath(steps + [step], trace + [Next(trace[|steps|], step)])
  {
    var (steps', trace') := (steps + [step], trace + [Next(trace[|steps|], step)]);
    forall i | 0 <= i < |steps'|
      ensures Follows(steps', trace', i)
    {
      assert i < |steps| ==> Follows(steps, trace, i);
    }
  }

  const LOST: Writer := Writer(7, 1, 0, [1], Ready)

  /** A run in which one call began on an empty disk, and was written and
      synced under its temporary name. */
  lemma OneCallSynced() returns (steps: seq<Step>, trace: seq<Disk>)
    ensures IsRun(steps, trace) && |steps| == 4
    ensures trace[4] == Disk(map[0 := Inode([1], false)], map[TempOf(LOST) := 0], map[],
                             map[0 := LOST.(phase := Synced(0))], {(7, [1])})
  {
    steps, trace := [Begin(0, LOST)], [BLANK, Next(BLANK, Begin(0, LOST))];
    assert Follows(steps, trace, 0);
    var d1 := Disk(map[], map[], map[], map[0 := LOST], {(7, [1])});
    var d2 := Disk(map[0 := Inode([], true)], map[TempOf(LOST) := 0], map[], map[0 := LOST.(phase := Writing(0))],
                   {(7, [1])});
    assert trace[1] == d1;
    assert Next(d1, Create(0, 0)) == d2;
    PathOneMore(steps, trace, Create(0, 0));
    steps, trace := steps + [Create(0, 0)], trace + [d2];
    var d3 := d2.(inodes := map[0 := Inode([1], true)]);
    assert Next(d2, Write(0, 1)) == d3 by {
      assert LOST.bytes[..1] == [1];
    }
    PathOneMore(steps, trace, Write(0, 1));
    steps, trace := steps + [Write(0, 1)], trace + [d3];
    PathOneMore(steps, trace, Sync(0));
    steps, trace := steps + [Sync(0)], trace + [Next(d3, Sync(0))];
  }

  /** It happens: on an empty disk a call begins, is written, synced and
      renamed, and answers; power goes; the target is not there. Whoever found
      it between the two and skipped writing it has lost it as well. */
  lemma AnAnsweredStoreIsLost() returns (steps: seq<Step>, trace: seq<Disk>)
    ensures IsRun(steps, trace) && |steps| == 6
    ensures steps[4] == Rename(0) && ReadBack(trace[5], 7) == Some([1])
    ensures 0 in trace[5].writers && trace[5].writers[0].phase == Done(true)
    ensures steps[5].PowerLoss? && ReadBack(trace[6], 7) == None
  {
    steps, trace := OneCallSynced();
    var d5 := Next(trace[4], Rename(0));
    PathOneMore(steps, trace, Rename(0));
    steps, trace := steps + [Rename(0)], trace + [d5];
    PathOneMore(steps, trace, PowerLoss(map[]));
    steps, trace := steps + [PowerLoss(map[])], trace + [Next(d5, PowerLoss(map[]))];
  }

  // ---- One call, in place ----

  /** How far one call gets before the file system refuses it. */
  datatype Trouble = Nowhere | AtCreate | AtWrite(written: nat) | AtSync | AtRename

  /** `steps` lead from `d0` to `d`, by way of `trace`. */
  ghost predicate Leads(steps: seq<Step>, trace: seq<Disk>, d0: Disk, d: Disk) {
    IsPath(steps, trace) && trace[0] == d0 && trace[|steps|] == d
  }

  lemma LeadsOn(steps: seq<Step>, trace: seq<Disk>, d0: Disk, d: Disk, step: Step)
    requires Leads(steps, trace, d0, d) && Enabled(d, step)
    ensures Leads(steps + [step], trace + [Next(d, step)], d0, Next(d, step))
  {
    PathOneMore(steps, trace, step);
  }

  /** A run that reached `d0` goes on as the steps from there. */
  lemma RunGoesOn(steps: seq<Step>, trace: seq<Disk>, more: seq<Step>, rest: seq<Disk>, d: Disk)
    requires IsRun(steps, trace) && Leads(more, rest, trace[|steps|], d)
    ensures IsRun(steps + more, trace + rest[1..]) && (trace + rest[1..])[|steps + more|] == d
  {
    forall i | 0 <= i < |steps + more|
      ensures Follows(steps + more, trace + rest[1..], i)
    {
      if i < |steps| {
        assert Follows(steps, trace, i);
      } else {
        assert Follows(more, rest, i - |steps|);
      }
    }
  }

  /** Every name but `temp` has the file it had, and that is as it was. */
  ghost predicate AllButTemp(d0: Disk, d: Disk, temp: Name) {
    forall n :: n != temp ==>
      && (n in d.live <==> n in d0.live)
      && (n in d0.live ==>
            d.live[n] == d0.live[n] && Get(d.inodes, d.live[n]) == Get(d0.inodes, d0.live[n]))
  }

  function Get(inodes: map<InodeId, Inode>, i: InodeId): Option<Inode> {
    if i in inodes then Some(inodes[i]) else None
  }

  /** A call's own step before it renames its file, if it does. */
  predicate OwnStep(step: Step, id: WriterId) {
    match step
    case Create(i, _) => i == id
    case Write(i, _) => i == id
    case Sync(i) => i == id
    case Fail(i) => i == id
    case Remove(i) => i == id
    case _ => false
  }

  /** The call `id` has got from `d0` to `d` by steps of its own, and touched
      nothing but its temporary file. */
  ghost predicate Underway(steps: seq<Step>, trace: seq<Disk>, d0: Disk, d: Disk, id: WriterId) {
    && Leads(steps, trace, d0, d) && id in d0.writers && id in d.writers
    && d.writers[id] == d0.writers[id].(phase := d.writers[id].phase)
    && AllButTemp(d0, d, TempOf(d0.writers[id])) && d.durable == d0.durable
  }

  lemma OwnStepsTouchTemp(d0: Disk, d: Disk, id: WriterId, step: Step)
    requires Inv(d) && Enabled(d, step) && OwnStep(step, id) && AllButTemp(d0, d, TempOf(d.writers[id]))
    ensures AllButTemp(d0, Next(d, step), TempOf(d.writers[id]))
  {
    assert WriterOk(d, d.writers[id]);
  }

  lemma OneStepOn(steps: seq<Step>, trace: seq<Disk>, d0: Disk, d: Disk, id: WriterId, step: Step)
    requires Inv(d) && Enabled(d, step) && OwnStep(step, id) && Underway(steps, trace, d0, d, id)
    ensures Underway(steps + [step], trace + [Next(d, step)], d0, Next(d, step), id)
  {
    LeadsOn(steps, trace, d0, d, step);
    OwnStepsTouchTemp(d0, d, id, step);
  }

  /** The file system as one call works on it; `disk` is the step machine's
      disk it stands for, which other calls are on as well. */
  class FileSystem {
    var inodes: map<InodeId, Inode>
    var live: Directory
    ghost var disk: Disk

    constructor ()
      ensures Valid() && disk == BLANK
    {
      inodes, live, disk := map[], map[], BLANK;
    }

    ghost predicate Valid()
      reads this
    {
      disk.inodes == inodes && disk.live == live && Inv(disk)
    }

    method Create(ghost id: WriterId, temp: Name, unused: InodeId) returns (inode: InodeId)
      requires Valid() && Enabled(disk, Step.Create(id, unused)) && temp == TempOf(disk.writers[id])
      modifies this
      ensures Valid() && disk == Next(old(disk), Step.Create(id, unused)) && disk.writers[id].phase == Writing(inode)
    {
      CreateKeeps(disk, id, unused);
      disk := Next(disk, Step.Create(id, unused));
      if temp !in live {
        live := live[temp := unused];
      }
      inode := live[temp];
      inodes := inodes[inode := Inode([], true)];
    }

    method Write(ghost id: WriterId, inode: InodeId, bytes: Bytes)
      requires Valid() && Enabled(disk, Step.Write(id, |bytes|))
      requires disk.writers[id].phase == Writing(inode) && bytes <= disk.writers[id].bytes
      modifies this
      ensures Valid() && disk == Next(old(disk), Step.Write(id, |bytes|))
    {
      WriteKeeps(disk, id, |bytes|);
      assert disk.writers[id].bytes[..|bytes|] == bytes;
      disk := Next(disk, Step.Write(id, |bytes|));
      inodes := inodes[inode := Inode(bytes, true)];
    }

    method Sync(ghost id: WriterId, inode: InodeId)
      requires Valid() && Enabled(disk, Step.Sync(id)) && disk.writers[id].phase == Writing(inode)
      modifies this
      ensures Valid() && disk == Next(old(disk), Step.Sync(id))
    {
      SyncKeeps(disk, id);
      disk := Next(disk, Step.Sync(id));
      inodes := inodes[inode := inodes[inode].(dirty := false)];
    }

    method Rename(ghost id: WriterId, temp: Name, target: Name)
      requires Valid() && Enabled(disk, Step.Rename(id))
      requires temp == TempOf(disk.writers[id]) && target == Target(disk.writers[id].target)
      modifies this
      ensures Valid() && disk == Next(old(disk), Step.Rename(id))
    {
      RenameKeeps(disk, id);
      disk := Next(disk, Step.Rename(id));
      var inode := live[temp];
      live := (live - {temp})[target := inode];
    }

    method Remove(ghost id: WriterId, temp: Name)
      requires Valid() && Enabled(disk, Step.Remove(id)) && temp == TempOf(disk.writers[id])
      modifies this
      ensures Valid() && disk == Next(old(disk), Step.Remove(id))
    {
      RemoveKeeps(disk, id);
      disk := Next(disk, Step.Remove(id));
      live := live - {temp};
    }

    /** Create the temporary file, write it, sync it, as far as that goes. */
    method WriteTemp(ghost id: WriterId, temp: Name, bytes: Bytes, unused: InodeId, trouble: Trouble)
      returns (failed: bool, ghost steps: seq<Step>, ghost trace: seq<Disk>)
      requires Valid() && unused !in inodes && id in disk.writers && disk.writers[id].phase.Ready?
      requires temp == TempOf(disk.writers[id]) && bytes == disk.writers[id].bytes
      modifies this
      ensures Valid() && Underway(steps, trace, old(disk), disk, id)
      ensures failed == (trouble.AtCreate? || trouble.AtWrite? || trouble.AtSync?)
      ensures if failed then disk.writers[id].phase.Ready? || disk.writers[id].phase.Writing?
              else disk.writers[id].phase.Synced?
    {
      steps, trace := [], [disk];
      if trouble.AtCreate? {
        return true, steps, trace;
      }
      OneStepOn(steps, trace, disk, disk, id, Step.Create(id, unused));
      steps := steps + [Step.Create(id, unused)];
      var inode := Create(id, temp, unused);
      trace := trace + [disk];
      failed, steps, trace := Fill(id, inode, bytes, trouble, steps, trace, old(disk));
    }

    method Fill(ghost id: WriterId, inode: InodeId, bytes: Bytes, trouble: Trouble, ghost before: seq<Step>,
                ghost past: seq<Disk>, ghost d0: Disk)
      returns (failed: bool, ghost steps: seq<Step>, ghost trace: seq<Disk>)
      requires Valid() && Underway(before, past, d0, disk, id) && disk.writers[id].phase == Writing(inode)
      requires disk.inodes[inode].data == [] && bytes == disk.writers[id].bytes
      modifies this
      ensures Valid() && Underway(steps, trace, d0, disk, id)
      ensures failed == (trouble.AtWrite? || trouble.AtSync?)
      ensures if failed then disk.writers[id].phase.Writing? else disk.writers[id].phase.Synced?
    {
      var written := if trouble.AtWrite? && trouble.written < |bytes| then bytes[..trouble.written] else bytes;
      OneStepOn(before, past, d0, disk, id, Step.Write(id, |written|));
      Write(id, inode, written);
      steps, trace := before + [Step.Write(id, |written|)], past + [disk];
      failed := trouble.AtWrite? || trouble.AtSync?;
      if !failed {
        OneStepOn(steps, trace, d0, disk, id, Step.Sync(id));
        Sync(id, inode);
        steps, trace := steps + [Step.Sync(id)], trace + [disk];
      }
    }

    /** The call gives up: its temporary file goes. */
    method GiveUp(ghost id: WriterId, temp: Name, ghost before: seq<Step>, ghost past: seq<Disk>, ghost d0: Disk)
      returns (ghost steps: seq<Step>, ghost trace: seq<Disk>)
      requires Valid() && Underway(before, past, d0, disk, id) && temp == TempOf(disk.writers[id])
      requires Enabled(disk, Step.Fail(id))
      modifies this
      ensures Valid() && Underway(steps, trace, d0, disk, id)
      ensures disk.writers[id].phase == Done(false) && temp !in live
    {
      OneStepOn(before, past, d0, disk, id, Step.Fail(id));
      FailKeeps(disk, id);
      disk := Next(disk, Step.Fail(id));
      steps, trace := before + [Step.Fail(id)], past + [disk];
      OneStepOn(steps, trace, d0, disk, id, Step.Remove(id));
      Remove(id, temp);
      steps, trace := steps + [Step.Remove(id)], trace + [disk];
    }

    /** Write `bytes` to a temporary file, sync it, rename it over the target.
        Whatever goes wrong, the target is untouched and the temporary name
        is gone; no other file is ever changed. All of it is steps of the one
        call, so what is shown of runs is shown of it. */
    method WriteAtomically(ghost id: WriterId, target: nat, pid: nat, nonce: nat, bytes: Bytes, unused: InodeId,
                           trouble: Trouble)
      returns (ok: bool, ghost steps: seq<Step>, ghost trace: seq<Disk>)
      requires Valid() && unused !in inodes
      requires id in disk.writers && disk.writers[id] == Writer(target, pid, nonce, bytes, Ready)
      modifies this
      ensures Valid() && Leads(steps, trace, old(disk), disk)
      ensures id in disk.writers && disk.writers[id] == old(disk).writers[id].(phase := Done(ok))
      ensures ok == trouble.Nowhere?
      ensures ok ==> Target(target) in live && inodes[live[Target(target)]] == Inode(bytes, false)
      ensures Temp(target, pid, nonce) !in live && disk.durable == old(disk).durable
      ensures forall n :: n != Temp(target, pid, nonce) && (n != Target(target) || !ok) ==>
                (n in live <==> n in old(live)) &&
                (n in live ==> live[n] == old(live)[n] && inodes[live[n]] == old(inodes)[live[n]])
    {
      var temp := Temp(target, pid, nonce);
      var failed;
      failed, steps, trace := WriteTemp(id, temp, bytes, unused, trouble);
      if failed || trouble.AtRename? {
        steps, trace := GiveUp(id, temp, steps, trace, old(disk));
        return false, steps, trace;
      }
      assert WriterOk(disk, disk.writers[id]);
      LeadsOn(steps, trace, old(disk), disk, Step.Rename(id));
      Rename(id, temp, Target(target));
      return true, steps + [Step.Rename(id)], trace + [disk];
    }
  }
}
