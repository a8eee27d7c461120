/** Replacing the installed binaries one by one, with backups, in a directory where every command may fail. */
module UpgradeInstall {
  import opened Basics

  /** The binaries an artifact may carry, in the order of their names. */
  datatype Bin = Agentd | Exec | Upgrader

  type Content = string

  datatype FileName =
    | Installed(bin: Bin)
    | Backup(bin: Bin, version: string)
    | New(bin: Bin)
    | Rollback(bin: Bin)

  type Dir = map<FileName, Content>

  datatype Staged = Staged(bin: Bin, content: Content)

  datatype BackupRec = BackupRec(bin: Bin, version: string, existed: bool)

  /** What becomes of one external command. One that fails while writing may leave any contents behind. */
  datatype Fate = Works | Fails(left: Option<Content>)

  // ----- directory contents --------------------------------------------------------------------------

  function At(d: Dir, name: FileName): Option<Content> {
    if name in d then Some(d[name]) else None
  }

  /** What a rollback to `version` puts back: nothing where nothing was, and an older backup before a fresh one. */
  ghost function Kept(d: Dir, bin: Bin, version: string): Option<Content> {
    if Installed(bin) !in d then None
    else if Backup(bin, version) in d then Some(d[Backup(bin, version)])
    else Some(d[Installed(bin)])
  }

  /** One of the first `k` staged binaries is `bin`. */
  ghost predicate Names(staged: seq<Staged>, k: nat, bin: Bin)
    requires k <= |staged|
  {
    exists i :: 0 <= i < k && staged[i].bin == bin
  }

  ghost predicate Distinct(staged: seq<Staged>) {
    forall i, j :: 0 <= i < j < |staged| ==> staged[i].bin != staged[j].bin
  }

  ghost predicate BackedUp(backups: seq<BackupRec>, k: nat, bin: Bin)
    requires k <= |backups|
  {
    exists i :: 0 <= i < k && backups[i].bin == bin
  }

  ghost predicate DistinctBackups(backups: seq<BackupRec>) {
    forall i, j :: 0 <= i < j < |backups| ==> backups[i].bin != backups[j].bin
  }

  /** Every backup a rollback needs is there. */
  ghost predicate HasBackups(d: Dir, backups: seq<BackupRec>) {
    forall k :: 0 <= k < |backups| && backups[k].existed ==> Backup(backups[k].bin, backups[k].version) in d
  }

  /** What rolling back one replaced binary must leave in its place. */
  ghost function Target(d: Dir, b: BackupRec): Option<Content> {
    if b.existed then At(d, Backup(b.bin, b.version)) else None
  }

  /** Every installed path holds a whole file: the one before, the staged one, or the backup. */
  ghost predicate Whole(d0: Dir, version: string, staged: seq<Staged>, d: Dir) {
    forall bin: Bin ::
      || At(d, Installed(bin)) == At(d0, Installed(bin))
      || At(d, Installed(bin)) == Kept(d0, bin, version)
      || exists k :: 0 <= k < |staged| && staged[k].bin == bin && At(d, Installed(bin)) == Some(staged[k].content)
  }

  ghost predicate AllWhole(d0: Dir, version: string, staged: seq<Staged>, states: seq<Dir>) {
    forall k :: 0 <= k < |states| ==> Whole(d0, version, staged, states[k])
  }

  /** The state after the first `k` binaries were replaced. */
  ghost predicate Replaced(d0: Dir, version: string, staged: seq<Staged>, k: nat, d: Dir, backups: seq<BackupRec>)
    requires k <= |staged|
  {
    && |backups| == k
    && (forall i :: 0 <= i < k ==>
          && backups[i] == BackupRec(staged[i].bin, version, Installed(staged[i].bin) in d0)
          && At(d, Installed(staged[i].bin)) == Some(staged[i].content)
          && (backups[i].existed ==> At(d, Backup(staged[i].bin, version)) == Kept(d0, staged[i].bin, version)))
    && (forall bin: Bin :: !Names(staged, k, bin) ==> Untouched(d0, version, d, bin))
  }

  ghost predicate Untouched(d0: Dir, version: string, d: Dir, bin: Bin) {
    && At(d, Installed(bin)) == At(d0, Installed(bin))
    && At(d, Backup(bin, version)) == At(d0, Backup(bin, version))
  }

  /** Between two moments of replacing one binary, each installed path holds its file before or the new one. */
  ghost predicate Replacing(d: Dir, item: Staged, s: Dir) {
    forall bin: Bin ::
      || At(s, Installed(bin)) == At(d, Installed(bin))
      || (bin == item.bin && At(s, Installed(bin)) == Some(item.content))
  }

  /** Between two moments of a rollback, each installed path holds its file before or what the rollback puts back. */
  ghost predicate RollingBack(d: Dir, backups: seq<BackupRec>, s: Dir) {
    forall bin: Bin ::
      || At(s, Installed(bin)) == At(d, Installed(bin))
      || exists k :: 0 <= k < |backups| && backups[k].bin == bin && At(s, Installed(bin)) == Target(d, backups[k])
  }

  /** A rollback that got through the first `k` backups. */
  ghost predicate Restored(d: Dir, backups: seq<BackupRec>, k: nat, s: Dir)
    requires k <= |backups|
  {
    && (forall i :: 0 <= i < k ==> At(s, Installed(backups[i].bin)) == Target(d, backups[i]))
    && (forall bin: Bin :: !BackedUp(backups, k, bin) ==> At(s, Installed(bin)) == At(d, Installed(bin)))
    && (forall bin: Bin, v: string :: At(s, Backup(bin, v)) == At(d, Backup(bin, v)))
  }

  lemma RestoredRollsBack(d: Dir, backups: seq<BackupRec>, k: nat, s: Dir)
    requires k <= |backups| && Restored(d, backups, k, s)
    ensures RollingBack(d, backups, s)
  {
    forall bin: Bin
      ensures At(s, Installed(bin)) == At(d, Installed(bin)) ||
              exists i :: 0 <= i < |backups| && backups[i].bin == bin && At(s, Installed(bin)) == Target(d, backups[i])
    {
      if BackedUp(backups, k, bin) {
        var i :| 0 <= i < k && backups[i].bin == bin;
      }
    }
  }

  /** Between two moments of restoring one binary, its path holds its file before or what is put back. */
  ghost predicate Restoring(d: Dir, b: BackupRec, s: Dir) {
    forall bin: Bin ::
      || At(s, Installed(bin)) == At(d, Installed(bin))
      || (bin == b.bin && At(s, Installed(bin)) == Target(d, b))
  }

  lemma RestoringRollsBack(d0: Dir, backups: seq<BackupRec>, k: nat, d: Dir, s: Dir)
    requires k < |backups| && Restored(d0, backups, k, d) && Restoring(d, backups[k], s)
    ensures RollingBack(d0, backups, s)
  {
    RestoredRollsBack(d0, backups, k, d);
    assert Target(d, backups[k]) == Target(d0, backups[k]);
  }

  lemma RestoreStep(d0: Dir, backups: seq<BackupRec>, k: nat, d: Dir, d': Dir)
    requires k < |backups| && DistinctBackups(backups) && Restored(d0, backups, k, d)
    requires At(d', Installed(backups[k].bin)) == Target(d, backups[k])
    requires forall bin: Bin :: bin != backups[k].bin ==> At(d', Installed(bin)) == At(d, Installed(bin))
    requires forall bin: Bin, v: string :: At(d', Backup(bin, v)) == At(d, Backup(bin, v))
    ensures Restored(d0, backups, k + 1, d')
  {
    forall bin: Bin | !BackedUp(backups, k + 1, bin) ensures At(d', Installed(bin)) == At(d0, Installed(bin)) {
      assert !BackedUp(backups, k, bin);
    }
  }

  /** The first `k` staged binaries hold what a rollback puts back; every other path is as before. */
  ghost predicate RolledBackTo(d0: Dir, version: string, staged: seq<Staged>, k: nat, d: Dir)
    requires k <= |staged|
  {
    && (forall i :: 0 <= i < k ==> At(d, Installed(staged[i].bin)) == Kept(d0, staged[i].bin, version))
    && (forall bin: Bin :: !Names(staged, k, bin) ==> At(d, Installed(bin)) == At(d0, Installed(bin)))
  }

  /** No stale backup: where a binary and a backup of it exist, they agree. */
  ghost predicate Honest(d0: Dir, version: string, staged: seq<Staged>, k: nat)
    requires k <= |staged|
  {
    forall i :: 0 <= i < k && Installed(staged[i].bin) in d0 && Backup(staged[i].bin, version) in d0 ==>
      d0[Backup(staged[i].bin, version)] == d0[Installed(staged[i].bin)]
  }

  /** A rollback restores every installed path exactly when no stale backup was there before. */
  lemma RollbackIsExact(d0: Dir, version: string, staged: seq<Staged>, k: nat, d: Dir)
    requires k <= |staged| && RolledBackTo(d0, version, staged, k, d)
    ensures (forall bin: Bin :: At(d, Installed(bin)) == At(d0, Installed(bin))) <==> Honest(d0, version, staged, k)
  {
    if Honest(d0, version, staged, k) {
      forall bin: Bin ensures At(d, Installed(bin)) == At(d0, Installed(bin)) {
        if Names(staged, k, bin) {
          var i :| 0 <= i < k && staged[i].bin == bin;
          assert At(d, Installed(staged[i].bin)) == Kept(d0, staged[i].bin, version);
        }
      }
    }
  }

  /** While the `k`-th binary is being replaced, every installed path is whole. */
  lemma ReplacingIsWhole(d0: Dir, version: string, staged: seq<Staged>, k: nat, d: Dir, backups: seq<BackupRec>, s: Dir)
    requires k < |staged| && Replaced(d0, version, staged, k, d, backups) && Replacing(d, staged[k], s)
    ensures Whole(d0, version, staged, s)
  {
    forall bin: Bin
      ensures || At(s, Installed(bin)) == At(d0, Installed(bin))
              || At(s, Installed(bin)) == Kept(d0, bin, version)
              || exists i :: 0 <= i < |staged| && staged[i].bin == bin
                               && At(s, Installed(bin)) == Some(staged[i].content)
    {
      if Names(staged, k, bin) {
        var i :| 0 <= i < k && staged[i].bin == bin;
        assert At(d, Installed(staged[i].bin)) == Some(staged[i].content);
      }
    }
  }

  lemma ReplacedStep(d0: Dir, version: string, staged: seq<Staged>, k: nat, d: Dir, backups: seq<BackupRec>, d': Dir)
    requires k < |staged| && Distinct(staged) && Replaced(d0, version, staged, k, d, backups)
    requires At(d', Installed(staged[k].bin)) == Some(staged[k].content)
    requires Installed(staged[k].bin) in d ==> At(d', Backup(staged[k].bin, version)) == Kept(d, staged[k].bin, version)
    requires forall bin: Bin :: bin != staged[k].bin ==> Untouched(d, version, d', bin)
    ensures Installed(staged[k].bin) in d <==> Installed(staged[k].bin) in d0
    ensures Replaced(d0, version, staged, k + 1, d',
                     backups + [BackupRec(staged[k].bin, version, Installed(staged[k].bin) in d)])
  {
    assert !Names(staged, k, staged[k].bin);
    assert Untouched(d0, version, d, staged[k].bin);
    forall i | 0 <= i < k ensures Untouched(d, version, d', staged[i].bin) {
    }
    forall bin: Bin | !Names(staged, k + 1, bin) ensures Untouched(d0, version, d', bin) {
      assert !Names(staged, k, bin) && bin != staged[k].bin;
      assert Untouched(d0, version, d, bin) && Untouched(d, version, d', bin);
    }
  }

  /** What rolling back the first `k` replaced binaries puts back is what was kept of them. */
  lemma TargetIsKept(d0: Dir, version: string, staged: seq<Staged>, k: nat, d: Dir, backups: seq<BackupRec>, d': Dir,
                     i: nat)
    requires k <= |staged| && i < k && Replaced(d0, version, staged, k, d, backups)
    requires At(d', Backup(staged[i].bin, version)) == At(d, Backup(staged[i].bin, version))
    ensures backups[i].bin == staged[i].bin && Target(d', backups[i]) == Kept(d0, staged[i].bin, version)
  {
  }

  /** While an aborted installation is rolled back, every installed path is whole. */
  lemma RollingBackIsWhole(d0: Dir, version: string, staged: seq<Staged>, k: nat, d: Dir, backups: seq<BackupRec>,
                           d': Dir, s: Dir)
    requires k <= |staged| && Replaced(d0, version, staged, k, d, backups)
    requires forall bin: Bin :: At(d', Installed(bin)) == At(d, Installed(bin))
    requires forall i :: 0 <= i < k ==> At(d', Backup(staged[i].bin, version)) == At(d, Backup(staged[i].bin, version))
    requires RollingBack(d', backups, s)
    ensures Whole(d0, version, staged, s)
  {
    forall bin: Bin
      ensures || At(s, Installed(bin)) == At(d0, Installed(bin))
              || At(s, Installed(bin)) == Kept(d0, bin, version)
              || exists i :: 0 <= i < |staged| && staged[i].bin == bin
                               && At(s, Installed(bin)) == Some(staged[i].content)
    {
      if At(s, Installed(bin)) == At(d', Installed(bin)) {
        if Names(staged, k, bin) {
          var i :| 0 <= i < k && staged[i].bin == bin;
          assert At(d, Installed(staged[i].bin)) == Some(staged[i].content);
        }
      } else {
        var i :| 0 <= i < |backups| && backups[i].bin == bin && At(s, Installed(bin)) == Target(d', backups[i]);
        assert backups[i].bin == staged[i].bin;
        TargetIsKept(d0, version, staged, k, d, backups, d', i);
      }
    }
  }

  /** A completed rollback of the first `k` binaries brings every path back. */
  lemma RolledBackPart(d0: Dir, version: string, staged: seq<Staged>, k: nat, d: Dir, backups: seq<BackupRec>,
                       d': Dir, s: Dir)
    requires k <= |staged| && Distinct(staged) && Replaced(d0, version, staged, k, d, backups)
    requires forall bin: Bin :: At(d', Installed(bin)) == At(d, Installed(bin))
    requires forall i :: 0 <= i < k ==> At(d', Backup(staged[i].bin, version)) == At(d, Backup(staged[i].bin, version))
    requires Restored(d', backups, k, s)
    ensures RolledBackTo(d0, version, staged, k, s)
  {
    forall i | 0 <= i < k ensures At(s, Installed(staged[i].bin)) == Kept(d0, staged[i].bin, version) {
      TargetIsKept(d0, version, staged, k, d, backups, d', i);
    }
    forall bin: Bin | !Names(staged, k, bin) ensures At(s, Installed(bin)) == At(d0, Installed(bin)) {
      assert !BackedUp(backups, k, bin);
      assert Untouched(d0, version, d, bin);
    }
  }

  /** The backups a dry run announces. */
  ghost predicate Planned(d: Dir, version: string, staged: seq<Staged>, backups: seq<BackupRec>) {
    && |backups| == |staged|
    && forall i :: 0 <= i < |staged| ==> backups[i] == BackupRec(staged[i].bin, version, Installed(staged[i].bin) in d)
  }

  /** Which staged binary could not be replaced, and whether those before it were rolled back. */
  datatype InstallError = InstallError(at: nat, undone: bool)

  /** All commands from number `from` on up to number `to` work. */
  ghost predicate AllWork(fate: nat -> Fate, from: nat, to: nat) {
    forall n :: from <= n < to ==> fate(n).Works?
  }

  /** One command failed, and what came after it was done exactly if all of that worked. */
  ghost predicate BrokeOff(fate: nat -> Fate, from: nat, to: nat, undone: bool) {
    exists m: nat ::
      from < m <= to && AllWork(fate, from, m - 1) && !AllWork(fate, m - 1, m) && (undone <==> AllWork(fate, m, to))
  }

  class BinDir {
    var files: Dir
    var ops: nat
    const fate: nat -> Fate      // what becomes of the n-th command
    ghost var states: seq<Dir>   // every state of the directory so far, so that a crash may stop at any of them

    constructor (files: Dir, fate: nat -> Fate)
      ensures this.files == files && this.fate == fate && ops == 0 && states == [files]
    {
      this.files, this.fate, ops := files, fate, 0;
      states := [files];
    }

    /** Copies contents into a file; a failure may leave anything in it. */
    method Write(to: FileName, content: Content) returns (ok: bool)
      modifies this
      ensures ok ==> At(files, to) == Some(content)
      ensures ops == old(ops) + 1 && (ok <==> AllWork(fate, old(ops), ops))
      ensures forall n :: n != to ==> At(files, n) == At(old(files), n)
      ensures states == old(states) + [files]
    {
      var f := fate(ops);
      ok := f.Works?;
      if ok {
        files := files[to := content];
      } else if f.left.Some? {
        files := files[to := f.left.value];
      }
      ops, states := ops + 1, states + [files];
    }

    /** Renames a file, atomically replacing the target. */
    method Move(from: FileName, to: FileName) returns (ok: bool)
      requires from in files && from != to
      modifies this
      ensures ok ==> At(files, to) == At(old(files), from) && At(files, from) == None
      ensures ok ==> forall n :: n != to && n != from ==> At(files, n) == At(old(files), n)
      ensures !ok ==> files == old(files)
      ensures ops == old(ops) + 1 && (ok <==> AllWork(fate, old(ops), ops))
      ensures states == old(states) + [files]
    {
      ok := fate(ops).Works?;
      if ok {
        files := (files - {from})[to := files[from]];
      }
      ops, states := ops + 1, states + [files];
    }

    method Remove(name: FileName) returns (ok: bool)
      modifies this
      ensures At(files, name) == if ok then None else At(old(files), name)
      ensures ops == old(ops) + 1 && (ok <==> AllWork(fate, old(ops), ops))
      ensures forall n :: n != name ==> At(files, n) == At(old(files), n)
      ensures states == old(states) + [files]
    {
      ok := fate(ops).Works?;
      if ok {
        files := files - {name};
      }
      ops, states := ops + 1, states + [files];
    }

    /** Backs up one binary unless a backup exists, writes the new one next to it and renames it into place. */
    method ReplaceOne(item: Staged, version: string) returns (ok: bool)
      modifies this
      ensures ok ==> At(files, Installed(item.bin)) == Some(item.content)
      ensures ok && Installed(item.bin) in old(files) ==>
                At(files, Backup(item.bin, version)) == Kept(old(files), item.bin, version)
      ensures !ok ==> At(files, Installed(item.bin)) == At(old(files), Installed(item.bin))
      ensures old(ops) < ops && (ok <==> AllWork(fate, old(ops), ops)) && AllWork(fate, old(ops), ops - 1)
      ensures forall bin: Bin :: bin != item.bin ==> Untouched(old(files), version, files, bin)
      ensures |old(states)| <= |states| && states[..|old(states)|] == old(states)
      ensures forall k :: |old(states)| <= k < |states| ==> Replacing(old(files), item, states[k])
    {
      var installed, backup, temp := Installed(item.bin), Backup(item.bin, version), New(item.bin);
      if installed in files && backup !in files {
        ok := Write(backup, files[installed]);
        if !ok {
          return;
        }
      }
      ok := Write(temp, item.content);
      if !ok {
        return;
      }
      ok := Move(temp, installed);
    }

    method RestoreOne(b: BackupRec) returns (ok: bool)
      modifies this
      ensures At(files, Installed(b.bin)) == if ok then Target(old(files), b) else At(old(files), Installed(b.bin))
      ensures old(ops) <= ops
      ensures ok <==> AllWork(fate, old(ops), ops) && (b.existed ==> Backup(b.bin, b.version) in old(files))
      ensures forall bin: Bin :: bin != b.bin ==> At(files, Installed(bin)) == At(old(files), Installed(bin))
      ensures forall bin: Bin, v: string :: At(files, Backup(bin, v)) == At(old(files), Backup(bin, v))
      ensures |old(states)| <= |states| && states[..|old(states)|] == old(states)
      ensures forall k :: |old(states)| <= k < |states| ==> Restoring(old(files), b, states[k])
    {
      var installed, backup, temp := Installed(b.bin), Backup(b.bin, b.version), Rollback(b.bin);
      if !b.existed {
        if installed in files {
          ok := Remove(installed);
        } else {
          ok := true;
        }
        return;
      }
      if backup !in files {
        return false;
      }
      ok := Write(temp, files[backup]);
      if !ok {
        return;
      }
      ok := Move(temp, installed);
    }

    /** Puts the backups back, or removes what was not there before; the backups themselves stay. */
    method RestoreBackups(backups: seq<BackupRec>) returns (ok: bool)
      requires DistinctBackups(backups)
      modifies this
      ensures ok ==> Restored(old(files), backups, |backups|, files)
      ensures old(ops) <= ops && (ok ==> AllWork(fate, old(ops), ops))
      ensures HasBackups(old(files), backups) && AllWork(fate, old(ops), ops) ==> ok
      ensures RollingBack(old(files), backups, files)
      ensures forall bin: Bin, v: string :: At(files, Backup(bin, v)) == At(old(files), Backup(bin, v))
      ensures |old(states)| <= |states| && states[..|old(states)|] == old(states)
      ensures forall k :: |old(states)| <= k < |states| ==> RollingBack(old(files), backups, states[k])
    {
      for k := 0 to |backups|
        invariant Restored(old(files), backups, k, files)
        invariant old(ops) <= ops && AllWork(fate, old(ops), ops)
        invariant |old(states)| <= |states| && states[..|old(states)|] == old(states)
        invariant forall i :: |old(states)| <= i < |states| ==> RollingBack(old(files), backups, states[i])
      {
        ghost var d, n := files, |states|;
        ghost var was := states;
        ok := RestoreOne(backups[k]);
        forall i | |old(states)| <= i < |states| ensures RollingBack(old(files), backups, states[i]) {
          if i < n {
            assert states[i] == was[i];
          } else {
            RestoringRollsBack(old(files), backups, k, d, states[i]);
          }
        }
        assert states[..|old(states)|] == was[..|old(states)|];
        if !ok {
          var kept := Backup(backups[k].bin, backups[k].version);
          assert At(d, kept) == At(old(files), kept);
          RestoredRollsBack(old(files), backups, k, d);
          return;
        }
        RestoreStep(old(files), backups, k, d, files);
      }
      ok := true;
      RestoredRollsBack(old(files), backups, |backups|, files);
    }

    /**
     Replaces all staged binaries. If one cannot be replaced, those already replaced are rolled back; the error
     says whether that worked.
     */
    method InstallBinaries(staged: seq<Staged>, version: string, dryRun: bool)
      returns (r: Result<seq<BackupRec>, InstallError>)
      requires Distinct(staged)
      modifies this
      ensures dryRun ==>
                r.Ok? && files == old(files) && states == old(states) && Planned(files, version, staged, r.value)
      ensures !dryRun && r.Ok? ==> Replaced(old(files), version, staged, |staged|, files, r.value)
      ensures r.Err? ==> r.error.at < |staged|
      ensures old(ops) <= ops && (r.Ok? <==> AllWork(fate, old(ops), ops))
      ensures r.Err? && r.error.undone ==> RolledBackTo(old(files), version, staged, r.error.at, files)
      ensures r.Err? ==> BrokeOff(fate, old(ops), ops, r.error.undone)
      ensures |old(states)| <= |states| && states[..|old(states)|] == old(states)
      ensures AllWhole(old(files), version, staged, states[|old(states)|..])
    {
      var backups := [];
      if dryRun {
        for k := 0 to |staged|
          invariant Planned(files, version, staged[..k], backups)
        {
          backups := backups + [BackupRec(staged[k].bin, version, Installed(staged[k].bin) in files)];
        }
        assert staged[..|staged|] == staged;
        return Ok(backups);
      }
      for k := 0 to |staged|
        invariant Replaced(old(files), version, staged, k, files, backups)
        invariant old(ops) <= ops && AllWork(fate, old(ops), ops)
        invariant |old(states)| <= |states| && states[..|old(states)|] == old(states)
        invariant AllWhole(old(files), version, staged, states[|old(states)|..])
      {
        var item := staged[k];
        var existed := Installed(item.bin) in files;
        ghost var d, was := files, states;
        var ok := ReplaceOne(item, version);
        forall i | |old(states)| <= i < |states| ensures Whole(old(files), version, staged, states[i]) {
          if i < |was| {
            assert states[i] == was[i] == was[|old(states)|..][i - |old(states)|];
          } else {
            ReplacingIsWhole(old(files), version, staged, k, d, backups, states[i]);
          }
        }
        assert states[..|old(states)|] == was[..|old(states)|];
        if !ok {
          ghost var d', was' := files, states;
          forall bin: Bin ensures At(d', Installed(bin)) == At(d, Installed(bin)) {
            assert bin == item.bin || Untouched(d, version, d', bin);
          }
          forall i | 0 <= i < k
            ensures At(d', Backup(staged[i].bin, version)) == At(d, Backup(staged[i].bin, version))
          {
            assert Untouched(d, version, d', staged[i].bin);
          }
          forall i | 0 <= i < k && backups[i].existed ensures Backup(backups[i].bin, backups[i].version) in d' {
            assert At(d, Backup(staged[i].bin, version)) == Kept(old(files), staged[i].bin, version);
          }
          ghost var m := ops;
          var undone := RestoreBackups(backups);
          forall i | |old(states)| <= i < |states| ensures Whole(old(files), version, staged, states[i]) {
            if i < |was'| {
              assert states[i] == was'[i];
            } else {
              RollingBackIsWhole(old(files), version, staged, k, d, backups, d', states[i]);
            }
          }
          assert states[..|old(states)|] == was'[..|old(states)|];
          if undone {
            RolledBackPart(old(files), version, staged, k, d, backups, d', files);
          }
          assert AllWork(fate, old(ops), m - 1) && !AllWork(fate, m - 1, m);
          return Err(InstallError(k, undone));
        }
        ReplacedStep(old(files), version, staged, k, d, backups, files);
        backups := backups + [BackupRec(item.bin, version, existed)];
      }
      r := Ok(backups);
    }
  }
}
