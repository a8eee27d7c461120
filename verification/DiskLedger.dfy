/**
 The ghost ledger of a walk: which directories are known, which entries have been taken in,
 and which work is still owed. Everything the walker reports is a sum over this ledger, and the
 central invariant (`Balanced`) says that, for every known directory, what was taken in plus what
 is still owed is what a recursive `du` of that directory yields.
 */
module DiskLedger {
  import opened Basics
  import opened DiskTally

  /** A directory of the arena. `above` holds its own id and those of all its ancestors. */
  datatype Spot = Spot(parent: nat, path: Path, depth: nat, bucket: nat, above: set<nat>)

  ghost predicate SpotOk(shape: seq<Spot>, i: nat)
    requires i < |shape|
  {
    var s := shape[i];
    && (forall n :: n in s.above ==> n <= i)
    && 0 in s.above
    && if i == 0 then
         s.parent == 0 && s.depth == 0 && s.bucket == 0 && s.above == {0}
       else
         && s.parent < i
         && s.depth == shape[s.parent].depth + 1
         && |s.path| == |shape[s.parent].path| + 1 && shape[s.parent].path <= s.path
         && s.above == shape[s.parent].above + {i}
         && (if s.parent == 0 then s.bucket >= 1 else s.bucket == shape[s.parent].bucket)
  }

  /** `i` is a directory directly below the scan root. */
  ghost predicate TopLevel(shape: seq<Spot>, i: nat) {
    0 < i < |shape| && shape[i].parent == 0
  }

  ghost predicate TreeOk(shape: seq<Spot>) {
    && |shape| >= 1
    && (forall i :: 0 <= i < |shape| ==> SpotOk(shape, i))
    && (forall i: nat, j: nat {:trigger TopLevel(shape, i), TopLevel(shape, j)} ::
          i < j && TopLevel(shape, i) && TopLevel(shape, j) ==> shape[i].bucket < shape[j].bucket)
  }

  /** What one directory entry turned into. */
  datatype Item =
    | FileItem(path: Path, inode: Option<Inode>, size: nat)
    | DirItem(path: Path)
    | LimitedDirItem(path: Path)
    | LinkItem
    | ForeignItem
    | UnreadableItem
    | SpecialItem
    | ClosedItem // no entry: a directory that could not be opened

  ghost function ItemWorth(what: Measure, item: Item): nat {
    match item
    case FileItem(path, inode, size) => FileWorth(what, path, inode, size)
    case DirItem(path) => DirWorth(what, path)
    case LimitedDirItem(path) => DirWorth(what, path) + Unit(what, DepthLimited)
    case LinkItem => EntryUnit(what, Symlinks)
    case ForeignItem => EntryUnit(what, ForeignEntries)
    case UnreadableItem => EntryUnit(what, UnreadableEntries)
    case SpecialItem => Unit(what, Entries)
    case ClosedItem => Unit(what, UnreadableEntries)
  }

  datatype Rec = Rec(at: Spot, item: Item)

  /** The records of a run, the latest one outermost. */
  datatype Log = Blank | Add(prev: Log, last: Rec)

  /** Work still owed: a directory to open, one being read, or one that will never be opened. */
  datatype Work =
    | Open(at: Spot)
    | Reading(at: Spot, rest: seq<Entry>)
    | Skipped(at: Spot, name: string)

  ghost function WorkWorth(sc: Scope, w: Work): nat {
    match w
    case Open(at) => Du(sc, at.path, at.depth)
    case Reading(at, rest) => DuEntries(sc, at.path, at.depth, rest)
    case Skipped(at, name) => Inside(sc, at.path, at.depth, name)
  }

  ghost predicate LogOk(shape: seq<Spot>, log: Log) {
    log.Add? ==> LogOk(shape, log.prev) && log.last.at in shape
  }

  lemma LogOkExtend(shape: seq<Spot>, shape': seq<Spot>, log: Log)
    requires LogOk(shape, log) && shape <= shape'
    ensures LogOk(shape', log)
  {
  }

  ghost predicate WorkOk(shape: seq<Spot>, work: seq<Work>) {
    forall k :: 0 <= k < |work| ==> work[k].at in shape
  }

  ghost function Last<T>(s: seq<T>): T
    requires s != []
  {
    s[|s| - 1]
  }

  ghost function Front<T>(s: seq<T>): seq<T>
    requires s != []
  {
    s[..|s| - 1]
  }

  /** Everything taken in below directory `n`. */
  ghost function Acc(what: Measure, log: Log, n: nat): nat {
    if log.Blank? then 0 else
      Acc(what, log.prev, n) + (if n in log.last.at.above then ItemWorth(what, log.last.item) else 0)
  }

  /** Everything still owed below directory `n`. */
  ghost function Pend(sc: Scope, work: seq<Work>, n: nat): nat {
    if work == [] then 0 else
      Pend(sc, Front(work), n) + (if n in Last(work).at.above then WorkWorth(sc, Last(work)) else 0)
  }

  /** What `du` finds in an arena directory; one past the depth limit is never opened. */
  ghost function Need(sc: Scope, s: Spot): nat {
    if s.depth <= sc.maxDepth then Du(sc, s.path, s.depth) else 0
  }

  ghost predicate BalancedAt(sc: Scope, shape: seq<Spot>, log: Log, lost: seq<Work>, work: seq<Work>, n: nat)
    requires n < |shape|
  {
    Acc(sc.what, log, n) + Pend(sc, lost, n) + Pend(sc, work, n) == Need(sc, shape[n])
  }

  ghost predicate Balanced(sc: Scope, shape: seq<Spot>, log: Log, lost: seq<Work>, work: seq<Work>) {
    && WorkOk(shape, work)
    && WorkOk(shape, lost)
    && forall n :: 0 <= n < |shape| ==> BalancedAt(sc, shape, log, lost, work, n)
  }

  lemma PendAppend(sc: Scope, work: seq<Work>, w: Work, n: nat)
    ensures Pend(sc, work + [w], n) == Pend(sc, work, n) + (if n in w.at.above then WorkWorth(sc, w) else 0)
  {
    assert Front(work + [w]) == work;
  }

  lemma {:induction false} PendConcat(sc: Scope, a: seq<Work>, b: seq<Work>, n: nat)
    ensures Pend(sc, a + b, n) == Pend(sc, a, n) + Pend(sc, b, n)
  {
    if b == [] {
      assert a + b == a;
    } else {
      PendConcat(sc, a, Front(b), n);
      assert a + b == (a + Front(b)) + [Last(b)];
      PendAppend(sc, a + Front(b), Last(b), n);
    }
  }

  lemma InTree(shape: seq<Spot>, s: Spot)
    requires TreeOk(shape) && s in shape
    ensures 0 in s.above && forall n :: n in s.above ==> n < |shape|
  {
    var m :| 0 <= m < |shape| && shape[m] == s;
    assert SpotOk(shape, m);
  }

  /** A directory that is not in the arena yet owns nothing. */
  lemma {:induction false} AccFresh(what: Measure, shape: seq<Spot>, log: Log, n: nat)
    requires TreeOk(shape) && LogOk(shape, log) && n >= |shape|
    ensures Acc(what, log, n) == 0
  {
    if log.Add? {
      AccFresh(what, shape, log.prev, n);
      InTree(shape, log.last.at);
    }
  }

  lemma {:induction false} PendFresh(sc: Scope, shape: seq<Spot>, work: seq<Work>, n: nat)
    requires TreeOk(shape) && WorkOk(shape, work) && n >= |shape|
    ensures Pend(sc, work, n) == 0
  {
    if work != [] {
      PendFresh(sc, shape, Front(work), n);
      InTree(shape, Last(work).at);
    }
  }

  lemma WorkOkConcat(shape: seq<Spot>, a: seq<Work>, b: seq<Work>)
    ensures WorkOk(shape, a + b) <==> WorkOk(shape, a) && WorkOk(shape, b)
  {
    if WorkOk(shape, a + b) {
      assert forall k :: 0 <= k < |a| ==> a[k] == (a + b)[k];
      assert forall k :: 0 <= k < |b| ==> b[k] == (a + b)[|a| + k];
    }
  }

  /** The worth of a handful of work below one and the same directory. */
  ghost function Sum(sc: Scope, work: seq<Work>): nat {
    if work == [] then 0 else Sum(sc, Front(work)) + WorkWorth(sc, Last(work))
  }

  lemma {:induction false} PendSum(sc: Scope, base: seq<Work>, more: seq<Work>, at: Spot, n: nat)
    requires forall x :: x in more ==> (n in x.at.above <==> n in at.above)
    ensures Pend(sc, base + more, n) == Pend(sc, base, n) + (if n in at.above then Sum(sc, more) else 0)
  {
    if more == [] {
      assert base + more == base;
    } else {
      PendSum(sc, base, Front(more), at, n);
      assert base + more == (base + Front(more)) + [Last(more)];
      PendAppend(sc, base + Front(more), Last(more), n);
    }
  }

  /**
   One step of the ledger, seen from directory `n`: the last piece of work `w` becomes records, work that is
   given up and work that goes on, all worth the same and all below the same directories.
   */
  lemma StepAt(sc: Scope, log: Log, lost: seq<Work>, base: seq<Work>, w: Work,
               item: Item, skip: seq<Work>, keep: seq<Work>, n: nat)
    requires forall x :: x in skip || x in keep ==> (n in x.at.above <==> n in w.at.above)
    requires WorkWorth(sc, w) == ItemWorth(sc.what, item) + Sum(sc, skip) + Sum(sc, keep)
    ensures Acc(sc.what, Add(log, Rec(w.at, item)), n) + Pend(sc, lost + skip, n) + Pend(sc, base + keep, n)
         == Acc(sc.what, log, n) + Pend(sc, lost, n) + Pend(sc, base + [w], n)
  {
    PendAppend(sc, base, w, n);
    PendSum(sc, lost, skip, w.at, n);
    PendSum(sc, base, keep, w.at, n);
  }

  lemma Step(sc: Scope, shape: seq<Spot>, log: Log, lost: seq<Work>, base: seq<Work>, w: Work,
             item: Item, skip: seq<Work>, keep: seq<Work>)
    requires Balanced(sc, shape, log, lost, base + [w])
    requires forall x :: x in skip || x in keep ==> x.at == w.at
    requires WorkWorth(sc, w) == ItemWorth(sc.what, item) + Sum(sc, skip) + Sum(sc, keep)
    ensures Balanced(sc, shape, Add(log, Rec(w.at, item)), lost + skip, base + keep)
  {
    WorkOkConcat(shape, base, [w]);
    WorkOkConcat(shape, base, keep);
    WorkOkConcat(shape, lost, skip);
    assert [w][0].at in shape;
    forall n | 0 <= n < |shape| ensures BalancedAt(sc, shape, Add(log, Rec(w.at, item)), lost + skip, base + keep, n) {
      assert BalancedAt(sc, shape, log, lost, base + [w], n);
      StepAt(sc, log, lost, base, w, item, skip, keep, n);
    }
  }

  /** A directory that opens is read from its first entry; one that does not is noted as closed. */
  lemma OpenDir(sc: Scope, shape: seq<Spot>, log: Log, lost: seq<Work>, base: seq<Work>, at: Spot)
    requires Balanced(sc, shape, log, lost, base + [Open(at)])
    ensures if at.path in sc.fs then Balanced(sc, shape, log, lost, base + [Reading(at, sc.fs[at.path])])
            else Balanced(sc, shape, Add(log, Rec(at, ClosedItem)), lost, base)
  {
    var w := Open(at);
    if at.path in sc.fs {
      var w' := Reading(at, sc.fs[at.path]);
      WorkOkConcat(shape, base, [w]);
      WorkOkConcat(shape, base, [w']);
      assert [w][0].at in shape;
      forall n | 0 <= n < |shape| ensures BalancedAt(sc, shape, log, lost, base + [w'], n) {
        assert BalancedAt(sc, shape, log, lost, base + [w], n);
        PendAppend(sc, base, w, n);
        PendAppend(sc, base, w', n);
      }
    } else {
      Step(sc, shape, log, lost, base, w, ClosedItem, [], []);
      assert lost + [] == lost && base + [] == base;
    }
  }

  /** A directory that has been read to its end owes nothing. */
  lemma CloseDir(sc: Scope, shape: seq<Spot>, log: Log, lost: seq<Work>, base: seq<Work>, at: Spot)
    requires Balanced(sc, shape, log, lost, base + [Reading(at, [])])
    ensures Balanced(sc, shape, log, lost, base)
  {
    WorkOkConcat(shape, base, [Reading(at, [])]);
    forall n | 0 <= n < |shape| ensures BalancedAt(sc, shape, log, lost, base, n) {
      assert BalancedAt(sc, shape, log, lost, base + [Reading(at, [])], n);
      PendAppend(sc, base, Reading(at, []), n);
    }
  }

  /** One entry of the directory being read is taken in completely. */
  lemma TakeEntry(sc: Scope, shape: seq<Spot>, log: Log, lost: seq<Work>, base: seq<Work>,
                  at: Spot, entries: seq<Entry>, item: Item)
    requires entries != []
    requires Balanced(sc, shape, log, lost, base + [Reading(at, entries)])
    requires ItemWorth(sc.what, item) == DuEntry(sc, at.path, at.depth, entries[0])
    ensures Balanced(sc, shape, Add(log, Rec(at, item)), lost, base + [Reading(at, entries[1..])])
  {
    var keep := [Reading(at, entries[1..])];
    SumAppend(sc, [], keep[0]);
    Step(sc, shape, log, lost, base, Reading(at, entries), item, [], keep);
    assert lost + [] == lost;
  }

  lemma DirEntryWorth(sc: Scope, at: Spot, entries: seq<Entry>)
    requires entries != [] && entries[0].SubDir?
    ensures WorkWorth(sc, Reading(at, entries))
         == DirWorth(sc.what, at.path + [entries[0].name]) + Inside(sc, at.path, at.depth, entries[0].name)
            + WorkWorth(sc, Reading(at, entries[1..]))
  {
    assert DuEntry(sc, at.path, at.depth, entries[0])
        == DirWorth(sc.what, at.path + [entries[0].name]) + Inside(sc, at.path, at.depth, entries[0].name);
  }

  lemma SumAppend(sc: Scope, work: seq<Work>, w: Work)
    ensures Sum(sc, work + [w]) == Sum(sc, work) + WorkWorth(sc, w)
    ensures Sum(sc, [w]) == WorkWorth(sc, w)
  {
    assert Front(work + [w]) == work && Front([w]) == [];
  }

  /** A subdirectory entry is counted, and its inside moves to `lost`. */
  lemma SkipDir(sc: Scope, shape: seq<Spot>, log: Log, lost: seq<Work>, base: seq<Work>,
                at: Spot, entries: seq<Entry>)
    requires entries != [] && entries[0].SubDir?
    requires Balanced(sc, shape, log, lost, base + [Reading(at, entries)])
    ensures Balanced(sc, shape, Add(log, Rec(at, DirItem(at.path + [entries[0].name]))),
                     lost + [Skipped(at, entries[0].name)],
                     base + [Reading(at, entries[1..])])
  {
    var skip, keep := [Skipped(at, entries[0].name)], [Reading(at, entries[1..])];
    SumAppend(sc, [], skip[0]);
    SumAppend(sc, [], keep[0]);
    DirEntryWorth(sc, at, entries);
    Step(sc, shape, log, lost, base, Reading(at, entries), DirItem(at.path + [entries[0].name]), skip, keep);
  }

  /** The arena spot of a new subdirectory of `at` (arena id `id`). */
  ghost function ChildSpot(id: nat, at: Spot, atId: nat, name: string, bucket: nat): Spot {
    Spot(atId, at.path + [name], at.depth + 1, bucket, at.above + {id})
  }

  lemma TreeExtend(shape: seq<Spot>, atId: nat, name: string, bucket: nat)
    requires TreeOk(shape) && atId < |shape|
    requires if atId == 0 then bucket >= 1 && forall i: nat :: TopLevel(shape, i) ==> shape[i].bucket < bucket
             else bucket == shape[atId].bucket
    ensures TreeOk(shape + [ChildSpot(|shape|, shape[atId], atId, name, bucket)])
  {
    var shape' := shape + [ChildSpot(|shape|, shape[atId], atId, name, bucket)];
    forall i | 0 <= i < |shape'| ensures SpotOk(shape', i) {
      if i < |shape| { assert SpotOk(shape, i); } else { assert SpotOk(shape, atId); }
    }
    forall i: nat, j: nat | i < j && TopLevel(shape', i) && TopLevel(shape', j)
      ensures shape'[i].bucket < shape'[j].bucket
    {
      assert TopLevel(shape, i);
      if j < |shape| { assert TopLevel(shape, j); }
    }
  }

  /** What a subdirectory entry is worth: its record, the opening of its node unless it is cut off, and the rest. */
  lemma AddWorth(sc: Scope, at: Spot, entries: seq<Entry>, spot: Spot, item: Item, add: seq<Work>)
    requires entries != [] && entries[0].SubDir?
    requires spot.path == at.path + [entries[0].name] && spot.depth == at.depth + 1
    requires if at.depth < sc.maxDepth then item == DirItem(spot.path) && add == [Open(spot)]
             else item == LimitedDirItem(spot.path) && add == []
    ensures WorkWorth(sc, Reading(at, entries))
         == ItemWorth(sc.what, item) + Sum(sc, add + [Reading(at, entries[1..])])
  {
    SumAppend(sc, add, Reading(at, entries[1..]));
    SumAppend(sc, [], Open(spot));
    DirEntryWorth(sc, at, entries);
  }

  lemma AddWorkOk(shape: seq<Spot>, shape': seq<Spot>, base: seq<Work>, w: Work, keep: seq<Work>)
    requires shape <= shape' && WorkOk(shape, base + [w]) && forall x :: x in keep ==> x.at in shape'
    ensures WorkOk(shape, base) && WorkOk(shape', base + keep)
  {
    WorkOkConcat(shape, base, [w]);
    WorkOkConcat(shape', base, keep);
  }

  /** A known directory sees only that the work went on. */
  lemma AddBelow(sc: Scope, shape: seq<Spot>, shape': seq<Spot>, log: Log, lost: seq<Work>, base: seq<Work>, w: Work,
                 item: Item, keep: seq<Work>, n: nat)
    requires n < |shape| && shape <= shape' && BalancedAt(sc, shape, log, lost, base + [w], n)
    requires forall x :: x in keep ==> (n in x.at.above <==> n in w.at.above)
    requires WorkWorth(sc, w) == ItemWorth(sc.what, item) + Sum(sc, keep)
    ensures BalancedAt(sc, shape', Add(log, Rec(w.at, item)), lost, base + keep, n)
  {
    StepAt(sc, log, lost, base, w, item, [], keep, n);
    assert lost + [] == lost;
  }

  /** A subdirectory entry becomes a new arena node: opened later, or cut off at the depth limit. */
  lemma AddDir(sc: Scope, shape: seq<Spot>, log: Log, lost: seq<Work>, base: seq<Work>,
               atId: nat, entries: seq<Entry>, spot: Spot, item: Item, add: seq<Work>)
    requires TreeOk(shape) && LogOk(shape, log) && atId < |shape|
    requires entries != [] && entries[0].SubDir?
    requires spot == ChildSpot(|shape|, shape[atId], atId, entries[0].name, spot.bucket)
    requires if shape[atId].depth < sc.maxDepth then item == DirItem(spot.path) && add == [Open(spot)]
             else item == LimitedDirItem(spot.path) && add == []
    requires Balanced(sc, shape, log, lost, base + [Reading(shape[atId], entries)])
    ensures Balanced(sc, shape + [spot], Add(log, Rec(shape[atId], item)), lost,
                     base + add + [Reading(shape[atId], entries[1..])])
  {
    var at := shape[atId];
    var shape' := shape + [spot];
    var w, w' := Reading(at, entries), Reading(at, entries[1..]);
    var keep := add + [w'];
    assert base + add + [w'] == base + keep;
    AddWorth(sc, at, entries, spot, item, add);
    AddKeeps(shape, atId, spot, add, w');
    AddWorkOk(shape, shape', base, w, keep);
    forall n | 0 <= n < |shape'| ensures BalancedAt(sc, shape', Add(log, Rec(at, item)), lost, base + keep, n) {
      if n < |shape| {
        assert BalancedAt(sc, shape, log, lost, base + [w], n);
        AddBelow(sc, shape, shape', log, lost, base, w, item, keep, n);
      } else {
        AddedDir(sc, shape, log, lost, base, atId, spot, item, add, w');
      }
    }
  }

  /** Where the work that goes on is owed: below the same known directories as before. */
  lemma AddKeeps(shape: seq<Spot>, atId: nat, spot: Spot, add: seq<Work>, w': Work)
    requires atId < |shape| && spot.above == shape[atId].above + {|shape|}
    requires (add == [Open(spot)] || add == []) && w'.at == shape[atId]
    ensures forall x :: x in add + [w'] ==> x.at in shape + [spot]
    ensures forall x, n :: x in add + [w'] && 0 <= n < |shape| ==> (n in x.at.above <==> n in shape[atId].above)
  {
    assert (shape + [spot])[|shape|] == spot && (shape + [spot])[atId] == shape[atId];
  }

  /** The new node itself owes exactly its own opening, if it is to be opened at all. */
  lemma AddedDir(sc: Scope, shape: seq<Spot>, log: Log, lost: seq<Work>, base: seq<Work>,
                 atId: nat, spot: Spot, item: Item, add: seq<Work>, w': Work)
    requires TreeOk(shape) && LogOk(shape, log) && WorkOk(shape, lost) && WorkOk(shape, base) && atId < |shape|
    requires |shape| in spot.above && spot.depth == shape[atId].depth + 1 && w'.at == shape[atId]
    requires if shape[atId].depth < sc.maxDepth then add == [Open(spot)] else add == []
    ensures BalancedAt(sc, shape + [spot], Add(log, Rec(shape[atId], item)), lost, base + (add + [w']), |shape|)
  {
    var n := |shape|;
    InTree(shape, shape[atId]);
    AccFresh(sc.what, shape, log, n);
    PendFresh(sc, shape, lost, n);
    PendFresh(sc, shape, base, n);
    PendConcat(sc, base, add + [w'], n);
    AddedPend(sc, spot, add, w', n);
    assert (shape + [spot])[n] == spot;
  }

  lemma AddedPend(sc: Scope, spot: Spot, add: seq<Work>, w': Work, n: nat)
    requires n in spot.above && n !in w'.at.above && (add == [Open(spot)] || add == [])
    ensures Pend(sc, add + [w'], n) == if add == [] then 0 else Du(sc, spot.path, spot.depth)
  {
    PendAppend(sc, add, w', n);
    if add != [] {
      PendAppend(sc, [], Open(spot), n);
      assert [] + [Open(spot)] == [Open(spot)];
    }
  }

  /** Whatever the run was cut short by, the ledger never exceeds `du`; with nothing owed it equals it. */
  lemma BalancedBound(sc: Scope, shape: seq<Spot>, log: Log, lost: seq<Work>, work: seq<Work>, n: nat)
    requires Balanced(sc, shape, log, lost, work) && n < |shape|
    ensures Acc(sc.what, log, n) <= Need(sc, shape[n])
    ensures lost == [] && work == [] ==> Acc(sc.what, log, n) == Need(sc, shape[n])
  {
    assert BalancedAt(sc, shape, log, lost, work, n);
  }

  // ----- what is counted -----------------------------------------------------------------------

  ghost function Seen(log: Log): set<Inode> {
    if log.Blank? then {} else
      Seen(log.prev) +
      (if log.last.item.FileItem? && log.last.item.inode.Some? then {log.last.item.inode.value} else {})
  }

  /** A file counts unless an earlier record already counted its inode. */
  ghost predicate Counts(before: Log, item: Item) {
    item.FileItem? && (item.inode.None? || item.inode.value !in Seen(before))
  }

  /** Bytes counted below directory `n`. */
  ghost function Counted(log: Log, n: nat): nat {
    if log.Blank? then 0 else
      Counted(log.prev, n) +
      (if n in log.last.at.above && Counts(log.prev, log.last.item) then log.last.item.size else 0)
  }

  /** Bytes of further names of inodes that were already counted. */
  ghost function Deduped(log: Log): nat {
    if log.Blank? then 0 else
      Deduped(log.prev) +
      (if log.last.item.FileItem? && !Counts(log.prev, log.last.item) then log.last.item.size else 0)
  }

  /** Bytes counted in top-level bucket `b`; bucket 0 holds the files directly in the scan root. */
  ghost function BucketSum(log: Log, b: nat): nat {
    if log.Blank? then 0 else
      BucketSum(log.prev, b) +
      (if log.last.at.bucket == b && Counts(log.prev, log.last.item) then log.last.item.size else 0)
  }

  /** The counted files of at least `least` bytes, in the order they were met. */
  ghost function Eligible(log: Log, least: nat): seq<(nat, Path)> {
    if log.Blank? then [] else
      Eligible(log.prev, least) +
      (if Counts(log.prev, log.last.item) && log.last.item.size >= least
       then [(log.last.item.size, log.last.item.path)] else [])
  }

  /** The inodes whose bytes were counted below directory `n`. */
  ghost function Owned(log: Log, n: nat): set<Inode> {
    if log.Blank? then {} else
      Owned(log.prev, n) +
      (if n in log.last.at.above && Counts(log.prev, log.last.item) && log.last.item.inode.Some?
       then {log.last.item.inode.value} else {})
  }

  /** Counted bytes and deduplicated bytes together are the bytes of all names. */
  lemma {:induction false} DedupConserves(shape: seq<Spot>, log: Log)
    requires TreeOk(shape) && LogOk(shape, log)
    ensures Counted(log, 0) + Deduped(log) == Acc(Bytes, log, 0)
  {
    if log.Add? {
      DedupConserves(shape, log.prev);
      InTree(shape, log.last.at);
    }
  }

  ghost predicate SizesAgree(log: Log, sizeOf: Inode -> nat) {
    log.Add? ==>
      && SizesAgree(log.prev, sizeOf)
      && (log.last.item.FileItem? && log.last.item.inode.Some? ==>
            log.last.item.size == sizeOf(log.last.item.inode.value))
  }

  lemma {:induction false} CountedSplit(log: Log, n: nat, sizeOf: Inode -> nat)
    requires SizesAgree(log, sizeOf)
    ensures Counted(log, n) == Acc(PlainBytes, log, n) + SumSizes(Owned(log, n), sizeOf)
    ensures Owned(log, n) <= Seen(log)
  {
    if log.Add? {
      var f, r := log.prev, log.last;
      CountedSplit(f, n, sizeOf);
      if n in r.at.above && Counts(f, r.item) && r.item.inode.Some? {
        SumSizesAdd(Owned(f, n), r.item.inode.value, sizeOf);
      } else {
        assert Owned(log, n) == Owned(f, n);
      }
    }
  }

  /** An inode is seen exactly when it has a name; below `n` it has no more names, and is owned only if it has one. */
  lemma {:induction false} NamesBelowRoot(shape: seq<Spot>, log: Log, n: nat, i: Inode)
    requires TreeOk(shape) && LogOk(shape, log)
    ensures Acc(Names(i), log, n) <= Acc(Names(i), log, 0)
    ensures i in Seen(log) <==> Acc(Names(i), log, 0) > 0
    ensures i in Owned(log, n) ==> Acc(Names(i), log, n) > 0
  {
    if log.Add? {
      NamesBelowRoot(shape, log.prev, n, i);
      InTree(shape, log.last.at);
    }
  }

  /** An inode all of whose names lie below `n` is counted below `n`. */
  lemma {:induction false} OwnsInner(shape: seq<Spot>, log: Log, n: nat, i: Inode)
    requires TreeOk(shape) && LogOk(shape, log)
    requires Acc(Names(i), log, n) > 0 && Acc(Names(i), log, n) == Acc(Names(i), log, 0)
    ensures i in Owned(log, n)
  {
    if log.Add? {
      InTree(shape, log.last.at);
      NamesBelowRoot(shape, log.prev, n, i);
      if Acc(Names(i), log.prev, n) > 0 {
        OwnsInner(shape, log.prev, n, i);
      }
    }
  }

  /** The counted bytes are those of `inodes` with every inode once, if no link leaves directory `n`. */
  lemma CountedIsDistinct(shape: seq<Spot>, log: Log, n: nat, sizeOf: Inode -> nat, inodes: set<Inode>)
    requires TreeOk(shape) && LogOk(shape, log) && SizesAgree(log, sizeOf)
    requires forall i :: i in inodes <==> Acc(Names(i), log, n) > 0
    requires forall i :: i in inodes ==> Acc(Names(i), log, n) == Acc(Names(i), log, 0)
    ensures Counted(log, n) == Acc(PlainBytes, log, n) + SumSizes(inodes, sizeOf)
  {
    CountedSplit(log, n, sizeOf);
    forall i ensures i in inodes <==> i in Owned(log, n) {
      NamesBelowRoot(shape, log, n, i);
      if i in inodes { OwnsInner(shape, log, n, i); }
    }
    assert Owned(log, n) == inodes;
  }

  // ----- the arena as a tree -------------------------------------------------------------------

  lemma {:induction false} ParentAbove(shape: seq<Spot>, a: nat, m: nat)
    requires TreeOk(shape) && 0 < a < |shape| && m < |shape| && a in shape[m].above
    ensures shape[a].parent in shape[m].above
    decreases m
  {
    assert SpotOk(shape, m) && SpotOk(shape, a);
    if m == a {
      assert SpotOk(shape, shape[a].parent);
      SelfAbove(shape, shape[a].parent);
    } else {
      ParentAbove(shape, a, shape[m].parent);
    }
  }

  lemma SelfAbove(shape: seq<Spot>, m: nat)
    requires TreeOk(shape) && m < |shape|
    ensures m in shape[m].above
  {
    assert SpotOk(shape, m);
  }

  lemma {:induction false} SiblingsDisjoint(shape: seq<Spot>, a: nat, b: nat, m: nat)
    requires TreeOk(shape) && 0 < a < |shape| && 0 < b < |shape| && m < |shape|
    requires a != b && shape[a].parent == shape[b].parent
    ensures !(a in shape[m].above && b in shape[m].above)
    decreases m
  {
    assert SpotOk(shape, m) && SpotOk(shape, a) && SpotOk(shape, b);
    assert SpotOk(shape, shape[a].parent);
    if m != 0 && m != a && m != b {
      SiblingsDisjoint(shape, a, b, shape[m].parent);
    }
  }

  /** Two siblings together never exceed their parent, nor does one child alone. */
  lemma {:induction false} ChildrenFit(shape: seq<Spot>, log: Log, a: nat, b: nat)
    requires TreeOk(shape) && LogOk(shape, log)
    requires 0 < a < |shape| && 0 < b < |shape| && a != b && shape[a].parent == shape[b].parent
    ensures Counted(log, a) + Counted(log, b) <= Counted(log, shape[a].parent)
  {
    if log.Add? {
      ChildrenFit(shape, log.prev, a, b);
      var m :| 0 <= m < |shape| && shape[m] == log.last.at;
      SiblingsDisjoint(shape, a, b, m);
      if a in shape[m].above { ParentAbove(shape, a, m); }
      if b in shape[m].above { ParentAbove(shape, b, m); }
    }
  }

  lemma {:induction false} ChildFits(shape: seq<Spot>, log: Log, a: nat)
    requires TreeOk(shape) && LogOk(shape, log) && 0 < a < |shape|
    ensures Counted(log, a) <= Counted(log, shape[a].parent)
  {
    if log.Add? {
      ChildFits(shape, log.prev, a);
      var m :| 0 <= m < |shape| && shape[m] == log.last.at;
      if a in shape[m].above { ParentAbove(shape, a, m); }
    }
  }

  /** A top-level directory is above exactly the directories that share its bucket. */
  lemma {:induction false} BucketIsSubtree(shape: seq<Spot>, t: nat, m: nat)
    requires TreeOk(shape) && TopLevel(shape, t) && m < |shape|
    ensures t in shape[m].above <==> shape[m].bucket == shape[t].bucket
    decreases m
  {
    assert SpotOk(shape, m) && SpotOk(shape, t);
    if m != 0 {
      if shape[m].parent == 0 {
        assert TopLevel(shape, m);
        assert SpotOk(shape, 0);
      } else {
        assert SpotOk(shape, shape[m].parent);
        BucketIsSubtree(shape, t, shape[m].parent);
        if m == t { assert false; }
      }
    }
  }

  /** The bucket total of a top-level directory is its recursive size. */
  lemma {:induction false} BucketMatches(shape: seq<Spot>, log: Log, t: nat)
    requires TreeOk(shape) && LogOk(shape, log) && TopLevel(shape, t)
    ensures BucketSum(log, shape[t].bucket) == Counted(log, t)
  {
    if log.Add? {
      BucketMatches(shape, log.prev, t);
      var m :| 0 <= m < |shape| && shape[m] == log.last.at;
      BucketIsSubtree(shape, t, m);
    }
  }

  ghost function SumTo(log: Log, k: nat): nat {
    if k == 0 then 0 else SumTo(log, k - 1) + BucketSum(log, k - 1)
  }

  lemma {:induction false} SumToAppend(log: Log, k: nat)
    requires log.Add?
    ensures SumTo(log, k) == SumTo(log.prev, k) +
      (if log.last.at.bucket < k && Counts(log.prev, log.last.item) then log.last.item.size else 0)
  {
    if k > 0 {
      SumToAppend(log, k - 1);
    }
  }

  lemma {:induction false} SumToEmpty(k: nat)
    ensures SumTo(Blank, k) == 0
  {
    if k > 0 {
      SumToEmpty(k - 1);
    }
  }

  /** All buckets together are the whole walk. */
  lemma {:induction false} BucketsConserve(shape: seq<Spot>, log: Log, k: nat)
    requires TreeOk(shape) && LogOk(shape, log)
    requires forall i :: 0 <= i < |shape| ==> shape[i].bucket < k
    ensures SumTo(log, k) == Counted(log, 0)
  {
    if log.Blank? {
      SumToEmpty(k);
    } else {
      BucketsConserve(shape, log.prev, k);
      SumToAppend(log, k);
      var m :| 0 <= m < |shape| && shape[m] == log.last.at;
      assert SpotOk(shape, m);
    }
  }
}
