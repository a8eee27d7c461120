/** What the ledger says about particular files and directories: which files count, and that arena paths are unique. */
module DiskCensus {
  import opened Basics
  import opened DiskTally
  import opened DiskLedger

  // ----- the counted files ---------------------------------------------------------------------------

  /** The files whose bytes were counted, in the order they were met. */
  ghost function Counting(log: Log): seq<Item> {
    if log.Blank? then [] else
      Counting(log.prev) + if Counts(log.prev, log.last.item) then [log.last.item] else []
  }

  /** Size and path of those of at least `least` bytes. */
  ghost function NamesOf(items: seq<Item>, least: nat): seq<(nat, Path)>
    requires forall x :: x in items ==> x.FileItem?
  {
    if items == [] then [] else
      var last := items[|items| - 1];
      NamesOf(items[..|items| - 1], least) + if last.size >= least then [(last.size, last.path)] else []
  }

  lemma {:induction false} CountingFiles(log: Log)
    ensures forall x :: x in Counting(log) ==> x.FileItem?
  {
    if log.Add? {
      CountingFiles(log.prev);
    }
  }

  lemma {:induction false} EligibleNames(log: Log, least: nat)
    requires forall x :: x in Counting(log) ==> x.FileItem?
    ensures Eligible(log, least) == NamesOf(Counting(log), least)
  {
    if log.Add? {
      CountingFiles(log.prev);
      EligibleNames(log.prev, least);
      if Counts(log.prev, log.last.item) {
        var items := Counting(log);
        assert items[..|items| - 1] == Counting(log.prev);
      } else {
        assert Counting(log) == Counting(log.prev);
      }
    }
  }

  /** A counted file was met. */
  lemma {:induction false} CountingMet(shape: seq<Spot>, log: Log, x: Item)
    requires TreeOk(shape) && LogOk(shape, log) && x in Counting(log) && x.FileItem?
    ensures Acc(FileAt(x.path, x.inode, x.size), log, 0) > 0
  {
    InTree(shape, log.last.at);
    if x in Counting(log.prev) {
      CountingMet(shape, log.prev, x);
    }
  }

  lemma OneMore(items: seq<Item>, last: Item, x: Item)
    ensures multiset(items + [last])[x] == multiset(items)[x] + if last == x then 1 else 0
  {
  }

  lemma FileWorthIsOne(item: Item, path: Path, size: nat)
    ensures ItemWorth(FileAt(path, None, size), item) == if item == FileItem(path, None, size) then 1 else 0
  {
  }

  /** A file with a single name is counted as often as it was met. */
  lemma {:induction false} PlainCounting(shape: seq<Spot>, log: Log, path: Path, size: nat)
    requires TreeOk(shape) && LogOk(shape, log)
    ensures multiset(Counting(log))[FileItem(path, None, size)] == Acc(FileAt(path, None, size), log, 0)
  {
    if log.Add? {
      PlainCounting(shape, log.prev, path, size);
      InTree(shape, log.last.at);
      OneMore(Counting(log.prev), log.last.item, FileItem(path, None, size));
      FileWorthIsOne(log.last.item, path, size);
      if !Counts(log.prev, log.last.item) {
        assert Counting(log) == Counting(log.prev);
      }
    }
  }

  ghost predicate HasInode(x: Item, i: Inode) {
    x.FileItem? && x.inode == Some(i)
  }

  ghost predicate Holds(items: seq<Item>, i: Inode) {
    exists k :: 0 <= k < |items| && HasInode(items[k], i)
  }

  ghost predicate AtMostOnce(items: seq<Item>, i: Inode) {
    forall j, k :: 0 <= j < k < |items| && HasInode(items[j], i) ==> !HasInode(items[k], i)
  }

  /** A shared inode is counted under exactly one of its names. */
  lemma {:induction false} SharedCounting(log: Log, i: Inode)
    ensures i in Seen(log) <==> Holds(Counting(log), i)
    ensures AtMostOnce(Counting(log), i)
  {
    if log.Add? {
      SharedCounting(log.prev, i);
      var before, items := Counting(log.prev), Counting(log);
      assert forall k :: 0 <= k < |before| ==> items[k] == before[k];
      if HasInode(log.last.item, i) && i !in Seen(log.prev) {
        assert items[|before|] == log.last.item;
      }
    }
  }

  // ----- arena paths ---------------------------------------------------------------------------------

  /** How many of the first `k` arena directories below the root have this path. */
  ghost function NodesAt(shape: seq<Spot>, k: nat, q: Path): nat
    requires k <= |shape|
  {
    if k <= 1 then 0 else NodesAt(shape, k - 1, q) + if shape[k - 1].path == q then 1 else 0
  }

  /** No arena directory without the record of an entry. */
  ghost predicate Backed(shape: seq<Spot>, log: Log) {
    forall q: Path :: NodesAt(shape, |shape|, q) <= Acc(DirsAt(q), log, 0)
  }

  lemma {:induction false} NodesAtPrefix(shape: seq<Spot>, shape': seq<Spot>, k: nat, q: Path)
    requires k <= |shape| && shape <= shape'
    ensures NodesAt(shape', k, q) == NodesAt(shape, k, q)
  {
    if k > 1 {
      NodesAtPrefix(shape, shape', k - 1, q);
    }
  }

  lemma BackedSame(shape: seq<Spot>, log: Log, r: Rec)
    requires Backed(shape, log)
    ensures Backed(shape, Add(log, r))
  {
    forall q: Path ensures NodesAt(shape, |shape|, q) <= Acc(DirsAt(q), Add(log, r), 0) {
      assert NodesAt(shape, |shape|, q) <= Acc(DirsAt(q), log, 0);
    }
  }

  lemma BackedMore(shape: seq<Spot>, log: Log, spot: Spot, r: Rec)
    requires |shape| >= 1 && Backed(shape, log) && 0 in r.at.above
    requires r.item == DirItem(spot.path) || r.item == LimitedDirItem(spot.path)
    ensures Backed(shape + [spot], Add(log, r))
  {
    var shape' := shape + [spot];
    forall q: Path ensures NodesAt(shape', |shape'|, q) <= Acc(DirsAt(q), Add(log, r), 0) {
      assert NodesAt(shape, |shape|, q) <= Acc(DirsAt(q), log, 0);
      NodesAtPrefix(shape, shape', |shape|, q);
    }
  }

  lemma {:induction false} OneNode(shape: seq<Spot>, k: nat, i: nat)
    requires 0 < i < k <= |shape|
    ensures NodesAt(shape, k, shape[i].path) >= 1
  {
    if i < k - 1 {
      OneNode(shape, k - 1, i);
    }
  }

  lemma {:induction false} TwoNodes(shape: seq<Spot>, k: nat, i: nat, j: nat)
    requires 0 < i < j < k <= |shape| && shape[i].path == shape[j].path
    ensures NodesAt(shape, k, shape[i].path) >= 2
  {
    if j < k - 1 {
      TwoNodes(shape, k - 1, i, j);
    } else {
      OneNode(shape, k - 1, i);
    }
  }

  ghost predicate UniquePaths(shape: seq<Spot>) {
    forall i, j :: 0 < i < j < |shape| ==> shape[i].path != shape[j].path
  }

  /** If no listing repeats a name, no two arena directories are the same. */
  lemma PathsUnique(fs: Fs, maxDepth: nat, shape: seq<Spot>, log: Log)
    requires |shape| >= 1 && DistinctNames(fs) && Backed(shape, log)
    requires forall what: Measure :: Acc(what, log, 0) <= Du(Scope(fs, maxDepth, what), shape[0].path, shape[0].depth)
    ensures UniquePaths(shape)
  {
    forall i, j | 0 < i < j < |shape| ensures shape[i].path != shape[j].path {
      var q := shape[i].path;
      DirOnce(Scope(fs, maxDepth, DirsAt(q)), shape[0].path, shape[0].depth);
      assert NodesAt(shape, |shape|, q) <= Acc(DirsAt(q), log, 0);
      if q == shape[j].path {
        TwoNodes(shape, |shape|, i, j);
      }
    }
  }

  lemma {:induction false} BelowRoot(shape: seq<Spot>, i: nat)
    requires TreeOk(shape) && i < |shape|
    ensures |shape[i].path| == |shape[0].path| + shape[i].depth
    decreases i
  {
    assert SpotOk(shape, i);
    if i > 0 {
      BelowRoot(shape, shape[i].parent);
    }
  }

  /** Then a path that begins with another one lies in that directory. */
  lemma {:induction false} PrefixAbove(shape: seq<Spot>, a: nat, b: nat)
    requires TreeOk(shape) && UniquePaths(shape) && 0 < a < |shape| && 0 < b < |shape|
    requires shape[a].path <= shape[b].path
    ensures a in shape[b].above
    decreases b
  {
    SelfAbove(shape, b);
    if a != b {
      assert SpotOk(shape, b) && SpotOk(shape, a);
      var p := shape[b].parent;
      BelowRoot(shape, a);
      BelowRoot(shape, p);
      assert SpotOk(shape, p);
      if |shape[a].path| == |shape[b].path| {
        assert false;
      }
      assert shape[a].path <= shape[p].path;
      assert p != 0;
      PrefixAbove(shape, a, p);
    }
  }

  /** A directory never counts more than one it lies in. */
  lemma {:induction false} AncestorFits(shape: seq<Spot>, log: Log, a: nat, b: nat)
    requires TreeOk(shape) && LogOk(shape, log) && a < |shape| && b < |shape| && a in shape[b].above
    ensures Counted(log, b) <= Counted(log, a)
    decreases b
  {
    assert SpotOk(shape, b);
    if a != b {
      ChildFits(shape, log, b);
      AncestorFits(shape, log, a, shape[b].parent);
    }
  }
}
