/** What the numbers of a walk mean: lower bounds of a recursive `du` always, equal to it when nothing was cut short. */
module DiskResult {
  import opened Basics
  import opened DiskTally
  import opened DiskLedger
  import opened DiskCensus
  import opened DiskTop
  import opened DiskState
  import opened DiskTurns

  /** What a recursive `du` of the scan root counts. */
  ghost function RootDu(fs: Fs, o: Options, what: Measure): nat {
    Du(Scope(fs, o.maxDepth, what), o.root, 0)
  }

  /** No counter exceeds the recursive count, however the run ended; nor do the bytes, with every inode once. */
  ghost predicate LowerBound(fs: Fs, o: Options, c: Counters) {
    && c.files <= RootDu(fs, o, Files)
    && c.directories <= RootDu(fs, o, Directories)
    && c.symlinks <= RootDu(fs, o, Symlinks)
    && c.otherFilesystems <= RootDu(fs, o, ForeignEntries)
    && c.unreadable <= RootDu(fs, o, UnreadableEntries)
    && c.depthLimited <= RootDu(fs, o, DepthLimited)
    && (forall sizeOf: Inode -> nat :: Coherent(fs, sizeOf) ==>
          c.totalBytes <= DuDistinct(fs, o.maxDepth, o.root, 0, sizeOf))
  }

  /** Every counter is the recursive count, and the total is `du` with every inode counted once. */
  ghost predicate Exact(fs: Fs, o: Options, c: Counters) {
    && c.files == RootDu(fs, o, Files)
    && c.directories == RootDu(fs, o, Directories)
    && c.symlinks == RootDu(fs, o, Symlinks)
    && c.otherFilesystems == RootDu(fs, o, ForeignEntries)
    && c.unreadable == RootDu(fs, o, UnreadableEntries)
    && c.depthLimited == RootDu(fs, o, DepthLimited)
    && (forall sizeOf: Inode -> nat :: Coherent(fs, sizeOf) ==>
          && c.totalBytes == Cap(DuDistinct(fs, o.maxDepth, o.root, 0, sizeOf))
          && DuDistinct(fs, o.maxDepth, o.root, 0, sizeOf) <= RootDu(fs, o, Bytes)
          && c.hardlinksDeduped == Cap(RootDu(fs, o, Bytes) - DuDistinct(fs, o.maxDepth, o.root, 0, sizeOf)))
  }

  lemma RootSpot(fs: Fs, o: Options, f: Fields, l: Ledger)
    requires Sound(fs, o, f, l)
    ensures |l.shape| >= 1 && l.shape[0].path == o.root && l.shape[0].depth == 0
  {
    assert SpotOk(l.shape, 0);
  }

  lemma RootBound(fs: Fs, o: Options, f: Fields, l: Ledger, due: seq<Work>, what: Measure)
    requires Sound(fs, o, f, l) && Books(fs, o.maxDepth, l, due)
    ensures Acc(what, l.log, 0) <= RootDu(fs, o, what)
    ensures l.lost == [] && due == [] ==> Acc(what, l.log, 0) == RootDu(fs, o, what)
  {
    RootSpot(fs, o, f, l);
    BalancedBound(Scope(fs, o.maxDepth, what), l.shape, l.log, l.lost, due, 0);
  }

  lemma {:induction false} CoherentLog(fs: Fs, log: Log, sizeOf: Inode -> nat)
    requires FromFs(fs, log) && Coherent(fs, sizeOf)
    ensures SizesAgree(log, sizeOf)
  {
    if log.Add? {
      CoherentLog(fs, log.prev, sizeOf);
      if log.last.item.FileItem? {
        var item := log.last.item;
        var listing := fs[Front(item.path)];
        var k :| 0 <= k < |listing| && listing[k] == File(Last(item.path), item.inode, item.size);
      }
    }
  }

  /** The inodes counted so far are among those `du` meets. */
  lemma OwnedMet(fs: Fs, o: Options, f: Fields, l: Ledger, due: seq<Work>, i: Inode)
    requires Sound(fs, o, f, l) && Books(fs, o.maxDepth, l, due) && i in Owned(l.log, 0)
    ensures i in DuInodes(fs, o.maxDepth, o.root, 0)
  {
    NamesBelowRoot(l.shape, l.log, 0, i);
    RootBound(fs, o, f, l, due, Names(i));
    InodeHasName(Scope(fs, o.maxDepth, Names(i)), o.root, 0);
  }

  /** Whatever was counted so far, `du` with every inode once counts it too. */
  lemma CountedIsBounded(fs: Fs, o: Options, f: Fields, l: Ledger, due: seq<Work>, sizeOf: Inode -> nat)
    requires Sound(fs, o, f, l) && Books(fs, o.maxDepth, l, due) && Coherent(fs, sizeOf)
    ensures Counted(l.log, 0) <= DuDistinct(fs, o.maxDepth, o.root, 0, sizeOf)
  {
    CoherentLog(fs, l.log, sizeOf);
    CountedSplit(l.log, 0, sizeOf);
    RootBound(fs, o, f, l, due, PlainBytes);
    forall i | i in Owned(l.log, 0) ensures i in DuInodes(fs, o.maxDepth, o.root, 0) {
      OwnedMet(fs, o, f, l, due, i);
    }
    SumSizesMonotone(Owned(l.log, 0), DuInodes(fs, o.maxDepth, o.root, 0), sizeOf);
  }

  lemma WalkIsLowerBound(fs: Fs, o: Options, f: Fields, l: Ledger, due: seq<Work>)
    requires Sound(fs, o, f, l) && Books(fs, o.maxDepth, l, due)
    ensures LowerBound(fs, o, f.report)
  {
    RecountSums(l.shape, l.log);
    forall what: Measure ensures Acc(what, l.log, 0) <= RootDu(fs, o, what) {
      RootBound(fs, o, f, l, due, what);
    }
    forall sizeOf: Inode -> nat | Coherent(fs, sizeOf)
      ensures f.report.totalBytes <= DuDistinct(fs, o.maxDepth, o.root, 0, sizeOf)
    {
      CountedIsBounded(fs, o, f, l, due, sizeOf);
    }
  }

  // ----- directories that are done ---------------------------------------------------------------------

  /** Everything `du` finds in arena directory `n` has been taken in. */
  ghost predicate Settled(fs: Fs, o: Options, l: Ledger, n: nat)
    requires n < |l.shape|
  {
    forall what: Measure :: Acc(what, l.log, n) == Need(Scope(fs, o.maxDepth, what), l.shape[n])
  }

  /** No directory was left out below `n` for want of room in the arena. */
  ghost predicate NoneLost(l: Ledger, n: nat) {
    forall k :: 0 <= k < |l.lost| ==> n !in l.lost[k].at.above
  }

  ghost predicate Elsewhere(work: seq<Work>, n: nat) {
    forall k :: 0 <= k < |work| ==> n !in work[k].at.above
  }

  lemma {:induction false} PendElsewhere(sc: Scope, work: seq<Work>, n: nat)
    requires Elsewhere(work, n)
    ensures Pend(sc, work, n) == 0
  {
    if work != [] {
      PendElsewhere(sc, Front(work), n);
    }
  }

  lemma ElsewhereSettles(fs: Fs, o: Options, l: Ledger, due: seq<Work>, n: nat)
    requires Books(fs, o.maxDepth, l, due) && n < |l.shape| && NoneLost(l, n) && Elsewhere(due, n)
    ensures Settled(fs, o, l, n)
  {
    forall what: Measure ensures Acc(what, l.log, n) == Need(Scope(fs, o.maxDepth, what), l.shape[n]) {
      var sc := Scope(fs, o.maxDepth, what);
      assert Balanced(sc, l.shape, l.log, l.lost, due);
      assert BalancedAt(sc, l.shape, l.log, l.lost, due, n);
      PendElsewhere(sc, l.lost, n);
      PendElsewhere(sc, due, n);
    }
  }

  /** What one top-level directory owes is owed in no other. */
  lemma SubtreeElsewhere(fs: Fs, shape: seq<Spot>, s: Subtree, n: nat)
    requires TreeOk(shape) && SubtreeOk(fs, shape, s) && TopLevel(shape, n)
    requires n != s.rootNode || s.Finished()
    ensures Elsewhere(SubtreeWork(fs, shape, s), n)
  {
    var work := SubtreeWork(fs, shape, s);
    forall k | 0 <= k < |work| ensures n !in work[k].at.above {
      var m: nat := if k < |s.stack| then s.stack[k].0 else s.cursor.value.node;
      assert work[k].at == shape[m] && s.rootNode in shape[m].above;
      SiblingsDisjoint(shape, s.rootNode, n, m);
    }
  }

  lemma {:induction false} OthersElsewhere(fs: Fs, shape: seq<Spot>, subs: seq<Subtree>, n: nat)
    requires TreeOk(shape) && SubtreesOk(fs, shape, subs) && TopLevel(shape, n)
    requires forall k :: 0 <= k < |subs| && subs[k].rootNode == n ==> subs[k].Finished()
    ensures Elsewhere(SubtreesWork(fs, shape, subs), n)
  {
    if subs != [] {
      OthersElsewhere(fs, shape, Front(subs), n);
      SubtreeElsewhere(fs, shape, Last(subs), n);
      var a, b := SubtreesWork(fs, shape, Front(subs)), SubtreeWork(fs, shape, Last(subs));
      var both: seq<Work> := a + b;
      forall k | 0 <= k < |both| ensures n !in both[k].at.above {
        assert both[k] == if k < |a| then a[k] else b[k - |a|];
      }
    }
  }

  /** A complete run: nothing is owed and no directory was left out. */
  ghost predicate Complete(fs: Fs, o: Options, l: Ledger) {
    l.lost == [] && Books(fs, o.maxDepth, l, [])
  }

  lemma CompleteAt(fs: Fs, o: Options, l: Ledger, what: Measure, n: nat)
    requires Complete(fs, o, l) && n < |l.shape|
    ensures Acc(what, l.log, n) == Need(Scope(fs, o.maxDepth, what), l.shape[n])
  {
    BalancedBound(Scope(fs, o.maxDepth, what), l.shape, l.log, l.lost, [], n);
  }

  lemma CompleteSettles(fs: Fs, o: Options, l: Ledger, n: nat)
    requires Complete(fs, o, l) && n < |l.shape|
    ensures Settled(fs, o, l, n)
  {
    forall what: Measure ensures Acc(what, l.log, n) == Need(Scope(fs, o.maxDepth, what), l.shape[n]) {
      CompleteAt(fs, o, l, what, n);
    }
  }

  /** All names of the inodes met below directory `n` lie below it. */
  ghost predicate KeepsItsLinks(fs: Fs, o: Options, s: Spot) {
    forall i :: i in DuInodes(fs, o.maxDepth, s.path, s.depth) ==>
      Du(Scope(fs, o.maxDepth, Names(i)), s.path, s.depth) == RootDu(fs, o, Names(i))
  }

  /**
   The size of an arena directory that is done is its own recursive `du`, however the run ended, provided every
   inode met below it has all its names below it. The scan root always satisfies this.
   */
  lemma DirectoryTotals(fs: Fs, o: Options, f: Fields, l: Ledger, due: seq<Work>, n: nat, sizeOf: Inode -> nat)
    requires Sound(fs, o, f, l) && Books(fs, o.maxDepth, l, due) && Coherent(fs, sizeOf)
    requires n < |l.shape| && l.shape[n].depth <= o.maxDepth && Settled(fs, o, l, n) && KeepsItsLinks(fs, o, l.shape[n])
    ensures Counted(l.log, n) == DuDistinct(fs, o.maxDepth, l.shape[n].path, l.shape[n].depth, sizeOf)
    ensures f.nodes[n].bytes == Cap(DuDistinct(fs, o.maxDepth, l.shape[n].path, l.shape[n].depth, sizeOf))
  {
    var path, depth := l.shape[n].path, l.shape[n].depth;
    var inodes := DuInodes(fs, o.maxDepth, path, depth);
    CoherentLog(fs, l.log, sizeOf);
    assert Acc(PlainBytes, l.log, n) == Need(Scope(fs, o.maxDepth, PlainBytes), l.shape[n]);
    forall i
      ensures i in inodes <==> Acc(Names(i), l.log, n) > 0
      ensures i in inodes ==> Acc(Names(i), l.log, n) == Acc(Names(i), l.log, 0)
    {
      assert Acc(Names(i), l.log, n) == Need(Scope(fs, o.maxDepth, Names(i)), l.shape[n]);
      RootBound(fs, o, f, l, due, Names(i));
      NamesBelowRoot(l.shape, l.log, n, i);
      InodeHasName(Scope(fs, o.maxDepth, Names(i)), path, depth);
    }
    CountedIsDistinct(l.shape, l.log, n, sizeOf, inodes);
  }

  lemma CompleteIsExact(fs: Fs, o: Options, f: Fields, l: Ledger)
    requires Sound(fs, o, f, l) && Complete(fs, o, l)
    ensures Exact(fs, o, f.report)
  {
    RecountSums(l.shape, l.log);
    DedupConserves(l.shape, l.log);
    RootSpot(fs, o, f, l);
    forall what: Measure ensures Acc(what, l.log, 0) == RootDu(fs, o, what) {
      RootBound(fs, o, f, l, [], what);
    }
    forall sizeOf: Inode -> nat | Coherent(fs, sizeOf)
      ensures Counted(l.log, 0) == DuDistinct(fs, o.maxDepth, o.root, 0, sizeOf)
    {
      CompleteSettles(fs, o, l, 0);
      DirectoryTotals(fs, o, f, l, [], 0, sizeOf);
    }
  }

  // ----- the files of a complete run -------------------------------------------------------------------

  /**
   The files of the tree as `du` counts them: each file with a single name as often as it is listed, and each shared
   inode once, under one of its names.
   */
  ghost predicate Census(fs: Fs, o: Options, items: seq<Item>) {
    && (forall k :: 0 <= k < |items| ==> items[k].FileItem? && InTheTree(fs, o, items[k]))
    && (forall path, size :: multiset(items)[FileItem(path, None, size)] == RootDu(fs, o, FileAt(path, None, size)))
    && (forall i :: AtMostOnce(items, i) && (Holds(items, i) <==> i in DuInodes(fs, o.maxDepth, o.root, 0)))
  }

  ghost predicate InTheTree(fs: Fs, o: Options, x: Item) {
    x.FileItem? && RootDu(fs, o, FileAt(x.path, x.inode, x.size)) > 0
  }

  /** A complete run has listed the files of the tree. */
  lemma CompleteCensus(fs: Fs, o: Options, f: Fields, l: Ledger)
    requires Sound(fs, o, f, l) && Complete(fs, o, l)
    ensures Census(fs, o, Counting(l.log))
    ensures l.eligible == NamesOf(Counting(l.log), o.minFileSize)
  {
    var items := Counting(l.log);
    RootSpot(fs, o, f, l);
    CountingFiles(l.log);
    EligibleNames(l.log, o.minFileSize);
    forall k | 0 <= k < |items| ensures InTheTree(fs, o, items[k]) {
      FileInTree(fs, o, f, l, items[k]);
    }
    forall path, size
      ensures multiset(items)[FileItem(path, None, size)] == RootDu(fs, o, FileAt(path, None, size))
    {
      PlainCounting(l.shape, l.log, path, size);
      CompleteAt(fs, o, l, FileAt(path, None, size), 0);
    }
    forall i ensures AtMostOnce(items, i) && (Holds(items, i) <==> i in DuInodes(fs, o.maxDepth, o.root, 0)) {
      SharedCounting(l.log, i);
      InodeSeen(fs, o, f, l, i);
    }
  }

  lemma FileInTree(fs: Fs, o: Options, f: Fields, l: Ledger, x: Item)
    requires Sound(fs, o, f, l) && Complete(fs, o, l) && x in Counting(l.log) && x.FileItem?
    ensures InTheTree(fs, o, x)
  {
    RootSpot(fs, o, f, l);
    CountingMet(l.shape, l.log, x);
    CompleteAt(fs, o, l, FileAt(x.path, x.inode, x.size), 0);
  }

  lemma InodeSeen(fs: Fs, o: Options, f: Fields, l: Ledger, i: Inode)
    requires Sound(fs, o, f, l) && Complete(fs, o, l)
    ensures i in Seen(l.log) <==> i in DuInodes(fs, o.maxDepth, o.root, 0)
  {
    RootSpot(fs, o, f, l);
    NamesBelowRoot(l.shape, l.log, 0, i);
    CompleteAt(fs, o, l, Names(i), 0);
    InodeHasName(Scope(fs, o.maxDepth, Names(i)), o.root, 0);
  }

  /** The largest files reported are the largest of the tree. */
  ghost predicate LargestOfTree(fs: Fs, o: Options, topFiles: seq<Sized>) {
    exists items: seq<Item>, rest ::
      && Census(fs, o, items)
      && (forall x :: x in items ==> x.FileItem?)
      && IsTop(NamesOf(items, o.minFileSize), o.top, topFiles, rest)
  }

  lemma CompleteLists(fs: Fs, o: Options, f: Fields, l: Ledger, topFiles: seq<Sized>, rest: seq<Sized>)
    requires Sound(fs, o, f, l) && Complete(fs, o, l) && IsTop(l.eligible, o.top, topFiles, rest)
    ensures LargestOfTree(fs, o, topFiles)
  {
    CountingFiles(l.log);
    CompleteCensus(fs, o, f, l);
  }

  ghost function SumSeq(s: seq<nat>): nat {
    if s == [] then 0 else SumSeq(s[..|s| - 1]) + s[|s| - 1]
  }

  lemma {:induction false} CappedSum(totals: seq<nat>, log: Log)
    requires forall b :: 0 <= b < |totals| ==> totals[b] == Cap(BucketSum(log, b))
    ensures Cap(SumSeq(totals)) == Cap(SumTo(log, |totals|))
    ensures SumSeq(totals) <= SumTo(log, |totals|)
  {
    if totals != [] {
      CappedSum(totals[..|totals| - 1], log);
    }
  }

  /**
   The accounting invariant, at every moment of every run: the root holds the total, the buckets add up to it,
   every top-level directory equals its bucket, and every parent comes before its children.
   */
  lemma Accounting(fs: Fs, o: Options, f: Fields, l: Ledger)
    requires Sound(fs, o, f, l)
    ensures |f.nodes| >= 1 && f.nodes[0].bytes == f.report.totalBytes == Cap(SumSeq(f.bucketTotals))
    ensures forall n: nat :: 0 < n < |f.nodes| ==> f.nodes[n].parent < n
    ensures forall n: nat :: 0 < n < |f.nodes| && f.nodes[n].parent == ROOT_NODE ==>
      && f.nodes[n].bucket < |f.bucketTotals| == |f.bucketLabels|
      && f.nodes[n].bytes == f.bucketTotals[f.nodes[n].bucket]
      && f.nodes[n].path != [] && f.bucketLabels[f.nodes[n].bucket] == Last(f.nodes[n].path)
    ensures |f.nodes| <= 800_000 && (f.report.dirsUntracked > 0 ==> |f.nodes| == 800_000)
    ensures f.bucketLabels != [] && f.bucketLabels[0] == "(root)"
    ensures forall n: nat :: n < |f.nodes| ==> f.nodes[n].bytes == Cap(Counted(l.log, n))
  {
    RecountSums(l.shape, l.log);
    BucketsConserve(l.shape, l.log, |f.bucketTotals|);
    CappedSum(f.bucketTotals, l.log);
    forall n: nat | 0 < n < |f.nodes|
      ensures f.nodes[n].parent < n
      ensures f.nodes[n].parent == ROOT_NODE ==>
        && f.nodes[n].bucket < |f.bucketTotals| == |f.bucketLabels|
        && f.nodes[n].bytes == f.bucketTotals[f.nodes[n].bucket]
        && f.nodes[n].path != [] && f.bucketLabels[f.nodes[n].bucket] == Last(f.nodes[n].path)
    {
      assert SpotOk(l.shape, n);
      if f.nodes[n].parent == ROOT_NODE {
        BucketMatches(l.shape, l.log, n);
      }
    }
  }
}
