/** What the report derives from the arena: the pruned list of large directories and the hot path. */
module DiskReport {
  import opened Basics
  import opened Sorting
  import opened DiskTally
  import opened DiskLedger
  import opened DiskCensus
  import opened DiskTop
  import opened DiskState
  import opened DiskResult

  // ----- ancestor pruning --------------------------------------------------------------------------

  /** Larger first; among equals the deeper directory first. */
  predicate DeeperFirst(a: Sized, b: Sized) {
    a.0 > b.0 || (a.0 == b.0 && |a.1| >= |b.1|)
  }

  lemma DeeperFirstIsPreorder()
    ensures TotalPreorder(DeeperFirst)
  {
  }

  function DeepestFirst(entries: seq<Sized>): (r: seq<Sized>)
    ensures SortedBy(r, DeeperFirst) && multiset(r) == multiset(entries)
  {
    DeeperFirstIsPreorder();
    Sort(entries, DeeperFirst)
  }

  /** `kept` lies in or below the directory `c` and holds almost all of its bytes. */
  predicate Covers(kept: Sized, c: Sized) {
    c.1 <= kept.1 && SaturatingMul(kept.0, 100) >= SaturatingMul(c.0, 95)
  }

  predicate Redundant(kept: seq<Sized>, c: Sized) {
    exists k :: 0 <= k < |kept| && Covers(kept[k], c)
  }

  lemma ScaledAtLeast(a: nat, b: nat)
    requires a >= b
    ensures SaturatingMul(a, 100) >= SaturatingMul(b, 95)
  {
    assert a * 100 >= b * 95;
  }

  /** Scanning from the largest down, the 95 percent test never fails: only nesting decides. */
  lemma ThresholdIsIdle(kept: Sized, c: Sized)
    requires kept.0 >= c.0
    ensures Covers(kept, c) <==> c.1 <= kept.1
  {
    ScaledAtLeast(kept.0, c.0);
  }

  /** A candidate was dropped for a kept directory that lies in or below it and is no smaller. */
  ghost predicate Dropped(kept: seq<Sized>, c: Sized) {
    exists k :: 0 <= k < |kept| && c.1 <= kept[k].1 && kept[k].0 >= c.0
  }

  /** Nothing kept is smaller than `c`, or of its size and nearer to the root. */
  ghost predicate Behind(kept: seq<Sized>, c: Sized) {
    forall k :: 0 <= k < |kept| ==> kept[k].0 > c.0 || (kept[k].0 == c.0 && |kept[k].1| >= |c.1|)
  }

  /** A listed directory that contains another listed one is strictly larger, and comes first. */
  ghost predicate NoEqualAncestor(kept: seq<Sized>) {
    && (forall i, j :: 0 <= i < j < |kept| ==> !(kept[j].1 <= kept[i].1))
    && (forall i, j :: 0 <= i < j < |kept| && kept[i].1 <= kept[j].1 ==> kept[i].0 > kept[j].0)
  }

  /**
   `kept` is the pruned list of at most `top` entries: the larger first and among equals the deeper; an entry that
   contains another is strictly larger; an entry is missing only for a kept one in or below it that is no smaller, or
   because the list is full of entries that come before it.
   */
  ghost predicate Pruned(entries: seq<Sized>, top: nat, kept: seq<Sized>) {
    && |kept| <= top
    && (forall x :: x in kept ==> x in entries)
    && (forall i, j :: 0 <= i < j < |kept| ==> kept[i].0 >= kept[j].0)
    && (forall i, j :: 0 <= i < j < |kept| && kept[i].0 == kept[j].0 ==> |kept[i].1| >= |kept[j].1|)
    && NoEqualAncestor(kept)
    && (forall x :: x in entries ==> x in kept || Dropped(kept, x) || (|kept| == top && Behind(kept, x)))
  }

  /** Sorts the candidates and keeps the first `top` that no kept one covers. */
  method PruneNestedAncestors(entries: seq<Sized>, top: nat) returns (kept: seq<Sized>)
    requires top >= 1
    ensures Pruned(entries, top, kept)
  {
    var s := DeepestFirst(entries);
    kept := [];
    var i := 0;
    while i < |s| && |kept| < top
      invariant 0 <= i <= |s| && |kept| <= top
      invariant PruneState(s, i, kept)
    {
      if Redundant(kept, s[i]) {
        PruneSkip(s, i, kept);
      } else {
        PruneKeep(s, i, kept);
        kept := kept + [s[i]];
      }
      i := i + 1;
    }
    PruneDone(entries, top, s, i, kept);
  }

  /** The first `i` candidates have been looked at. */
  ghost predicate PruneState(s: seq<Sized>, i: nat, kept: seq<Sized>)
    requires i <= |s|
  {
    && SortedBy(s, DeeperFirst) && SortedBy(kept, DeeperFirst)
    && (forall x :: x in kept ==> x in s[..i])
    && (forall a, b :: 0 <= a < b < |kept| ==> !(kept[b].1 <= kept[a].1))
    && (forall k :: 0 <= k < i ==> s[k] in kept || Dropped(kept, s[k]))
  }

  lemma KeptBefore(s: seq<Sized>, i: nat, n: nat, kept: seq<Sized>, x: Sized)
    requires i <= n < |s| && PruneState(s, i, kept) && x in kept
    ensures DeeperFirst(x, s[n])
  {
    var k :| 0 <= k < i && s[..i][k] == x;
    assert DeeperFirst(s[k], s[n]);
  }

  lemma PruneSkip(s: seq<Sized>, i: nat, kept: seq<Sized>)
    requires i < |s| && PruneState(s, i, kept) && Redundant(kept, s[i])
    ensures PruneState(s, i + 1, kept)
  {
    assert s[..i + 1] == s[..i] + [s[i]];
    var k :| 0 <= k < |kept| && Covers(kept[k], s[i]);
    assert kept[k] in kept;
    KeptBefore(s, i, i, kept, kept[k]);
    assert Dropped(kept, s[i]);
  }

  lemma PruneKeep(s: seq<Sized>, i: nat, kept: seq<Sized>)
    requires i < |s| && PruneState(s, i, kept) && !Redundant(kept, s[i])
    ensures PruneState(s, i + 1, kept + [s[i]])
  {
    assert s[..i + 1] == s[..i] + [s[i]];
    var kept' := kept + [s[i]];
    forall k | 0 <= k < |kept| ensures DeeperFirst(kept[k], s[i]) && !(s[i].1 <= kept[k].1) {
      KeptBefore(s, i, i, kept, kept[k]);
      ThresholdIsIdle(kept[k], s[i]);
    }
    forall k | 0 <= k < i + 1 ensures s[k] in kept' || Dropped(kept', s[k]) {
      if k < i && s[k] !in kept {
        DroppedGrows(kept, s[i], s[k]);
      }
    }
  }

  lemma PruneDone(entries: seq<Sized>, top: nat, s: seq<Sized>, i: nat, kept: seq<Sized>)
    requires i <= |s| && PruneState(s, i, kept) && |kept| <= top && (i < |s| ==> |kept| == top)
    requires multiset(s) == multiset(entries)
    ensures Pruned(entries, top, kept)
  {
    forall x | x in kept ensures x in entries {
      assert x in s[..i] && x in multiset(s);
    }
    forall x | x in entries ensures x in kept || Dropped(kept, x) || (|kept| == top && Behind(kept, x)) {
      assert x in multiset(s);
      var n :| 0 <= n < |s| && s[n] == x;
      if n >= i {
        forall k | 0 <= k < |kept| ensures DeeperFirst(kept[k], x) {
          assert kept[k] in kept;
          KeptBefore(s, i, n, kept, kept[k]);
        }
      }
    }
    forall a, b | 0 <= a < b < |kept| && kept[a].1 <= kept[b].1 ensures kept[a].0 > kept[b].0 {
      assert DeeperFirst(kept[a], kept[b]) && !(kept[b].1 <= kept[a].1);
    }
  }

  lemma DroppedGrows(kept: seq<Sized>, x: Sized, c: Sized)
    requires Dropped(kept, c)
    ensures Dropped(kept + [x], c)
  {
    var k :| 0 <= k < |kept| && c.1 <= kept[k].1 && kept[k].0 >= c.0;
    assert (kept + [x])[k] == kept[k];
  }

  ghost predicate IsDirectory(nodes: seq<DirNode>, x: Sized) {
    exists n :: 0 < n < |nodes| && x == (nodes[n].bytes, nodes[n].path) && x.0 > 0
  }

  /** In the arena of a walk no directory is smaller than one inside it, whatever the paths alone tell. */
  lemma InsideIsSmaller(fs: Fs, o: Options, f: Fields, l: Ledger, due: seq<Work>, a: nat, b: nat)
    requires Sound(fs, o, f, l) && Books(fs, o.maxDepth, l, due) && DistinctNames(fs)
    requires 0 < a < |f.nodes| && 0 < b < |f.nodes| && f.nodes[a].path <= f.nodes[b].path
    ensures f.nodes[b].bytes <= f.nodes[a].bytes
  {
    forall what: Measure
      ensures Acc(what, l.log, 0) <= Du(Scope(fs, o.maxDepth, what), l.shape[0].path, l.shape[0].depth)
    {
      RootSpot(fs, o, f, l);
      RootBound(fs, o, f, l, due, what);
    }
    PathsUnique(fs, o.maxDepth, l.shape, l.log);
    PrefixAbove(l.shape, a, b);
    AncestorFits(l.shape, l.log, a, b);
  }

  /** A kept directory of the same size lies below. */
  ghost predicate DroppedForEqual(kept: seq<Sized>, c: Sized) {
    exists k :: 0 <= k < |kept| && c.1 <= kept[k].1 && kept[k].0 == c.0
  }

  /** So an arena directory is dropped only for one of equal size inside it. */
  lemma DroppedOnlyForEqual(fs: Fs, o: Options, f: Fields, l: Ledger, due: seq<Work>, kept: seq<Sized>, c: Sized)
    requires Sound(fs, o, f, l) && Books(fs, o.maxDepth, l, due) && DistinctNames(fs)
    requires IsDirectory(f.nodes, c) && forall x :: x in kept ==> IsDirectory(f.nodes, x)
    requires Dropped(kept, c)
    ensures DroppedForEqual(kept, c)
  {
    var k :| 0 <= k < |kept| && c.1 <= kept[k].1 && kept[k].0 >= c.0;
    assert kept[k] in kept;
    var a :| 0 < a < |f.nodes| && c == (f.nodes[a].bytes, f.nodes[a].path);
    var b :| 0 < b < |f.nodes| && kept[k] == (f.nodes[b].bytes, f.nodes[b].path);
    InsideIsSmaller(fs, o, f, l, due, a, b);
  }

  // ----- hot path ------------------------------------------------------------------------------------

  const HOT_PATH_DOMINANCE: nat := 60
  const HOT_PATH_MAX_DEPTH: nat := 8

  ghost predicate ChildOf(nodes: seq<DirNode>, c: nat, p: nat) {
    0 < c < |nodes| && nodes[c].parent == p && p != c
  }

  /** `best` is the first of the largest children of `p`, if it has any, among the nodes below `upto`. */
  ghost predicate BestChild(nodes: seq<DirNode>, upto: nat, p: nat, best: Option<nat>)
    requires upto <= |nodes|
  {
    if best.None? then
      forall c :: 0 <= c < upto ==> !ChildOf(nodes, c, p)
    else
      && best.value < upto && ChildOf(nodes, best.value, p)
      && forall c :: 0 <= c < upto && ChildOf(nodes, c, p) ==>
           nodes[c].bytes <= nodes[best.value].bytes && (c < best.value ==> nodes[c].bytes < nodes[best.value].bytes)
  }

  method LargestChildren(nodes: seq<DirNode>) returns (best: seq<Option<nat>>)
    ensures |best| == |nodes|
    ensures forall p :: 0 <= p < |nodes| ==> BestChild(nodes, |nodes|, p, best[p])
  {
    best := seq(|nodes|, _ => None);
    for i := 0 to |nodes|
      invariant |best| == |nodes|
      invariant forall p :: 0 <= p < |nodes| ==> BestChild(nodes, i, p, best[p])
    {
      var p := nodes[i].parent;
      ghost var was := best;
      if i == ROOT_NODE || p == i || p >= |nodes| {
      } else if best[p].None? || nodes[i].bytes > nodes[best[p].value].bytes {
        best := best[p := Some(i)];
      }
      forall q | 0 <= q < |nodes| ensures BestChild(nodes, i + 1, q, best[q]) {
        assert BestChild(nodes, i, q, was[q]);
      }
    }
  }

  /** A child dominates its parent: it holds at least 60 percent of it, as far as u64 arithmetic can tell. */
  ghost predicate Dominates(child: nat, parent: nat) {
    child > 0 && (100 * child >= 60 * parent || 100 * child >= 0xFFFF_FFFF_FFFF_FFFF)
  }

  lemma DominatesIsTested(child: nat, parent: nat)
    ensures Dominates(child, parent) <==>
            child != 0 && SaturatingMul(child, 100) >= SaturatingMul(parent, HOT_PATH_DOMINANCE)
  {
  }

  /** The hops of a hot path: each goes to the first of the largest children, and that child dominates. */
  ghost predicate Hops(nodes: seq<DirNode>, ids: seq<nat>) {
    && ids != [] && ids[0] == ROOT_NODE
    && (forall k :: 0 <= k < |ids| ==> ids[k] < |nodes|)
    && (forall k :: 0 <= k < |ids| - 1 ==>
          && BestChild(nodes, |nodes|, ids[k], Some(ids[k + 1]))
          && Dominates(nodes[ids[k + 1]].bytes, nodes[ids[k]].bytes))
  }

  function Named(nodes: seq<DirNode>, ids: seq<nat>): seq<Sized>
    requires forall k :: 0 <= k < |ids| ==> ids[k] < |nodes|
  {
    seq(|ids|, k requires 0 <= k < |ids| => (nodes[ids[k]].bytes, nodes[ids[k]].path))
  }

  ghost predicate NoDominantChild(nodes: seq<DirNode>, p: nat)
    requires p < |nodes|
  {
    forall c: nat :: ChildOf(nodes, c, p) ==> !Dominates(nodes[c].bytes, nodes[p].bytes)
  }

  /** The whole hot path: it goes on until no child dominates or the limit is reached. */
  ghost predicate HotIds(nodes: seq<DirNode>, ids: seq<nat>) {
    && Hops(nodes, ids)
    && |ids| <= 8
    && (|ids| < 8 ==> NoDominantChild(nodes, ids[|ids| - 1]))
  }

  /** What is reported of it: nothing if it does not leave the root. */
  ghost predicate IsHotPath(nodes: seq<DirNode>, chain: seq<Sized>) {
    exists ids ::
      && HotIds(nodes, ids)
      && |chain| == (if |ids| < 2 then 0 else |ids|)
      && forall k :: 0 <= k < |chain| ==> chain[k] == (nodes[ids[k]].bytes, nodes[ids[k]].path)
  }

  method HotPath(nodes: seq<DirNode>) returns (chain: seq<Sized>)
    requires nodes != []
    ensures IsHotPath(nodes, chain)
    ensures chain == [] || 2 <= |chain| <= 8
  {
    var best := LargestChildren(nodes);
    var path := [ROOT_NODE];
    while |path| < HOT_PATH_MAX_DEPTH
      invariant Hops(nodes, path) && |path| <= HOT_PATH_MAX_DEPTH
      decreases HOT_PATH_MAX_DEPTH - |path|
    {
      var current := path[|path| - 1];
      assert BestChild(nodes, |nodes|, current, best[current]);
      if best[current].None? {
        break;
      }
      var child := best[current].value;
      var bytes := nodes[child].bytes;
      DominatesIsTested(bytes, nodes[current].bytes);
      if bytes == 0 || SaturatingMul(bytes, 100) < SaturatingMul(nodes[current].bytes, HOT_PATH_DOMINANCE) {
        BestDecides(nodes, current, child);
        break;
      }
      path := path + [child];
    }
    assert HotIds(nodes, path);
    chain := if |path| < 2 then [] else Named(nodes, path);
  }

  lemma ScaledMonotone(a: nat, b: nat)
    requires a <= b
    ensures SaturatingMul(a, 100) <= SaturatingMul(b, 100)
  {
    assert a * 100 <= b * 100;
  }

  /** If the largest child does not dominate, no child does. */
  lemma BestDecides(nodes: seq<DirNode>, p: nat, c: nat)
    requires p < |nodes| && BestChild(nodes, |nodes|, p, Some(c)) && !Dominates(nodes[c].bytes, nodes[p].bytes)
    ensures NoDominantChild(nodes, p)
  {
    forall d: nat | ChildOf(nodes, d, p) ensures !Dominates(nodes[d].bytes, nodes[p].bytes) {
      ScaledMonotone(nodes[d].bytes, nodes[c].bytes);
    }
  }

  /** From this size on, the saturating comparison no longer tells two halves apart. */
  const BLURRED: nat := 2 * ((U64_MAX + 99) / 100)

  /** Two parts of one directory can both dominate it exactly when it is too large for the arithmetic. */
  lemma TwoDominate(p: nat)
    ensures p >= BLURRED <==> exists a: nat, b: nat :: a + b <= p && Dominates(a, p) && Dominates(b, p)
  {
    if p >= BLURRED {
      var h := BLURRED / 2;
      assert h * 100 >= U64_MAX;
      assert SaturatingMul(h, 100) == U64_MAX;
      assert h + h <= p && Dominates(h, p) && Dominates(h, p);
    } else {
      forall a: nat, b: nat | a + b <= p && Dominates(a, p) && Dominates(b, p) ensures false {
        AtMostOne(a, b, p);
      }
    }
  }

  lemma AtMostOne(a: nat, b: nat, p: nat)
    requires a + b <= p < BLURRED
    ensures !(Dominates(a, p) && Dominates(b, p))
  {
    var m := if a <= b then a else b;
    assert 2 * m <= p;
    assert m * 100 <= p * 50;
    assert m * 100 < U64_MAX;
    if m != 0 {
      assert p * 60 > m * 100;
    }
  }

  /** In the arena of a walk, a directory below that size has at most one dominant child. */
  lemma DominantChildUnique(fs: Fs, o: Options, f: Fields, l: Ledger, p: nat, a: nat, b: nat)
    requires Sound(fs, o, f, l) && ChildOf(f.nodes, a, p) && ChildOf(f.nodes, b, p) && a != b && p < |f.nodes|
    requires f.nodes[p].bytes < BLURRED
    ensures !(Dominates(f.nodes[a].bytes, f.nodes[p].bytes) && Dominates(f.nodes[b].bytes, f.nodes[p].bytes))
  {
    ChildrenFit(l.shape, l.log, a, b);
    AtMostOne(f.nodes[a].bytes, f.nodes[b].bytes, f.nodes[p].bytes);
  }

  /** Bytes never grow along a hot path. */
  lemma HotPathDescends(fs: Fs, o: Options, f: Fields, l: Ledger, ids: seq<nat>, k: nat)
    requires Sound(fs, o, f, l) && Hops(f.nodes, ids) && k + 1 < |ids|
    ensures f.nodes[ids[k + 1]].bytes <= f.nodes[ids[k]].bytes
  {
    assert ChildOf(f.nodes, ids[k + 1], ids[k]);
    ChildFits(l.shape, l.log, ids[k + 1]);
  }

  /** A chain from the root down in which every directory dominates the one before. */
  ghost predicate DominanceChain(nodes: seq<DirNode>, ids: seq<nat>) {
    && ids != [] && ids[0] == ROOT_NODE
    && (forall k :: 0 <= k < |ids| ==> ids[k] < |nodes|)
    && forall k :: 0 <= k < |ids| - 1 ==>
         ChildOf(nodes, ids[k + 1], ids[k]) && Dominates(nodes[ids[k + 1]].bytes, nodes[ids[k]].bytes)
  }

  lemma {:induction false} HopsBelowRoot(fs: Fs, o: Options, f: Fields, l: Ledger, ids: seq<nat>, k: nat)
    requires Sound(fs, o, f, l) && Hops(f.nodes, ids) && k < |ids|
    ensures f.nodes[ids[k]].bytes <= f.nodes[ROOT_NODE].bytes
  {
    if k > 0 {
      HopsBelowRoot(fs, o, f, l, ids, k - 1);
      HotPathDescends(fs, o, f, l, ids, k - 1);
    }
  }

  /** From a directory on the hot path, the next dominating one is the next on it. */
  lemma HotStep(fs: Fs, o: Options, f: Fields, l: Ledger, ids: seq<nat>, k: nat, c: nat)
    requires Sound(fs, o, f, l) && HotIds(f.nodes, ids) && f.nodes[ROOT_NODE].bytes < BLURRED
    requires k < |ids| && k + 1 < HOT_PATH_MAX_DEPTH
    requires ChildOf(f.nodes, c, ids[k]) && Dominates(f.nodes[c].bytes, f.nodes[ids[k]].bytes)
    ensures k + 1 < |ids| && ids[k + 1] == c
  {
    HopsBelowRoot(fs, o, f, l, ids, k);
    assert k + 1 < |ids|;
    var d := ids[k + 1];
    assert ChildOf(f.nodes, d, ids[k]) && Dominates(f.nodes[d].bytes, f.nodes[ids[k]].bytes);
    if d != c {
      DominantChildUnique(fs, o, f, l, ids[k], c, d);
    }
  }

  /** A longer chain is a chain with one more step. */
  lemma ChainStep(nodes: seq<DirNode>, chain: seq<nat>)
    requires DominanceChain(nodes, chain) && |chain| > 1
    ensures var k := |chain| - 2;
            && DominanceChain(nodes, chain[..k + 1]) && chain[k] < |nodes| && chain[k + 1] < |nodes|
            && ChildOf(nodes, chain[k + 1], chain[k]) && Dominates(nodes[chain[k + 1]].bytes, nodes[chain[k]].bytes)
  {
  }

  lemma ChainRoot(nodes: seq<DirNode>, ids: seq<nat>, chain: seq<nat>)
    requires HotIds(nodes, ids) && DominanceChain(nodes, chain)
    ensures chain != [] && ids != [] && chain[0] == ids[0] == ROOT_NODE < |nodes|
  {
  }

  /** The hot path is the only dominance chain there is: every other one is a beginning of it. */
  lemma {:induction false} HotPathUnique(fs: Fs, o: Options, f: Fields, l: Ledger, ids: seq<nat>, chain: seq<nat>)
    requires Sound(fs, o, f, l) && HotIds(f.nodes, ids) && f.nodes[ROOT_NODE].bytes < BLURRED
    requires DominanceChain(f.nodes, chain) && |chain| <= HOT_PATH_MAX_DEPTH
    ensures chain <= ids
    decreases |chain|
  {
    hide Sound, HotIds, DominanceChain, ChildOf, Dominates;
    ChainRoot(f.nodes, ids, chain);
    if |chain| > 1 {
      var k := |chain| - 2;
      ChainStep(f.nodes, chain);
      HotPathUnique(fs, o, f, l, ids, chain[..k + 1]);
      assert ids[k] == chain[..k + 1][k] == chain[k];
      HotStep(fs, o, f, l, ids, k, chain[k + 1]);
    }
  }
}
