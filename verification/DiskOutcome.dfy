/** What a finished run amounts to: the report against the ledger, exactness where it is due, and fairness. */
module DiskOutcome {
  import opened Basics
  import opened Sorting
  import opened DiskTally
  import opened DiskLedger
  import opened DiskTop
  import opened DiskFair
  import opened DiskState
  import opened DiskSteps
  import opened DiskTurns
  import opened DiskResult
  import opened DiskReport

  datatype WalkReport = WalkReport(
    counters: Counters,
    truncated: bool,
    topFiles: seq<Sized>,
    topLevelDirs: nat,
    largestDirs: seq<Sized>,
    hotPath: seq<Sized>,
    incompleteDirs: seq<Sized>,
    unreadableDirs: seq<Path>)

  // ----- starting ------------------------------------------------------------------------------------

  lemma StartBooks(fs: Fs, o: Options)
    ensures Books(fs, o.maxDepth, StartLedger(o), [] + [Open(StartLedger(o).shape[0])])
  {
    var l := StartLedger(o);
    var work := [] + [Open(l.shape[0])];
    forall what: Measure ensures Balanced(Scope(fs, o.maxDepth, what), l.shape, l.log, l.lost, work) {
      forall n | 0 <= n < |l.shape| ensures BalancedAt(Scope(fs, o.maxDepth, what), l.shape, l.log, l.lost, work, n) {
        PendAppend(Scope(fs, o.maxDepth, what), [], Open(l.shape[0]), n);
      }
    }
  }

  /** One state per top-level directory found in the scan root. */
  function NewSubtrees(nodes: seq<DirNode>, top: seq<(nat, nat)>): seq<Subtree>
    requires forall k :: 0 <= k < |top| ==> top[k].0 < |nodes|
  {
    seq(|top|, k requires 0 <= k < |top| => Subtree(nodes[top[k].0].path, top[k].0, [top[k]], None, false))
  }

  lemma NewSubtreesOk(fs: Fs, nodes: seq<DirNode>, shape: seq<Spot>, top: seq<(nat, nat)>)
    requires TreeOk(shape) && StackOk(shape, top) && |nodes| == |shape|
    requires forall i :: 0 <= i < |nodes| ==> nodes[i].path == shape[i].path
    requires forall k :: 0 <= k < |top| ==> TopLevel(shape, top[k].0)
    ensures SubtreesOk(fs, shape, NewSubtrees(nodes, top))
  {
    var subs := NewSubtrees(nodes, top);
    forall k | 0 <= k < |subs| ensures SubtreeOk(fs, shape, subs[k]) {
      SelfAbove(shape, top[k].0);
      assert Untouched(shape, subs[k]);
    }
  }

  lemma {:induction false} NewSubtreesWork(fs: Fs, nodes: seq<DirNode>, shape: seq<Spot>, top: seq<(nat, nat)>)
    requires StackOk(shape, top) && |nodes| == |shape| && SubtreesOk(fs, shape, NewSubtrees(nodes, top))
    ensures SubtreesWork(fs, shape, NewSubtrees(nodes, top)) == StackWork(shape, top)
  {
    if top != [] {
      var subs := NewSubtrees(nodes, top);
      assert Front(subs) == NewSubtrees(nodes, Front(top));
      NewSubtreesWork(fs, nodes, shape, Front(top));
      assert StackWork(shape, top) == StackWork(shape, Front(top)) + [Open(shape[Last(top).0])];
      assert SubtreeWork(fs, shape, Last(subs)) == [Open(shape[Last(top).0])];
    }
  }

  /** The top-level directories of the arena are those that take turns, each once. */
  ghost predicate AllTops(o: Options, shape: seq<Spot>, subs: seq<Subtree>) {
    && Numbered(subs)
    && if o.maxDepth >= 1 then forall n: nat :: TopLevel(shape, n) <==> 1 <= n <= |subs| else subs == []
  }

  /** The listing of the scan root finds them all, and has read nothing below them. */
  lemma RootProgress(fs: Fs, o: Options, f: Fields, l: Ledger, used: nat, top: seq<(nat, nat)>)
    requires Sound(fs, o, f, l) && Progress(o.maxDepth, StartLedger(o), 0, [], used, l, top)
    ensures forall k :: 0 <= k < |top| ==> top[k].0 == k + 1 && TopLevel(l.shape, top[k].0)
    ensures if o.maxDepth >= 1 then |top| == |l.shape| - 1 else top == []
    ensures forall n: nat :: TopLevel(l.shape, n) <==> 1 <= n < |l.shape|
    ensures Taken(l, 0) == used && forall n: nat :: n > 0 ==> Taken(l, n) == 0
  {
  }

  lemma AllTopsSteady(o: Options, l: Ledger, subs: seq<Subtree>, l': Ledger, subs': seq<Subtree>, used: int)
    requires AllTops(o, l.shape, subs) && SameRoots(subs, subs') && Steady(l, l', used)
    requires forall n: nat :: TopLevel(l.shape, n) <==> 1 <= n < |l.shape|
    ensures AllTops(o, l'.shape, subs')
  {
    forall n: nat ensures TopLevel(l'.shape, n) <==> TopLevel(l.shape, n) {
    }
  }

  lemma {:induction false} FinishedOwesNothing(fs: Fs, shape: seq<Spot>, subs: seq<Subtree>)
    requires SubtreesOk(fs, shape, subs) && forall k :: 0 <= k < |subs| ==> subs[k].Finished()
    ensures SubtreesWork(fs, shape, subs) == []
  {
    if subs != [] {
      FinishedOwesNothing(fs, shape, Front(subs));
      assert Last(subs).Finished();
      assert StackWork(shape, Last(subs).stack) == [];
    }
  }

  // ----- the derived lists ---------------------------------------------------------------------------

  /** Arena directories other than the root that hold bytes. */
  function Candidates(nodes: seq<DirNode>): (r: seq<Sized>)
    ensures forall x :: x in r <==> IsDirectory(nodes, x)
    ensures |r| == |Holding(nodes, |nodes|)|
  {
    CandidatesUpto(nodes, |nodes|)
  }

  function CandidatesUpto(nodes: seq<DirNode>, n: nat): (r: seq<Sized>)
    requires n <= |nodes|
    ensures forall x :: x in r ==> IsDirectory(nodes, x)
    ensures forall k :: k in Holding(nodes, n) ==> (nodes[k].bytes, nodes[k].path) in r
    ensures |r| == |Holding(nodes, n)|
  {
    if n <= 1 then
      assert Holding(nodes, n) == {};
      []
    else
      var last := nodes[n - 1];
      assert Holding(nodes, n) == if last.bytes > 0 then Holding(nodes, n - 1) + {n - 1} else Holding(nodes, n - 1);
      CandidatesUpto(nodes, n - 1) + if last.bytes > 0 then [(last.bytes, last.path)] else []
  }

  ghost function Holding(nodes: seq<DirNode>, n: nat): set<nat>
    requires n <= |nodes|
  {
    set k | 0 < k < n && nodes[k].bytes > 0
  }

  function CandidateLimit(top: nat): nat {
    var wide := SaturatingMul(top, 8);
    if wide >= 32 then wide else 32
  }

  /** Eight times as many directories as asked for are looked at, at least 32. */
  ghost predicate Considered(nodes: seq<DirNode>, top: nat, some: seq<Sized>) {
    exists rest, limit ::
      && IsTop(Candidates(nodes), limit, some, rest)
      && limit == if top < 4 then 32 else if 8 * top > 0xFFFF_FFFF_FFFF_FFFF then 0xFFFF_FFFF_FFFF_FFFF else 8 * top
  }

  lemma ConsideredFrom(nodes: seq<DirNode>, top: nat, some: seq<Sized>)
    requires Considered(nodes, top, some)
    ensures forall x :: x in some ==> IsDirectory(nodes, x)
  {
    var rest, limit :| IsTop(Candidates(nodes), limit, some, rest);
    forall x | x in some ensures IsDirectory(nodes, x) {
      assert x in multiset(some);
      assert x in multiset(Candidates(nodes));
    }
  }

  /** The largest directories, with ancestors that something inside makes superfluous taken out. */
  ghost predicate Largest(nodes: seq<DirNode>, top: nat, r: seq<Sized>) {
    exists some :: Considered(nodes, top, some) && Pruned(some, if top == 0 then 1 else top, r)
  }

  function AtLeastOne(n: nat): nat {
    if n >= 1 then n else 1
  }

  /** A directory among them is missing only for one of equal size inside it, or because the list is full. */
  ghost predicate LargestExactly(nodes: seq<DirNode>, top: nat, r: seq<Sized>) {
    exists some ::
      && Considered(nodes, top, some) && Pruned(some, if top == 0 then 1 else top, r)
      && forall x :: x in some ==> x in r || DroppedForEqual(r, x) || (|r| >= top && Behind(r, x))
  }

  lemma LargestIsExact(fs: Fs, o: Options, f: Fields, l: Ledger, due: seq<Work>, top: nat, r: seq<Sized>)
    requires Sound(fs, o, f, l) && Books(fs, o.maxDepth, l, due) && DistinctNames(fs)
    requires Largest(f.nodes, top, r)
    ensures LargestExactly(f.nodes, top, r)
  {
    var some :| Considered(f.nodes, top, some) && Pruned(some, if top == 0 then 1 else top, r);
    ConsideredFrom(f.nodes, top, some);
    forall x | x in some ensures x in r || DroppedForEqual(r, x) || (|r| >= top && Behind(r, x)) {
      if x !in r && Dropped(r, x) {
        DroppedOnlyForEqual(fs, o, f, l, due, r, x);
      }
    }
  }

  /** The first `n` top-level directories that still have work, with the bytes found in them so far. */
  function Unfinished(nodes: seq<DirNode>, subs: seq<Subtree>, n: nat): seq<Sized>
    requires n <= |subs| && forall k :: 0 <= k < |subs| ==> subs[k].rootNode < |nodes|
  {
    if n == 0 then [] else
      var s := subs[n - 1];
      Unfinished(nodes, subs, n - 1) + if s.Finished() then [] else [(nodes[s.rootNode].bytes, s.root)]
  }

  ghost function Waiting(subs: seq<Subtree>, n: nat): set<nat>
    requires n <= |subs|
  {
    set k | 0 <= k < n && !subs[k].Finished()
  }

  /** `x` is the entry for a top-level directory with work left: its path and its bytes so far. */
  ghost predicate ForWaiting(nodes: seq<DirNode>, subs: seq<Subtree>, n: nat, x: Sized)
    requires n <= |subs| && forall k :: 0 <= k < |subs| ==> subs[k].rootNode < |nodes|
  {
    exists k :: 0 <= k < n && !subs[k].Finished() && x == (nodes[subs[k].rootNode].bytes, subs[k].root)
  }

  /** `r` has an entry for each of the first `n` top-level directories with work left, and no other. */
  ghost predicate NamesUnfinished(nodes: seq<DirNode>, subs: seq<Subtree>, n: nat, r: seq<Sized>)
    requires n <= |subs| && forall k :: 0 <= k < |subs| ==> subs[k].rootNode < |nodes|
  {
    (forall x :: x in r <==> ForWaiting(nodes, subs, n, x)) && |r| == |Waiting(subs, n)|
  }

  lemma {:induction false} UnfinishedSize(nodes: seq<DirNode>, subs: seq<Subtree>, n: nat)
    requires n <= |subs| && forall k :: 0 <= k < |subs| ==> subs[k].rootNode < |nodes|
    ensures |Unfinished(nodes, subs, n)| == |Waiting(subs, n)|
  {
    if n == 0 {
      assert Waiting(subs, 0) == {};
    } else {
      UnfinishedSize(nodes, subs, n - 1);
      var before := Waiting(subs, n - 1);
      assert Waiting(subs, n) == if subs[n - 1].Finished() then before else before + {n - 1};
    }
  }

  lemma {:induction false} UnfinishedNames(nodes: seq<DirNode>, subs: seq<Subtree>, n: nat, x: Sized)
    requires n <= |subs| && forall k :: 0 <= k < |subs| ==> subs[k].rootNode < |nodes|
    ensures x in Unfinished(nodes, subs, n) <==> ForWaiting(nodes, subs, n, x)
  {
    if n > 0 {
      UnfinishedNames(nodes, subs, n - 1, x);
    }
  }

  lemma UnfinishedNamed(nodes: seq<DirNode>, subs: seq<Subtree>, n: nat)
    requires n <= |subs| && forall k :: 0 <= k < |subs| ==> subs[k].rootNode < |nodes|
    ensures NamesUnfinished(nodes, subs, n, Unfinished(nodes, subs, n))
  {
    hide Unfinished, Waiting, ForWaiting;
    UnfinishedSize(nodes, subs, n);
    forall x ensures x in Unfinished(nodes, subs, n) <==> ForWaiting(nodes, subs, n, x) {
      UnfinishedNames(nodes, subs, n, x);
    }
  }

  /** Sorting keeps the names. */
  lemma NamesSorted(nodes: seq<DirNode>, subs: seq<Subtree>, r: seq<Sized>, sorted: seq<Sized>)
    requires forall k :: 0 <= k < |subs| ==> subs[k].rootNode < |nodes|
    requires NamesUnfinished(nodes, subs, |subs|, r) && multiset(sorted) == multiset(r) && |sorted| == |r|
    ensures NamesUnfinished(nodes, subs, |subs|, sorted)
  {
    forall x ensures x in sorted <==> x in r {
      assert x in sorted <==> x in multiset(sorted);
    }
  }

  /** The top-level directories that could not be opened. */
  function UnreadableRoots(subs: seq<Subtree>): seq<Path> {
    if subs == [] then [] else (if subs[0].unreadable then [subs[0].root] else []) + UnreadableRoots(subs[1..])
  }

  lemma {:induction false} UnreadableNamed(subs: seq<Subtree>, p: Path)
    ensures p in UnreadableRoots(subs) <==> exists k :: 0 <= k < |subs| && subs[k].unreadable && subs[k].root == p
  {
    if subs != [] {
      UnreadableNamed(subs[1..], p);
      if p in UnreadableRoots(subs[1..]) {
        var k :| 0 <= k < |subs[1..]| && subs[1..][k].unreadable && subs[1..][k].root == p;
        assert subs[k + 1].root == p;
      }
      forall k | 0 <= k < |subs| && subs[k].unreadable && subs[k].root == p ensures p in UnreadableRoots(subs) {
        if k > 0 {
          assert subs[1..][k - 1] == subs[k];
        }
      }
    }
  }

  /** A named directory cannot be opened, and one that was finished without being opened is named. */
  lemma UnreadableExact(fs: Fs, shape: seq<Spot>, subs: seq<Subtree>)
    requires SubtreesOk(fs, shape, subs)
    ensures forall p :: p in UnreadableRoots(subs) ==> p !in fs && exists k :: 0 <= k < |subs| && subs[k].root == p
    ensures forall k :: 0 <= k < |subs| && subs[k].Finished() && subs[k].root !in fs ==>
              subs[k].root in UnreadableRoots(subs)
  {
    forall p | p in UnreadableRoots(subs)
      ensures p !in fs && exists k :: 0 <= k < |subs| && subs[k].root == p
    {
      UnreadableNamed(subs, p);
      var k :| 0 <= k < |subs| && subs[k].unreadable && subs[k].root == p;
      assert SubtreeOk(fs, shape, subs[k]);
    }
    forall k | 0 <= k < |subs| && subs[k].Finished() && subs[k].root !in fs
      ensures subs[k].root in UnreadableRoots(subs)
    {
      assert SubtreeOk(fs, shape, subs[k]);
      UnreadableNamed(subs, subs[k].root);
    }
  }

  // ----- the walk ------------------------------------------------------------------------------------

  /** What the report says about the run that produced it. */
  ghost predicate Reported(fs: Fs, o: Options, f: Fields, l: Ledger, subs: seq<Subtree>, r: WalkReport) {
    && r.counters == f.report
    && SubtreesOk(fs, l.shape, subs) && |f.nodes| == |l.shape|
    && r.topLevelDirs == |subs|
    // the largest files are those a full sort would put first
    && (exists rest :: IsTop(l.eligible, o.top, r.topFiles, rest))
    // top-level directories with work left, and those that could not be opened, are all named
    && NamesUnfinished(f.nodes, subs, |subs|, r.incompleteDirs)
    && (forall p :: p in r.unreadableDirs ==> p !in fs && exists k :: 0 <= k < |subs| && subs[k].root == p)
    && (forall k :: 0 <= k < |subs| && subs[k].Finished() && subs[k].root !in fs ==> subs[k].root in r.unreadableDirs)
    && (forall i, j :: 0 <= i < j < |r.incompleteDirs| ==> r.incompleteDirs[i].0 >= r.incompleteDirs[j].0)
    && Largest(f.nodes, o.top, r.largestDirs) && NoEqualAncestor(r.largestDirs)
    && IsHotPath(f.nodes, r.hotPath)
  }

  lemma TopFilesFound(fs: Fs, o: Options, f: Fields, l: Ledger, files: seq<Sized>) returns (rest: seq<Sized>)
    requires Sound(fs, o, f, l)
    requires multiset(files) == multiset(f.topFiles) && SortedBy(files, Larger) && |files| == |f.topFiles|
    ensures IsTop(l.eligible, o.top, Take(files, o.top), rest)
  {
    if o.top > 0 {
      OnlineFinish(l.eligible, o.top, f.topFiles, f.topFileFloor, l.gone, files);
      rest := Over(files, o.top) + l.gone;
    } else {
      rest := l.eligible;
    }
  }

  ghost predicate Named(incomplete: seq<Sized>, path: Path) {
    exists k :: 0 <= k < |incomplete| && incomplete[k].1 == path
  }

  /** No top-level directory at arena number `n` has work left. */
  ghost predicate DoneAt(subs: seq<Subtree>, n: nat) {
    forall k :: 0 <= k < |subs| && subs[k].rootNode == n ==> subs[k].Finished()
  }

  /** All that is owed is owed in directories that are not done. */
  ghost predicate OwedByOthers(shape: seq<Spot>, subs: seq<Subtree>, due: seq<Work>) {
    forall n: nat :: TopLevel(shape, n) && DoneAt(subs, n) ==> Elsewhere(due, n)
  }

  /**
   Even a run that was cut short is exact where it says nothing to the contrary: a top-level directory that is not
   named incomplete, with no directory lost in it, has been taken in as a whole.
   */
  ghost predicate ExactWhereDone(fs: Fs, o: Options, l: Ledger, r: WalkReport) {
    forall n: nat :: TopLevel(l.shape, n) && !Named(r.incompleteDirs, l.shape[n].path) && NoneLost(l, n) ==>
      Settled(fs, o, l, n)
  }

  /** A top-level directory with work left is named. */
  lemma UnfinishedIsNamed(fs: Fs, o: Options, f: Fields, l: Ledger, subs: seq<Subtree>, r: WalkReport, k: nat)
    requires Reported(fs, o, f, l, subs, r) && k < |subs| && !subs[k].Finished()
    ensures subs[k].rootNode < |l.shape| && Named(r.incompleteDirs, l.shape[subs[k].rootNode].path)
  {
    assert SubtreeOk(fs, l.shape, subs[k]);
    var x := (f.nodes[subs[k].rootNode].bytes, subs[k].root);
    assert ForWaiting(f.nodes, subs, |subs|, x);
    var i :| 0 <= i < |r.incompleteDirs| && r.incompleteDirs[i] == x;
  }

  lemma NotNamedIsDone(fs: Fs, o: Options, f: Fields, l: Ledger, subs: seq<Subtree>, r: WalkReport, n: nat)
    requires Reported(fs, o, f, l, subs, r) && n < |l.shape| && !Named(r.incompleteDirs, l.shape[n].path)
    ensures DoneAt(subs, n)
  {
    forall k | 0 <= k < |subs| && subs[k].rootNode == n ensures subs[k].Finished() {
      if !subs[k].Finished() {
        UnfinishedIsNamed(fs, o, f, l, subs, r, k);
      }
    }
  }

  lemma DoneIsExact(fs: Fs, o: Options, f: Fields, l: Ledger, subs: seq<Subtree>, due: seq<Work>, r: WalkReport)
    requires Books(fs, o.maxDepth, l, due) && OwedByOthers(l.shape, subs, due) && Reported(fs, o, f, l, subs, r)
    ensures ExactWhereDone(fs, o, l, r)
  {
    forall n: nat | TopLevel(l.shape, n) && !Named(r.incompleteDirs, l.shape[n].path) && NoneLost(l, n)
      ensures Settled(fs, o, l, n)
    {
      NotNamedIsDone(fs, o, f, l, subs, r, n);
      ElsewhereSettles(fs, o, l, due, n);
    }
  }

  /** What a run says when it is not cut short, and nothing was too much for the arena. */
  ghost predicate WholeTree(fs: Fs, o: Options, l: Ledger, r: WalkReport) {
    && Complete(fs, o, l)
    && Exact(fs, o, r.counters)
    && LargestOfTree(fs, o, r.topFiles)
    && Taken(l, 0) == RootDu(fs, o, Entries)
  }

  lemma CompleteIsWhole(fs: Fs, o: Options, f: Fields, l: Ledger, subs: seq<Subtree>, r: WalkReport)
    requires Sound(fs, o, f, l) && Complete(fs, o, l) && Reported(fs, o, f, l, subs, r)
    ensures WholeTree(fs, o, l, r)
  {
    CompleteIsExact(fs, o, f, l);
    var rest :| IsTop(l.eligible, o.top, r.topFiles, rest);
    CompleteLists(fs, o, f, l, r.topFiles, rest);
    RootSpot(fs, o, f, l);
    CompleteAt(fs, o, l, Entries, 0);
  }

  lemma NothingIncomplete(nodes: seq<DirNode>, subs: seq<Subtree>, incomplete: seq<Sized>)
    requires forall k :: 0 <= k < |subs| ==> subs[k].rootNode < |nodes| && subs[k].Finished()
    requires NamesUnfinished(nodes, subs, |subs|, incomplete)
    ensures incomplete == []
  {
    assert Waiting(subs, |subs|) == {};
  }

  // ----- from end to end -----------------------------------------------------------------------------

  ghost function RootEntries(fs: Fs, o: Options): nat {
    if o.root in fs then |fs[o.root]| else 0
  }

  /** Nobody starved: every top-level directory is done or was read from. */
  ghost predicate AllRead(l: Ledger, subs: seq<Subtree>) {
    forall k :: 0 <= k < |subs| ==> subs[k].Finished() || Taken(l, subs[k].rootNode) >= 1
  }

  lemma FairIsRead(l0: Ledger, l: Ledger, start: seq<nat>, before: seq<Subtree>, subs: seq<Subtree>)
    requires Fair(l0, l, start, subs) && QueueOk(start, before) && Numbered(before) && SameRoots(before, subs)
    requires forall k :: 0 <= k < |before| ==> !before[k].Finished()
    ensures AllRead(l, subs)
  {
    forall k | 0 <= k < |subs| ensures subs[k].Finished() || Taken(l, subs[k].rootNode) >= 1 {
      assert !before[k].Finished();
      assert k in start;
    }
  }

  lemma TurnsOwe(fs: Fs, shape: seq<Spot>, subs: seq<Subtree>)
    requires TreeOk(shape) && SubtreesOk(fs, shape, subs)
    ensures OwedByOthers(shape, subs, SubtreesWork(fs, shape, subs))
  {
    forall n: nat | TopLevel(shape, n) && DoneAt(subs, n) ensures Elsewhere(SubtreesWork(fs, shape, subs), n) {
      OthersElsewhere(fs, shape, subs, n);
    }
  }

  lemma NotDone(o: Options, shape: seq<Spot>, subs: seq<Subtree>, n: nat)
    requires AllTops(o, shape, subs) && subs != [] && TopLevel(shape, n)
    requires forall k :: 0 <= k < |subs| ==> !subs[k].Finished()
    ensures !DoneAt(subs, n)
  {
    assert subs[n - 1].rootNode == n;
  }

  /** As long as the scan root itself is being listed, no top-level directory is done. */
  lemma ListingOwes(o: Options, shape: seq<Spot>, subs: seq<Subtree>, work: seq<Work>, rest: seq<Work>)
    requires TreeOk(shape) && AllTops(o, shape, subs) && forall k :: 0 <= k < |subs| ==> !subs[k].Finished()
    requires subs == [] ==> work == []
    requires forall k :: 0 <= k < |rest| ==> rest[k].at == shape[0]
    ensures OwedByOthers(shape, subs, work + rest)
  {
    assert SpotOk(shape, 0);
    forall n: nat | TopLevel(shape, n) && DoneAt(subs, n) ensures Elsewhere(work + rest, n) {
      if subs != [] {
        NotDone(o, shape, subs, n);
      } else {
        assert work + rest == rest;
      }
    }
  }

  /** The scan root is being read: nothing else is owed. */
  lemma RootCursor(fs: Fs, o: Options, l: Ledger, c: DirCursor)
    requires CursorOk(fs, l.shape, c) && Books(fs, o.maxDepth, l, [] + [Reading(l.shape[c.node], c.entries)])
    ensures Reads(fs, o.maxDepth, l, c, [], [])
  {
    assert [] + StackWork(l.shape, []) + CursorWork(l.shape, Some(c)) == [] + [Reading(l.shape[c.node], c.entries)];
  }

  lemma RootRest(fs: Fs, o: Options, l: Ledger, c: DirCursor, top: seq<(nat, nat)>)
    requires Reads(fs, o.maxDepth, l, c, top, [])
    ensures Books(fs, o.maxDepth, l, StackWork(l.shape, top) + CursorWork(l.shape, Some(c)))
    ensures c.entries == [] ==> Books(fs, o.maxDepth, l, StackWork(l.shape, top) + [])
  {
    var work := StackWork(l.shape, top);
    assert [] + work == work && work + [] == work;
    if c.entries == [] {
      BooksClose(fs, o.maxDepth, l, work, l.shape[c.node]);
    }
  }

  lemma NothingOwed(shape: seq<Spot>)
    ensures StackWork(shape, []) + [] == []
  {
  }

  lemma ClosedProgress(maxDepth: nat, l: Ledger, l': Ledger)
    requires l.shape != [] && l' == Noted(l, 0, ClosedItem)
    ensures Progress(maxDepth, l, 0, [], 0, l', [])
  {
    assert NewDirs(|l.shape|, |l.shape|, l.shape[0].depth + 1) == [];
  }

  /** What holds between the two phases: the top-level directories are known and nothing was read below them. */
  ghost predicate Lined(o: Options, l: Ledger, trees: seq<Subtree>) {
    && AllTops(o, l.shape, trees)
    && (forall n: nat :: TopLevel(l.shape, n) <==> 1 <= n < |l.shape|)
    && (forall k :: 0 <= k < |trees| ==> !trees[k].Finished())
  }

  lemma LinedNumbered(o: Options, l: Ledger, trees: seq<Subtree>)
    requires Lined(o, l, trees)
    ensures Numbered(trees)
  {
  }

  lemma LineUp(fs: Fs, o: Options, f: Fields, l: Ledger, used: nat, top: seq<(nat, nat)>)
    requires Sound(fs, o, f, l) && StackOk(l.shape, top)
    requires Progress(o.maxDepth, StartLedger(o), 0, [], used, l, top)
    ensures Taken(l, 0) == used && SubtreesOk(fs, l.shape, NewSubtrees(f.nodes, top))
    ensures Lined(o, l, NewSubtrees(f.nodes, top))
    ensures SubtreesWork(fs, l.shape, NewSubtrees(f.nodes, top)) == StackWork(l.shape, top)
  {
    RootProgress(fs, o, f, l, used, top);
    NewSubtreesOk(fs, f.nodes, l.shape, top);
    NewSubtreesWork(fs, f.nodes, l.shape, top);
    NewLined(o, f, l, top);
  }

  lemma NewLined(o: Options, f: Fields, l: Ledger, top: seq<(nat, nat)>)
    requires forall k :: 0 <= k < |top| ==> top[k].0 == k + 1 && top[k].0 < |f.nodes|
    requires if o.maxDepth >= 1 then |top| == |l.shape| - 1 else top == []
    requires forall n: nat :: TopLevel(l.shape, n) <==> 1 <= n < |l.shape|
    ensures Lined(o, l, NewSubtrees(f.nodes, top))
  {
  }

  /** What the turns leave behind. */
  ghost predicate Ran(fs: Fs, o: Options, l: Ledger, trees: seq<Subtree>, step: Step) {
    && Schedules(fs, o.maxDepth, l, trees)
    && AllTops(o, l.shape, trees)
    && OwedByOthers(l.shape, trees, SubtreesWork(fs, l.shape, trees))
    && (step == Ended ==>
          SubtreesWork(fs, l.shape, trees) == [] && forall k :: 0 <= k < |trees| ==> trees[k].Finished())
  }

  /** What turns that phase one has lined up come to, from the fields the walk is left with. */
  ghost predicate Outcome(fs: Fs, o: Options, l0: Ledger, l: Ledger, subs: seq<Subtree>, subs': seq<Subtree>,
                          budget: int, step: Step, remaining: int)
  {
    && Taken(l, 0) == Taken(l0, 0) + budget - remaining
    && (step == Ended || step == OutOfTime || remaining == 0)
    && (Lined(o, l0, subs) ==>
          && Ran(fs, o, l, subs', step)
          && (step != OutOfTime && |subs| <= budget ==> AllRead(l, subs')))
  }

  lemma FinaleOutcome(fs: Fs, o: Options, l0: Ledger, l: Ledger, subs: seq<Subtree>, subs': seq<Subtree>,
                      start: seq<nat>, budget: int, trace: seq<Slice>, step: Step, remaining: int)
    requires Finale(fs, o.maxDepth, l0, l, subs, subs', start, budget, trace, step, remaining) && TreeOk(l.shape)
    ensures Outcome(fs, o, l0, l, subs, subs', budget, step, remaining)
  {
    if Lined(o, l0, subs) {
      AllTopsSteady(o, l0, subs, l, subs', budget - remaining);
      TurnsOwe(fs, l.shape, subs');
      QueueFits(start, |subs|);
      if step == Ended {
        FinishedOwesNothing(fs, l.shape, subs');
      }
      if Fair(l0, l, start, subs') {
        FairIsRead(l0, l, start, subs, subs');
      }
    }
  }

  lemma SoundTree(fs: Fs, o: Options, f: Fields, l: Ledger)
    requires Sound(fs, o, f, l)
    ensures TreeOk(l.shape)
  {
  }

  lemma EndRun(fs: Fs, o: Options, l0: Ledger, f: Fields, l: Ledger, start: seq<nat>, budget: int, trace: seq<Slice>,
               queue: seq<nat>, remaining: int, step: Step, subs: seq<Subtree>, subs': seq<Subtree>)
    requires Standing(l0, l, start, budget, trace, queue, remaining, subs') && Sound(fs, o, f, l)
    requires QueueOk(start, subs) && SameRoots(subs, subs') && Schedules(fs, o.maxDepth, l, subs')
    requires (step == Ended && queue == []) || (step == OutOfEntries && remaining == 0) || step == OutOfTime
    ensures Finale(fs, o.maxDepth, l0, l, subs, subs', start, budget, trace, step, remaining)
    ensures Outcome(fs, o, l0, l, subs, subs', budget, step, remaining)
  {
    hide *;
    SoundTree(fs, o, f, l);
    EndTurns(fs, o.maxDepth, l0, l, start, budget, trace, queue, remaining, step, subs, subs');
    FinaleOutcome(fs, o, l0, l, subs, subs', start, budget, trace, step, remaining);
  }

  lemma StopRun(fs: Fs, o: Options, l0: Ledger, f: Fields, l: Ledger, start: seq<nat>, budget: int, trace: seq<Slice>,
                remaining: int, subs: seq<Subtree>, subs': seq<Subtree>)
    requires Concluded(l0, l, start, budget, trace, OutOfTime, remaining, subs') && Sound(fs, o, f, l)
    requires QueueOk(start, subs) && SameRoots(subs, subs') && Schedules(fs, o.maxDepth, l, subs')
    ensures Finale(fs, o.maxDepth, l0, l, subs, subs', start, budget, trace, OutOfTime, remaining)
    ensures Outcome(fs, o, l0, l, subs, subs', budget, OutOfTime, remaining)
  {
    hide *;
    SoundTree(fs, o, f, l);
    StopTurns(fs, o.maxDepth, l0, l, start, budget, trace, remaining, subs, subs');
    FinaleOutcome(fs, o, l0, l, subs, subs', start, budget, trace, OutOfTime, remaining);
  }

  ghost function Upto(n: nat): (r: set<nat>)
    ensures |r| == n && forall k: nat :: k in r <==> k < n
  {
    if n == 0 then {} else Upto(n - 1) + {n - 1}
  }

  lemma {:induction false} QueueFitsIn(queue: seq<nat>, s: set<nat>)
    requires Unique(queue) && forall k :: k in queue ==> k in s
    ensures |queue| <= |s|
  {
    if queue != [] {
      QueueFitsIn(queue[1..], s - {queue[0]});
    }
  }

  lemma QueueFits(queue: seq<nat>, n: nat)
    requires Unique(queue) && forall k :: k in queue ==> k < n
    ensures |queue| <= n
  {
    QueueFitsIn(queue, Upto(n));
  }
}
