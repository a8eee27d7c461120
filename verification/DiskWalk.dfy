/** The walk from end to end: list the scan root, let the top-level directories take turns, and report. */
module DiskWalk {
  import opened Basics
  import opened Sorting
  import opened DiskTally
  import opened DiskLedger
  import opened DiskTop
  import opened DiskFair
  import opened DiskState
  import opened DiskSteps
  import opened DiskTurns
  import opened DiskResult
  import opened DiskReport
  import opened DiskOutcome
  import opened DiskWalker

  datatype RootKind = Missing | NotADirectory | Directory

  datatype WalkError = RootUnavailable | RootIsNotADirectory

  method LargestDirs(nodes: seq<DirNode>, top: nat) returns (r: seq<Sized>)
    ensures Largest(nodes, top, r)
    ensures NoEqualAncestor(r)
  {
    var all := LargestFirst(Candidates(nodes));
    var some := Take(all, CandidateLimit(top));
    CutIsTop(Candidates(nodes), CandidateLimit(top), all);
    r := PruneNestedAncestors(some, AtLeastOne(top));
    assert Considered(nodes, top, some);
  }

  /** The top-level directories with work left, the largest first. */
  method IncompleteDirs(nodes: seq<DirNode>, subs: seq<Subtree>) returns (r: seq<Sized>)
    requires forall k :: 0 <= k < |subs| ==> subs[k].rootNode < |nodes|
    ensures NamesUnfinished(nodes, subs, |subs|, r)
    ensures forall i, j :: 0 <= i < j < |r| ==> r[i].0 >= r[j].0
  {
    var all := Unfinished(nodes, subs, |subs|);
    r := LargestFirst(all);
    UnfinishedNamed(nodes, subs, |subs|);
    NamesSorted(nodes, subs, all, r);
  }

  method Finish(fs: Fs, o: Options, f: Fields, subs: seq<Subtree>, truncated: bool, ghost l: Ledger)
    returns (r: WalkReport)
    requires Sound(fs, o, f, l) && SubtreesOk(fs, l.shape, subs)
    ensures Reported(fs, o, f, l, subs, r) && r.truncated == truncated
  {
    var files := LargestFirst(f.topFiles);
    ghost var rest := TopFilesFound(fs, o, f, l, files);
    RootSpot(fs, o, f, l);
    var largest := LargestDirs(f.nodes, o.top);
    var hot := HotPath(f.nodes);
    var incomplete := IncompleteDirs(f.nodes, subs);
    r := WalkReport(f.report, truncated, Take(files, o.top), |subs|, largest, hot, incomplete, UnreadableRoots(subs));
    UnreadableExact(fs, l.shape, subs);
  }

  /** Writes the report of a run that ended with `due` still owed. */
  method Conclude(fs: Fs, o: Options, f: Fields, subs: seq<Subtree>, step: Step, ghost l: Ledger, ghost due: seq<Work>)
    returns (r: WalkReport)
    requires Sound(fs, o, f, l) && SubtreesOk(fs, l.shape, subs) && Books(fs, o.maxDepth, l, due)
    requires OwedByOthers(l.shape, subs, due)
    requires step == Ended ==> due == [] && forall k :: 0 <= k < |subs| ==> subs[k].Finished()
    ensures Reported(fs, o, f, l, subs, r) && LowerBound(fs, o, r.counters) && ExactWhereDone(fs, o, l, r)
    ensures DistinctNames(fs) ==> LargestExactly(f.nodes, o.top, r.largestDirs)
    ensures r.truncated == (step != Ended)
    ensures step == Ended ==> r.incompleteDirs == []
    ensures step == Ended && r.counters.dirsUntracked == 0 ==> WholeTree(fs, o, l, r)
  {
    r := Finish(fs, o, f, subs, step != Ended, l);
    WalkIsLowerBound(fs, o, f, l, due);
    DoneIsExact(fs, o, f, l, subs, due, r);
    if DistinctNames(fs) {
      LargestIsExact(fs, o, f, l, due, o.top, r.largestDirs);
    }
    if step == Ended {
      NothingIncomplete(f.nodes, subs, r.incompleteDirs);
      if l.lost == [] {
        CompleteIsWhole(fs, o, f, l, subs, r);
      }
    }
  }

  /**
   The bounded walk. `clock` says at which look at the clock the deadline has passed, and `ticks` is how often it was
   looked at. The other ghost results are the final fields, their ledger, the states of the top-level directories, the
   number of entries read and of directories opened. If the deadline passes by look `k`, the walk has read and opened
   no more than the looks before it allow.
   */
  method Walk(fs: Fs, o: Options, clock: nat -> bool, kind: RootKind)
    returns (r: Result<WalkReport, WalkError>,
             ghost f: Fields, ghost l: Ledger, ghost subs: seq<Subtree>, ghost seen: nat, ghost ticks: nat,
             ghost opens: nat)
    ensures kind == Missing <==> r == Err(RootUnavailable)
    ensures kind == NotADirectory <==> r == Err(RootIsNotADirectory)
    ensures r.Ok? ==> Sound(fs, o, f, l) && AllTops(o, l.shape, subs) && Reported(fs, o, f, l, subs, r.value)
    ensures r.Ok? ==> seen == Taken(l, 0) <= o.maxEntries
    ensures r.Ok? ==> LowerBound(fs, o, r.value.counters) && ExactWhereDone(fs, o, l, r.value)
    ensures r.Ok? && DistinctNames(fs) ==> LargestExactly(f.nodes, o.top, r.value.largestDirs)
    ensures r.Ok? && !r.value.truncated ==> r.value.incompleteDirs == [] && Quiet(clock, 0, ticks)
    ensures r.Ok? && !r.value.truncated && r.value.counters.dirsUntracked == 0 ==> WholeTree(fs, o, l, r.value)
    ensures r.Ok? && r.value.truncated ==> seen == o.maxEntries || !Quiet(clock, 0, ticks)
    ensures r.Ok? && Quiet(clock, 0, ticks) && o.maxEntries >= RootEntries(fs, o) + |subs| ==> AllRead(l, subs)
    ensures r.Ok? ==> opens >= 1 && Timely(clock, 0, ticks, seen + 512 * (opens - 1), !Quiet(clock, 0, ticks))
    ensures r.Ok? ==> forall k: nat :: clock(k) ==> seen + 512 * (opens - 1) <= 512 * k
    ensures r.Ok? && o.root in fs && o.maxEntries > 0 && clock(0) ==> r.value.truncated && seen == 0
  {
    hide Sound, Books, AllTops, Reported, LowerBound, ExactWhereDone, LargestExactly, WholeTree, AllRead, Timely, Quiet;
    f, l, subs, seen, ticks, opens := StartFields(o), StartLedger(o), [], 0, 0, 0;
    if kind == Missing {
      return Err(RootUnavailable), f, l, subs, seen, ticks, opens;
    }
    if kind == NotADirectory {
      return Err(RootIsNotADirectory), f, l, subs, seen, ticks, opens;
    }
    var walker := new Walker(fs, o, clock);
    var top, rootStep, rest := ListRoot(walker);
    var trees, step;
    ghost var due;
    trees, step, due := TakeTurns(walker, top, rootStep, rest);
    f, l, subs, seen, ticks, opens := walker.state, walker.ledger, trees, walker.seen, walker.ticks, walker.opens;
    forall k: nat | clock(k)
      ensures seen + 512 * (opens - 1) <= 512 * k && (k < ticks ==> !Quiet(clock, 0, ticks))
    {
      DeadlineObeyed(clock, 0, ticks, seen + 512 * (opens - 1), !Quiet(clock, 0, ticks), k);
    }
    var report := Conclude(fs, o, walker.state, trees, step, l, due);
    r := Ok(report);
  }

  /** Phase one: reads the scan root itself, as far as the budget allows. */
  method ListRoot(walker: Walker) returns (top: seq<(nat, nat)>, step: Step, ghost rest: seq<Work>)
    requires walker.Valid() && walker.seen == walker.ticks == walker.opens == 0
    requires walker.ledger == StartLedger(walker.options)
    modifies walker
    ensures walker.Valid() && StackOk(walker.ledger.shape, top)
    ensures Progress(walker.options.maxDepth, StartLedger(walker.options), 0, [], walker.seen, walker.ledger, top)
    ensures Books(walker.fs, walker.options.maxDepth, walker.ledger, StackWork(walker.ledger.shape, top) + rest)
    ensures forall k :: 0 <= k < |rest| ==> rest[k].at == walker.ledger.shape[0]
    ensures walker.seen <= RootEntries(walker.fs, walker.options)
    ensures if step == Ended then rest == [] else step == OutOfTime || walker.seen == walker.options.maxEntries
    ensures Timely(walker.clock, 0, walker.ticks, walker.seen, step == OutOfTime) && walker.opens == 1
    ensures walker.options.root in walker.fs && walker.options.maxEntries > 0 ==> walker.ticks > 0
  {
    hide Sound;
    ghost var fs, o, l := walker.fs, walker.options, walker.ledger;
    StartBooks(fs, o);
    BooksOpen(fs, o.maxDepth, l, [], 0);
    NoProgress(o.maxDepth, l, 0, []);
    var cursor := walker.Open(ROOT_NODE, 0);
    top, step, rest := [], Ended, [];
    if cursor.Some? {
      var c, consumed;
      RootCursor(fs, o, l, cursor.value);
      c, top, consumed, step := walker.Advance(cursor.value, U64_MAX, [], []);
      l := walker.ledger;
      RootRest(fs, o, l, c, top);
      rest := if step == Ended then [] else CursorWork(l.shape, Some(c));
    } else {
      ClosedProgress(o.maxDepth, l, walker.ledger);
      NothingOwed(l.shape);
    }
  }

  /** Phase two: if the listing of the scan root ended, the top-level directories take turns. */
  method TakeTurns(walker: Walker, top: seq<(nat, nat)>, rootStep: Step, ghost rest: seq<Work>)
    returns (trees: seq<Subtree>, step: Step, ghost due: seq<Work>)
    requires walker.Valid() && StackOk(walker.ledger.shape, top)
    requires Progress(walker.options.maxDepth, StartLedger(walker.options), 0, [], walker.seen, walker.ledger, top)
    requires Books(walker.fs, walker.options.maxDepth, walker.ledger, StackWork(walker.ledger.shape, top) + rest)
    requires forall k :: 0 <= k < |rest| ==> rest[k].at == walker.ledger.shape[0]
    requires walker.seen <= RootEntries(walker.fs, walker.options)
    requires if rootStep == Ended then rest == [] else rootStep == OutOfTime || walker.seen == walker.options.maxEntries
    requires Timely(walker.clock, 0, walker.ticks, walker.seen, rootStep == OutOfTime) && walker.opens == 1
    modifies walker
    ensures walker.opens >= 1 && old(walker.ticks) <= walker.ticks
    ensures Timely(walker.clock, 0, walker.ticks, walker.seen + 512 * (walker.opens - 1),
                   !Quiet(walker.clock, 0, walker.ticks))
    ensures walker.Valid() && SubtreesOk(walker.fs, walker.ledger.shape, trees)
    ensures Books(walker.fs, walker.options.maxDepth, walker.ledger, due)
    ensures OwedByOthers(walker.ledger.shape, trees, due) && AllTops(walker.options, walker.ledger.shape, trees)
    ensures walker.seen == Taken(walker.ledger, 0)
    ensures step == Ended ==> due == [] && forall k :: 0 <= k < |trees| ==> trees[k].Finished()
    ensures step == Ended ==> Quiet(walker.clock, 0, walker.ticks)
    ensures step != Ended ==> walker.seen == walker.options.maxEntries || !Quiet(walker.clock, 0, walker.ticks)
    ensures Quiet(walker.clock, 0, walker.ticks)
            && walker.options.maxEntries >= RootEntries(walker.fs, walker.options) + |trees|
            ==> AllRead(walker.ledger, trees)
  {
    ghost var fs, o, l := walker.fs, walker.options, walker.ledger;
    LineUp(fs, o, walker.state, l, walker.seen, top);
    trees := NewSubtrees(walker.state.nodes, top);
    step, due := rootStep, StackWork(l.shape, top) + rest;
    if rootStep == Ended {
      assert StackWork(l.shape, top) + [] == StackWork(l.shape, top);
      ghost var start, trace;
      LinedNumbered(o, l, trees);
      trees, step, start, trace := walker.DrainRoundRobin(trees);
      due := SubtreesWork(fs, walker.ledger.shape, trees);
      ghost var t, more := old(walker.ticks), walker.seen - old(walker.seen) + 512 * (walker.opens - 1 + |trace|);
      TimelyJoin(walker.clock, 0, t, walker.ticks, old(walker.seen), more, step == OutOfTime);
    } else {
      ListingOwes(o, l.shape, trees, StackWork(l.shape, top), rest);
    }
  }

}
