/** The turns the top-level directories take: the queue, what a slice reads, and what all slices add up to. */
module DiskTurns {
  import opened DiskTally
  import opened DiskLedger
  import opened DiskFair
  import opened DiskState

  ghost predicate SameRoots(a: seq<Subtree>, b: seq<Subtree>) {
    |a| == |b| && forall k :: 0 <= k < |a| ==> a[k].rootNode == b[k].rootNode
  }

  /** The queue holds exactly the directories that have work left, each once. */
  ghost predicate QueueOk(queue: seq<nat>, subs: seq<Subtree>) {
    && (forall k :: k in queue ==> k < |subs|)
    && (forall k :: 0 <= k < |subs| ==> (k in queue <==> !subs[k].Finished()))
    && Unique(queue)
  }

  lemma SomeWait(queue: seq<nat>, subs: seq<Subtree>)
    requires QueueOk(queue, subs)
    ensures queue == [] <==> forall k :: 0 <= k < |subs| ==> subs[k].Finished()
  {
    if queue != [] {
      assert queue[0] in queue;
    }
  }

  /** The order in which the directories were found. */
  ghost predicate InOrder(queue: seq<nat>) {
    forall i, j :: 0 <= i < j < |queue| ==> queue[i] < queue[j]
  }

  method UnfinishedIndices(subs: seq<Subtree>) returns (queue: seq<nat>)
    ensures QueueOk(queue, subs) && InOrder(queue)
  {
    queue := [];
    for i := 0 to |subs|
      invariant forall k :: k in queue ==> k < i
      invariant forall k :: 0 <= k < i ==> (k in queue <==> !subs[k].Finished())
      invariant Unique(queue) && InOrder(queue)
    {
      if !subs[i].Finished() {
        UniqueAppend(queue, i);
        assert forall k :: 0 <= k < |queue| ==> queue[k] in queue;
        queue := queue + [i];
      }
    }
  }

  /** Serving the head of the queue and putting it back when it has work left keeps the queue exact. */
  lemma QueueServe(queue: seq<nat>, subs: seq<Subtree>, sub: Subtree, queue': seq<nat>)
    requires QueueOk(queue, subs) && queue != [] && queue[0] in queue
    requires queue' == queue[1..] + (if sub.Finished() then [] else [queue[0]])
    ensures QueueOk(queue', subs[queue[0] := sub])
  {
    var head, subs' := queue[0], subs[queue[0] := sub];
    if sub.Finished() {
      assert queue' == queue[1..];
    } else {
      UniqueAppend(queue[1..], head);
    }
    forall k | 0 <= k < |subs| ensures k in queue' <==> !subs'[k].Finished() {
      if k != head {
        assert k in queue <==> k in queue[1..];
      }
    }
    assert forall k :: k in queue' ==> k in queue;
  }

  /** The run so far: its slices, the queue and the budget they leave, and what still has work. */
  ghost predicate Turn(start: seq<nat>, budget: int, trace: seq<Slice>, queue: seq<nat>, remaining: int,
                       subs: seq<Subtree>)
  {
    && Run(start, budget, trace)
    && QueueOk(queue, subs)
    && queue == QueueAt(start, trace, |trace|)
    && remaining == RemainingAt(budget, trace, |trace|)
    && (trace != [] ==> trace[|trace| - 1].step != OutOfTime)
  }

  lemma TurnServe(start: seq<nat>, budget: int, trace: seq<Slice>, subs: seq<Subtree>, slice: Slice, next: seq<Subtree>)
    requires Turn(start, budget, trace, slice.queue, slice.remaining, subs) && SliceOk(slice)
    requires slice.queue[0] < |subs| == |next| && next == subs[slice.queue[0] := next[slice.queue[0]]]
    requires slice.step == Ended <==> next[slice.queue[0]].Finished()
    ensures Run(start, budget, trace + [slice])
    ensures slice.remaining - slice.used == RemainingAt(budget, trace + [slice], |trace| + 1)
    ensures slice.step != OutOfTime ==>
      Turn(start, budget, trace + [slice], Requeue(slice), slice.remaining - slice.used, next)
  {
    RunAppend(start, budget, trace, slice);
    if slice.step != OutOfTime {
      QueueServe(slice.queue, subs, next[slice.queue[0]], Requeue(slice));
    }
  }

  lemma TurnHead(start: seq<nat>, budget: int, trace: seq<Slice>, queue: seq<nat>, remaining: int, subs: seq<Subtree>)
    requires Turn(start, budget, trace, queue, remaining, subs) && queue != []
    ensures queue[0] < |subs|
  {
    assert queue[0] in queue;
  }

  /** How a round-robin run ended, and with what left over. */
  ghost predicate RunOutcome(start: seq<nat>, budget: int, trace: seq<Slice>, step: Step, remaining: int,
                             subs: seq<Subtree>)
  {
    && Run(start, budget, trace)
    && remaining == RemainingAt(budget, trace, |trace|)
    && match step
       case Ended => Turn(start, budget, trace, [], remaining, subs)
       case OutOfEntries =>
         remaining == 0 && Turn(start, budget, trace, QueueAt(start, trace, |trace|), remaining, subs)
       case OutOfTime => true
       case Paused => false
  }

  /** No look at the clock in this span found the deadline passed. */
  ghost predicate Quiet(clock: nat -> bool, from: nat, to: nat) {
    forall t :: from <= t < to ==> !clock(t)
  }

  /**
   How looks at the clock keep up with the work: each pays for 512 entries or for one step of another kind, and the
   one that finds the deadline passed is the last and pays for nothing.
   */
  ghost predicate Timely(clock: nat -> bool, from: nat, to: nat, work: int, fired: bool) {
    && from <= to
    && (fired <==> !Quiet(clock, from, to))
    && (fired ==> from < to && Quiet(clock, from, to - 1))
    && work <= 512 * (to - from - if fired then 1 else 0)
  }

  lemma TimelyStart(clock: nat -> bool, from: nat)
    ensures Timely(clock, from, from, 0, false)
  {
  }

  lemma TimelyLess(clock: nat -> bool, from: nat, to: nat, work: int, less: int, fired: bool)
    requires Timely(clock, from, to, work, fired) && less <= work
    ensures Timely(clock, from, to, less, fired)
  {
  }

  lemma TimelyPaid(clock: nat -> bool, from: nat, to: nat, work: int, more: int)
    requires Timely(clock, from, to, work, false) && more <= 512 * (to - from)
    ensures Timely(clock, from, to, more, false)
  {
  }

  lemma TimelyJoin(clock: nat -> bool, from: nat, mid: nat, to: nat, work: int, more: int, fired: bool)
    requires Timely(clock, from, mid, work, false) && Timely(clock, mid, to, more, fired)
    ensures Timely(clock, from, to, work + more, fired)
  {
  }

  /** A deadline that passes by look number `k` leaves time for 512 entries per look before it, and no more. */
  lemma DeadlineObeyed(clock: nat -> bool, from: nat, to: nat, work: int, fired: bool, k: nat)
    requires Timely(clock, from, to, work, fired) && from <= k && clock(k)
    ensures work <= 512 * (k - from)
    ensures k < to ==> fired
  {
  }

  // ----- what a slice reads ----------------------------------------------------------------------------

  /** The entries taken in below directory `n`. */
  ghost function Taken(l: Ledger, n: nat): nat {
    Acc(Entries, l.log, n)
  }

  ghost function NewDirs(from: nat, to: nat, depth: nat): seq<(nat, nat)>
    requires from <= to
  {
    seq(to - from, k requires 0 <= k < to - from => (from + k, depth))
  }

  /**
   What reading on in directory `id` leads to: `used` entries, all taken in there, and new directories directly
   below it, which are all to be opened unless they are past the depth limit.
   */
  ghost predicate Progress(maxDepth: nat, l: Ledger, id: nat, sink: seq<(nat, nat)>, used: nat,
                           l': Ledger, sink': seq<(nat, nat)>)
    requires id < |l.shape|
  {
    && l.shape <= l'.shape && |l'.shape| <= |l.shape| + used
    && (forall i :: |l.shape| <= i < |l'.shape| ==> l'.shape[i].parent == id)
    && sink' == sink + (if l.shape[id].depth < maxDepth
                        then NewDirs(|l.shape|, |l'.shape|, l.shape[id].depth + 1)
                        else [])
    && forall n: nat :: Taken(l', n) == Taken(l, n) + if n in l.shape[id].above then used else 0
  }

  lemma NoProgress(maxDepth: nat, l: Ledger, id: nat, sink: seq<(nat, nat)>)
    requires id < |l.shape|
    ensures Progress(maxDepth, l, id, sink, 0, l, sink)
  {
    assert sink + [] == sink;
  }

  lemma AbsorbTakes(maxDepth: nat, id: nat, e: Entry, l: Ledger, sink: seq<(nat, nat)>, l': Ledger,
                    sink': seq<(nat, nat)>, n: nat)
    requires id < |l.shape| && Absorbed(maxDepth, id, e, l, sink, l', sink')
    ensures Taken(l', n) == Taken(l, n) + if n in l.shape[id].above then 1 else 0
  {
  }

  lemma ProgressStep(maxDepth: nat, l: Ledger, id: nat, sink: seq<(nat, nat)>, used: nat, l1: Ledger,
                     sink1: seq<(nat, nat)>, e: Entry, l2: Ledger, sink2: seq<(nat, nat)>)
    requires id < |l.shape| && Progress(maxDepth, l, id, sink, used, l1, sink1)
    requires Absorbed(maxDepth, id, e, l1, sink1, l2, sink2)
    ensures Progress(maxDepth, l, id, sink, used + 1, l2, sink2)
  {
    forall n: nat ensures Taken(l2, n) == Taken(l, n) + if n in l.shape[id].above then used + 1 else 0 {
      AbsorbTakes(maxDepth, id, e, l1, sink1, l2, sink2, n);
    }
  }

  /**
   Work in a top-level directory: new directories lie in it, the entries read are entries of it, and no other
   top-level directory notices.
   */
  ghost predicate Moved(l: Ledger, l': Ledger, top: nat, used: nat) {
    && l.shape <= l'.shape
    && (forall i :: |l.shape| <= i < |l'.shape| ==> top in l'.shape[i].above)
    && Taken(l', 0) == Taken(l, 0) + used
    && Taken(l', top) == Taken(l, top) + used
    && forall n: nat :: TopLevel(l.shape, n) && n != top ==> Taken(l', n) == Taken(l, n)
  }

  lemma MovedTwice(l: Ledger, l1: Ledger, l2: Ledger, top: nat, a: nat, b: nat)
    requires Moved(l, l1, top, a) && Moved(l1, l2, top, b)
    ensures Moved(l, l2, top, a + b)
  {
    forall n: nat | TopLevel(l.shape, n) && n != top ensures Taken(l2, n) == Taken(l, n) {
      assert TopLevel(l1.shape, n);
    }
  }

  /** A directory that cannot be opened is noted without reading an entry. */
  lemma ClosedMoves(l: Ledger, id: nat, top: nat)
    requires id < |l.shape|
    ensures Moved(l, l, top, 0) && Moved(l, Noted(l, id, ClosedItem), top, 0)
  {
  }

  lemma ProgressMoves(maxDepth: nat, l: Ledger, id: nat, sink: seq<(nat, nat)>, used: nat, l': Ledger,
                      sink': seq<(nat, nat)>, top: nat)
    requires id < |l.shape| && Progress(maxDepth, l, id, sink, used, l', sink')
    requires TreeOk(l.shape) && TreeOk(l'.shape) && TopLevel(l.shape, top) && top in l.shape[id].above
    ensures Moved(l, l', top, used)
    ensures Under(l.shape, top, sink) ==> Under(l'.shape, top, sink')
  {
    forall i | |l.shape| <= i < |l'.shape| ensures top in l'.shape[i].above {
      assert SpotOk(l'.shape, i);
    }
    assert SpotOk(l.shape, id);
    forall n: nat | TopLevel(l.shape, n) && n != top ensures Taken(l', n) == Taken(l, n) {
      SiblingsDisjoint(l.shape, top, n, id);
    }
  }

  // ----- what the slices add up to ---------------------------------------------------------------------

  /** The top-level directories are the first arena nodes after the root, in order. */
  ghost predicate Numbered(subs: seq<Subtree>) {
    forall k :: 0 <= k < |subs| ==> subs[k].rootNode == k + 1
  }

  /** What was read of each top-level directory since `l0` is what its slices used. */
  ghost predicate Tied(l0: Ledger, l: Ledger, trace: seq<Slice>, subs: seq<Subtree>) {
    forall i :: 0 <= i < |subs| ==> TiedAt(l0, l, trace, i)
  }

  ghost predicate TiedAt(l0: Ledger, l: Ledger, trace: seq<Slice>, i: nat) {
    Taken(l, i + 1) == Taken(l0, i + 1) + UsedBy(trace, |trace|, i)
  }

  lemma TiedServe(l0: Ledger, l: Ledger, l': Ledger, trace: seq<Slice>, slice: Slice, subs: seq<Subtree>)
    requires Tied(l0, l, trace, subs) && slice.queue != [] && slice.queue[0] < |subs|
    requires Numbered(subs) && forall i :: 0 <= i < |subs| ==> TopLevel(l.shape, subs[i].rootNode)
    requires Moved(l, l', slice.queue[0] + 1, slice.used)
    ensures Tied(l0, l', trace + [slice], subs)
  {
    forall i | 0 <= i < |subs| ensures TiedAt(l0, l', trace + [slice], i) {
      assert TiedAt(l0, l, trace, i) && TopLevel(l.shape, subs[i].rootNode);
      UsedAppend(trace, slice, i);
    }
  }

  /**
   Nobody starves: with an entry for every directory that has work and no deadline met, each of them is finished
   at the end or was read from.
   */
  ghost predicate Fair(l0: Ledger, l: Ledger, start: seq<nat>, subs: seq<Subtree>) {
    forall d :: d in start ==> d < |subs| && (subs[d].Finished() || Taken(l, d + 1) > Taken(l0, d + 1))
  }

  lemma OutcomeIsFair(l0: Ledger, l: Ledger, start: seq<nat>, budget: int, trace: seq<Slice>, step: Step,
                      remaining: int, subs: seq<Subtree>)
    requires RunOutcome(start, budget, trace, step, remaining, subs) && Tied(l0, l, trace, subs)
    requires step != OutOfTime && |start| <= budget && Unique(start) && forall d :: d in start ==> d < |subs|
    ensures Fair(l0, l, start, subs)
  {
    forall d | d in start ensures subs[d].Finished() || Taken(l, d + 1) > Taken(l0, d + 1) {
      var j :| 0 <= j < |start| && start[j] == d;
      AllServed(start, budget, trace, j);
      assert TiedAt(l0, l, trace, d);
    }
  }

  lemma FairOutcome(l0: Ledger, l: Ledger, start: seq<nat>, budget: int, trace: seq<Slice>, step: Step, remaining: int,
                    subs: seq<Subtree>, subs': seq<Subtree>)
    requires RunOutcome(start, budget, trace, step, remaining, subs') && Tied(l0, l, trace, subs')
    requires step != OutOfTime && QueueOk(start, subs) && SameRoots(subs, subs')
    ensures |start| <= budget ==> Fair(l0, l, start, subs')
  {
    if |start| <= budget {
      OutcomeIsFair(l0, l, start, budget, trace, step, remaining, subs');
    }
  }

  /** Since `l0` no top-level directory was added, and `used` entries were read in all. */
  ghost predicate Steady(l0: Ledger, l: Ledger, used: int) {
    && l0.shape <= l.shape
    && (forall n: nat :: TopLevel(l.shape, n) ==> n < |l0.shape|)
    && Taken(l, 0) == Taken(l0, 0) + used
  }

  lemma NotTop(shape: seq<Spot>, top: nat, n: nat)
    requires TreeOk(shape) && 0 < top < n < |shape| && top in shape[n].above
    ensures !TopLevel(shape, n)
  {
    assert SpotOk(shape, n) && SpotOk(shape, 0);
  }

  lemma SteadyMore(l0: Ledger, l: Ledger, l': Ledger, top: nat, before: int, used: nat)
    requires Steady(l0, l, before) && Moved(l, l', top, used) && TopLevel(l.shape, top) && TreeOk(l'.shape)
    ensures Steady(l0, l', before + used)
  {
    forall n: nat | TopLevel(l'.shape, n) ensures n < |l0.shape| {
      if n < |l.shape| {
        assert TopLevel(l.shape, n);
      } else {
        NotTop(l'.shape, top, n);
      }
    }
  }

  // ----- a turn ----------------------------------------------------------------------------------------

  /** Where a run stands between two slices. */
  ghost predicate Standing(l0: Ledger, l: Ledger, start: seq<nat>, budget: int, trace: seq<Slice>, queue: seq<nat>,
                           remaining: int, subs: seq<Subtree>)
  {
    && Turn(start, budget, trace, queue, remaining, subs)
    && Numbered(subs) && Tied(l0, l, trace, subs) && Steady(l0, l, budget - remaining)
  }

  /** Where a run has got to in the end. */
  ghost predicate Concluded(l0: Ledger, l: Ledger, start: seq<nat>, budget: int, trace: seq<Slice>, step: Step,
                            remaining: int, subs: seq<Subtree>)
  {
    && RunOutcome(start, budget, trace, step, remaining, subs)
    && Tied(l0, l, trace, subs) && Steady(l0, l, budget - remaining)
  }

  lemma StandingHead(l0: Ledger, l: Ledger, start: seq<nat>, budget: int, trace: seq<Slice>, queue: seq<nat>,
                     remaining: int, subs: seq<Subtree>)
    requires Standing(l0, l, start, budget, trace, queue, remaining, subs) && queue != [] && remaining >= 1
    ensures queue[0] < |subs| && 1 <= Quantum(remaining, |queue|) <= remaining
  {
    TurnHead(start, budget, trace, queue, remaining, subs);
    ShareLeavesEnough(remaining, |queue|, 1);
  }

  /** A slice leads from one standing to the next. */
  lemma StandingServe(l0: Ledger, l: Ledger, l': Ledger, start: seq<nat>, budget: int, trace: seq<Slice>, slice: Slice,
                      subs: seq<Subtree>, subs': seq<Subtree>)
    requires Standing(l0, l, start, budget, trace, slice.queue, slice.remaining, subs) && SliceOk(slice)
    requires slice.queue[0] < |subs| == |subs'| && subs' == subs[slice.queue[0] := subs'[slice.queue[0]]]
    requires subs'[slice.queue[0]].rootNode == subs[slice.queue[0]].rootNode
    requires slice.step == Ended <==> subs'[slice.queue[0]].Finished()
    requires TreeOk(l'.shape) && forall k :: 0 <= k < |subs| ==> TopLevel(l.shape, subs[k].rootNode)
    requires Moved(l, l', subs[slice.queue[0]].rootNode, slice.used)
    ensures var trace', left := trace + [slice], slice.remaining - slice.used;
            if slice.step == OutOfTime then Concluded(l0, l', start, budget, trace', OutOfTime, left, subs')
            else Standing(l0, l', start, budget, trace', Requeue(slice), left, subs')
  {
    TurnServe(start, budget, trace, subs, slice, subs');
    TiedServe(l0, l, l', trace, slice, subs);
    SteadyMore(l0, l, l', slice.queue[0] + 1, budget - slice.remaining, slice.used);
  }

  /** The same, from what one slice of the walk is known to do. */
  lemma SliceServed(fs: Fs, o: Options, l0: Ledger, l: Ledger, f': Fields, l': Ledger, start: seq<nat>, budget: int,
                    trace: seq<Slice>, slice: Slice, subs: seq<Subtree>, subs': seq<Subtree>)
    requires Standing(l0, l, start, budget, trace, slice.queue, slice.remaining, subs) && SliceOk(slice)
    requires Schedules(fs, o.maxDepth, l, subs) && Sound(fs, o, f', l') && slice.queue[0] < |subs| == |subs'|
    requires subs' == subs[slice.queue[0] := subs'[slice.queue[0]]]
    requires subs'[slice.queue[0]].rootNode == subs[slice.queue[0]].rootNode
    requires slice.step == Ended <==> subs'[slice.queue[0]].Finished()
    requires Moved(l, l', subs[slice.queue[0]].rootNode, slice.used)
    ensures SameRoots(subs, subs')
    ensures var trace', left := trace + [slice], slice.remaining - slice.used;
            if slice.step == OutOfTime then Concluded(l0, l', start, budget, trace', OutOfTime, left, subs')
            else Standing(l0, l', start, budget, trace', Requeue(slice), left, subs')
  {
    StandingServe(l0, l, l', start, budget, trace, slice, subs, subs');
  }

  lemma StandingRoots(a: seq<Subtree>, b: seq<Subtree>, c: seq<Subtree>)
    requires SameRoots(a, b) && SameRoots(b, c)
    ensures SameRoots(a, c)
  {
  }

  lemma BeginTurns(l: Ledger, start: seq<nat>, budget: int, subs: seq<Subtree>)
    requires QueueOk(start, subs) && Numbered(subs)
    requires forall n: nat :: TopLevel(l.shape, n) ==> n < |l.shape|
    ensures Standing(l, l, start, budget, [], start, budget, subs)
  {
  }

  /**
   What the turns of `subs` come to, with `budget` entries to begin with and `remaining` in the end. The slices in
   `trace` tell what was read of each directory; `start` are those that had work. If there was an entry for each of
   them and the deadline was not met, nobody starved.
   */
  ghost predicate Finale(fs: Fs, maxDepth: nat, l0: Ledger, l: Ledger, subs: seq<Subtree>, subs': seq<Subtree>,
                         start: seq<nat>, budget: int, trace: seq<Slice>, step: Step, remaining: int)
  {
    && QueueOk(start, subs) && SameRoots(subs, subs')
    && Schedules(fs, maxDepth, l, subs')
    && Concluded(l0, l, start, budget, trace, step, remaining, subs')
    && (step != OutOfTime && |start| <= budget ==> Fair(l0, l, start, subs'))
  }

  lemma EndTurns(fs: Fs, maxDepth: nat, l0: Ledger, l: Ledger, start: seq<nat>, budget: int, trace: seq<Slice>,
                 queue: seq<nat>, remaining: int, step: Step, subs: seq<Subtree>, subs': seq<Subtree>)
    requires Standing(l0, l, start, budget, trace, queue, remaining, subs')
    requires QueueOk(start, subs) && SameRoots(subs, subs') && Schedules(fs, maxDepth, l, subs')
    requires (step == Ended && queue == []) || (step == OutOfEntries && remaining == 0) || step == OutOfTime
    ensures Finale(fs, maxDepth, l0, l, subs, subs', start, budget, trace, step, remaining)
  {
    if step != OutOfTime {
      FairOutcome(l0, l, start, budget, trace, step, remaining, subs, subs');
    }
  }

  lemma StopTurns(fs: Fs, maxDepth: nat, l0: Ledger, l: Ledger, start: seq<nat>, budget: int, trace: seq<Slice>,
                  remaining: int, subs: seq<Subtree>, subs': seq<Subtree>)
    requires Concluded(l0, l, start, budget, trace, OutOfTime, remaining, subs')
    requires QueueOk(start, subs) && SameRoots(subs, subs') && Schedules(fs, maxDepth, l, subs')
    ensures Finale(fs, maxDepth, l0, l, subs, subs', start, budget, trace, OutOfTime, remaining)
  {
  }
}
