/** The round-robin schedule of the walk: how entries are shared out, and that nobody starves. */
module DiskFair {
  datatype Step = Ended | Paused | OutOfEntries | OutOfTime

  const SCAN_SLICE_ENTRIES: nat := 4096

  /** The slice granted when `remaining` entries are left and `waiting` directories still have work. */
  function Quantum(remaining: nat, waiting: nat): nat
    requires waiting >= 1
  {
    var share := remaining / waiting;
    if share < 1 then 1 else if share > SCAN_SLICE_ENTRIES then SCAN_SLICE_ENTRIES else share
  }

  /** One slice: the queue it was taken from (its head is served), the entries left before it, and its outcome. */
  datatype Slice = Slice(queue: seq<nat>, remaining: nat, used: nat, step: Step)

  ghost predicate SliceOk(s: Slice) {
    && s.queue != []
    && s.remaining >= 1
    && s.used <= Quantum(s.remaining, |s.queue|)
    && s.used <= s.remaining
    && s.step != OutOfEntries
    && (s.step == Paused ==> s.used == Quantum(s.remaining, |s.queue|))
  }

  /** The queue after a slice: a paused directory goes to the back. */
  ghost function Requeue(s: Slice): seq<nat>
    requires s.queue != []
  {
    s.queue[1..] + (if s.step == Paused then [s.queue[0]] else [])
  }

  /** The queue and the budget after the first `i` slices. */
  ghost function QueueAt(start: seq<nat>, trace: seq<Slice>, i: nat): seq<nat>
    requires i <= |trace|
  {
    if i == 0 || trace[i - 1].queue == [] then start else Requeue(trace[i - 1])
  }

  ghost function RemainingAt(start: int, trace: seq<Slice>, i: nat): int
    requires i <= |trace|
  {
    if i == 0 then start else trace[i - 1].remaining - trace[i - 1].used
  }

  ghost predicate Linked(queue: seq<nat>, remaining: int, trace: seq<Slice>, k: nat)
    requires k < |trace|
  {
    && SliceOk(trace[k])
    && trace[k].queue == QueueAt(queue, trace, k)
    && trace[k].remaining == RemainingAt(remaining, trace, k)
    && (k + 1 < |trace| ==> trace[k].step != OutOfTime)
  }

  /** A run of slices: each one starts where the previous one left the queue and the budget. */
  ghost predicate Run(queue: seq<nat>, remaining: int, trace: seq<Slice>) {
    forall k :: 0 <= k < |trace| ==> Linked(queue, remaining, trace, k)
  }

  lemma ShareFits(remaining: nat, queued: nat)
    requires queued >= 1
    ensures queued * (remaining / queued) <= remaining
    ensures remaining / queued >= 1 ==> remaining - remaining / queued >= queued - 1
    ensures remaining / queued <= remaining
  {
    var share := remaining / queued;
    assert remaining == queued * share + remaining % queued;
    if share >= 1 {
      Grows(queued - 1, share);
      assert queued * share == (queued - 1) * share + share;
    }
  }

  lemma Grows(a: nat, b: nat)
    requires b >= 1
    ensures a * b >= a
  {
  }

  /** The slice is the largest even share of what is left, but at least one entry and at most 4096. */
  lemma QuantumIsShare(remaining: nat, waiting: nat)
    requires waiting >= 1
    ensures 1 <= Quantum(remaining, waiting) <= 4096
    ensures Quantum(remaining, waiting) > 1 ==> waiting * Quantum(remaining, waiting) <= remaining
    ensures Quantum(remaining, waiting) < 4096 ==> waiting * (Quantum(remaining, waiting) + 1) > remaining
  {
    var share := remaining / waiting;
    assert remaining == waiting * share + remaining % waiting;
    if share > SCAN_SLICE_ENTRIES {
      Scales(waiting, SCAN_SLICE_ENTRIES, share);
    }
    if share < 1 {
      assert waiting * 2 > remaining;
    }
  }

  lemma Scales(a: nat, b: nat, c: nat)
    requires b <= c
    ensures a * b <= a * c
  {
  }

  /** Granting one slice leaves at least one entry for each of the others that still wait. */
  lemma ShareLeavesEnough(remaining: nat, queued: nat, waiting: nat)
    requires 1 <= waiting <= queued && waiting <= remaining
    ensures 1 <= Quantum(remaining, queued) <= remaining
    ensures remaining - Quantum(remaining, queued) >= waiting - 1
  {
    ShareFits(remaining, queued);
  }

  /** Inside a round: the first `j` directories of the queue at slice `k` were served; the others come next. */
  ghost predicate InRound(first: seq<nat>, j: nat, queue: seq<nat>, remaining: int) {
    && j <= |first|
    && |queue| <= |first|
    && first[j..] <= queue
    && remaining >= |first| - j
  }

  lemma RoundStep(first: seq<nat>, j: nat, s: Slice)
    requires InRound(first, j, s.queue, s.remaining) && j < |first|
    requires SliceOk(s) && s.step != OutOfTime
    ensures InRound(first, j + 1, Requeue(s), s.remaining - s.used)
  {
    ShareLeavesEnough(s.remaining, |s.queue|, |first| - j);
    assert first[j..][1..] == first[j + 1..];
    assert first[j..][1..] <= s.queue[1..] <= Requeue(s);
  }

  lemma SliceQueue(queue: seq<nat>, remaining: int, trace: seq<Slice>, k: nat)
    requires Run(queue, remaining, trace) && k < |trace|
    ensures trace[k].queue != [] && trace[k].queue == QueueAt(queue, trace, k)
    ensures trace[k].remaining == RemainingAt(remaining, trace, k)
    ensures trace[k].step == OutOfTime ==> k == |trace| - 1
  {
    assert Linked(queue, remaining, trace, k);
  }

  /** One more slice of the round, as the run has it. */
  lemma RoundStepAt(queue: seq<nat>, remaining: int, trace: seq<Slice>, first: seq<nat>, j: nat, m: nat)
    requires Run(queue, remaining, trace) && m < |trace| && j < |first| && trace[m].step != OutOfTime
    requires InRound(first, j, QueueAt(queue, trace, m), RemainingAt(remaining, trace, m))
    ensures InRound(first, j + 1, QueueAt(queue, trace, m + 1), RemainingAt(remaining, trace, m + 1))
  {
    assert Linked(queue, remaining, trace, m);
    RoundStep(first, j, trace[m]);
  }

  lemma RoundStart(first: seq<nat>, remaining: int)
    requires remaining >= |first|
    ensures InRound(first, 0, first, remaining)
  {
    assert first[0..] == first;
  }

  lemma {:induction false} RoundFrom(queue: seq<nat>, remaining: int, trace: seq<Slice>, k: nat, j: nat,
                                     first: seq<nat>)
    requires Run(queue, remaining, trace) && k + j <= |trace| && j <= |first|
    requires first == QueueAt(queue, trace, k) && RemainingAt(remaining, trace, k) >= |first|
    requires forall i :: k <= i < k + j ==> trace[i].step != OutOfTime
    ensures InRound(first, j, QueueAt(queue, trace, k + j), RemainingAt(remaining, trace, k + j))
    decreases j
  {
    hide *;
    if j == 0 {
      RoundStart(first, RemainingAt(remaining, trace, k));
    } else {
      RoundFrom(queue, remaining, trace, k, j - 1, first);
      RoundStepAt(queue, remaining, trace, first, j - 1, k + j - 1);
    }
  }

  /** The first `j` slices from slice `k` on serve the first `j` directories of its queue. */
  lemma RoundState(queue: seq<nat>, remaining: int, trace: seq<Slice>, k: nat, j: nat)
    requires Run(queue, remaining, trace)
    requires k < |trace| && k + j <= |trace| && j <= |trace[k].queue| && trace[k].remaining >= |trace[k].queue|
    requires k + j < |trace| || trace[|trace| - 1].step != OutOfTime
    ensures InRound(trace[k].queue, j, QueueAt(queue, trace, k + j), RemainingAt(remaining, trace, k + j))
  {
    SliceQueue(queue, remaining, trace, k);
    forall i | k <= i < k + j ensures trace[i].step != OutOfTime {
      SliceQueue(queue, remaining, trace, i);
    }
    RoundFrom(queue, remaining, trace, k, j, trace[k].queue);
  }

  /**
   No starvation: from any slice on at which every queued directory could still get an entry, each of them is
   served in turn before any is served again, and its slice consumes an entry, ends it, or meets the deadline.
   Only the deadline can end the run before the round is over.
   */
  lemma NoStarvation(queue: seq<nat>, remaining: int, trace: seq<Slice>, k: nat, j: nat)
    requires Run(queue, remaining, trace)
    requires k < |trace| && trace[k].remaining >= |trace[k].queue| && j < |trace[k].queue|
    ensures k + j < |trace| ==>
              && trace[k + j].queue != [] && trace[k + j].queue[0] == trace[k].queue[j]
              && (trace[k + j].used >= 1 || trace[k + j].step == Ended || trace[k + j].step == OutOfTime)
    ensures k + j >= |trace| && trace[|trace| - 1].step != OutOfTime ==>
              QueueAt(queue, trace, |trace|) != [] && RemainingAt(remaining, trace, |trace|) >= 1
  {
    if k + j < |trace| {
      RoundState(queue, remaining, trace, k, j);
      assert Linked(queue, remaining, trace, k + j);
      ShareLeavesEnough(trace[k + j].remaining, |trace[k + j].queue|, |trace[k].queue| - j);
    } else if trace[|trace| - 1].step != OutOfTime {
      RoundState(queue, remaining, trace, k, |trace| - k);
    }
  }

  /** Appending the next slice of a run. */
  lemma RunAppend(queue: seq<nat>, remaining: int, trace: seq<Slice>, s: Slice)
    requires Run(queue, remaining, trace) && SliceOk(s)
    requires s.queue == QueueAt(queue, trace, |trace|) && s.remaining == RemainingAt(remaining, trace, |trace|)
    requires trace != [] ==> trace[|trace| - 1].step != OutOfTime
    ensures Run(queue, remaining, trace + [s])
  {
    var trace' := trace + [s];
    forall k | 0 <= k < |trace'| ensures Linked(queue, remaining, trace', k) {
      if k < |trace| {
        assert Linked(queue, remaining, trace, k);
      }
    }
  }

  // ----- every directory gets its share --------------------------------------------------------------

  /** What the first `k` slices read for directory `d`. */
  ghost function UsedBy(trace: seq<Slice>, k: nat, d: nat): nat
    requires k <= |trace|
  {
    if k == 0 then 0 else UsedBy(trace, k - 1, d) + if Serves(trace[k - 1], d) then trace[k - 1].used else 0
  }

  ghost predicate Serves(s: Slice, d: nat) {
    s.queue != [] && s.queue[0] == d
  }

  lemma {:induction false} UsedPrefix(trace: seq<Slice>, trace': seq<Slice>, k: nat, d: nat)
    requires k <= |trace| && trace <= trace'
    ensures UsedBy(trace', k, d) == UsedBy(trace, k, d)
  {
    if k > 0 {
      UsedPrefix(trace, trace', k - 1, d);
    }
  }

  lemma UsedAppend(trace: seq<Slice>, s: Slice, d: nat)
    ensures UsedBy(trace + [s], |trace| + 1, d) == UsedBy(trace, |trace|, d) + if Serves(s, d) then s.used else 0
  {
    UsedPrefix(trace, trace + [s], |trace|, d);
  }

  lemma {:induction false} UsedAtLeast(trace: seq<Slice>, k: nat, j: nat)
    requires j < k <= |trace| && trace[j].queue != []
    ensures UsedBy(trace, k, trace[j].queue[0]) >= trace[j].used
  {
    if j < k - 1 {
      UsedAtLeast(trace, k - 1, j);
    }
  }

  /** No directory is in the queue twice. */
  ghost predicate Unique(queue: seq<nat>) {
    queue != [] ==> queue[0] !in queue[1..] && Unique(queue[1..])
  }

  lemma {:induction false} UniqueAppend(queue: seq<nat>, d: nat)
    requires Unique(queue) && d !in queue
    ensures Unique(queue + [d])
  {
    if queue != [] {
      assert (queue + [d])[1..] == queue[1..] + [d];
      UniqueAppend(queue[1..], d);
    }
  }

  lemma RequeueUnique(s: Slice)
    requires s.queue != [] && Unique(s.queue)
    ensures Unique(Requeue(s))
    ensures forall d :: d in Requeue(s) ==> d in s.queue
    ensures s.step == Ended ==> s.queue[0] !in Requeue(s)
  {
    if s.step == Paused {
      UniqueAppend(s.queue[1..], s.queue[0]);
    } else {
      assert Requeue(s) == s.queue[1..];
    }
  }

  lemma {:induction false} QueuesUnique(queue: seq<nat>, remaining: int, trace: seq<Slice>, k: nat)
    requires Run(queue, remaining, trace) && Unique(queue) && k <= |trace|
    ensures Unique(QueueAt(queue, trace, k))
  {
    if k > 0 {
      QueuesUnique(queue, remaining, trace, k - 1);
      assert Linked(queue, remaining, trace, k - 1);
      RequeueUnique(trace[k - 1]);
    }
  }

  /** Who has left the queue does not come back. */
  lemma {:induction false} NeverBack(queue: seq<nat>, remaining: int, trace: seq<Slice>, k: nat, m: nat, d: nat)
    requires Run(queue, remaining, trace) && Unique(queue) && k <= m <= |trace| && d !in QueueAt(queue, trace, k)
    ensures d !in QueueAt(queue, trace, m)
    decreases m
  {
    if k < m {
      NeverBack(queue, remaining, trace, k, m - 1, d);
      assert Linked(queue, remaining, trace, m - 1);
      QueuesUnique(queue, remaining, trace, m - 1);
      RequeueUnique(trace[m - 1]);
    }
  }

  /**
   With an entry for everybody and no deadline, a run that stops for want of work or of entries has read something
   for every directory it began with, or finished it.
   */
  lemma AllServed(queue: seq<nat>, budget: int, trace: seq<Slice>, j: nat)
    requires Run(queue, budget, trace) && Unique(queue) && j < |queue| <= budget
    requires trace != [] ==> trace[|trace| - 1].step != OutOfTime
    requires QueueAt(queue, trace, |trace|) == [] || RemainingAt(budget, trace, |trace|) == 0
    ensures UsedBy(trace, |trace|, queue[j]) >= 1 || queue[j] !in QueueAt(queue, trace, |trace|)
  {
    FirstRound(queue, budget, trace, j);
    ServedOrGone(queue, budget, trace, j);
  }

  /** The j-th directory of the queue has the j-th slice. */
  lemma FirstRound(queue: seq<nat>, budget: int, trace: seq<Slice>, j: nat)
    requires Run(queue, budget, trace) && j < |queue| <= budget
    requires trace != [] ==> trace[|trace| - 1].step != OutOfTime
    requires QueueAt(queue, trace, |trace|) == [] || RemainingAt(budget, trace, |trace|) == 0
    ensures j < |trace| && Serves(trace[j], queue[j]) && (trace[j].used >= 1 || trace[j].step == Ended)
  {
    if trace == [] {
      assert false;
    }
    SliceQueue(queue, budget, trace, 0);
    NoStarvation(queue, budget, trace, 0, j);
    if j < |trace| {
      SliceQueue(queue, budget, trace, j);
    }
  }

  /** Whoever was served and did not read anything has left for good. */
  lemma ServedOrGone(queue: seq<nat>, budget: int, trace: seq<Slice>, j: nat)
    requires Run(queue, budget, trace) && Unique(queue) && j < |trace| && trace[j].queue != []
    requires trace[j].used >= 1 || trace[j].step == Ended
    ensures var d := trace[j].queue[0];
            UsedBy(trace, |trace|, d) >= 1 || d !in QueueAt(queue, trace, |trace|)
  {
    if trace[j].used >= 1 {
      UsedAtLeast(trace, |trace|, j);
    } else {
      QueuesUnique(queue, budget, trace, j);
      SliceQueue(queue, budget, trace, j);
      RequeueUnique(trace[j]);
      NeverBack(queue, budget, trace, j + 1, |trace|, trace[j].queue[0]);
    }
  }
}
