/**
 The loops of the walk on a file system that changes under it: what an open and a read give is up to the moment they
 happen at, so listings may grow while they are read. Only the entry budget stops them; a deadline would stop them
 earlier. The budget still bounds every access to the file system.
 */
module DiskGrowing {
  import opened Basics
  import opened DiskFair
  import opened DiskTop
  import DiskState

  /** What a read may give besides the end of the listing. */
  datatype Found = Subdirectory | Other

  /** Whether an open at a moment succeeds, and what a read at a moment gives. */
  datatype Disk = Disk(opens: nat -> bool, next: nat -> Option<Found>)

  /** What is left of a top-level directory: the depths of the directories to open, and of the one being read. */
  datatype Pending = Pending(stack: seq<nat>, cursor: Option<nat>) {
    predicate Finished() {
      stack == [] && cursor.None?
    }

    /** The accesses it takes to finish if no further subdirectory turns up: an open and an end for each directory. */
    ghost function Debt(): nat {
      2 * |stack| + if cursor.Some? then 1 else 0
    }
  }

  ghost function Debts(all: seq<Pending>): nat {
    if all == [] then 0 else Debts(all[..|all| - 1]) + all[|all| - 1].Debt()
  }

  lemma {:induction false} DebtsUpdate(all: seq<Pending>, i: nat, p: Pending)
    requires i < |all|
    ensures Debts(all[i := p]) + all[i].Debt() == Debts(all) + p.Debt()
  {
    var last := |all| - 1;
    if i == last {
      assert all[i := p][..last] == all[..last];
    } else {
      assert all[i := p][..last] == all[..last][i := p];
      DebtsUpdate(all[..last], i, p);
    }
  }

  function Tops(tops: seq<nat>): seq<Pending> {
    seq(|tops|, i requires 0 <= i < |tops| => Pending([tops[i]], None))
  }

  lemma {:induction false} DebtsOfTops(tops: seq<nat>)
    ensures Debts(Tops(tops)) == 2 * |tops|
  {
    if tops != [] {
      var last := |tops| - 1;
      assert Tops(tops)[..last] == Tops(tops[..last]);
      DebtsOfTops(tops[..last]);
    }
  }

  /** A queue of indices with every directory on it that has work left. */
  ghost predicate QueueOk(all: seq<Pending>, queue: seq<nat>) {
    && (forall i :: 0 <= i < |queue| ==> queue[i] < |all|)
    && forall k: nat :: k < |all| && !all[k].Finished() ==> k in queue
  }

  function Waiting(all: seq<Pending>): (queue: seq<nat>)
    ensures QueueOk(all, queue)
  {
    if all == [] then []
    else
      var last := |all| - 1;
      Waiting(all[..last]) + if all[last].Finished() then [] else [last]
  }

  function Served(queue: seq<nat>, again: bool): seq<nat>
    requires queue != []
  {
    queue[1..] + if again then [queue[0]] else []
  }

  lemma ServedOk(all: seq<Pending>, queue: seq<nat>, p: Pending, again: bool)
    requires QueueOk(all, queue) && queue != [] && (again || p.Finished())
    ensures QueueOk(all[queue[0] := p], Served(queue, again))
  {
    var all' := all[queue[0] := p];
    forall k: nat | k < |all'| && !all'[k].Finished() ensures k in Served(queue, again) {
      assert queue == [queue[0]] + queue[1..];
    }
  }

  class Scanner {
    const disk: Disk
    const maxEntries: U64
    const maxDepth: U64
    var accesses: nat // opens and reads so far
    var seen: nat
    var tracked: nat

    constructor (disk: Disk, maxEntries: U64, maxDepth: U64)
      ensures this.disk == disk && this.maxEntries == maxEntries && this.maxDepth == maxDepth
      ensures accesses == seen == 0
    {
      this.disk, this.maxEntries, this.maxDepth := disk, maxEntries, maxDepth;
      accesses, seen, tracked := 0, 0, 1;
    }

    method Open() returns (ok: bool)
      modifies this`accesses
      ensures accesses == old(accesses) + 1
    {
      ok := disk.opens(accesses);
      accesses := accesses + 1;
    }

    method Absorb(found: Found, depth: nat, stack: seq<nat>) returns (stack': seq<nat>)
      modifies this`tracked
      ensures |stack'| <= |stack| + 1
    {
      stack' := stack;
      if found == Subdirectory && tracked < DiskState.MAX_TRACKED_DIRS {
        tracked := tracked + 1;
        stack' := if depth >= maxDepth then stack else stack + [depth + 1];
      }
    }

    /** Reads on in a directory, by at most `budget` entries. */
    method Advance(depth: nat, budget: nat, stack: seq<nat>) returns (stack': seq<nat>, consumed: nat, step: Step)
      requires seen <= maxEntries
      modifies this
      ensures seen == old(seen) + consumed <= maxEntries && consumed <= budget
      ensures accesses + 2 * |stack'| + (if step == Ended then 0 else 1)
              <= old(accesses) + 2 * |stack| + 1 + 3 * consumed
      ensures consumed == 0 ==> |stack'| == |stack|
      ensures step == Paused <==> consumed == budget
      ensures step == OutOfEntries ==> seen == maxEntries
      ensures step != OutOfTime
    {
      stack', consumed := stack, 0;
      while consumed < budget
        invariant consumed <= budget && seen == old(seen) + consumed && seen <= maxEntries
        invariant accesses + 2 * |stack'| <= old(accesses) + 2 * |stack| + 3 * consumed
        invariant consumed == 0 ==> |stack'| == |stack|
      {
        if seen >= maxEntries {
          return stack', consumed, OutOfEntries;
        }
        var found := disk.next(accesses);
        accesses := accesses + 1;
        if found.None? {
          return stack', consumed, Ended;
        }
        consumed := consumed + 1;
        seen := seen + 1;
        stack' := Absorb(found.value, depth, stack');
      }
      step := Paused;
    }

    /** Drains a top-level directory by up to `quantum` entries, or to its end. */
    method DrainSubtree(p: Pending, quantum: nat) returns (p': Pending, step: Step)
      requires seen <= maxEntries && quantum >= 1
      modifies this
      ensures old(seen) <= seen <= maxEntries && seen <= old(seen) + quantum
      ensures accesses + p'.Debt() <= old(accesses) + p.Debt() + 3 * (seen - old(seen))
      ensures step == Ended <==> p'.Finished()
      ensures step == Paused ==> seen == old(seen) + quantum
      ensures step == OutOfEntries ==> seen == maxEntries
      ensures step != OutOfTime
    {
      p' := p;
      var spent := 0;
      while true
        invariant spent <= quantum && seen == old(seen) + spent && seen <= maxEntries
        invariant p'.cursor.None? ==> spent < quantum
        invariant accesses + p'.Debt() <= old(accesses) + p.Debt() + 3 * spent
        decreases quantum - spent, p'.Debt()
      {
        if p'.cursor.Some? {
          if spent == quantum {
            return p', Paused;
          }
          var stack, used, st := Advance(p'.cursor.value, quantum - spent, p'.stack);
          spent := spent + used;
          p' := Pending(stack, if st == Ended then None else p'.cursor);
          if st != Ended {
            return p', st;
          }
        } else {
          if p'.stack == [] {
            return p', Ended;
          }
          if seen >= maxEntries {
            return p', OutOfEntries;
          }
          var top := |p'.stack| - 1;
          var ok := Open();
          p' := Pending(p'.stack[..top], if ok then Some(p'.stack[top]) else None);
        }
      }
    }

    /** Lets the top-level directories take turns. */
    method DrainRoundRobin(all: seq<Pending>) returns (all': seq<Pending>, step: Step)
      requires seen <= maxEntries
      modifies this
      ensures |all'| == |all| && old(seen) <= seen <= maxEntries
      ensures accesses + Debts(all') <= old(accesses) + Debts(all) + 3 * (seen - old(seen))
      ensures step == Ended ==> forall k :: 0 <= k < |all'| ==> all'[k].Finished()
      ensures step != Ended ==> seen == maxEntries
    {
      all' := all;
      var queue := Waiting(all);
      while queue != []
        invariant |all'| == |all| && old(seen) <= seen <= maxEntries
        invariant QueueOk(all', queue)
        invariant accesses + Debts(all') <= old(accesses) + Debts(all) + 3 * (seen - old(seen))
        decreases maxEntries - seen, |queue|
      {
        if seen >= maxEntries {
          return all', OutOfEntries;
        }
        var index := queue[0];
        var p, st := DrainSubtree(all'[index], Quantum(maxEntries - seen, |queue|));
        DebtsUpdate(all', index, p);
        if st == OutOfEntries {
          return all'[index := p], st;
        }
        ServedOk(all', queue, p, st == Paused);
        all', queue := all'[index := p], Served(queue, st == Paused);
      }
      step := Ended;
    }

    /**
     A whole walk. It ends, whatever the file system does; it takes in no more entries than allowed, and needs no more
     than three accesses for each of them.
     */
    method Walk() returns (all: seq<Pending>, step: Step)
      requires accesses == seen == 0
      modifies this
      ensures seen <= maxEntries && accesses <= 3 * seen + 2
      ensures step == Ended ==> forall k :: 0 <= k < |all| ==> all[k].Finished()
      ensures step != Ended ==> seen == maxEntries
    {
      var ok := Open();
      if !ok {
        return [], Ended;
      }
      var tops, consumed, st := Advance(0, U64_MAX, []);
      all, step := Tops(tops), st;
      DebtsOfTops(tops);
      if st == Ended {
        all, step := DrainRoundRobin(all);
      }
    }
  }
}
