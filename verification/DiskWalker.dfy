/**
 The bounded directory walk: an arena of directories, resumable cursors, and a round-robin schedule under an
 entry budget and a deadline. The ghost field `ledger` records what was taken in.
 */
module DiskWalker {
  import opened Basics
  import opened DiskTally
  import opened DiskLedger
  import opened DiskFair
  import opened DiskState
  import opened DiskSteps
  import opened DiskTurns
  import opened DiskOutcome

  class Walker {
    const fs: Fs
    const options: Options
    const clock: nat -> bool       // whether the deadline has passed at the given look at the clock
    var ticks: nat
    var seen: nat
    var state: Fields
    ghost var ledger: Ledger
    ghost var opens: nat // directories opened, or tried

    ghost predicate Valid()
      reads this
    {
      seen <= options.maxEntries && Sound(fs, options, state, ledger)
    }

    constructor (fs: Fs, options: Options, clock: nat -> bool)
      ensures this.fs == fs && this.options == options && this.clock == clock
      ensures Valid() && seen == ticks == opens == 0 && ledger == StartLedger(options)
    {
      this.fs, this.options, this.clock := fs, options, clock;
      ticks, seen, opens := 0, 0, 0;
      state := StartFields(options);
      ledger := StartLedger(options);
      StartSound(fs, options);
    }

    /** A look at the clock, after `work` since look number `from`. */
    method DeadlinePassed(ghost from: nat, ghost work: int) returns (fired: bool)
      requires Timely(clock, from, ticks, work, false)
      modifies this`ticks
      ensures ticks == old(ticks) + 1 && (fired <==> clock(old(ticks)))
      ensures Timely(clock, from, ticks, work, fired)
      ensures !fired ==> Timely(clock, from, ticks, work + 512, false)
    {
      fired := clock(ticks);
      ticks := ticks + 1;
    }

    /** Takes in an entry that carries no bytes and opens nothing. */
    method CountOnly(entry: Entry, cursor: DirCursor)
      requires Valid() && CursorOk(fs, ledger.shape, cursor)
      requires !entry.SubDir? && !entry.File?
      modifies this
      ensures Valid() && seen == old(seen) && ticks == old(ticks) && opens == old(opens)
      ensures ledger == Noted(old(ledger), cursor.node, ItemOf(cursor.path, entry))
    {
      NoticedSound(fs, options, state, ledger, cursor.node, cursor.path, entry);
      state := state.(report := Noticed(state.report, entry));
      ledger := Noted(ledger, cursor.node, ItemOf(cursor.path, entry));
    }

    method AbsorbDir(name: string, cursor: DirCursor, sink: seq<(nat, nat)>) returns (sink': seq<(nat, nat)>)
      requires Valid() && CursorOk(fs, ledger.shape, cursor)
      modifies this
      ensures Valid() && seen == old(seen) && ticks == old(ticks) && opens == old(opens)
      ensures Absorbed(options.maxDepth, cursor.node, SubDir(name), old(ledger), sink, ledger, sink')
    {
      hide Sound, CursorOk, Absorbed;
      var f;
      ghost var l;
      f, sink', l := CountDir(fs, options, state, cursor, name, sink, ledger);
      state, ledger := f, l;
    }

    method AbsorbFile(name: string, inode: Option<Inode>, size: nat, cursor: DirCursor)
      requires Valid() && CursorOk(fs, ledger.shape, cursor) && File(name, inode, size) in fs[cursor.path]
      modifies this
      ensures Valid() && seen == old(seen) && ticks == old(ticks) && opens == old(opens)
      ensures ledger.shape == old(ledger.shape) && ledger.lost == old(ledger.lost)
      ensures ledger.log == Noted(old(ledger), cursor.node, FileItem(cursor.path + [name], inode, size)).log
    {
      var path := cursor.path + [name];
      assert OnDisk(fs, path, inode, size);
      if inode.Some? && inode.value in state.seenInodes {
        // a further name of a counted inode adds no bytes
        DuplicateSound(fs, options, state, ledger, cursor.node, path, inode.value, size);
        var c := state.report;
        var deduped := SaturatingAdd(c.hardlinksDeduped, size);
        state := state.(report := c.(files := c.files + 1, hardlinksDeduped := deduped));
        ledger := Noted(ledger, cursor.node, FileItem(path, inode, size));
      } else {
        var f, l := CountFile(fs, options, state, cursor, path, inode, size, ledger);
        state, ledger := f, l;
      }
    }

    /** Takes in one directory entry: counts it, adds up its bytes, or remembers the subdirectory. */
    method Absorb(entry: Entry, cursor: DirCursor, sink: seq<(nat, nat)>) returns (sink': seq<(nat, nat)>)
      requires Valid() && CursorOk(fs, ledger.shape, cursor) && entry in fs[cursor.path]
      modifies this
      ensures Valid() && seen == old(seen) && ticks == old(ticks) && opens == old(opens)
      ensures Absorbed(options.maxDepth, cursor.node, entry, old(ledger), sink, ledger, sink')
    {
      sink' := sink;
      match entry {
        case SubDir(name) => sink' := AbsorbDir(name, cursor, sink);
        case File(name, inode, size) => AbsorbFile(name, inode, size, cursor);
        case _ => CountOnly(entry, cursor);
      }
    }

    /** Opens a directory and works out the chain of its ancestors; one that cannot be read is only counted. */
    method Open(node: nat, depth: nat) returns (cursor: Option<DirCursor>)
      requires Valid() && node < |ledger.shape| && ledger.shape[node].depth == depth
      modifies this
      ensures Valid() && seen == old(seen) && ticks == old(ticks) && opens == old(opens) + 1
      ensures if old(ledger.shape)[node].path in fs then
                && ledger == old(ledger)
                && cursor.Some? && CursorOk(fs, ledger.shape, cursor.value)
                && cursor.value.node == node && cursor.value.entries == fs[ledger.shape[node].path]
              else
                cursor.None? && ledger == Noted(old(ledger), node, ClosedItem)
    {
      var path := state.nodes[node].path;
      opens := opens + 1;
      if path !in fs {
        WeightlessSound(fs, options, state, ledger, node, ClosedItem);
        state := state.(report := state.report.(unreadable := state.report.unreadable + 1));
        ledger := Noted(ledger, node, ClosedItem);
        return None;
      }
      var ancestors := AncestorChain(state.nodes, node, ledger.shape);
      cursor := Some(DirCursor(node, path, depth, ancestors, fs[path]));
    }

    /**
     Reads on from a cursor, consuming at most `budget` entries; subdirectories to open go to `sink`. It stops when
     the budget, the entries allowed in all, or the listing is used up, or a look at the clock finds the deadline
     passed, and says which.
     */
    method Advance(cursor: DirCursor, budget: nat, sink: seq<(nat, nat)>, ghost bg: seq<Work>)
      returns (cursor': DirCursor, sink': seq<(nat, nat)>, consumed: nat, step: Step)
      requires Valid() && Reads(fs, options.maxDepth, ledger, cursor, sink, bg)
      modifies this
      ensures Valid() && Reads(fs, options.maxDepth, ledger, cursor', sink', bg) && cursor'.node == cursor.node
      ensures Progress(options.maxDepth, old(ledger), cursor.node, sink, consumed, ledger, sink')
      ensures seen == old(seen) + consumed && consumed <= budget
      ensures consumed + |cursor'.entries| == |cursor.entries|
      ensures step == Paused <==> consumed == budget
      ensures step == Ended ==> cursor'.entries == []
      ensures step == OutOfEntries ==> seen == options.maxEntries
      ensures Timely(clock, old(ticks), ticks, consumed, step == OutOfTime) && opens == old(opens)
      ensures step == Ended || (budget > 0 && old(seen) < options.maxEntries) ==>
                old(ticks) < ticks && (clock(old(ticks)) ==> step == OutOfTime && consumed == 0)
      ensures 512 * (ticks - old(ticks)) <= consumed + 512
    {
      hide Sound, Progress, Timely;
      cursor', sink', consumed := cursor, sink, 0;
      NoProgress(options.maxDepth, ledger, cursor.node, sink);
      TimelyStart(clock, ticks);
      while consumed < budget
        invariant Valid() && Reads(fs, options.maxDepth, ledger, cursor', sink', bg) && cursor'.node == cursor.node
        invariant Progress(options.maxDepth, old(ledger), cursor.node, sink, consumed, ledger, sink')
        invariant seen == old(seen) + consumed && consumed <= budget
        invariant consumed + |cursor'.entries| == |cursor.entries|
        invariant Timely(clock, old(ticks), ticks, consumed, false) && opens == old(opens)
        invariant consumed <= 512 * (ticks - old(ticks)) < consumed + 512
        invariant consumed > 0 ==> old(ticks) < ticks && !clock(old(ticks))
      {
        if seen >= options.maxEntries {
          return cursor', sink', consumed, OutOfEntries;
        }
        if consumed % TIME_CHECK_EVERY == 0 {
          var fired := DeadlinePassed(old(ticks), consumed);
          if fired {
            return cursor', sink', consumed, OutOfTime;
          }
        }
        if cursor'.entries == [] {
          return cursor', sink', consumed, Ended;
        }
        cursor', sink' := TakeNext(cursor', sink', bg, old(ledger), cursor.node, sink, consumed);
        TimelyPaid(clock, old(ticks), ticks, consumed, consumed + 1);
        consumed := consumed + 1;
      }
      step := Paused;
    }

    /** Takes in the next entry of the directory being read. */
    method TakeNext(cursor: DirCursor, sink: seq<(nat, nat)>, ghost bg: seq<Work>,
                    ghost l0: Ledger, ghost id: nat, ghost sink0: seq<(nat, nat)>, ghost used: nat)
      returns (cursor': DirCursor, sink': seq<(nat, nat)>)
      requires Valid() && Reads(fs, options.maxDepth, ledger, cursor, sink, bg) && cursor.entries != []
      requires seen < options.maxEntries && id == cursor.node < |l0.shape|
      requires Progress(options.maxDepth, l0, id, sink0, used, ledger, sink)
      modifies this
      ensures Valid() && Reads(fs, options.maxDepth, ledger, cursor', sink', bg)
      ensures Progress(options.maxDepth, l0, id, sink0, used + 1, ledger, sink')
      ensures seen == old(seen) + 1 && ticks == old(ticks) && opens == old(opens)
      ensures cursor'.node == cursor.node && 1 + |cursor'.entries| == |cursor.entries|
    {
      ghost var f, l := state, ledger;
      seen := seen + 1;
      sink' := Absorb(cursor.entries[0], cursor, sink);
      AbsorbKeeps(fs, options, f, l, cursor, sink, bg, ledger, sink');
      ProgressStep(options.maxDepth, l0, id, sink0, used, l, sink, cursor.entries[0], ledger, sink');
      cursor' := cursor.(entries := cursor.entries[1..]);
    }

    /** Takes the next directory off the stack and opens it; a top-level directory that cannot be read is marked. */
    method OpenNext(sub: Subtree, ghost bg: seq<Work>) returns (sub': Subtree)
      requires Valid() && Drains(fs, options.maxDepth, ledger, sub, bg) && sub.cursor.None? && sub.stack != []
      modifies this
      ensures Valid() && Moved(old(ledger), ledger, sub.rootNode, 0)
      ensures Drains(fs, options.maxDepth, ledger, sub', bg)
      ensures seen == old(seen) && ticks == old(ticks) && opens == old(opens) + 1
      ensures sub'.stack == sub.stack[..|sub.stack| - 1] && sub'.rootNode == sub.rootNode
    {
      var (node, depth) := sub.stack[|sub.stack| - 1];
      DrainPop(fs, options.maxDepth, ledger, sub, bg);
      ClosedMoves(ledger, node, sub.rootNode);
      var cursor := Open(node, depth);
      sub' := sub.(stack := sub.stack[..|sub.stack| - 1]);
      if cursor.Some? {
        sub' := sub'.(cursor := cursor);
      } else if node == sub.rootNode {
        sub' := sub'.(unreadable := true);
      }
    }

    /** Reads on in the directory a subtree has open; `spent` entries of its slice are used up already. */
    method ReadOn(sub: Subtree, left: nat, ghost bg: seq<Work>) returns (sub': Subtree, used: nat, step: Step)
      requires Valid() && Drains(fs, options.maxDepth, ledger, sub, bg) && sub.cursor.Some? && left >= 1
      modifies this
      ensures Valid() && Drains(fs, options.maxDepth, ledger, sub', bg) && sub'.rootNode == sub.rootNode
      ensures Moved(old(ledger), ledger, sub.rootNode, used)
      ensures seen == old(seen) + used && used <= left
      ensures step == Paused <==> used == left
      ensures step == Ended <==> sub'.cursor.None?
      ensures used == 0 ==> sub'.stack == sub.stack
      ensures step == OutOfEntries ==> seen == options.maxEntries
      ensures Timely(clock, old(ticks), ticks, used, step == OutOfTime) && opens == old(opens)
      ensures step == Ended || old(seen) < options.maxEntries ==>
                old(ticks) < ticks && (clock(old(ticks)) ==> step == OutOfTime && used == 0)
    {
      DrainToRead(fs, options.maxDepth, ledger, sub, bg);
      ghost var l := ledger;
      var cursor, stack, n, st := Advance(sub.cursor.value, left, sub.stack, bg);
      ProgressMoves(options.maxDepth, l, cursor.node, sub.stack, n, ledger, stack, sub.rootNode);
      ReadToDrain(fs, options.maxDepth, l, sub, ledger, cursor, stack, bg);
      sub' := sub.(stack := stack, cursor := if st == Ended then None else Some(cursor));
      used, step := n, st;
    }

    /** Drains a top-level directory by up to `quantum` entries, or to its end. */
    method DrainSubtree(sub: Subtree, quantum: nat, ghost bg: seq<Work>) returns (sub': Subtree, step: Step)
      requires Valid() && Drains(fs, options.maxDepth, ledger, sub, bg) && quantum >= 1
      modifies this
      ensures Valid() && Drains(fs, options.maxDepth, ledger, sub', bg) && sub'.rootNode == sub.rootNode
      ensures old(seen) <= seen <= old(seen) + quantum
      ensures Moved(old(ledger), ledger, sub.rootNode, seen - old(seen))
      ensures step == Ended <==> sub'.Finished()
      ensures step == Paused ==> seen == old(seen) + quantum
      ensures step == OutOfEntries ==> seen == options.maxEntries < old(seen) + quantum
      ensures old(opens) <= opens
      ensures Timely(clock, old(ticks), ticks, seen - old(seen) + 512 * (opens - old(opens)), step == OutOfTime)
      ensures !sub.Finished() && old(seen) < options.maxEntries ==>
                old(ticks) < ticks && (clock(old(ticks)) ==> step == OutOfTime && seen == old(seen))
    {
      hide Sound, Books, Moved, Timely;
      sub' := sub;
      var spent := 0;
      ClosedMoves(ledger, sub.rootNode, sub.rootNode);
      TimelyStart(clock, ticks);
      while true
        invariant Valid() && Drains(fs, options.maxDepth, ledger, sub', bg) && sub'.rootNode == sub.rootNode
        invariant spent <= quantum && seen == old(seen) + spent
        invariant Moved(old(ledger), ledger, sub.rootNode, spent)
        invariant sub'.cursor.None? ==> spent < quantum
        invariant old(opens) <= opens && old(ticks) <= ticks
        invariant (sub' == sub && spent == 0 && ticks == old(ticks)) || (old(ticks) < ticks && !clock(old(ticks)))
        invariant Timely(clock, old(ticks), ticks, spent + 512 * (opens - old(opens)), false)
        decreases quantum - spent, 2 * |sub'.stack| + if sub'.cursor.Some? then 1 else 0
      {
        ghost var l, t, work := ledger, ticks, spent + 512 * (opens - old(opens));
        if sub'.cursor.Some? {
          if spent == quantum {
            return sub', Paused;
          }
          var used, st;
          sub', used, st := ReadOn(sub', quantum - spent, bg);
          MovedTwice(old(ledger), l, ledger, sub.rootNode, spent, used);
          TimelyJoin(clock, old(ticks), t, ticks, work, used, st == OutOfTime);
          spent := spent + used;
          if st != Ended {
            return sub', st;
          }
        } else {
          if sub'.stack == [] {
            return sub', Ended;
          }
          if seen >= options.maxEntries {
            return sub', OutOfEntries;
          }
          var fired := DeadlinePassed(old(ticks), work);
          if fired {
            return sub', OutOfTime;
          }
          sub' := OpenNext(sub', bg);
          MovedTwice(old(ledger), l, ledger, sub.rootNode, spent, 0);
        }
      }
    }

    /** One slice for one top-level directory; all others are left alone. */
    method ServeOne(subs: seq<Subtree>, index: nat, quantum: nat) returns (subs': seq<Subtree>, step: Step)
      requires Valid() && Schedules(fs, options.maxDepth, ledger, subs) && index < |subs|
      requires 1 <= quantum <= options.maxEntries - seen
      modifies this
      ensures Valid() && Schedules(fs, options.maxDepth, ledger, subs')
      ensures |subs'| == |subs| && subs' == subs[index := subs'[index]] && subs'[index].rootNode == subs[index].rootNode
      ensures old(seen) <= seen <= old(seen) + quantum
      ensures Moved(old(ledger), ledger, subs[index].rootNode, seen - old(seen))
      ensures step == Ended <==> subs'[index].Finished()
      ensures step == Paused ==> seen == old(seen) + quantum
      ensures step != OutOfEntries
      ensures old(opens) <= opens
      ensures Timely(clock, old(ticks), ticks, seen - old(seen) + 512 * (opens - old(opens)), step == OutOfTime)
    {
      SchedulePick(fs, options.maxDepth, ledger, subs, index);
      ghost var l := ledger;
      var sub, st := DrainSubtree(subs[index], quantum, Others(fs, ledger.shape, subs, index));
      SchedulePut(fs, options.maxDepth, l, subs, index, ledger, sub);
      return subs[index := sub], st;
    }

    /** Serves the head of the queue, and puts it back at the end if it has work left. */
    method TakeTurn(subs: seq<Subtree>, queue: seq<nat>, ghost start: seq<nat>, ghost budget: int,
                    ghost trace: seq<Slice>, ghost l0: Ledger)
      returns (subs': seq<Subtree>, queue': seq<nat>, step: Step, ghost trace': seq<Slice>)
      requires Valid() && Schedules(fs, options.maxDepth, ledger, subs) && queue != [] && seen < options.maxEntries
      requires Standing(l0, ledger, start, budget, trace, queue, options.maxEntries - seen, subs)
      modifies this
      ensures Valid() && Schedules(fs, options.maxDepth, ledger, subs') && SameRoots(subs, subs')
      ensures step == OutOfTime ==>
                Concluded(l0, ledger, start, budget, trace', OutOfTime, options.maxEntries - seen, subs')
      ensures step != OutOfTime ==>
                Standing(l0, ledger, start, budget, trace', queue', options.maxEntries - seen, subs')
      ensures seen > old(seen) || (seen == old(seen) && |queue'| < |queue|) || step == OutOfTime
      ensures old(opens) <= opens && |trace'| == |trace| + 1
      ensures Timely(clock, old(ticks), ticks, seen - old(seen) + 512 * (opens - old(opens)), step == OutOfTime)
    {
      var index := queue[0];
      var remaining := options.maxEntries - seen;
      ghost var l := ledger;
      StandingHead(l0, l, start, budget, trace, queue, remaining, subs);
      var quantum := Quantum(remaining, |queue|);
      subs', step := ServeOne(subs, index, quantum);
      ghost var slice := Slice(queue, remaining, seen - old(seen), step);
      SliceServed(fs, options, l0, l, state, ledger, start, budget, trace, slice, subs, subs');
      trace' := trace + [slice];
      queue' := queue[1..] + if step == Paused then [index] else [];
    }

    /**
     Lets the top-level directories take turns until all are done, the entries are used up or time is over. The
     slices in `trace` tell what was read of each directory; `start` are those that had work.
     */
    method DrainRoundRobin(subs: seq<Subtree>)
      returns (subs': seq<Subtree>, step: Step, ghost start: seq<nat>, ghost trace: seq<Slice>)
      requires Valid() && Schedules(fs, options.maxDepth, ledger, subs) && Numbered(subs)
      modifies this
      ensures Valid() && Finale(fs, options.maxDepth, old(ledger), ledger, subs, subs', start,
                                options.maxEntries - old(seen), trace, step, options.maxEntries - seen)
      ensures Outcome(fs, options, old(ledger), ledger, subs, subs', options.maxEntries - old(seen), step,
                      options.maxEntries - seen)
      ensures InOrder(start) && old(opens) <= opens
      ensures Timely(clock, old(ticks), ticks, seen - old(seen) + 512 * (opens - old(opens) + |trace|),
                     step == OutOfTime)
      ensures old(seen) < options.maxEntries && (exists k :: 0 <= k < |subs| && !subs[k].Finished()) ==>
                old(ticks) < ticks && (clock(old(ticks)) ==> step == OutOfTime && seen == old(seen))
    {
      hide Sound, Schedules, Standing, Concluded, Fair, QueueOk, Finale, Outcome, Timely, InOrder;
      subs' := subs;
      var queue := UnfinishedIndices(subs);
      start, trace, step := queue, [], Ended;
      ghost var budget, l0 := options.maxEntries - seen, ledger;
      TimelyStart(clock, ticks);
      SomeWait(start, subs);
      BeginTurns(ledger, start, budget, subs);
      while queue != []
        invariant Valid() && Schedules(fs, options.maxDepth, ledger, subs') && SameRoots(subs, subs')
        invariant Standing(l0, ledger, start, budget, trace, queue, options.maxEntries - seen, subs')
        invariant step == Ended && old(opens) <= opens && old(ticks) <= ticks
        invariant (queue == start && seen == old(seen) && ticks == old(ticks))
                  || (old(ticks) < ticks && !clock(old(ticks)))
        invariant Timely(clock, old(ticks), ticks, seen - old(seen) + 512 * (opens - old(opens) + |trace|), false)
        decreases options.maxEntries - seen, |queue|
      {
        if seen >= options.maxEntries {
          step := OutOfEntries;
          break;
        }
        ghost var seen0, opens0, turns := seen, opens, |trace|;
        ghost var work := seen - old(seen) + 512 * (opens - old(opens) + turns);
        var fired := DeadlinePassed(old(ticks), work);
        if fired {
          step := OutOfTime;
          break;
        }
        ghost var before, t := subs', ticks;
        var st;
        subs', queue, st, trace := TakeTurn(subs', queue, start, budget, trace, l0);
        StandingRoots(subs, before, subs');
        TimelyJoin(clock, old(ticks), t, ticks, work + 512, seen - seen0 + 512 * (opens - opens0), st == OutOfTime);
        if st == OutOfTime {
          StopRun(fs, options, l0, state, ledger, start, budget, trace, options.maxEntries - seen, subs, subs');
          return subs', OutOfTime, start, trace;
        }
      }
      EndRun(fs, options, l0, state, ledger, start, budget, trace, queue, options.maxEntries - seen, step, subs, subs');
    }
  }
}
