/** The data of the walk, how its fields mirror the ledger, and the books of open work. */
module DiskState {
  import opened Basics
  import opened Sorting
  import opened DiskTally
  import opened DiskLedger
  import opened DiskTop
  import opened DiskCensus

  const ROOT_NODE: nat := 0
  const NO_BUCKET: nat := 0xFFFF_FFFF
  const MAX_TRACKED_DIRS: nat := 800_000
  const TIME_CHECK_EVERY: nat := 512

  datatype Options = Options(root: Path, maxDepth: U64, minFileSize: U64, top: U64, maxEntries: U64)

  datatype DirNode = DirNode(path: Path, parent: nat, bytes: nat, bucket: nat)

  /** A directory being read; `ancestors` are the ids from itself up to the scan root. */
  datatype DirCursor = DirCursor(node: nat, path: Path, depth: nat, ancestors: seq<nat>, entries: seq<Entry>)

  /** One top-level directory: what is still to be opened and what is being read. */
  datatype Subtree = Subtree(root: Path, rootNode: nat, stack: seq<(nat, nat)>, cursor: Option<DirCursor>,
                             unreadable: bool)
  {
    predicate Finished() {
      cursor.None? && stack == []
    }
  }

  datatype Counters = Counters(
    files: nat,
    directories: nat,
    symlinks: nat,
    otherFilesystems: nat,
    unreadable: nat,
    depthLimited: nat,
    dirsUntracked: nat,
    hardlinksDeduped: nat,
    totalBytes: nat)

  // ----- the real fields against the ledger ------------------------------------------------------

  ghost predicate NodesOk(nodes: seq<DirNode>, shape: seq<Spot>, log: Log) {
    && |nodes| == |shape| <= 800_000
    && (forall i :: 0 <= i < |nodes| ==>
          && nodes[i].path == shape[i].path
          && nodes[i].parent == shape[i].parent
          && nodes[i].bucket == (if i == ROOT_NODE then NO_BUCKET else shape[i].bucket)
          && nodes[i].bytes == Cap(Counted(log, i)))
  }

  ghost predicate BucketsOk(labels: seq<string>, totals: seq<nat>, shape: seq<Spot>, log: Log) {
    && |labels| == |totals| >= 1
    && (forall i :: 0 <= i < |shape| ==> shape[i].bucket < |totals|)
    && (forall b :: 0 <= b < |totals| ==> totals[b] == Cap(BucketSum(log, b)))
  }

  /** The first label is that of the root itself, the others are the names of the top-level directories. */
  ghost predicate LabelsOk(labels: seq<string>, shape: seq<Spot>) {
    && labels != [] && labels[0] == "(root)"
    && forall i: nat :: TopLevel(shape, i) ==>
         shape[i].path != [] && shape[i].bucket < |labels| && labels[shape[i].bucket] == Last(shape[i].path)
  }

  /** The counters a log amounts to. */
  ghost function Recount(log: Log): Counters {
    if log.Blank? then Counters(0, 0, 0, 0, 0, 0, 0, 0, 0)
    else Recorded(Recount(log.prev), log.last.item, Counts(log.prev, log.last.item))
  }

  ghost function Recorded(c: Counters, item: Item, counts: bool): Counters {
    match item
    case FileItem(_, _, size) =>
      if counts then c.(files := c.files + 1, totalBytes := SaturatingAdd(c.totalBytes, size))
      else c.(files := c.files + 1, hardlinksDeduped := SaturatingAdd(c.hardlinksDeduped, size))
    case DirItem(_) => c.(directories := c.directories + 1)
    case LimitedDirItem(_) => c.(directories := c.directories + 1, depthLimited := c.depthLimited + 1)
    case LinkItem => c.(symlinks := c.symlinks + 1)
    case ForeignItem => c.(otherFilesystems := c.otherFilesystems + 1)
    case UnreadableItem => c.(unreadable := c.unreadable + 1)
    case SpecialItem => c
    case ClosedItem => c.(unreadable := c.unreadable + 1)
  }

  /** What one record adds to each counter. */
  lemma RecordedWorth(c: Counters, item: Item, counts: bool)
    ensures Recorded(c, item, counts) == Counters(
              c.files + ItemWorth(Files, item), c.directories + ItemWorth(Directories, item),
              c.symlinks + ItemWorth(Symlinks, item), c.otherFilesystems + ItemWorth(ForeignEntries, item),
              c.unreadable + ItemWorth(UnreadableEntries, item), c.depthLimited + ItemWorth(DepthLimited, item),
              c.dirsUntracked,
              if item.FileItem? && !counts then SaturatingAdd(c.hardlinksDeduped, item.size) else c.hardlinksDeduped,
              if item.FileItem? && counts then SaturatingAdd(c.totalBytes, item.size) else c.totalBytes)
  {
  }

  lemma RootAcc(what: Measure, shape: seq<Spot>, log: Log)
    requires TreeOk(shape) && LogOk(shape, log) && log.Add?
    ensures Acc(what, log, 0) == Acc(what, log.prev, 0) + ItemWorth(what, log.last.item)
  {
    InTree(shape, log.last.at);
  }

  lemma RootCounted(shape: seq<Spot>, log: Log)
    requires TreeOk(shape) && LogOk(shape, log) && log.Add?
    ensures Counted(log, 0) == Counted(log.prev, 0) + if Counts(log.prev, log.last.item) then log.last.item.size else 0
  {
    InTree(shape, log.last.at);
  }

  /** The counters are the sums over the whole ledger. */
  lemma {:induction false} RecountSums(shape: seq<Spot>, log: Log)
    requires TreeOk(shape) && LogOk(shape, log)
    ensures Recount(log) == Counters(
              Acc(Files, log, 0), Acc(Directories, log, 0), Acc(Symlinks, log, 0), Acc(ForeignEntries, log, 0),
              Acc(UnreadableEntries, log, 0), Acc(DepthLimited, log, 0), 0, Cap(Deduped(log)), Cap(Counted(log, 0)))
  {
    if log.Add? {
      RecountSums(shape, log.prev);
      RecordedWorth(Recount(log.prev), log.last.item, Counts(log.prev, log.last.item));
      RootAcc(Files, shape, log);
      RootAcc(Directories, shape, log);
      RootAcc(Symlinks, shape, log);
      RootAcc(ForeignEntries, shape, log);
      RootAcc(UnreadableEntries, shape, log);
      RootAcc(DepthLimited, shape, log);
      RootCounted(shape, log);
    }
  }

  /** Every file in the ledger is an entry of the listing of `fs` that its path names. */
  ghost predicate FromFs(fs: Fs, log: Log) {
    log.Add? ==>
      && FromFs(fs, log.prev)
      && (log.last.item.FileItem? ==> OnDisk(fs, log.last.item.path, log.last.item.inode, log.last.item.size))
  }

  ghost predicate OnDisk(fs: Fs, path: Path, inode: Option<Inode>, size: nat) {
    && path != []
    && Front(path) in fs
    && File(Last(path), inode, size) in fs[Front(path)]
  }

  ghost predicate CursorOk(fs: Fs, shape: seq<Spot>, c: DirCursor) {
    && c.node < |shape|
    && c.path == shape[c.node].path
    && c.path in fs && (forall e :: e in c.entries ==> e in fs[c.path])
    && c.depth == shape[c.node].depth
    && (forall a :: a in c.ancestors <==> a in shape[c.node].above)
    && (forall i, j :: 0 <= i < j < |c.ancestors| ==> c.ancestors[i] != c.ancestors[j])
  }

  ghost predicate StackOk(shape: seq<Spot>, stack: seq<(nat, nat)>) {
    forall k :: 0 <= k < |stack| ==> stack[k].0 < |shape| && shape[stack[k].0].depth == stack[k].1
  }

  /** All directories on the stack lie in directory `top`. */
  ghost predicate Under(shape: seq<Spot>, top: nat, stack: seq<(nat, nat)>) {
    forall k :: 0 <= k < |stack| ==> stack[k].0 < |shape| && top in shape[stack[k].0].above
  }

  ghost function StackWork(shape: seq<Spot>, stack: seq<(nat, nat)>): seq<Work>
    requires StackOk(shape, stack)
  {
    seq(|stack|, k requires 0 <= k < |stack| => Open(shape[stack[k].0]))
  }

  ghost predicate SubtreeOk(fs: Fs, shape: seq<Spot>, s: Subtree) {
    && TopLevel(shape, s.rootNode)
    && StackOk(shape, s.stack) && Under(shape, s.rootNode, s.stack)
    && (s.cursor.Some? ==> CursorOk(fs, shape, s.cursor.value) && s.rootNode in shape[s.cursor.value.node].above)
    && s.root == shape[s.rootNode].path
    && (Untouched(shape, s) || (s.unreadable <==> s.root !in fs))
  }

  /** The top-level directory itself has not been opened yet. */
  ghost predicate Untouched(shape: seq<Spot>, s: Subtree) {
    s.rootNode < |shape| && s.cursor.None? && s.stack == [(s.rootNode, shape[s.rootNode].depth)] && !s.unreadable
  }

  ghost function CursorWork(shape: seq<Spot>, cursor: Option<DirCursor>): seq<Work>
    requires cursor.Some? ==> cursor.value.node < |shape|
  {
    if cursor.Some? then [Reading(shape[cursor.value.node], cursor.value.entries)] else []
  }

  /** What a top-level directory still owes; the directory being read comes last. */
  ghost function SubtreeWork(fs: Fs, shape: seq<Spot>, s: Subtree): seq<Work>
    requires SubtreeOk(fs, shape, s)
  {
    StackWork(shape, s.stack) + CursorWork(shape, s.cursor)
  }

  ghost predicate SubtreesOk(fs: Fs, shape: seq<Spot>, subs: seq<Subtree>) {
    forall k :: 0 <= k < |subs| ==> SubtreeOk(fs, shape, subs[k])
  }

  ghost function SubtreesWork(fs: Fs, shape: seq<Spot>, subs: seq<Subtree>): seq<Work>
    requires SubtreesOk(fs, shape, subs)
  {
    if subs == [] then [] else SubtreesWork(fs, shape, Front(subs)) + SubtreeWork(fs, shape, Last(subs))
  }

  /**
   The ghost side of a run: the arena as a tree, its records, the work given up, and the files dropped from the list.
   */
  datatype Ledger = Ledger(shape: seq<Spot>, log: Log, lost: seq<Work>, eligible: seq<Sized>, gone: seq<Sized>)

  /** The ledger balances for every quantity. */
  ghost predicate Books(fs: Fs, maxDepth: nat, l: Ledger, work: seq<Work>) {
    forall what: Measure :: Balanced(Scope(fs, maxDepth, what), l.shape, l.log, l.lost, work)
  }

  // ----- taking in one entry ---------------------------------------------------------------------

  /** The record of an entry that is not a directory. */
  ghost function ItemOf(path: Path, e: Entry): Item {
    match e
    case Unreadable => UnreadableItem
    case Symlink => LinkItem
    case Foreign => ForeignItem
    case SubDir(name) => DirItem(path + [name])
    case File(name, inode, size) => FileItem(path + [name], inode, size)
    case Special => SpecialItem
  }

  ghost function Noted(l: Ledger, id: nat, item: Item): Ledger
    requires id < |l.shape|
  {
    l.(log := Add(l.log, Rec(l.shape[id], item)))
  }

  /** How the books change when entry `e` of the arena directory `id` is taken in. */
  ghost predicate Absorbed(maxDepth: nat, id: nat, e: Entry, l: Ledger, sink: seq<(nat, nat)>, l': Ledger,
                           sink': seq<(nat, nat)>)
    requires id < |l.shape|
  {
    var at := l.shape[id];
    if !e.SubDir? then
      l'.log == Noted(l, id, ItemOf(at.path, e)).log && l'.shape == l.shape && l'.lost == l.lost && sink' == sink
    else if |l.shape| >= 800_000 then
      l' == Noted(l, id, DirItem(at.path + [e.name])).(lost := l.lost + [Skipped(at, e.name)]) && sink' == sink
    else
      && |l'.shape| == |l.shape| + 1
      && l'.shape == l.shape + [ChildSpot(|l.shape|, at, id, e.name, l'.shape[|l.shape|].bucket)]
      && l'.lost == l.lost
      && if at.depth < maxDepth then
           l'.log == Noted(l, id, DirItem(at.path + [e.name])).log && sink' == sink + [(|l.shape|, at.depth + 1)]
         else
           l'.log == Noted(l, id, LimitedDirItem(at.path + [e.name])).log && sink' == sink
  }

  lemma StackWorkExtend(shape: seq<Spot>, shape': seq<Spot>, stack: seq<(nat, nat)>)
    requires StackOk(shape, stack) && shape <= shape'
    ensures StackOk(shape', stack) && StackWork(shape', stack) == StackWork(shape, stack)
  {
  }

  lemma SubtreeExtend(fs: Fs, shape: seq<Spot>, shape': seq<Spot>, s: Subtree)
    requires SubtreeOk(fs, shape, s) && shape <= shape'
    ensures SubtreeOk(fs, shape', s) && SubtreeWork(fs, shape', s) == SubtreeWork(fs, shape, s)
  {
    StackWorkExtend(shape, shape', s.stack);
  }

  lemma {:induction false} SubtreesExtend(fs: Fs, shape: seq<Spot>, shape': seq<Spot>, subs: seq<Subtree>)
    requires SubtreesOk(fs, shape, subs) && shape <= shape'
    ensures SubtreesOk(fs, shape', subs) && SubtreesWork(fs, shape', subs) == SubtreesWork(fs, shape, subs)
  {
    forall k | 0 <= k < |subs| ensures SubtreeOk(fs, shape', subs[k]) {
      SubtreeExtend(fs, shape, shape', subs[k]);
    }
    if subs != [] {
      SubtreesExtend(fs, shape, shape', Front(subs));
      SubtreeExtend(fs, shape, shape', Last(subs));
    }
  }

  /** What all top-level directories but `i` owe. */
  ghost function Others(fs: Fs, shape: seq<Spot>, subs: seq<Subtree>, i: nat): seq<Work>
    requires SubtreesOk(fs, shape, subs) && i < |subs|
  {
    SubtreesWork(fs, shape, subs[..i]) + SubtreesWork(fs, shape, subs[i + 1..])
  }

  lemma SubtreesOkConcat(fs: Fs, shape: seq<Spot>, a: seq<Subtree>, b: seq<Subtree>)
    requires SubtreesOk(fs, shape, a) && SubtreesOk(fs, shape, b)
    ensures SubtreesOk(fs, shape, a + b)
  {
    forall k | 0 <= k < |a + b| ensures SubtreeOk(fs, shape, (a + b)[k]) {
      assert (a + b)[k] == if k < |a| then a[k] else b[k - |a|];
    }
  }

  lemma {:induction false} SubtreesConcat(fs: Fs, shape: seq<Spot>, a: seq<Subtree>, b: seq<Subtree>)
    requires SubtreesOk(fs, shape, a) && SubtreesOk(fs, shape, b) && SubtreesOk(fs, shape, a + b)
    ensures SubtreesWork(fs, shape, a + b) == SubtreesWork(fs, shape, a) + SubtreesWork(fs, shape, b)
    decreases |b|
  {
    if b == [] {
      assert a + b == a;
    } else {
      var f, x := Front(b), Last(b);
      assert Front(a + b) == a + f && Last(a + b) == x;
      SubtreesOkConcat(fs, shape, a, f);
      SubtreesConcat(fs, shape, a, f);
      Assoc(SubtreesWork(fs, shape, a), SubtreesWork(fs, shape, f), SubtreeWork(fs, shape, x));
    }
  }

  lemma Assoc(a: seq<Work>, b: seq<Work>, c: seq<Work>)
    ensures a + b + c == a + (b + c)
  {
  }

  lemma SubtreesSplit(fs: Fs, shape: seq<Spot>, subs: seq<Subtree>, i: nat)
    requires SubtreesOk(fs, shape, subs) && i < |subs|
    ensures SubtreesWork(fs, shape, subs)
         == SubtreesWork(fs, shape, subs[..i]) + SubtreeWork(fs, shape, subs[i])
            + SubtreesWork(fs, shape, subs[i + 1..])
  {
    assert subs == subs[..i] + [subs[i]] + subs[i + 1..];
    SubtreesOkConcat(fs, shape, subs[..i], [subs[i]]);
    SubtreesConcat(fs, shape, subs[..i], [subs[i]]);
    SubtreesConcat(fs, shape, subs[..i] + [subs[i]], subs[i + 1..]);
    assert Front([subs[i]]) == [];
  }

  /** The order in which work is listed does not matter to the books. */
  lemma BooksSwap(fs: Fs, maxDepth: nat, l: Ledger, a: seq<Work>, b: seq<Work>, c: seq<Work>)
    requires Books(fs, maxDepth, l, a + b + c)
    ensures Books(fs, maxDepth, l, a + c + b)
  {
    forall what: Measure ensures Balanced(Scope(fs, maxDepth, what), l.shape, l.log, l.lost, a + c + b) {
      var sc := Scope(fs, maxDepth, what);
      assert Balanced(sc, l.shape, l.log, l.lost, a + b + c);
      WorkOkConcat(l.shape, a + b, c);
      WorkOkConcat(l.shape, a, b);
      WorkOkConcat(l.shape, a, c);
      WorkOkConcat(l.shape, a + c, b);
      forall n | 0 <= n < |l.shape| ensures BalancedAt(sc, l.shape, l.log, l.lost, a + c + b, n) {
        assert BalancedAt(sc, l.shape, l.log, l.lost, a + b + c, n);
        PendConcat(sc, a + b, c, n);
        PendConcat(sc, a, b, n);
        PendConcat(sc, a, c, n);
        PendConcat(sc, a + c, b, n);
      }
    }
  }

  /** Singling out one top-level directory, and putting it back. */
  lemma BooksPick(fs: Fs, maxDepth: nat, l: Ledger, subs: seq<Subtree>, i: nat)
    requires SubtreesOk(fs, l.shape, subs) && i < |subs|
    ensures Books(fs, maxDepth, l, SubtreesWork(fs, l.shape, subs))
       <==> Books(fs, maxDepth, l, Others(fs, l.shape, subs, i) + SubtreeWork(fs, l.shape, subs[i]))
  {
    SubtreesSplit(fs, l.shape, subs, i);
    var a, b, c := SubtreesWork(fs, l.shape, subs[..i]), SubtreeWork(fs, l.shape, subs[i]),
      SubtreesWork(fs, l.shape, subs[i + 1..]);
    if Books(fs, maxDepth, l, a + b + c) { BooksSwap(fs, maxDepth, l, a, b, c); }
    if Books(fs, maxDepth, l, a + c + b) { BooksSwap(fs, maxDepth, l, a, c, b); }
  }

  lemma BooksOpen(fs: Fs, maxDepth: nat, l: Ledger, base: seq<Work>, id: nat)
    requires id < |l.shape| && Books(fs, maxDepth, l, base + [Open(l.shape[id])])
    ensures if l.shape[id].path in fs then Books(fs, maxDepth, l, base + [Reading(l.shape[id], fs[l.shape[id].path])])
            else Books(fs, maxDepth, Noted(l, id, ClosedItem), base)
  {
    forall what: Measure
      ensures if l.shape[id].path in fs then
                Balanced(Scope(fs, maxDepth, what), l.shape, l.log, l.lost,
                         base + [Reading(l.shape[id], fs[l.shape[id].path])])
              else
                Balanced(Scope(fs, maxDepth, what), l.shape, Noted(l, id, ClosedItem).log, l.lost, base)
    {
      OpenDir(Scope(fs, maxDepth, what), l.shape, l.log, l.lost, base, l.shape[id]);
    }
  }

  lemma BooksClose(fs: Fs, maxDepth: nat, l: Ledger, base: seq<Work>, at: Spot)
    requires Books(fs, maxDepth, l, base + [Reading(at, [])])
    ensures Books(fs, maxDepth, l, base)
  {
    forall what: Measure ensures Balanced(Scope(fs, maxDepth, what), l.shape, l.log, l.lost, base) {
      CloseDir(Scope(fs, maxDepth, what), l.shape, l.log, l.lost, base, at);
    }
  }

  lemma AbsorbBalances(fs: Fs, maxDepth: nat, id: nat, entries: seq<Entry>, bg: seq<Work>,
                       l: Ledger, sink: seq<(nat, nat)>, l': Ledger, sink': seq<(nat, nat)>)
    requires id < |l.shape| && entries != [] && TreeOk(l.shape) && LogOk(l.shape, l.log) && StackOk(l.shape, sink)
    requires Absorbed(maxDepth, id, entries[0], l, sink, l', sink')
    requires Books(fs, maxDepth, l, bg + StackWork(l.shape, sink) + [Reading(l.shape[id], entries)])
    ensures l.shape <= l'.shape && StackOk(l'.shape, sink')
    ensures Books(fs, maxDepth, l', bg + StackWork(l'.shape, sink') + [Reading(l'.shape[id], entries[1..])])
  {
    var at, e := l.shape[id], entries[0];
    var base := bg + StackWork(l.shape, sink);
    StackWorkExtend(l.shape, l'.shape, sink);
    forall what: Measure
      ensures Balanced(Scope(fs, maxDepth, what), l'.shape, l'.log, l'.lost,
                       bg + StackWork(l'.shape, sink') + [Reading(l'.shape[id], entries[1..])])
    {
      var sc := Scope(fs, maxDepth, what);
      assert Balanced(sc, l.shape, l.log, l.lost, base + [Reading(at, entries)]);
      if !e.SubDir? {
        TakeEntry(sc, l.shape, l.log, l.lost, base, at, entries, ItemOf(at.path, e));
      } else if |l.shape| >= MAX_TRACKED_DIRS {
        SkipDir(sc, l.shape, l.log, l.lost, base, at, entries);
      } else {
        var spot := l'.shape[|l.shape|];
        var add := if at.depth < maxDepth then [Open(spot)] else [];
        var item := if at.depth < maxDepth then DirItem(spot.path) else LimitedDirItem(spot.path);
        AddDir(sc, l.shape, l.log, l.lost, base, id, entries, spot, item, add);
        assert base + add == bg + StackWork(l'.shape, sink') by {
          assert StackWork(l'.shape, sink') == StackWork(l.shape, sink) + add;
        }
      }
    }
  }

  /** The ids from a directory up to the scan root, which is its own parent. */
  method AncestorChain(nodes: seq<DirNode>, node: nat, ghost shape: seq<Spot>) returns (ancestors: seq<nat>)
    requires TreeOk(shape) && |nodes| == |shape| && node < |nodes|
    requires forall i :: 0 <= i < |nodes| ==> nodes[i].parent == shape[i].parent
    ensures forall a :: a in ancestors <==> a in shape[node].above
    ensures forall i, j :: 0 <= i < j < |ancestors| ==> ancestors[i] > ancestors[j]
  {
    ancestors := [];
    var current: nat := node;
    while true
      invariant current < |shape|
      invariant forall i :: 0 <= i < |ancestors| ==> ancestors[i] > current
      invariant forall i, j :: 0 <= i < j < |ancestors| ==> ancestors[i] > ancestors[j]
      invariant forall a :: a in shape[node].above <==> a in ancestors || a in shape[current].above
      decreases current
    {
      assert SpotOk(shape, current);
      ancestors := ancestors + [current];
      var parent := nodes[current].parent;
      if parent == current {
        break;
      }
      current := parent;
    }
  }

  /** A directory is being read: its cursor, the directories to open next, and all other work balance. */
  ghost predicate Reads(fs: Fs, maxDepth: nat, l: Ledger, cursor: DirCursor, sink: seq<(nat, nat)>, bg: seq<Work>) {
    && CursorOk(fs, l.shape, cursor)
    && StackOk(l.shape, sink)
    && Books(fs, maxDepth, l, bg + StackWork(l.shape, sink) + CursorWork(l.shape, Some(cursor)))
  }

  lemma AbsorbKeeps(fs: Fs, o: Options, f: Fields, l: Ledger, cursor: DirCursor, sink: seq<(nat, nat)>, bg: seq<Work>,
                    l': Ledger, sink': seq<(nat, nat)>)
    requires Sound(fs, o, f, l) && Reads(fs, o.maxDepth, l, cursor, sink, bg) && cursor.entries != []
    requires Absorbed(o.maxDepth, cursor.node, cursor.entries[0], l, sink, l', sink')
    ensures l.shape <= l'.shape
    ensures Reads(fs, o.maxDepth, l', cursor.(entries := cursor.entries[1..]), sink', bg)
  {
    AbsorbBalances(fs, o.maxDepth, cursor.node, cursor.entries, bg, l, sink, l', sink');
  }

  /** A top-level directory is being drained: what it owes and all other work balance. */
  ghost predicate Drains(fs: Fs, maxDepth: nat, l: Ledger, sub: Subtree, bg: seq<Work>) {
    && SubtreeOk(fs, l.shape, sub)
    && Books(fs, maxDepth, l, bg + SubtreeWork(fs, l.shape, sub))
  }

  lemma DrainToRead(fs: Fs, maxDepth: nat, l: Ledger, sub: Subtree, bg: seq<Work>)
    requires Drains(fs, maxDepth, l, sub, bg) && sub.cursor.Some?
    ensures Reads(fs, maxDepth, l, sub.cursor.value, sub.stack, bg)
  {
    Assoc(bg, StackWork(l.shape, sub.stack), CursorWork(l.shape, sub.cursor));
  }

  lemma ReadToDrain(fs: Fs, maxDepth: nat, l: Ledger, sub: Subtree, l': Ledger, cursor: DirCursor,
                    stack: seq<(nat, nat)>, bg: seq<Work>)
    requires SubtreeOk(fs, l.shape, sub) && sub.cursor.Some? && l.shape <= l'.shape
    requires Reads(fs, maxDepth, l', cursor, stack, bg)
    requires cursor.node == sub.cursor.value.node && Under(l'.shape, sub.rootNode, stack)
    ensures Drains(fs, maxDepth, l', sub.(stack := stack, cursor := Some(cursor)), bg)
    ensures cursor.entries == [] ==> Drains(fs, maxDepth, l', sub.(stack := stack, cursor := None), bg)
  {
    Assoc(bg, StackWork(l'.shape, stack), CursorWork(l'.shape, Some(cursor)));
    if cursor.entries == [] {
      BooksClose(fs, maxDepth, l', bg + StackWork(l'.shape, stack), l'.shape[cursor.node]);
      var sub' := sub.(stack := stack, cursor := None);
      assert SubtreeWork(fs, l'.shape, sub') == StackWork(l'.shape, stack);
    }
  }

  /** The directory on top of the stack is taken off and opened, or noted as unreadable. */
  lemma DrainPop(fs: Fs, maxDepth: nat, l: Ledger, sub: Subtree, bg: seq<Work>)
    requires Drains(fs, maxDepth, l, sub, bg) && sub.cursor.None? && sub.stack != []
    ensures var id, rest := Last(sub.stack).0, Front(sub.stack);
            if l.shape[id].path in fs then
              forall c :: CursorOk(fs, l.shape, c) && c.node == id && c.entries == fs[l.shape[id].path] ==>
                Drains(fs, maxDepth, l, sub.(stack := rest, cursor := Some(c)), bg)
            else
              Drains(fs, maxDepth, Noted(l, id, ClosedItem),
                     sub.(stack := rest, unreadable := sub.unreadable || id == sub.rootNode), bg)
  {
    var id, rest := Last(sub.stack).0, Front(sub.stack);
    var base := bg + StackWork(l.shape, rest);
    assert StackWork(l.shape, sub.stack) == StackWork(l.shape, rest) + [Open(l.shape[id])];
    assert SubtreeWork(fs, l.shape, sub) == StackWork(l.shape, sub.stack);
    Assoc(bg, StackWork(l.shape, rest), [Open(l.shape[id])]);
    BooksOpen(fs, maxDepth, l, base, id);
    if l.shape[id].path in fs {
      Assoc(bg, StackWork(l.shape, rest), [Reading(l.shape[id], fs[l.shape[id].path])]);
    } else {
      var sub' := sub.(stack := rest, unreadable := sub.unreadable || id == sub.rootNode);
      assert SubtreeWork(fs, l.shape, sub') == StackWork(l.shape, rest);
    }
  }

  /** All top-level directories together balance. */
  ghost predicate Schedules(fs: Fs, maxDepth: nat, l: Ledger, subs: seq<Subtree>) {
    SubtreesOk(fs, l.shape, subs) && Books(fs, maxDepth, l, SubtreesWork(fs, l.shape, subs))
  }

  lemma SchedulePick(fs: Fs, maxDepth: nat, l: Ledger, subs: seq<Subtree>, i: nat)
    requires Schedules(fs, maxDepth, l, subs) && i < |subs|
    ensures Drains(fs, maxDepth, l, subs[i], Others(fs, l.shape, subs, i))
  {
    BooksPick(fs, maxDepth, l, subs, i);
  }

  lemma SchedulePut(fs: Fs, maxDepth: nat, l: Ledger, subs: seq<Subtree>, i: nat, l': Ledger, sub: Subtree)
    requires SubtreesOk(fs, l.shape, subs) && i < |subs| && l.shape <= l'.shape
    requires Drains(fs, maxDepth, l', sub, Others(fs, l.shape, subs, i))
    ensures Schedules(fs, maxDepth, l', subs[i := sub])
  {
    var subs' := subs[i := sub];
    SubtreesExtend(fs, l.shape, l'.shape, subs);
    SubtreesExtend(fs, l.shape, l'.shape, subs[..i]);
    SubtreesExtend(fs, l.shape, l'.shape, subs[i + 1..]);
    assert subs'[..i] == subs[..i] && subs'[i + 1..] == subs[i + 1..];
    assert Others(fs, l'.shape, subs', i) == Others(fs, l.shape, subs, i);
    BooksPick(fs, maxDepth, l', subs', i);
  }

  // ----- the whole state ---------------------------------------------------------------------------

  /** The real side of a run. */
  datatype Fields = Fields(
    report: Counters,
    nodes: seq<DirNode>,
    bucketLabels: seq<string>,
    bucketTotals: seq<nat>,
    topFiles: seq<Sized>,
    topFileFloor: nat,
    seenInodes: set<Inode>)

  /** The ledger itself is in order. */
  ghost predicate Filed(fs: Fs, o: Options, l: Ledger) {
    && TreeOk(l.shape) && l.shape[0].path == o.root
    && LogOk(l.shape, l.log) && FromFs(fs, l.log) && Backed(l.shape, l.log)
    && (l.lost != [] ==> |l.shape| >= 800_000)
  }

  /** The byte sums are those of the ledger. */
  ghost predicate Summed(f: Fields, l: Ledger) {
    && NodesOk(f.nodes, l.shape, l.log) && BucketsOk(f.bucketLabels, f.bucketTotals, l.shape, l.log)
    && LabelsOk(f.bucketLabels, l.shape)
  }

  /** The counters and the inode table are those of the ledger. */
  ghost predicate Tallied(f: Fields, l: Ledger) {
    f.report == Recount(l.log).(dirsUntracked := |l.lost|) && f.seenInodes == Seen(l.log)
  }

  /** The list of the largest files is kept over exactly the files that count. */
  ghost predicate Listed(o: Options, f: Fields, l: Ledger) {
    && l.eligible == Eligible(l.log, o.minFileSize)
    && (if o.top > 0 then Online(l.eligible, o.top, f.topFiles, f.topFileFloor, l.gone) else f.topFiles == [])
  }

  /** The real fields are what the ledger says. */
  ghost predicate Sound(fs: Fs, o: Options, f: Fields, l: Ledger) {
    Filed(fs, o, l) && Summed(f, l) && Tallied(f, l) && Listed(o, f, l)
  }
}
