/** What taking in one entry does to the fields of the walk, and that they stay what the ledger says. */
module DiskSteps {
  import opened Basics
  import opened Sorting
  import opened DiskTally
  import opened DiskLedger
  import opened DiskCensus
  import opened DiskTop
  import opened DiskState

  /** Adds `size` to every directory on the way up: the `du` step. */
  method AddToAncestors(nodes: seq<DirNode>, ancestors: seq<nat>, size: nat) returns (r: seq<DirNode>)
    requires forall a :: a in ancestors ==> a < |nodes|
    requires forall i, j :: 0 <= i < j < |ancestors| ==> ancestors[i] != ancestors[j]
    ensures |r| == |nodes|
    ensures forall i :: 0 <= i < |nodes| ==>
      r[i] == if i in ancestors then nodes[i].(bytes := SaturatingAdd(nodes[i].bytes, size)) else nodes[i]
  {
    r := nodes;
    for k := 0 to |ancestors|
      invariant |r| == |nodes|
      invariant forall i :: 0 <= i < |nodes| ==>
        r[i] == if i in ancestors[..k] then nodes[i].(bytes := SaturatingAdd(nodes[i].bytes, size)) else nodes[i]
    {
      var a := ancestors[k];
      assert a in ancestors;
      assert a !in ancestors[..k];
      assert ancestors[..k + 1] == ancestors[..k] + [a];
      r := r[a := r[a].(bytes := SaturatingAdd(r[a].bytes, size))];
    }
    assert ancestors[..|ancestors|] == ancestors;
  }

  /** Sorts an overfull list and cuts it back; the last file kept sets the floor. */
  method CutBack(top: U64, list: seq<Sized>, file: Sized, ghost all: seq<Sized>, ghost floor: nat,
                 ghost gone: seq<Sized>)
    returns (kept: seq<Sized>, floor': nat, ghost gone': seq<Sized>)
    requires Online(all, top, list, floor, gone) && 1 <= top <= Keep(top) == |list|
    ensures Online(all + [file], top, kept, floor', gone')
  {
    var sorted := LargestFirst(list + [file]);
    OnlineCut(all, top, list, floor, gone, file, sorted);
    return sorted[..top], sorted[top - 1].0, gone + sorted[top..];
  }

  /** Notes a counted file for the list of the largest ones. */
  method NoteFile(top: U64, list: seq<Sized>, floor: nat, file: Sized, ghost all: seq<Sized>, ghost gone: seq<Sized>)
    returns (list': seq<Sized>, floor': nat, ghost gone': seq<Sized>)
    requires top > 0 && Online(all, top, list, floor, gone)
    ensures Online(all + [file], top, list', floor', gone')
  {
    var keep := Keep(top);
    OnlineFits(all, top, list, floor, gone);
    if |list| < keep {
      OnlinePush(all, top, list, floor, gone, file);
      return list + [file], floor, gone;
    }
    if file.0 > floor {
      list', floor', gone' := CutBack(top, list, file, all, floor, gone);
    } else {
      OnlineForget(all, top, list, floor, gone, file);
      return list, floor, gone + [file];
    }
  }

  // ----- the first state --------------------------------------------------------------------------

  function StartFields(o: Options): Fields {
    Fields(Counters(0, 0, 0, 0, 0, 0, 0, 0, 0), [DirNode(o.root, ROOT_NODE, 0, NO_BUCKET)], ["(root)"], [0], [], 0, {})
  }

  ghost function StartLedger(o: Options): Ledger {
    Ledger([Spot(0, o.root, 0, 0, {0})], Blank, [], [], [])
  }

  lemma StartSound(fs: Fs, o: Options)
    ensures Sound(fs, o, StartFields(o), StartLedger(o))
  {
  }

  /** The counters after an entry that carries no bytes and opens nothing. */
  function Noticed(c: Counters, e: Entry): Counters {
    match e
    case Unreadable => c.(unreadable := c.unreadable + 1)
    case Symlink => c.(symlinks := c.symlinks + 1)
    case Foreign => c.(otherFilesystems := c.otherFilesystems + 1)
    case _ => c
  }

  lemma FiledSame(fs: Fs, o: Options, l: Ledger, id: nat, item: Item)
    requires Filed(fs, o, l) && id < |l.shape|
    requires item.FileItem? ==> OnDisk(fs, item.path, item.inode, item.size)
    ensures Filed(fs, o, Noted(l, id, item))
  {
    BackedSame(l.shape, l.log, Rec(l.shape[id], item));
  }

  /** A record that counts no bytes leaves the sums alone. */
  lemma SummedSame(f: Fields, l: Ledger, id: nat, item: Item)
    requires Summed(f, l) && id < |l.shape| && !Counts(l.log, item)
    ensures Summed(f, Noted(l, id, item))
  {
  }

  lemma ListedSame(o: Options, f: Fields, l: Ledger, id: nat, item: Item)
    requires Listed(o, f, l) && id < |l.shape| && !Counts(l.log, item)
    ensures Listed(o, f, Noted(l, id, item))
  {
    assert Eligible(l.log, o.minFileSize) + [] == Eligible(l.log, o.minFileSize);
  }

  /** The counters after one more record. */
  lemma TalliedMore(f: Fields, l: Ledger, id: nat, item: Item)
    requires Tallied(f, l) && id < |l.shape|
    ensures Recount(Noted(l, id, item).log).(dirsUntracked := |l.lost|) == Recorded(f.report, item, Counts(l.log, item))
    ensures !item.FileItem? ==> Seen(Noted(l, id, item).log) == f.seenInodes
  {
  }

  lemma NoticedIsRecorded(c: Counters, path: Path, e: Entry)
    requires !e.SubDir? && !e.File?
    ensures Noticed(c, e) == Recorded(c, ItemOf(path, e), false)
  {
  }

  /** Everything a record without bytes leaves alone. */
  lemma WeightlessSound(fs: Fs, o: Options, f: Fields, l: Ledger, id: nat, item: Item)
    requires Sound(fs, o, f, l) && id < |l.shape| && !item.FileItem?
    ensures Sound(fs, o, f.(report := Recorded(f.report, item, false)), Noted(l, id, item))
  {
    FiledSame(fs, o, l, id, item);
    SummedSame(f, l, id, item);
    ListedSame(o, f, l, id, item);
    TalliedMore(f, l, id, item);
  }

  lemma NoticedSound(fs: Fs, o: Options, f: Fields, l: Ledger, id: nat, path: Path, e: Entry)
    requires Sound(fs, o, f, l) && id < |l.shape|
    requires !e.SubDir? && !e.File?
    ensures Sound(fs, o, f.(report := Noticed(f.report, e)), Noted(l, id, ItemOf(path, e)))
  {
    NoticedIsRecorded(f.report, path, e);
    WeightlessSound(fs, o, f, l, id, ItemOf(path, e));
  }

  // ----- directories -------------------------------------------------------------------------------

  /** A subdirectory for which the arena has no room is counted, but neither tracked nor opened. */
  function UntrackedFields(f: Fields): Fields {
    var c := f.report;
    f.(report := c.(directories := c.directories + 1, dirsUntracked := c.dirsUntracked + 1))
  }

  ghost function UntrackedLedger(l: Ledger, id: nat, name: string): Ledger
    requires id < |l.shape|
  {
    Noted(l, id, DirItem(l.shape[id].path + [name])).(lost := l.lost + [Skipped(l.shape[id], name)])
  }

  lemma UntrackedSound(fs: Fs, o: Options, f: Fields, l: Ledger, id: nat, name: string)
    requires Sound(fs, o, f, l) && id < |l.shape| && |l.shape| >= MAX_TRACKED_DIRS
    ensures Sound(fs, o, UntrackedFields(f), UntrackedLedger(l, id, name))
  {
    WeightlessSound(fs, o, f, l, id, DirItem(l.shape[id].path + [name]));
  }

  /** Where a cursor stands in the arena. */
  lemma CursorAt(fs: Fs, o: Options, f: Fields, l: Ledger, c: DirCursor)
    requires Sound(fs, o, f, l) && CursorOk(fs, l.shape, c)
    ensures c.node < |l.shape| == |f.nodes| && c.path == l.shape[c.node].path && c.depth == l.shape[c.node].depth
  {
  }

  lemma UntrackedAbsorbed(maxDepth: nat, l: Ledger, id: nat, name: string, sink: seq<(nat, nat)>)
    requires id < |l.shape| && |l.shape| >= MAX_TRACKED_DIRS
    ensures Absorbed(maxDepth, id, SubDir(name), l, sink, UntrackedLedger(l, id, name), sink)
  {
  }

  lemma GrownAbsorbed(maxDepth: nat, f: Fields, l: Ledger, id: nat, name: string, limited: bool,
                      sink: seq<(nat, nat)>, sink': seq<(nat, nat)>)
    requires id < |l.shape| < MAX_TRACKED_DIRS && limited == (l.shape[id].depth >= maxDepth)
    requires sink' == if limited then sink else sink + [(|l.shape|, l.shape[id].depth + 1)]
    ensures Absorbed(maxDepth, id, SubDir(name), l, sink, GrownLedger(f, l, id, name, limited), sink')
  {
  }

  /** Nothing was counted yet in a directory or bucket that is new. */
  lemma {:induction false} NothingCounted(shape: seq<Spot>, log: Log, n: nat, b: nat)
    requires TreeOk(shape) && LogOk(shape, log)
    ensures n >= |shape| ==> Counted(log, n) == 0
    ensures (forall i :: 0 <= i < |shape| ==> shape[i].bucket < b) ==> BucketSum(log, b) == 0
  {
    if log.Add? {
      NothingCounted(shape, log.prev, n, b);
      InTree(shape, log.last.at);
    }
  }

  ghost function ChildBucket(f: Fields, l: Ledger, id: nat): nat
    requires id < |l.shape|
  {
    if id == ROOT_NODE then |f.bucketLabels| else l.shape[id].bucket
  }

  /** The real fields after a new directory node; directly below the root it also gets a bucket. */
  function GrownFields(f: Fields, id: nat, path: Path, name: string, limited: bool): Fields
    requires id < |f.nodes|
  {
    var top := id == ROOT_NODE;
    f.(report := f.report.(directories := f.report.directories + 1,
                           depthLimited := f.report.depthLimited + if limited then 1 else 0),
       nodes := f.nodes + [DirNode(path + [name], id, 0, if top then |f.bucketLabels| else f.nodes[id].bucket)],
       bucketLabels := if top then f.bucketLabels + [name] else f.bucketLabels,
       bucketTotals := if top then f.bucketTotals + [0] else f.bucketTotals)
  }

  ghost function GrownItem(l: Ledger, id: nat, name: string, limited: bool): Item
    requires id < |l.shape|
  {
    var path := l.shape[id].path + [name];
    if limited then LimitedDirItem(path) else DirItem(path)
  }

  ghost function GrownLedger(f: Fields, l: Ledger, id: nat, name: string, limited: bool): Ledger
    requires id < |l.shape|
  {
    Noted(l, id, GrownItem(l, id, name, limited))
      .(shape := l.shape + [ChildSpot(|l.shape|, l.shape[id], id, name, ChildBucket(f, l, id))])
  }

  lemma GrownSound(fs: Fs, o: Options, f: Fields, l: Ledger, id: nat, name: string, limited: bool)
    requires Sound(fs, o, f, l) && id < |l.shape| < MAX_TRACKED_DIRS
    ensures Sound(fs, o, GrownFields(f, id, l.shape[id].path, name, limited), GrownLedger(f, l, id, name, limited))
  {
    var item := GrownItem(l, id, name, limited);
    WeightlessSound(fs, o, f, l, id, item);
    GrownFiled(fs, o, f, l, id, name, limited);
    GrownArena(f, l, id, name, limited);
    GrownLabels(f, l, id, name, limited);
    ListedSame(o, f, l, id, item);
    TalliedMore(f, l, id, item);
  }

  lemma GrownFiled(fs: Fs, o: Options, f: Fields, l: Ledger, id: nat, name: string, limited: bool)
    requires Filed(fs, o, l) && id < |l.shape| && BucketsOk(f.bucketLabels, f.bucketTotals, l.shape, l.log)
    ensures Filed(fs, o, GrownLedger(f, l, id, name, limited))
  {
    var l' := GrownLedger(f, l, id, name, limited);
    GrownTree(f, l, id, name, limited);
    InTree(l.shape, l.shape[id]);
    BackedMore(l.shape, l.log, l'.shape[|l.shape|], l'.log.last);
  }

  lemma GrownTree(f: Fields, l: Ledger, id: nat, name: string, limited: bool)
    requires TreeOk(l.shape) && LogOk(l.shape, l.log) && id < |l.shape|
    requires BucketsOk(f.bucketLabels, f.bucketTotals, l.shape, l.log)
    ensures var l' := GrownLedger(f, l, id, name, limited);
            TreeOk(l'.shape) && LogOk(l'.shape, l'.log) && l.shape <= l'.shape
  {
    var l' := GrownLedger(f, l, id, name, limited);
    forall i: nat | TopLevel(l.shape, i) ensures l.shape[i].bucket < |f.bucketTotals| {
    }
    TreeExtend(l.shape, id, name, ChildBucket(f, l, id));
    LogOkExtend(l.shape, l'.shape, l.log);
    assert l'.shape[id] == l.shape[id];
  }

  lemma GrownArena(f: Fields, l: Ledger, id: nat, name: string, limited: bool)
    requires TreeOk(l.shape) && LogOk(l.shape, l.log) && id < |l.shape| < MAX_TRACKED_DIRS
    requires NodesOk(f.nodes, l.shape, l.log) && BucketsOk(f.bucketLabels, f.bucketTotals, l.shape, l.log)
    ensures var f', l' := GrownFields(f, id, l.shape[id].path, name, limited), GrownLedger(f, l, id, name, limited);
            && NodesOk(f'.nodes, l'.shape, l'.log)
            && BucketsOk(f'.bucketLabels, f'.bucketTotals, l'.shape, l'.log)
  {
    NothingCounted(l.shape, l.log, |l.shape|, |f.bucketTotals|);
    InTree(l.shape, l.shape[id]);
  }

  lemma GrownLabels(f: Fields, l: Ledger, id: nat, name: string, limited: bool)
    requires LabelsOk(f.bucketLabels, l.shape) && id < |l.shape| == |f.nodes|
    ensures LabelsOk(GrownFields(f, id, l.shape[id].path, name, limited).bucketLabels,
                     GrownLedger(f, l, id, name, limited).shape)
  {
    var l' := GrownLedger(f, l, id, name, limited);
    forall i: nat | TopLevel(l'.shape, i) && i < |l.shape| ensures TopLevel(l.shape, i) && l'.shape[i] == l.shape[i] {
    }
  }

  /** Counts a subdirectory; it becomes an arena node if there is room, and is to be opened unless it lies too deep. */
  method CountDir(ghost fs: Fs, o: Options, f: Fields, cursor: DirCursor, name: string, sink: seq<(nat, nat)>,
                  ghost l: Ledger)
    returns (f': Fields, sink': seq<(nat, nat)>, ghost l': Ledger)
    requires Sound(fs, o, f, l) && CursorOk(fs, l.shape, cursor)
    ensures Sound(fs, o, f', l')
    ensures Absorbed(o.maxDepth, cursor.node, SubDir(name), l, sink, l', sink')
  {
    CursorAt(fs, o, f, l, cursor);
    hide Sound, CursorOk, Absorbed, UntrackedFields, UntrackedLedger, GrownFields, GrownLedger;
    if |f.nodes| >= MAX_TRACKED_DIRS {
      UntrackedSound(fs, o, f, l, cursor.node, name);
      UntrackedAbsorbed(o.maxDepth, l, cursor.node, name, sink);
      return UntrackedFields(f), sink, UntrackedLedger(l, cursor.node, name);
    }
    var limited := cursor.depth >= o.maxDepth;
    GrownSound(fs, o, f, l, cursor.node, name, limited);
    sink' := if limited then sink else sink + [(|f.nodes|, cursor.depth + 1)];
    GrownAbsorbed(o.maxDepth, f, l, cursor.node, name, limited, sink, sink');
    f' := GrownFields(f, cursor.node, cursor.path, name, limited);
    l' := GrownLedger(f, l, cursor.node, name, limited);
  }

  // ----- files -------------------------------------------------------------------------------------

  /** A further name of a counted inode only adds to the files and to the deduplicated bytes. */
  lemma DuplicateSound(fs: Fs, o: Options, f: Fields, l: Ledger, id: nat, path: Path, inode: Inode, size: nat)
    requires Sound(fs, o, f, l) && id < |l.shape| && inode in f.seenInodes && OnDisk(fs, path, Some(inode), size)
    ensures Sound(fs, o,
              f.(report := f.report.(files := f.report.files + 1,
                                     hardlinksDeduped := SaturatingAdd(f.report.hardlinksDeduped, size))),
              Noted(l, id, FileItem(path, Some(inode), size)))
  {
    var item := FileItem(path, Some(inode), size);
    FiledSame(fs, o, l, id, item);
    SummedSame(f, l, id, item);
    ListedSame(o, f, l, id, item);
    TalliedMore(f, l, id, item);
  }

  /** The byte sums after a counted file: its directory's bucket and all directories above it grow by its size. */
  lemma CountedArena(f: Fields, l: Ledger, id: nat, item: Item, nodes: seq<DirNode>, totals: seq<nat>)
    requires TreeOk(l.shape) && LogOk(l.shape, l.log) && id < |l.shape|
    requires NodesOk(f.nodes, l.shape, l.log) && BucketsOk(f.bucketLabels, f.bucketTotals, l.shape, l.log)
    requires Counts(l.log, item)
    requires |nodes| == |f.nodes|
    requires forall i :: 0 <= i < |nodes| ==>
      nodes[i] == if i in l.shape[id].above then f.nodes[i].(bytes := SaturatingAdd(f.nodes[i].bytes, item.size))
                  else f.nodes[i]
    requires var b := l.shape[id].bucket; totals == f.bucketTotals[b := SaturatingAdd(f.bucketTotals[b], item.size)]
    ensures NodesOk(nodes, l.shape, Noted(l, id, item).log)
    ensures BucketsOk(f.bucketLabels, totals, l.shape, Noted(l, id, item).log)
  {
  }

  /** A file whose bytes count: everything it changes, in one step. */
  lemma CountedSound(fs: Fs, o: Options, f: Fields, l: Ledger, id: nat, item: Item, f': Fields, l': Ledger)
    requires Filed(fs, o, l) && Tallied(f, l) && id < |l.shape|
    requires item.FileItem? && Counts(l.log, item) && OnDisk(fs, item.path, item.inode, item.size)
    requires Summed(f', Noted(l, id, item)) && Listed(o, f', l')
    requires f'.seenInodes == f.seenInodes + (if item.inode.Some? then {item.inode.value} else {})
    requires f'.report == f.report.(files := f.report.files + 1,
                                    totalBytes := SaturatingAdd(f.report.totalBytes, item.size))
    requires l' == Noted(l, id, item).(eligible := l'.eligible, gone := l'.gone)
    ensures Sound(fs, o, f', l')
  {
    FiledSame(fs, o, l, id, item);
    TalliedMore(f, l, id, item);
  }

  /** What the list of files becomes when a file counts. */
  lemma ListedMore(o: Options, f: Fields, l: Ledger, id: nat, item: Item, f': Fields, l': Ledger)
    requires Listed(o, f, l) && id < |l.shape| && Counts(l.log, item) && l'.log == Noted(l, id, item).log
    requires l'.eligible == l.eligible + (if item.size >= o.minFileSize then [(item.size, item.path)] else [])
    requires if o.top > 0 then Online(l'.eligible, o.top, f'.topFiles, f'.topFileFloor, l'.gone) else f'.topFiles == []
    ensures Listed(o, f', l')
  {
  }

  lemma RootBucket(shape: seq<Spot>)
    requires TreeOk(shape)
    ensures shape[0].bucket == 0
  {
    assert SpotOk(shape, 0);
  }

  /** Adds the bytes of a counted file to its bucket and to every directory above it. */
  method CountBytes(ghost fs: Fs, f: Fields, cursor: DirCursor, ghost item: Item, size: nat, ghost l: Ledger)
    returns (nodes: seq<DirNode>, totals: seq<nat>)
    requires TreeOk(l.shape) && LogOk(l.shape, l.log) && Summed(f, l) && CursorOk(fs, l.shape, cursor)
    requires Counts(l.log, item) && item.size == size
    ensures Summed(f.(nodes := nodes, bucketTotals := totals), Noted(l, cursor.node, item))
  {
    var bucket := if cursor.node == ROOT_NODE then 0 else f.nodes[cursor.node].bucket;
    RootBucket(l.shape);
    InTree(l.shape, l.shape[cursor.node]);
    totals := f.bucketTotals[bucket := SaturatingAdd(f.bucketTotals[bucket], size)];
    nodes := AddToAncestors(f.nodes, cursor.ancestors, size);
    CountedArena(f, l, cursor.node, item, nodes, totals);
  }

  /** Adds a counted file to the list of the largest ones, if it is large enough. */
  method ListFile(o: Options, f: Fields, id: nat, file: Sized, ghost item: Item, ghost l: Ledger)
    returns (list: seq<Sized>, floor: nat, ghost eligible: seq<Sized>, ghost gone: seq<Sized>)
    requires Listed(o, f, l) && id < |l.shape| && Counts(l.log, item) && file == (item.size, item.path)
    ensures Listed(o, f.(topFiles := list, topFileFloor := floor),
                   Noted(l, id, item).(eligible := eligible, gone := gone))
  {
    list, floor, gone := f.topFiles, f.topFileFloor, l.gone;
    eligible := l.eligible + if file.0 >= o.minFileSize then [file] else [];
    if file.0 >= o.minFileSize && o.top > 0 {
      list, floor, gone := NoteFile(o.top, list, floor, file, l.eligible, gone);
    } else {
      assert l.eligible + [] == l.eligible;
    }
    ListedMore(o, f, l, id, item, f.(topFiles := list, topFileFloor := floor),
               Noted(l, id, item).(eligible := eligible, gone := gone));
  }

  /** Counts a file: its bytes, its inode and its place among the largest. */
  method CountFile(ghost fs: Fs, o: Options, f: Fields, cursor: DirCursor, path: Path, inode: Option<Inode>, size: nat,
                   ghost l: Ledger)
    returns (f': Fields, ghost l': Ledger)
    requires Sound(fs, o, f, l) && CursorOk(fs, l.shape, cursor) && OnDisk(fs, path, inode, size)
    requires inode.Some? ==> inode.value !in f.seenInodes
    ensures Sound(fs, o, f', l')
    ensures l'.log == Noted(l, cursor.node, FileItem(path, inode, size)).log && l'.shape == l.shape && l'.lost == l.lost
  {
    ghost var item := FileItem(path, inode, size);
    var nodes, totals := CountBytes(fs, f, cursor, item, size, l);
    var list, floor;
    ghost var eligible, gone;
    list, floor, eligible, gone := ListFile(o, f, cursor.node, (size, path), item, l);
    f' := f.(report := f.report.(files := f.report.files + 1, totalBytes := SaturatingAdd(f.report.totalBytes, size)),
             nodes := nodes, bucketTotals := totals, topFiles := list, topFileFloor := floor,
             seenInodes := if inode.Some? then f.seenInodes + {inode.value} else f.seenInodes);
    l' := Noted(l, cursor.node, item).(eligible := eligible, gone := gone);
    CountedSound(fs, o, f, l, cursor.node, item, f', l');
  }
}
