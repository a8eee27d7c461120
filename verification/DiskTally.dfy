/** The file system as the walk sees it, and a plain recursive `du` over it. */
module DiskTally {
  import opened Basics

  type Path = seq<string>
  type Inode = (nat, nat) // (device, inode number)

  /** One directory entry, after `readdir` and `lstat`. */
  datatype Entry =
    | Unreadable                                              // the entry or its metadata cannot be read
    | Symlink
    | Foreign                                                 // on another device than the scan root
    | SubDir(name: string)
    | File(name: string, inode: Option<Inode>, size: nat)     // inode only when the link count exceeds one
    | Special                                                 // socket, pipe, device node

  /** Readable directories and their listings; a directory that cannot be opened is missing. */
  type Fs = map<Path, seq<Entry>>

  /**
   The quantities a traversal adds up. `Entries` counts everything a listing yields, `Bytes` the bytes of every
   name, `PlainBytes` only those of files with a single name, `Names(i)` the names of inode `i`, `FileAt` and
   `DirsAt` one particular file and one particular directory.
   */
  datatype Measure =
    | Entries | Files | Directories | Symlinks | ForeignEntries | UnreadableEntries | DepthLimited
    | Bytes | PlainBytes | Names(inode: Inode)
    | FileAt(path: Path, link: Option<Inode>, size: nat) | DirsAt(path: Path)

  /** A traversal of `fs` down to `maxDepth` that adds up `what`. */
  datatype Scope = Scope(fs: Fs, maxDepth: nat, what: Measure)

  function Unit(what: Measure, kind: Measure): nat {
    if what == kind then 1 else 0
  }

  /** The worth of an entry that is only counted. */
  function EntryUnit(what: Measure, kind: Measure): nat {
    if what == kind || what == Entries then 1 else 0
  }

  function FileWorth(what: Measure, path: Path, inode: Option<Inode>, size: nat): nat {
    match what
    case Entries => 1
    case Files => 1
    case Bytes => size
    case PlainBytes => if inode.None? then size else 0
    case Names(i) => if inode == Some(i) then 1 else 0
    case FileAt(p, link, n) => if p == path && link == inode && n == size then 1 else 0
    case _ => 0
  }

  /** The worth of a subdirectory entry, without what is inside. */
  function DirWorth(what: Measure, path: Path): nat {
    if what == Entries || what == Directories || what == DirsAt(path) then 1 else 0
  }

  ghost function Levels(maxDepth: nat, depth: nat): nat {
    if depth <= maxDepth then maxDepth - depth + 1 else 0
  }

  /** Recursive `du` of the directory at `path`, itself at depth `depth`. */
  ghost function Du(sc: Scope, path: Path, depth: nat): nat
    decreases Levels(sc.maxDepth, depth), 3, 0
  {
    if path in sc.fs then DuEntries(sc, path, depth, sc.fs[path]) else Unit(sc.what, UnreadableEntries)
  }

  ghost function DuEntries(sc: Scope, path: Path, depth: nat, entries: seq<Entry>): nat
    decreases Levels(sc.maxDepth, depth), 2, |entries|
  {
    if entries == [] then
      0
    else
      DuEntry(sc, path, depth, entries[0]) + DuEntries(sc, path, depth, entries[1..])
  }

  ghost function DuEntry(sc: Scope, path: Path, depth: nat, entry: Entry): nat
    decreases Levels(sc.maxDepth, depth), 1, 0
  {
    match entry
    case Unreadable => EntryUnit(sc.what, UnreadableEntries)
    case Symlink => EntryUnit(sc.what, Symlinks)
    case Foreign => EntryUnit(sc.what, ForeignEntries)
    case SubDir(name) => DirWorth(sc.what, path + [name]) + Inside(sc, path, depth, name)
    case File(name, inode, size) => FileWorth(sc.what, path + [name], inode, size)
    case Special => Unit(sc.what, Entries)
  }

  /** What lies inside the subdirectory `name`: cut off exactly at the depth limit. */
  ghost function Inside(sc: Scope, path: Path, depth: nat, name: string): nat
    decreases Levels(sc.maxDepth, depth), 0, 0
  {
    if depth < sc.maxDepth then Du(sc, path + [name], depth + 1) else Unit(sc.what, DepthLimited)
  }

  /** The shared inodes a recursive `du` meets. */
  ghost function DuInodes(fs: Fs, maxDepth: nat, path: Path, depth: nat): set<Inode>
    decreases Levels(maxDepth, depth), 1, 0
  {
    if path in fs then EntryInodes(fs, maxDepth, path, depth, fs[path]) else {}
  }

  ghost function EntryInodes(fs: Fs, maxDepth: nat, path: Path, depth: nat, entries: seq<Entry>): set<Inode>
    decreases Levels(maxDepth, depth), 0, |entries|
  {
    if entries == [] then
      {}
    else
      var e := entries[0];
      (if e.File? && e.inode.Some? then {e.inode.value}
       else if e.SubDir? && depth < maxDepth then DuInodes(fs, maxDepth, path + [e.name], depth + 1)
       else {})
      + EntryInodes(fs, maxDepth, path, depth, entries[1..])
  }

  /** An inode is met exactly when `du` finds a name of it. */
  lemma {:induction false} InodeHasName(sc: Scope, path: Path, depth: nat)
    requires sc.what.Names?
    ensures sc.what.inode in DuInodes(sc.fs, sc.maxDepth, path, depth) <==> Du(sc, path, depth) > 0
    decreases Levels(sc.maxDepth, depth), 1, 0
  {
    if path in sc.fs {
      EntryHasName(sc, path, depth, sc.fs[path]);
    }
  }

  lemma {:induction false} EntryHasName(sc: Scope, path: Path, depth: nat, entries: seq<Entry>)
    requires sc.what.Names?
    ensures sc.what.inode in EntryInodes(sc.fs, sc.maxDepth, path, depth, entries)
       <==> DuEntries(sc, path, depth, entries) > 0
    decreases Levels(sc.maxDepth, depth), 0, |entries|
  {
    if entries != [] {
      var e := entries[0];
      EntryHasName(sc, path, depth, entries[1..]);
      if e.SubDir? && depth < sc.maxDepth {
        InodeHasName(sc, path + [e.name], depth + 1);
        assert DuEntry(sc, path, depth, e) == Du(sc, path + [e.name], depth + 1);
      } else if e.SubDir? {
        assert DuEntry(sc, path, depth, e) == 0;
      } else {
        assert DuEntry(sc, path, depth, e) == if e.File? && e.inode == Some(sc.what.inode) then 1 else 0;
      }
    }
  }

  /** All names of one inode agree on its size, as they do on any real file system. */
  ghost predicate Coherent(fs: Fs, sizeOf: Inode -> nat) {
    forall p, k :: p in fs && 0 <= k < |fs[p]| && fs[p][k].File? && fs[p][k].inode.Some?
                   ==> fs[p][k].size == sizeOf(fs[p][k].inode.value)
  }

  /** Total size of a set of inodes, each counted once. */
  ghost function SumSizes(s: set<Inode>, sizeOf: Inode -> nat): nat
    decreases |s|
  {
    if s == {} then 0 else var x :| x in s; sizeOf(x) + SumSizes(s - {x}, sizeOf)
  }

  lemma {:induction false} SumSizesAdd(s: set<Inode>, x: Inode, sizeOf: Inode -> nat)
    requires x !in s
    ensures SumSizes(s + {x}, sizeOf) == SumSizes(s, sizeOf) + sizeOf(x)
    decreases |s|
  {
    var t := s + {x};
    var y :| y in t && SumSizes(t, sizeOf) == sizeOf(y) + SumSizes(t - {y}, sizeOf);
    if y == x {
      assert t - {y} == s;
    } else {
      assert t - {y} == (s - {y}) + {x};
      SumSizesAdd(s - {y}, x, sizeOf);
      assert (s - {y}) + {y} == s;
      SumSizesAdd(s - {y}, y, sizeOf);
    }
  }

  lemma {:induction false} SumSizesMonotone(a: set<Inode>, b: set<Inode>, sizeOf: Inode -> nat)
    requires a <= b
    ensures SumSizes(a, sizeOf) <= SumSizes(b, sizeOf)
    decreases |b|
  {
    if x :| x in b && x !in a {
      assert b == (b - {x}) + {x};
      SumSizesAdd(b - {x}, x, sizeOf);
      SumSizesMonotone(a, b - {x}, sizeOf);
    } else {
      assert a == b;
    }
  }

  /** The size classic `du` prints: every inode once, however many names it has. */
  ghost function DuDistinct(fs: Fs, maxDepth: nat, path: Path, depth: nat, sizeOf: Inode -> nat): nat {
    Du(Scope(fs, maxDepth, PlainBytes), path, depth) + SumSizes(DuInodes(fs, maxDepth, path, depth), sizeOf)
  }

  // ----- one name, one directory ---------------------------------------------------------------------

  /** No listing names two subdirectories alike. */
  ghost predicate DistinctNames(fs: Fs) {
    forall p :: p in fs ==> DistinctDirs(fs[p])
  }

  ghost predicate DistinctDirs(entries: seq<Entry>) {
    forall i, j :: 0 <= i < j < |entries| && entries[i].SubDir? && entries[j].SubDir? ==>
      entries[i].name != entries[j].name
  }

  /** Then a traversal meets any directory at most once, and only below its own prefixes. */
  lemma {:induction false} DirOnce(sc: Scope, path: Path, depth: nat)
    requires sc.what.DirsAt? && DistinctNames(sc.fs)
    ensures Du(sc, path, depth) <= 1
    ensures Du(sc, path, depth) > 0 ==> path < sc.what.path
    decreases Levels(sc.maxDepth, depth), 1, 0
  {
    if path in sc.fs {
      DirOnceIn(sc, path, depth, sc.fs[path]);
    }
  }

  lemma {:induction false} DirOnceIn(sc: Scope, path: Path, depth: nat, entries: seq<Entry>)
    requires sc.what.DirsAt? && DistinctNames(sc.fs) && DistinctDirs(entries)
    ensures DuEntries(sc, path, depth, entries) <= 1
    ensures DuEntries(sc, path, depth, entries) > 0 ==>
              path < sc.what.path && exists k :: 0 <= k < |entries| && entries[k] == SubDir(sc.what.path[|path|])
    decreases Levels(sc.maxDepth, depth), 0, |entries|
  {
    if entries != [] {
      var rest := entries[1..];
      DirOnceIn(sc, path, depth, rest);
      DirOnceEntry(sc, path, depth, entries[0]);
      if DuEntries(sc, path, depth, rest) > 0 {
        var k :| 0 <= k < |rest| && rest[k] == SubDir(sc.what.path[|path|]);
        assert entries[k + 1] == SubDir(sc.what.path[|path|]);
      }
      if DuEntry(sc, path, depth, entries[0]) > 0 {
        assert entries[0] == SubDir(sc.what.path[|path|]);
      }
    }
  }

  lemma {:induction false} DirOnceEntry(sc: Scope, path: Path, depth: nat, e: Entry)
    requires sc.what.DirsAt? && DistinctNames(sc.fs)
    ensures DuEntry(sc, path, depth, e) <= 1
    ensures DuEntry(sc, path, depth, e) > 0 ==> path < sc.what.path && e == SubDir(sc.what.path[|path|])
    decreases Levels(sc.maxDepth, depth), 0, 0
  {
    if e.SubDir? {
      var child := path + [e.name];
      assert child[|path|] == e.name;
      if depth < sc.maxDepth {
        DirOnce(sc, child, depth + 1);
        if child < sc.what.path {
          assert sc.what.path[|path|] == child[|path|];
        }
      }
    }
  }
}
