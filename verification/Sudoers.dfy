/** Expanding sudoers: files and directories include each other, possibly in circles. */
module SudoersGraph {
  type Path = string
  type Spec = string

  /** A parsed sudoers text. */
  datatype Doc = Doc(specs: seq<Spec>, includes: seq<Path>, includedirs: seq<Path>, aliases: nat)

  /** The readable files, parsed, and the directories with the files sudo would read from them. */
  datatype Source = Source(files: map<Path, Doc>, dirs: map<Path, seq<Path>>)

  datatype Node = FileNode(path: Path) | DirNode(path: Path)

  // ----- what can be reached ---------------------------------------------------------------------------

  ghost function Mentions(doc: Doc): set<Node> {
    (set p | p in doc.includes :: FileNode(p)) + (set p | p in doc.includedirs :: DirNode(p))
  }

  function Listing(src: Source, dir: Path): seq<Path> {
    if dir in src.dirs then src.dirs[dir] else []
  }

  ghost function Files(paths: seq<Path>): set<Node> {
    set p | p in paths :: FileNode(p)
  }

  /** What a file or directory leads to. */
  ghost function Next(src: Source, n: Node): set<Node> {
    match n
    case FileNode(p) => if p in src.files then Mentions(src.files[p]) else {}
    case DirNode(d) => if d in src.dirs then Files(src.dirs[d]) else {}
  }

  /** A chain of includes that starts in the main text. */
  ghost predicate Chain(main: Doc, src: Source, c: seq<Node>) {
    && c != []
    && c[0] in Mentions(main)
    && forall i :: 0 <= i < |c| - 1 ==> c[i + 1] in Next(src, c[i])
  }

  ghost predicate Reachable(main: Doc, src: Source, n: Node) {
    exists c :: Chain(main, src, c) && c[|c| - 1] == n
  }

  lemma RootReachable(main: Doc, src: Source, n: Node)
    requires n in Mentions(main)
    ensures Reachable(main, src, n)
  {
    assert Chain(main, src, [n]);
  }

  lemma StepReachable(main: Doc, src: Source, n: Node, m: Node)
    requires Reachable(main, src, n) && m in Next(src, n)
    ensures Reachable(main, src, m)
  {
    var c :| Chain(main, src, c) && c[|c| - 1] == n;
    var c' := c + [m];
    assert c'[0] == c[0];
    assert Chain(main, src, c');
    assert c'[|c'| - 1] == m;
  }

  /** A set that holds the starting points and is closed under includes holds everything reachable. */
  lemma {:induction false} ClosedHoldsChain(main: Doc, src: Source, closed: set<Node>, c: seq<Node>)
    requires Closed(main, src, closed)
    requires Chain(main, src, c)
    ensures c[|c| - 1] in closed
  {
    if |c| > 1 {
      var front := c[..|c| - 1];
      assert Chain(main, src, front);
      ClosedHoldsChain(main, src, closed, front);
      assert c[|c| - 2 + 1] in Next(src, c[|c| - 2]);
    }
  }

  /** Everything that can ever be mentioned. */
  ghost function Universe(main: Doc, src: Source): set<Node> {
    Mentions(main)
    + (set p, n | p in src.files && n in Mentions(src.files[p]) :: n)
    + (set d, n | d in src.dirs && n in Files(src.dirs[d]) :: n)
  }

  lemma NextInUniverse(main: Doc, src: Source, n: Node)
    ensures Next(src, n) <= Universe(main, src)
  {
  }

  ghost predicate Closed(main: Doc, src: Source, all: set<Node>) {
    Mentions(main) <= all && forall n :: n in all ==> Next(src, n) <= all
  }

  /** Everything reachable, as a set. */
  lemma Closure(main: Doc, src: Source) returns (all: set<Node>)
    ensures Closed(main, src, all)
    ensures forall n :: n in all <==> Reachable(main, src, n)
  {
    all := set n | n in Universe(main, src) && Reachable(main, src, n);
    forall n | n in Mentions(main) ensures n in all {
      RootReachable(main, src, n);
    }
    forall n, m | n in all && m in Next(src, n) ensures m in all {
      NextInUniverse(main, src, n);
      StepReachable(main, src, n, m);
    }
    forall n | Reachable(main, src, n) ensures n in all {
      var c :| Chain(main, src, c) && c[|c| - 1] == n;
      ClosedHoldsChain(main, src, all, c);
    }
  }

  // ----- exploring it ----------------------------------------------------------------------------------

  /**
   Some nodes are seen, some are due, all of them in `all`; whatever else can come up leads through one that is due.
   */
  ghost predicate Explored(main: Doc, src: Source, all: set<Node>, seen: set<Node>, due: set<Node>) {
    && seen + due <= all
    && Mentions(main) <= seen + due
    && forall n :: n in seen ==> Next(src, n) <= seen + due
  }

  /** A node that is due is seen for the first time: what it leads to is due now. */
  lemma Visit(main: Doc, src: Source, all: set<Node>, seen: set<Node>, due: set<Node>, n: Node, rest: set<Node>)
    requires Closed(main, src, all)
    requires Explored(main, src, all, seen, due) && n in due && due - {n} <= rest <= due
    ensures Explored(main, src, all, seen + {n}, rest + Next(src, n))
  {
  }

  /** A node that was seen before is passed over. */
  lemma Skip(main: Doc, src: Source, all: set<Node>, seen: set<Node>, due: set<Node>, n: Node, rest: set<Node>)
    requires Explored(main, src, all, seen, due) && n in seen && due - {n} <= rest <= due
    ensures Explored(main, src, all, seen, rest)
  {
  }

  /** With nothing due, everything reachable was seen. */
  lemma Exhausted(main: Doc, src: Source, all: set<Node>, seen: set<Node>)
    requires Explored(main, src, all, seen, {}) && forall n :: n in all <==> Reachable(main, src, n)
    ensures seen == all
  {
    assert seen + {} == seen;
    forall n | n in all ensures n in seen {
      var c :| Chain(main, src, c) && c[|c| - 1] == n;
      ClosedHoldsChain(main, src, seen, c);
    }
  }

  // ----- the merged document ---------------------------------------------------------------------------

  function Merge(into: Doc, from: Doc): Doc {
    Doc(into.specs + from.specs, into.includes + from.includes, into.includedirs + from.includedirs,
        into.aliases + from.aliases)
  }

  /** The included files in the order they were read, the latest last. */
  datatype Log = Blank | Then(before: Log, path: Path)

  ghost function Paths(log: Log): set<Path> {
    if log.Blank? then {} else Paths(log.before) + {log.path}
  }

  /** No file was read twice. */
  ghost predicate Once(log: Log) {
    log.Then? ==> log.path !in Paths(log.before) && Once(log.before)
  }

  /** The main text followed by the files read; its own includes are taken out before they are followed. */
  ghost function MergeAll(main: Doc, src: Source, log: Log): Doc {
    match log
    case Blank => Doc(main.specs, [], [], main.aliases)
    case Then(before, p) =>
      var m := MergeAll(main, src, before);
      if p !in src.files then m
      else
        var f := src.files[p];
        Doc(m.specs + f.specs, m.includes + f.includes, m.includedirs + f.includedirs, m.aliases + f.aliases)
  }

  ghost function AliasSum(src: Source, log: Log): nat {
    match log
    case Blank => 0
    case Then(before, p) => AliasSum(src, before) + if p in src.files then src.files[p].aliases else 0
  }

  ghost function SpecBag(src: Source, log: Log): multiset<Spec> {
    match log
    case Blank => multiset{}
    case Then(before, p) => SpecBag(src, before) + if p in src.files then multiset(src.files[p].specs) else multiset{}
  }

  /**
   Nothing is lost and nothing is doubled: rules and aliases are those of the main text plus those of the files read.
   */
  lemma {:induction false} MergeConserves(main: Doc, src: Source, log: Log)
    ensures MergeAll(main, src, log).aliases == main.aliases + AliasSum(src, log)
    ensures multiset(MergeAll(main, src, log).specs) == multiset(main.specs) + SpecBag(src, log)
  {
    if log.Then? {
      MergeConserves(main, src, log.before);
    }
  }

  /** `log` without one of its paths. */
  ghost function Without(log: Log, p: Path): Log {
    match log
    case Blank => Blank
    case Then(before, q) => if q == p then before else Then(Without(before, p), q)
  }

  lemma {:induction false} TakeOut(log: Log, p: Path)
    requires Once(log) && p in Paths(log)
    ensures Once(Without(log, p)) && Paths(Without(log, p)) == Paths(log) - {p}
  {
    if log.path != p {
      TakeOut(log.before, p);
    }
  }

  lemma {:induction false} TakeOutAliases(src: Source, log: Log, p: Path)
    requires p in Paths(log)
    ensures AliasSum(src, log) == AliasSum(src, Without(log, p)) + if p in src.files then src.files[p].aliases else 0
  {
    if log.path != p {
      TakeOutAliases(src, log.before, p);
    }
  }

  lemma {:induction false} TakeOutSpecs(src: Source, log: Log, p: Path)
    requires p in Paths(log)
    ensures SpecBag(src, log) == SpecBag(src, Without(log, p))
              + if p in src.files then multiset(src.files[p].specs) else multiset{}
  {
    if log.path != p {
      TakeOutSpecs(src, log.before, p);
    }
  }

  /** The sums depend on which files were read, not on the order. */
  lemma {:induction false} OrderIsIrrelevant(src: Source, a: Log, b: Log)
    requires Once(a) && Once(b) && Paths(a) == Paths(b)
    ensures AliasSum(src, a) == AliasSum(src, b) && SpecBag(src, a) == SpecBag(src, b)
  {
    if a.Blank? {
      assert b.Blank?;
    } else {
      assert a.path in Paths(a);
      TakeOut(b, a.path);
      TakeOutAliases(src, b, a.path);
      TakeOutSpecs(src, b, a.path);
      assert Paths(a.before) == Paths(a) - {a.path};
      OrderIsIrrelevant(src, a.before, Without(b, a.path));
    }
  }

  /** A reading of every reachable file, each once, in some order. */
  ghost predicate ReadsAll(main: Doc, src: Source, log: Log) {
    Once(log) && forall p :: p in Paths(log) <==> Reachable(main, src, FileNode(p))
  }

  lemma AnyReadingSums(main: Doc, src: Source, log: Log)
    requires ReadsAll(main, src, log)
    ensures forall other :: ReadsAll(main, src, other) ==>
              && MergeAll(main, src, log).aliases == main.aliases + AliasSum(src, other)
              && multiset(MergeAll(main, src, log).specs) == multiset(main.specs) + SpecBag(src, other)
  {
    MergeConserves(main, src, log);
    forall other | ReadsAll(main, src, other)
      ensures AliasSum(src, log) == AliasSum(src, other) && SpecBag(src, log) == SpecBag(src, other)
    {
      assert Paths(log) == Paths(other);
      OrderIsIrrelevant(src, log, other);
    }
  }

  // ----- the worklist ----------------------------------------------------------------------------------

  /** The document holds the main text and the files seen, each once, in the order they were read. */
  ghost predicate Written(main: Doc, src: Source, merged: Doc, seen: set<Node>, log: Log) {
    && merged == MergeAll(main, src, log)
    && Once(log)
    && forall p :: p in Paths(log) <==> FileNode(p) in seen
  }

  lemma WriteFile(main: Doc, src: Source, merged: Doc, seen: set<Node>, log: Log, p: Path)
    requires Written(main, src, merged, seen, log) && FileNode(p) !in seen
    ensures Written(main, src, if p in src.files then Merge(merged, src.files[p]) else merged,
                    seen + {FileNode(p)}, Then(log, p))
  {
    var seen', log' := seen + {FileNode(p)}, Then(log, p);
    assert forall q :: q in Paths(log') <==> q in Paths(log) || q == p;
  }

  lemma WriteDir(main: Doc, src: Source, merged: Doc, seen: set<Node>, log: Log, d: Path)
    requires Written(main, src, merged, seen, log)
    ensures Written(main, src, merged, seen + {DirNode(d)}, log)
  {
  }

  /** What the two stacks and the rest of a directory's listing still hold. */
  ghost function Due(includes: seq<Path>, dirs: seq<Path>, listing: seq<Path>): set<Node> {
    Files(includes) + (set p | p in dirs :: DirNode(p)) + Files(listing)
  }

  lemma DueListing(includes: seq<Path>, dirs: seq<Path>, p: Path, listing: seq<Path>)
    ensures FileNode(p) in Due(includes, dirs, [p] + listing)
    ensures Due(includes, dirs, [p] + listing) == Due(includes, dirs, listing) + {FileNode(p)}
  {
  }

  lemma DueFile(includes: seq<Path>, dirs: seq<Path>, listing: seq<Path>, doc: Doc)
    ensures Due(includes + doc.includes, dirs + doc.includedirs, listing)
            == Due(includes, dirs, listing) + Mentions(doc)
  {
  }

  lemma DueInclude(includes: seq<Path>, dirs: seq<Path>)
    requires includes != []
    ensures Due(includes, dirs, []) == Due(includes[..|includes| - 1], dirs, [includes[|includes| - 1]])
  {
    assert includes == includes[..|includes| - 1] + [includes[|includes| - 1]];
  }

  lemma DueDir(includes: seq<Path>, dirs: seq<Path>, listing: seq<Path>)
    requires dirs != []
    ensures Due(includes, dirs, []) == Due(includes, dirs[..|dirs| - 1], []) + {DirNode(dirs[|dirs| - 1])}
    ensures Due(includes, dirs[..|dirs| - 1], listing) == Due(includes, dirs[..|dirs| - 1], []) + Files(listing)
  {
    assert dirs == dirs[..|dirs| - 1] + [dirs[|dirs| - 1]];
  }

  /** The variables of the loop. */
  datatype State = State(merged: Doc, includes: seq<Path>, dirs: seq<Path>, seen: set<Node>)

  /** The state of the expansion; `listing` holds the files still to come of the directory being read. */
  ghost predicate Expanding(main: Doc, src: Source, all: set<Node>, s: State, log: Log, listing: seq<Path>) {
    && Written(main, src, s.merged, s.seen, log)
    && Explored(main, src, all, s.seen, Due(s.includes, s.dirs, listing))
  }
}

module Sudoers {
  import opened SudoersGraph

  /** Reads one file, unless it was seen before. */
  method ReadFile(ghost main: Doc, src: Source, ghost all: set<Node>, s: State, ghost log: Log, p: Path,
                  ghost listing: seq<Path>)
    returns (t: State, ghost log': Log)
    requires Closed(main, src, all) && Expanding(main, src, all, s, log, [p] + listing)
    ensures Expanding(main, src, all, t, log', listing)
    ensures FileNode(p) in all
    ensures if FileNode(p) in s.seen then t == s else t.seen == s.seen + {FileNode(p)}
  {
    ghost var due := Due(s.includes, s.dirs, listing);
    DueListing(s.includes, s.dirs, p, listing);
    if FileNode(p) in s.seen {
      Skip(main, src, all, s.seen, due + {FileNode(p)}, FileNode(p), due);
      return s, log;
    }
    Visit(main, src, all, s.seen, due + {FileNode(p)}, FileNode(p), due);
    WriteFile(main, src, s.merged, s.seen, log, p);
    log' := Then(log, p);
    if p in src.files {
      var doc := src.files[p];
      DueFile(s.includes, s.dirs, listing, doc);
      t := State(Merge(s.merged, doc), s.includes + doc.includes, s.dirs + doc.includedirs, s.seen + {FileNode(p)});
    } else {
      assert due + Next(src, FileNode(p)) == due;
      t := s.(seen := s.seen + {FileNode(p)});
    }
  }

  /** Reads the files of one directory in order. */
  method ReadListing(ghost main: Doc, src: Source, ghost all: set<Node>, s: State, ghost log: Log, listing: seq<Path>)
    returns (t: State, ghost log': Log)
    requires Closed(main, src, all) && Expanding(main, src, all, s, log, listing)
    ensures Expanding(main, src, all, t, log', [])
    ensures s.seen <= t.seen
  {
    t, log' := s, log;
    var i := 0;
    while i < |listing|
      invariant 0 <= i <= |listing|
      invariant Expanding(main, src, all, t, log', listing[i..])
      invariant s.seen <= t.seen
    {
      assert listing[i..] == [listing[i]] + listing[i + 1..];
      t, log' := ReadFile(main, src, all, t, log', listing[i], listing[i + 1..]);
      i := i + 1;
    }
    assert listing[|listing|..] == [];
  }

  /** Takes the last pending include. */
  method ReadInclude(ghost main: Doc, src: Source, ghost all: set<Node>, s: State, ghost log: Log)
    returns (t: State, ghost log': Log)
    requires s.includes != [] && Closed(main, src, all) && Expanding(main, src, all, s, log, [])
    ensures Expanding(main, src, all, t, log', [])
    ensures var n := FileNode(s.includes[|s.includes| - 1]);
            if n in s.seen then t == s.(includes := s.includes[..|s.includes| - 1])
            else n in all && t.seen == s.seen + {n}
  {
    var p := s.includes[|s.includes| - 1];
    DueInclude(s.includes, s.dirs);
    assert [p] + [] == [p];
    t, log' := ReadFile(main, src, all, s.(includes := s.includes[..|s.includes| - 1]), log, p, []);
  }

  /** Takes the last pending directory and reads its files, unless it was seen before. */
  method ReadDir(ghost main: Doc, src: Source, ghost all: set<Node>, s: State, ghost log: Log)
    returns (t: State, ghost log': Log)
    requires s.dirs != [] && Closed(main, src, all) && Expanding(main, src, all, s, log, [])
    ensures Expanding(main, src, all, t, log', [])
    ensures var d := DirNode(s.dirs[|s.dirs| - 1]);
            if d in s.seen then t == s.(dirs := s.dirs[..|s.dirs| - 1])
            else d in all && s.seen + {d} <= t.seen
  {
    var rest, d := s.dirs[..|s.dirs| - 1], s.dirs[|s.dirs| - 1];
    ghost var due := Due(s.includes, rest, []);
    DueDir(s.includes, s.dirs, Listing(src, d));
    assert Explored(main, src, all, s.seen, due + {DirNode(d)});
    if DirNode(d) in s.seen {
      Skip(main, src, all, s.seen, due + {DirNode(d)}, DirNode(d), due);
      return s.(dirs := rest), log;
    }
    Visit(main, src, all, s.seen, due + {DirNode(d)}, DirNode(d), due);
    WriteDir(main, src, s.merged, s.seen, log, d);
    t, log' := ReadListing(main, src, all, s.(dirs := rest, seen := s.seen + {DirNode(d)}), log, Listing(src, d));
  }

  /** Empties both stacks. */
  method Drain(ghost main: Doc, src: Source, ghost all: set<Node>, s: State)
    returns (t: State, ghost log: Log)
    requires Closed(main, src, all) && Expanding(main, src, all, s, Blank, [])
    ensures t.includes == [] && t.dirs == [] && Expanding(main, src, all, t, log, [])
  {
    t, log := s, Blank;
    while t.includes != [] || t.dirs != []
      invariant Expanding(main, src, all, t, log, [])
      decreases all - t.seen, |t.includes| + |t.dirs|
    {
      if t.includes != [] {
        t, log := ReadInclude(main, src, all, t, log);
      } else {
        t, log := ReadDir(main, src, all, t, log);
      }
    }
  }

  /**
   Expands the main text. The result is the main text followed by every reachable file, each once; its rules and
   aliases are theirs, summed in any order. It ends on every file and directory map, circles included.
   */
  method ExpandSudoers(main: Doc, src: Source) returns (merged: Doc)
    ensures exists log :: ReadsAll(main, src, log) && merged == MergeAll(main, src, log)
    ensures forall log :: ReadsAll(main, src, log) ==>
              && merged.aliases == main.aliases + AliasSum(src, log)
              && multiset(merged.specs) == multiset(main.specs) + SpecBag(src, log)
  {
    var s := State(main.(includes := [], includedirs := []), main.includes, main.includedirs, {});
    ghost var all := Closure(main, src);
    assert Due(s.includes, s.dirs, []) == Mentions(main);
    ghost var log;
    s, log := Drain(main, src, all, s);
    assert Due([], [], []) == {};
    Exhausted(main, src, all, s.seen);
    assert ReadsAll(main, src, log);
    AnyReadingSums(main, src, log);
    merged := s.merged;
  }
}
