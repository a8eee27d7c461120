/**
 The effective sshd configuration: the first value of a keyword wins, `Include` is expanded in place, and `Match`
 ends the global part of the file it stands in. The collector visits each file once and stops eight levels down;
 the reference inlines every include as text.
 */
module Sshd {
  type Path = string

  const MAX_INCLUDE_DEPTH: nat := 8

  /** A configuration line. An `Include` names the files its pattern expands to, in order. */
  datatype Line = Blank | Match | Include(paths: seq<Path>) | Setting(key: string, value: string)

  /** Readable files. */
  type Files = map<Path, seq<Line>>

  /** Keyword to its value and the file it came from. */
  type Values = map<string, (string, Path)>

  function Learn(values: Values, key: string, value: string, source: Path): Values {
    if key in values then values else values[key := (value, source)]
  }

  // ----- the collector -------------------------------------------------------------------------------

  datatype State = State(values: Values, seen: set<Path>)

  ghost function Levels(depth: nat): nat {
    if depth <= 8 then 8 - depth + 1 else 0
  }

  ghost function Collected(files: Files, path: Path, depth: nat, st: State): State
    decreases Levels(depth), 1, 0
  {
    if depth > 8 || path in st.seen then st
    else
      var st' := st.(seen := st.seen + {path});
      if path in files then Applied(files, files[path], path, depth, st') else st'
  }

  ghost function Applied(files: Files, lines: seq<Line>, source: Path, depth: nat, st: State): State
    requires depth <= 8
    decreases Levels(depth), 0, |lines|
  {
    if lines == [] then st else
      match lines[0]
      case Match => st
      case Blank => Applied(files, lines[1..], source, depth, st)
      case Include(paths) => Applied(files, lines[1..], source, depth, CollectedAll(files, paths, depth + 1, st))
      case Setting(key, value) =>
        Applied(files, lines[1..], source, depth, st.(values := Learn(st.values, key, value, source)))
  }

  ghost function CollectedAll(files: Files, paths: seq<Path>, depth: nat, st: State): State
    decreases Levels(depth), 2, |paths|
  {
    if paths == [] then st else CollectedAll(files, paths[1..], depth, Collected(files, paths[0], depth, st))
  }

  /** The readable files that were visited have been read once each. */
  ghost predicate OnceEach(files: Files, seen: set<Path>, taken: seq<Path>) {
    multiset(taken) == multiset(seen * files.Keys)
  }

  lemma OneMoreRead(files: Files, seen: set<Path>, taken: seq<Path>, path: Path)
    requires OnceEach(files, seen, taken) && path !in seen
    ensures OnceEach(files, seen + {path}, if path in files then taken + [path] else taken)
  {
    var before, after := seen * files.Keys, (seen + {path}) * files.Keys;
    assert after == if path in files then before + {path} else before;
  }

  class Collector {
    const files: Files
    var values: Values
    var seen: set<Path>
    ghost var taken: seq<Path> // the files read so far, in order

    ghost predicate Valid()
      reads this
    {
      OnceEach(files, seen, taken)
    }

    constructor (files: Files)
      ensures this.files == files && Now() == State(map[], {}) && Valid()
    {
      this.files, values, seen, taken := files, map[], {}, [];
    }

    ghost function Now(): State
      reads this
    {
      State(values, seen)
    }

    /** Visits a file unless it lies too deep or was visited before. */
    method Collect(path: Path, depth: nat)
      requires Valid()
      modifies this
      ensures Valid() && old(taken) <= taken
      ensures Now() == Collected(files, path, depth, old(Now()))
      decreases Levels(depth), 1
    {
      hide OnceEach;
      if depth > MAX_INCLUDE_DEPTH || path in seen {
        return;
      }
      OneMoreRead(files, seen, taken, path);
      seen := seen + {path};
      if path in files {
        taken := taken + [path];
        ApplyText(files[path], path, depth);
      }
    }

    /** Takes over the lines of one file. */
    method ApplyText(lines: seq<Line>, source: Path, depth: nat)
      requires Valid() && depth <= 8
      modifies this
      ensures Valid() && old(taken) <= taken
      ensures Now() == Applied(files, lines, source, depth, old(Now()))
      decreases Levels(depth), 0
    {
      hide OnceEach;
      var i := 0;
      while i < |lines|
        invariant Valid() && old(taken) <= taken && 0 <= i <= |lines|
        invariant Applied(files, lines[i..], source, depth, Now()) == Applied(files, lines, source, depth, old(Now()))
      {
        assert lines[i..][0] == lines[i] && lines[i..][1..] == lines[i + 1..];
        match lines[i] {
          case Blank =>
          case Match => return;
          case Include(paths) =>
            ghost var before := Now();
            var k := 0;
            while k < |paths|
              invariant Valid() && old(taken) <= taken && 0 <= k <= |paths|
              invariant CollectedAll(files, paths[k..], depth + 1, Now())
                        == CollectedAll(files, paths, depth + 1, before)
            {
              assert paths[k..][0] == paths[k] && paths[k..][1..] == paths[k + 1..];
              Collect(paths[k], depth + 1);
              k := k + 1;
            }
          case Setting(key, value) =>
            values := Learn(values, key, value, source);
        }
        i := i + 1;
      }
    }
  }

  // ----- the settings met on the way ------------------------------------------------------------------

  datatype Def = Def(key: string, value: string, source: Path)

  datatype Visit = Visit(defs: seq<Def>, seen: set<Path>)

  /** The settings of a file in the order of the visit, which passes by what was seen and what lies too deep. */
  ghost function Visited(files: Files, path: Path, depth: nat, seen: set<Path>): Visit
    decreases Levels(depth), 1, 0
  {
    if depth > 8 || path in seen then Visit([], seen)
    else if path in files then VisitedLines(files, files[path], path, depth, seen + {path})
    else Visit([], seen + {path})
  }

  ghost function VisitedLines(files: Files, lines: seq<Line>, source: Path, depth: nat, seen: set<Path>): Visit
    requires depth <= 8
    decreases Levels(depth), 0, |lines|
  {
    if lines == [] then Visit([], seen) else
      match lines[0]
      case Match => Visit([], seen)
      case Blank => VisitedLines(files, lines[1..], source, depth, seen)
      case Include(paths) =>
        var inner := VisitedAll(files, paths, depth + 1, seen);
        var rest := VisitedLines(files, lines[1..], source, depth, inner.seen);
        Visit(inner.defs + rest.defs, rest.seen)
      case Setting(key, value) =>
        var rest := VisitedLines(files, lines[1..], source, depth, seen);
        Visit([Def(key, value, source)] + rest.defs, rest.seen)
  }

  ghost function VisitedAll(files: Files, paths: seq<Path>, depth: nat, seen: set<Path>): Visit
    decreases Levels(depth), 2, |paths|
  {
    if paths == [] then Visit([], seen)
    else
      var first := Visited(files, paths[0], depth, seen);
      var rest := VisitedAll(files, paths[1..], depth, first.seen);
      Visit(first.defs + rest.defs, rest.seen)
  }

  ghost function After(st: State, v: Visit): State {
    State(Merge(st.values, v.defs), v.seen)
  }

  lemma {:induction false} CollectedVisits(files: Files, path: Path, depth: nat, st: State)
    ensures Collected(files, path, depth, st) == After(st, Visited(files, path, depth, st.seen))
    decreases Levels(depth), 1, 0
  {
    if depth <= 8 && path !in st.seen && path in files {
      AppliedVisits(files, files[path], path, depth, st.(seen := st.seen + {path}));
    }
  }

  lemma {:induction false} AppliedVisits(files: Files, lines: seq<Line>, source: Path, depth: nat, st: State)
    requires depth <= 8
    ensures Applied(files, lines, source, depth, st) == After(st, VisitedLines(files, lines, source, depth, st.seen))
    decreases Levels(depth), 0, |lines|
  {
    if lines != [] {
      match lines[0]
      case Match =>
      case Blank => AppliedVisits(files, lines[1..], source, depth, st);
      case Include(paths) =>
        var st1 := CollectedAll(files, paths, depth + 1, st);
        var inner := VisitedAll(files, paths, depth + 1, st.seen);
        CollectedAllVisits(files, paths, depth + 1, st);
        AppliedVisits(files, lines[1..], source, depth, st1);
        MergeConcat(st.values, inner.defs, VisitedLines(files, lines[1..], source, depth, inner.seen).defs);
      case Setting(key, value) =>
        var d := Def(key, value, source);
        AppliedVisits(files, lines[1..], source, depth, st.(values := Learn(st.values, key, value, source)));
        assert ([d] + VisitedLines(files, lines[1..], source, depth, st.seen).defs)[1..]
            == VisitedLines(files, lines[1..], source, depth, st.seen).defs;
    }
  }

  lemma {:induction false} CollectedAllVisits(files: Files, paths: seq<Path>, depth: nat, st: State)
    ensures CollectedAll(files, paths, depth, st) == After(st, VisitedAll(files, paths, depth, st.seen))
    decreases Levels(depth), 2, |paths|
  {
    if paths != [] {
      var first := Visited(files, paths[0], depth, st.seen);
      CollectedVisits(files, paths[0], depth, st);
      CollectedAllVisits(files, paths[1..], depth, Collected(files, paths[0], depth, st));
      MergeConcat(st.values, first.defs, VisitedAll(files, paths[1..], depth, first.seen).defs);
    }
  }

  // ----- the reference: textual inlining -------------------------------------------------------------

  /** Every include chain from `path` has at most `n` links. */
  ghost predicate Shallow(files: Files, path: Path, n: nat)
    decreases n, 1, 0
  {
    path in files ==> ShallowLines(files, files[path], n)
  }

  ghost predicate ShallowLines(files: Files, lines: seq<Line>, n: nat)
    decreases n, 0, |lines|
  {
    lines == [] || lines[0] == Match ||
    ((lines[0].Include? ==>
        lines[0].paths == [] || (n >= 1 && forall p :: p in lines[0].paths ==> Shallow(files, p, n - 1)))
     && ShallowLines(files, lines[1..], n))
  }

  /** The settings of a file with all its includes pasted in. */
  ghost function Inline(files: Files, path: Path, n: nat): seq<Def>
    requires Shallow(files, path, n)
    decreases n, 2, 0
  {
    if path in files then InlineLines(files, files[path], path, n) else []
  }

  ghost function InlineLines(files: Files, lines: seq<Line>, source: Path, n: nat): seq<Def>
    requires ShallowLines(files, lines, n)
    decreases n, 1, |lines|
  {
    if lines == [] then [] else
      match lines[0]
      case Match => []
      case Blank => InlineLines(files, lines[1..], source, n)
      case Include(paths) =>
        (if paths == [] then [] else InlineAll(files, paths, n - 1)) + InlineLines(files, lines[1..], source, n)
      case Setting(key, value) => [Def(key, value, source)] + InlineLines(files, lines[1..], source, n)
  }

  ghost function InlineAll(files: Files, paths: seq<Path>, n: nat): seq<Def>
    requires forall p :: p in paths ==> Shallow(files, p, n)
    decreases n, 3, |paths|
  {
    if paths == [] then [] else Inline(files, paths[0], n) + InlineAll(files, paths[1..], n)
  }

  /** First value wins, on top of what is already known. */
  ghost function Merge(values: Values, defs: seq<Def>): Values
    decreases |defs|
  {
    if defs == [] then values
    else Merge(Learn(values, defs[0].key, defs[0].value, defs[0].source), defs[1..])
  }

  /** `values` has exactly the keywords of `defs`, each with the value and the file of its first definition. */
  ghost predicate FirstWins(defs: seq<Def>, values: Values) {
    && (forall i :: 0 <= i < |defs| && (forall j :: 0 <= j < i ==> defs[j].key != defs[i].key) ==>
          defs[i].key in values && values[defs[i].key] == (defs[i].value, defs[i].source))
    && (forall key :: key in values ==> exists i :: 0 <= i < |defs| && defs[i].key == key)
  }

  ghost function KeysOf(defs: seq<Def>): set<string> {
    set d | d in defs :: d.key
  }

  // ----- the collector computes the inlined configuration ----------------------------------------------

  lemma {:induction false} MergeConcat(values: Values, a: seq<Def>, b: seq<Def>)
    ensures Merge(values, a + b) == Merge(Merge(values, a), b)
    decreases |a|
  {
    if a == [] {
      assert a + b == b;
    } else {
      assert (a + b)[1..] == a[1..] + b;
      MergeConcat(Learn(values, a[0].key, a[0].value, a[0].source), a[1..], b);
    }
  }

  lemma {:induction false} MergeKeys(values: Values, defs: seq<Def>)
    ensures Merge(values, defs).Keys == values.Keys + KeysOf(defs)
    ensures KeysOf(defs) <= values.Keys ==> Merge(values, defs) == values
    decreases |defs|
  {
    if defs != [] {
      assert defs == [defs[0]] + defs[1..];
      assert KeysOf(defs) == {defs[0].key} + KeysOf(defs[1..]);
      MergeKeys(Learn(values, defs[0].key, defs[0].value, defs[0].source), defs[1..]);
    }
  }

  lemma {:induction false} MergeKeeps(values: Values, defs: seq<Def>, key: string)
    requires key in values
    ensures key in Merge(values, defs) && Merge(values, defs)[key] == values[key]
    decreases |defs|
  {
    if defs != [] {
      MergeKeeps(Learn(values, defs[0].key, defs[0].value, defs[0].source), defs[1..], key);
    }
  }

  /** The first definition of a keyword that is not known yet decides. */
  lemma {:induction false} MergeDecides(values: Values, defs: seq<Def>, i: nat)
    requires i < |defs| && defs[i].key !in values && forall j :: 0 <= j < i ==> defs[j].key != defs[i].key
    ensures defs[i].key in Merge(values, defs)
    ensures Merge(values, defs)[defs[i].key] == (defs[i].value, defs[i].source)
    decreases i
  {
    var values1 := Learn(values, defs[0].key, defs[0].value, defs[0].source);
    if i == 0 {
      MergeKeeps(values1, defs[1..], defs[0].key);
    } else {
      assert defs[1..][i - 1] == defs[i] && forall j :: 0 <= j < i - 1 ==> defs[1..][j] == defs[j + 1];
      MergeDecides(values1, defs[1..], i - 1);
    }
  }

  lemma MergeFirstWins(defs: seq<Def>)
    ensures FirstWins(defs, Merge(map[], defs))
  {
    var values := Merge(map[], defs);
    forall i | 0 <= i < |defs| && (forall j :: 0 <= j < i ==> defs[j].key != defs[i].key)
      ensures defs[i].key in values && values[defs[i].key] == (defs[i].value, defs[i].source)
    {
      MergeDecides(map[], defs, i);
    }
    MergeKeys(map[], defs);
    forall key | key in values ensures exists i :: 0 <= i < |defs| && defs[i].key == key {
      assert key in KeysOf(defs);
    }
  }

  lemma {:induction false} ShallowMore(files: Files, path: Path, n: nat, m: nat)
    requires Shallow(files, path, n) && n <= m
    ensures Shallow(files, path, m) && Inline(files, path, m) == Inline(files, path, n)
    decreases n, 1, 0
  {
    if path in files {
      ShallowMoreLines(files, files[path], path, n, m);
    }
  }

  lemma {:induction false} ShallowMoreLines(files: Files, lines: seq<Line>, source: Path, n: nat, m: nat)
    requires ShallowLines(files, lines, n) && n <= m
    ensures ShallowLines(files, lines, m)
    ensures InlineLines(files, lines, source, m) == InlineLines(files, lines, source, n)
    decreases n, 0, |lines|
  {
    if lines != [] && lines[0] != Match {
      ShallowMoreLines(files, lines[1..], source, n, m);
      if lines[0].Include? && lines[0].paths != [] {
        forall p | p in lines[0].paths ensures Shallow(files, p, m - 1) {
          ShallowMore(files, p, n - 1, m - 1);
        }
        ShallowMoreAll(files, lines[0].paths, n - 1, m - 1);
      }
    }
  }

  lemma {:induction false} ShallowMoreAll(files: Files, paths: seq<Path>, n: nat, m: nat)
    requires n <= m && (forall p :: p in paths ==> Shallow(files, p, n))
    requires forall p :: p in paths ==> Shallow(files, p, m)
    ensures InlineAll(files, paths, m) == InlineAll(files, paths, n)
    decreases n, 2, |paths|
  {
    if paths != [] {
      ShallowMore(files, paths[0], n, m);
      ShallowMoreAll(files, paths[1..], n, m);
    }
  }

  /** Every file visited and left again has had all its keywords taken over. */
  ghost predicate Covered(files: Files, st: State, open: set<Path>) {
    forall p, n: nat :: p in st.seen && p !in open && Shallow(files, p, n) ==>
      KeysOf(Inline(files, p, n)) <= st.values.Keys
  }

  /** The files being read lie on longer include chains than anything that is still to come. */
  ghost predicate Above(files: Files, open: set<Path>, n: nat) {
    forall q :: q in open ==> !Shallow(files, q, n)
  }

  /** A collection step: it merges `defs`, forgets nothing, and leaves all finished files covered. */
  ghost predicate Merged(files: Files, open: set<Path>, st: State, defs: seq<Def>, st': State) {
    st'.values == Merge(st.values, defs) && st.seen <= st'.seen && Covered(files, st', open)
  }

  lemma MergedThen(files: Files, open: set<Path>, st: State, a: seq<Def>, st1: State, b: seq<Def>, st2: State)
    requires Merged(files, open, st, a, st1) && Merged(files, open, st1, b, st2)
    ensures Merged(files, open, st, a + b, st2)
  {
    MergeConcat(st.values, a, b);
  }

  lemma LearnMerges(files: Files, open: set<Path>, st: State, d: Def)
    requires Covered(files, st, open)
    ensures Merged(files, open, st, [d], st.(values := Learn(st.values, d.key, d.value, d.source)))
  {
    assert [d][1..] == [];
  }

  lemma AboveLess(files: Files, open: set<Path>, n: nat, m: nat)
    requires Above(files, open, n) && m <= n
    ensures Above(files, open, m)
  {
    forall q | q in open ensures !Shallow(files, q, m) {
      if Shallow(files, q, m) { ShallowMore(files, q, m, n); }
    }
  }

  lemma {:induction false} LeastChain(files: Files, path: Path, n: nat) returns (least: nat)
    requires Shallow(files, path, n)
    ensures least <= n && Shallow(files, path, least) && (least > 0 ==> !Shallow(files, path, least - 1))
  {
    least := n;
    while least > 0 && Shallow(files, path, least - 1)
      invariant least <= n && Shallow(files, path, least)
    {
      least := least - 1;
    }
  }

  lemma {:induction false} CollectMerges(files: Files, path: Path, depth: nat, n: nat, open: set<Path>, st: State)
    requires Shallow(files, path, n) && n + depth <= 8
    requires Above(files, open, n) && Covered(files, st, open)
    ensures Merged(files, open, st, Inline(files, path, n), Collected(files, path, depth, st))
    decreases Levels(depth), 1, 0
  {
    if path in st.seen {
      MergeKeys(st.values, Inline(files, path, n));
    } else {
      var least := LeastChain(files, path, n);
      ShallowMore(files, path, least, n);
      AboveLess(files, open, n, least);
      var st1 := st.(seen := st.seen + {path});
      var inner := open + {path};
      forall p, m: nat | p in st1.seen && p !in inner && Shallow(files, p, m)
        ensures KeysOf(Inline(files, p, m)) <= st1.values.Keys
      {
      }
      var st2 := Collected(files, path, depth, st);
      if path in files {
        if least > 0 { AboveLess(files, open, least, least - 1); }
        ApplyMerges(files, files[path], path, depth, least, inner, st1);
      }
      MergeKeys(st.values, Inline(files, path, least));
      forall p, m: nat | p in st2.seen && p !in open && Shallow(files, p, m)
        ensures KeysOf(Inline(files, p, m)) <= st2.values.Keys
      {
        if p == path {
          ShallowMore(files, path, if m < least then m else least, if m < least then least else m);
        }
      }
    }
  }

  lemma {:induction false} ApplyMerges(files: Files, lines: seq<Line>, source: Path, depth: nat, n: nat,
                                       open: set<Path>, st: State)
    requires ShallowLines(files, lines, n) && n + depth <= 8
    requires (n > 0 ==> Above(files, open, n - 1)) && Covered(files, st, open)
    ensures Merged(files, open, st, InlineLines(files, lines, source, n), Applied(files, lines, source, depth, st))
    decreases Levels(depth), 0, |lines|
  {
    if lines != [] {
      match lines[0]
      case Match =>
      case Blank => ApplyMerges(files, lines[1..], source, depth, n, open, st);
      case Include(paths) =>
        var st1 := CollectedAll(files, paths, depth + 1, st);
        var defs := if paths == [] then [] else InlineAll(files, paths, n - 1);
        if paths != [] {
          CollectAllMerges(files, paths, depth + 1, n - 1, open, st);
        }
        ApplyMerges(files, lines[1..], source, depth, n, open, st1);
        MergedThen(files, open, st, defs, st1, InlineLines(files, lines[1..], source, n),
                   Applied(files, lines, source, depth, st));
      case Setting(key, value) =>
        var d := Def(key, value, source);
        var st1 := st.(values := Learn(st.values, key, value, source));
        LearnMerges(files, open, st, d);
        ApplyMerges(files, lines[1..], source, depth, n, open, st1);
        MergedThen(files, open, st, [d], st1, InlineLines(files, lines[1..], source, n),
                   Applied(files, lines, source, depth, st));
    }
  }

  lemma {:induction false} CollectAllMerges(files: Files, paths: seq<Path>, depth: nat, n: nat, open: set<Path>,
                                            st: State)
    requires (forall p :: p in paths ==> Shallow(files, p, n)) && n + depth <= 8
    requires Above(files, open, n) && Covered(files, st, open)
    ensures Merged(files, open, st, InlineAll(files, paths, n), CollectedAll(files, paths, depth, st))
    decreases Levels(depth), 2, |paths|
  {
    if paths != [] {
      CollectMerges(files, paths[0], depth, n, open, st);
      CollectAllMerges(files, paths[1..], depth, n, open, Collected(files, paths[0], depth, st));
      MergeConcat(st.values, Inline(files, paths[0], n), InlineAll(files, paths[1..], n));
    }
  }

  /**
   For every include graph without cycles and with chains of at most eight links, visiting each file only once
   yields the same values, from the same files, as pasting every include in as often as it occurs.
   */
  lemma CollectorInlines(files: Files, main: Path, n: nat)
    requires Shallow(files, main, n) && n <= 8
    ensures FirstWins(Inline(files, main, n), Collected(files, main, 0, State(map[], {})).values)
  {
    CollectMerges(files, main, 0, n, {}, State(map[], {}));
    MergeFirstWins(Inline(files, main, n));
  }

  /**
   Reading the configuration from its main file: of all settings met on the visit the first of each keyword, and the
   same of the inlined configuration where there is one.
   */
  method EffectiveValues(files: Files, main: Path) returns (values: Values)
    ensures FirstWins(Visited(files, main, 0, {}).defs, values)
    ensures forall n: nat :: n <= 8 && Shallow(files, main, n) ==> FirstWins(Inline(files, main, n), values)
  {
    var c := new Collector(files);
    c.Collect(main, 0);
    values := c.values;
    CollectedVisits(files, main, 0, State(map[], {}));
    MergeFirstWins(Visited(files, main, 0, {}).defs);
    forall n: nat | n <= 8 && Shallow(files, main, n) ensures FirstWins(Inline(files, main, n), values) {
      CollectorInlines(files, main, n);
    }
  }
}
