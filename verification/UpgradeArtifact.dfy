/** Finding the known binaries in an unpacked artifact. */
module UpgradeArtifact {
  import opened Basics
  import opened Sorting
  import opened UpgradeInstall

  const MAX_ARTIFACT_DEPTH: nat := 3

  /** An entry of the unpacked artifact; `bin` is set when its name is that of a known binary. */
  datatype Node =
    | FileNode(bin: Option<Bin>, content: Content)
    | LinkNode(bin: Option<Bin>)
    | FolderNode(readable: bool, entries: seq<Node>)

  datatype ArtifactError = NotReadable | KnownNameIsLink | MoreThanOne(bin: Bin) | NoAgentd

  // ----- what is in reach ----------------------------------------------------------------------------

  ghost function Left(depth: nat): nat {
    if depth <= 3 then 3 - depth + 1 else 0
  }

  /** How many files named `bin` lie in reach. */
  ghost function Occurrences(entries: seq<Node>, depth: nat, bin: Bin): nat
    decreases Left(depth), |entries|, 0
  {
    if entries == [] then 0 else
      OccurrencesIn(entries[0], depth, bin) + Occurrences(entries[1..], depth, bin)
  }

  ghost function OccurrencesIn(n: Node, depth: nat, bin: Bin): nat
    decreases Left(depth), 0, 1
  {
    match n
    case FileNode(b, _) => if b == Some(bin) then 1 else 0
    case LinkNode(_) => 0
    case FolderNode(_, es) => if depth < 3 then Occurrences(es, depth + 1, bin) else 0
  }

  /** The file `s` lies in reach. */
  ghost predicate Holds(entries: seq<Node>, depth: nat, s: Staged)
    decreases Left(depth), |entries|, 0
  {
    entries != [] && (HoldsIn(entries[0], depth, s) || Holds(entries[1..], depth, s))
  }

  ghost predicate HoldsIn(n: Node, depth: nat, s: Staged)
    decreases Left(depth), 0, 1
  {
    match n
    case FileNode(b, c) => b == Some(s.bin) && c == s.content
    case LinkNode(_) => false
    case FolderNode(_, es) => depth < 3 && Holds(es, depth + 1, s)
  }

  /** A folder that cannot be read, or a link under a known name, lies in reach. */
  ghost predicate Bad(entries: seq<Node>, depth: nat)
    decreases Left(depth), |entries|, 0
  {
    entries != [] && (BadIn(entries[0], depth) || Bad(entries[1..], depth))
  }

  ghost predicate BadIn(n: Node, depth: nat)
    decreases Left(depth), 0, 1
  {
    match n
    case FileNode(_, _) => false
    case LinkNode(b) => b.Some?
    case FolderNode(readable, es) => depth < 3 && (!readable || Bad(es, depth + 1))
  }

  /** The artifact can be installed: nothing bad in reach, no known name twice, and an agentd. */
  ghost predicate Usable(entries: seq<Node>) {
    && !Bad(entries, 0)
    && (forall bin: Bin :: Occurrences(entries, 0, bin) <= 1)
    && Occurrences(entries, 0, Agentd) == 1
  }

  // ----- the worklist --------------------------------------------------------------------------------

  type Queue = seq<(Node, nat)>   // folders still to be read, with their depth

  ghost predicate Folders(queue: Queue) {
    forall k :: 0 <= k < |queue| ==> queue[k].0.FolderNode?
  }

  ghost function Owed(queue: Queue, bin: Bin): nat
    requires Folders(queue)
  {
    if queue == [] then 0 else
      var (n, depth) := queue[|queue| - 1];
      Owed(queue[..|queue| - 1], bin) + Occurrences(n.entries, depth, bin)
  }

  ghost predicate OwedFile(queue: Queue, s: Staged)
    requires Folders(queue)
  {
    queue != [] &&
    var (n, depth) := queue[|queue| - 1];
    Holds(n.entries, depth, s) || OwedFile(queue[..|queue| - 1], s)
  }

  ghost predicate OwedBad(queue: Queue)
    requires Folders(queue)
  {
    queue != [] &&
    var (n, depth) := queue[|queue| - 1];
    !n.readable || Bad(n.entries, depth) || OwedBad(queue[..|queue| - 1])
  }

  ghost function Weight(queue: Queue): nat
    requires Folders(queue)
  {
    if queue == [] then 0 else Weight(queue[..|queue| - 1]) + 1 + Size(queue[|queue| - 1].0.entries)
  }

  ghost function Size(entries: seq<Node>): nat {
    if entries == [] then 0 else SizeOf(entries[0]) + Size(entries[1..])
  }

  ghost function SizeOf(n: Node): nat {
    if n.FolderNode? then 1 + Size(n.entries) else 0
  }

  ghost function Found(found: seq<Staged>, bin: Bin): nat {
    if exists k :: 0 <= k < |found| && found[k].bin == bin then 1 else 0
  }

  /** What was found, what is left of the folder being read and what is queued make up the whole artifact. */
  ghost predicate Progress(root: seq<Node>, found: seq<Staged>, rest: seq<Node>, depth: nat, queue: Queue)
    requires Folders(queue)
  {
    && Distinct(found)
    && (forall bin: Bin ::
          Occurrences(root, 0, bin) == Found(found, bin) + Occurrences(rest, depth, bin) + Owed(queue, bin))
    && (forall s: Staged :: Holds(root, 0, s) <==> s in found || Holds(rest, depth, s) || OwedFile(queue, s))
    && (Bad(root, 0) <==> Bad(rest, depth) || OwedBad(queue))
  }

  lemma QueuePush(queue: Queue, n: Node, depth: nat)
    requires Folders(queue) && n.FolderNode?
    ensures Folders(queue + [(n, depth)])
    ensures forall bin: Bin :: Owed(queue + [(n, depth)], bin) == Owed(queue, bin) + Occurrences(n.entries, depth, bin)
    ensures forall s: Staged :: OwedFile(queue + [(n, depth)], s) <==> Holds(n.entries, depth, s) || OwedFile(queue, s)
    ensures OwedBad(queue + [(n, depth)]) <==> !n.readable || Bad(n.entries, depth) || OwedBad(queue)
    ensures Weight(queue + [(n, depth)]) == Weight(queue) + 1 + Size(n.entries)
  {
    var q := queue + [(n, depth)];
    assert q[..|q| - 1] == queue && q[|q| - 1] == (n, depth);
  }

  predicate NameOrder(a: Staged, b: Staged) {
    a.bin == b.bin || a.bin.Agentd? || b.bin.Upgrader?
  }

  lemma NameOrderIsPreorder()
    ensures TotalPreorder(NameOrder)
  {
  }

  lemma FoundGrows(found: seq<Staged>, s: Staged)
    requires Distinct(found) && forall k :: 0 <= k < |found| ==> found[k].bin != s.bin
    ensures Distinct(found + [s])
    ensures forall bin: Bin :: Found(found + [s], bin) == Found(found, bin) + if bin == s.bin then 1 else 0
  {
    var f := found + [s];
    assert f[|found|] == s;
    forall bin: Bin ensures Found(f, bin) == Found(found, bin) + if bin == s.bin then 1 else 0 {
      if k :| 0 <= k < |found| && found[k].bin == bin {
        assert f[k].bin == bin;
      }
    }
  }

  /** The next entry of the folder being read, split off. */
  lemma Unfold(rest: seq<Node>, depth: nat)
    requires rest != []
    ensures forall bin: Bin ::
              Occurrences(rest, depth, bin) == OccurrencesIn(rest[0], depth, bin) + Occurrences(rest[1..], depth, bin)
    ensures forall s: Staged :: Holds(rest, depth, s) <==> HoldsIn(rest[0], depth, s) || Holds(rest[1..], depth, s)
    ensures Bad(rest, depth) <==> BadIn(rest[0], depth) || Bad(rest[1..], depth)
    ensures Size(rest) == SizeOf(rest[0]) + Size(rest[1..])
  {
  }

  /** An entry that is no known binary and opens nothing is passed over. */
  lemma PassOver(root: seq<Node>, found: seq<Staged>, rest: seq<Node>, depth: nat, queue: Queue)
    requires Folders(queue) && rest != [] && Progress(root, found, rest, depth, queue)
    requires match rest[0]
             case FileNode(bin, _) => bin.None?
             case LinkNode(bin) => bin.None?
             case FolderNode(_, _) => depth >= 3
    ensures Progress(root, found, rest[1..], depth, queue)
  {
    Unfold(rest, depth);
    forall bin: Bin
      ensures Occurrences(root, 0, bin) == Found(found, bin) + Occurrences(rest[1..], depth, bin) + Owed(queue, bin)
    {
      assert OccurrencesIn(rest[0], depth, bin) == 0;
    }
    forall s: Staged ensures Holds(root, 0, s) <==> s in found || Holds(rest[1..], depth, s) || OwedFile(queue, s) {
      assert !HoldsIn(rest[0], depth, s);
    }
  }

  lemma PutOff(root: seq<Node>, found: seq<Staged>, rest: seq<Node>, depth: nat, queue: Queue)
    requires Folders(queue) && rest != [] && Progress(root, found, rest, depth, queue)
    requires rest[0].FolderNode? && depth < 3
    ensures Folders(queue + [(rest[0], depth + 1)])
    ensures Progress(root, found, rest[1..], depth, queue + [(rest[0], depth + 1)])
    ensures Weight(queue + [(rest[0], depth + 1)]) + Size(rest[1..]) == Weight(queue) + Size(rest)
  {
    Unfold(rest, depth);
    var q := queue + [(rest[0], depth + 1)];
    QueuePush(queue, rest[0], depth + 1);
    forall bin: Bin
      ensures Occurrences(root, 0, bin) == Found(found, bin) + Occurrences(rest[1..], depth, bin) + Owed(q, bin)
    {
      assert OccurrencesIn(rest[0], depth, bin) == Occurrences(rest[0].entries, depth + 1, bin);
    }
    forall s: Staged ensures Holds(root, 0, s) <==> s in found || Holds(rest[1..], depth, s) || OwedFile(q, s) {
      assert HoldsIn(rest[0], depth, s) == Holds(rest[0].entries, depth + 1, s);
    }
  }

  lemma TakeFile(root: seq<Node>, found: seq<Staged>, rest: seq<Node>, depth: nat, queue: Queue)
    requires Folders(queue) && rest != [] && Progress(root, found, rest, depth, queue)
    requires rest[0].FileNode? && rest[0].bin.Some?
    requires forall k :: 0 <= k < |found| ==> found[k].bin != rest[0].bin.value
    ensures Progress(root, found + [Staged(rest[0].bin.value, rest[0].content)], rest[1..], depth, queue)
  {
    Unfold(rest, depth);
    var f := found + [Staged(rest[0].bin.value, rest[0].content)];
    FoundGrows(found, Staged(rest[0].bin.value, rest[0].content));
    forall bin: Bin
      ensures Occurrences(root, 0, bin) == Found(f, bin) + Occurrences(rest[1..], depth, bin) + Owed(queue, bin)
    {
      assert OccurrencesIn(rest[0], depth, bin) == if rest[0].bin == Some(bin) then 1 else 0;
    }
    forall s: Staged ensures Holds(root, 0, s) <==> s in f || Holds(rest[1..], depth, s) || OwedFile(queue, s) {
      assert HoldsIn(rest[0], depth, s) == (s == Staged(rest[0].bin.value, rest[0].content));
    }
  }

  /** A link under a known name, or a second file under one, makes the artifact unusable. */
  lemma Refuse(root: seq<Node>, found: seq<Staged>, rest: seq<Node>, depth: nat, queue: Queue)
    requires Folders(queue) && rest != [] && Progress(root, found, rest, depth, queue)
    requires match rest[0]
             case FileNode(bin, _) => bin.Some? && exists k :: 0 <= k < |found| && found[k].bin == bin.value
             case LinkNode(bin) => bin.Some?
             case FolderNode(_, _) => false
    ensures !Usable(root)
  {
    Unfold(rest, depth);
    if rest[0].FileNode? {
      var bin := rest[0].bin.value;
      assert Found(found, bin) == 1 && OccurrencesIn(rest[0], depth, bin) == 1;
      assert Occurrences(root, 0, bin) >= 2;
    }
  }

  /** Reads the entries of one folder, adding known files to `found` and subfolders to the queue. */
  method ReadFolder(entries: seq<Node>, depth: nat, found0: seq<Staged>, queue0: Queue, ghost root: seq<Node>)
    returns (r: Result<seq<Staged>, ArtifactError>, queue: Queue)
    requires Folders(queue0) && depth <= 3 && Progress(root, found0, entries, depth, queue0)
    requires forall k :: 0 <= k < |queue0| ==> queue0[k].1 <= 3
    ensures Folders(queue) && forall k :: 0 <= k < |queue| ==> queue[k].1 <= 3
    ensures r.Ok? ==> Progress(root, r.value, [], depth, queue) && Weight(queue) <= Weight(queue0) + Size(entries)
    ensures r.Err? ==> !Usable(root)
  {
    hide Progress, Usable;
    var found := found0;
    queue := queue0;
    assert entries[0..] == entries;
    for i := 0 to |entries|
      invariant Folders(queue) && forall k :: 0 <= k < |queue| ==> queue[k].1 <= 3
      invariant Progress(root, found, entries[i..], depth, queue)
      invariant Weight(queue) + Size(entries[i..]) <= Weight(queue0) + Size(entries)
    {
      ghost var rest := entries[i..];
      assert rest[0] == entries[i] && rest[1..] == entries[i + 1..];
      Unfold(rest, depth);
      match entries[i]
      case LinkNode(bin) =>
        if bin.Some? {
          Refuse(root, found, rest, depth, queue);
          return Err(KnownNameIsLink), queue;
        }
        PassOver(root, found, rest, depth, queue);
      case FolderNode(_, _) =>
        if depth < MAX_ARTIFACT_DEPTH {
          PutOff(root, found, rest, depth, queue);
          queue := queue + [(entries[i], depth + 1)];
        } else {
          PassOver(root, found, rest, depth, queue);
        }
      case FileNode(bin, content) =>
        if bin.Some? {
          if exists k :: 0 <= k < |found| && found[k].bin == bin.value {
            Refuse(root, found, rest, depth, queue);
            return Err(MoreThanOne(bin.value)), queue;
          }
          TakeFile(root, found, rest, depth, queue);
          found := found + [Staged(bin.value, content)];
        } else {
          PassOver(root, found, rest, depth, queue);
        }
    }
    assert entries[|entries|..] == [];
    r := Ok(found);
  }

  lemma Start(root: Node)
    requires root.FolderNode? && root.readable
    ensures Folders([]) && Progress(root.entries, [], root.entries, 0, [])
  {
  }

  /** The folder on top of the queue is the next one to read. */
  lemma TakeOff(root: seq<Node>, found: seq<Staged>, depth: nat, queue: Queue)
    requires Folders(queue) && queue != [] && Progress(root, found, [], depth, queue)
    ensures var (n, d) := queue[|queue| - 1];
            var q := queue[..|queue| - 1];
            && Folders(q) && (!n.readable ==> !Usable(root))
            && (n.readable ==> Progress(root, found, n.entries, d, q))
            && Weight(queue) == Weight(q) + 1 + Size(n.entries)
  {
    var (n, d) := queue[|queue| - 1];
    var q := queue[..|queue| - 1];
    assert queue == q + [(n, d)];
    QueuePush(q, n, d);
  }

  /** With nothing left to read, what was found is exactly what the artifact holds. */
  lemma Done(root: seq<Node>, found: seq<Staged>, depth: nat, sorted: seq<Staged>)
    requires Folders([]) && Progress(root, found, [], depth, [])
    requires multiset(sorted) == multiset(found)
    ensures Usable(root) <==> exists k :: 0 <= k < |found| && found[k].bin == Agentd
    ensures Distinct(sorted) && forall s: Staged :: s in sorted <==> Holds(root, 0, s)
    ensures Usable(root) ==> Names(sorted, |sorted|, Agentd)
  {
    assert Found(found, Agentd) == Occurrences(root, 0, Agentd);
    forall bin: Bin ensures Occurrences(root, 0, bin) <= 1 {
      assert Occurrences(root, 0, bin) == Found(found, bin);
    }
    forall s: Staged ensures s in sorted <==> s in found {
      assert s in multiset(sorted) <==> s in multiset(found);
    }
    DistinctPermutation(found, sorted);
    if k :| 0 <= k < |found| && found[k].bin == Agentd {
      assert found[k] in sorted;
    }
  }

  lemma DistinctPermutation(a: seq<Staged>, b: seq<Staged>)
    requires Distinct(a) && multiset(a) == multiset(b)
    ensures Distinct(b)
  {
    forall i, j | 0 <= i < j < |b| ensures b[i].bin != b[j].bin {
      if b[i].bin == b[j].bin {
        assert b[i] in multiset(b) && b[j] in multiset(b);
        var x :| 0 <= x < |a| && a[x] == b[i];
        var y :| 0 <= y < |a| && a[y] == b[j];
        assert x == y;
        TwiceIn(b, i, j);
        OnceIn(a, x);
      }
    }
  }

  lemma TwiceIn(s: seq<Staged>, i: nat, j: nat)
    requires i < j < |s| && s[i] == s[j]
    ensures multiset(s)[s[i]] >= 2
  {
    assert s == s[..j] + [s[j]] + s[j + 1..];
    assert s[..j][i] == s[i] && s[i] in multiset(s[..j]);
    assert multiset(s) == multiset(s[..j]) + multiset{s[j]} + multiset(s[j + 1..]);
  }

  lemma OnceIn(s: seq<Staged>, i: nat)
    requires i < |s| && Distinct(s)
    ensures multiset(s)[s[i]] == 1
  {
    assert s == s[..i] + [s[i]] + s[i + 1..];
    assert s[i] !in s[..i] && s[i] !in s[i + 1..];
    assert multiset(s) == multiset(s[..i]) + multiset{s[i]} + multiset(s[i + 1..]);
  }

  /** Finds the known binaries, in the order of their names; refuses an artifact that cannot be installed. */
  method FindBinaries(root: Node) returns (r: Result<seq<Staged>, ArtifactError>)
    requires root.FolderNode?
    ensures r.Ok? <==> root.readable && Usable(root.entries)
    ensures r.Ok? ==> Distinct(r.value) && Names(r.value, |r.value|, Agentd)
    ensures r.Ok? ==>
              forall i, j :: 0 <= i < j < |r.value| ==> r.value[i].bin == Agentd || r.value[j].bin == Upgrader
    ensures r.Ok? ==> forall s: Staged :: s in r.value <==> Holds(root.entries, 0, s)
  {
    if !root.readable {
      return Err(NotReadable);
    }
    Start(root);
    var first, queue := ReadFolder(root.entries, 0, [], [], root.entries);
    if first.Err? {
      return Err(first.error);
    }
    var found := first.value;
    while queue != []
      invariant Folders(queue) && forall k :: 0 <= k < |queue| ==> queue[k].1 <= 3
      invariant Progress(root.entries, found, [], 0, queue)
      decreases Weight(queue)
    {
      var (n, depth) := queue[|queue| - 1];
      TakeOff(root.entries, found, 0, queue);
      queue := queue[..|queue| - 1];
      if !n.readable {
        return Err(NotReadable);
      }
      var step;
      step, queue := ReadFolder(n.entries, depth, found, queue, root.entries);
      if step.Err? {
        return Err(step.error);
      }
      found := step.value;
    }
    NameOrderIsPreorder();
    var sorted := Sort(found, NameOrder);
    Done(root.entries, found, 0, sorted);
    if !exists k :: 0 <= k < |found| && found[k].bin == Agentd {
      return Err(NoAgentd);
    }
    r := Ok(sorted);
  }
}
