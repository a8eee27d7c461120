/** The online list of the largest files, against sorting everything and taking a prefix. */
module DiskTop {
  import opened Basics
  import opened Sorting
  import opened DiskTally

  type Sized = (nat, Path)
  type U64 = n: nat | n <= U64_MAX

  predicate Larger(a: Sized, b: Sized) {
    a.0 >= b.0
  }

  lemma LargerIsPreorder()
    ensures TotalPreorder(Larger)
  {
  }

  /** The library sort, largest first. */
  function LargestFirst(s: seq<Sized>): (r: seq<Sized>)
    ensures SortedBy(r, Larger) && multiset(r) == multiset(s) && |r| == |s|
  {
    LargerIsPreorder();
    Sort(s, Larger)
  }

  /** How many files the list may hold before it is cut back to `top`. */
  function Keep(top: nat): nat {
    if Cap(4 * top) >= 16 then Cap(4 * top) else 16
  }

  /** `r` holds the `top` largest of `all`, in descending order; ties at the cut may go either way. */
  ghost predicate IsTop(all: seq<Sized>, top: nat, r: seq<Sized>, rest: seq<Sized>) {
    && (forall i, j :: 0 <= i < j < |r| ==> r[i].0 >= r[j].0)
    && |r| == (if |all| < top then |all| else top)
    && multiset(r) + multiset(rest) == multiset(all)
    && forall i, d :: 0 <= i < |r| && d in rest ==> r[i].0 >= d.0
  }

  /**
   The invariant of the online list: `list` and the `gone` files are all files so far, and once anything
   was dropped the first `top` listed files reach the floor, which nothing dropped exceeds.
   */
  ghost predicate Online(all: seq<Sized>, top: nat, list: seq<Sized>, floor: nat, gone: seq<Sized>) {
    && multiset(list) + multiset(gone) == multiset(all)
    && |list| <= Keep(top)
    && (forall d :: d in gone ==> d.0 <= floor)
    && (gone != [] || floor > 0 ==> |list| >= top && forall i :: 0 <= i < top ==> list[i].0 >= floor)
  }

  ghost function CountAtLeast(s: seq<Sized>, x: nat): nat {
    if s == [] then 0 else (if s[0].0 >= x then 1 else 0) + CountAtLeast(s[1..], x)
  }

  lemma {:induction false} CountConcat(a: seq<Sized>, b: seq<Sized>, x: nat)
    ensures CountAtLeast(a + b, x) == CountAtLeast(a, x) + CountAtLeast(b, x)
  {
    if a == [] {
      assert a + b == b;
    } else {
      assert (a + b)[1..] == a[1..] + b;
      CountConcat(a[1..], b, x);
    }
  }

  lemma CountRemove(s: seq<Sized>, k: nat, x: nat)
    requires k < |s|
    ensures multiset(s) == multiset(s[..k] + s[k + 1..]) + multiset{s[k]}
    ensures CountAtLeast(s, x) == CountAtLeast(s[..k] + s[k + 1..], x) + (if s[k].0 >= x then 1 else 0)
  {
    assert s == s[..k] + ([s[k]] + s[k + 1..]);
    CountConcat(s[..k], [s[k]] + s[k + 1..], x);
    CountConcat([s[k]], s[k + 1..], x);
    CountConcat(s[..k], s[k + 1..], x);
  }

  /** The first element of a list, found and taken out of a permutation of it. */
  lemma Match(a: seq<Sized>, b: seq<Sized>) returns (k: nat, rest: seq<Sized>)
    requires multiset(a) == multiset(b) && a != []
    ensures k < |b| && b[k] == a[0] && rest == b[..k] + b[k + 1..] && multiset(a[1..]) == multiset(rest)
  {
    assert a[0] in multiset(b);
    k :| 0 <= k < |b| && b[k] == a[0];
    rest := b[..k] + b[k + 1..];
    assert a[..0] + a[0 + 1..] == a[1..];
    RemoveAt(a, 0);
    RemoveAt(b, k);
  }

  lemma RemoveAt(s: seq<Sized>, k: nat)
    requires k < |s|
    ensures multiset(s[..k] + s[k + 1..]) == multiset(s) - multiset{s[k]}
  {
    assert s == s[..k] + [s[k]] + s[k + 1..];
  }

  lemma {:induction false} CountPermutation(a: seq<Sized>, b: seq<Sized>, x: nat)
    requires multiset(a) == multiset(b)
    ensures CountAtLeast(a, x) == CountAtLeast(b, x)
  {
    if a == [] {
      assert |multiset(b)| == 0;
    } else {
      var k, rest := Match(a, b);
      CountRemove(b, k, x);
      CountPermutation(a[1..], rest, x);
    }
  }

  /** At least `top` elements of a permutation of a descending list reach `x`, so its first `top` positions do. */
  lemma SortedReaches(s: seq<Sized>, sorted: seq<Sized>, top: nat, i: nat, x: nat)
    requires multiset(s) == multiset(sorted) && SortedBy(sorted, Larger)
    requires i < top <= |s| && i < |sorted|
    requires forall k :: 0 <= k < top ==> s[k].0 >= x
    ensures sorted[i].0 >= x
  {
    assert s == s[..top] + s[top..];
    CountAll(s[..top], x);
    CountConcat(s[..top], s[top..], x);
    CountPermutation(s, sorted, x);
    CountSorted(sorted, i, x);
  }

  lemma {:induction false} CountAll(s: seq<Sized>, x: nat)
    requires forall i :: 0 <= i < |s| ==> s[i].0 >= x
    ensures CountAtLeast(s, x) == |s|
  {
    if s != [] { CountAll(s[1..], x); }
  }

  lemma {:induction false} CountNone(s: seq<Sized>, x: nat)
    requires forall i :: 0 <= i < |s| ==> s[i].0 < x
    ensures CountAtLeast(s, x) == 0
  {
    if s != [] { CountNone(s[1..], x); }
  }

  /** In a descending list, position `i` reaches `x` exactly when more than `i` elements do. */
  lemma CountSorted(s: seq<Sized>, i: nat, x: nat)
    requires SortedBy(s, Larger) && i < |s|
    ensures s[i].0 >= x <==> CountAtLeast(s, x) > i
  {
    assert s == s[..i] + s[i..] == s[..i + 1] + s[i + 1..];
    if s[i].0 >= x {
      var low := s[..i + 1];
      forall k | 0 <= k < |low| ensures low[k].0 >= x {
        assert k == i || Larger(s[k], s[i]);
      }
      CountAll(low, x);
      CountConcat(s[..i + 1], s[i + 1..], x);
    } else {
      var high := s[i..];
      forall k | 0 <= k < |high| ensures high[k].0 < x {
        assert k == 0 || Larger(s[i], s[i + k]);
      }
      CountNone(high, x);
      CountConcat(s[..i], s[i..], x);
      CountAtMost(s[..i], x);
    }
  }

  lemma {:induction false} CountAtMost(s: seq<Sized>, x: nat)
    ensures CountAtLeast(s, x) <= |s|
  {
    if s != [] { CountAtMost(s[1..], x); }
  }

  /** Listing one more file keeps the invariant. */
  lemma OnlinePush(all: seq<Sized>, top: nat, list: seq<Sized>, floor: nat, gone: seq<Sized>, file: Sized)
    requires Online(all, top, list, floor, gone) && |list| < Keep(top)
    ensures Online(all + [file], top, list + [file], floor, gone)
  {
  }

  lemma OnlineFits(all: seq<Sized>, top: U64, list: seq<Sized>, floor: nat, gone: seq<Sized>)
    requires Online(all, top, list, floor, gone)
    ensures |list| <= Keep(top) && top <= Keep(top)
  {
  }

  /** A file at or below the floor of a full list may be forgotten. */
  lemma OnlineForget(all: seq<Sized>, top: nat, list: seq<Sized>, floor: nat, gone: seq<Sized>, file: Sized)
    requires Online(all, top, list, floor, gone) && top <= Keep(top)
    requires |list| >= Keep(top) && file.0 <= floor
    ensures Online(all + [file], top, list, floor, gone + [file])
  {
  }

  /** An overfull list may be sorted and cut back to its `top` largest. */
  lemma OnlineCut(all: seq<Sized>, top: nat, list: seq<Sized>, floor: nat, gone: seq<Sized>, file: Sized,
                  sorted: seq<Sized>)
    requires Online(all, top, list, floor, gone) && 1 <= top <= Keep(top) == |list|
    requires multiset(sorted) == multiset(list + [file]) && SortedBy(sorted, Larger) && |sorted| == |list| + 1
    ensures Online(all + [file], top, sorted[..top], sorted[top - 1].0, gone + sorted[top..])
  {
    var kept, cut, floor' := sorted[..top], sorted[top..], sorted[top - 1].0;
    assert sorted == kept + cut;
    forall d | d in cut ensures d.0 <= floor' {
      var k :| 0 <= k < |cut| && cut[k] == d;
      assert Larger(sorted[top - 1], sorted[top + k]);
    }
    if gone != [] {
      SortedReaches(list + [file], sorted, top, top - 1, floor);
    }
    forall i | 0 <= i < top ensures kept[i].0 >= floor' {
      assert i == top - 1 || Larger(sorted[i], sorted[top - 1]);
    }
    Regroup(multiset(kept), multiset(cut), multiset(gone), multiset(list), multiset(all), file);
    assert multiset(gone + cut) == multiset(gone) + multiset(cut);
    assert multiset(all + [file]) == multiset(all) + multiset{file};
  }

  lemma Regroup(kept: multiset<Sized>, cut: multiset<Sized>, gone: multiset<Sized>, list: multiset<Sized>,
                all: multiset<Sized>, file: Sized)
    requires list + gone == all && kept + cut == list + multiset{file}
    ensures kept + (gone + cut) == all + multiset{file}
  {
    calc {
      kept + (gone + cut);
      (kept + cut) + gone;
      (list + multiset{file}) + gone;
      (list + gone) + multiset{file};
    }
  }

  /** What the final sort and cut delivers. */
  lemma OnlineFinish(all: seq<Sized>, top: nat, list: seq<Sized>, floor: nat, gone: seq<Sized>, sorted: seq<Sized>)
    requires Online(all, top, list, floor, gone)
    requires multiset(sorted) == multiset(list) && SortedBy(sorted, Larger) && |sorted| == |list|
    ensures IsTop(all, top, Take(sorted, top), Over(sorted, top) + gone)
  {
    var r, over := Take(sorted, top), Over(sorted, top);
    assert sorted == r + over;
    assert |list| + |gone| == |multiset(list) + multiset(gone)| == |all|;
    forall i, d | 0 <= i < |r| && d in over + gone ensures Larger(r[i], d) {
      if d in over {
        var k :| 0 <= k < |over| && over[k] == d;
        assert Larger(sorted[i], sorted[top + k]);
      } else {
        SortedReaches(list, sorted, top, i, floor);
      }
    }
    assert multiset(over + gone) == multiset(over) + multiset(gone);
  }

  ghost function Over<T>(s: seq<T>, n: nat): seq<T> {
    if n <= |s| then s[n..] else []
  }

  /** The sizes of the largest files are determined: any two answers agree position by position. */
  lemma TopSizesUnique(all: seq<Sized>, top: nat, r: seq<Sized>, rest: seq<Sized>, r': seq<Sized>, rest': seq<Sized>,
                       i: nat)
    requires IsTop(all, top, r, rest) && IsTop(all, top, r', rest') && i < |r|
    ensures |r| == |r'| && r[i].0 == r'[i].0
  {
    TopSizesAtMost(all, top, r, rest, r', rest', i);
    TopSizesAtMost(all, top, r', rest', r, rest, i);
  }

  lemma TopSizesAtMost(all: seq<Sized>, top: nat, r: seq<Sized>, rest: seq<Sized>, r': seq<Sized>, rest': seq<Sized>,
                       i: nat)
    requires IsTop(all, top, r, rest) && IsTop(all, top, r', rest') && i < |r|
    ensures r[i].0 <= r'[i].0
  {
    var x := r[i].0;
    if r'[i].0 < x {
      CountSorted(r, i, x);
      CountSorted(r', i, x);
      forall k | 0 <= k < |rest'| ensures rest'[k].0 < x {
        assert rest'[k] in rest';
        assert Larger(r'[i], rest'[k]);
      }
      CountNone(rest', x);
      CountConcat(r, rest, x);
      CountConcat(r', rest', x);
      CountPermutation(r + rest, r' + rest', x);
    }
  }

  lemma CutIsTop(all: seq<Sized>, top: nat, s: seq<Sized>)
    requires SortedBy(s, Larger) && multiset(s) == multiset(all) && |s| == |all|
    ensures IsTop(all, top, Take(s, top), Over(s, top))
  {
    var over := Over(s, top);
    assert s == Take(s, top) + over;
    forall i, d | 0 <= i < |Take(s, top)| && d in over ensures Larger(Take(s, top)[i], d) {
      var k :| 0 <= k < |over| && over[k] == d;
      assert Larger(s[i], s[top + k]);
    }
  }

  /** Sorting everything and taking a prefix is one such answer. */
  lemma SortTakeIsTop(all: seq<Sized>, top: nat)
    ensures IsTop(all, top, Take(LargestFirst(all), top), Over(LargestFirst(all), top))
  {
    CutIsTop(all, top, LargestFirst(all));
  }

  /** The online list refines sort-and-take: same length, same sizes at every position. */
  lemma OnlineRefinesSort(all: seq<Sized>, top: nat, r: seq<Sized>, rest: seq<Sized>)
    requires IsTop(all, top, r, rest)
    ensures |r| == |Take(LargestFirst(all), top)|
    ensures forall i :: 0 <= i < |r| ==> r[i].0 == Take(LargestFirst(all), top)[i].0
  {
    SortTakeIsTop(all, top);
    forall i | 0 <= i < |r| ensures r[i].0 == Take(LargestFirst(all), top)[i].0 {
      TopSizesUnique(all, top, r, rest, Take(LargestFirst(all), top), Over(LargestFirst(all), top), i);
    }
  }
}
