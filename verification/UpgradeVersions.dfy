/** Versions as dotted numbers, and the rule that an upgrade only moves forward. */
module UpgradeVersions {
  import opened Basics

  /** Segment-wise order; a version that continues another one is newer. */
  predicate Older(a: seq<nat>, b: seq<nat>) {
    if b == [] then false
    else if a == [] then true
    else a[0] < b[0] || (a[0] == b[0] && Older(a[1..], b[1..]))
  }

  /** They agree up to place `i`, and there `b` has the larger number, or one more where `a` ends. */
  ghost predicate PrecedesAt(a: seq<nat>, b: seq<nat>, i: nat) {
    i <= |a| && i < |b| && a[..i] == b[..i] && (i == |a| || a[i] < b[i])
  }

  ghost predicate Precedes(a: seq<nat>, b: seq<nat>) {
    exists i: nat :: PrecedesAt(a, b, i)
  }

  lemma {:induction false} OlderAt(a: seq<nat>, b: seq<nat>) returns (i: nat)
    requires Older(a, b)
    ensures PrecedesAt(a, b, i)
  {
    i := 0;
    if a != [] && a[0] == b[0] {
      i := OlderAt(a[1..], b[1..]);
      assert a[..i + 1] == [a[0]] + a[1..][..i] == [b[0]] + b[1..][..i] == b[..i + 1];
      i := i + 1;
    }
  }

  lemma {:induction false} AtOlder(a: seq<nat>, b: seq<nat>, i: nat)
    requires PrecedesAt(a, b, i)
    ensures Older(a, b)
    decreases i
  {
    if i > 0 {
      assert a[0] == a[..i][0] == b[..i][0] == b[0];
      assert a[1..][..i - 1] == a[..i][1..] == b[..i][1..] == b[1..][..i - 1];
      AtOlder(a[1..], b[1..], i - 1);
    }
  }

  /** The order is decided at the first place where the two differ; a version that continues another is newer. */
  lemma OlderPrecedes(a: seq<nat>, b: seq<nat>)
    ensures Older(a, b) <==> Precedes(a, b)
  {
    if Older(a, b) {
      var i := OlderAt(a, b);
    }
    forall i: nat | PrecedesAt(a, b, i) ensures Older(a, b) {
      AtOlder(a, b, i);
    }
  }

  lemma {:induction false} OlderTransitive(a: seq<nat>, b: seq<nat>, c: seq<nat>)
    requires Older(a, b) && Older(b, c)
    ensures Older(a, c)
  {
    if a != [] && a[0] == b[0] && b[0] == c[0] {
      OlderTransitive(a[1..], b[1..], c[1..]);
    }
  }

  lemma {:induction false} OlderIrreflexive(a: seq<nat>)
    ensures !Older(a, a)
  {
    if a != [] {
      OlderIrreflexive(a[1..]);
    }
  }

  lemma {:induction false} OlderTotal(a: seq<nat>, b: seq<nat>)
    ensures Older(a, b) || a == b || Older(b, a)
  {
    if a != [] && b != [] && a[0] == b[0] {
      OlderTotal(a[1..], b[1..]);
      if a[1..] == b[1..] {
        assert a == [a[0]] + a[1..] == b;
      }
    }
  }

  /** How version strings are read; a string that is no dotted number has no reading. */
  type Parser = string -> Option<seq<nat>>

  /** `Some(true)` if `target` is newer, `None` if the two cannot be compared. */
  function VersionIsNewer(parse: Parser, target: string, current: string): Option<bool> {
    var t, c := parse(target), parse(current);
    if t.None? || c.None? then None else Some(Older(c.value, t.value))
  }

  ghost predicate Forward(parse: Parser, from: string, to: string) {
    parse(from).Some? && parse(to).Some? && Precedes(parse(from).value, parse(to).value)
  }

  lemma ForwardOlder(parse: Parser, from: string, to: string)
    ensures Forward(parse, from, to) <==>
            parse(from).Some? && parse(to).Some? && Older(parse(from).value, parse(to).value)
  {
    if parse(from).Some? && parse(to).Some? {
      OlderPrecedes(parse(from).value, parse(to).value);
    }
  }

  /** One finished run, as its record shows it. */
  datatype Hop = Hop(from: string, to: string)

  /** Runs that each start from the version the previous one reached, all moving forward, never come back. */
  lemma {:induction false} ForwardChain(parse: Parser, hops: seq<Hop>, i: nat, j: nat)
    requires forall k :: 0 <= k < |hops| ==> Forward(parse, hops[k].from, hops[k].to)
    requires forall k :: 0 <= k < |hops| - 1 ==> hops[k + 1].from == hops[k].to
    requires i <= j < |hops|
    ensures Forward(parse, hops[i].from, hops[j].to)
    ensures hops[i].from != hops[j].to
    decreases j - i
  {
    ForwardOlder(parse, hops[j].from, hops[j].to);
    if i < j {
      ForwardChain(parse, hops, i, j - 1);
      ForwardOlder(parse, hops[i].from, hops[j - 1].to);
      assert hops[j - 1 + 1].from == hops[j - 1].to;
      OlderTransitive(parse(hops[i].from).value, parse(hops[j].from).value, parse(hops[j].to).value);
    }
    OlderIrreflexive(parse(hops[i].from).value);
    ForwardOlder(parse, hops[i].from, hops[j].to);
  }
}
