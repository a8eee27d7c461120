/** Amounts filed under labels, and their sums. */
module Tallies {
  type Label = string

  datatype Entry = Entry(name: Label, amount: nat)

  /** What the first `i` entries file under a label. */
  ghost function SumTo(s: seq<Entry>, i: nat, name: Label): nat
    requires i <= |s|
  {
    if i == 0 then 0 else SumTo(s, i - 1, name) + if s[i - 1].name == name then s[i - 1].amount else 0
  }

  ghost function TotalTo(s: seq<Entry>, i: nat): nat
    requires i <= |s|
  {
    if i == 0 then 0 else TotalTo(s, i - 1) + s[i - 1].amount
  }

  ghost predicate Distinct(labels: seq<Label>) {
    forall i, j :: 0 <= i < j < |labels| ==> labels[i] != labels[j]
  }

  /** The sums of the first `n` labels together. */
  ghost function AllSums(s: seq<Entry>, i: nat, labels: seq<Label>, n: nat): nat
    requires i <= |s| && n <= |labels|
  {
    if n == 0 then 0 else AllSums(s, i, labels, n - 1) + SumTo(s, i, labels[n - 1])
  }

  /** One more entry changes the sums of the labels by its amount, if its label is among them. */
  lemma {:induction false} OneMore(s: seq<Entry>, i: nat, labels: seq<Label>, n: nat)
    requires i < |s| && n <= |labels| && Distinct(labels)
    ensures AllSums(s, i + 1, labels, n)
         == AllSums(s, i, labels, n) + if s[i].name in labels[..n] then s[i].amount else 0
  {
    if n > 0 {
      OneMore(s, i, labels, n - 1);
      assert labels[..n] == labels[..n - 1] + [labels[n - 1]];
    }
  }

  lemma {:induction false} NothingYet(s: seq<Entry>, labels: seq<Label>, n: nat)
    requires n <= |labels|
    ensures AllSums(s, 0, labels, n) == 0
  {
    if n > 0 {
      NothingYet(s, labels, n - 1);
    }
  }

  /** Filing conserves: under distinct labels that cover every amount, the sums add up to the total. */
  lemma {:induction false} SumsAddUp(s: seq<Entry>, i: nat, labels: seq<Label>)
    requires i <= |s| && Distinct(labels)
    requires forall j :: 0 <= j < i ==> s[j].name in labels || s[j].amount == 0
    ensures AllSums(s, i, labels, |labels|) == TotalTo(s, i)
  {
    if i == 0 {
      NothingYet(s, labels, |labels|);
    } else {
      SumsAddUp(s, i - 1, labels);
      OneMore(s, i - 1, labels, |labels|);
      assert labels[..|labels|] == labels;
    }
  }

  lemma {:induction false} SumPositive(s: seq<Entry>, i: nat, name: Label)
    requires i <= |s| && forall j :: 0 <= j < i ==> s[j].amount > 0
    ensures SumTo(s, i, name) > 0 <==> exists j :: 0 <= j < i && s[j].name == name
  {
    if i > 0 {
      SumPositive(s, i - 1, name);
    }
  }

  /** Distinct labels are as many as the set of them. */
  lemma {:induction false} DistinctSize(labels: seq<Label>)
    requires Distinct(labels)
    ensures |set l | l in labels| == |labels|
  {
    if labels == [] {
      assert (set l | l in labels) == {};
    } else {
      var last, front := labels[|labels| - 1], labels[..|labels| - 1];
      DistinctSize(front);
      assert (set l | l in labels) == (set l | l in front) + {last};
      assert last !in front;
    }
  }

  lemma {:induction false} SetAtMost(labels: seq<Label>)
    ensures |set l | l in labels| <= |labels|
  {
    if labels == [] {
      assert (set l | l in labels) == {};
    } else {
      var last, front := labels[|labels| - 1], labels[..|labels| - 1];
      SetAtMost(front);
      assert (set l | l in labels) == (set l | l in front) + {last};
    }
  }

  /** And only distinct ones are. */
  lemma SizeDistinct(labels: seq<Label>)
    requires |set l | l in labels| == |labels|
    ensures Distinct(labels)
  {
    if i, j :| 0 <= i < j < |labels| && labels[i] == labels[j] {
      var rest := labels[..j] + labels[j + 1..];
      assert labels[i] == rest[i];
      forall l | l in labels ensures l in rest {
        var k :| 0 <= k < |labels| && labels[k] == l;
        if k < j {
          assert rest[k] == l;
        } else if k > j {
          assert rest[k - 1] == l;
        }
      }
      assert (set l | l in labels) == (set l | l in rest);
      SetAtMost(rest);
    }
  }
}

/** Putting the processes of one service together, with its exact CPU time where the kernel accounts for it. */
module Services {
  import opened Basics
  import opened Sorting
  import opened Tallies

  datatype Process = Process(service: Label, source: string, cpu: real, rss: nat)

  datatype Group = Group(name: Label, source: string, processes: nat, cpu: real, exact: bool, rss: nat)

  datatype Usage = Usage(path: string, name: Label, usec: nat)

  // ----- exact CPU time --------------------------------------------------------------------------------

  function Delta(before: map<string, nat>, u: Usage): nat {
    if u.path in before && before[u.path] < u.usec then u.usec - before[u.path] else 0
  }

  /** What each cgroup used in between; one that was not read before, or was reset since, counts for nothing. */
  ghost function Deltas(before: map<string, nat>, after: seq<Usage>): seq<Entry> {
    seq(|after|, i requires 0 <= i < |after| =>
      var u := after[i];
      Entry(u.name, if u.path !in before || u.usec < before[u.path] then 0 else u.usec - before[u.path]))
  }

  function Percent(usec: nat, window: nat): real
    requires window > 0
  {
    usec as real / window as real * 100.0
  }

  /** `cpu` is the share of one core that `usec` out of `window` microseconds make, in percent. */
  ghost predicate Shares(cpu: real, usec: nat, window: nat) {
    cpu * window as real == 100.0 * usec as real
  }

  lemma PercentShares(usec: nat, window: nat)
    requires window > 0
    ensures Shares(Percent(usec, window), usec, window)
  {
    var share := usec as real / window as real;
    assert share * window as real == usec as real;
    assert share * 100.0 * window as real == 100.0 * (share * window as real);
  }

  /** Of every cgroup read twice, what it used in between, added up per service. */
  method UsageTotals(before: map<string, nat>, after: seq<Usage>) returns (totals: map<Label, nat>)
    ensures forall l :: l in totals <==> exists i :: 0 <= i < |after| && after[i].name == l && after[i].path in before
    ensures forall l :: l in totals ==> totals[l] == SumTo(Deltas(before, after), |after|, l)
  {
    totals := map[];
    ghost var deltas := Deltas(before, after);
    for n := 0 to |after|
      invariant forall l :: l in totals <==> exists i :: 0 <= i < n && after[i].name == l && after[i].path in before
      invariant forall l :: SumTo(deltas, n, l) == if l in totals then totals[l] else 0
    {
      var u := after[n];
      if u.path in before {
        totals := totals[u.name := (if u.name in totals then totals[u.name] else 0) + Delta(before, u)];
      }
    }
  }

  /** CPU time per service over the window. */
  method ExactServiceCpu(before: map<string, nat>, after: seq<Usage>, elapsedMicros: nat)
    returns (cpu: map<Label, real>)
    ensures forall l :: l in cpu <==> exists i :: 0 <= i < |after| && after[i].name == l && after[i].path in before
    ensures var window := if elapsedMicros == 0 then 1 else elapsedMicros;
            forall l :: l in cpu ==> Shares(cpu[l], SumTo(Deltas(before, after), |after|, l), window)
  {
    hide Percent, Shares, Deltas;
    var window := if elapsedMicros == 0 then 1 else elapsedMicros;
    var totals := UsageTotals(before, after);
    cpu := map l | l in totals :: Percent(totals[l], window);
    forall l | l in cpu ensures Shares(cpu[l], totals[l], window) {
      PercentShares(totals[l], window);
    }
  }

  /** The services' shares add up to all that was used: no cgroup is lost and none counts twice. */
  lemma UsageConserved(before: map<string, nat>, after: seq<Usage>, labels: seq<Label>)
    requires Distinct(labels)
    requires forall i :: 0 <= i < |after| && after[i].path in before ==> after[i].name in labels
    ensures AllSums(Deltas(before, after), |after|, labels, |labels|) == TotalTo(Deltas(before, after), |after|)
  {
    SumsAddUp(Deltas(before, after), |after|, labels);
  }

  // ----- the groups, label by label --------------------------------------------------------------------

  ghost function Ones(ps: seq<Process>): seq<Entry> {
    seq(|ps|, i requires 0 <= i < |ps| => Entry(ps[i].service, 1))
  }

  ghost function Memory(ps: seq<Process>): seq<Entry> {
    seq(|ps|, i requires 0 <= i < |ps| => Entry(ps[i].service, ps[i].rss))
  }

  ghost function SampledTo(ps: seq<Process>, i: nat, name: Label): real
    requires i <= |ps|
  {
    if i == 0 then 0.0 else SampledTo(ps, i - 1, name) + if ps[i - 1].service == name then ps[i - 1].cpu else 0.0
  }

  /** The source named by the first process of the label. */
  ghost function SourceTo(ps: seq<Process>, i: nat, name: Label): Option<string>
    requires i <= |ps|
  {
    if i == 0 then None
    else if SourceTo(ps, i - 1, name).Some? then SourceTo(ps, i - 1, name)
    else if ps[i - 1].service == name then Some(ps[i - 1].source)
    else None
  }

  function AtLeastZero(r: real): real {
    if r < 0.0 then 0.0 else r
  }

  /** `shown` is the figure, or nought for a negative one. */
  ghost predicate NotNegative(figure: real, shown: real) {
    shown >= 0.0 && (shown == figure || (figure < 0.0 && shown == 0.0))
  }

  /** The running values of one label. */
  datatype Acc = Acc(count: nat, cpu: real, rss: nat, source: string)

  ghost predicate AccOk(ps: seq<Process>, i: nat, name: Label, a: Acc)
    requires i <= |ps|
  {
    && a.count == SumTo(Ones(ps), i, name)
    && a.cpu == SampledTo(ps, i, name)
    && a.rss == Cap(SumTo(Memory(ps), i, name))
    && SourceTo(ps, i, name) == Some(a.source)
  }

  /** What the list must say about a label. */
  ghost predicate Tells(ps: seq<Process>, exact: map<Label, real>, g: Group) {
    var n := SumTo(Ones(ps), |ps|, g.name);
    && g.processes == n
    && g.rss == Cap(SumTo(Memory(ps), |ps|, g.name))
    && (g.exact <==> g.name in exact)
    && (n > 0 ==> Some(g.source) == SourceTo(ps, |ps|, g.name))
    && (n > 0 ==> NotNegative(if g.exact then exact[g.name] else SampledTo(ps, |ps|, g.name), g.cpu))
    && (n == 0 ==> g.exact && g.source == "cgroup" && g.cpu == exact[g.name])
  }

  ghost function Labels(gs: seq<Group>): seq<Label> {
    seq(|gs|, i requires 0 <= i < |gs| => gs[i].name)
  }

  /** A list with one group for each of the labels. */
  ghost predicate Lists(ps: seq<Process>, exact: map<Label, real>, gs: seq<Group>, labels: set<Label>) {
    && Distinct(Labels(gs))
    && (forall l :: l in Labels(gs) <==> l in labels)
    && forall i :: 0 <= i < |gs| ==> Tells(ps, exact, gs[i])
  }

  lemma ListsMore(ps: seq<Process>, exact: map<Label, real>, gs: seq<Group>, labels: set<Label>, g: Group)
    requires Lists(ps, exact, gs, labels) && g.name !in labels && Tells(ps, exact, g)
    ensures Lists(ps, exact, gs + [g], labels + {g.name})
  {
    var gs' := gs + [g];
    assert Labels(gs') == Labels(gs) + [g.name];
    assert g.name !in Labels(gs);
  }

  // ----- grouping --------------------------------------------------------------------------------------

  ghost predicate Grouped(ps: seq<Process>, n: nat, groups: map<Label, Acc>)
    requires n <= |ps|
  {
    && (forall l :: l in groups ==> AccOk(ps, n, l, groups[l]))
    && (forall l :: l !in groups ==> SumTo(Ones(ps), n, l) == 0 && SumTo(Memory(ps), n, l) == 0
                                      && SampledTo(ps, n, l) == 0.0 && SourceTo(ps, n, l) == None)
  }

  function Added(groups: map<Label, Acc>, p: Process): map<Label, Acc> {
    var a := if p.service in groups then groups[p.service] else Acc(0, 0.0, 0, p.source);
    groups[p.service := Acc(a.count + 1, a.cpu + p.cpu, SaturatingAdd(a.rss, p.rss), a.source)]
  }

  lemma GroupOne(ps: seq<Process>, n: nat, groups: map<Label, Acc>)
    requires n < |ps| && Grouped(ps, n, groups)
    ensures Grouped(ps, n + 1, Added(groups, ps[n]))
  {
    var groups' := Added(groups, ps[n]);
    forall l | l in groups' ensures AccOk(ps, n + 1, l, groups'[l]) {
      assert l in groups || l == ps[n].service;
    }
  }

  method GroupProcesses(ps: seq<Process>) returns (groups: map<Label, Acc>)
    ensures Grouped(ps, |ps|, groups)
  {
    groups := map[];
    for n := 0 to |ps|
      invariant Grouped(ps, n, groups)
    {
      GroupOne(ps, n, groups);
      groups := Added(groups, ps[n]);
    }
  }

  lemma GroupTells(ps: seq<Process>, exact: map<Label, real>, groups: map<Label, Acc>, l: Label, g: Group)
    requires Grouped(ps, |ps|, groups) && l in groups
    requires var a := groups[l];
             g == Group(l, a.source, a.count, AtLeastZero(if l in exact then exact[l] else a.cpu), l in exact, a.rss)
    ensures Tells(ps, exact, g)
  {
    assert AccOk(ps, |ps|, l, groups[l]);
    SumHasSource(ps, |ps|, l);
  }

  lemma {:induction false} SumHasSource(ps: seq<Process>, i: nat, l: Label)
    requires i <= |ps|
    ensures SumTo(Ones(ps), i, l) > 0 <==> SourceTo(ps, i, l).Some?
  {
    if i > 0 {
      SumHasSource(ps, i - 1, l);
    }
  }

  // ----- the list --------------------------------------------------------------------------------------

  predicate Ahead(nameLe: (Label, Label) -> bool, a: Group, b: Group) {
    || a.cpu > b.cpu
    || (a.cpu == b.cpu && a.rss > b.rss)
    || (a.cpu == b.cpu && a.rss == b.rss && nameLe(a.name, b.name))
  }

  lemma AheadIsOrder(nameLe: (Label, Label) -> bool)
    requires TotalPreorder(nameLe)
    ensures TotalPreorder((a, b) => Ahead(nameLe, a, b))
  {
    forall a: Group, b, c | Ahead(nameLe, a, b) && Ahead(nameLe, b, c) ensures Ahead(nameLe, a, c) {
    }
  }

  function Ranked(gs: seq<Group>, nameLe: (Label, Label) -> bool): (r: seq<Group>)
    requires TotalPreorder(nameLe)
    ensures InRank(r, nameLe) && multiset(r) == multiset(gs) && |r| == |gs|
  {
    AheadIsOrder(nameLe);
    var r := Sort(gs, (a, b) => Ahead(nameLe, a, b));
    assert forall i, j :: 0 <= i < j < |r| ==> Ahead(nameLe, r[i], r[j]);
    r
  }

  /** The most CPU time first, then the most memory, then by name. */
  ghost predicate InRank(gs: seq<Group>, nameLe: (Label, Label) -> bool) {
    forall i, j :: 0 <= i < j < |gs| ==>
      && gs[i].cpu >= gs[j].cpu
      && (gs[i].cpu == gs[j].cpu ==> gs[i].rss >= gs[j].rss)
      && (gs[i].cpu == gs[j].cpu && gs[i].rss == gs[j].rss ==> nameLe(gs[i].name, gs[j].name))
  }

  /** Reordering a list changes nothing it says. */
  lemma ListsPermuted(ps: seq<Process>, exact: map<Label, real>, gs: seq<Group>, labels: set<Label>, full: seq<Group>)
    requires Lists(ps, exact, gs, labels) && multiset(full) == multiset(gs) && |full| == |gs|
    ensures Lists(ps, exact, full, labels)
  {
    forall g ensures g in full <==> g in gs {
      assert g in multiset(full) <==> g in multiset(gs);
    }
    forall l ensures l in Labels(full) <==> l in Labels(gs) {
      NamedBy(full, l);
      NamedBy(gs, l);
    }
    assert (set l | l in Labels(full)) == (set l | l in Labels(gs));
    DistinctSize(Labels(gs));
    SizeDistinct(Labels(full));
    forall i | 0 <= i < |full| ensures Tells(ps, exact, full[i]) {
      assert full[i] in gs;
    }
  }

  lemma NamedBy(gs: seq<Group>, l: Label)
    ensures l in Labels(gs) <==> exists g :: g in gs && g.name == l
  {
    if l in Labels(gs) {
      var i :| 0 <= i < |gs| && Labels(gs)[i] == l;
      assert gs[i] in gs;
    }
    if g :| g in gs && g.name == l {
      var i :| 0 <= i < |gs| && gs[i] == g;
      assert Labels(gs)[i] == l;
    }
  }

  function ExactOnes(gs: seq<Group>, n: nat): nat
    requires n <= |gs|
  {
    if n == 0 then 0 else ExactOnes(gs, n - 1) + if gs[n - 1].exact then 1 else 0
  }

  /** The exact groups among the first `n` are as many as the labels they have. */
  lemma {:induction false} ExactLabels(gs: seq<Group>, n: nat, names: set<Label>)
    requires n <= |gs| && Distinct(Labels(gs))
    requires forall l :: l in names <==> exists i :: 0 <= i < n && gs[i].exact && gs[i].name == l
    ensures ExactOnes(gs, n) == |names|
  {
    if n == 0 {
      assert names == {};
    } else {
      var g := gs[n - 1];
      forall i | 0 <= i < n - 1 ensures gs[i].name != g.name {
        assert Labels(gs)[i] != Labels(gs)[n - 1];
      }
      if g.exact {
        assert g.name in names;
        ExactLabels(gs, n - 1, names - {g.name});
      } else {
        ExactLabels(gs, n - 1, names);
      }
    }
  }

  /** Every cgroup figure shows up in exactly one group. */
  lemma ExactTotal(ps: seq<Process>, exact: map<Label, real>, gs: seq<Group>, labels: set<Label>)
    requires Lists(ps, exact, gs, labels) && exact.Keys <= labels
    ensures ExactOnes(gs, |gs|) == |exact|
  {
    forall l ensures l in exact.Keys <==> exists i :: 0 <= i < |gs| && gs[i].exact && gs[i].name == l {
      if l in exact.Keys {
        assert l in Labels(gs);
        var i :| 0 <= i < |gs| && Labels(gs)[i] == l;
        assert Tells(ps, exact, gs[i]);
        assert gs[i].exact && gs[i].name == l;
      }
      if i :| 0 <= i < |gs| && gs[i].exact && gs[i].name == l {
        assert Tells(ps, exact, gs[i]);
      }
    }
    ExactLabels(gs, |gs|, exact.Keys);
  }

  ghost function ProcessesIn(gs: seq<Group>, n: nat): nat
    requires n <= |gs|
  {
    if n == 0 then 0 else ProcessesIn(gs, n - 1) + gs[n - 1].processes
  }

  lemma {:induction false} ProcessesAreSums(ps: seq<Process>, exact: map<Label, real>, gs: seq<Group>, n: nat)
    requires n <= |gs| && forall i :: 0 <= i < |gs| ==> Tells(ps, exact, gs[i])
    ensures ProcessesIn(gs, n) == AllSums(Ones(ps), |ps|, Labels(gs), n)
  {
    if n > 0 {
      ProcessesAreSums(ps, exact, gs, n - 1);
      assert Tells(ps, exact, gs[n - 1]);
    }
  }

  lemma {:induction false} OnesTotal(ps: seq<Process>, i: nat)
    requires i <= |ps|
    ensures TotalTo(Ones(ps), i) == i
  {
    if i > 0 {
      OnesTotal(ps, i - 1);
    }
  }

  ghost function ServiceNames(ps: seq<Process>): set<Label> {
    set i | 0 <= i < |ps| :: ps[i].service
  }

  /** Every process is counted in exactly one group. */
  lemma ProcessesConserved(ps: seq<Process>, exact: map<Label, real>, gs: seq<Group>, labels: set<Label>)
    requires Lists(ps, exact, gs, labels) && ServiceNames(ps) <= labels
    ensures ProcessesIn(gs, |gs|) == |ps|
  {
    forall j | 0 <= j < |ps| ensures Ones(ps)[j].name in Labels(gs) {
      assert ps[j].service in ServiceNames(ps);
    }
    ProcessesAreSums(ps, exact, gs, |gs|);
    SumsAddUp(Ones(ps), |ps|, Labels(gs));
    OnesTotal(ps, |ps|);
  }

  lemma GroupedNames(ps: seq<Process>, groups: map<Label, Acc>)
    requires Grouped(ps, |ps|, groups)
    ensures groups.Keys == ServiceNames(ps)
  {
    forall l ensures l in groups.Keys <==> l in ServiceNames(ps) {
      SumHasSource(ps, |ps|, l);
      SumPositive(Ones(ps), |ps|, l);
      if j :| 0 <= j < |ps| && Ones(ps)[j].name == l {
        assert ps[j].service == l;
      }
      if l in ServiceNames(ps) {
        var j :| 0 <= j < |ps| && ps[j].service == l;
        assert Ones(ps)[j].name == l;
      }
    }
  }

  /** One group per service that has processes, with the exact figure in place of the sampled one where there is one. */
  method FromProcesses(ghost ps: seq<Process>, exact: map<Label, real>, groups: map<Label, Acc>)
    returns (services: seq<Group>)
    requires Grouped(ps, |ps|, groups)
    ensures Lists(ps, exact, services, groups.Keys)
  {
    services := [];
    var left := groups.Keys;
    while left != {}
      invariant left <= groups.Keys && Lists(ps, exact, services, groups.Keys - left)
      decreases left
    {
      var l :| l in left;
      var a := groups[l];
      var g := Group(l, a.source, a.count, AtLeastZero(if l in exact then exact[l] else a.cpu), l in exact, a.rss);
      GroupTells(ps, exact, groups, l, g);
      ListsMore(ps, exact, services, groups.Keys - left, g);
      services := services + [g];
      assert groups.Keys - left + {l} == groups.Keys - (left - {l});
      left := left - {l};
    }
    assert groups.Keys - {} == groups.Keys;
  }

  /** Adds the services that only the cgroups know. */
  method WithExited(ghost ps: seq<Process>, exact: map<Label, real>, services0: seq<Group>, ghost names: set<Label>)
    returns (services: seq<Group>)
    requires names == ServiceNames(ps) && Lists(ps, exact, services0, names)
    ensures Lists(ps, exact, services, names + exact.Keys)
  {
    services := services0;
    var left := exact.Keys;
    assert names + (exact.Keys - left) == names;
    while left != {}
      invariant left <= exact.Keys && Lists(ps, exact, services, names + (exact.Keys - left))
      decreases left
    {
      var l :| l in left;
      ghost var known := names + (exact.Keys - left);
      NamedBy(services, l);
      if !exists g :: g in services && g.name == l {
        var g := Group(l, "cgroup", 0, exact[l], true, 0);
        ExitedTells(ps, exact, l);
        ListsMore(ps, exact, services, known, g);
        services := services + [g];
        assert known + {l} == names + (exact.Keys - (left - {l}));
      } else {
        assert l in known;
        assert known == names + (exact.Keys - (left - {l}));
      }
      left := left - {l};
    }
    assert exact.Keys - {} == exact.Keys;
  }

  lemma ExitedTells(ps: seq<Process>, exact: map<Label, real>, l: Label)
    requires l in exact && l !in ServiceNames(ps)
    ensures Tells(ps, exact, Group(l, "cgroup", 0, exact[l], true, 0))
  {
    forall j | 0 <= j < |ps| ensures ps[j].service != l {
    }
    NoneFiled(Ones(ps), |ps|, l);
    NoneFiled(Memory(ps), |ps|, l);
  }

  lemma {:induction false} NoneFiled(s: seq<Entry>, i: nat, l: Label)
    requires i <= |s| && forall j :: 0 <= j < |s| ==> s[j].name != l
    ensures SumTo(s, i, l) == 0
  {
    if i > 0 {
      NoneFiled(s, i - 1, l);
    }
  }

  /**
   The services with the most CPU time, and how many there are in all and with an exact figure.
   `full` is the whole list, before it is cut.
   */
  method BuildServices(ps: seq<Process>, exact: map<Label, real>, nameLe: (Label, Label) -> bool, top: nat)
    returns (services: seq<Group>, total: nat, exactTotal: nat, ghost full: seq<Group>)
    requires TotalPreorder(nameLe)
    ensures Lists(ps, exact, full, ServiceNames(ps) + exact.Keys)
    ensures InRank(full, nameLe) && services <= full && |services| == if top < |full| then top else |full|
    ensures total == |ServiceNames(ps) + exact.Keys| && exactTotal == |exact|
    ensures ProcessesIn(full, |full|) == |ps|
  {
    var groups := GroupProcesses(ps);
    GroupedNames(ps, groups);
    var list := FromProcesses(ps, exact, groups);
    list := WithExited(ps, exact, list, ServiceNames(ps));
    var sorted := Ranked(list, nameLe);
    FullList(ps, exact, list, sorted);
    full := sorted;
    total := |sorted|;
    exactTotal := ExactOnes(sorted, |sorted|);
    services := Take(sorted, top);
  }

  /** What the whole list amounts to. */
  lemma FullList(ps: seq<Process>, exact: map<Label, real>, list: seq<Group>, full: seq<Group>)
    requires Lists(ps, exact, list, ServiceNames(ps) + exact.Keys)
    requires multiset(full) == multiset(list) && |full| == |list|
    ensures Lists(ps, exact, full, ServiceNames(ps) + exact.Keys)
    ensures |full| == |ServiceNames(ps) + exact.Keys| && ExactOnes(full, |full|) == |exact|
    ensures ProcessesIn(full, |full|) == |ps|
  {
    var labels := ServiceNames(ps) + exact.Keys;
    ListsPermuted(ps, exact, list, labels, full);
    assert (set l | l in Labels(full)) == labels;
    DistinctSize(Labels(full));
    ExactTotal(ps, exact, full, labels);
    ProcessesConserved(ps, exact, full, labels);
  }
}
