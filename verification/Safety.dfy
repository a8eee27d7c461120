/** Redacting a JSON report in place, and the scanner that checks a report on its way out. */
module SafetyPolicy {
  import opened Basics

  /** A rule and the texts its pattern matches. */
  datatype Rule = Rule(id: string, matches: string -> bool)

  datatype Policy = Policy(valueRules: seq<Rule>, keyRules: seq<Rule>)

  datatype Value =
    | Scalar(n: int) // null, booleans and numbers: never looked at
    | Text(text: string)
    | Array(items: seq<Value>)
    | Object(fields: seq<Field>)

  datatype Field = Field(key: string, value: Value)

  datatype Step = Index(i: nat) | Key(key: string)

  datatype Child = Child(step: Step, value: Value)

  /** What the scanner reports: a text that matches, or a key that must not occur. */
  datatype Hit = OfValue(path: seq<Step>, rule: string) | OfKey(path: seq<Step>, rule: string)

  const NULL := Scalar(0)

  /** The id of the first rule that matches. */
  function First(rules: seq<Rule>, text: string): Option<string> {
    if rules == [] then None
    else if rules[0].matches(text) then Some(rules[0].id)
    else First(rules[1..], text)
  }

  /** The `j`-th rule is the first that matches. */
  ghost predicate FirstMatch(rules: seq<Rule>, text: string, j: nat) {
    j < |rules| && rules[j].matches(text) && forall i :: 0 <= i < j ==> !rules[i].matches(text)
  }

  /** The first rule that matches has this id. */
  ghost predicate Caught(rules: seq<Rule>, text: string, id: string) {
    exists j: nat :: FirstMatch(rules, text, j) && rules[j].id == id
  }

  ghost predicate Matched(rules: seq<Rule>, text: string) {
    exists j :: 0 <= j < |rules| && rules[j].matches(text)
  }

  lemma {:induction false} FirstFinds(rules: seq<Rule>, text: string, id: string)
    ensures First(rules, text) == Some(id) <==> Caught(rules, text, id)
    ensures First(rules, text).Some? <==> Matched(rules, text)
  {
    if rules != [] {
      FirstFinds(rules[1..], text, id);
      if rules[0].matches(text) {
        assert FirstMatch(rules, text, 0);
        assert forall j: nat :: FirstMatch(rules, text, j) ==> j == 0;
      } else {
        forall j: nat | j < |rules[1..]| ensures FirstMatch(rules, text, j + 1) <==> FirstMatch(rules[1..], text, j) {
          assert forall i :: 0 <= i < j ==> rules[1..][i] == rules[i + 1];
        }
        assert forall j :: 0 < j < |rules| ==> rules[j] == rules[1..][j - 1];
        if Caught(rules, text, id) {
          var j: nat :| FirstMatch(rules, text, j) && rules[j].id == id;
          assert FirstMatch(rules[1..], text, j - 1);
        }
        if Caught(rules[1..], text, id) {
          var j: nat :| FirstMatch(rules[1..], text, j) && rules[1..][j].id == id;
          assert FirstMatch(rules, text, j + 1);
        }
      }
    }
  }

  function Marker(id: string): string {
    "[redacted:" + id + "]"
  }

  lemma MarkerInjective(a: string, b: string)
    requires Marker(a) == Marker(b)
    ensures a == b
  {
    var n := |"[redacted:"|;
    assert a == Marker(a)[n..|Marker(a)| - 1];
    assert b == Marker(b)[n..|Marker(b)| - 1];
  }

  function ValueRule(p: Policy, text: string): Option<string> {
    First(p.valueRules, text)
  }

  function KeyRule(p: Policy, step: Step): Option<string> {
    if step.Key? then First(p.keyRules, step.key) else None
  }

  function Kids(v: Value): (r: seq<Child>)
    ensures forall i :: 0 <= i < |r| ==> (v decreases to r[i].value)
  {
    match v
    case Array(items) => seq(|items|, i requires 0 <= i < |items| => Child(Index(i), items[i]))
    case Object(fields) => seq(|fields|, i requires 0 <= i < |fields| => Child(Key(fields[i].key), fields[i].value))
    case _ => []
  }

  // ----- the scanner -----------------------------------------------------------------------------------

  function TextHits(p: Policy, v: Value, path: seq<Step>): seq<Hit> {
    if v.Text? && ValueRule(p, v.text).Some? then [OfValue(path, ValueRule(p, v.text).value)] else []
  }

  function KeyHits(p: Policy, step: Step, path: seq<Step>): seq<Hit> {
    if KeyRule(p, step).Some? then [OfKey(path + [step], KeyRule(p, step).value)] else []
  }

  function Scan(p: Policy, v: Value, path: seq<Step>): seq<Hit>
    decreases v, |Kids(v)| + 1
  {
    TextHits(p, v, path) + ScanFrom(p, v, 0, path)
  }

  function ScanFrom(p: Policy, v: Value, i: nat, path: seq<Step>): seq<Hit>
    requires i <= |Kids(v)|
    decreases v, |Kids(v)| - i
  {
    if i == |Kids(v)| then []
    else
      var c := Kids(v)[i];
      KeyHits(p, c.step, path) + Scan(p, c.value, path + [c.step]) + ScanFrom(p, v, i + 1, path)
  }

  // ----- redaction -------------------------------------------------------------------------------------

  /** The redacted tree. */
  function Clean(p: Policy, v: Value): Value {
    match v
    case Scalar(_) => v
    case Text(t) => if ValueRule(p, t).Some? then Text(Marker(ValueRule(p, t).value)) else v
    case Array(items) => Array(seq(|items|, i requires 0 <= i < |items| => Clean(p, items[i])))
    case Object(fields) =>
      Object(seq(|fields|, i requires 0 <= i < |fields| =>
        var f := fields[i];
        var rule := KeyRule(p, Key(f.key));
        Field(f.key, if rule.Some? then Text(Marker(rule.value)) else Clean(p, f.value))))
  }

  function CleanKid(p: Policy, c: Child): Value {
    if KeyRule(p, c.step).Some? then Text(Marker(KeyRule(p, c.step).value)) else Clean(p, c.value)
  }

  /** The tree with everything under a forbidden key taken out: what there is to redact. */
  function Blank(p: Policy, v: Value): Value {
    match v
    case Scalar(_) => v
    case Text(t) => v
    case Array(items) => Array(seq(|items|, i requires 0 <= i < |items| => Blank(p, items[i])))
    case Object(fields) =>
      Object(seq(|fields|, i requires 0 <= i < |fields| =>
        var f := fields[i];
        Field(f.key, if KeyRule(p, Key(f.key)).Some? then NULL else Blank(p, f.value))))
  }

  function BlankKid(p: Policy, c: Child): Value {
    if KeyRule(p, c.step).Some? then NULL else Blank(p, c.value)
  }

  lemma CleanKids(p: Policy, v: Value)
    ensures |Kids(Clean(p, v))| == |Kids(v)|
    ensures forall i :: 0 <= i < |Kids(v)| ==> Kids(Clean(p, v))[i] == Child(Kids(v)[i].step, CleanKid(p, Kids(v)[i]))
  {
  }

  lemma BlankKids(p: Policy, v: Value)
    ensures |Kids(Blank(p, v))| == |Kids(v)|
    ensures forall i :: 0 <= i < |Kids(v)| ==> Kids(Blank(p, v))[i] == Child(Kids(v)[i].step, BlankKid(p, Kids(v)[i]))
  {
  }
}

module Safety {
  import opened Basics
  import opened SafetyPolicy

  // ----- what a scan says after redaction --------------------------------------------------------------

  function MarkerHits(p: Policy, id: string, path: seq<Step>): seq<Hit> {
    TextHits(p, Text(Marker(id)), path)
  }

  /** A replaced text shows up again only if its marker matches a rule; a forbidden key always does. */
  function SeenAgain(p: Policy, h: Hit): seq<Hit> {
    (if h.OfKey? then [h] else []) + MarkerHits(p, h.rule, h.path)
  }

  function AllSeenAgain(p: Policy, hits: seq<Hit>): seq<Hit> {
    if hits == [] then [] else SeenAgain(p, hits[0]) + AllSeenAgain(p, hits[1..])
  }

  lemma {:induction false} AllSeenAgainConcat(p: Policy, a: seq<Hit>, b: seq<Hit>)
    ensures AllSeenAgain(p, a + b) == AllSeenAgain(p, a) + AllSeenAgain(p, b)
  {
    if a == [] {
      assert a + b == b;
    } else {
      assert (a + b)[1..] == a[1..] + b;
      AllSeenAgainConcat(p, a[1..], b);
    }
  }

  lemma AllSeenAgainOne(p: Policy, h: Hit)
    ensures AllSeenAgain(p, [h]) == SeenAgain(p, h)
  {
    assert AllSeenAgain(p, []) == [];
  }

  lemma LeafScan(p: Policy, v: Value, path: seq<Step>)
    requires v.Text? || v.Scalar?
    ensures Scan(p, v, path) == TextHits(p, v, path)
  {
  }

  /** The scan of the redacted tree is decided, hit by hit, by what there was to redact. */
  lemma {:induction false} ScanAfterClean(p: Policy, v: Value, path: seq<Step>)
    ensures Scan(p, Clean(p, v), path) == AllSeenAgain(p, Scan(p, Blank(p, v), path))
    decreases v, |Kids(v)| + 1
  {
    if v.Text? {
      LeafScan(p, v, path);
      LeafScan(p, Clean(p, v), path);
      if ValueRule(p, v.text).Some? {
        AllSeenAgainOne(p, OfValue(path, ValueRule(p, v.text).value));
      }
    } else {
      CleanKids(p, v);
      BlankKids(p, v);
      ScanFromAfterClean(p, v, 0, path);
      assert Scan(p, Blank(p, v), path) == ScanFrom(p, Blank(p, v), 0, path);
      assert Scan(p, Clean(p, v), path) == ScanFrom(p, Clean(p, v), 0, path);
    }
  }

  lemma {:induction false} ScanFromAfterClean(p: Policy, v: Value, i: nat, path: seq<Step>)
    requires i <= |Kids(v)| == |Kids(Clean(p, v))| == |Kids(Blank(p, v))|
    ensures ScanFrom(p, Clean(p, v), i, path) == AllSeenAgain(p, ScanFrom(p, Blank(p, v), i, path))
    decreases v, |Kids(v)| - i
  {
    if i < |Kids(v)| {
      CleanKids(p, v);
      BlankKids(p, v);
      var c := Kids(v)[i];
      var rest := ScanFrom(p, Blank(p, v), i + 1, path);
      ScanFromAfterClean(p, v, i + 1, path);
      KidAfterClean(p, v, i, path);
      AllSeenAgainConcat(p, KeyHits(p, c.step, path) + Scan(p, BlankKid(p, c), path + [c.step]), rest);
    }
  }

  lemma {:induction false} KidAfterClean(p: Policy, v: Value, i: nat, path: seq<Step>)
    requires i < |Kids(v)|
    ensures var c := Kids(v)[i];
            AllSeenAgain(p, KeyHits(p, c.step, path) + Scan(p, BlankKid(p, c), path + [c.step])) ==
            KeyHits(p, c.step, path) + Scan(p, CleanKid(p, c), path + [c.step])
    decreases v, 0
  {
    var c := Kids(v)[i];
    var q := path + [c.step];
    if KeyRule(p, c.step).Some? {
      LeafScan(p, CleanKid(p, c), q);
      LeafScan(p, NULL, q);
      assert KeyHits(p, c.step, path) + Scan(p, NULL, q) == KeyHits(p, c.step, path);
      AllSeenAgainOne(p, OfKey(q, KeyRule(p, c.step).value));
    } else {
      ScanAfterClean(p, c.value, q);
      assert KeyHits(p, c.step, path) + Scan(p, BlankKid(p, c), q) == Scan(p, BlankKid(p, c), q);
      assert KeyHits(p, c.step, path) + Scan(p, CleanKid(p, c), q) == Scan(p, CleanKid(p, c), q);
    }
  }

  ghost predicate OnlyKeys(hits: seq<Hit>) {
    forall i :: 0 <= i < |hits| ==> hits[i].OfKey?
  }

  /** None of the markers put in for these hits matches a value rule. */
  ghost predicate MarkersPass(p: Policy, hits: seq<Hit>) {
    forall i :: 0 <= i < |hits| ==> ValueRule(p, Marker(hits[i].rule)) == None
  }

  lemma OnlyKeysConcat(a: seq<Hit>, b: seq<Hit>)
    ensures OnlyKeys(a + b) <==> OnlyKeys(a) && OnlyKeys(b)
  {
    assert forall i :: 0 <= i < |a| ==> (a + b)[i] == a[i];
    assert forall i :: 0 <= i < |b| ==> (a + b)[|a| + i] == b[i];
  }

  lemma {:induction false} OnlyKeysLeft(p: Policy, hits: seq<Hit>)
    ensures OnlyKeys(AllSeenAgain(p, hits)) <==> MarkersPass(p, hits)
  {
    if hits != [] {
      var h, rest := hits[0], hits[1..];
      OnlyKeysLeft(p, rest);
      var a, b := SeenAgain(p, h), AllSeenAgain(p, rest);
      OnlyKeysConcat(a, b);
      assert OnlyKeys(a) <==> ValueRule(p, Marker(h.rule)) == None by {
        if ValueRule(p, Marker(h.rule)).Some? {
          assert a[|a| - 1].OfValue?;
        }
      }
      assert forall i :: 0 <= i < |rest| ==> hits[i + 1] == rest[i];
    }
  }

  /**
   After redaction the scanner reports key names only, exactly when no marker that was put in matches a value rule.
   */
  lemma CleanPassesScan(p: Policy, v: Value, path: seq<Step>)
    ensures OnlyKeys(Scan(p, Clean(p, v), path)) <==> MarkersPass(p, Scan(p, Blank(p, v), path))
  {
    ScanAfterClean(p, v, path);
    OnlyKeysLeft(p, Scan(p, Blank(p, v), path));
  }

  /** A policy whose rule matches its own marker: the redacted report still has a value hit. */
  lemma MarkerCaught()
    ensures var p := Policy([Rule("secret", t => true)], []);
            !OnlyKeys(Scan(p, Clean(p, Text("x")), []))
  {
    var p := Policy([Rule("secret", t => true)], []);
    LeafScan(p, Clean(p, Text("x")), []);
    assert Scan(p, Clean(p, Text("x")), []) == [OfValue([], "secret")];
    assert Scan(p, Clean(p, Text("x")), [])[0].OfValue?;
  }

  // ----- redacting twice -------------------------------------------------------------------------------

  /** Every text replaced under a rule has a marker that no rule, or the same rule, matches. */
  ghost predicate Settled(p: Policy, hits: seq<Hit>) {
    forall i :: 0 <= i < |hits| && hits[i].OfValue? ==>
      ValueRule(p, Marker(hits[i].rule)) == None || ValueRule(p, Marker(hits[i].rule)) == Some(hits[i].rule)
  }

  lemma SettledConcat(p: Policy, a: seq<Hit>, b: seq<Hit>)
    ensures Settled(p, a + b) <==> Settled(p, a) && Settled(p, b)
  {
    assert forall i :: 0 <= i < |a| ==> (a + b)[i] == a[i];
    assert forall i :: 0 <= i < |b| ==> (a + b)[|a| + i] == b[i];
  }

  lemma SettledOne(p: Policy, h: Hit)
    ensures Settled(p, [h]) <==>
            (h.OfValue? ==> ValueRule(p, Marker(h.rule)) == None || ValueRule(p, Marker(h.rule)) == Some(h.rule))
  {
    assert [h][0] == h;
  }

  /** The children from the i-th on do not change when the redacted tree is redacted again. */
  ghost predicate SameFrom(p: Policy, v: Value, i: nat) {
    forall j :: i <= j < |Kids(v)| ==> KidSame(p, Kids(v)[j])
  }

  ghost predicate KidSame(p: Policy, c: Child) {
    CleanKid(p, Child(c.step, CleanKid(p, c))) == CleanKid(p, c)
  }

  lemma SameKids(p: Policy, v: Value)
    requires v.Array? || v.Object?
    ensures Clean(p, Clean(p, v)) == Clean(p, v) <==> SameFrom(p, v, 0)
  {
    var w := Clean(p, v);
    CleanKids(p, v);
    CleanKids(p, w);
    if SameFrom(p, v, 0) {
      forall j | 0 <= j < |Kids(v)| ensures Kids(Clean(p, w))[j] == Kids(w)[j] {
        assert KidSame(p, Kids(v)[j]);
      }
      SameTree(Clean(p, w), w);
    } else if Clean(p, w) == w {
      forall j | 0 <= j < |Kids(v)| ensures KidSame(p, Kids(v)[j]) {
        assert Kids(Clean(p, w))[j] == Kids(w)[j];
      }
    }
  }

  lemma SameTree(a: Value, b: Value)
    requires (a.Array? && b.Array?) || (a.Object? && b.Object?)
    requires |Kids(a)| == |Kids(b)| && forall j :: 0 <= j < |Kids(a)| ==> Kids(a)[j] == Kids(b)[j]
    ensures a == b
  {
    if a.Array? {
      forall j | 0 <= j < |a.items| ensures a.items[j] == b.items[j] {
        assert Kids(a)[j] == Kids(b)[j];
      }
    } else {
      forall j | 0 <= j < |a.fields| ensures a.fields[j] == b.fields[j] {
        assert Kids(a)[j] == Kids(b)[j];
      }
    }
  }

  /** Redacting again changes nothing, exactly when every replaced text settled. */
  lemma {:induction false} CleanTwice(p: Policy, v: Value, path: seq<Step>)
    ensures Clean(p, Clean(p, v)) == Clean(p, v) <==> Settled(p, Scan(p, Blank(p, v), path))
    decreases v, |Kids(v)| + 1
  {
    match v
    case Scalar(_) =>
      LeafScan(p, v, path);
    case Text(t) =>
      LeafScan(p, v, path);
      if ValueRule(p, t).Some? {
        var id := ValueRule(p, t).value;
        assert Scan(p, v, path) == [OfValue(path, id)];
        SettledOne(p, OfValue(path, id));
        if ValueRule(p, Marker(id)).Some? && Marker(ValueRule(p, Marker(id)).value) == Marker(id) {
          MarkerInjective(ValueRule(p, Marker(id)).value, id);
        }
      }
    case _ =>
      SameKids(p, v);
      BlankKids(p, v);
      FromTwice(p, v, 0, path);
      assert Scan(p, Blank(p, v), path) == ScanFrom(p, Blank(p, v), 0, path);
  }

  lemma {:induction false} FromTwice(p: Policy, v: Value, i: nat, path: seq<Step>)
    requires i <= |Kids(v)| == |Kids(Blank(p, v))|
    ensures SameFrom(p, v, i) <==> Settled(p, ScanFrom(p, Blank(p, v), i, path))
    decreases v, |Kids(v)| - i
  {
    if i < |Kids(v)| {
      BlankKids(p, v);
      var c := Kids(v)[i];
      var head := KeyHits(p, c.step, path) + Scan(p, BlankKid(p, c), path + [c.step]);
      var rest := ScanFrom(p, Blank(p, v), i + 1, path);
      FromTwice(p, v, i + 1, path);
      KidTwice(p, v, i, path);
      SettledConcat(p, head, rest);
      SameFromStep(p, v, i);
    }
  }

  lemma SameFromStep(p: Policy, v: Value, i: nat)
    requires i < |Kids(v)|
    ensures SameFrom(p, v, i) <==> KidSame(p, Kids(v)[i]) && SameFrom(p, v, i + 1)
  {
  }

  lemma {:induction false} KidTwice(p: Policy, v: Value, i: nat, path: seq<Step>)
    requires i < |Kids(v)|
    ensures var c := Kids(v)[i];
            KidSame(p, c) <==> Settled(p, KeyHits(p, c.step, path) + Scan(p, BlankKid(p, c), path + [c.step]))
    decreases v, 0
  {
    var c := Kids(v)[i];
    var q := path + [c.step];
    SettledConcat(p, KeyHits(p, c.step, path), Scan(p, BlankKid(p, c), q));
    if KeyRule(p, c.step).Some? {
      LeafScan(p, NULL, q);
      SettledOne(p, OfKey(q, KeyRule(p, c.step).value));
    } else {
      CleanTwice(p, c.value, q);
    }
  }

  /** A policy with one rule that matches what another leaves behind: the second pass puts a different marker. */
  lemma SecondPassChanges()
    ensures var p := Policy([Rule("a", t => t == "x"), Rule("b", t => t == Marker("a"))], []);
            Clean(p, Text("x")) == Text(Marker("a")) && Clean(p, Clean(p, Text("x"))) == Text(Marker("b"))
    ensures Marker("a") != Marker("b")
  {
    var a, b := Rule("a", t => t == "x"), Rule("b", t => t == Marker("a"));
    var p := Policy([a, b], []);
    assert p.valueRules[1..] == [b];
    assert First([b], Marker("a")) == Some("b");
    assert |Marker("a")| > |"x"|;
    if Marker("a") == Marker("b") {
      MarkerInjective("a", "b");
    }
  }

  // ----- what redaction leaves alone -------------------------------------------------------------------

  /** The value at a position, given as child numbers from the root down. */
  function At(v: Value, where: seq<nat>): Option<Value> {
    if where == [] then Some(v)
    else
      match v
      case Array(items) => if where[0] < |items| then At(items[where[0]], where[1..]) else None
      case Object(fields) => if where[0] < |fields| then At(fields[where[0]].value, where[1..]) else None
      case _ => None
  }

  lemma AtKid(v: Value, where: seq<nat>)
    requires where != []
    ensures At(v, where) == if where[0] < |Kids(v)| then At(Kids(v)[where[0]].value, where[1..]) else None
  {
  }

  /** The first forbidden key on the way to a position: its rule, and how much of the way is left below it. */
  function Forbidden(p: Policy, v: Value, where: seq<nat>): Option<(string, nat)> {
    if where == [] || where[0] >= |Kids(v)| then None
    else
      var c := Kids(v)[where[0]];
      if KeyRule(p, c.step).Some? then Some((KeyRule(p, c.step).value, |where| - 1))
      else Forbidden(p, c.value, where[1..])
  }

  /** Every position of the redacted tree, in terms of the original. */
  lemma {:induction false} CleanAt(p: Policy, v: Value, where: seq<nat>)
    ensures At(Clean(p, v), where) ==
            match Forbidden(p, v, where)
            case Some((rule, left)) => if left == 0 then Some(Text(Marker(rule))) else None
            case None => if At(v, where).Some? then Some(Clean(p, At(v, where).value)) else None
    decreases |where|
  {
    if where != [] {
      CleanKids(p, v);
      AtKid(v, where);
      AtKid(Clean(p, v), where);
      if where[0] < |Kids(v)| {
        var c := Kids(v)[where[0]];
        if KeyRule(p, c.step).None? {
          CleanAt(p, c.value, where[1..]);
        }
      }
    }
  }

  /** A leaf that no rule concerns stays what it is, where it is. */
  lemma LeafUntouched(p: Policy, v: Value, where: seq<nat>)
    requires At(v, where).Some? && Forbidden(p, v, where).None?
    requires var leaf := At(v, where).value; leaf.Scalar? || (leaf.Text? && ValueRule(p, leaf.text).None?)
    ensures At(Clean(p, v), where) == At(v, where)
  {
    CleanAt(p, v, where);
  }

  // ----- redaction and scan, rule by rule --------------------------------------------------------------

  /**
   `w` is `v` with every text that a value rule matches, and everything under a key that a key rule matches, replaced
   by the marker of the first such rule, and nothing else changed.
   */
  ghost predicate Redacted(p: Policy, v: Value, w: Value) {
    match v
    case Scalar(_) => w == v
    case Text(t) => Masked(p.valueRules, t, w) || (w == v && !Matched(p.valueRules, t))
    case Array(items) =>
      && w.Array? && |w.items| == |items|
      && forall i :: 0 <= i < |items| ==> Redacted(p, items[i], w.items[i])
    case Object(fields) =>
      && w.Object? && |w.fields| == |fields|
      && forall i :: 0 <= i < |fields| ==>
           && w.fields[i].key == fields[i].key
           && (|| Masked(p.keyRules, fields[i].key, w.fields[i].value)
               || (!Matched(p.keyRules, fields[i].key) && Redacted(p, fields[i].value, w.fields[i].value)))
  }

  /** `w` is the marker of the first rule that matches. */
  ghost predicate Masked(rules: seq<Rule>, text: string, w: Value) {
    exists j: nat :: FirstMatch(rules, text, j) && w == Text("[redacted:" + rules[j].id + "]")
  }

  lemma MaskedFirst(rules: seq<Rule>, text: string, w: Value)
    ensures Matched(rules, text) <==> First(rules, text).Some?
    ensures Masked(rules, text, w) <==> First(rules, text).Some? && w == Text(Marker(First(rules, text).value))
  {
    FirstFinds(rules, text, if First(rules, text).Some? then First(rules, text).value else "");
    forall j: nat | FirstMatch(rules, text, j) ensures First(rules, text) == Some(rules[j].id) {
      FirstFinds(rules, text, rules[j].id);
    }
  }

  /** Redaction is determined by that, and does it. */
  lemma {:induction false} CleanRedacts(p: Policy, v: Value, w: Value)
    ensures Redacted(p, v, w) <==> w == Clean(p, v)
    decreases v
  {
    match v
    case Scalar(_) =>
    case Text(t) => MaskedFirst(p.valueRules, t, w);
    case Array(items) =>
      if w.Array? && |w.items| == |items| {
        forall i | 0 <= i < |items| ensures Redacted(p, items[i], w.items[i]) <==> w.items[i] == Clean(p, v).items[i] {
          CleanRedacts(p, items[i], w.items[i]);
        }
      }
    case Object(fields) =>
      if w.Object? && |w.fields| == |fields| {
        forall i | 0 <= i < |fields|
          ensures w.fields[i] == Clean(p, v).fields[i] <==>
                  && w.fields[i].key == fields[i].key
                  && (|| Masked(p.keyRules, fields[i].key, w.fields[i].value)
                      || (!Matched(p.keyRules, fields[i].key) && Redacted(p, fields[i].value, w.fields[i].value)))
        {
          MaskedFirst(p.keyRules, fields[i].key, w.fields[i].value);
          CleanRedacts(p, fields[i].value, w.fields[i].value);
        }
      }
  }

  /** How many texts and fields there are to replace; what lies under a replaced field does not count. */
  ghost function Marks(p: Policy, v: Value): nat
    decreases v, 1, 0
  {
    match v
    case Scalar(_) => 0
    case Text(t) => if Matched(p.valueRules, t) then 1 else 0
    case Array(items) => MarksFrom(p, v, 0)
    case Object(fields) => MarksFrom(p, v, 0)
  }

  ghost function MarksFrom(p: Policy, v: Value, i: nat): nat
    decreases v, 0, |Kids(v)| - i
  {
    match v
    case Array(items) => if i < |items| then Marks(p, items[i]) + MarksFrom(p, v, i + 1) else 0
    case Object(fields) =>
      if i < |fields| then
        (if Matched(p.keyRules, fields[i].key) then 1 else Marks(p, fields[i].value)) + MarksFrom(p, v, i + 1)
      else 0
    case _ => 0
  }

  lemma BlankStep(p: Policy, v: Value, i: nat, path: seq<Step>)
    requires i < |Kids(v)| == |Kids(Blank(p, v))|
    ensures var c := Kids(v)[i];
            |ScanFrom(p, Blank(p, v), i, path)| ==
            |KeyHits(p, c.step, path)| + |Scan(p, BlankKid(p, c), path + [c.step])|
            + |ScanFrom(p, Blank(p, v), i + 1, path)|
  {
    BlankKids(p, v);
  }

  ghost function KidMarks(p: Policy, c: Child): nat {
    if c.step.Key? && Matched(p.keyRules, c.step.key) then 1 else Marks(p, c.value)
  }

  lemma MarksKid(p: Policy, c: Child, path: seq<Step>)
    requires KeyRule(p, c.step).None? ==> |Scan(p, Blank(p, c.value), path + [c.step])| == Marks(p, c.value)
    ensures |KeyHits(p, c.step, path)| + |Scan(p, BlankKid(p, c), path + [c.step])| == KidMarks(p, c)
  {
    if c.step.Key? {
      MaskedFirst(p.keyRules, c.step.key, c.value);
    }
    if KeyRule(p, c.step).Some? {
      LeafScan(p, NULL, path + [c.step]);
    }
  }

  /** As many as the scanner finds once everything under forbidden keys is out. */
  lemma {:induction false} MarksScan(p: Policy, v: Value, path: seq<Step>)
    ensures |Scan(p, Blank(p, v), path)| == Marks(p, v)
    decreases v, 1, 0
  {
    BlankKids(p, v);
    match v
    case Scalar(_) => LeafScan(p, v, path);
    case Text(t) =>
      LeafScan(p, v, path);
      MaskedFirst(p.valueRules, t, v);
    case _ => MarksScanFrom(p, v, 0, path);
  }

  lemma MarksFromStep(p: Policy, v: Value, i: nat)
    requires i < |Kids(v)|
    ensures MarksFrom(p, v, i) == KidMarks(p, Kids(v)[i]) + MarksFrom(p, v, i + 1)
  {
  }

  lemma {:induction false} MarksScanFrom(p: Policy, v: Value, i: nat, path: seq<Step>)
    requires i <= |Kids(v)| == |Kids(Blank(p, v))| && (v.Array? || v.Object?)
    ensures |ScanFrom(p, Blank(p, v), i, path)| == MarksFrom(p, v, i)
    decreases v, 0, |Kids(v)| - i
  {
    if i < |Kids(v)| {
      MarksFromStep(p, v, i);
      var c := Kids(v)[i];
      hide *;
      BlankStep(p, v, i, path);
      MarksScanFrom(p, v, i + 1, path);
      if KeyRule(p, c.step).None? {
        MarksScan(p, c.value, path + [c.step]);
      }
      MarksKid(p, c, path);
    }
  }

  /** The steps from the root to a position. */
  ghost function StepsTo(v: Value, where: seq<nat>): (r: seq<Step>)
    requires At(v, where).Some?
    ensures |r| == |where|
    decreases |where|
  {
    if where == [] then []
    else
      match v
      case Array(items) => [Index(where[0])] + StepsTo(items[where[0]], where[1..])
      case Object(fields) => [Key(fields[where[0]].key)] + StepsTo(fields[where[0]].value, where[1..])
  }

  /** What the scanner has to say at a position below `path`: its text matches a value rule, or its key a key rule. */
  ghost predicate Reports(p: Policy, v: Value, path: seq<Step>, where: seq<nat>, h: Hit) {
    && At(v, where).Some? && h.path == path + StepsTo(v, where)
    && match h
       case OfValue(_, id) => At(v, where).value.Text? && Caught(p.valueRules, At(v, where).value.text, id)
       case OfKey(_, id) =>
         && where != [] && StepsTo(v, where)[|where| - 1].Key?
         && Caught(p.keyRules, StepsTo(v, where)[|where| - 1].key, id)
  }

  lemma ReportsHere(p: Policy, v: Value, path: seq<Step>, h: Hit)
    ensures Reports(p, v, path, [], h) <==> h in TextHits(p, v, path)
  {
    assert path + [] == path;
    if v.Text? {
      FirstFinds(p.valueRules, v.text, h.rule);
    }
  }

  lemma ReportsKid(p: Policy, v: Value, path: seq<Step>, where: seq<nat>, h: Hit)
    requires where != []
    ensures Reports(p, v, path, where, h) <==>
            && where[0] < |Kids(v)|
            && var c := Kids(v)[where[0]];
               || (|where| == 1 && h in KeyHits(p, c.step, path))
               || Reports(p, c.value, path + [c.step], where[1..], h)
  {
    AtKid(v, where);
    if where[0] < |Kids(v)| {
      var c := Kids(v)[where[0]];
      if At(v, where).Some? {
        assert StepsTo(v, where) == [c.step] + StepsTo(c.value, where[1..]);
        assert path + StepsTo(v, where) == path + [c.step] + StepsTo(c.value, where[1..]);
        if |where| == 1 {
          assert where[1..] == [] && path + StepsTo(v, where) == path + [c.step];
        } else {
          assert StepsTo(v, where)[|where| - 1] == StepsTo(c.value, where[1..])[|where| - 2];
        }
      }
      if c.step.Key? {
        FirstFinds(p.keyRules, c.step.key, h.rule);
      }
    }
  }

  /** There is something to report below the `i`-th child, or below some child from the `i`-th on. */
  ghost predicate ReportsAt(p: Policy, v: Value, i: nat, path: seq<Step>, h: Hit) {
    exists where: seq<nat> :: where != [] && where[0] == i && Reports(p, v, path, where, h)
  }

  ghost predicate ReportsFrom(p: Policy, v: Value, i: nat, path: seq<Step>, h: Hit) {
    exists where: seq<nat> :: where != [] && where[0] >= i && Reports(p, v, path, where, h)
  }

  ghost predicate ReportsBelow(p: Policy, v: Value, path: seq<Step>, h: Hit) {
    exists where: seq<nat> :: Reports(p, v, path, where, h)
  }

  lemma KidReports(p: Policy, v: Value, i: nat, path: seq<Step>, h: Hit)
    requires i < |Kids(v)|
    ensures var c := Kids(v)[i];
            ReportsAt(p, v, i, path, h) <==>
            h in KeyHits(p, c.step, path) || ReportsBelow(p, c.value, path + [c.step], h)
  {
    var c := Kids(v)[i];
    hide Reports, KeyHits;
    if h in KeyHits(p, c.step, path) {
      ReportsKid(p, v, path, [i], h);
      assert Reports(p, v, path, [i], h);
    }
    if below: seq<nat> :| Reports(p, c.value, path + [c.step], below, h) {
      assert ([i] + below)[1..] == below;
      ReportsKid(p, v, path, [i] + below, h);
      assert Reports(p, v, path, [i] + below, h);
    }
    if where: seq<nat> :| where != [] && where[0] == i && Reports(p, v, path, where, h) {
      ReportsKid(p, v, path, where, h);
    }
  }

  lemma PastTheLast(p: Policy, v: Value, i: nat, path: seq<Step>, h: Hit)
    requires i >= |Kids(v)|
    ensures !ReportsFrom(p, v, i, path, h)
  {
    if where: seq<nat> :| where != [] && where[0] >= i && Reports(p, v, path, where, h) {
      ReportsKid(p, v, path, where, h);
    }
  }

  /** The scan reports exactly what there is to report, position by position. */
  lemma {:induction false} ScanReports(p: Policy, v: Value, path: seq<Step>, h: Hit)
    ensures h in Scan(p, v, path) <==> ReportsBelow(p, v, path, h)
    decreases v, |Kids(v)| + 1
  {
    ReportsHere(p, v, path, h);
    ScanFromReports(p, v, 0, path, h);
    hide Reports, TextHits, ScanFrom;
    if where: seq<nat> :| Reports(p, v, path, where, h) {
      assert where == [] || where[0] >= 0;
    }
    if h in TextHits(p, v, path) {
      assert Reports(p, v, path, [], h);
    }
  }

  lemma {:induction false} ScanFromReports(p: Policy, v: Value, i: nat, path: seq<Step>, h: Hit)
    requires i <= |Kids(v)|
    ensures h in ScanFrom(p, v, i, path) <==> ReportsFrom(p, v, i, path, h)
    decreases v, |Kids(v)| - i
  {
    if i == |Kids(v)| {
      PastTheLast(p, v, i, path, h);
    } else {
      var c := Kids(v)[i];
      ScanFromReports(p, v, i + 1, path, h);
      ScanReports(p, c.value, path + [c.step], h);
      KidReports(p, v, i, path, h);
      FromHere(p, v, i, path, h);
      hide ReportsFrom, ReportsAt, ReportsBelow, KeyHits, Scan;
    }
  }

  lemma FromHere(p: Policy, v: Value, i: nat, path: seq<Step>, h: Hit)
    ensures ReportsFrom(p, v, i, path, h) <==> ReportsAt(p, v, i, path, h) || ReportsFrom(p, v, i + 1, path, h)
  {
    hide Reports;
    if where: seq<nat> :| where != [] && where[0] >= i && Reports(p, v, path, where, h) {
      assert where[0] == i || where[0] >= i + 1;
    }
  }

  // ----- the code --------------------------------------------------------------------------------------

  /** Redacts a value in place and counts the replacements: as many as the scanner finds with forbidden parts out. */
  method WalkSanitize(p: Policy, v: Value, masked0: nat, ghost path: seq<Step>) returns (w: Value, masked: nat)
    ensures w == Clean(p, v)
    ensures masked == masked0 + |Scan(p, Blank(p, v), path)|
    decreases v, 2
  {
    w, masked := v, masked0;
    match v {
      case Scalar(_) =>
      case Text(t) =>
        if ValueRule(p, t).Some? {
          w, masked := Text(Marker(ValueRule(p, t).value)), masked + 1;
        }
      case Array(items) =>
        w, masked := SanitizeItems(p, v, masked, path);
      case Object(fields) =>
        w, masked := SanitizeFields(p, v, masked, path);
    }
  }

  method SanitizeItems(p: Policy, v: Value, masked0: nat, ghost path: seq<Step>) returns (w: Value, masked: nat)
    requires v.Array?
    ensures w == Clean(p, v)
    ensures masked == masked0 + |Scan(p, Blank(p, v), path)|
    decreases v, 0
  {
    BlankKids(p, v);
    var items, i := v.items, 0;
    masked := masked0;
    while i < |items|
      invariant |items| == |v.items| == |Kids(Blank(p, v))| && 0 <= i <= |items|
      invariant forall j :: 0 <= j < |items| ==> items[j] == if j < i then Clean(p, v.items[j]) else v.items[j]
      invariant masked + |ScanFrom(p, Blank(p, v), i, path)| == masked0 + |ScanFrom(p, Blank(p, v), 0, path)|
    {
      var item;
      assert Kids(v)[i] == Child(Index(i), v.items[i]);
      BlankStep(p, v, i, path);
      item, masked := WalkSanitize(p, items[i], masked, path + [Index(i)]);
      items := items[i := item];
      i := i + 1;
    }
    w := Array(items);
  }

  method SanitizeField(p: Policy, v: Value, i: nat, masked0: nat, ghost path: seq<Step>)
    returns (field: Field, masked: nat)
    requires v.Object? && i < |v.fields| == |Kids(Blank(p, v))|
    ensures field == Clean(p, v).fields[i] && field.key == v.fields[i].key
    ensures || Masked(p.keyRules, field.key, field.value)
            || (!Matched(p.keyRules, field.key) && Redacted(p, v.fields[i].value, field.value))
    ensures masked + |ScanFrom(p, Blank(p, v), i + 1, path)| == masked0 + |ScanFrom(p, Blank(p, v), i, path)|
    decreases v, 0
  {
    var key, child := v.fields[i].key, v.fields[i].value;
    assert Kids(v)[i] == Child(Key(key), child);
    BlankStep(p, v, i, path);
    var rule := KeyRule(p, Key(key));
    masked := masked0;
    MaskedFirst(p.keyRules, key, CleanKid(p, Child(Key(key), child)));
    CleanRedacts(p, child, Clean(p, child));
    if rule.Some? {
      LeafScan(p, NULL, path + [Key(key)]);
      child, masked := Text(Marker(rule.value)), masked + 1;
    } else {
      child, masked := WalkSanitize(p, child, masked, path + [Key(key)]);
    }
    field := Field(key, child);
  }

  method SanitizeFields(p: Policy, v: Value, masked0: nat, ghost path: seq<Step>) returns (w: Value, masked: nat)
    requires v.Object?
    ensures w == Clean(p, v)
    ensures masked == masked0 + |Scan(p, Blank(p, v), path)|
    decreases v, 1
  {
    BlankKids(p, v);
    ghost var clean, blank := Clean(p, v), Blank(p, v);
    var fields, i := v.fields, 0;
    masked := masked0;
    while i < |fields|
      invariant |fields| == |v.fields| == |Kids(blank)| && 0 <= i <= |fields|
      invariant forall j :: 0 <= j < i ==> fields[j] == clean.fields[j]
      invariant masked + |ScanFrom(p, blank, i, path)| == masked0 + |ScanFrom(p, blank, 0, path)|
    {
      var field;
      field, masked := SanitizeField(p, v, i, masked, path);
      fields := fields[i := field];
      i := i + 1;
    }
    w := Object(fields);
  }

  method SanitizeValue(p: Policy, v: Value) returns (w: Value, masked: nat)
    ensures Redacted(p, v, w) && masked == Marks(p, v)
    ensures OnlyKeys(Scan(p, w, [])) <==> MarkersPass(p, Scan(p, Blank(p, v), []))
  {
    w, masked := WalkSanitize(p, v, 0, []);
    CleanPassesScan(p, v, []);
    CleanRedacts(p, v, w);
    MarksScan(p, v, []);
  }

  lemma Regroup(a: seq<Hit>, b: seq<Hit>, c: seq<Hit>, d: seq<Hit>)
    ensures a + (b + c + d) == ((a + b) + c) + d
  {
  }

  /** Appends what it finds to what was found before. */
  method ScanValues(p: Policy, v: Value, path: seq<Step>, found: seq<Hit>) returns (out: seq<Hit>)
    ensures out == found + Scan(p, v, path)
    ensures forall h :: h in out <==> h in found || ReportsBelow(p, v, path, h)
    decreases v, |Kids(v)| + 1
  {
    forall h ensures h in Scan(p, v, path) <==> ReportsBelow(p, v, path, h) {
      ScanReports(p, v, path, h);
    }
    out := found;
    if v.Text? && ValueRule(p, v.text).Some? {
      out := out + [OfValue(path, ValueRule(p, v.text).value)];
    }
    out := ScanKids(p, v, path, out);
    Regroup(found, TextHits(p, v, path), ScanFrom(p, v, 0, path), []);
  }

  method ScanKids(p: Policy, v: Value, path: seq<Step>, found: seq<Hit>) returns (out: seq<Hit>)
    ensures out == found + ScanFrom(p, v, 0, path)
    decreases v, |Kids(v)|
  {
    out := found;
    ghost var all := found + ScanFrom(p, v, 0, path);
    var kids, i := Kids(v), 0;
    while i < |kids|
      invariant 0 <= i <= |kids|
      invariant out + ScanFrom(p, v, i, path) == all
    {
      var c := kids[i];
      Regroup(out, KeyHits(p, c.step, path), Scan(p, c.value, path + [c.step]), ScanFrom(p, v, i + 1, path));
      out := out + if KeyRule(p, c.step).Some? then [OfKey(path + [c.step], KeyRule(p, c.step).value)] else [];
      out := ScanValues(p, c.value, path + [c.step], out);
      i := i + 1;
    }
  }
}
