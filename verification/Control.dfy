/** The uplink grant a gateway hands out, and what the agent keeps of it between polls. */
module Uplink {
  import opened Basics

  datatype Grant = Grant(enabled: bool, host: Option<string>, port: Option<nat>, grantedAt: string)

  /** What counts as a change: the switch and the target. */
  datatype Effect = Effect(enabled: bool, host: Option<string>, port: Option<nat>)

  const STANDBY := Effect(false, None, None)

  /** One poll's outcome; a rejection comes with the clock reading its standby grant is stamped with. */
  datatype Outcome =
    | NotDispatched
    | Failed(signature: string)
    | CredentialRejected(signature: string, now: string)
    | Granted(grant: Grant)

  datatype Line = FetchFailed(signature: string) | GrantRejected(signature: string) | GrantApplied(effect: Effect)

  type Trim = string -> string

  function EffectOf(trim: Trim, g: Grant): Effect {
    Effect(g.enabled, if g.host.Some? then Some(trim(g.host.value)) else None, g.port)
  }

  function Standby(now: string): Grant {
    Grant(false, None, None, now)
  }

  // ----- the state as a function of the outcomes -------------------------------------------------------

  ghost predicate Decisive(o: Outcome) {
    o.Granted? || o.CredentialRejected?
  }

  /** What a decisive outcome puts in force: the grant, or standby since the rejection. */
  ghost function Decision(o: Outcome): Grant
    requires Decisive(o)
  {
    if o.Granted? then o.grant else Grant(false, None, None, o.now)
  }

  ghost function InForce(history: seq<Outcome>): Option<Grant> {
    if history == [] then None
    else
      var o := history[|history| - 1];
      if Decisive(o) then Some(Decision(o)) else InForce(history[..|history| - 1])
  }

  /** Two grants with the same effect: the same switch and, trimmed, the same target. */
  ghost predicate SameEffect(trim: Trim, a: Grant, b: Grant) {
    && a.enabled == b.enabled && a.port == b.port
    && match (a.host, b.host)
       case (None, None) => true
       case (Some(x), Some(y)) => trim(x) == trim(y)
       case _ => false
  }

  ghost predicate Sends(g: Grant) {
    g.enabled || g.host.Some? || g.port.Some?
  }

  lemma EffectDecides(trim: Trim, a: Grant, b: Grant)
    ensures EffectOf(trim, a) == EffectOf(trim, b) <==> SameEffect(trim, a, b)
    ensures EffectOf(trim, a) == STANDBY <==> !Sends(a)
  {
  }

  /** The trouble the latest poll reported, if it did. */
  ghost function Trouble(history: seq<Outcome>): Option<string> {
    if history == [] then None
    else
      var o := history[|history| - 1];
      if o.Failed? || o.CredentialRejected? then Some(o.signature) else None
  }

  /** Whether an outcome is news after this history. */
  ghost predicate News(trim: Trim, history: seq<Outcome>, o: Outcome) {
    match o
    case NotDispatched => false
    case Failed(signature) => Trouble(history) != Some(signature)
    case CredentialRejected(signature, _) =>
      Trouble(history) != Some(signature) || InForce(history).None? || Sends(InForce(history).value)
    case Granted(g) => InForce(history).None? || !SameEffect(trim, InForce(history).value, g)
  }

  /** The line for an outcome; for a grant it shows the switch and the trimmed target. */
  ghost predicate LineFor(trim: Trim, o: Outcome, line: Line) {
    match o
    case NotDispatched => false
    case Failed(signature) => line == FetchFailed(signature)
    case CredentialRejected(signature, _) => line == GrantRejected(signature)
    case Granted(g) =>
      && line.GrantApplied?
      && line.effect.enabled == g.enabled && line.effect.port == g.port
      && (g.host.None? ==> line.effect.host.None?)
      && (g.host.Some? ==> line.effect.host == Some(trim(g.host.value)))
  }

  lemma InForceAppend(history: seq<Outcome>, o: Outcome)
    ensures InForce(history + [o]) == if Decisive(o) then Some(Decision(o)) else InForce(history)
  {
    assert (history + [o])[..|history|] == history;
  }

  lemma TroubleAppend(history: seq<Outcome>, o: Outcome)
    ensures Trouble(history + [o]) == if o.Failed? || o.CredentialRejected? then Some(o.signature) else None
  {
    assert (history + [o])[|history|] == o;
  }

  /** The last grant or rejection decides, however many polls fail or bring nothing afterwards. */
  lemma {:induction false} LastDecides(history: seq<Outcome>, i: nat)
    requires i < |history| && Decisive(history[i])
    requires forall j :: i < j < |history| ==> !Decisive(history[j])
    ensures InForce(history) == Some(Decision(history[i]))
    decreases |history|
  {
    if i < |history| - 1 {
      LastDecides(history[..|history| - 1], i);
    }
  }

  lemma {:induction false} NothingDecided(history: seq<Outcome>)
    requires forall j :: 0 <= j < |history| ==> !Decisive(history[j])
    ensures InForce(history) == None
    decreases |history|
  {
    if history != [] {
      NothingDecided(history[..|history| - 1]);
    }
  }

  /** After a rejection the agent stands by until the next grant, whatever else the polls report. */
  lemma {:induction false} RejectionHolds(history: seq<Outcome>, i: nat)
    requires i < |history| && history[i].CredentialRejected?
    requires forall j :: i < j < |history| ==> !history[j].Granted?
    ensures InForce(history).Some? && !Sends(InForce(history).value)
    decreases |history|
  {
    if i < |history| - 1 && !Decisive(history[|history| - 1]) {
      RejectionHolds(history[..|history| - 1], i);
    }
  }

  /** Two outcomes that say the same: clock readings aside. */
  ghost predicate Alike(trim: Trim, a: Outcome, b: Outcome) {
    match a
    case NotDispatched => b.NotDispatched?
    case Failed(signature) => b.Failed? && b.signature == signature
    case CredentialRejected(signature, _) => b.CredentialRejected? && b.signature == signature
    case Granted(g) => b.Granted? && SameEffect(trim, b.grant, g)
  }

  /** The same outcome again is no news, and changes nothing that is in force. */
  lemma RepeatIsSilent(trim: Trim, history: seq<Outcome>, a: Outcome, b: Outcome)
    requires Alike(trim, a, b)
    ensures !News(trim, history + [a], b)
    ensures var before, after := InForce(history + [a]), InForce(history + [a] + [b]);
            before == after || (before.Some? && after.Some? && SameEffect(trim, before.value, after.value))
  {
    InForceAppend(history, a);
    InForceAppend(history + [a], b);
  }

  // ----- the code --------------------------------------------------------------------------------------

  class AppliedUplink {
    const trim: Trim
    var grant: Option<Grant>
    var lastFailure: Option<string>
    ghost var history: seq<Outcome>

    ghost predicate Valid()
      reads this
    {
      grant == InForce(history) && lastFailure == Trouble(history)
    }

    constructor (trim: Trim)
      ensures Valid() && history == [] && this.trim == trim
    {
      this.trim, grant, lastFailure, history := trim, None, None, [];
    }

    method Effective() returns (e: Option<Effect>)
      ensures e == if grant.Some? then Some(EffectOf(trim, grant.value)) else None
    {
      if grant.None? {
        return None;
      }
      return Some(EffectOf(trim, grant.value));
    }

    /** Takes in one outcome and returns the line to log: one exactly if the outcome is news. */
    method Observe(o: Outcome) returns (line: Option<Line>)
      requires Valid()
      modifies this
      ensures Valid() && history == old(history) + [o]
      ensures line.Some? <==> News(trim, old(history), o)
      ensures line.Some? ==> LineFor(trim, o, line.value)
    {
      hide InForce, Trouble;
      InForceAppend(history, o);
      TroubleAppend(history, o);
      history := history + [o];
      match o
      case NotDispatched =>
        lastFailure := None;
        return None;
      case Failed(signature) =>
        if lastFailure == Some(signature) {
          return None;
        }
        lastFailure := Some(signature);
        return Some(FetchFailed(signature));
      case CredentialRejected(signature, now) =>
        if grant.Some? { EffectDecides(trim, grant.value, grant.value); }
        var before := Effective();
        var wasSending := before != Some(STANDBY);
        grant := Some(Standby(now));
        var firstTime := lastFailure != Some(signature);
        lastFailure := Some(signature);
        if !wasSending && !firstTime {
          return None;
        }
        return Some(GrantRejected(signature));
      case Granted(g) =>
        lastFailure := None;
        if grant.Some? { EffectDecides(trim, grant.value, g); }
        var before := Effective();
        var changed := before != Some(EffectOf(trim, g));
        grant := Some(g);
        if !changed {
          return None;
        }
        return Some(GrantApplied(EffectOf(trim, g)));
    }
  }
}

/** The discovery snapshot policy: set by the gateway, or left to the local configuration. */
module SnapshotPolicy {
  import opened Basics

  const MIN_INTERVAL_SECONDS: nat := 60

  datatype Grant = Grant(enabled: bool, intervalSeconds: nat, source: string, grantedAt: string)

  datatype Outcome = NotDispatched | Failed(signature: string) | Granted(grant: Grant)

  datatype Event =
    | PolicyApplied(enabled: bool, intervalSeconds: nat, source: string)
    | PolicyCleared
    | FetchFailed(signature: string)

  datatype Origin = ControlPlane | LocalConfig

  datatype Effective = Effective(enabled: bool, intervalSeconds: nat, origin: Origin)

  datatype Config = Config(enabled: bool, intervalSeconds: nat)

  function AtLeastMinimum(seconds: nat): nat {
    if seconds < MIN_INTERVAL_SECONDS then MIN_INTERVAL_SECONDS else seconds
  }

  /** What counts as a change: the switch and the interval in force. */
  function PolicyKey(g: Grant): (bool, nat) {
    (g.enabled, AtLeastMinimum(g.intervalSeconds))
  }

  /** The interval in force is the one asked for, or one minute if that is less. */
  ghost predicate AtLeastMinute(asked: nat, seconds: nat) {
    seconds >= 60 && seconds >= asked && (seconds == asked || seconds == 60)
  }

  function EffectivePolicy(config: Config, grant: Option<Grant>): (e: Effective)
    ensures e.origin == if grant.Some? then ControlPlane else LocalConfig
    ensures e.enabled <==> if grant.Some? then grant.value.enabled else config.enabled
    ensures AtLeastMinute(if grant.Some? then grant.value.intervalSeconds else config.intervalSeconds,
                          e.intervalSeconds)
  {
    match grant
    case Some(g) => Effective(g.enabled, AtLeastMinimum(g.intervalSeconds), ControlPlane)
    case None => Effective(config.enabled, AtLeastMinimum(config.intervalSeconds), LocalConfig)
  }

  // ----- the state as a function of the outcomes -------------------------------------------------------

  /** A grant sets the policy; a poll that brings none withdraws it; a failed poll says nothing. */
  ghost function InForce(history: seq<Outcome>): Option<Grant> {
    if history == [] then None
    else
      match history[|history| - 1]
      case Granted(g) => Some(g)
      case NotDispatched => None
      case Failed(_) => InForce(history[..|history| - 1])
  }

  /** Two grants that set the same policy: the same switch, and the same interval or both at most a minute. */
  ghost predicate SamePolicy(a: Grant, b: Grant) {
    && a.enabled == b.enabled
    && (a.intervalSeconds == b.intervalSeconds || (a.intervalSeconds <= 60 && b.intervalSeconds <= 60))
  }

  ghost function Trouble(history: seq<Outcome>): Option<string> {
    if history != [] && history[|history| - 1].Failed? then Some(history[|history| - 1].signature) else None
  }

  ghost predicate News(history: seq<Outcome>, o: Outcome) {
    match o
    case NotDispatched => InForce(history).Some?
    case Failed(signature) => Trouble(history) != Some(signature)
    case Granted(g) => InForce(history).None? || !SamePolicy(InForce(history).value, g)
  }

  ghost predicate EventFor(o: Outcome, event: Event) {
    match o
    case NotDispatched => event == PolicyCleared
    case Failed(signature) => event == FetchFailed(signature)
    case Granted(g) =>
      && event.PolicyApplied? && event.enabled == g.enabled && event.source == g.source
      && AtLeastMinute(g.intervalSeconds, event.intervalSeconds)
  }

  lemma InForceAppend(history: seq<Outcome>, o: Outcome)
    ensures InForce(history + [o]) ==
            match o
            case Granted(g) => Some(g)
            case NotDispatched => None
            case Failed(_) => InForce(history)
  {
    assert (history + [o])[..|history|] == history;
  }

  lemma TroubleAppend(history: seq<Outcome>, o: Outcome)
    ensures Trouble(history + [o]) == if o.Failed? then Some(o.signature) else None
  {
    assert (history + [o])[|history|] == o;
  }

  /** The last outcome that did not fail decides; before any, the local configuration does. */
  lemma {:induction false} LastDecides(config: Config, history: seq<Outcome>, i: nat)
    requires i < |history| && !history[i].Failed?
    requires forall j :: i < j < |history| ==> history[j].Failed?
    ensures InForce(history) == if history[i].Granted? then Some(history[i].grant) else None
    ensures EffectivePolicy(config, InForce(history)).origin.ControlPlane? <==> history[i].Granted?
    decreases |history|
  {
    if i < |history| - 1 {
      LastDecides(config, history[..|history| - 1], i);
    }
  }

  lemma {:induction false} NothingDecided(history: seq<Outcome>)
    requires forall j :: 0 <= j < |history| ==> history[j].Failed?
    ensures InForce(history) == None
    decreases |history|
  {
    if history != [] {
      NothingDecided(history[..|history| - 1]);
    }
  }

  ghost predicate Alike(a: Outcome, b: Outcome) {
    match a
    case NotDispatched => b.NotDispatched?
    case Failed(signature) => b.Failed? && b.signature == signature
    case Granted(g) => b.Granted? && SamePolicy(b.grant, g)
  }

  /** The same outcome again is no news, and leaves the policy in force what it was. */
  lemma RepeatIsSilent(config: Config, history: seq<Outcome>, a: Outcome, b: Outcome)
    requires Alike(a, b)
    ensures !News(history + [a], b)
    ensures EffectivePolicy(config, InForce(history + [a] + [b])) == EffectivePolicy(config, InForce(history + [a]))
  {
    InForceAppend(history, a);
    InForceAppend(history + [a], b);
  }

  // ----- the code --------------------------------------------------------------------------------------

  class AppliedSnapshotPolicy {
    var grant: Option<Grant>
    var lastFailure: Option<string>
    ghost var history: seq<Outcome>

    ghost predicate Valid()
      reads this
    {
      grant == InForce(history) && lastFailure == Trouble(history)
    }

    constructor ()
      ensures Valid() && history == []
    {
      grant, lastFailure, history := None, None, [];
    }

    /** Takes in one outcome and returns the line to log: one exactly if the outcome is news. */
    method Observe(o: Outcome) returns (event: Option<Event>)
      requires Valid()
      modifies this
      ensures Valid() && history == old(history) + [o]
      ensures event.Some? <==> News(old(history), o)
      ensures event.Some? ==> EventFor(o, event.value)
    {
      hide InForce, Trouble;
      InForceAppend(history, o);
      TroubleAppend(history, o);
      history := history + [o];
      match o
      case NotDispatched =>
        lastFailure := None;
        var had := grant.Some?;
        grant := None;
        if had {
          return Some(PolicyCleared);
        }
        return None;
      case Failed(signature) =>
        if lastFailure == Some(signature) {
          return None;
        }
        lastFailure := Some(signature);
        return Some(FetchFailed(signature));
      case Granted(g) =>
        lastFailure := None;
        var changed := grant.None? || PolicyKey(grant.value) != PolicyKey(g);
        grant := Some(g);
        if !changed {
          return None;
        }
        return Some(PolicyApplied(g.enabled, AtLeastMinimum(g.intervalSeconds), g.source));
    }
  }
}
