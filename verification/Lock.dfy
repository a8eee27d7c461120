/**
 The single-instance lock. `flock` ties a lock to an open file description; descriptors that a fork copies share
 the description, and the lock goes away on an explicit unlock or with the last descriptor.
 */
module LockProtocol {
  import opened Basics

  type Pid = nat
  type Description = nat

  /** A descriptor: this process's reference to an open file description. */
  datatype Handle = Handle(pid: Pid, ofd: Description)

  /** Where the code that opened the description has got to. */
  datatype Phase =
    | Acquiring // opened, not yet locked
    | Live      // an `InstanceLock` exists
    | Dropping  // its drop has unlocked; the descriptor is still open
    | Probing   // opened by the probe
    | Probed    // the probe got the lock and is about to close
    | Refused   // the lock was held elsewhere

  datatype State = State(
    present: bool,             // the lock file exists
    next: Description,         // descriptions from here on were never used
    owner: Option<Description>, // the description that has the lock
    handles: set<Handle>,
    phases: map<Handle, Phase>,
    copied: set<Description>)  // descriptions some fork has copied

  datatype Event =
    | Open(pid: Pid, probe: bool)
    | TryLock(h: Handle)
    | Unlock(h: Handle)
    | Close(h: Handle)
    | Fork(parent: Pid, child: Pid)
    | Exit(who: Pid) // a return from main, a crash, kill -9, or an exec that closes every descriptor

  const START := State(false, 0, None, {}, map[], {})

  /** The lock stays where it is as long as some descriptor refers to its description. */
  function Kept(owner: Option<Description>, handles: set<Handle>): Option<Description> {
    if owner.Some? && exists h :: h in handles && h.ofd == owner.value then owner else None
  }

  predicate Enabled(s: State, e: Event) {
    match e
    case Open(_, probe) => probe ==> s.present
    case TryLock(h) => h in s.phases && (s.phases[h].Acquiring? || s.phases[h].Probing?)
    case Unlock(h) => h in s.phases && s.phases[h].Live?
    case Close(h) => h in s.phases && !s.phases[h].Live?
    case Fork(parent, child) => parent != child && forall h :: h in s.handles ==> h.pid != child
    case Exit(_) => true
  }

  function Shut(s: State, gone: set<Handle>): State {
    var left := s.handles - gone;
    s.(owner := Kept(s.owner, left), handles := left, phases := s.phases - gone)
  }

  function Of(s: State, pid: Pid): set<Handle> {
    set h | h in s.handles && h.pid == pid
  }

  function Step(s: State, e: Event): State
    requires Enabled(s, e)
  {
    match e
    case Open(pid, probe) =>
      var h := Handle(pid, s.next);
      s.(present := true, next := s.next + 1, handles := s.handles + {h},
         phases := s.phases[h := if probe then Probing else Acquiring])
    case TryLock(h) =>
      if s.owner == None || s.owner == Some(h.ofd) then
        s.(owner := Some(h.ofd), phases := s.phases[h := if s.phases[h].Acquiring? then Live else Probed])
      else
        s.(phases := s.phases[h := Refused])
    case Unlock(h) =>
      s.(owner := if s.owner == Some(h.ofd) then None else s.owner, phases := s.phases[h := Dropping])
    case Close(h) => Shut(s, {h})
    case Fork(parent, child) =>
      s.(handles := s.handles + (set h | h in Of(s, parent) :: Handle(child, h.ofd)),
         copied := s.copied + set h | h in Of(s, parent) :: h.ofd)
    case Exit(who) => Shut(s, Of(s, who))
  }

  predicate Legal(s: State, run: seq<Event>)
    decreases |run|
  {
    run != [] ==> Enabled(s, run[0]) && Legal(Step(s, run[0]), run[1..])
  }

  function Run(s: State, run: seq<Event>): State
    requires Legal(s, run)
    decreases |run|
  {
    if run == [] then s else Run(Step(s, run[0]), run[1..])
  }

  // ----- what every run keeps --------------------------------------------------------------------------

  ghost predicate Holds(s: State, h: Handle) {
    h in s.phases && (s.phases[h].Live? || s.phases[h].Probed?)
  }

  ghost predicate OneOpener(s: State) {
    forall h, g :: h in s.phases && g in s.phases && h.ofd == g.ofd ==> h == g
  }

  ghost predicate Inv(s: State) {
    && s.phases.Keys <= s.handles
    && (forall h :: h in s.handles ==> h.ofd < s.next)
    && OneOpener(s)
    && (forall h :: h in s.handles && h !in s.phases ==> h.ofd in s.copied)
    && (forall h :: h in s.phases ==> (Holds(s, h) <==> s.owner == Some(h.ofd)))
    && (s.owner.Some? ==> exists h :: h in s.handles && h.ofd == s.owner.value)
    && (s.owner.Some? ==> s.owner.value in s.copied || exists h :: Holds(s, h) && h.ofd == s.owner.value)
  }

  lemma OpenKeepsInv(s: State, pid: Pid, probe: bool)
    requires Inv(s) && Enabled(s, Open(pid, probe))
    ensures Inv(Step(s, Open(pid, probe)))
  {
    var t := Step(s, Open(pid, probe));
    forall h ensures Holds(t, h) <==> Holds(s, h) {
    }
  }

  lemma TryLockKeepsInv(s: State, h: Handle)
    requires Inv(s) && Enabled(s, TryLock(h))
    ensures Inv(Step(s, TryLock(h)))
  {
    var t := Step(s, TryLock(h));
    forall g | g != h ensures Holds(t, g) <==> Holds(s, g) {
    }
    if s.owner == None {
      assert Holds(t, h);
    } else if s.owner != Some(h.ofd) {
      assert !Holds(t, h);
    } else {
      assert Holds(t, h);
    }
  }

  lemma UnlockKeepsInv(s: State, h: Handle)
    requires Inv(s) && Enabled(s, Unlock(h))
    ensures Inv(Step(s, Unlock(h)))
  {
    var t := Step(s, Unlock(h));
    assert Holds(s, h);
    forall g ensures !Holds(t, g) {
      assert g != h && Holds(t, g) ==> Holds(s, g);
    }
  }

  lemma ShutKeepsInv(s: State, gone: set<Handle>)
    requires Inv(s)
    ensures Inv(Shut(s, gone))
  {
    var t := Shut(s, gone);
    forall g ensures Holds(t, g) <==> Holds(s, g) && g !in gone {
    }
  }

  lemma ForkKeepsInv(s: State, parent: Pid, child: Pid)
    requires Inv(s) && Enabled(s, Fork(parent, child))
    ensures Inv(Step(s, Fork(parent, child)))
  {
    var t := Step(s, Fork(parent, child));
    forall g ensures Holds(t, g) <==> Holds(s, g) {
    }
  }

  lemma StepKeepsInv(s: State, e: Event)
    requires Inv(s) && Enabled(s, e)
    ensures Inv(Step(s, e))
  {
    match e
    case Open(pid, probe) => OpenKeepsInv(s, pid, probe);
    case TryLock(h) => TryLockKeepsInv(s, h);
    case Unlock(h) => UnlockKeepsInv(s, h);
    case Close(h) => ShutKeepsInv(s, {h});
    case Fork(parent, child) => ForkKeepsInv(s, parent, child);
    case Exit(who) => ShutKeepsInv(s, Of(s, who));
  }

  lemma {:induction false} RunKeepsInv(s: State, run: seq<Event>)
    requires Inv(s) && Legal(s, run)
    ensures Inv(Run(s, run))
    decreases |run|
  {
    if run != [] {
      StepKeepsInv(s, run[0]);
      RunKeepsInv(Step(s, run[0]), run[1..]);
    }
  }

  // ----- exclusion -------------------------------------------------------------------------------------

  ghost predicate Alive(s: State, h: Handle) {
    h in s.phases && s.phases[h].Live?
  }

  /** In every run, whatever is interleaved: one live lock at most, and nobody else gets past `TryLock` meanwhile. */
  lemma MutualExclusion(run: seq<Event>, h: Handle, g: Handle)
    requires Legal(START, run) && Alive(Run(START, run), h)
    ensures var s := Run(START, run);
            && (Alive(s, g) ==> g == h)
            && s.owner == Some(h.ofd)
            && (g != h && Enabled(s, TryLock(g)) ==> Step(s, TryLock(g)).phases[g].Refused?)
  {
    RunKeepsInv(START, run);
    var s := Run(START, run);
    assert Holds(s, h);
    assert Alive(s, g) ==> Holds(s, g);
  }

  /** An open descriptor whose description has the lock: held by the code that opened it, or copied by a fork. */
  ghost predicate Blocks(s: State, h: Handle) {
    && h in s.handles
    && s.owner == Some(h.ofd)
    && (Holds(s, h) || (h !in s.phases && h.ofd in s.copied))
  }

  /**
   A refusal means that some descriptor open right now refers to the description with the lock: a live lock, a probe
   between its lock and its close, or a copy that a fork made and nobody has closed.
   */
  lemma RefusalHasCause(run: seq<Event>, g: Handle)
    requires Legal(START, run) && Enabled(Run(START, run), TryLock(g))
    requires Step(Run(START, run), TryLock(g)).phases[g].Refused?
    ensures exists h :: Blocks(Run(START, run), h) && h.ofd != g.ofd
  {
    RunKeepsInv(START, run);
    var s := Run(START, run);
    var h :| h in s.handles && h.ofd == s.owner.value;
    assert Blocks(s, h);
  }

  // ----- release ---------------------------------------------------------------------------------------

  /** A description that will never have the lock again. */
  ghost predicate Spent(s: State, o: Description) {
    && o < s.next
    && s.owner != Some(o)
    && forall h :: h in s.phases && h.ofd == o ==> !s.phases[h].Acquiring? && !s.phases[h].Probing?
  }

  lemma StepKeepsSpent(s: State, e: Event, o: Description)
    requires Spent(s, o) && Enabled(s, e)
    ensures Spent(Step(s, e), o)
  {
  }

  lemma {:induction false} RunKeepsSpent(s: State, run: seq<Event>, o: Description)
    requires Spent(s, o) && Legal(s, run)
    ensures Spent(Run(s, run), o)
    decreases |run|
  {
    if run != [] {
      StepKeepsSpent(s, run[0], o);
      RunKeepsSpent(Step(s, run[0]), run[1..], o);
    }
  }

  /**
   Dropping frees the lock at once, whoever holds copies of the descriptor, and no copy ever brings it back:
   the next to try gets it.
   */
  lemma DropFrees(s: State, h: Handle, run: seq<Event>)
    requires Inv(s) && Alive(s, h) && Legal(Step(s, Unlock(h)), run)
    ensures Step(s, Unlock(h)).owner == None
    ensures Run(Step(s, Unlock(h)), run).owner != Some(h.ofd)
  {
    assert Holds(s, h);
    RunKeepsSpent(Step(s, Unlock(h)), run, h.ofd);
  }

  /** Closing without unlocking would free it only if no other descriptor shares the description. */
  lemma CloseAloneFrees(s: State, h: Handle)
    requires Inv(s) && Alive(s, h)
    ensures Shut(s, {h}).owner == None <==> forall g :: g in s.handles && g.ofd == h.ofd ==> g == h
  {
    assert Holds(s, h);
    assert forall g :: g in s.handles - {h} <==> g in s.handles && g != h;
  }

  /** The same for an exit or a crash: the kernel frees the lock exactly when no other process has a copy. */
  lemma ExitFrees(s: State, h: Handle)
    requires Inv(s) && Alive(s, h)
    ensures Step(s, Exit(h.pid)).owner == None <==> forall g :: g in s.handles && g.ofd == h.ofd ==> g.pid == h.pid
  {
    assert Holds(s, h);
    assert forall g :: g in s.handles - Of(s, h.pid) <==> g in s.handles && g.pid != h.pid;
  }

  lemma CrashWithChild()
    ensures var run := [Open(1, false), TryLock(Handle(1, 0)), Fork(1, 2), Exit(1)];
            Legal(START, run) && Run(START, run) == State(true, 1, Some(0), {Handle(2, 0)}, map[], {0})
  {
    var a, b := Handle(1, 0), Handle(2, 0);
    var s1 := Step(START, Open(1, false));
    var s2 := Step(s1, TryLock(a));
    assert s2 == State(true, 1, Some(0), {a}, map[a := Live], {});
    assert Of(s2, 1) == {a};
    var s3 := Step(s2, Fork(1, 2));
    assert s3 == State(true, 1, Some(0), {a, b}, map[a := Live], {0});
    assert Of(s3, 1) == {a} && s3.handles - {a} == {b};
    assert b in {b} && b.ofd == 0;
    RunCons(s3, Exit(1), []);
    RunCons(s2, Fork(1, 2), [Exit(1)]);
    RunCons(s1, TryLock(a), [Fork(1, 2), Exit(1)]);
    RunCons(START, Open(1, false), [TryLock(a), Fork(1, 2), Exit(1)]);
  }

  /** A crash while a child still has its copy: nobody holds an instance lock, yet the next acquire is refused. */
  lemma OrphanedLock()
    ensures var run := [Open(1, false), TryLock(Handle(1, 0)), Fork(1, 2), Exit(1)];
            && Legal(START, run)
            && (forall h :: !Alive(Run(START, run), h))
            && var s := Step(Run(START, run), Open(3, false));
               Enabled(s, TryLock(Handle(3, 1))) && Step(s, TryLock(Handle(3, 1))).phases[Handle(3, 1)].Refused?
  {
    CrashWithChild();
  }

  lemma RunCons(s: State, e: Event, run: seq<Event>)
    requires Enabled(s, e) && Legal(Step(s, e), run)
    ensures Legal(s, [e] + run) && Run(s, [e] + run) == Run(Step(s, e), run)
  {
    assert ([e] + run)[1..] == run;
  }

  // ----- other processes in between --------------------------------------------------------------------

  /** A step some other process or thread takes while the code behind `h` is between two calls. */
  ghost predicate Elsewhere(e: Event, h: Handle) {
    match e
    case Open(_, _) => true
    case TryLock(g) => g != h
    case Unlock(g) => g != h
    case Close(g) => g != h
    case Fork(_, _) => true
    case Exit(who) => who != h.pid
  }

  ghost predicate AllElsewhere(run: seq<Event>, h: Handle) {
    forall i :: 0 <= i < |run| ==> Elsewhere(run[i], h)
  }

  lemma StepElsewhere(s: State, e: Event, h: Handle)
    requires Inv(s) && h in s.phases && Enabled(s, e) && Elsewhere(e, h)
    ensures h in Step(s, e).phases && Step(s, e).phases[h] == s.phases[h]
  {
  }

  lemma {:induction false} RunElsewhere(s: State, run: seq<Event>, h: Handle)
    requires Inv(s) && h in s.phases && Legal(s, run) && AllElsewhere(run, h)
    ensures Inv(Run(s, run)) && h in Run(s, run).phases && Run(s, run).phases[h] == s.phases[h]
    decreases |run|
  {
    if run != [] {
      assert Elsewhere(run[0], h);
      StepElsewhere(s, run[0], h);
      StepKeepsInv(s, run[0]);
      RunElsewhere(Step(s, run[0]), run[1..], h);
    }
  }

  /** Trying decides the attempt, by the owner at that moment. */
  lemma TryDecides(s: State, h: Handle)
    requires Inv(s) && Enabled(s, TryLock(h))
    ensures var t := Step(s, TryLock(h));
            && Inv(t) && h in t.phases
            && (s.owner == None ==>
                  t.owner == Some(h.ofd) && t.phases[h] == if s.phases[h].Acquiring? then Live else Probed)
            && (s.owner != None ==> t.owner == s.owner && t.phases[h].Refused?)
  {
    TryLockKeepsInv(s, h);
    assert !Holds(s, h);
  }

  /** Closing takes the lock away from nobody else, and from its own description exactly if no copy is left. */
  lemma CloseDecides(s: State, h: Handle)
    requires Inv(s) && h in s.phases
    ensures var t := Shut(s, {h});
            && Inv(t) && h !in t.handles
            && (!Holds(s, h) ==> t.owner == s.owner && t.owner != Some(h.ofd))
            && (Holds(s, h) ==> (t.owner == Some(h.ofd) <==> exists g :: g in t.handles && g.ofd == h.ofd))
            && (t.owner == None || t.owner == s.owner)
  {
    ShutKeepsInv(s, {h});
    if !Holds(s, h) && s.owner.Some? {
      var g :| g in s.handles && g.ofd == s.owner.value;
      assert g in s.handles - {h};
    }
  }
}

/** `acquire`, `drop` and the probe, with any steps of others between their system calls. */
module SingleInstance {
  import opened Basics
  import opened LockProtocol

  datatype Failure = AlreadyRunning | SystemError

  /** Which system call fails for a reason other than the lock being held. */
  datatype Fault = NoFault | OpenFails | LockFails

  class LockFile {
    var s: State

    constructor ()
      ensures s == START && Inv(s)
    {
      s := START;
    }

    method Apply(e: Event)
      requires Inv(s) && Enabled(s, e)
      modifies this
      ensures s == Step(old(s), e) && Inv(s)
    {
      StepKeepsInv(s, e);
      s := Step(s, e);
    }

    /** What everybody else does before this process goes on. */
    method Others(run: seq<Event>, ghost h: Handle)
      requires Inv(s) && h in s.phases && Legal(s, run) && AllElsewhere(run, h)
      modifies this
      ensures s == Run(old(s), run) && Inv(s) && h in s.phases && s.phases[h] == old(s).phases[h]
    {
      RunElsewhere(s, run, h);
      s := Run(s, run);
    }

    /** Opens the lock file and lets the others go on. */
    method Begin(pid: Pid, probe: bool, others: seq<Event>) returns (h: Handle)
      requires Inv(s) && Enabled(s, Open(pid, probe))
      requires Legal(Step(s, Open(pid, probe)), others) && AllElsewhere(others, Handle(pid, s.next))
      modifies this
      ensures h == Handle(pid, old(s).next) && s == Run(Step(old(s), Open(pid, probe)), others)
      ensures Inv(s) && h in s.phases && s.phases[h] == if probe then Probing else Acquiring
    {
      h := Handle(pid, s.next);
      Apply(Open(pid, probe));
      Others(others, h);
    }

    /** Succeeds exactly when the lock is free at the moment it is tried; a failed attempt leaves no descriptor. */
    method Acquire(pid: Pid, fault: Fault, others: seq<Event>) returns (r: Result<Handle, Failure>)
      requires Inv(s)
      requires Legal(Step(s, Open(pid, false)), others) && AllElsewhere(others, Handle(pid, s.next))
      modifies this
      ensures Inv(s)
      ensures fault.OpenFails? ==> r == Err(SystemError) && s == old(s)
      ensures !fault.OpenFails? ==>
                var h, mid := Handle(pid, old(s).next), Run(Step(old(s), Open(pid, false)), others);
                && (r.Ok? <==> fault.NoFault? && mid.owner == None)
                && (r.Ok? ==> r.value == h && Alive(s, h) && s.owner == Some(h.ofd))
                && (r.Err? ==> r.error == if fault.NoFault? then AlreadyRunning else SystemError)
                && (r.Err? ==> s.owner == mid.owner && h !in s.handles)
                && (fault.LockFails? ==> s == Shut(mid, {h}))
                && (fault.NoFault? ==> Enabled(mid, TryLock(h)))
                && (r.Ok? ==> s == Step(mid, TryLock(h)))
                && (fault.NoFault? && r.Err? ==> s == Shut(Step(mid, TryLock(h)), {h}))
    {
      if fault.OpenFails? {
        return Err(SystemError);
      }
      var h := Begin(pid, false, others);
      if fault.LockFails? {
        CloseDecides(s, h);
        s := Step(s, Close(h));
        return Err(SystemError);
      }
      TryDecides(s, h);
      s := Step(s, TryLock(h));
      if s.phases[h].Live? {
        return Ok(h);
      }
      CloseDecides(s, h);
      s := Step(s, Close(h));
      return Err(AlreadyRunning);
    }

    /** The lock is free as soon as this has unlocked, and stays out of reach of every copy of the descriptor. */
    method Drop(h: Handle, others: seq<Event>)
      requires Inv(s) && Alive(s, h)
      requires Legal(Step(s, Unlock(h)), others) && AllElsewhere(others, h)
      modifies this
      ensures Inv(s) && h !in s.handles
      ensures s == Shut(Run(Step(old(s), Unlock(h)), others), {h})
      ensures Spent(s, h.ofd)
    {
      DropFrees(s, h, others);
      RunKeepsSpent(Step(s, Unlock(h)), others, h.ofd);
      Apply(Unlock(h));
      Others(others, h);
      StepKeepsSpent(s, Close(h), h.ofd);
      Apply(Close(h));
    }

    /**
     Says whether the lock was held when it looked. It creates no file and takes the lock from nobody; it leaves
     the lock taken exactly if it got it and a fork between its lock and its close copied the descriptor.
     */
    method IsHeld(pid: Pid, fault: Fault, others: seq<Event>, window: seq<Event>) returns (r: Result<bool, Failure>)
      requires Inv(s)
      requires s.present ==> Legal(Step(s, Open(pid, true)), others) && AllElsewhere(others, Handle(pid, s.next))
      requires s.present ==>
                 var h, mid := Handle(pid, s.next), Run(Step(s, Open(pid, true)), others);
                 Enabled(mid, TryLock(h)) ==> Legal(Step(mid, TryLock(h)), window) && AllElsewhere(window, h)
      modifies this
      ensures Inv(s)
      ensures !old(s).present ==> r == Ok(false) && s == old(s)
      ensures old(s).present && fault.OpenFails? ==> r == Err(SystemError) && s == old(s)
      ensures old(s).present && !fault.OpenFails? ==>
                var h, mid := Handle(pid, old(s).next), Run(Step(old(s), Open(pid, true)), others);
                && h !in s.handles
                && (fault.LockFails? ==> r == Err(SystemError) && s.owner == mid.owner && s == Shut(mid, {h}))
                && (fault.NoFault? ==> r == Ok(mid.owner.Some?))
                && (fault.NoFault? ==> Enabled(mid, TryLock(h)) && s == Shut(Run(Step(mid, TryLock(h)), window), {h}))
                && (fault.NoFault? ==> (s.owner == Some(h.ofd) <==>
                      mid.owner == None && exists g :: g in s.handles && g.ofd == h.ofd))
    {
      if !s.present {
        return Ok(false);
      }
      if fault.OpenFails? {
        return Err(SystemError);
      }
      var h := Begin(pid, true, others);
      if fault.LockFails? {
        CloseDecides(s, h);
        s := Step(s, Close(h));
        return Err(SystemError);
      }
      TryDecides(s, h);
      s := Step(s, TryLock(h));
      r := Ok(s.phases[h].Refused?);
      Others(window, h);
      CloseDecides(s, h);
      s := Step(s, Close(h));
    }
  }
}
