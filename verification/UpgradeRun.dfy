/** One upgrade from request to final record, over every outcome of every external command. */
module UpgradeRun {
  import opened Basics
  import opened UpgradeVersions
  import opened UpgradeInstall
  import opened UpgradeArtifact

  /** A fetched package: a bare agentd, or an archive with what it unpacks to (`None` if it does not unpack). */
  datatype Package = Bare(content: Content) | Tarball(unpacked: Option<Node>)

  /** Strings are taken after trimming. `binDirKnown` is false when the agentd path has no parent. */
  datatype Request = Request(
    workId: string,
    targetVersion: Option<string>,
    currentVersion: string,
    packageUrl: string,
    packageSha256: string,
    allowDowngrade: bool,
    binDirKnown: bool)

  /** Everything the outside world answers during one run. */
  datatype World = World(
    parse: Parser,
    digestHex: string -> Option<string>,       // a well-formed digest, normalised
    fetched: Option<Package>,
    digestOf: Package -> string,
    reported: Content -> Option<string>,       // the version a staged agentd reports about itself
    restartWorks: bool,
    running: nat -> Option<string>,            // the running version at each poll
    lastPoll: nat)                             // the poll at which the waiting time is over

  datatype Status = Running | Succeeded | Failed | RolledBack

  datatype Step = Validate | Fetch | VerifyDigest | Stage | VerifyArtifact | Install | Restart | WaitReady

  datatype Reason =
    | Fine
    | SpecInvalid | NotNewer | VersionUncomparable | DigestInvalid
    | PackageUnavailable | DigestMismatch | StagingFailed | ArtifactInvalid | VersionMismatch
    | NoBinDir | InstallFailed(error: InstallError) | RestartFailed | NotReady

  datatype Record = Record(fromVersion: string, toVersion: string, step: Step, status: Status, detail: Reason)

  // ----- the checks before anything is touched -------------------------------------------------------

  function ProvidedTarget(req: Request): Option<string> {
    if req.targetVersion.Some? && req.targetVersion.value != "" then req.targetVersion else None
  }

  function EnsureNewer(parse: Parser, target: string, current: string): (r: Reason)
    ensures r.Fine? <==> Forward(parse, current, target)
    ensures r == Fine || r == NotNewer || r == VersionUncomparable
    ensures r == VersionUncomparable <==> parse(current).None? || parse(target).None?
  {
    ForwardOlder(parse, current, target);
    match VersionIsNewer(parse, target, current)
    case Some(true) => Fine
    case Some(false) => NotNewer
    case None => VersionUncomparable
  }

  /** Why a step that does not lead forward is refused. */
  ghost function Backward(parse: Parser, from: string, to: string): Reason {
    if parse(from).None? || parse(to).None? then VersionUncomparable else NotNewer
  }

  function ValidateRequest(w: World, req: Request): (r: Reason)
    ensures r.Fine? <==>
      && req.workId != "" && req.packageUrl != "" && w.digestHex(req.packageSha256).Some?
      && (req.targetVersion.Some? && req.targetVersion.value != "" && !req.allowDowngrade ==>
            Forward(w.parse, req.currentVersion, req.targetVersion.value))
    ensures r == SpecInvalid <==> req.workId == "" || req.packageUrl == ""
    ensures r == NotNewer || r == VersionUncomparable ==>
      && req.targetVersion.Some? && !req.allowDowngrade
      && !Forward(w.parse, req.currentVersion, req.targetVersion.value)
      && r == Backward(w.parse, req.currentVersion, req.targetVersion.value)
    ensures r == DigestInvalid ==>
      && w.digestHex(req.packageSha256).None?
      && (req.targetVersion.Some? && req.targetVersion.value != "" && !req.allowDowngrade ==>
            Forward(w.parse, req.currentVersion, req.targetVersion.value))
    ensures r in {Fine, SpecInvalid, NotNewer, VersionUncomparable, DigestInvalid}
  {
    var target := ProvidedTarget(req);
    if req.workId == "" || req.packageUrl == "" then SpecInvalid
    else if target.Some? && !req.allowDowngrade && !EnsureNewer(w.parse, target.value, req.currentVersion).Fine? then
      EnsureNewer(w.parse, target.value, req.currentVersion)
    else if w.digestHex(req.packageSha256).None? then DigestInvalid
    else Fine
  }

  /** The version this run goes to: the one the package reports, which a version given in the request must equal. */
  function ResolveTarget(w: World, req: Request, reported: string): (r: Result<string, Reason>)
    ensures r.Ok? ==> r.value == reported
    ensures r.Ok? <==> Resolves(w, req, reported)
    ensures r.Err? ==>
              if Agrees(req, reported) then r.error == Backward(w.parse, req.currentVersion, reported)
              else r.error == VersionMismatch
  {
    var target := ProvidedTarget(req);
    if target.Some? && target.value != reported then Err(VersionMismatch)
    else if !req.allowDowngrade && !EnsureNewer(w.parse, reported, req.currentVersion).Fine? then
      Err(EnsureNewer(w.parse, reported, req.currentVersion))
    else Ok(reported)
  }

  /** The version is the one asked for, if one was asked for: an empty one counts as none. */
  ghost predicate Agrees(req: Request, reported: string) {
    req.targetVersion.Some? && req.targetVersion.value != "" ==> req.targetVersion.value == reported
  }

  ghost predicate Resolves(w: World, req: Request, reported: string) {
    && Agrees(req, reported)
    && (req.allowDowngrade || Forward(w.parse, req.currentVersion, reported))
  }

  predicate Brings(staged: seq<Staged>, bin: Bin) {
    exists k :: 0 <= k < |staged| && staged[k].bin == bin
  }

  /** The artifact must not leave the machine with binaries of two versions. */
  predicate KeepsConsistent(staged: seq<Staged>, d: Dir) {
    && Brings(staged, Exec) == Brings(staged, Upgrader)
    && (Brings(staged, Exec) || (Installed(Exec) !in d && Installed(Upgrader) !in d))
  }

  /**
   The artifact has exec and upgrader or neither, and it has every known binary that is on disk: what it does not
   have would stay behind at the old version.
   */
  ghost predicate Covers(staged: seq<Staged>, d: Dir) {
    && (Names(staged, |staged|, Exec) <==> Names(staged, |staged|, Upgrader))
    && forall bin: Bin :: Installed(bin) in d ==> Names(staged, |staged|, bin)
  }

  lemma ConsistentCovers(staged: seq<Staged>, d: Dir)
    requires Names(staged, |staged|, Agentd)
    ensures KeepsConsistent(staged, d) <==> Covers(staged, d)
  {
    forall bin: Bin ensures Brings(staged, bin) <==> Names(staged, |staged|, bin) {
    }
    if KeepsConsistent(staged, d) {
      forall bin: Bin | Installed(bin) in d ensures Names(staged, |staged|, bin) {
        assert Brings(staged, bin);
      }
    }
  }

  /** Every known binary on disk comes from the artifact. */
  ghost predicate Unmixed(staged: seq<Staged>, d: Dir) {
    forall bin: Bin :: Installed(bin) in d ==>
      exists k :: 0 <= k < |staged| && staged[k].bin == bin && d[Installed(bin)] == staged[k].content
  }

  /** The check holds exactly for an artifact of regular shape of which installing leaves no mixture. */
  lemma CheckIsExact(staged: seq<Staged>, d0: Dir, version: string, d: Dir, backups: seq<BackupRec>)
    requires Replaced(d0, version, staged, |staged|, d, backups) && Names(staged, |staged|, Agentd)
    ensures KeepsConsistent(staged, d0) <==>
            && (Names(staged, |staged|, Exec) <==> Names(staged, |staged|, Upgrader))
            && Unmixed(staged, d)
  {
    forall bin: Bin | !Brings(staged, bin) ensures At(d, Installed(bin)) == At(d0, Installed(bin)) {
      assert !Names(staged, |staged|, bin);
      assert UpgradeInstall.Untouched(d0, version, d, bin);
    }
    if KeepsConsistent(staged, d0) {
      forall bin: Bin | Installed(bin) in d
        ensures exists k :: 0 <= k < |staged| && staged[k].bin == bin && d[Installed(bin)] == staged[k].content
      {
        assert Brings(staged, bin);
        var k :| 0 <= k < |staged| && staged[k].bin == bin;
        assert At(d, Installed(staged[k].bin)) == Some(staged[k].content);
      }
    }
  }

  // ----- waiting -------------------------------------------------------------------------------------

  method WaitForVersion(running: nat -> Option<string>, target: string, lastPoll: nat) returns (up: bool)
    ensures up <==> exists i :: 0 <= i <= lastPoll && running(i) == Some(target)
  {
    var i := 0;
    while true
      invariant i <= lastPoll && forall k :: 0 <= k < i ==> running(k) != Some(target)
      decreases lastPoll - i
    {
      if running(i) == Some(target) {
        return true;
      }
      if i >= lastPoll {
        return false;
      }
      i := i + 1;
    }
  }

  /** `staged` are the binaries of the package; a bare package is an agentd on its own. */
  ghost predicate StagedFrom(p: Package, staged: seq<Staged>) {
    match p
    case Bare(content) => staged == [Staged(Agentd, content)]
    case Tarball(unpacked) =>
      && Unpacks(p) && Usable(unpacked.value.entries)
      && Distinct(staged) && forall s: Staged :: s in staged <==> Holds(unpacked.value.entries, 0, s)
  }

  ghost predicate Unfolds(p: Package) {
    p.Tarball? ==> p.unpacked.Some? && p.unpacked.value.FolderNode?
  }

  ghost predicate Stageable(p: Package) {
    p.Tarball? ==> Unpacks(p) && Usable(p.unpacked.value.entries)
  }

  ghost predicate Unpacks(p: Package) {
    p.Tarball? ==> p.unpacked.Some? && p.unpacked.value.FolderNode? && p.unpacked.value.readable
  }

  method StagePackage(p: Package) returns (r: Result<seq<Staged>, Reason>)
    ensures r.Ok? ==> StagedFrom(p, r.value) && Distinct(r.value) && Names(r.value, |r.value|, Agentd)
    ensures r.Err? ==> r.error == if Unfolds(p) then ArtifactInvalid else StagingFailed
    ensures r.Ok? <==> Stageable(p)
  {
    if p.Bare? {
      var only := [Staged(Agentd, p.content)];
      assert only[0].bin == Agentd;
      return Ok(only);
    }
    if p.unpacked.None? || !p.unpacked.value.FolderNode? {
      return Err(StagingFailed);
    }
    var found := FindBinaries(p.unpacked.value);
    if found.Err? {
      return Err(ArtifactInvalid);
    }
    r := Ok(found.value);
  }

  // ----- the run -------------------------------------------------------------------------------------

  /** The package can be installed here: all checks that come before the first change pass. */
  ghost predicate Acceptable(w: World, req: Request, d: Dir, staged: seq<Staged>, target: string) {
    && ValidateRequest(w, req).Fine?
    && w.fetched.Some? && w.digestHex(req.packageSha256) == Some(w.digestOf(w.fetched.value))
    && StagedFrom(w.fetched.value, staged)
    && (exists k :: 0 <= k < |staged| && staged[k].bin == Agentd && w.reported(staged[k].content) == Some(target))
    && Resolves(w, req, target)
    && req.binDirKnown
    && Covers(staged, d)
  }

  /** The first check that fails, and what is said about it. */
  ghost predicate FailsAt(w: World, req: Request, d: Dir, step: Step, why: Reason) {
    if ValidateRequest(w, req) != Fine then step == Validate && why == ValidateRequest(w, req)
    else if w.fetched.None? then step == Fetch && why == PackageUnavailable
    else if w.digestHex(req.packageSha256) != Some(w.digestOf(w.fetched.value)) then
      step == VerifyDigest && why == DigestMismatch
    else if !Stageable(w.fetched.value) then
      step == Stage && why == (if Unfolds(w.fetched.value) then ArtifactInvalid else StagingFailed)
    else
      step == VerifyArtifact &&
      exists staged: seq<Staged>, k: nat ::
        && StagedFrom(w.fetched.value, staged) && k < |staged| && staged[k].bin == Agentd
        && match w.reported(staged[k].content)
           case None => why == ArtifactInvalid
           case Some(version) =>
             if !Agrees(req, version) then why == VersionMismatch
             else if !Resolves(w, req, version) then why == Backward(w.parse, req.currentVersion, version)
             else if !req.binDirKnown then why == NoBinDir
             else why == ArtifactInvalid && !Covers(staged, d)
  }

  /** What a final record promises about the bin directory `d0` before and `d` after the run. */
  ghost predicate Truthful(w: World, req: Request, dryRun: bool, d0: Dir, d: Dir, staged: seq<Staged>, rec: Record) {
    && rec.fromVersion == req.currentVersion
    && (dryRun || BeforeInstall(rec.step) ==> d == d0)
    && match rec.status
       case Running => false
       case Succeeded =>
         && Acceptable(w, req, d0, staged, rec.toVersion)
         && rec.detail == Fine && rec.step == (if dryRun then Install else WaitReady)
         && (!dryRun ==>
               && (forall k :: 0 <= k < |staged| ==> At(d, Installed(staged[k].bin)) == Some(staged[k].content))
               && Unmixed(staged, d)
               && w.restartWorks && Observed(w, rec.toVersion))
       case RolledBack =>
         && Acceptable(w, req, d0, staged, rec.toVersion)
         && ComesNotUp(w, rec)
         && RolledBackTo(d0, req.currentVersion, staged, |staged|, d)
       case Failed =>
         || BeforeInstall(rec.step)
         || (Acceptable(w, req, d0, staged, rec.toVersion) && ComesNotUp(w, rec))
         || (&& Acceptable(w, req, d0, staged, rec.toVersion)
             && rec.step == Install && rec.detail.InstallFailed? && rec.detail.error.at < |staged|
             && (rec.detail.error.undone ==> RolledBackTo(d0, req.currentVersion, staged, rec.detail.error.at, d)))
  }

  /** The restart failed, or the new version was not seen in time, and the record says which. */
  ghost predicate ComesNotUp(w: World, rec: Record) {
    if w.restartWorks then rec.step == WaitReady && rec.detail == NotReady && !Observed(w, rec.toVersion)
    else rec.step == Restart && rec.detail == RestartFailed
  }

  predicate BeforeInstall(step: Step) {
    step != Install && step != Restart && step != WaitReady
  }

  ghost predicate Observed(w: World, version: string) {
    exists i :: 0 <= i <= w.lastPoll && w.running(i) == Some(version)
  }

  /** Rolls the installed binaries back and tries to restart again; only a complete rollback counts as one. */
  method UndoInstall(bin: BinDir, req: Request, backups: seq<BackupRec>, ghost staged: seq<Staged>, ghost d0: Dir)
    returns (undone: bool)
    requires Distinct(staged) && Replaced(d0, req.currentVersion, staged, |staged|, bin.files, backups)
    modifies bin
    ensures undone ==> RolledBackTo(d0, req.currentVersion, staged, |staged|, bin.files)
    ensures old(bin.ops) <= bin.ops && (undone <==> AllWork(bin.fate, old(bin.ops), bin.ops))
    ensures |old(bin.states)| <= |bin.states| && bin.states[..|old(bin.states)|] == old(bin.states)
    ensures AllWhole(d0, req.currentVersion, staged, bin.states[|old(bin.states)|..])
  {
    ghost var d := bin.files;
    assert DistinctBackups(backups);
    undone := bin.RestoreBackups(backups);
    forall i | |old(bin.states)| <= i < |bin.states| ensures Whole(d0, req.currentVersion, staged, bin.states[i]) {
      RollingBackIsWhole(d0, req.currentVersion, staged, |staged|, d, backups, d, bin.states[i]);
    }
    forall k | 0 <= k < |backups| && backups[k].existed ensures Backup(backups[k].bin, backups[k].version) in d {
      assert At(d, Backup(staged[k].bin, req.currentVersion)) == Kept(d0, staged[k].bin, req.currentVersion);
    }
    if undone {
      RolledBackPart(d0, req.currentVersion, staged, |staged|, d, backups, d, bin.files);
    }
  }

  /** Everything up to the point where the bin directory is first touched. */
  method Prepare(w: World, req: Request, d: Dir)
    returns (staged: Result<seq<Staged>, Reason>, step: Step, target: string)
    ensures staged.Ok? ==> Acceptable(w, req, d, staged.value, target)
    ensures staged.Ok? ==> Distinct(staged.value) && Names(staged.value, |staged.value|, Agentd)
    ensures staged.Err? ==> BeforeInstall(step) && !staged.error.InstallFailed?
    ensures staged.Err? ==> FailsAt(w, req, d, step, staged.error)
    ensures staged.Err? && step != VerifyArtifact ==>
              target == if req.targetVersion.Some? then req.targetVersion.value else ""
    ensures staged.Err? ==> forall s: seq<Staged>, t: string :: !Acceptable(w, req, d, s, t)
  {
    step, target := Validate, if req.targetVersion.Some? then req.targetVersion.value else "";
    var bad := ValidateRequest(w, req);
    if !bad.Fine? {
      return Err(bad), step, target;
    }
    step := Fetch;
    if w.fetched.None? {
      return Err(PackageUnavailable), step, target;
    }
    step := VerifyDigest;
    if w.digestOf(w.fetched.value) != w.digestHex(req.packageSha256).value {
      return Err(DigestMismatch), step, target;
    }
    step := Stage;
    var found := StagePackage(w.fetched.value);
    if found.Err? {
      return Err(found.error), step, target;
    }
    step := VerifyArtifact;
    var k :| 0 <= k < |found.value| && found.value[k].bin == Agentd;
    var reported := w.reported(found.value[k].content);
    ConsistentCovers(found.value, d);
    forall s: seq<Staged>, t: string | Acceptable(w, req, d, s, t)
      ensures reported == Some(t) && Covers(found.value, d)
    {
      StagedOnce(w, req, d, found.value, k, s, t);
    }
    if reported.None? {
      return Err(ArtifactInvalid), step, target;
    }
    var resolved := ResolveTarget(w, req, reported.value);
    if resolved.Err? {
      return Err(resolved.error), step, target;
    }
    target := resolved.value;
    if !req.binDirKnown {
      return Err(NoBinDir), step, target;
    }
    if !KeepsConsistent(found.value, d) {
      return Err(ArtifactInvalid), step, target;
    }
    staged := found;
  }

  /** A package stages only one set of binaries: if any staging of it is acceptable, so is this one. */
  lemma StagedOnce(w: World, req: Request, d: Dir, found: seq<Staged>, k: nat, s: seq<Staged>, t: string)
    requires Acceptable(w, req, d, s, t) && StagedFrom(w.fetched.value, found) && Distinct(found)
    requires k < |found| && found[k].bin == Agentd
    ensures w.reported(found[k].content) == Some(t) && Covers(found, d)
  {
    forall x: Staged ensures x in s <==> x in found {
    }
    var i :| 0 <= i < |s| && s[i].bin == Agentd && w.reported(s[i].content) == Some(t);
    assert s[i] in found;
    forall bin: Bin ensures Names(s, |s|, bin) == Names(found, |found|, bin) {
      if j :| 0 <= j < |s| && s[j].bin == bin { assert s[j] in found; }
      if j :| 0 <= j < |found| && found[j].bin == bin { assert found[j] in s; }
    }
  }

  /** Runs one upgrade. The ghost result is what was staged; it is empty if the run did not get that far. */
  method Apply(bin: BinDir, w: World, req: Request, dryRun: bool) returns (rec: Record, ghost staged: seq<Staged>)
    modifies bin
    ensures Truthful(w, req, dryRun, old(bin.files), bin.files, staged, rec)
    ensures rec.status == Failed && !BeforeInstall(rec.step) ==> !AllWork(bin.fate, old(bin.ops), bin.ops)
    ensures rec.detail.InstallFailed? ==> BrokeOff(bin.fate, old(bin.ops), bin.ops, rec.detail.error.undone)
    ensures rec.status == Failed && BeforeInstall(rec.step) ==>
      FailsAt(w, req, old(bin.files), rec.step, rec.detail)
    ensures rec.status == Failed && BeforeInstall(rec.step) ==>
      forall s: seq<Staged>, t: string :: !Acceptable(w, req, old(bin.files), s, t)
    ensures |old(bin.states)| <= |bin.states| && bin.states[..|old(bin.states)|] == old(bin.states)
    ensures AllWhole(old(bin.files), req.currentVersion, staged, bin.states[|old(bin.states)|..])
  {
    ghost var d0, n := bin.files, |bin.states|;
    staged := [];
    var prepared, step, target := Prepare(w, req, bin.files);
    if prepared.Err? {
      return Record(req.currentVersion, target, step, Failed, prepared.error), staged;
    }
    staged := prepared.value;
    var installed := bin.InstallBinaries(prepared.value, req.currentVersion, dryRun);
    if installed.Err? {
      return Record(req.currentVersion, target, Install, Failed, InstallFailed(installed.error)), staged;
    }
    if dryRun {
      return Record(req.currentVersion, target, Install, Succeeded, Fine), staged;
    }
    ghost var states := bin.states;
    if !w.restartWorks {
      var undone := UndoInstall(bin, req, installed.value, staged, d0);
      JoinWhole(d0, req.currentVersion, staged, states, bin.states, n);
      return Record(req.currentVersion, target, Restart, if undone then RolledBack else Failed, RestartFailed), staged;
    }
    var up := WaitForVersion(w.running, target, w.lastPoll);
    if !up {
      var undone := UndoInstall(bin, req, installed.value, staged, d0);
      JoinWhole(d0, req.currentVersion, staged, states, bin.states, n);
      return Record(req.currentVersion, target, WaitReady, if undone then RolledBack else Failed, NotReady), staged;
    }
    ConsistentCovers(staged, d0);
    CheckIsExact(staged, d0, req.currentVersion, bin.files, installed.value);
    rec := Record(req.currentVersion, target, WaitReady, Succeeded, Fine);
  }

  lemma JoinWhole(d0: Dir, version: string, staged: seq<Staged>, a: seq<Dir>, b: seq<Dir>, n: nat)
    requires n <= |a| <= |b| && b[..|a|] == a
    requires AllWhole(d0, version, staged, a[n..]) && AllWhole(d0, version, staged, b[|a|..])
    ensures AllWhole(d0, version, staged, b[n..]) && b[..n] == a[..n]
  {
    forall k | 0 <= k < |b[n..]| ensures Whole(d0, version, staged, b[n..][k]) {
      if n + k < |a| {
        assert b[n..][k] == b[..|a|][n + k] == a[n..][k];
      } else {
        assert b[n..][k] == b[|a|..][n + k - |a|];
      }
    }
    assert b[..n] == b[..|a|][..n];
  }

  /** A rolled-back run has restored every installed binary exactly when no stale backup was in the way. */
  lemma RolledBackIsTruthful(w: World, req: Request, dryRun: bool, d0: Dir, d: Dir, staged: seq<Staged>, rec: Record)
    requires Truthful(w, req, dryRun, d0, d, staged, rec) && rec.status == RolledBack
    ensures (forall bin: Bin :: At(d, Installed(bin)) == At(d0, Installed(bin)))
       <==> Honest(d0, req.currentVersion, staged, |staged|)
  {
    RollbackIsExact(d0, req.currentVersion, staged, |staged|, d);
  }

  /** A directory with a backup left over from an earlier run at the running version. */
  const STALE: Dir := map[Installed(Agentd) := "now", Backup(Agentd, "1.0") := "then"]

  function Quoted(version: string): Option<seq<nat>> {
    if version == "1.0" then Some([1, 0]) else Some([2, 0])
  }

  lemma StaleIsAcceptable(w: World, req: Request)
    requires w.parse == Quoted && w.fetched == Some(Bare("next")) && w.restartWorks
    requires w.digestHex("digest") == Some("digest") && w.digestOf(Bare("next")) == "digest"
    requires w.reported("next") == Some("2.0")
    requires req == Request("work", None, "1.0", "url", "digest", false, true)
    ensures Acceptable(w, req, STALE, [Staged(Agentd, "next")], "2.0")
  {
    var only := [Staged(Agentd, "next")];
    assert only[0].bin == Agentd;
    OlderPrecedes([1, 0], [2, 0]);
  }

  /**
   A run in which every command works and the new version never comes up: it reports a rollback, and what it has
   rolled back to is the old backup, not what was installed.
   */
  method StaleBackupComesBack() returns (bin: BinDir, rec: Record)
    ensures fresh(bin) && bin.states != [] && bin.states[0] == STALE
    ensures rec.status == RolledBack && AllWork(bin.fate, 0, bin.ops)
    ensures At(bin.files, Installed(Agentd)) == Some("then") != At(STALE, Installed(Agentd))
  {
    bin := new BinDir(STALE, _ => Works);
    var w := World(Quoted, _ => Some("digest"), Some(Bare("next")), _ => "digest", _ => Some("2.0"),
                   true, _ => None, 0);
    var req := Request("work", None, "1.0", "url", "digest", false, true);
    ghost var staged;
    rec, staged := Apply(bin, w, req, false);
    StaleIsAcceptable(w, req);
    ghost var only := [Staged(Agentd, "next")];
    assert only[0].bin == Agentd;
    assert Names(only, 1, Agentd);
  }

  /** A finished run with everything its record speaks about. */
  datatype Finished = Finished(w: World, req: Request, dryRun: bool, d0: Dir, d: Dir, staged: seq<Staged>, rec: Record)

  /**
   Runs that may not downgrade, each starting from the version the previous one reached, visit strictly
   increasing versions.
   */
  lemma VersionsOnlyAdvance(parse: Parser, runs: seq<Finished>, i: nat, j: nat)
    requires forall k :: 0 <= k < |runs| ==>
      var r := runs[k];
      && Truthful(r.w, r.req, r.dryRun, r.d0, r.d, r.staged, r.rec)
      && r.rec.status == Succeeded && !r.req.allowDowngrade && r.w.parse == parse
    requires forall k :: 0 <= k < |runs| - 1 ==> runs[k + 1].rec.fromVersion == runs[k].rec.toVersion
    requires i < j < |runs|
    ensures Forward(parse, runs[i].rec.toVersion, runs[j].rec.toVersion)
  {
    var hops := seq(|runs|, k requires 0 <= k < |runs| => Hop(runs[k].rec.fromVersion, runs[k].rec.toVersion));
    forall k | 0 <= k < |hops| ensures Forward(parse, hops[k].from, hops[k].to) {
      assert Resolves(runs[k].w, runs[k].req, runs[k].rec.toVersion);
    }
    ForwardChain(parse, hops, i + 1, j);
  }
}
