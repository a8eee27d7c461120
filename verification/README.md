# A verified model of wist-agentd

`wist-agentd` is a host agent written in Rust. It investigates a machine (where the disk space
went, what loads it, who may log in), upgrades itself, and follows grants it polls from a gateway.
This project models the parts of it that keep state across steps and proves what they promise, in
Dafny. `dafny verify dfyconfig.toml` checks everything.

| files | what they model |
|---|---|
| `DiskTally`, `DiskLedger`, `DiskCensus` | a recursive `du` as the reference, a ledger that any run, however sliced, must balance against it, and which files and directories a balanced ledger holds |
| `DiskState`, `DiskSteps`, `DiskWalker`, `DiskWalk` | the bounded walker: its arena, cursors, budgets and hard-link table, each step it takes, and the walk from end to end |
| `DiskFair`, `DiskTurns` | the round-robin schedule, and its slices tied to the entries that were really read |
| `DiskTop`, `DiskReport`, `DiskResult`, `DiskOutcome` | the largest files found online, pruned ancestors, the hot path, and what the numbers and names of a report mean |
| `DiskGrowing` | the loops of the walk on a file system that changes under them |
| `UpgradeVersions`, `UpgradeArtifact`, `UpgradeInstall`, `UpgradeRun` | an upgrade: versions, the package, replacing and restoring binaries, the run with its final record |
| `Sshd`, `Sudoers` | the two include expanders |
| `Lock` | the single-instance lock over open file descriptions, with forks and crashes |
| `Safety` | the report redaction and the scanner on the way out |
| `Control` | the uplink grant and the snapshot policy over any sequence of polls |
| `Services` | grouping processes into services |
| `Basics` | options, results, saturating arithmetic, sorting |

How the outside world appears:

- The file system of a walk is (except in `DiskGrowing`) a finite map from directories to entries; a directory that is not a
  key cannot be opened. Clock, budget and options are arbitrary. An inode is given exactly for
  the files the agent deduplicates, those with more than one link.
- Every command of an upgrade succeeds or fails by an arbitrary `fate`; a failed copy may leave
  anything in its target, a rename is atomic. Every state the bin directory passes through is
  recorded, so a statement about all of them covers a crash at any point.
- Regular expressions, string trimming, digests, version parsing and the order of names are
  arbitrary functions.
- CPU figures are real numbers.

Three findings, each proved with an exact condition:

- A rollback restores what was installed if and only if any `.bak-<version>` that already lay
  there equals the installed file (`RollbackIsExact`); an older one is never refreshed, and a run in
  which every command works brings it back and reports `rolled_back` (`StaleBackupComesBack`).
- After redaction the scanner stays silent about values if and only if no marker that was put in
  matches a value rule itself (`CleanPassesScan`, `MarkerCaught`). Redacting again changes nothing if and
  only if each marker put in for a text by a value rule matches no value rule, or that same rule first
  (`CleanTwice`, `SecondPassChanges`); markers under forbidden keys are replaced by themselves and do not matter.
- A crash frees the instance lock if and only if no forked child still has a copy of the descriptor
  (`ExitFrees`, `OrphanedLock`), whereas a drop always frees it (`DropFrees`).

Where comments and code of the agent differ, the model follows the code:

- The scan root's listing is subject to the same budgets as everything else, so the list of
  top-level directories is complete only if that listing ended by itself.
- A directory beyond the arena's limit is counted but not opened; its contents are not in any sum.
- The 95 percent test of the ancestor pruning never fails, because candidates come largest first
  (`ThresholdIsIdle`): an ancestor is dropped as soon as something kept lies below it.
- A poll that brings no uplink grant keeps the last one; only for the snapshot policy does it mean withdrawal.

## Model

| member | source | states |
|---|---|---|
| `DiskLedger.DedupConserves` | src/investigate_disk.rs:1377-1389 | of any log of entries, counted bytes plus deduplicated bytes are all bytes of all names |
| `DiskLedger.CountedIsDistinct` | src/investigate_disk.rs:1377-1401 | counting only the first name of an inode yields each inode's size once, in any order, for every directory that holds all names of its inodes |
| `DiskLedger.BucketsConserve` | src/investigate_disk.rs:1306-1414 | the buckets partition the counted bytes: they add up to what the root holds |
| `DiskLedger.BucketMatches` | src/investigate_disk.rs:1306-1414 | a top-level directory's sum is its bucket's sum |
| `DiskLedger.ChildrenFit` | src/investigate_disk.rs:1119-1132 | two different children of a directory together never exceed it |
| `DiskLedger.BalancedBound` | src/investigate_disk.rs:1417-1486 | what was counted below a directory never exceeds its recursive count, and equals it once nothing is owed and nothing was left out |
| `DiskTally.DirOnce` | src/investigate_disk.rs:1306-1414 | if no listing gives two directories one name, the recursive count meets no path as a directory twice |
| `DiskCensus.PlainCounting` | src/investigate_disk.rs:1376-1401 | in every log a file without an inode is counted as often as the ledger's measure of that very path and size says |
| `DiskCensus.SharedCounting` | src/investigate_disk.rs:1377-1386 | a deduplicated inode is counted once if it was met, and never twice |
| `DiskCensus.PathsUnique` | src/investigate_disk.rs:1341-1372 | with distinct names, a ledger that does not exceed the reference has no path twice in the arena |
| `DiskCensus.PrefixAbove` | src/investigate_disk.rs:1119-1132 | then a directory whose path is a prefix of another's is one of its arena ancestors |
| `DiskCensus.AncestorFits` | src/investigate_disk.rs:1397-1401 | an arena ancestor, however far up, has at least the bytes of the directory below it |
| `DiskTop.OnlinePush` | src/investigate_disk.rs:1402-1413 | adding a file below the cut keeps the online list's invariant |
| `DiskTop.OnlineForget` | src/investigate_disk.rs:1402-1413 | a file at or below the floor can be forgotten without changing the final answer |
| `DiskTop.OnlineCut` | src/investigate_disk.rs:1402-1413 | cutting an overlong list to its first `top` files and raising the floor keeps the invariant |
| `DiskTop.OnlineFinish` | src/investigate_disk.rs:1490-1496 | sorting and truncating the online list gives the `top` largest of all files noted |
| `DiskTop.TopSizesUnique` | src/investigate_disk.rs:1490-1496 | the sizes of the `top` largest are determined, position by position, whichever ties are picked |
| `DiskTop.OnlineRefinesSort` | src/investigate_disk.rs:1402-1413 | the online list has the sizes that sorting everything and taking a prefix gives |
| `DiskFair.ShareFits` | src/investigate_disk.rs:1463-1486 | an even share never exceeds what remains and, if it is at least one entry, leaves one for each of the others in the queue |
| `DiskFair.QuantumIsShare` | src/investigate_disk.rs:1477-1478 | a slice is the largest even share of the entries left, but at least one and at most 4096 |
| `DiskFair.ShareLeavesEnough` | src/investigate_disk.rs:1463-1486 | the clamped share is at least one entry, no more than remains, and leaves at least one entry for each directory still waiting |
| `DiskFair.NoStarvation` | src/investigate_disk.rs:1463-1486 | from any point of any run with at least as many entries left as directories waiting, the directory waiting `j` places back is served `j` slices later and reads an entry, finishes or meets the deadline; the run cannot end before that except by the deadline |
| `DiskFair.AllServed` | src/investigate_disk.rs:1463-1486 | over a whole run that the deadline does not stop, with at least as many entries as directories, every one of them reads an entry or leaves the queue |
| `DiskTurns.ProgressMoves` | src/investigate_disk.rs:1280-1303 | reading in a directory moves exactly the entries read into the counts of the directories above it, and every new directory lies below the same top-level directory |
| `DiskTurns.TiedServe` | src/investigate_disk.rs:1463-1486 | one more slice keeps the tie between schedule and ledger: what the slices grant a top-level directory is what was taken in below it |
| `DiskTurns.OutcomeIsFair` | src/investigate_disk.rs:1457-1486 | so in a run that the deadline does not stop, with enough entries for one each, every directory that had work is finished or had an entry taken in |
| `DiskTurns.TimelyJoin` | src/investigate_disk.rs:1288-1294 | two stretches whose looks at the clock kept up with their work make one that did |
| `DiskTurns.DeadlineObeyed` | src/investigate_disk.rs:1288-1294 | if the deadline passes by look number `k`, no more was done than 512 entries for each look before it, and a run that got to that look says it ran out of time |
| `DiskState.AncestorChain` | src/investigate_disk.rs:1251-1277 | following parent ids from any arena node ends, and visits exactly the node and the directories above it, each once |
| `DiskSteps.AddToAncestors` | src/investigate_disk.rs:1397-1401 | exactly the directories on the way up grow by the size |
| `DiskSteps.NoteFile` | src/investigate_disk.rs:1402-1413 | floor test, append and mid-run truncation together keep the list a prefix of the full order |
| `DiskSteps.CountFile` | src/investigate_disk.rs:1387-1414 | a counted file leaves every counter, bucket, arena sum and the file list what the ledger says |
| `DiskSteps.CountDir` | src/investigate_disk.rs:1341-1372 | a subdirectory becomes an arena node that owes its contents, or is skipped beyond the depth limit or the arena limit, and the books balance in each case |
| `DiskState.RecountSums` | src/investigate_disk.rs:1306-1414 | each counter is the sum of what the logged entries are worth to it |
| `DiskWalker.Walker.constructor` | src/investigate_disk.rs:1212-1231 | a fresh walker is valid: nothing seen, an empty ledger, and the scan root as its only directory |
| `DiskWalker.Walker.Open` | src/investigate_disk.rs:1251-1277 | a directory that opens owes its entries; one that does not is settled as unreadable and noted |
| `DiskWalker.Walker.AbsorbDir` | src/investigate_disk.rs:1341-1372 | a subdirectory is booked on the walker as `CountDir` books it |
| `DiskWalker.Walker.AbsorbFile` | src/investigate_disk.rs:1376-1414 | a file counts once per inode, however many names it has |
| `DiskWalker.Walker.Absorb` | src/investigate_disk.rs:1306-1414 | whatever an entry is, taking it in moves exactly its worth from owed to counted |
| `DiskWalker.Walker.Advance` | src/investigate_disk.rs:1280-1303 | a slice takes in exactly as many entries as it says, all of them in that directory, at most its quantum and the entry budget, and pauses exactly with the quantum used up; it looks at the clock before its first entry and then once for every 512, and stops for time exactly at the look that finds the deadline passed: with the deadline already passed it takes in nothing |
| `DiskWalker.Walker.DrainSubtree` | src/investigate_disk.rs:1417-1455 | a turn ends on every tree; what it read lies below its own top-level directory; it ends exactly when nothing is left, pauses only with its quantum used up and runs out of entries only at the limit; every look at the clock pays for at most 512 entries or one directory opened, the first comes before any work, and it stops exactly at the one that finds the deadline passed |
| `DiskWalker.Walker.DrainRoundRobin` | src/investigate_disk.rs:1463-1486 | the turns start in the order the directories were found and form a run within the entry budget, tied to what was taken in: with enough entries for one each and no deadline every directory with work is finished or had an entry read; all done means nothing is owed; looks at the clock keep up with entries, opens and turns, and it stops exactly at the one that finds the deadline passed |
| `DiskReport.PruneNestedAncestors` | src/investigate_disk.rs:1614-1635 | at most `top` of the entries, the larger first and among equals the deeper; one that contains another listed one is strictly larger; an entry is missing only for a listed one in or below it that is no smaller, or because the list is full of entries that come before it |
| `DiskReport.ThresholdIsIdle` | src/investigate_disk.rs:1621-1628 | against a kept directory that is no smaller the 95 percent test adds nothing to nesting |
| `DiskReport.InsideIsSmaller` | src/investigate_disk.rs:1397-1401 | with distinct names per listing, no arena directory is smaller than one whose path lies inside it |
| `DiskReport.DroppedOnlyForEqual` | src/investigate_disk.rs:1614-1635 | with distinct names per listing, an arena directory is dropped only for a kept one below it with exactly the same bytes |
| `DiskReport.LargestChildren` | src/investigate_disk.rs:1646-1658 | for every node the first of its largest children, or none if it has none |
| `DiskReport.DominatesIsTested` | src/investigate_disk.rs:1670-1674 | the saturating comparison says 60 percent exactly if it is, or if a hundred times the child no longer fits 64 bits |
| `DiskReport.HotPath` | src/investigate_disk.rs:1643-1680 | every hop goes to the first of the largest children, which has at least 60 percent of its parent as far as 64-bit arithmetic can tell; it stops exactly when no child has that or at length 8; paths and bytes are those of the directories on it, and it is empty or 2 to 8 long |
| `DiskReport.TwoDominate` | src/investigate_disk.rs:1670-1674 | two parts can both hold 60 percent of a whole if and only if the whole is so large that the products saturate |
| `DiskReport.DominantChildUnique` | src/investigate_disk.rs:1643-1680 | below that size no two children of an arena directory dominate it |
| `DiskReport.HotPathUnique` | src/investigate_disk.rs:1643-1680 | every chain of dominating directories from the root is a beginning of the hot path |
| `DiskReport.HotPathDescends` | src/investigate_disk.rs:1643-1680 | bytes never grow along the hot path |
| `DiskResult.Accounting` | src/investigate_disk.rs:1306-1414 | at every moment the root's bytes, the total and the sum of the buckets agree, each top-level directory equals its bucket, which bears its name, every node is the sum of the counted files below it, parents precede children, and directories go untracked only with 800000 in the arena |
| `DiskResult.WalkIsLowerBound` | src/investigate_disk.rs:1417-1486 | whenever a run stops, no counter exceeds the recursive count, and the total does not exceed the `du` that counts each inode once |
| `DiskResult.DirectoryTotals` | src/investigate_disk.rs:1397-1401 | in any run, truncated or not, a directory with nothing owed or left out below it, whose inodes have all their names inside it, shows its own recursive `du` |
| `DiskResult.CompleteIsExact` | src/investigate_disk.rs:1568-1608 | after a complete run every counter is the recursive count, the total is `du` with each inode once, and the rest of the bytes are the deduplicated ones |
| `DiskResult.ElsewhereSettles` | src/investigate_disk.rs:1417-1486 | a directory below which nothing is owed and nothing was left out has met its recursive count in every measure, whatever is still owed elsewhere |
| `DiskResult.CompleteCensus` | src/investigate_disk.rs:1376-1414 | after a complete run the counted files are, path by path and inode by inode, those of the tree, and the candidates for the list are those of them that are large enough |
| `DiskResult.CompleteLists` | src/investigate_disk.rs:1489-1496 | so the reported files are the largest of the whole tree |
| `DiskWalk.LargestDirs` | src/investigate_disk.rs:1513-1526 | of the arena directories with bytes the 8 times `top` largest, at least 32, pruned to `top`; a listed directory that contains another listed one is strictly larger and comes first |
| `DiskWalk.IncompleteDirs` | src/investigate_disk.rs:1528-1545 | one entry for each top-level directory with work left, with its path and its bytes so far, no other, the largest first |
| `DiskOutcome.UnfinishedNamed` | src/investigate_disk.rs:1528-1545 | the entries are those of the unfinished directories and as many |
| `DiskOutcome.UnreadableExact` | src/investigate_disk.rs:1548-1555 | a top-level directory is named unreadable only if it cannot be opened, and is named if it was finished without being opened |
| `DiskOutcome.UnfinishedIsNamed` | src/investigate_disk.rs:1528-1547 | every top-level directory with work left is named in the report |
| `DiskOutcome.DoneIsExact` | src/investigate_disk.rs:1528-1558 | a top-level directory that the report of a truncated run does not name, and below which nothing was left out, has met its recursive count |
| `DiskOutcome.LargestIsExact` | src/investigate_disk.rs:1513-1526 | with distinct names, a directory that was considered is missing from the list only for a listed one of equal size inside it, or because the list is full of larger or equally large and deeper ones |
| `DiskOutcome.FinaleOutcome` | src/investigate_disk.rs:1463-1486 | what the end of the turns means for the ledger: all done and nothing owed, or the entries used up, or time over, and in the first two cases fair |
| `DiskOutcome.CompleteIsWhole` | src/investigate_disk.rs:1596-1608 | a complete run's report has exact counters, the largest files of the tree and an entry count equal to the tree's |
| `DiskWalk.Finish` | src/investigate_disk.rs:1489-1558 | the report names the largest files, exactly the unfinished top-level directories, every unreadable one, the largest directories without equal ancestors and the hot path of the final state |
| `DiskWalk.Conclude` | src/investigate_disk.rs:1596-1608 | the report of any run is a lower bound and exact below every top-level directory it does not name; a run that ended by itself reports nothing incomplete and, with nothing untracked, the whole tree; any other is marked truncated |
| `DiskWalk.ListRoot` | src/investigate_disk.rs:1581-1586 | the listing of the scan root takes in what it says and finds every top-level directory on the way; it looks at the clock before its first entry and keeps up with it; it is complete, or stopped at the entry limit, or for time exactly if a look found the deadline passed |
| `DiskWalk.TakeTurns` | src/investigate_disk.rs:1588-1601 | after a complete listing every top-level directory in the arena has its turn state; with time, and enough entries for the listing and one each, every one of them is finished or had an entry read |
| `DiskWalk.Walk` | src/investigate_disk.rs:1568-1608 | the entries read are those the ledger took in, never more than `max_entries`; truncated only if that many were read or a look at the clock found the deadline passed, and otherwise nothing is incomplete; a deadline that passes by look `k` leaves at most `512 * k` entries, less 512 for each directory opened below the root, and one that has passed before the start leaves none and marks the report; not truncated and nothing untracked: counters, entry count and largest files are those of the whole tree; in every case a lower bound, exact where nothing is named incomplete or left out; with time and enough entries for the root's listing and one each, every top-level directory was read |
| `DiskGrowing.Scanner.Advance` | src/investigate_disk.rs:1280-1303 | with reads that may give anything at any moment, a slice ends within its quantum and the entry budget |
| `DiskGrowing.Scanner.DrainSubtree` | src/investigate_disk.rs:1417-1455 | so does a turn, and it never needs more accesses than its pending directories and new entries pay for |
| `DiskGrowing.Scanner.DrainRoundRobin` | src/investigate_disk.rs:1463-1486 | the turns end: all directories done, or the entries used up |
| `DiskGrowing.Scanner.Walk` | src/investigate_disk.rs:1568-1608 | on any file system, growing or not, the walk ends after at most `max_entries` entries and at most three accesses for each entry plus two |
| `DiskGrowing.DebtsUpdate` | src/investigate_disk.rs:1463-1486 | serving one directory changes the accesses still to be paid for by its own share only |
| `UpgradeVersions.OlderTransitive` | src/upgrade.rs:1441-1480 | the order on dotted versions is transitive across different lengths |
| `UpgradeVersions.OlderIrreflexive` | src/upgrade.rs:1441-1480 | no version is older than itself |
| `UpgradeVersions.OlderTotal` | src/upgrade.rs:1441-1480 | of two versions one is older or they are equal |
| `UpgradeVersions.OlderPrecedes` | src/upgrade.rs:1441-1480 | it is the order of the first place where two versions differ: the larger number there is newer, and a version that continues another is newer than it |
| `UpgradeVersions.ForwardChain` | src/upgrade.rs:309-325 | a chain of forward steps leads from its start to a version that is newer at the first place where the two differ |
| `UpgradeArtifact.ReadFolder` | src/upgrade.rs:435-471 | reading one folder moves its known binaries and subfolders from owed to found or queued; an error means that the artifact cannot be used |
| `UpgradeArtifact.FindBinaries` | src/upgrade.rs:431-481 | succeeds if and only if the artifact is readable to its depth limit, has agentd, and each known binary at most once and as a regular file; the result lists exactly those, each once, in the order of their names |
| `UpgradeInstall.BinDir.constructor` | src/upgrade.rs:682-748 | the record of states starts with the directory as found |
| `UpgradeInstall.BinDir.ReplaceOne` | src/upgrade.rs:704-726 | the installed path holds the whole old or the whole new contents at every moment, and the backup is the one a rollback will use |
| `UpgradeInstall.BinDir.RestoreOne` | src/upgrade.rs:751-794 | puts back the backup, or removes what was not there before; a failure changes no installed file; it succeeds exactly if the backup it needs is there and every command works |
| `UpgradeInstall.BinDir.RestoreBackups` | src/upgrade.rs:751-794 | success restores every recorded binary; with all backups in place it succeeds exactly if every command works |
| `UpgradeInstall.BinDir.InstallBinaries` | src/upgrade.rs:682-748 | succeeds exactly if every command works, with all staged binaries in place; failure: one command failed, and the ones replaced were rolled back exactly if all commands after it worked, which the error says; dry run: nothing changes; in every state on the way each installed path is wholly old, wholly new or wholly its backup |
| `UpgradeInstall.RollbackIsExact` | src/upgrade.rs:705-712 | a rollback leaves every installed path exactly as before, absence included, if and only if no stale backup was in the way |
| `UpgradeRun.StaleBackupComesBack` | src/upgrade.rs:705-712 | a run from such a directory in which every command works and the new version never comes up: it ends as `rolled_back` with the old backup installed |
| `UpgradeRun.EnsureNewer` | src/upgrade.rs:309-325 | accepts exactly a target that is newer at the first place where the two differ; uncomparable exactly if one of the two does not parse |
| `UpgradeRun.ValidateRequest` | src/upgrade.rs:278-298 | accepts exactly the requests with an id, an address, a digest and no undeclared step back, an empty target counting as none; what it says otherwise is the first of these that fails |
| `UpgradeRun.ResolveTarget` | src/upgrade.rs:332-353 | the target is what the package reports, if that is the requested one, where one is given, and no undeclared step back; the error says which |
| `UpgradeRun.CheckIsExact` | src/upgrade.rs:498-534 | the check passes if and only if the artifact has exec and upgrader or neither, and installing it leaves no binary of another version |
| `UpgradeRun.ConsistentCovers` | src/upgrade.rs:498-534 | said before installing: if and only if it has both or neither, and every known binary on disk |
| `UpgradeRun.StagePackage` | src/upgrade.rs:536-594 | a bare package is agentd alone; an archive stages exactly its known binaries; it fails exactly if it does not unpack or is unusable, and says which |
| `UpgradeRun.WaitForVersion` | src/upgrade.rs:806-817 | true if and only if some poll up to the last one saw the target version |
| `UpgradeRun.Prepare` | src/upgrade.rs:1173-1213 | goes on exactly if the package is acceptable; otherwise step and reason are those of the first check that fails, no staging of it would be acceptable, and nothing was touched |
| `UpgradeRun.UndoInstall` | src/upgrade.rs:1224-1271 | restores every staged binary and says so exactly if every command of the undo works |
| `UpgradeRun.Apply` | src/upgrade.rs:1138-1273 | the final record is truthful: succeeded means all staged binaries in place, unmixed, the restart done and the target version seen running; rolled back means an acceptable package, a failed restart or a version that never came up, named as such, and everything restored; an early failure names the first check that fails; a failed installation says whether it was undone, which it was exactly if every command after the failing one worked; a dry run or an early failure leaves the directory as it was; no state on the way mixes contents |
| `UpgradeRun.RolledBackIsTruthful` | src/upgrade.rs:1224-1271 | `rolled_back` means the installed binaries equal the originals, if and only if no stale backup was in the way |
| `UpgradeRun.VersionsOnlyAdvance` | src/upgrade.rs:278-353 | any chain of succeeded runs without leave to downgrade has versions each newer, at the first place where they differ, than all before |
| `Sshd.Collector.Collect` | src/investigate_accounts.rs:865-879 | every readable file that was visited has been read exactly once, on cyclic includes too; the map and the set afterwards are those of the reference evaluation, which stops eight levels down |
| `Sshd.Collector.ApplyText` | src/investigate_accounts.rs:883-917 | the same for the lines of one file: includes in place, stop at `Match` |
| `Sshd.CollectMerges` | src/investigate_accounts.rs:865-917 | from any state, skipping files that were seen gives what reading them again would: their values are already decided |
| `Sshd.CollectedVisits` | src/investigate_accounts.rs:865-917 | on every set of files, cyclic or deep, the values are those of the settings met on the visit, in that order |
| `Sshd.MergeFirstWins` | src/investigate_accounts.rs:911-915 | of a list of settings each keyword gets the value and the file of its first one, and there are no other keywords |
| `Sshd.CollectorInlines` | src/investigate_accounts.rs:865-917 | for acyclic includes no deeper than the cap, evaluation with the `seen` set gives each keyword the value and the file of its first setting in the textually inlined configuration, and no other keyword |
| `Sshd.EffectiveValues` | src/investigate_accounts.rs:860-917 | the same for the code from the main file on; on every set of files, cyclic ones too, it ends with the first setting of each keyword on the visit |
| `SudoersGraph.Closure` | src/investigate_accounts.rs:605-649 | what include and includedir chains reach, through the files of listed directories too, is a finite closed set |
| `SudoersGraph.MergeConserves` | src/investigate_accounts.rs:555-560 | rules (with multiplicity) and alias lines of the merged text are the main text's plus those of the files read |
| `SudoersGraph.OrderIsIrrelevant` | src/investigate_accounts.rs:555-560 | rules and aliases depend on which files were read, not on the order |
| `Sudoers.ReadListing` | src/investigate_accounts.rs:631-642 | the files of a directory are read in order, skipping those read before |
| `Sudoers.ExpandSudoers` | src/investigate_accounts.rs:605-649 | ends on every map of files and directories; the result is the main text and exactly the reachable files, each once; its rules and aliases are theirs in any order |
| `LockProtocol.StepKeepsInv` | src/single_instance.rs:26-121 | every step of any process keeps: the lock's owner is the one description whose opener holds it, or one that a fork copied |
| `LockProtocol.RunKeepsInv` | src/single_instance.rs:26-121 | so does every interleaving of acquire, drop, probe, fork and exit |
| `LockProtocol.MutualExclusion` | src/single_instance.rs:40-81 | in every run there is at most one live instance lock, it owns the file's lock, and everyone else is refused |
| `LockProtocol.RefusalHasCause` | src/single_instance.rs:55-66 | a refusal means that a descriptor open at that moment refers to the description with the lock: a live lock, a probe in progress, or a copy a fork made |
| `LockProtocol.RunKeepsSpent` | src/single_instance.rs:26-35 | a description that was unlocked never gets the lock again in any later run |
| `LockProtocol.DropFrees` | src/single_instance.rs:26-35 | dropping frees the lock at once, with any number of forked copies, and no copy brings it back |
| `LockProtocol.CloseAloneFrees` | src/single_instance.rs:26-35 | closing without unlocking would free it if and only if no copy exists |
| `LockProtocol.ExitFrees` | src/single_instance.rs:3-6 | an exit or crash frees it if and only if no other process has a copy |
| `LockProtocol.OrphanedLock` | src/single_instance.rs:3-6 | a run in which a crash leaves the lock with a child |
| `LockProtocol.TryDecides` | src/single_instance.rs:72-81 | an attempt gets the lock exactly if nobody owns it at that moment, and otherwise changes nothing |
| `SingleInstance.LockFile.Acquire` | src/single_instance.rs:40-69 | succeeds exactly if the lock is free when tried, whatever others do in between; every failure has its reason and leaves no descriptor |
| `SingleInstance.LockFile.Drop` | src/single_instance.rs:26-35 | afterwards the descriptor is closed and its description can never own the lock again |
| `SingleInstance.LockFile.IsHeld` | src/single_instance.rs:108-121 | true exactly if somebody owns the lock when it looks; absent file means false and no file; it keeps the lock exactly if it got it and a copy of its descriptor survives |
| `SafetyPolicy.MarkerInjective` | src/investigate_safety.rs:208-213 | different rules leave different markers |
| `SafetyPolicy.FirstFinds` | src/investigate_safety.rs:183-191 | the rule found is the first in the list whose pattern matches, and none if and only if no pattern does |
| `Safety.CleanRedacts` | src/investigate_safety.rs:233-258 | the redacted tree is the one tree in which texts that a value rule matches and values under keys that a key rule matches are the marker of the first such rule, and all else is unchanged |
| `Safety.MarksScan` | src/investigate_safety.rs:226-231 | the scanner, with everything under forbidden keys out, finds as many hits as there are texts and fields to replace |
| `Safety.ScanReports` | src/investigate_safety.rs:396-423 | it reports a hit if and only if at that position a text matches a value rule, or a key matches a key rule, first under that id |
| `Safety.ScanAfterClean` | src/investigate_safety.rs:226-258 | the scan of a redacted tree follows hit by hit from the scan of what there was to redact |
| `Safety.CleanPassesScan` | src/investigate_safety.rs:396-423 | it reports key names only, if and only if no marker that was put in matches a value rule |
| `Safety.MarkerCaught` | src/investigate_safety.rs:208-213 | a policy for which it reports a value |
| `Safety.CleanTwice` | src/investigate_safety.rs:226-258 | redacting again changes nothing, if and only if each marker put in for a text by a value rule matches no value rule or the one it names |
| `Safety.SecondPassChanges` | src/investigate_safety.rs:226-258 | a policy and a text on which the second pass puts a different marker |
| `Safety.CleanAt` | src/investigate_safety.rs:233-258 | what is at every position of the redacted tree, in terms of the original |
| `Safety.LeafUntouched` | src/investigate_safety.rs:233-258 | a leaf that no rule matches and no forbidden key covers stays where and what it is |
| `Safety.WalkSanitize` | src/investigate_safety.rs:233-258 | rewrites the tree and counts as many replacements as the scanner finds once everything under forbidden keys is out |
| `Safety.SanitizeItems` | src/investigate_safety.rs:241-245 | the same over the elements of an array |
| `Safety.SanitizeField` | src/investigate_safety.rs:246-255 | one field: if a key rule matches its key, its value is the marker of the first that does, and otherwise its value redacted; counted as the scanner counts it |
| `Safety.SanitizeFields` | src/investigate_safety.rs:246-255 | the same over the fields of an object |
| `Safety.SanitizeValue` | src/investigate_safety.rs:226-231 | the result is redacted rule by rule, the returned count is the number of texts and fields replaced, and the exact condition under which the scan is clean |
| `Safety.ScanValues` | src/investigate_safety.rs:396-423 | appends exactly the hits of the tree, in document order: a position is reported if and only if its text matches a value rule or its key a key rule, under the id of the first that does |
| `Uplink.AppliedUplink.Observe` | src/control/uplink.rs:167-207 | grant and failure memory are what the polls so far decide; a line comes out exactly if the outcome is news, and for a grant it shows its switch, its port and its trimmed host |
| `Uplink.EffectDecides` | src/control/uplink.rs:216-223 | two grants count as the same exactly if switch, port and trimmed host agree, and as standby exactly with none of them set |
| `Uplink.LastDecides` | src/control/uplink.rs:167-207 | the last grant or rejection decides, whatever failed or brought nothing afterwards |
| `Uplink.NothingDecided` | src/control/uplink.rs:167-207 | without either there is no grant |
| `Uplink.RejectionHolds` | src/control/uplink.rs:181-194 | after a rejection the agent stands by until the next grant |
| `Uplink.RepeatIsSilent` | src/control/uplink.rs:158-223 | the same outcome again, clock readings aside, logs nothing and changes nothing in force |
| `SnapshotPolicy.AppliedSnapshotPolicy.Observe` | src/control/discovery_snapshot.rs:158-196 | as for the uplink, with withdrawal when a poll brings nothing; a grant is news exactly if its switch differs or its interval does above a minute |
| `SnapshotPolicy.LastDecides` | src/control/discovery_snapshot.rs:158-196 | the last poll that did not fail decides between the gateway's policy and the local one |
| `SnapshotPolicy.NothingDecided` | src/control/discovery_snapshot.rs:158-196 | failed polls alone leave the local configuration in force |
| `SnapshotPolicy.RepeatIsSilent` | src/control/discovery_snapshot.rs:154-204 | the same outcome again logs nothing and leaves the policy in force what it was |
| `SnapshotPolicy.EffectivePolicy` | src/control/discovery_snapshot.rs:225-244 | switch and interval are those of the grant, or of the configuration without one, the interval raised to 60 seconds if it is less, and the origin says whose |
| `Services.ExactServiceCpu` | src/investigate_load.rs:604-622 | a service has a figure exactly if one of its cgroups was read twice, and the figure times the real window is a hundred times the sum of what they used in between |
| `Services.UsageTotals` | src/investigate_load.rs:610-617 | the sums: of each cgroup the later reading less the earlier, nothing for one that was reset or read once |
| `Services.UsageConserved` | src/investigate_load.rs:610-617 | the services' shares add up to everything used: no cgroup is lost or counted twice |
| `Services.GroupProcesses` | src/investigate_load.rs:633-643 | per label the count, the sampled CPU, the capped memory and the first source |
| `Services.FromProcesses` | src/investigate_load.rs:644-666 | one group for each label that has processes, with the exact figure where there is one, and never a negative one |
| `Services.WithExited` | src/investigate_load.rs:667-680 | every label known only to the cgroups is added, once |
| `Services.ExactTotal` | src/investigate_load.rs:687-690 | every exact figure shows up in exactly one group |
| `Services.ProcessesConserved` | src/investigate_load.rs:633-666 | every process is counted in exactly one group |
| `Services.BuildServices` | src/investigate_load.rs:628-693 | the labels are distinct and those of the processes and of the exact figures together; the list returned is the beginning of the full list, by falling CPU, then memory, then name; both totals cover the full list |

## Left out

- Order among equals: the sorts break ties by path or name; except for services the model leaves ties open.
- The size of the buffer behind the list of the largest files, beyond being at least `top`: it does not show in any result.
- The order in which pending sudoers files and directories are taken up: rules and aliases are stated as sums over the files read.
- The list of top-level buckets (`top_dirs`) of the disk report: a filtered, sorted copy of sums that are modelled.
- Messages, sample strings, timestamps and every rendering of a finding, a record or a log line.
- What the numbers of a report mean on a file system that changes during a walk: they are compared with one snapshot. That the walk ends, and within which bounds, is proved for changing ones too, with the deadline left out, which can only end it sooner.
- Plain counters (files, directories, entries): the model does not wrap them at 64 bits; byte sums saturate as in the code.
- Real system calls, device numbers, archives, digests, the restart commands and the launch of the upgrader.
- The heartbeat and the stored form of an upgrade record; the record's value is modelled.
- A crash in the middle of writing a backup followed by a new run at the same version: runs are taken one at a time.
- `version_is_newer`'s parser: versions are parsed by an arbitrary function, compared segment by segment.
- Parsing of sshd and sudoers lines and the expansion of `Include` patterns: files are given as parsed lines and lists of paths.
- Sshd includes deeper than eight levels: the code gives up below, and the model does too, but the comparison with inlining stops there.
- The HTTP side of the polls: the model starts at the outcome of a poll.
- Regular expressions and the loading of the redaction policy; the whitelist checks of a report's shape.
- Floating point: CPU figures are real numbers, so rounding and the order of NaN are not modelled.
- The lock on platforms without `flock`.
- Other investigations (exposure, persistence, telemetry), `doctor`, configuration loading: probes and flat branch lists that would only add easy members.
