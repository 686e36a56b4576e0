/**
 Safety of the update transaction under a crash before, after or inside any disk step, any number of
 times: what a status on disk says about the managed files, and when a usable backup exists.
 */
module UpdateSafety {
  import opened Seqs
  import opened UpdateModel

  // ---- what a backup holds ----

  predicate CopiedUpTo(copy: Files, present: set<nat>, original: Files, n: nat) {
    && (forall i :: i in present ==> i < n)
    && (forall i: nat :: i < n ==> (i in present <==> At(original, Managed(i)) != Missing))
    && (forall i: nat :: i < n && i in present ==> At(copy, Managed(i)) == At(original, Managed(i)))
  }

  predicate MarkerCopied(b: Backup, original: Marker, runtimePresent: bool) {
    runtimePresent == (original != NoMarker) && (runtimePresent ==> b.marker == original)
  }

  /** presence.json and the copied trees are exact. */
  predicate TreesExact(b: Backup, original: Files) {
    b.present.Some? && CopiedUpTo(b.copy, b.present.value, original, MANAGED_COUNT)
  }

  /** A complete backup that gives back every managed path and the marker as they were. */
  predicate ExactBackup(s: Sys) {
    && s.disk.backup.complete.Some?
    && TreesExact(s.disk.backup, s.plan.original)
    && MarkerCopied(s.disk.backup, s.plan.originalMarker, s.disk.backup.complete.value)
  }

  predicate Untouched(s: Sys) {
    SameManaged(s.disk.files, s.plan.original) && s.disk.marker == s.plan.originalMarker
  }

  predicate TargetInPlace(s: Sys) {
    SameManaged(s.disk.files, s.plan.candidate)
  }

  predicate OriginalInPlace(s: Sys) {
    SameManaged(s.disk.files, s.plan.original)
  }

  // ---- the invariant ----

  /** What the files on disk say, whatever is running. */
  predicate DiskInv(s: Sys) {
    && (s.disk.backup.complete.Some? ==> ExactBackup(s))
    && (s.disk.txn.NoTxn? || Early(s.disk.txn) ==> Untouched(s))
    && (s.disk.txn.Txn? && s.disk.txn.status == Failed ==> Untouched(s))
    && (s.disk.txn.Txn? && s.disk.txn.status == Completed ==>
          TargetInPlace(s) && s.disk.marker.Marker? && s.disk.marker.version == s.plan.target &&
              s.disk.marker.mode == Active)
    && (s.disk.txn.Txn? && s.disk.txn.status == RolledBack ==>
          OriginalInPlace(s) && s.disk.marker.Marker? && s.disk.marker.version == s.plan.current &&
              s.disk.marker.mode == Active)
    && (Late(s.disk.txn) && s.disk.backup.complete.None? ==> Untouched(s))
    && (s.disk.txn.Txn? && s.disk.txn.status == Prepared ==> s.disk.backup == NoBackup)
  }

  predicate BeforeBackup(at: ApplyAt) {
    at.ValidateCandidate? || at.WriteApplying? || at.PreparePython? || at.WriteBackingUp? || at.MakeBackupRoot?
  }

  /** apply_transaction before it is done copying: nothing has been replaced. */
  predicate BackupPhase(s: Sys, at: ApplyAt) {
    (BeforeBackup(at) ==> s.disk.backup == NoBackup) &&
    (at.BackUp? || at.WritePresence? || at.CopyMarker? || at.WriteComplete? ==> s.disk.backup.complete.None?) &&
    match at
    case BackUp(i, present, _) => i < MANAGED_COUNT && CopiedUpTo(s.disk.backup.copy, present, s.plan.original, i)
    case WritePresence(present, _) => CopiedUpTo(s.disk.backup.copy, present, s.plan.original, MANAGED_COUNT)
    case CopyMarker(_) => TreesExact(s.disk.backup, s.plan.original)
    case WriteComplete(runtimePresent, _) =>
      TreesExact(s.disk.backup, s.plan.original) && MarkerCopied(s.disk.backup, s.plan.originalMarker, runtimePresent)
    case _ => true
  }

  /** The steps at which apply_transaction has replaced nothing. */
  predicate BeforeReplacement(at: ApplyAt) {
    BeforeBackup(at) || at.BackUp? || at.WritePresence? || at.CopyMarker? || at.WriteComplete? ||
    at.WriteBackupComplete? || at.WriteReplacing? || at.CheckCandidate? || at.AbortClear? || at.AbortWrite?
  }

  predicate NeedsBackup(at: ApplyAt) {
    at.WriteBackupComplete? || at.WriteReplacing? || at.CheckCandidate? || at.Install? || AfterReplacement(at)
  }

  predicate AfterReplacement(at: ApplyAt) {
    at.WriteMarker? || AfterMarker(at)
  }

  predicate AfterMarker(at: ApplyAt) {
    at.ClearPending? || at.WriteMonitoring? || at.SpawnTargetWatch? || at.WriteMonitoringTarget? || at.ExecRuntime?
  }

  predicate ApplyInv(s: Sys, at: ApplyAt) {
    && s.disk.txn.Txn? && !Terminal(s.disk.txn)
    && (StageInMemory(at) in {PreparingDependencies, BackingUp} ==> s.disk.txn.status == ApplyingStatus)
    && (BeforeReplacement(at) ==> Untouched(s) && BackupPhase(s, at))
    && (NeedsBackup(at) ==> ExactBackup(s))
    && (at.CheckCandidate? || at.Install? || AfterReplacement(at) ==> Late(s.disk.txn))
    && (at.Install? ==> at.i < MANAGED_COUNT && SameUpTo(s.disk.files, s.plan.candidate, at.i))
    && (AfterReplacement(at) ==> TargetInPlace(s))
    && (AfterMarker(at) ==> s.disk.marker.Marker? && s.disk.marker.version == s.plan.target)
    && (at.AbortLate? ==> ExactBackup(s) || Untouched(s))
  }

  predicate AfterRestore(at: RecoverAt) {
    at.RestoreMarker? || at.WriteRollbackMarker? || AfterRollbackMarker(at)
  }

  predicate AfterRollbackMarker(at: RecoverAt) {
    at.ClearAfterRestore? || at.WriteMonitoringRollback? || at.SpawnRollbackWatch?
  }

  predicate RecoverInv(s: Sys, at: RecoverAt) {
    && (at.ReadTransaction? || (s.disk.txn.Txn? && !Terminal(s.disk.txn)))
    && (at.ClearEarly? || at.FailEarly? ==> Untouched(s))
    && (at.WriteIncomplete? || at.WriteRestoreFailed? ==> ExactBackup(s) || Untouched(s))
    && (at.WriteRestoring? || at.Restore? || AfterRestore(at) ==> ExactBackup(s))
    && (at.Restore? || AfterRestore(at) ==> Late(s.disk.txn))
    && (at.Restore? ==> at.i < MANAGED_COUNT && SameUpTo(s.disk.files, s.plan.original, at.i) &&
                        (at.half.Copying? ==> At(s.plan.original, Managed(at.i)) != Missing))
    && (AfterRestore(at) ==> OriginalInPlace(s))
    && (at.WriteRollbackMarker? ==> s.disk.marker == s.plan.originalMarker)
    && (AfterRollbackMarker(at) ==> s.disk.marker.Marker? && s.disk.marker.version == s.plan.current)
  }

  predicate ProcInv(s: Sys) {
    match s.proc
    case Down => s.watch.NoWatch?
    case App(prep) =>
      prep != Idle ==>
        && s.watch.NoWatch? && s.disk.txn.Txn? && !Late(s.disk.txn)
        && Untouched(s) && s.disk.backup == NoBackup
    case Applying(at) =>
      && ApplyInv(s, at)
      && (s.watch == NoWatch ||
          (s.watch == Watching(TargetWatch) && (at.WriteMonitoringTarget? || at.ExecRuntime? || at.AbortLate?)))
    case Recovering(at) => RecoverInv(s, at) && s.watch.NoWatch?
  }

  /** A live watchdog watches the version that is in place, and its transaction is still open. */
  predicate WatchInv(s: Sys) {
    s.watch == NoWatch || (
      && Late(s.disk.txn) && ExactBackup(s)
      && s.disk.marker.Marker?
      && (s.watch.mode == TargetWatch ==> TargetInPlace(s) && s.disk.marker.version == s.plan.target)
      && (s.watch.mode == RollbackWatch ==> OriginalInPlace(s) && s.disk.marker.version == s.plan.current)
      && (s.watch.Marked? ==> s.disk.marker.mode == Active && s.proc == App(Idle))
    )
  }

  predicate Inv(s: Sys) {
    DiskInv(s) && ProcInv(s) && WatchInv(s)
  }

  // ---- every step keeps it ----

  /** With an exact backup and an open transaction any single managed path may hold anything. */
  lemma NodeWrite(s: Sys, i: nat, n: Node)
    requires DiskInv(s) && Late(s.disk.txn) && ExactBackup(s)
    ensures DiskInv(WithNode(s, i, n)) && ExactBackup(WithNode(s, i, n))
  {
  }

  /** While nothing has been replaced an unfinished backup may hold anything. */
  lemma BackupWrite(s: Sys, b: Backup)
    requires DiskInv(s) && Untouched(s) && s.disk.txn.Txn? && !Terminal(s.disk.txn) && s.disk.txn.status != Prepared
    requires b.complete.None?
    ensures DiskInv(WithBackup(s, b)) && Untouched(WithBackup(s, b))
  {
  }

  lemma CopyOne(copy: Files, present: set<nat>, original: Files, i: nat)
    requires CopiedUpTo(copy, present, original, i)
    ensures var n := At(original, Managed(i));
            if n == Missing then CopiedUpTo(copy, present, original, i + 1)
            else CopiedUpTo(copy[Managed(i) := n], present + {i}, original, i + 1)
  {
  }

  lemma MakeRootStep(s: Sys, at: ApplyAt, input: int)
    requires Inv(s) && s.proc == Applying(at) && at.MakeBackupRoot?
    ensures Inv(ApplyNext(s, at, input))
  {
    BackupWrite(s, NoBackup.(root := true));
  }

  lemma BackUpStep(s: Sys, at: ApplyAt, input: int)
    requires Inv(s) && s.proc == Applying(at) && at.BackUp?
    ensures Inv(ApplyNext(s, at, input))
  {
    var n := At(s.disk.files, Managed(at.i));
    assert n == At(s.plan.original, Managed(at.i));
    BackupWrite(s, s.disk.backup.(copy := s.disk.backup.copy[Managed(at.i) := n]));
    CopyOne(s.disk.backup.copy, at.present, s.plan.original, at.i);
  }

  lemma BackupWrites(s: Sys, at: ApplyAt, input: int)
    requires Inv(s) && s.proc == Applying(at) && (at.WritePresence? || at.CopyMarker? || at.WriteComplete?)
    ensures Inv(ApplyNext(s, at, input))
  {
  }

  lemma EarlyWrites(s: Sys, at: ApplyAt, input: int)
    requires Inv(s) && s.proc == Applying(at)
    requires at.ValidateCandidate? || at.WriteApplying? || at.PreparePython? || at.WriteBackingUp?
    ensures Inv(ApplyNext(s, at, input))
  {
  }

  lemma AbortWrites(s: Sys, at: ApplyAt, input: int)
    requires Inv(s) && s.proc == Applying(at) && (at.AbortClear? || at.AbortWrite?)
    ensures Inv(ApplyNext(s, at, input))
  {
  }

  lemma StageWrites(s: Sys, at: ApplyAt, input: int)
    requires Inv(s) && s.proc == Applying(at) && (at.WriteBackupComplete? || at.WriteReplacing?)
    ensures Inv(ApplyNext(s, at, input))
  {
  }

  lemma CandidateCheck(s: Sys, at: ApplyAt, input: int)
    requires Inv(s) && s.proc == Applying(at) && at.CheckCandidate?
    ensures Inv(ApplyNext(s, at, input))
  {
  }

  lemma MarkerWrite(s: Sys, at: ApplyAt, input: int)
    requires Inv(s) && s.proc == Applying(at) && at.WriteMarker?
    ensures Inv(ApplyNext(s, at, input))
  {
  }

  lemma RemoveForInstall(s: Sys, at: ApplyAt, input: int)
    requires Inv(s) && s.proc == Applying(at) && at.Install? && at.half.Removing?
    ensures Inv(ApplyNext(s, at, input))
  {
    NodeWrite(s, at.i, Missing);
  }

  lemma CopyForInstall(s: Sys, at: ApplyAt, input: int)
    requires Inv(s) && s.proc == Applying(at) && at.Install? && at.half.Copying?
    ensures Inv(ApplyNext(s, at, input))
  {
    var n := At(s.plan.candidate, Managed(at.i));
    NodeWrite(s, at.i, n);
    OneMoreInPlace(s.disk.files, s.plan.candidate, at.i);
    assert ApplyNext(s, at, input).disk == WithNode(s, at.i, n).disk;
  }

  lemma OneMoreInPlace(files: Files, candidate: Files, i: nat)
    requires SameUpTo(files, candidate, i)
    ensures SameUpTo(files[Managed(i) := At(candidate, Managed(i))], candidate, i + 1)
  {
  }

  lemma InstallStep(s: Sys, at: ApplyAt, input: int)
    requires Inv(s) && s.proc == Applying(at) && at.Install?
    ensures Inv(ApplyNext(s, at, input))
  {
    if at.half.Removing? {
      RemoveForInstall(s, at, input);
    } else {
      CopyForInstall(s, at, input);
    }
  }

  lemma TargetWrites(s: Sys, at: ApplyAt, input: int)
    requires Inv(s) && s.proc == Applying(at) && (at.ClearPending? || at.WriteMonitoring?)
    ensures Inv(ApplyNext(s, at, input))
  {
  }

  lemma TargetSpawn(s: Sys, at: ApplyAt, input: int)
    requires Inv(s) && s.proc == Applying(at) && at.SpawnTargetWatch?
    ensures Inv(ApplyNext(s, at, input))
  {
  }

  lemma LastWrites(s: Sys, at: ApplyAt, input: int)
    requires Inv(s) && s.proc == Applying(at) && (at.WriteMonitoringTarget? || at.ExecRuntime? || at.AbortLate?)
    ensures Inv(ApplyNext(s, at, input))
  {
  }

  lemma ApplyNextSafe(s: Sys, at: ApplyAt, input: int)
    requires Inv(s) && s.proc == Applying(at)
    ensures Inv(ApplyNext(s, at, input))
  {
    if at.MakeBackupRoot? {
      MakeRootStep(s, at, input);
    } else if at.BackUp? {
      BackUpStep(s, at, input);
    } else if at.WritePresence? || at.CopyMarker? || at.WriteComplete? {
      BackupWrites(s, at, input);
    } else if at.ClearPending? || at.WriteMonitoring? {
      TargetWrites(s, at, input);
    } else if at.SpawnTargetWatch? {
      TargetSpawn(s, at, input);
    } else if at.WriteMonitoringTarget? || at.ExecRuntime? || at.AbortLate? {
      LastWrites(s, at, input);
    } else if at.WriteBackupComplete? || at.WriteReplacing? {
      StageWrites(s, at, input);
    } else if at.CheckCandidate? {
      CandidateCheck(s, at, input);
    } else if at.WriteMarker? {
      MarkerWrite(s, at, input);
    } else if at.AbortClear? || at.AbortWrite? {
      AbortWrites(s, at, input);
    } else if at.Install? {
      InstallStep(s, at, input);
    } else {
      EarlyWrites(s, at, input);
    }
  }

  lemma AbortFails(s: Sys, at: ApplyAt)
    requires Inv(s) && s.proc == Applying(at) && (at.AbortClear? || at.AbortWrite? || at.AbortLate?)
    ensures Inv(ApplyFails(s, at))
  {
  }

  lemma ApplyFailsEarly(s: Sys, at: ApplyAt)
    requires Inv(s) && s.proc == Applying(at) && !at.AbortClear? && !at.AbortWrite? && !at.AbortLate?
    requires StageInMemory(at) in {PreparingDependencies, BackingUp}
    ensures Inv(ApplyFails(s, at))
  {
  }

  lemma ApplyFailsLate(s: Sys, at: ApplyAt)
    requires Inv(s) && s.proc == Applying(at) && !at.AbortClear? && !at.AbortWrite? && !at.AbortLate?
    requires StageInMemory(at) !in {PreparingDependencies, BackingUp}
    ensures Inv(ApplyFails(s, at))
  {
  }

  lemma ApplyFailsSafe(s: Sys, at: ApplyAt)
    requires Inv(s) && s.proc == Applying(at)
    ensures Inv(ApplyFails(s, at))
  {
    if at.AbortClear? || at.AbortWrite? || at.AbortLate? {
      AbortFails(s, at);
    } else if StageInMemory(at) in {PreparingDependencies, BackingUp} {
      ApplyFailsEarly(s, at);
    } else {
      ApplyFailsLate(s, at);
    }
  }

  lemma RecoverReads(s: Sys, at: RecoverAt)
    requires Inv(s) && s.proc == Recovering(at) && (at.ReadTransaction? || at.ClearEarly? || at.FailEarly?)
    ensures Inv(RecoverNext(s, at))
  {
  }

  lemma RecoverWrites(s: Sys, at: RecoverAt)
    requires Inv(s) && s.proc == Recovering(at) && (at.WriteIncomplete? || at.WriteRestoring? || at.WriteRestoreFailed?)
    ensures Inv(RecoverNext(s, at))
  {
  }

  lemma RemoveForRestore(s: Sys, at: RecoverAt)
    requires Inv(s) && s.proc == Recovering(at) && at.Restore? && at.half.Removing?
    ensures Inv(RecoverNext(s, at))
  {
    NodeWrite(s, at.i, Missing);
    assert at.i in s.disk.backup.present.value <==> At(s.plan.original, Managed(at.i)) != Missing;
  }

  lemma CopyForRestore(s: Sys, at: RecoverAt)
    requires Inv(s) && s.proc == Recovering(at) && at.Restore? && at.half.Copying?
    ensures Inv(RecoverNext(s, at))
  {
    var n := At(s.disk.backup.copy, Managed(at.i));
    assert n == At(s.plan.original, Managed(at.i));
    NodeWrite(s, at.i, n);
  }

  lemma RestoreStep(s: Sys, at: RecoverAt)
    requires Inv(s) && s.proc == Recovering(at) && at.Restore?
    ensures Inv(RecoverNext(s, at))
  {
    if at.half.Removing? {
      RemoveForRestore(s, at);
    } else {
      CopyForRestore(s, at);
    }
  }

  lemma RestoreEnd(s: Sys, at: RecoverAt)
    requires Inv(s) && s.proc == Recovering(at) && AfterRestore(at)
    ensures Inv(RecoverNext(s, at))
  {
  }

  lemma RecoverNextSafe(s: Sys, at: RecoverAt)
    requires Inv(s) && s.proc == Recovering(at)
    ensures Inv(RecoverNext(s, at)) && Inv(RecoverFails(s, at))
  {
    if at.Restore? {
      RestoreStep(s, at);
    } else if AfterRestore(at) {
      RestoreEnd(s, at);
    } else if at.ReadTransaction? || at.ClearEarly? || at.FailEarly? {
      RecoverReads(s, at);
    } else {
      RecoverWrites(s, at);
    }
  }

  lemma PrepareSafe(s: Sys, at: PrepareAt)
    requires Inv(s) && s.proc == App(at)
    ensures Inv(PrepareNext(s, at)) && Inv(PrepareFails(s, at))
  {
  }

  lemma TornReplacement(s: Sys, junk: Node)
    requires Inv(s)
    requires (s.proc.Applying? && s.proc.app.Install?) || (s.proc.Recovering? && s.proc.rec.Restore?)
    ensures Inv(Torn(s, junk))
  {
    NodeWrite(s, if s.proc.Applying? then s.proc.app.i else s.proc.rec.i, junk);
  }

  lemma TornBackup(s: Sys, junk: Node)
    requires Inv(s)
    requires s.proc.Applying? && (s.proc.app.BackUp? || s.proc.app.CopyMarker?)
    ensures Inv(Torn(s, junk))
  {
  }

  lemma TornSafe(s: Sys, junk: Node)
    requires Inv(s)
    ensures Inv(Torn(s, junk))
  {
    if s.proc.Applying? && s.proc.app.Install? {
      TornReplacement(s, junk);
    } else if s.proc.Recovering? && s.proc.rec.Restore? {
      TornReplacement(s, junk);
    } else if s.proc.Applying? && (s.proc.app.BackUp? || s.proc.app.CopyMarker?) {
      TornBackup(s, junk);
    }
  }

  /** What a tear can do: leave anything at the path or the copy in hand, and an unreadable marker. */
  lemma TearLeavesAnything(s: Sys, junk: Node, i: nat, half: Half, python: int, present: set<nat>)
    requires i < MANAGED_COUNT
    ensures s.proc == Applying(Install(i, half, python)) || s.proc == Recovering(Restore(i, half)) ==>
              Do(s, Tear(junk)) == WithNode(s, i, junk)
    ensures s.proc == Applying(BackUp(i, present, python)) && At(s.disk.files, Managed(i)) != Missing ==>
              At(Do(s, Tear(junk)).disk.backup.copy, Managed(i)) == junk
    ensures s.proc == Applying(CopyMarker(python)) && s.disk.marker != NoMarker ==>
              Do(s, Tear(junk)).disk.backup.marker == Garbled
    ensures s.proc == Recovering(RestoreMarker) && s.disk.backup.complete == Some(true)
            && s.disk.backup.marker != NoMarker ==>
              Do(s, Tear(junk)).disk.marker == Garbled
  {
  }

  lemma WatchCloses(s: Sys)
    requires Inv(s)
    ensures Inv(Do(s, WatchWrites))
  {
  }

  lemma WatchMarks(s: Sys)
    requires Inv(s)
    ensures Inv(Do(s, WatchHealthy))
  {
  }

  lemma WatchFails(s: Sys)
    requires Inv(s)
    ensures Inv(Do(s, WatchUnhealthy))
  {
  }

  lemma WatchGoes(s: Sys)
    requires Inv(s)
    ensures Inv(Do(s, WatchDies))
  {
  }

  lemma WatchSafe(s: Sys, a: Action)
    requires Inv(s) && (a.WatchHealthy? || a.WatchWrites? || a.WatchUnhealthy? || a.WatchDies?)
    ensures Inv(Do(s, a))
  {
    if a.WatchWrites? {
      WatchCloses(s);
    } else if a.WatchHealthy? {
      WatchMarks(s);
    } else if a.WatchUnhealthy? {
      WatchFails(s);
    } else {
      WatchGoes(s);
    }
  }

  lemma AppSafe(s: Sys, a: Action)
    requires Inv(s) && (a.Prepare? || a.FailPrepared? || a.HandOff? || a.Crash? || a.Boot? || a.SkipTransaction?)
    ensures Inv(Do(s, a))
  {
  }

  /** Every action, a crash at any point included, keeps the invariant. */
  lemma StepSafe(s: Sys, a: Action)
    requires Inv(s)
    ensures Inv(Do(s, a))
  {
    match a {
      case Advance(input) =>
        match s.proc {
          case Down =>
          case Applying(at) => ApplyNextSafe(s, at, input);
          case Recovering(at) => RecoverNextSafe(s, at);
          case App(at) => PrepareSafe(s, at);
        }
      case Fail =>
        match s.proc {
          case Down =>
          case Applying(at) => ApplyFailsSafe(s, at);
          case Recovering(at) => RecoverNextSafe(s, at);
          case App(at) => PrepareSafe(s, at);
        }
      case Tear(junk) => TornSafe(s, junk);
      case WatchHealthy => WatchSafe(s, a);
      case WatchWrites => WatchSafe(s, a);
      case WatchUnhealthy => WatchSafe(s, a);
      case WatchDies => WatchSafe(s, a);
      case _ => AppSafe(s, a);
    }
  }

  lemma {:induction false} RunSafe(s: Sys, actions: seq<Action>)
    requires Inv(s)
    ensures Inv(Run(s, actions))
    decreases |actions|
  {
    if actions != [] {
      StepSafe(s, actions[0]);
      RunSafe(Do(s, actions[0]), actions[1..]);
    }
  }

  lemma FreshSafe(files: Files, marker: Marker)
    ensures Inv(Fresh(files, marker))
  {
  }

  /** s can be reached from an installation that was never updated. */
  ghost predicate Reachable(s: Sys) {
    exists files, marker, actions :: s == Run(Fresh(files, marker), actions)
  }

  lemma ReachableInv(s: Sys)
    requires Reachable(s)
    ensures Inv(s)
  {
    var files, marker, actions :| s == Run(Fresh(files, marker), actions);
    FreshSafe(files, marker);
    RunSafe(Fresh(files, marker), actions);
  }

  predicate HasStatus(s: Sys, status: Status) {
    s.disk.txn.Txn? && s.disk.txn.status == status
  }

  /**
   Update safety, for every run: a completed update has the candidate in every managed path, a failed or
   rolled-back one the original, the runtime marker agrees, and whenever a path differs from the original
   without a completed update there is a complete and exact backup.
   */
  lemma UpdateSafety(s: Sys)
    requires Reachable(s)
    ensures HasStatus(s, Completed) ==>
              SameManaged(s.disk.files, s.plan.candidate) &&
              s.disk.marker.Marker? && s.disk.marker.version == s.plan.target && s.disk.marker.mode == Active
    ensures HasStatus(s, Failed) ==>
            SameManaged(s.disk.files, s.plan.original) && s.disk.marker == s.plan.originalMarker
    ensures HasStatus(s, RolledBack) ==>
              SameManaged(s.disk.files, s.plan.original) &&
              s.disk.marker.Marker? && s.disk.marker.version == s.plan.current && s.disk.marker.mode == Active
    ensures !SameManaged(s.disk.files, s.plan.original) && !HasStatus(s, Completed) ==> ExactBackup(s)
  {
    ReachableInv(s);
  }

  // ---- nothing else changes ----

  /** Paths that are none of MANAGED_PATHS. */
  predicate Outside(p: Path) {
    p.Unmanaged? || p.index >= MANAGED_COUNT
  }

  lemma ApplyLeavesOthers(s: Sys, at: ApplyAt, input: int, p: Path)
    requires Inv(s) && s.proc == Applying(at) && Outside(p)
    ensures At(ApplyNext(s, at, input).disk.files, p) == At(s.disk.files, p)
    ensures At(ApplyFails(s, at).disk.files, p) == At(s.disk.files, p)
  {
  }

  lemma RecoverLeavesOthers(s: Sys, at: RecoverAt, p: Path)
    requires Inv(s) && s.proc == Recovering(at) && Outside(p)
    ensures At(RecoverNext(s, at).disk.files, p) == At(s.disk.files, p)
    ensures At(RecoverFails(s, at).disk.files, p) == At(s.disk.files, p)
  {
  }

  lemma TornLeavesOthers(s: Sys, junk: Node, p: Path)
    requires Inv(s) && Outside(p)
    ensures At(Torn(s, junk).disk.files, p) == At(s.disk.files, p)
  {
    match s.proc {
      case Applying(at) => assert at.Install? ==> at.i < MANAGED_COUNT;
      case Recovering(at) => assert at.Restore? ==> at.i < MANAGED_COUNT;
      case _ =>
    }
  }

  lemma StepLeavesOthers(s: Sys, a: Action, p: Path)
    requires Inv(s) && Outside(p)
    ensures At(Do(s, a).disk.files, p) == At(s.disk.files, p)
  {
    if a.Tear? {
      TornLeavesOthers(s, a.junk, p);
    } else if a.Advance? || a.Fail? {
      match s.proc {
        case Applying(at) => ApplyLeavesOthers(s, at, if a.Advance? then a.input else 0, p);
        case Recovering(at) => RecoverLeavesOthers(s, at, p);
        case _ =>
      }
    }
  }

  /**
   The loops over the managed paths never run past them: any other path, wherever it is, keeps its content
   through every run, torn copies and failures included.
   */
  lemma {:induction false} RunLeavesOthers(s: Sys, actions: seq<Action>, p: Path)
    requires Inv(s) && Outside(p)
    ensures At(Run(s, actions).disk.files, p) == At(s.disk.files, p)
    decreases |actions|
  {
    if actions != [] {
      StepSafe(s, actions[0]);
      StepLeavesOthers(s, actions[0], p);
      RunLeavesOthers(Do(s, actions[0]), actions[1..], p);
    }
  }
}
