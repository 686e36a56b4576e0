/**
 The update transaction as a transition system: the disk state that survives a container crash, the
 program counter of process 1, the health watchdog, and every disk step either of them can take.

 One action is one disk step. File copies and tree removals are not atomic, so a Tear can leave anything at
 the path being worked on before the step completes; JSON state is replaced atomically. A crash stops
 every process at any point and the container restarts with recover_transactions.
 */
module UpdateModel {
  import opened Seqs

  // ---- the installation ----

  /** A directory tree or a file with some content. */
  datatype Node = Missing | Directory(tree: int) | File(data: int)

  /** Managed(i) is the i-th of MANAGED_PATHS: three directories, then seven files. */
  datatype Path = Managed(index: nat) | Unmanaged(name: string)

  const MANAGED_COUNT := 10

  type Files = map<Path, Node>

  function At(f: Files, p: Path): Node {
    if p in f then f[p] else Missing
  }

  predicate SameUpTo(a: Files, b: Files, n: nat) {
    forall i: nat :: i < n ==> At(a, Managed(i)) == At(b, Managed(i))
  }

  predicate SameManaged(a: Files, b: Files) {
    SameUpTo(a, b, MANAGED_COUNT)
  }

  predicate HasAllManaged(f: Files) {
    forall i: nat :: i < MANAGED_COUNT ==> At(f, Managed(i)) != Missing
  }

  // ---- update state on disk ----

  datatype Mode = Active | TargetMonitoring | RollbackMonitoring

  /** runtime.json; Garbled stands for a file that is not a JSON object. */
  datatype Marker = NoMarker | Garbled | Marker(version: int, python: int, mode: Mode)

  datatype Status =
    | Prepared | ApplyingStatus | Monitoring | RollbackPending | RollingBack | RecoveryRequired
    | Completed | Failed | RolledBack

  datatype Stage =
    | PreparedStage | WaitingForShutdown | PreparingDependencies | BackingUp | BackupComplete | Replacing
    | StartingTarget | MonitoringTarget | ApplyFailedBeforeReplacement | ApplyInterrupted
    | TargetHealthFailed | RestoringBackup | MonitoringRollback | BackupIncomplete | RestoreFailed
    | RollbackHealthFailed | InterruptedBeforeReplacement | HelperStartTimeout | CompletedStage | RolledBackStage

  /** The newest transaction file; earlier ones are all terminal. */
  datatype Txn = NoTxn | Txn(status: Status, stage: Stage)

  predicate Terminal(t: Txn) {
    t.Txn? && (t.status == Completed || t.status == Failed || t.status == RolledBack)
  }

  /** The stages that recovery treats as interrupted before any replacement. */
  predicate EarlyStage(stage: Stage) {
    stage in {PreparedStage, WaitingForShutdown, PreparingDependencies, BackingUp, ApplyFailedBeforeReplacement}
  }

  predicate Early(t: Txn) {
    t.Txn? && !Terminal(t) && EarlyStage(t.stage)
  }

  /** A transaction that is neither terminal nor early: recovery needs its backup. */
  predicate Late(t: Txn) {
    t.Txn? && !Terminal(t) && !EarlyStage(t.stage)
  }

  /** present: indexes recorded in presence.json as not missing; complete: runtime_present in complete.json. */
  datatype Backup = Backup(root: bool, copy: Files, present: Option<set<nat>>, marker: Marker, complete: Option<bool>)

  const NoBackup := Backup(false, map[], None, NoMarker, None)

  predicate BackupUsable(b: Backup) {
    b.complete.Some? && b.present.Some?
  }

  datatype Disk = Disk(files: Files, marker: Marker, pending: bool, txn: Txn, backup: Backup)

  /** What the transaction file and the candidate tree fix, and (original, originalMarker) what the proofs remember. */
  datatype Plan = Plan(candidate: Files, current: int, target: int, oldPython: int, original: Files,
      originalMarker: Marker)

  // ---- processes ----

  datatype Half = Removing | Copying

  datatype ApplyAt =
    | ValidateCandidate | WriteApplying | PreparePython | WriteBackingUp(python: int)
    | MakeBackupRoot(python: int) | BackUp(i: nat, present: set<nat>, python: int)
    | WritePresence(present: set<nat>, python: int) | CopyMarker(python: int)
    | WriteComplete(runtimePresent: bool, python: int)
    | WriteBackupComplete(python: int) | WriteReplacing(python: int) | CheckCandidate(python: int)
    | Install(i: nat, half: Half, python: int) | WriteMarker(python: int)
    | ClearPending | WriteMonitoring | SpawnTargetWatch | WriteMonitoringTarget | ExecRuntime
    | AbortClear | AbortWrite | AbortLate

  datatype RecoverAt =
    | ReadTransaction | ClearEarly | FailEarly | WriteIncomplete | WriteRestoring
    | Restore(i: nat, half: Half) | RestoreMarker | WriteRollbackMarker | ClearAfterRestore
    | WriteMonitoringRollback | SpawnRollbackWatch | WriteRestoreFailed

  /** Whether prepare_switch is under way in the application. */
  datatype PrepareAt = Idle | WroteTransaction | WroteWaiting

  datatype Proc = Down | Recovering(rec: RecoverAt) | App(prep: PrepareAt) | Applying(app: ApplyAt)

  datatype WatchMode = TargetWatch | RollbackWatch

  /** Marked: the runtime marker has been set active, the transaction file is still to be written. */
  datatype Watch = NoWatch | Watching(mode: WatchMode) | Marked(mode: WatchMode)

  datatype Sys = Sys(disk: Disk, plan: Plan, proc: Proc, watch: Watch)

  function AtApply(s: Sys, at: ApplyAt): Sys {
    s.(proc := Applying(at))
  }

  function AtRecover(s: Sys, at: RecoverAt): Sys {
    s.(proc := Recovering(at))
  }

  function WithTxn(s: Sys, status: Status, stage: Stage): Sys {
    s.(disk := s.disk.(txn := Txn(status, stage)))
  }

  function WithPending(s: Sys, pending: bool): Sys {
    s.(disk := s.disk.(pending := pending))
  }

  function WithNode(s: Sys, i: nat, n: Node): Sys {
    s.(disk := s.disk.(files := s.disk.files[Managed(i) := n]))
  }

  function WithBackup(s: Sys, b: Backup): Sys {
    s.(disk := s.disk.(backup := b))
  }

  function WithMarker(s: Sys, m: Marker): Sys {
    s.(disk := s.disk.(marker := m))
  }

  /** Process 1 is gone and the container with it. */
  function Halt(s: Sys): Sys {
    s.(proc := Down, watch := NoWatch)
  }

  // ---- apply_transaction ----

  /** Path i is in place; the loop over MANAGED_PATHS goes on. */
  function BackedUp(s: Sys, i: nat, present: set<nat>, python: int): Sys {
    AtApply(s, if i < MANAGED_COUNT then BackUp(i, present, python) else WritePresence(present, python))
  }

  function Installed(s: Sys, i: nat, python: int): Sys {
    AtApply(s, if i < MANAGED_COUNT then Install(i, Removing, python) else WriteMarker(python))
  }

  /** The next disk step of apply_transaction when it succeeds; input is the interpreter that gets prepared. */
  function ApplyNext(s: Sys, at: ApplyAt, input: int): Sys {
    match at
    case ValidateCandidate => AtApply(s, WriteApplying)
    case WriteApplying => AtApply(WithTxn(s, ApplyingStatus, PreparingDependencies), PreparePython)
    case PreparePython => AtApply(s, WriteBackingUp(input))
    case WriteBackingUp(py) => AtApply(WithTxn(s, ApplyingStatus, BackingUp), MakeBackupRoot(py))
    case MakeBackupRoot(py) =>
      if s.disk.backup.root then AtApply(s, AbortClear)
      else BackedUp(WithBackup(s, NoBackup.(root := true)), 0, {}, py)
    case BackUp(i, present, py) =>
      var n := At(s.disk.files, Managed(i));
      if n == Missing then BackedUp(s, i + 1, present, py)
      else BackedUp(WithBackup(s, s.disk.backup.(copy := s.disk.backup.copy[Managed(i) := n])), i + 1, present + {i},
          py)
    case WritePresence(present, py) => AtApply(WithBackup(s, s.disk.backup.(present := Some(present))), CopyMarker(py))
    case CopyMarker(py) =>
      if s.disk.marker == NoMarker then AtApply(s, WriteComplete(false, py))
      else AtApply(WithBackup(s, s.disk.backup.(marker := s.disk.marker)), WriteComplete(true, py))
    case WriteComplete(runtimePresent, py) =>
      AtApply(WithBackup(s, s.disk.backup.(complete := Some(runtimePresent))), WriteBackupComplete(py))
    case WriteBackupComplete(py) => AtApply(WithTxn(s, ApplyingStatus, BackupComplete), WriteReplacing(py))
    case WriteReplacing(py) => AtApply(WithTxn(s, ApplyingStatus, Replacing), CheckCandidate(py))
    case CheckCandidate(py) => if HasAllManaged(s.plan.candidate) then Installed(s, 0, py) else AtApply(s, AbortLate)
    case Install(i, Removing, py) => AtApply(WithNode(s, i, Missing), Install(i, Copying, py))
    case Install(i, Copying, py) => Installed(WithNode(s, i, At(s.plan.candidate, Managed(i))), i + 1, py)
    case WriteMarker(py) => AtApply(WithMarker(s, Marker(s.plan.target, py, TargetMonitoring)), ClearPending)
    case ClearPending => AtApply(WithPending(s, false), WriteMonitoring)
    case WriteMonitoring => AtApply(WithTxn(s, Monitoring, StartingTarget), SpawnTargetWatch)
    case SpawnTargetWatch => AtApply(s, WriteMonitoringTarget).(watch := Watching(TargetWatch))
    case WriteMonitoringTarget => AtApply(WithTxn(s, Monitoring, MonitoringTarget), ExecRuntime)
    case ExecRuntime => s.(proc := App(Idle))
    case AbortClear => AtApply(WithPending(s, false), AbortWrite)
    case AbortWrite => Halt(WithTxn(s, Failed, ApplyFailedBeforeReplacement))
    case AbortLate => Halt(WithTxn(s, RecoveryRequired, ApplyInterrupted))
  }

  /** The stage in the payload that apply_transaction holds in memory while it works on a step. */
  function StageInMemory(at: ApplyAt): Stage {
    match at
    case ValidateCandidate => WaitingForShutdown
    case WriteApplying => WaitingForShutdown
    case PreparePython => PreparingDependencies
    case WriteBackingUp(_) => PreparingDependencies
    case MakeBackupRoot(_) => BackingUp
    case BackUp(_, _, _) => BackingUp
    case WritePresence(_, _) => BackingUp
    case CopyMarker(_) => BackingUp
    case WriteComplete(_, _) => BackingUp
    case WriteBackupComplete(_) => BackingUp
    case WriteReplacing(_) => BackupComplete
    case CheckCandidate(_) => Replacing
    case Install(_, _, _) => Replacing
    case WriteMarker(_) => Replacing
    case ClearPending => Replacing
    case WriteMonitoring => Replacing
    case SpawnTargetWatch => StartingTarget
    case WriteMonitoringTarget => StartingTarget
    case ExecRuntime => StartingTarget
    case AbortClear => BackingUp
    case AbortWrite => BackingUp
    case AbortLate => Replacing
  }

  /** A step of apply_transaction raises; a second failure, inside the handler, is swallowed. */
  function ApplyFails(s: Sys, at: ApplyAt): Sys {
    if at in {AbortClear, AbortWrite, AbortLate} then Halt(s)
    else if StageInMemory(at) in {PreparingDependencies, BackingUp} then AtApply(s, AbortClear)
    else AtApply(s, AbortLate)
  }

  // ---- recover_transactions ----

  function Restored(s: Sys, i: nat): Sys {
    AtRecover(s, if i < MANAGED_COUNT then Restore(i, Removing) else RestoreMarker)
  }

  function RecoverNext(s: Sys, at: RecoverAt): Sys {
    match at
    case ReadTransaction =>
      if s.disk.txn.NoTxn? || Terminal(s.disk.txn) then s.(proc := App(Idle))
      else if EarlyStage(s.disk.txn.stage) then AtRecover(s, ClearEarly)
      else if !BackupUsable(s.disk.backup) then AtRecover(s, WriteIncomplete)
      else AtRecover(s, WriteRestoring)
    case ClearEarly => AtRecover(WithPending(s, false), FailEarly)
    case FailEarly => WithTxn(s, Failed, InterruptedBeforeReplacement).(proc := App(Idle))
    case WriteIncomplete => Halt(WithTxn(s, RecoveryRequired, BackupIncomplete))
    case WriteRestoring => Restored(WithTxn(s, RollingBack, RestoringBackup), 0)
    case Restore(i, Removing) =>
      if s.disk.backup.present.Some? && i in s.disk.backup.present.value
      then AtRecover(WithNode(s, i, Missing), Restore(i, Copying))
      else Restored(WithNode(s, i, Missing), i + 1)
    case Restore(i, Copying) =>
      var n := At(s.disk.backup.copy, Managed(i));
      if n == Missing then AtRecover(s, WriteRestoreFailed) else Restored(WithNode(s, i, n), i + 1)
    case RestoreMarker =>
      if s.disk.backup.complete == Some(true)
      then if s.disk.backup.marker == NoMarker then AtRecover(s, WriteRestoreFailed)
           else AtRecover(WithMarker(s, s.disk.backup.marker), WriteRollbackMarker)
      else AtRecover(WithMarker(s, NoMarker), WriteRollbackMarker)
    case WriteRollbackMarker =>
      (match s.disk.marker
       case Garbled => AtRecover(s, WriteRestoreFailed)
       case NoMarker => AtRecover(WithMarker(s, Marker(s.plan.current, s.plan.oldPython, RollbackMonitoring)),
           ClearAfterRestore)
       case Marker(_, py, _) => AtRecover(WithMarker(s, Marker(s.plan.current, py, RollbackMonitoring)),
           ClearAfterRestore))
    case ClearAfterRestore => AtRecover(WithPending(s, false), WriteMonitoringRollback)
    case WriteMonitoringRollback => AtRecover(WithTxn(s, RollingBack, MonitoringRollback), SpawnRollbackWatch)
    case SpawnRollbackWatch => s.(proc := App(Idle), watch := Watching(RollbackWatch))
    case WriteRestoreFailed => Halt(WithTxn(s, RecoveryRequired, RestoreFailed))
  }

  function RecoverFails(s: Sys, at: RecoverAt): Sys {
    if at == WriteRestoreFailed then Halt(s)
    else if at == ReadTransaction && (s.disk.txn.NoTxn? || Terminal(s.disk.txn)) then s
    else AtRecover(s, WriteRestoreFailed)
  }

  /** recover_transactions passes over a transaction file it cannot read, and the application starts. */
  function Skipped(s: Sys): Sys {
    if s.proc == Recovering(ReadTransaction) && s.disk.txn.Txn? then s.(proc := App(Idle)) else s
  }

  // ---- the application: prepare_switch and the hand-off ----

  function PrepareNext(s: Sys, at: PrepareAt): Sys {
    match at
    case Idle => s
    case WroteTransaction => WithTxn(s, Prepared, WaitingForShutdown).(proc := App(WroteWaiting))
    case WroteWaiting => WithPending(s, true).(proc := App(Idle))
  }

  /** prepare_switch raises after it wrote the transaction: the transaction directory is removed. */
  function PrepareFails(s: Sys, at: PrepareAt): Sys {
    if at == Idle then s else s.(disk := s.disk.(txn := NoTxn), proc := App(Idle))
  }

  // ---- everything that can happen ----

  datatype Action =
    | Crash
    | Boot
    | Advance(input: int)
    | Fail
    | SkipTransaction
    | Tear(junk: Node)
    | Prepare(candidate: Files, current: int, target: int, oldPython: int)
    | FailPrepared
    | HandOff
    | WatchHealthy
    | WatchWrites
    | WatchUnhealthy
    | WatchDies

  /** Process 1 is part of the way through a copy or a removal. */
  function Torn(s: Sys, junk: Node): Sys {
    match s.proc
    case Applying(Install(i, _, _)) => WithNode(s, i, junk)
    case Recovering(Restore(i, _)) => WithNode(s, i, junk)
    case Applying(BackUp(i, _, _)) =>
      if At(s.disk.files, Managed(i)) == Missing then s
      else WithBackup(s, s.disk.backup.(copy := s.disk.backup.copy[Managed(i) := junk]))
    case Applying(CopyMarker(_)) =>
      if s.disk.marker == NoMarker then s else WithBackup(s, s.disk.backup.(marker := Garbled))
    case Recovering(RestoreMarker) =>
      if s.disk.backup.complete == Some(true) && s.disk.backup.marker != NoMarker then WithMarker(s, Garbled) else s
    case _ => s
  }

  /** The watchdog saw a healthy service: it marks the runtime active, unless the marker is unreadable. */
  function MarkActive(s: Sys): Sys
    requires s.watch.Watching?
  {
    if s.disk.marker.Marker? then WithMarker(s, s.disk.marker.(mode := Active)).(watch := Marked(s.watch.mode))
    else s.(watch := NoWatch)
  }

  /** One action; an action that is not possible in s changes nothing. */
  function Do(s: Sys, a: Action): Sys {
    match a
    case Crash => Halt(s)
    case Boot => if s.proc.Down? then AtRecover(s, ReadTransaction) else s
    case Advance(input) =>
      (match s.proc
       case Down => s
       case Applying(at) => ApplyNext(s, at, input)
       case Recovering(at) => RecoverNext(s, at)
       case App(at) => PrepareNext(s, at))
    case Fail =>
      (match s.proc
       case Down => s
       case Applying(at) => ApplyFails(s, at)
       case Recovering(at) => RecoverFails(s, at)
       case App(at) => PrepareFails(s, at))
    case SkipTransaction => Skipped(s)
    case Tear(junk) => Torn(s, junk)
    case Prepare(candidate, current, target, oldPython) =>
      if s.proc == App(Idle) && (s.disk.txn.NoTxn? || Terminal(s.disk.txn))
      then Sys(s.disk.(txn := Txn(Prepared, PreparedStage), backup := NoBackup),
               Plan(candidate, current, target, oldPython, s.disk.files, s.disk.marker),
               App(WroteTransaction), s.watch)
      else s
    case FailPrepared =>
      if s.proc.App? && s.disk.txn == Txn(Prepared, PreparedStage) then WithTxn(s, Failed, HelperStartTimeout) else s
    case HandOff =>
      if s.proc == App(Idle) && s.disk.pending
      then if s.disk.txn == Txn(Prepared, WaitingForShutdown) then AtApply(s, ValidateCandidate) else Halt(s)
      else s
    case WatchHealthy => if s.watch.Watching? && s.proc.App? then MarkActive(s) else s
    case WatchWrites =>
      if s.watch == Marked(TargetWatch) then WithTxn(s, Completed, CompletedStage).(watch := NoWatch)
      else if s.watch == Marked(RollbackWatch) then WithTxn(s, RolledBack, RolledBackStage).(watch := NoWatch)
      else s
    case WatchUnhealthy =>
      if s.watch == Watching(TargetWatch) then WithTxn(s, RollbackPending, TargetHealthFailed).(watch := NoWatch)
      else if s.watch == Watching(RollbackWatch)
          then WithTxn(s, RecoveryRequired, RollbackHealthFailed).(watch := NoWatch)
      else s
    case WatchDies => s.(watch := NoWatch)
  }

  function Run(s: Sys, actions: seq<Action>): Sys
    decreases |actions|
  {
    if actions == [] then s else Run(Do(s, actions[0]), actions[1..])
  }

  /** An installation that has never been updated, about to boot. */
  function Fresh(files: Files, marker: Marker): Sys {
    Sys(Disk(files, marker, false, NoTxn, NoBackup), Plan(map[], 0, 0, 0, files, marker), Down, NoWatch)
  }
}
