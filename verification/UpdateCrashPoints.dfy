/**
 A crash at each step of apply_transaction, in terms of the step: what the transaction file says there, and
 what the next start makes of it.
 */
module UpdateCrashPoints {
  import opened UpdateModel
  import opened UpdateSafety
  import opened UpdateRecovery

  // ---- what the transaction file says while apply_transaction is at a step ----

  predicate Announces(at: ApplyAt, t: Txn) {
    && (at.ValidateCandidate? || at.WriteApplying? ==> t == Txn(Prepared, WaitingForShutdown))
    && (at.PreparePython? || at.WriteBackingUp? ==> t == Txn(ApplyingStatus, PreparingDependencies))
    && (Copying(at) ==> t == Txn(ApplyingStatus, BackingUp))
    && (at.WriteReplacing? ==> t == Txn(ApplyingStatus, BackupComplete))
  }

  predicate Announced(s: Sys) {
    match s.proc
    case Applying(at) => Announces(at, s.disk.txn)
    case App(at) => at == Idle || (s.disk.txn.Txn? && s.disk.txn.status in {Prepared, Failed})
    case _ => true
  }

  /** The steps of _backup, and the one that announces its end. */
  predicate Copying(at: ApplyAt) {
    at.MakeBackupRoot? || at.BackUp? || at.WritePresence? || at.CopyMarker? || at.WriteComplete? ||
    at.WriteBackupComplete?
  }

  /** The steps from the validation of the candidate to the end of the backup. */
  predicate BeforeBackupComplete(at: ApplyAt) {
    at.ValidateCandidate? || at.WriteApplying? || at.PreparePython? || at.WriteBackingUp? || Copying(at)
  }

  predicate Aborting(at: ApplyAt) {
    at.AbortClear? || at.AbortWrite? || at.AbortLate?
  }

  lemma CopyingAnnounced(s: Sys, at: ApplyAt, input: int)
    requires s.proc == Applying(at) && Announced(s) && Copying(at)
    ensures Announced(ApplyNext(s, at, input))
  {
  }

  lemma ApplyAnnounced(s: Sys, at: ApplyAt, input: int)
    requires s.proc == Applying(at) && Announced(s)
    ensures Announced(ApplyNext(s, at, input))
  {
    if Copying(at) {
      CopyingAnnounced(s, at, input);
    } else {
      OthersAnnounced(s, at, input);
    }
  }

  lemma OthersAnnounced(s: Sys, at: ApplyAt, input: int)
    requires s.proc == Applying(at) && Announced(s) && !Copying(at)
    ensures Announced(ApplyNext(s, at, input))
  {
  }

  lemma AdvanceAnnounced(s: Sys, input: int)
    requires Inv(s) && Announced(s)
    ensures Announced(Do(s, Advance(input)))
  {
    match s.proc {
      case Down =>
      case Applying(at) => ApplyAnnounced(s, at, input);
      case Recovering(at) => RecoverAnnounces(s, at);
      case App(at) =>
    }
  }

  lemma RecoverAnnounces(s: Sys, at: RecoverAt)
    ensures !RecoverNext(s, at).proc.Applying?
  {
  }

  lemma FailAnnounced(s: Sys)
    requires Inv(s) && Announced(s)
    ensures Announced(Do(s, Fail))
  {
  }

  lemma WatchAnnounced(s: Sys, a: Action)
    requires Inv(s) && Announced(s) && (a.WatchHealthy? || a.WatchWrites? || a.WatchUnhealthy? || a.WatchDies?)
    ensures Announced(Do(s, a))
  {
  }

  lemma OtherAnnounced(s: Sys, a: Action)
    requires Inv(s) && Announced(s) && !a.Advance? && !a.Fail?
    requires !a.WatchHealthy? && !a.WatchWrites? && !a.WatchUnhealthy? && !a.WatchDies?
    ensures Announced(Do(s, a))
  {
  }

  lemma StepAnnounced(s: Sys, a: Action)
    requires Inv(s) && Announced(s)
    ensures Announced(Do(s, a))
  {
    if a.Advance? {
      AdvanceAnnounced(s, a.input);
    } else if a.Fail? {
      FailAnnounced(s);
    } else if a.WatchHealthy? || a.WatchWrites? || a.WatchUnhealthy? || a.WatchDies? {
      WatchAnnounced(s, a);
    } else {
      OtherAnnounced(s, a);
    }
  }

  lemma {:induction false} RunAnnounced(s: Sys, actions: seq<Action>)
    requires Inv(s) && Announced(s)
    ensures Announced(Run(s, actions))
    decreases |actions|
  {
    if actions != [] {
      StepSafe(s, actions[0]);
      StepAnnounced(s, actions[0]);
      RunAnnounced(Do(s, actions[0]), actions[1..]);
    }
  }

  lemma ReachableAnnounced(s: Sys)
    requires Reachable(s)
    ensures Announced(s)
  {
    var files, marker, actions :| s == Run(Fresh(files, marker), actions);
    FreshSafe(files, marker);
    RunAnnounced(Fresh(files, marker), actions);
  }

  // ---- what the next start makes of it ----

  /**
   The container dies anywhere before the backup is complete: the next start closes the transaction as
   failed, drops the hand-off and lets the application run on the untouched installation.
   */
  lemma CrashBeforeBackupComplete(s: Sys, at: ApplyAt)
    requires Reachable(s) && s.proc == Applying(at) && BeforeBackupComplete(at)
    ensures var r := Settle(Reboot(s));
            && r.proc == App(Idle) && r.watch == NoWatch && !r.disk.pending
            && r.disk.txn == Txn(Failed, InterruptedBeforeReplacement)
            && r.disk.files == s.disk.files && SameManaged(r.disk.files, s.plan.original)
            && r.disk.marker == s.plan.originalMarker
  {
    ReachableInv(s);
    ReachableAnnounced(s);
    EarlyOutcome(s, Settle(Reboot(s)));
  }

  /**
   It dies anywhere from there to the start of the new version: the next start restores the installation
   and watches it, if the old marker can be read.
   */
  lemma CrashAfterBackupComplete(s: Sys, at: ApplyAt)
    requires Reachable(s) && s.proc == Applying(at) && !BeforeBackupComplete(at) && !Aborting(at)
    ensures var r := Settle(Reboot(s));
            && SameManaged(r.disk.files, s.plan.original)
            && if s.plan.originalMarker == Garbled
               then r.proc == Down && r.disk.txn == Txn(RecoveryRequired, RestoreFailed)
               else r.proc == App(Idle) && r.watch == Watching(RollbackWatch) && !r.disk.pending
                    && r.disk.txn == Txn(RollingBack, MonitoringRollback)
                    && r.disk.marker == Marker(s.plan.current, RestoredPython(s), RollbackMonitoring)
  {
    ReachableInv(s);
    ReachableAnnounced(s);
    RestoreOutcome(s, Settle(Reboot(s)));
  }

  /** So a crash alone, at any step of an apply that did not fail, never leaves the installation stuck. */
  lemma CrashAloneIsRecovered(s: Sys, at: ApplyAt)
    requires Reachable(s) && s.proc == Applying(at) && !Aborting(at)
    ensures !Stuck(Do(s, Crash))
    ensures s.plan.originalMarker != Garbled ==> Settle(Reboot(s)).proc == App(Idle)
  {
    if BeforeBackupComplete(at) {
      CrashBeforeBackupComplete(s, at);
      ReachableAnnounced(s);
    } else {
      CrashAfterBackupComplete(s, at);
      ReachableInv(s);
    }
  }

  /** The application dies while it prepares an update: nothing comes of it. */
  lemma CrashWhilePreparing(s: Sys, at: PrepareAt)
    requires Reachable(s) && s.proc == App(at) && at != Idle
    ensures var r := Settle(Reboot(s));
            && r.proc == App(Idle) && r.disk.txn.Txn? && r.disk.txn.status == Failed
            && r.disk.files == s.disk.files && SameManaged(r.disk.files, s.plan.original)
  {
    ReachableInv(s);
    ReachableAnnounced(s);
    if Early(s.disk.txn) {
      EarlyOutcome(s, Settle(Reboot(s)));
    } else {
      ClosedOutcome(s, Settle(Reboot(s)));
    }
  }

  /**
   A step of recovery raises: that is recorded and the application does not start. With a complete backup the
   next start tries again; without one, also for a transaction that had replaced nothing and was about to be
   closed as failed, the installation is stuck.
   */
  lemma RecoveryFailureOutcome(s: Sys, at: RecoverAt)
    requires Reachable(s) && s.proc == Recovering(at) && at != WriteRestoreFailed && s.disk.txn.Txn?
    requires s.disk.txn.status != Completed && s.disk.txn.status != Failed && s.disk.txn.status != RolledBack
    ensures var r := Run(s, [Fail, Advance(0)]);
            && r == s.(proc := Down, disk := s.disk.(txn := Txn(RecoveryRequired, RestoreFailed)))
            && (Stuck(r) <==> s.disk.backup.complete.None?)
  {
    ReachableInv(s);
    TwoSteps(s, Fail, Advance(0));
    assert Do(s, Fail) == AtRecover(s, WriteRestoreFailed);
  }

  /** Every managed path is the old version's, or every one the new version's. */
  predicate Whole(s: Sys) {
    SameManaged(s.disk.files, s.plan.original) || SameManaged(s.disk.files, s.plan.candidate)
  }

  lemma RecoverStartsWhole(s: Sys, at: RecoverAt)
    requires Inv(s) && s.proc == Recovering(at) && RecoverNext(s, at).proc.App?
    ensures Whole(RecoverNext(s, at))
  {
  }

  lemma ApplyStartsWhole(s: Sys, at: ApplyAt, input: int)
    requires Inv(s) && s.proc == Applying(at) && ApplyNext(s, at, input).proc.App?
    ensures Whole(ApplyNext(s, at, input))
  {
  }

  lemma AppStaysWhole(s: Sys, a: Action)
    requires Inv(s) && s.proc.App? && Whole(s)
    ensures Do(s, a).proc.App? ==> Whole(Do(s, a))
  {
  }

  lemma OthersStartNothing(s: Sys, a: Action)
    requires !s.proc.App? && !a.Advance? && !a.SkipTransaction?
    ensures !Do(s, a).proc.App?
  {
  }

  lemma StepWhole(s: Sys, a: Action)
    requires Inv(s) && (s.proc.App? ==> Whole(s)) && !a.SkipTransaction?
    ensures Do(s, a).proc.App? ==> Whole(Do(s, a))
  {
    if Do(s, a).proc.App? {
      match s.proc {
        case App(_) => AppStaysWhole(s, a);
        case Applying(at) =>
          if a.Advance? {
            ApplyStartsWhole(s, at, a.input);
          } else {
            OthersStartNothing(s, a);
          }
        case Recovering(at) =>
          if a.Advance? {
            RecoverStartsWhole(s, at);
          } else {
            OthersStartNothing(s, a);
          }
        case Down => OthersStartNothing(s, a);
      }
    }
  }

  lemma {:induction false} RunWhole(s: Sys, actions: seq<Action>)
    requires Inv(s) && (s.proc.App? ==> Whole(s)) && SkipTransaction !in actions
    ensures Run(s, actions).proc.App? ==> Whole(Run(s, actions))
    decreases |actions|
  {
    if actions != [] {
      assert actions[0] in actions;
      StepSafe(s, actions[0]);
      StepWhole(s, actions[0]);
      RunWhole(Do(s, actions[0]), actions[1..]);
    }
  }

  /**
   Whatever crashes and failures there are: the application never runs on a mixture of two versions, unless
   a start has skipped a transaction file that it could not read.
   */
  lemma ApplicationRunsWhole(files: Files, marker: Marker, actions: seq<Action>)
    requires SkipTransaction !in actions
    ensures Run(Fresh(files, marker), actions).proc.App? ==> Whole(Run(Fresh(files, marker), actions))
  {
    FreshSafe(files, marker);
    RunWhole(Fresh(files, marker), actions);
  }

  /** The restored version does not become healthy either: every later start restores it and watches it again. */
  lemma UnhealthyRollbackIsRetried(s: Sys)
    requires Reachable(s) && s.watch == Watching(RollbackWatch) && s.plan.originalMarker != Garbled
    ensures var u := Do(s, WatchUnhealthy);
            var r := Settle(Reboot(u));
            && u.disk.txn == Txn(RecoveryRequired, RollbackHealthFailed) && u.watch == NoWatch
            && SameManaged(r.disk.files, s.plan.original) && r.proc == App(Idle) && r.watch == Watching(RollbackWatch)
            && r.disk.txn == Txn(RollingBack, MonitoringRollback)
  {
    ReachableInv(s);
    var u := Do(s, WatchUnhealthy);
    StepSafe(s, WatchUnhealthy);
    RestoreOutcome(u, Settle(Reboot(u)));
  }

  /** A transaction that was closed, one way or the other, is left alone by every later start. */
  lemma ClosedStaysClosed(s: Sys)
    requires s.disk.txn.Txn?
    requires s.disk.txn.status == Completed || s.disk.txn.status == Failed || s.disk.txn.status == RolledBack
    ensures Settle(Reboot(s)) == s.(proc := App(Idle), watch := NoWatch)
  {
    ClosedOutcome(s, Settle(Reboot(s)));
  }
}
