/**
 apply_transaction and recover_transactions as the loops over MANAGED_PATHS that they are, on a disk that
 changes in place. Each ends exactly where the uninterrupted run of the transition system ends.
 */
module UpdateHelper {
  import opened Seqs
  import opened UpdateModel
  import opened UpdateSafety
  import opened UpdateRecovery
  import opened UpdateApply

  class Installation {
    const plan: Plan
    var files: Files
    var marker: Marker
    var pending: bool
    var txn: Txn
    var backup: Backup

    constructor (plan: Plan, disk: Disk)
      ensures this.plan == plan && OnDisk() == disk
    {
      this.plan := plan;
      files, marker, pending, txn, backup := disk.files, disk.marker, disk.pending, disk.txn, disk.backup;
    }

    function OnDisk(): Disk
      reads this
    {
      Disk(files, marker, pending, txn, backup)
    }

    function Running(proc: Proc): Sys
      reads this
    {
      Sys(OnDisk(), plan, proc, NoWatch)
    }

    /** The copying loop of _backup; present is the presence record it collects. */
    method BackUpPaths(python: int) returns (present: set<nat>)
      requires backup == NoBackup.(root := true)
      modifies this`backup
      ensures backup == NoBackup.(root := true, copy := backup.copy)
      ensures CopiedUpTo(backup.copy, present, files, MANAGED_COUNT)
      ensures SettleApply(Running(Applying(WritePresence(present, python))), python) ==
              SettleApply(old(Running(Applying(BackUp(0, {}, python)))), python)
    {
      present := {};
      var i := 0;
      while i < MANAGED_COUNT
        invariant 0 <= i <= MANAGED_COUNT
        invariant backup == NoBackup.(root := true, copy := backup.copy)
        invariant CopiedUpTo(backup.copy, present, files, i)
        invariant SettleApply(BackedUp(Running(Down), i, present, python), python) ==
                  SettleApply(old(Running(Applying(BackUp(0, {}, python)))), python)
      {
        CopyOne(backup.copy, present, files, i);
        BackUpRuns(Running(Down), i, present, python);
        var n := At(files, Managed(i));
        if n != Missing {
          present := present + {i};
          backup := backup.(copy := backup.copy[Managed(i) := n]);
        }
        i := i + 1;
      }
    }

    /** _backup: every managed path, then presence.json, the runtime marker and complete.json. */
    method BackUpAll(python: int) returns (ok: bool)
      modifies this`backup
      ensures ok <==> !old(backup.root)
      ensures !ok ==> backup == old(backup)
      ensures ok ==> backup.complete.Some? && TreesExact(backup, files)
      ensures ok ==> MarkerCopied(backup, marker, backup.complete.value)
      ensures SettleApply(Running(Applying(if ok then WriteBackupComplete(python) else AbortClear)), python) ==
              SettleApply(old(Running(Applying(MakeBackupRoot(python)))), python)
    {
      if backup.root {
        return false;
      }
      backup := NoBackup.(root := true);
      var present := BackUpPaths(python);
      BackupWritesRun(Running(Down), present, python);
      backup := backup.(present := Some(present));
      var runtimePresent := marker != NoMarker;
      if runtimePresent {
        backup := backup.(marker := marker);
      }
      backup := backup.(complete := Some(runtimePresent));
      ok := true;
    }

    /** _install: check that the candidate is whole, then remove and copy each path. */
    method InstallAll(python: int) returns (ok: bool)
      modifies this`files
      ensures ok <==> forall i: nat :: i < MANAGED_COUNT ==> At(plan.candidate, Managed(i)) != Missing
      ensures if ok then SameManaged(files, plan.candidate) else files == old(files)
      ensures SettleApply(Running(Applying(if ok then WriteMarker(python) else AbortLate)), python) ==
              SettleApply(old(Running(Applying(CheckCandidate(python)))), python)
    {
      CheckRuns(Running(Down), python);
      var i := 0;
      while i < MANAGED_COUNT
        invariant 0 <= i <= MANAGED_COUNT
        invariant forall j: nat :: j < i ==> At(plan.candidate, Managed(j)) != Missing
      {
        if At(plan.candidate, Managed(i)) == Missing {
          return false;
        }
        i := i + 1;
      }
      InstallPaths(python);
      ok := true;
    }

    method InstallPaths(python: int)
      modifies this`files
      ensures SameManaged(files, plan.candidate)
      ensures SettleApply(Running(Applying(WriteMarker(python))), python) ==
              SettleApply(old(Running(Applying(Install(0, Removing, python)))), python)
    {
      var i := 0;
      while i < MANAGED_COUNT
        invariant 0 <= i <= MANAGED_COUNT
        invariant SameUpTo(files, plan.candidate, i)
        invariant SettleApply(Installed(Running(Down), i, python), python) ==
                  SettleApply(old(Running(Applying(Install(0, Removing, python)))), python)
      {
        InstallRuns(Running(Down), i, python);
        files := files[Managed(i) := Missing];
        files := files[Managed(i) := At(plan.candidate, Managed(i))];
        i := i + 1;
      }
    }

    /** The loop of _restore: remove each path, and copy the backup of those that existed. */
    method RestorePaths() returns (ok: bool)
      requires BackupUsable(backup)
      modifies this`files
      ensures ok <==> forall i: nat :: i < MANAGED_COUNT && i in backup.present.value ==>
              At(backup.copy, Managed(i)) != Missing
      ensures ok ==> forall i: nat :: i < MANAGED_COUNT ==>
                At(files, Managed(i)) == if i in backup.present.value then At(backup.copy, Managed(i)) else Missing
      ensures Settle(Running(Recovering(if ok then RestoreMarker else WriteRestoreFailed))) ==
              Settle(old(Running(Recovering(Restore(0, Removing)))))
    {
      var i := 0;
      while i < MANAGED_COUNT
        invariant 0 <= i <= MANAGED_COUNT
        invariant forall j: nat :: j < i && j in backup.present.value ==> At(backup.copy, Managed(j)) != Missing
        invariant forall j: nat :: j < i ==>
                    At(files, Managed(j)) == if j in backup.present.value then At(backup.copy, Managed(j)) else Missing
        invariant Settle(Restored(Running(Down), i)) == Settle(old(Running(Recovering(Restore(0, Removing)))))
      {
        RestoreRuns(Running(Down), i);
        files := files[Managed(i) := Missing];
        if i in backup.present.value {
          var n := At(backup.copy, Managed(i));
          if n == Missing {
            return false;
          }
          files := files[Managed(i) := n];
        }
        i := i + 1;
      }
      ok := true;
    }

    /** The marker half of _restore, then the new marker of _restore_for_recovery. */
    method RestoreRuntimeMarker() returns (ok: bool)
      modifies this`marker
      ensures Settle(Running(Recovering(if ok then ClearAfterRestore else WriteRestoreFailed))) ==
              Settle(old(Running(Recovering(RestoreMarker))))
    {
      if backup.complete == Some(true) {
        if backup.marker == NoMarker {
          return false;
        }
        marker := backup.marker;
      } else {
        marker := NoMarker;
      }
      match marker {
        case Garbled => return false;
        case NoMarker => marker := Marker(plan.current, plan.oldPython, RollbackMonitoring);
        case Marker(_, python, _) => marker := Marker(plan.current, python, RollbackMonitoring);
      }
      ok := true;
    }

    /** _restore_for_recovery, with the handler of recover_transactions around it. */
    method RestoreForRecovery() returns (ok: bool)
      requires Late(txn)
      modifies this
      ensures var r := Settle(old(Running(Recovering(ReadTransaction))));
              OnDisk() == r.disk && (ok <==> r.proc == App(Idle))
    {
      LateRuns(Running(Down));
      if !BackupUsable(backup) {
        txn := Txn(RecoveryRequired, BackupIncomplete);
        return false;
      }
      txn := Txn(RollingBack, RestoringBackup);
      ok := RestorePaths();
      if ok {
        ok := RestoreRuntimeMarker();
      }
      LastRuns(Running(Down));
      if ok {
        pending := false;
        txn := Txn(RollingBack, MonitoringRollback);
      } else {
        txn := Txn(RecoveryRequired, RestoreFailed);
      }
    }

    /** recover_transactions when no step raises: exit code 0 lets the container start the application. */
    method RecoverTransactions() returns (code: int)
      modifies this
      ensures var r := Settle(old(Running(Recovering(ReadTransaction))));
              OnDisk() == r.disk && (code == 0 <==> r.proc == App(Idle))
    {
      if txn.NoTxn? || Terminal(txn) {
        return 0;
      }
      if EarlyStage(txn.stage) {
        EarlyRuns(Running(Down));
        pending := false;
        txn := Txn(Failed, InterruptedBeforeReplacement);
        return 0;
      }
      var ok := RestoreForRecovery();
      code := if ok then 0 else 1;
    }

    /** apply_transaction when no step raises but, possibly, the validation of the candidate. */
    method ApplyTransaction(valid: bool, python: int) returns (launched: bool)
      requires txn == Txn(Prepared, WaitingForShutdown)
      modifies this
      ensures valid ==> var r := SettleApply(old(Running(Applying(ValidateCandidate))), python);
                        OnDisk() == r.disk && (launched <==> r.proc == App(Idle))
      ensures !valid ==> !launched && OnDisk() == old(OnDisk()).(txn := Txn(RecoveryRequired, ApplyInterrupted))
    {
      if !valid {
        txn := Txn(RecoveryRequired, ApplyInterrupted);
        return false;
      }
      ValidatedRuns(Running(Down), python);
      txn := Txn(ApplyingStatus, BackingUp);
      launched := BackUpAll(python);
      if !launched {
        AbortRuns(Running(Down), python);
        pending := false;
        txn := Txn(Failed, ApplyFailedBeforeReplacement);
        return;
      }
      BackupDoneRuns(Running(Down), python);
      txn := Txn(ApplyingStatus, Replacing);
      launched := InstallAll(python);
      LaunchRuns(Running(Down), python);
      if launched {
        marker := Marker(plan.target, python, TargetMonitoring);
        pending := false;
        txn := Txn(Monitoring, MonitoringTarget);
      } else {
        txn := Txn(RecoveryRequired, ApplyInterrupted);
      }
    }
  }

  lemma ValidatedRuns(s: Sys, python: int)
    ensures SettleApply(AtApply(s, ValidateCandidate), python) ==
            SettleApply(AtApply(WithTxn(s, ApplyingStatus, BackingUp), MakeBackupRoot(python)), python)
  {
    var s1 := AtApply(WithTxn(s, ApplyingStatus, PreparingDependencies), PreparePython);
    assert SettleApply(AtApply(s, ValidateCandidate), python) == SettleApply(AtApply(s, WriteApplying), python) ==
        SettleApply(s1, python);
    assert SettleApply(s1, python) == SettleApply(AtApply(s1, WriteBackingUp(python)), python);
  }

  lemma AbortRuns(s: Sys, python: int)
    ensures SettleApply(AtApply(s, AbortClear), python)
            == Halt(WithTxn(WithPending(s, false), Failed, ApplyFailedBeforeReplacement))
  {
    var s1 := AtApply(WithPending(s, false), AbortWrite);
    assert SettleApply(AtApply(s, AbortClear), python) == SettleApply(s1, python) ==
        SettleApply(ApplyNext(s1, AbortWrite, python), python);
  }

  lemma BackupDoneRuns(s: Sys, python: int)
    ensures SettleApply(AtApply(s, WriteBackupComplete(python)), python) ==
            SettleApply(AtApply(WithTxn(s, ApplyingStatus, Replacing), CheckCandidate(python)), python)
  {
    var s1 := AtApply(WithTxn(s, ApplyingStatus, BackupComplete), WriteReplacing(python));
    assert SettleApply(AtApply(s, WriteBackupComplete(python)), python) == SettleApply(s1, python);
  }

  lemma LaunchRuns(s: Sys, python: int)
    ensures SettleApply(AtApply(s, WriteMarker(python)), python) ==
            WithTxn(WithPending(WithMarker(s, Marker(s.plan.target, python, TargetMonitoring)), false), Monitoring,
                MonitoringTarget)
              .(proc := App(Idle), watch := Watching(TargetWatch))
    ensures SettleApply(AtApply(s, AbortLate), python) == Halt(WithTxn(s, RecoveryRequired, ApplyInterrupted))
  {
    var s1 := AtApply(WithMarker(s, Marker(s.plan.target, python, TargetMonitoring)), ClearPending);
    var s2 := AtApply(WithPending(s1, false), WriteMonitoring);
    var s3 := AtApply(WithTxn(s2, Monitoring, StartingTarget), SpawnTargetWatch);
    var s4 := AtApply(s3, WriteMonitoringTarget).(watch := Watching(TargetWatch));
    var s5 := AtApply(WithTxn(s4, Monitoring, MonitoringTarget), ExecRuntime);
    assert SettleApply(AtApply(s, WriteMarker(python)), python) == SettleApply(s1, python) ==
        SettleApply(s2, python) == SettleApply(s3, python);
    assert SettleApply(s3, python) == SettleApply(s4, python) == SettleApply(s5, python) ==
        SettleApply(s5.(proc := App(Idle)), python);
    assert SettleApply(AtApply(s, AbortLate), python)
        == SettleApply(ApplyNext(AtApply(s, AbortLate), AbortLate, python), python);
  }

  lemma EarlyRuns(s: Sys)
    requires Early(s.disk.txn)
    ensures Settle(AtRecover(s, ReadTransaction))
            == WithTxn(WithPending(s, false), Failed, InterruptedBeforeReplacement).(proc := App(Idle))
  {
    var s1 := AtRecover(s, ClearEarly);
    var s2 := AtRecover(WithPending(s, false), FailEarly);
    assert Settle(AtRecover(s, ReadTransaction)) == Settle(s1) == Settle(s2) == Settle(RecoverNext(s2, FailEarly));
  }

  lemma LateRuns(s: Sys)
    requires Late(s.disk.txn)
    ensures Settle(AtRecover(s, ReadTransaction)) ==
            if BackupUsable(s.disk.backup)
                then Settle(AtRecover(WithTxn(s, RollingBack, RestoringBackup), Restore(0, Removing)))
            else Halt(WithTxn(s, RecoveryRequired, BackupIncomplete))
  {
    var s1 := AtRecover(s, if BackupUsable(s.disk.backup) then WriteRestoring else WriteIncomplete);
    assert Settle(AtRecover(s, ReadTransaction)) == Settle(s1) == Settle(RecoverNext(s1, s1.proc.rec));
  }

  lemma LastRuns(s: Sys)
    ensures Settle(AtRecover(s, ClearAfterRestore)) ==
            WithTxn(WithPending(s, false), RollingBack, MonitoringRollback).(proc := App(Idle),
                watch := Watching(RollbackWatch))
    ensures Settle(AtRecover(s, WriteRestoreFailed)) == Halt(WithTxn(s, RecoveryRequired, RestoreFailed))
  {
    LastWritesRun(AtRecover(s, ClearAfterRestore));
    assert Settle(AtRecover(s, WriteRestoreFailed))
        == Settle(RecoverNext(AtRecover(s, WriteRestoreFailed), WriteRestoreFailed));
  }

  lemma CheckRuns(s: Sys, python: int)
    ensures SettleApply(AtApply(s, CheckCandidate(python)), python) ==
            SettleApply(AtApply(s, if HasAllManaged(s.plan.candidate) then Install(0, Removing, python)
                else AbortLate), python)
  {
  }

  lemma InstallRuns(s: Sys, i: nat, python: int)
    requires i < MANAGED_COUNT
    ensures SettleApply(AtApply(s, Install(i, Removing, python)), python) ==
            SettleApply(Installed(WithNode(WithNode(s, i, Missing), i, At(s.plan.candidate, Managed(i))), i + 1,
                python), python)
  {
    var s1 := AtApply(WithNode(s, i, Missing), Install(i, Copying, python));
    assert SettleApply(AtApply(s, Install(i, Removing, python)), python) == SettleApply(s1, python);
  }

  lemma RestoreRuns(s: Sys, i: nat)
    requires i < MANAGED_COUNT && s.disk.backup.present.Some?
    ensures var n := At(s.disk.backup.copy, Managed(i));
            Settle(AtRecover(s, Restore(i, Removing))) ==
            Settle(if i !in s.disk.backup.present.value then Restored(WithNode(s, i, Missing), i + 1)
                   else if n == Missing then AtRecover(WithNode(s, i, Missing), WriteRestoreFailed)
                   else Restored(WithNode(WithNode(s, i, Missing), i, n), i + 1))
  {
    var s1 := AtRecover(WithNode(s, i, Missing), Restore(i, Copying));
    if i in s.disk.backup.present.value {
      assert Settle(AtRecover(s, Restore(i, Removing))) == Settle(s1);
    }
  }

  lemma BackUpRuns(s: Sys, i: nat, present: set<nat>, python: int)
    requires i < MANAGED_COUNT
    ensures var n := At(s.disk.files, Managed(i));
            SettleApply(AtApply(s, BackUp(i, present, python)), python) ==
            SettleApply(if n == Missing then BackedUp(s, i + 1, present, python)
                        else BackedUp(WithBackup(s, s.disk.backup.(copy := s.disk.backup.copy[Managed(i) := n])),
                            i + 1, present + {i}, python),
                        python)
  {
  }

  lemma BackupWritesRun(s: Sys, present: set<nat>, python: int)
    ensures var b := s.disk.backup.(present := Some(present));
            var done := if s.disk.marker == NoMarker then b.(complete := Some(false))
                        else b.(marker := s.disk.marker, complete := Some(true));
            SettleApply(AtApply(s, WritePresence(present, python)), python) ==
            SettleApply(AtApply(WithBackup(s, done), WriteBackupComplete(python)), python)
  {
    var s1 := ApplyNext(AtApply(s, WritePresence(present, python)), WritePresence(present, python), python);
    var s2 := ApplyNext(s1, CopyMarker(python), python);
    assert SettleApply(AtApply(s, WritePresence(present, python)), python) == SettleApply(s1, python) ==
        SettleApply(s2, python);
  }
}
