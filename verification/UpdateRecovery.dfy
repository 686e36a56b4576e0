/**
 What one uninterrupted recovery does from any state the update transaction can be in, and the states
 from which no recovery ever gets the application running again.
 */
module UpdateRecovery {
  import opened UpdateModel
  import opened UpdateSafety

  function PathsLeft(i: nat): nat {
    if i < MANAGED_COUNT then MANAGED_COUNT - i else 0
  }

  /** An upper bound on the disk steps recovery has left. */
  function Rank(at: RecoverAt): nat {
    match at
    case ReadTransaction => 40
    case ClearEarly => 2
    case FailEarly => 1
    case WriteIncomplete => 1
    case WriteRestoring => 39
    case Restore(i, half) => (if half.Removing? then 12 else 11) + 2 * PathsLeft(i)
    case RestoreMarker => 10
    case WriteRollbackMarker => 9
    case ClearAfterRestore => 8
    case WriteMonitoringRollback => 7
    case SpawnRollbackWatch => 6
    case WriteRestoreFailed => 1
  }

  /** Recovery with no crash and no failing step, until it returns. */
  function Settle(s: Sys): Sys
    decreases if s.proc.Recovering? then 1 + Rank(s.proc.rec) else 0
  {
    if s.proc.Recovering? then Settle(RecoverNext(s, s.proc.rec)) else s
  }

  /** The container is stopped, if it is still up, and started again. */
  function Reboot(s: Sys): Sys {
    Do(Do(s, Crash), Boot)
  }

  /** Settle is a run of the transition system: nothing but steps that succeed. */
  lemma {:induction false} SettleRuns(s: Sys) returns (actions: seq<Action>)
    ensures forall a :: a in actions ==> a == Advance(0)
    ensures Run(s, actions) == Settle(s)
    decreases if s.proc.Recovering? then 1 + Rank(s.proc.rec) else 0
  {
    if s.proc.Recovering? {
      var rest := SettleRuns(RecoverNext(s, s.proc.rec));
      actions := [Advance(0)] + rest;
      assert actions[1..] == rest;
    } else {
      actions := [];
    }
  }

  // ---- the restore loop ----

  /** The restore loop has put path i back. */
  lemma RestoreOne(s: Sys, i: nat) returns (n: Sys)
    requires Inv(s) && i < MANAGED_COUNT && s.proc == Restored(s, i).proc
    ensures Inv(n) && n.proc == Restored(n, i + 1).proc && Settle(n) == Settle(s)
    ensures n.plan == s.plan && n.disk == s.disk.(files := n.disk.files)
  {
    n := RecoverNext(s, Restore(i, Removing));
    RecoverNextSafe(s, Restore(i, Removing));
    if i in s.disk.backup.present.value {
      assert At(s.disk.backup.copy, Managed(i)) == At(s.plan.original, Managed(i)) != Missing;
      RecoverNextSafe(n, Restore(i, Copying));
      n := RecoverNext(n, Restore(i, Copying));
    }
  }

  /** Restoring paths i and later leaves every managed path as it was before the transaction. */
  lemma {:induction false} RestoreLoop(s: Sys, i: nat) returns (m: Sys)
    requires Inv(s) && i <= MANAGED_COUNT && s.proc == Restored(s, i).proc
    ensures Inv(m) && m.proc == Recovering(RestoreMarker) && Settle(m) == Settle(s)
    ensures m.plan == s.plan && m.disk == s.disk.(files := m.disk.files)
    decreases MANAGED_COUNT - i
  {
    if i < MANAGED_COUNT {
      var n := RestoreOne(s, i);
      m := RestoreLoop(n, i + 1);
    } else {
      m := s;
    }
  }

  /** After the last path: the old version's marker, no pending hand-off, and a watchdog. */
  function AfterRestoring(s: Sys, python: int): Sys {
    Sys(Disk(s.disk.files, Marker(s.plan.current, python, RollbackMonitoring), false,
        Txn(RollingBack, MonitoringRollback), s.disk.backup),
        s.plan, App(Idle), Watching(RollbackWatch))
  }

  /** The interpreter the restored version runs with. */
  function RestoredPython(s: Sys): int {
    if s.plan.originalMarker.Marker? then s.plan.originalMarker.python else s.plan.oldPython
  }

  /** Once the old marker is back in place. */
  lemma MarkerOutcome(m: Sys)
    requires m.proc == Recovering(WriteRollbackMarker)
    ensures m.disk.marker != Garbled ==>
              Settle(m) == AfterRestoring(m, if m.disk.marker.Marker? then m.disk.marker.python else m.plan.oldPython)
    ensures m.disk.marker == Garbled ==> Settle(m) == Halt(WithTxn(m, RecoveryRequired, RestoreFailed))
  {
    var m2 := RecoverNext(m, WriteRollbackMarker);
    assert Settle(m) == Settle(m2);
    if m.disk.marker == Garbled {
      assert Settle(m2) == Settle(RecoverNext(m2, WriteRestoreFailed));
    } else {
      LastWritesRun(m2);
    }
  }

  lemma LastWritesRun(s: Sys)
    requires s.proc == Recovering(ClearAfterRestore)
    ensures Settle(s) ==
            WithTxn(WithPending(s, false), RollingBack, MonitoringRollback).(proc := App(Idle),
                watch := Watching(RollbackWatch))
  {
    var s1 := AtRecover(WithPending(s, false), WriteMonitoringRollback);
    var s2 := AtRecover(WithTxn(WithPending(s, false), RollingBack, MonitoringRollback), SpawnRollbackWatch);
    assert Settle(s) == Settle(s1) == Settle(s2) == Settle(RecoverNext(s2, SpawnRollbackWatch));
  }

  lemma RestoreMarkerOutcome(m: Sys)
    requires Inv(m) && m.proc == Recovering(RestoreMarker)
    ensures m.plan.originalMarker != Garbled ==> Settle(m) == AfterRestoring(m, RestoredPython(m))
    ensures m.plan.originalMarker == Garbled ==>
              Settle(m) == Halt(WithTxn(WithMarker(m, Garbled), RecoveryRequired, RestoreFailed))
  {
    var m1 := RecoverNext(m, RestoreMarker);
    assert m1 == AtRecover(WithMarker(m, m.plan.originalMarker), WriteRollbackMarker);
    assert Settle(m) == Settle(m1);
    MarkerOutcome(m1);
  }

  lemma RestoreOutcome(s: Sys, r: Sys)
    requires Inv(s) && Late(s.disk.txn) && s.disk.backup.complete.Some? && r == Settle(Reboot(s))
    ensures SameManaged(r.disk.files, s.plan.original)
    ensures s.plan.originalMarker != Garbled ==> r == AfterRestoring(r, RestoredPython(s)) && r.plan == s.plan
    ensures s.plan.originalMarker == Garbled ==>
              r == Halt(WithTxn(WithMarker(s, Garbled), RecoveryRequired, RestoreFailed)).(disk := r.disk)
              && r.disk == s.disk.(files := r.disk.files, marker := Garbled, txn := r.disk.txn)
              && r.disk.txn == Txn(RecoveryRequired, RestoreFailed)
  {
    StepSafe(s, Crash);
    var b := Reboot(s);
    StepSafe(Do(s, Crash), Boot);
    var b1 := RecoverNext(b, ReadTransaction);
    RecoverNextSafe(b, ReadTransaction);
    var b2 := RecoverNext(b1, WriteRestoring);
    RecoverNextSafe(b1, WriteRestoring);
    var m := RestoreLoop(b2, 0);
    assert Settle(b) == Settle(b1) == Settle(b2);
    RestoreMarkerOutcome(m);
  }

  lemma EarlyOutcome(s: Sys, r: Sys)
    requires Inv(s) && Early(s.disk.txn) && r == Settle(Reboot(s))
    ensures r == Sys(s.disk.(txn := Txn(Failed, InterruptedBeforeReplacement), pending := false), s.plan, App(Idle),
            NoWatch)
  {
    var b := Reboot(s);
    var b1 := RecoverNext(b, ReadTransaction);
    var b2 := RecoverNext(b1, ClearEarly);
    assert Settle(b) == Settle(b1) == Settle(b2) == Settle(RecoverNext(b2, FailEarly));
  }

  lemma IncompleteOutcome(s: Sys, r: Sys)
    requires Inv(s) && Late(s.disk.txn) && s.disk.backup.complete.None? && r == Settle(Reboot(s))
    ensures r == Sys(s.disk.(txn := Txn(RecoveryRequired, BackupIncomplete)), s.plan, Down, NoWatch)
  {
    var b := Reboot(s);
    var b1 := RecoverNext(b, ReadTransaction);
    assert Settle(b) == Settle(b1) == Settle(RecoverNext(b1, WriteIncomplete));
  }

  lemma ClosedOutcome(s: Sys, r: Sys)
    requires s.disk.txn.NoTxn? || Terminal(s.disk.txn)
    requires r == Settle(Reboot(s))
    ensures r == Sys(s.disk, s.plan, App(Idle), NoWatch)
  {
    assert Settle(Reboot(s)) == Settle(RecoverNext(Reboot(s), ReadTransaction));
  }

  /**
   Recovery converges. From every reachable state, however many applies, crashes and cut-short recoveries
   led there, one uninterrupted recovery lets the application start exactly when the transaction is
   closed or early, or its backup is complete and the old marker can be read.
   */
  lemma RecoveryStartsApplication(s: Sys)
    requires Reachable(s)
    ensures Settle(Reboot(s)).proc == App(Idle) <==>
              !Late(s.disk.txn) || (s.disk.backup.complete.Some? && s.plan.originalMarker != Garbled)
  {
    ReachableInv(s);
    var r := Settle(Reboot(s));
    if Early(s.disk.txn) {
      EarlyOutcome(s, r);
    } else if !Late(s.disk.txn) {
      ClosedOutcome(s, r);
    } else if s.disk.backup.complete.Some? {
      RestoreOutcome(s, r);
    } else {
      IncompleteOutcome(s, r);
    }
  }

  /**
   With a complete backup recovery restores every managed path, the old version's marker and interpreter,
   clears the hand-off, and a healthy watchdog then ends the transaction rolled back.
   */
  lemma RecoveryConverges(s: Sys)
    requires Reachable(s) && Late(s.disk.txn) && s.disk.backup.complete.Some? && s.plan.originalMarker != Garbled
    ensures var r := Settle(Reboot(s));
            var done := Run(r, [WatchHealthy, WatchWrites]);
            && SameManaged(r.disk.files, s.plan.original) && !r.disk.pending
            && r.disk.marker == Marker(s.plan.current, RestoredPython(s), RollbackMonitoring)
            && r.disk.txn == Txn(RollingBack, MonitoringRollback)
            && done.disk.txn == Txn(RolledBack, RolledBackStage) && SameManaged(done.disk.files, s.plan.original)
            && done.disk.marker == Marker(s.plan.current, RestoredPython(s), Active)
  {
    ReachableInv(s);
    var r := Settle(Reboot(s));
    RestoreOutcome(s, r);
    assert r.watch == Watching(RollbackWatch) && r.proc == App(Idle);
    TwoSteps(r, WatchHealthy, WatchWrites);
  }

  lemma TwoSteps(s: Sys, a: Action, b: Action)
    ensures Run(s, [a, b]) == Do(Do(s, a), b)
  {
    assert [a, b][1..] == [b];
    assert [b][1..] == [];
    assert Run(Do(s, a), [b]) == Run(Do(Do(s, a), b), []);
  }

  /** Recovering what has been through a recovery, successful or not, changes nothing that anyone can see. */
  lemma RecoveryIdempotent(s: Sys)
    requires Reachable(s)
    ensures var once := Settle(Reboot(s));
            var twice := Settle(Reboot(once));
            SameManaged(twice.disk.files, once.disk.files) && twice == once.(disk := twice.disk)
            && twice.disk == once.disk.(files := twice.disk.files)
  {
    ReachableInv(s);
    var once := Settle(Reboot(s));
    if Early(s.disk.txn) {
      EarlyOutcome(s, once);
      ClosedOutcome(once, Settle(Reboot(once)));
    } else if !Late(s.disk.txn) {
      ClosedOutcome(s, once);
      ClosedOutcome(once, Settle(Reboot(once)));
    } else if s.disk.backup.complete.None? {
      IncompleteOutcome(s, once);
      SettleKeepsInv(s);
      IncompleteOutcome(once, Settle(Reboot(once)));
    } else {
      RestoreOutcome(s, once);
      SettleKeepsInv(s);
      SettleKeepsInv(once);
      RestoreOutcome(once, Settle(Reboot(once)));
    }
  }

  lemma SettleKeepsInv(s: Sys)
    requires Inv(s)
    ensures Inv(Settle(Reboot(s)))
    ensures Settle(Reboot(s)).disk.backup == s.disk.backup
  {
    StepSafe(s, Crash);
    StepSafe(Do(s, Crash), Boot);
    SettleInv(Reboot(s));
  }

  function StepsLeft(s: Sys): nat {
    if s.proc.Recovering? then 1 + Rank(s.proc.rec) else 0
  }

  lemma StepsDrop(s: Sys)
    requires s.proc.Recovering?
    ensures StepsLeft(RecoverNext(s, s.proc.rec)) < StepsLeft(s)
  {
  }

  lemma SettleStep(s: Sys, n: Sys)
    requires s.proc.Recovering? && n == RecoverNext(s, s.proc.rec)
    ensures Settle(s) == Settle(n)
  {
  }

  lemma BackupStays(s: Sys, at: RecoverAt)
    ensures RecoverNext(s, at).disk.backup == s.disk.backup
  {
  }

  lemma {:induction false} SettleInv(s: Sys)
    requires Inv(s)
    ensures Inv(Settle(s)) && Settle(s).disk.backup == s.disk.backup
    decreases StepsLeft(s)
  {
    if s.proc.Recovering? {
      var n := RecoverNext(s, s.proc.rec);
      StepsDrop(s);
      BackupStays(s, s.proc.rec);
      RecoverNextSafe(s, s.proc.rec);
      SettleInv(n);
      SettleStep(s, n);
    }
  }

  // ---- no way back without a backup ----

  /** The container does not get past recovery, as long as recovery can read the transaction file. */
  predicate Stuck(s: Sys) {
    && Late(s.disk.txn) && s.disk.backup.complete.None? && s.watch == NoWatch
    && s.proc in {Down, Recovering(ReadTransaction), Recovering(WriteIncomplete), Recovering(WriteRestoreFailed)}
  }

  /**
   Nothing that can happen makes a stuck installation start, but a start at which the transaction file
   cannot be read; its files stay as they were.
   */
  lemma {:induction false} StuckForever(s: Sys, actions: seq<Action>)
    requires Stuck(s) && SkipTransaction !in actions
    ensures var r := Run(s, actions);
            Stuck(r) && r.disk.files == s.disk.files && r.disk.marker == s.disk.marker
    decreases |actions|
  {
    if actions != [] {
      assert actions[0] in actions;
      assert Stuck(Do(s, actions[0]));
      StuckForever(Do(s, actions[0]), actions[1..]);
    }
  }

  /** Stuck, or running because the transaction file could not be read. */
  predicate Held(s: Sys) {
    Stuck(s) || (Late(s.disk.txn) && s.disk.backup.complete.None? && s.watch == NoWatch && s.proc == App(Idle))
  }

  /**
   Such a start runs the application on what is in place, and closes nothing: whatever happens afterwards
   the files, the marker and the open transaction stay, no update can be prepared, and once the process is
   gone the installation is stuck again.
   */
  lemma {:induction false} SkippedStart(s: Sys, actions: seq<Action>)
    requires Held(s)
    ensures Stuck(s) ==> Do(Reboot(s), SkipTransaction) == s.(proc := App(Idle))
    ensures s.proc != Recovering(ReadTransaction) ==> Do(s, SkipTransaction) == s
    ensures var r := Run(s, actions);
            && Held(r) && Stuck(Do(r, Crash)) && r.plan == s.plan
            && r.disk.files == s.disk.files && r.disk.marker == s.disk.marker
    decreases |actions|
  {
    if actions != [] {
      assert Held(Do(s, actions[0]));
      SkippedStart(Do(s, actions[0]), actions[1..]);
    }
  }

  lemma AbortLateRuns(s: Sys)
    requires s.proc == Applying(AbortLate)
    ensures Do(Do(s, Advance(0)), Advance(0)) == Halt(WithTxn(s, RecoveryRequired, ApplyInterrupted))
  {
    assert Do(s, Advance(0)) == Halt(WithTxn(s, RecoveryRequired, ApplyInterrupted));
  }

  lemma FailsTo(s: Sys, at: ApplyAt)
    requires s.proc == Applying(at) && !at.AbortClear? && !at.AbortWrite? && !at.AbortLate?
    ensures Do(s, Fail)
            == AtApply(s, if StageInMemory(at) in {PreparingDependencies, BackingUp} then AbortClear else AbortLate)
  {
  }

  lemma FailsLate(s: Sys, at: ApplyAt)
    requires s.proc == Applying(at)
    requires at.ValidateCandidate? || at.WriteApplying? || at.WriteReplacing? || at.CheckCandidate?
    ensures Run(s, [Fail, Advance(0), Advance(0)]) == Halt(WithTxn(s, RecoveryRequired, ApplyInterrupted))
  {
    FailsTo(s, at);
    var f := AtApply(s, AbortLate);
    assert Do(s, Fail) == f;
    AbortLateRuns(f);
    ThreeSteps(s, Fail, Advance(0), Advance(0));
  }

  lemma AbortEarlyRuns(s: Sys)
    requires s.proc == Applying(AbortClear)
    ensures Do(Do(s, Advance(0)), Advance(0))
            == Halt(WithTxn(WithPending(s, false), Failed, ApplyFailedBeforeReplacement))
  {
    assert Do(s, Advance(0)) == AtApply(WithPending(s, false), AbortWrite);
  }

  lemma FailsBeforeReplacing(s: Sys, at: ApplyAt)
    requires s.proc == Applying(at) && StageInMemory(at) in {PreparingDependencies, BackingUp}
    requires !at.AbortClear? && !at.AbortWrite?
    ensures Run(s, [Fail, Advance(0), Advance(0)])
            == Halt(WithTxn(WithPending(s, false), Failed, ApplyFailedBeforeReplacement))
  {
    ThreeSteps(s, Fail, Advance(0), Advance(0));
    FailsTo(s, at);
    AbortEarlyRuns(AtApply(s, AbortClear));
  }

  /**
   How apply_transaction ends when a step raises before anything was replaced. Up to the first status it
   writes the installation is stuck, as after a candidate that does not validate; from then until the
   backup is announced as complete the transaction is failed, with the old version untouched and startable;
   after that the backup is there to be restored.
   */
  lemma ApplyFailureOutcome(s: Sys, at: ApplyAt)
    requires Reachable(s) && s.proc == Applying(at) && BeforeReplacement(at) && !at.AbortClear? && !at.AbortWrite?
    ensures var r := Run(s, [Fail, Advance(0), Advance(0)]);
            && r.proc == Down && SameManaged(r.disk.files, s.plan.original)
            && if at.ValidateCandidate? || at.WriteApplying? then
                 Stuck(r) && r.disk.txn == Txn(RecoveryRequired, ApplyInterrupted)
               else if at.WriteReplacing? || at.CheckCandidate? then
                 !Stuck(r) && ExactBackup(r) && r.disk.txn == Txn(RecoveryRequired, ApplyInterrupted)
               else r.disk.txn == Txn(Failed, ApplyFailedBeforeReplacement) && !r.disk.pending
  {
    ReachableInv(s);
    if at.ValidateCandidate? || at.WriteApplying? || at.WriteReplacing? || at.CheckCandidate? {
      FailsLate(s, at);
    } else {
      FailsBeforeReplacing(s, at);
    }
  }

  lemma ThreeSteps(s: Sys, a: Action, b: Action, c: Action)
    ensures Run(s, [a, b, c]) == Do(Do(Do(s, a), b), c)
  {
    assert [a, b, c][1..] == [b, c];
    TwoSteps(Do(s, a), b, c);
  }
}
