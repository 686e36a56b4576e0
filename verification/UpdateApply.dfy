/**
 What one uninterrupted apply_transaction does: with a full candidate it ends with the target in place
 under a watchdog and an exact backup behind it.
 */
module UpdateApply {
  import opened UpdateModel
  import opened UpdateSafety
  import opened UpdateRecovery

  /** An upper bound on the steps apply_transaction has left. */
  function ApplyRank(at: ApplyAt): nat {
    match at
    case ValidateCandidate => 99
    case WriteApplying => 98
    case PreparePython => 97
    case WriteBackingUp(_) => 96
    case MakeBackupRoot(_) => 95
    case BackUp(i, _, _) => 80 + PathsLeft(i)
    case WritePresence(_, _) => 79
    case CopyMarker(_) => 78
    case WriteComplete(_, _) => 77
    case WriteBackupComplete(_) => 76
    case WriteReplacing(_) => 75
    case CheckCandidate(_) => 74
    case Install(i, half, _) => (if half.Removing? then 22 else 21) + 2 * PathsLeft(i)
    case WriteMarker(_) => 20
    case ClearPending => 19
    case WriteMonitoring => 18
    case SpawnTargetWatch => 17
    case WriteMonitoringTarget => 16
    case ExecRuntime => 15
    case AbortClear => 2
    case AbortWrite => 1
    case AbortLate => 1
  }

  /** apply_transaction with no crash and no failing step. */
  function SettleApply(s: Sys, python: int): Sys
    decreases if s.proc.Applying? then 1 + ApplyRank(s.proc.app) else 0
  {
    if s.proc.Applying? then SettleApply(ApplyNext(s, s.proc.app, python), python) else s
  }

  /** The interpreter a step works with is the one that was prepared. */
  predicate UsesPython(at: ApplyAt, python: int) {
    match at
    case WriteBackingUp(p) => p == python
    case MakeBackupRoot(p) => p == python
    case BackUp(_, _, p) => p == python
    case WritePresence(_, p) => p == python
    case CopyMarker(p) => p == python
    case WriteComplete(_, p) => p == python
    case WriteBackupComplete(p) => p == python
    case WriteReplacing(p) => p == python
    case CheckCandidate(p) => p == python
    case Install(_, _, p) => p == python
    case WriteMarker(p) => p == python
    case _ => true
  }

  predicate OnTrack(s: Sys, python: int) {
    && s.proc.Applying? && UsesPython(s.proc.app, python)
    && !s.proc.app.AbortClear? && !s.proc.app.AbortWrite? && !s.proc.app.AbortLate?
    && (AfterMarker(s.proc.app) ==> s.disk.marker == Marker(s.plan.target, python, TargetMonitoring))
    && (AfterMarker(s.proc.app) && !s.proc.app.ClearPending? ==> !s.disk.pending)
    && (s.proc.app.WriteMonitoringTarget? || s.proc.app.ExecRuntime? ==> s.watch == Watching(TargetWatch))
    && (s.proc.app.ExecRuntime? ==> s.disk.txn == Txn(Monitoring, MonitoringTarget))
  }

  /** The target is running under its watchdog. */
  predicate Launched(r: Sys, plan: Plan, python: int) {
    && r.plan == plan && r.proc == App(Idle) && r.watch == Watching(TargetWatch)
    && SameManaged(r.disk.files, plan.candidate) && ExactBackup(r) && !r.disk.pending
    && r.disk.marker == Marker(plan.target, python, TargetMonitoring)
    && r.disk.txn == Txn(Monitoring, MonitoringTarget)
  }

  lemma EarlyOnTrack(s: Sys, python: int)
    requires Inv(s) && OnTrack(s, python) && HasAllManaged(s.plan.candidate) && BeforeReplacement(s.proc.app)
    ensures OnTrack(ApplyNext(s, s.proc.app, python), python)
    ensures ApplyNext(s, s.proc.app, python).plan == s.plan
  {
  }

  lemma LateOnTrack(s: Sys, python: int)
    requires Inv(s) && OnTrack(s, python) && !BeforeReplacement(s.proc.app) && !s.proc.app.ExecRuntime?
    ensures OnTrack(ApplyNext(s, s.proc.app, python), python)
    ensures ApplyNext(s, s.proc.app, python).plan == s.plan
  {
  }

  lemma NextOnTrack(s: Sys, python: int)
    requires Inv(s) && OnTrack(s, python) && HasAllManaged(s.plan.candidate) && !s.proc.app.ExecRuntime?
    ensures OnTrack(ApplyNext(s, s.proc.app, python), python)
    ensures ApplyNext(s, s.proc.app, python).plan == s.plan
  {
    if BeforeReplacement(s.proc.app) {
      EarlyOnTrack(s, python);
    } else {
      LateOnTrack(s, python);
    }
  }

  lemma RankDrops(s: Sys, python: int)
    requires Inv(s) && OnTrack(s, python) && HasAllManaged(s.plan.candidate) && !s.proc.app.ExecRuntime?
    ensures var n := ApplyNext(s, s.proc.app, python);
            n.proc.Applying? && ApplyRank(n.proc.app) < ApplyRank(s.proc.app)
  {
  }

  lemma SettleOne(s: Sys, n: Sys, python: int)
    requires s.proc.Applying? && n == ApplyNext(s, s.proc.app, python)
    ensures SettleApply(s, python) == SettleApply(n, python)
  {
  }

  lemma {:induction false} ApplyLoop(s: Sys, python: int)
    requires Inv(s) && OnTrack(s, python) && HasAllManaged(s.plan.candidate)
    ensures Launched(SettleApply(s, python), s.plan, python)
    decreases ApplyRank(s.proc.app)
  {
    if s.proc.app.ExecRuntime? {
      ExecLaunches(s, python);
    } else {
      var n := ApplyNext(s, s.proc.app, python);
      ApplyNextSafe(s, s.proc.app, python);
      NextOnTrack(s, python);
      RankDrops(s, python);
      ApplyLoop(n, python);
      SettleOne(s, n, python);
    }
  }

  lemma ExecLaunches(s: Sys, python: int)
    requires Inv(s) && OnTrack(s, python) && s.proc.app.ExecRuntime?
    ensures Launched(SettleApply(s, python), s.plan, python)
  {
    var n := ApplyNext(s, ExecRuntime, python);
    assert SettleApply(s, python) == SettleApply(n, python) == n;
  }

  /**
   An update that nothing interrupts: the candidate is installed path by path behind an exact backup, and
   a healthy target ends it completed.
   */
  lemma ApplyCompletes(s: Sys, python: int)
    requires Reachable(s) && s.proc == Applying(ValidateCandidate) && HasAllManaged(s.plan.candidate)
    ensures var r := SettleApply(s, python);
            var done := Run(r, [WatchHealthy, WatchWrites]);
            && Launched(r, s.plan, python)
            && done.disk.txn == Txn(Completed, CompletedStage)
            && SameManaged(done.disk.files, s.plan.candidate)
            && done.disk.marker == Marker(s.plan.target, python, Active)
  {
    ReachableInv(s);
    ApplyLoop(s, python);
    TwoSteps(SettleApply(s, python), WatchHealthy, WatchWrites);
  }

  /** If the target never becomes healthy, the next start restores the original. */
  lemma UnhealthyTargetIsRolledBack(s: Sys, python: int)
    requires Reachable(s) && s.proc == Applying(ValidateCandidate) && HasAllManaged(s.plan.candidate)
    requires s.plan.originalMarker != Garbled
    ensures var r := Settle(Reboot(Do(SettleApply(s, python), WatchUnhealthy)));
            && SameManaged(r.disk.files, s.plan.original) && r.proc == App(Idle)
            && r.disk.marker == Marker(s.plan.current, RestoredPython(s), RollbackMonitoring)
  {
    ReachableInv(s);
    ApplyLoop(s, python);
    SettleApplyInv(s, python);
    LaunchedFails(SettleApply(s, python), s.plan, python);
  }

  lemma LaunchedFails(r: Sys, plan: Plan, python: int)
    requires Inv(r) && Launched(r, plan, python) && plan.originalMarker != Garbled
    ensures var done := Settle(Reboot(Do(r, WatchUnhealthy)));
            && SameManaged(done.disk.files, plan.original) && done.proc == App(Idle)
            && done.disk.marker == Marker(plan.current, RestoredPython(r), RollbackMonitoring)
  {
    var u := Do(r, WatchUnhealthy);
    StepSafe(r, WatchUnhealthy);
    RestoreOutcome(u, Settle(Reboot(u)));
  }

  function ApplyStepsLeft(s: Sys): nat {
    if s.proc.Applying? then 1 + ApplyRank(s.proc.app) else 0
  }

  lemma ApplyStepsDrop(s: Sys, python: int)
    requires s.proc.Applying?
    ensures ApplyStepsLeft(ApplyNext(s, s.proc.app, python)) < ApplyStepsLeft(s)
  {
  }

  lemma {:induction false} SettleApplyInv(s: Sys, python: int)
    requires Inv(s)
    ensures Inv(SettleApply(s, python))
    decreases ApplyStepsLeft(s)
  {
    if s.proc.Applying? {
      var n := ApplyNext(s, s.proc.app, python);
      ApplyStepsDrop(s, python);
      ApplyNextSafe(s, s.proc.app, python);
      SettleApplyInv(n, python);
      SettleOne(s, n, python);
    }
  }

  /** A candidate that lacks a managed path is not installed, not even in part. */
  lemma IncompleteCandidateRefused(s: Sys, python: int, i: nat)
    requires s.proc == Applying(CheckCandidate(python)) && i < MANAGED_COUNT
    requires At(s.plan.candidate, Managed(i)) == Missing
    ensures SettleApply(s, python) == Halt(WithTxn(s, RecoveryRequired, ApplyInterrupted))
  {
    var n := AtApply(s, AbortLate);
    assert SettleApply(s, python) == SettleApply(n, python) == SettleApply(ApplyNext(n, AbortLate, python), python);
  }

  // ---- a whole update, from the running application to the new version ----

  lemma {:induction false} RunTogether(s: Sys, a: seq<Action>, b: seq<Action>)
    ensures Run(s, a + b) == Run(Run(s, a), b)
    decreases |a|
  {
    if a == [] {
      assert a + b == b;
    } else {
      assert (a + b)[1..] == a[1..] + b;
      RunTogether(Do(s, a[0]), a[1..], b);
    }
  }

  lemma ReachableOnward(s: Sys, actions: seq<Action>)
    requires Reachable(s)
    ensures Reachable(Run(s, actions))
  {
    var files, marker, before :| s == Run(Fresh(files, marker), before);
    RunTogether(Fresh(files, marker), before, actions);
    assert Run(s, actions) == Run(Fresh(files, marker), before + actions);
  }

  /** SettleApply is a run of the transition system: nothing but steps that succeed. */
  lemma {:induction false} ApplyRuns(s: Sys, python: int) returns (actions: seq<Action>)
    ensures forall a :: a in actions ==> a == Advance(python)
    ensures Run(s, actions) == SettleApply(s, python)
    decreases ApplyStepsLeft(s)
  {
    if s.proc.Applying? {
      ApplyStepsDrop(s, python);
      var rest := ApplyRuns(ApplyNext(s, s.proc.app, python), python);
      actions := [Advance(python)] + rest;
      assert actions[1..] == rest;
    } else {
      actions := [];
    }
  }

  /** prepare_switch and the hand-off: the helper starts on a transaction that remembers what is in place. */
  lemma PrepareHandsOff(s: Sys, plan: Plan)
    requires s.proc == App(Idle)
    requires s.disk.txn.NoTxn? || s.disk.txn.status in {Completed, Failed, RolledBack}
    requires plan.original == s.disk.files && plan.originalMarker == s.disk.marker
    ensures var prepare := Prepare(plan.candidate, plan.current, plan.target, plan.oldPython);
            Run(s, [prepare, Advance(0), Advance(0), HandOff])
            == Sys(s.disk.(txn := Txn(Prepared, WaitingForShutdown), backup := NoBackup, pending := true), plan,
                   Applying(ValidateCandidate), s.watch)
  {
    var prepare := Prepare(plan.candidate, plan.current, plan.target, plan.oldPython);
    assert [prepare, Advance(0), Advance(0), HandOff][1..] == [Advance(0), Advance(0), HandOff];
    ThreeSteps(Do(s, prepare), Advance(0), Advance(0), HandOff);
  }

  /**
   From every reachable state in which the application runs and no transaction is open, a whole candidate
   can be installed: some run ends completed, with the candidate in every managed path and active.
   */
  lemma UpdateIsPossible(s: Sys, plan: Plan, python: int) returns (actions: seq<Action>)
    requires Reachable(s) && s.proc == App(Idle)
    requires forall i: nat :: i < MANAGED_COUNT ==> At(plan.candidate, Managed(i)) != Missing
    requires s.disk.txn.NoTxn? || s.disk.txn.status in {Completed, Failed, RolledBack}
    requires plan.original == s.disk.files && plan.originalMarker == s.disk.marker
    ensures var done := Run(s, actions);
            && done.proc == App(Idle) && done.plan == plan && done.watch == NoWatch && !done.disk.pending
            && done.disk.txn == Txn(Completed, CompletedStage) && SameManaged(done.disk.files, plan.candidate)
            && done.disk.marker == Marker(plan.target, python, Active)
  {
    var first := Prepare(plan.candidate, plan.current, plan.target, plan.oldPython);
    var prepare := [first, Advance(0), Advance(0), HandOff];
    PrepareHandsOff(s, plan);
    ReachableOnward(s, prepare);
    var h := Run(s, prepare);
    var apply := ApplyRuns(h, python);
    ApplyCompletes(h, python);
    RunTogether(s, prepare, apply);
    RunTogether(s, prepare + apply, [WatchHealthy, WatchWrites]);
    TwoSteps(SettleApply(h, python), WatchHealthy, WatchWrites);
    actions := prepare + apply + [WatchHealthy, WatchWrites];
  }
}
