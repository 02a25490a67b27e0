/** What a version tells: a row with the version at which it was read is the row that was read, so a command that
    names a version acts on what its sender saw. */
module ActionVersions {
  import opened Options
  import opened ActionModel
  import opened ActionInvariant
  import opened ActionHistory
  import opened ActionProgress
  import opened ActionSteps
  import opened ActionTheorems

  predicate ActionNewer(a: Action, b: Action) { b == a || a.version < b.version }

  predicate ApprovalNewer(p: Approval, q: Approval) { q == p || p.version < q.version }

  predicate DeliveryNewer(d: Delivery, e: Delivery) { e == d || d.version < e.version }

  /** The request to cancel, and the end of the initialization, are noted without a new version. */
  predicate RunNewer(r: Run, s: Run) {
    || r.version < s.version
    || (s == r.(cancelRequested := s.cancelRequested, wait := s.wait)
        && (s.wait == r.wait || (r.status.Running? && r.wait.WaitInitializing? && s.wait.NoWait?)))
  }

  ghost predicate RunsNewer(t: Tables, u: Tables) {
    forall r | r in t.runs :: r in u.runs && RunNewer(t.runs[r], u.runs[r])
  }

  ghost predicate ActionsNewer(t: Tables, u: Tables) {
    forall a | a in t.actions :: a in u.actions && ActionNewer(t.actions[a], u.actions[a])
  }

  ghost predicate ApprovalsNewer(t: Tables, u: Tables) {
    forall a | a in t.approvals :: a in u.approvals && ApprovalNewer(t.approvals[a], u.approvals[a])
  }

  ghost predicate DeliveriesNewer(t: Tables, u: Tables) {
    forall d | d in t.deliveries :: d in u.deliveries && DeliveryNewer(t.deliveries[d], u.deliveries[d])
  }

  ghost predicate Newer(t: Tables, u: Tables) {
    RunsNewer(t, u) && ActionsNewer(t, u) && ApprovalsNewer(t, u) && DeliveriesNewer(t, u)
  }

  lemma NewerComposes(t: Tables, u: Tables, v: Tables)
    requires Newer(t, u) && Newer(u, v)
    ensures Newer(t, v)
  {
    forall r | r in t.runs ensures r in v.runs && RunNewer(t.runs[r], v.runs[r]) {
      assert RunNewer(t.runs[r], u.runs[r]) && RunNewer(u.runs[r], v.runs[r]);
    }
    forall a | a in t.actions ensures a in v.actions && ActionNewer(t.actions[a], v.actions[a]) {
      assert ActionNewer(t.actions[a], u.actions[a]) && ActionNewer(u.actions[a], v.actions[a]);
    }
    forall a | a in t.approvals ensures a in v.approvals && ApprovalNewer(t.approvals[a], v.approvals[a]) {
      assert ApprovalNewer(t.approvals[a], u.approvals[a]) && ApprovalNewer(u.approvals[a], v.approvals[a]);
    }
    forall d | d in t.deliveries ensures d in v.deliveries && DeliveryNewer(t.deliveries[d], v.deliveries[d]) {
      assert DeliveryNewer(t.deliveries[d], u.deliveries[d]) && DeliveryNewer(u.deliveries[d], v.deliveries[d]);
    }
  }

  // Helpers of the commands -------------------------------------------------------------------------

  lemma WaitingIsNewer(t: Tables, run: nat, reason: WaitReason)
    ensures Newer(t, MarkWaiting(t, run, reason))
  {
  }

  lemma ResumingIsNewer(t: Tables, run: nat)
    ensures Newer(t, ResumeIfUnblocked(t, run))
  {
    hide Blocked;
  }

  lemma CreatingIsNewer(t: Tables, id: nat, run: nat, action: nat, kind: DeliveryKind, epoch: nat, payload: Payload,
                        now: nat)
    requires id !in t.deliveries
    ensures Newer(t, CreateDelivery(t, id, run, action, kind, epoch, payload, now))
  {
    hide SamePayloadExists;
  }

  lemma SettingIsNewer(t: Tables, id: nat)
    ensures id in t.actions ==> Newer(t, SetNotExecuted(t, id))
    ensures id in t.approvals ==> forall status :: Newer(t, SetApproval(t, id, status))
    ensures id in t.deliveries ==> forall status :: Newer(t, SetDelivery(t, id, status))
  {
    hide Newer;
    if id in t.actions { assert Newer(t, SetNotExecuted(t, id)) by { ActionSet(t, id, SetNotExecuted(t, id)); } }
    forall status ensures id in t.approvals ==> Newer(t, SetApproval(t, id, status)) {
      if id in t.approvals { ApprovalSet(t, id, SetApproval(t, id, status)); }
    }
    forall status ensures id in t.deliveries ==> Newer(t, SetDelivery(t, id, status)) {
      if id in t.deliveries { DeliverySet(t, id, SetDelivery(t, id, status)); }
    }
  }

  lemma ActionSet(t: Tables, id: nat, u: Tables)
    requires id in u.actions && u == t.(actions := t.actions[id := u.actions[id]], attempts := u.attempts)
    requires id in t.actions ==> ActionNewer(t.actions[id], u.actions[id])
    ensures Newer(t, u)
  {
  }

  lemma ApprovalSet(t: Tables, id: nat, u: Tables)
    requires id in t.approvals && id in u.approvals && u == t.(approvals := t.approvals[id := u.approvals[id]])
    requires ApprovalNewer(t.approvals[id], u.approvals[id])
    ensures Newer(t, u)
  {
  }

  lemma DeliverySet(t: Tables, id: nat, u: Tables)
    requires id in t.deliveries && id in u.deliveries && u == t.(deliveries := t.deliveries[id := u.deliveries[id]])
    requires DeliveryNewer(t.deliveries[id], u.deliveries[id])
    ensures Newer(t, u)
  {
  }

  lemma RunSet(t: Tables, id: nat, u: Tables)
    requires id in u.runs && u == t.(runs := t.runs[id := u.runs[id]])
    requires id in t.runs ==> RunNewer(t.runs[id], u.runs[id])
    ensures Newer(t, u)
  {
  }

  // Commands ----------------------------------------------------------------------------------------

  lemma PreparingIsNewer(t: Tables, c: Command)
    requires Inv(t) && c.Prepare? && CanPrepare(t, c)
    ensures Newer(t, DoPrepare(t, c))
  {
    FreshApproval(t, c.action);
    var t1 := Recorded(t, c);
    assert Newer(t, t1) by { hide Inv, PolicyFor, NewAction; }
    assert c.delivery !in t1.deliveries;
    var t2 := MarkWaiting(t1, c.run, WaitDelivery);
    assert t2.deliveries == t1.deliveries;
    hide Inv, Newer, CanPrepare, Recorded, PolicyFor, MarkWaiting, CreateDelivery;
    forall reason ensures Newer(t, MarkWaiting(t1, c.run, reason)) {
      WaitingIsNewer(t1, c.run, reason);
      NewerComposes(t, t1, MarkWaiting(t1, c.run, reason));
    }
    forall kind, payload
      ensures Newer(t, CreateDelivery(t2, c.delivery, c.run, c.action, kind, c.runEpoch, payload, c.now))
    {
      CreatingIsNewer(t2, c.delivery, c.run, c.action, kind, c.runEpoch, payload, c.now);
      NewerComposes(t, t2, CreateDelivery(t2, c.delivery, c.run, c.action, kind, c.runEpoch, payload, c.now));
    }
  }

  lemma ResolvedIsNewer(t: Tables, c: Command)
    requires c.Resolve? && CanResolve(t, c)
    ensures Newer(t, Resolved(t, c)) && Resolved(t, c).deliveries == t.deliveries
  {
    var p := t.approvals[c.action];
    var o := FindOption(p.options, c.option).value;
    var t1 := SetApproval(t, c.action, if ApprovalExpired(p, c.now) then Expired else ChosenStatus(o));
    SettingIsNewer(t, c.action);
    SettingIsNewer(t1, c.action);
    hide Newer, FindOption, CanResolve;
    NewerComposes(t, t1, SetNotExecuted(t1, c.action));
  }

  lemma ResolvingIsNewer(t: Tables, c: Command)
    requires c.Resolve? && CanResolve(t, c)
    ensures Newer(t, DoResolve(t, c))
  {
    var run := t.actions[c.action].run;
    var t1 := Resolved(t, c);
    ResolvedIsNewer(t, c);
    hide Newer, Resolved, FindOption, MarkWaiting, CreateDelivery, FirstRefusal;
    forall epoch, payload
      ensures var u := CreateDelivery(t1, c.delivery, run, c.action, AuthorizationResolution, epoch, payload, c.now);
              Newer(t, u) && Newer(t, MarkWaiting(u, run, WaitDelivery))
    {
      var u := CreateDelivery(t1, c.delivery, run, c.action, AuthorizationResolution, epoch, payload, c.now);
      CreatingIsNewer(t1, c.delivery, run, c.action, AuthorizationResolution, epoch, payload, c.now);
      NewerComposes(t, t1, u);
      WaitingIsNewer(u, run, WaitDelivery);
      NewerComposes(t, u, MarkWaiting(u, run, WaitDelivery));
    }
    WaitingIsNewer(t1, run, WaitExecution);
    NewerComposes(t, t1, MarkWaiting(t1, run, WaitExecution));
  }

  lemma ResultIsNewer(t: Tables, c: Command)
    requires c.RecordResult? && CanRecordResult(t, c)
    ensures Newer(t, DoRecordResult(t, c))
  {
    var run, t1 := t.actions[c.action].run, WithOutcome(t, c);
    assert Newer(t, t1) && t1.deliveries == t.deliveries && t1.runs == t.runs;
    var content, epoch := RecordedResult(c.outcome, c.content), t.runs[run].epoch;
    var u := CreateDelivery(t1, c.delivery, run, c.action, ActionResult, epoch, content, c.now);
    CreatingIsNewer(t1, c.delivery, run, c.action, ActionResult, epoch, content, c.now);
    WaitingIsNewer(u, run, WaitDelivery);
    WaitingIsNewer(t1, run, WaitUnknownOutcome);
    ResumingIsNewer(t1, run);
    hide Newer, WithOutcome, MarkWaiting, CreateDelivery, ResumeIfUnblocked, CanRecordResult;
    NewerComposes(t, t1, u);
    NewerComposes(t, u, MarkWaiting(u, run, WaitDelivery));
    NewerComposes(t, t1, MarkWaiting(t1, run, WaitUnknownOutcome));
    NewerComposes(t, t1, ResumeIfUnblocked(t1, run));
  }

  lemma UndeliveredIsNewer(t: Tables, action: nat)
    requires action in t.actions
    ensures Newer(t, CloseUndelivered(t, action))
  {
    var t1 := if t.actions[action].status.Prepared? then SetNotExecuted(t, action) else t;
    SettingIsNewer(t, action);
    SettingIsNewer(t1, action);
    NewerReflexive(t);
    hide Newer, SetNotExecuted, SetApproval;
    if action in t1.approvals { NewerComposes(t, t1, SetApproval(t1, action, Cancelled)); }
  }

  lemma NewerReflexive(t: Tables)
    ensures Newer(t, t)
  {
  }

  lemma ConfirmingIsNewer(t: Tables, c: Command)
    requires c.ConfirmResolved? && CanConfirm(t, c)
    ensures Newer(t, DoConfirm(t, c))
  {
    var t1 := Confirmed(t, c.action);
    ConfirmedIsNewer(t, c.action);
    ResumingIsNewer(t1, c.run);
    NewerComposes(t, t1, ResumeIfUnblocked(t1, c.run));
    hide Newer, Confirmed, ResumeIfUnblocked;
  }

  lemma ConfirmedIsNewer(t: Tables, action: nat)
    requires action in t.actions
    ensures Newer(t, Confirmed(t, action))
  {
    NewerReflexive(t);
    UndeliveredIsNewer(t, action);
    if HasAuthorization(t, action) {
      var d := AuthorizationOf(t, action);
      var closed := SetDelivery(t, d, SafelyClosed);
      SettingIsNewer(t, d);
      UndeliveredIsNewer(closed, action);
      NewerComposes(t, closed, CloseUndelivered(closed, action));
    }
    hide Newer, CloseUndelivered, SetDelivery;
  }

  lemma ClosingIsNewer(t: Tables, runs: set<nat>)
    ensures Newer(t, CloseEffects(t, runs))
  {
    hide CloseAttempts, OfRuns;
  }

  lemma AbortIsNewer(t: Tables, run: nat, final: RunStatus)
    requires run in t.runs
    ensures Newer(t, Abort(t, run, final))
  {
    var t1 := CloseEffects(t, {run});
    ClosingIsNewer(t, {run});
    assert t1.runs == t.runs;
    hide CloseEffects, Newer;
    RunSet(t1, run, Abort(t, run, final));
    NewerComposes(t, t1, Abort(t, run, final));
  }

  lemma LosingIsNewer(t: Tables, run: nat, epoch: nat)
    ensures Newer(t, LoseEffects(t, run, epoch)) && LoseEffects(t, run, epoch).runs == t.runs
  {
    hide LoseAttempts, Lost;
  }

  lemma LossIsNewer(t: Tables, c: Command)
    requires c.ReconcileLoss? && CanReconcileLoss(t, c)
    ensures Newer(t, DoReconcileLoss(t, c))
  {
    AbortIsNewer(t, c.run, RunCancelled);
    AbortIsNewer(t, c.run, RunFailed);
    LosingIsNewer(t, c.run, c.runEpoch);
    var t1 := LoseEffects(t, c.run, c.runEpoch);
    hide Newer, Abort, LoseEffects, HasUnknown;
    if !t.runs[c.run].singleChat && !c.inputMayHaveExecuted {
      RunSet(t1, c.run, DoReconcileLoss(t, c));
      NewerComposes(t, t1, DoReconcileLoss(t, c));
    }
  }

  // Restart -----------------------------------------------------------------------------------------

  lemma RestartRowsAreNewer(t: Tables, now: nat)
    ensures Newer(t, RestartEffects(t, now)) && RestartEffects(t, now).runs == t.runs
  {
    hide RestartAttempts, Unanswered;
  }

  lemma RestartRunIsNewer(t: Tables, id: nat, inputUnknown: bool)
    requires id in t.runs
    ensures RunNewer(t.runs[id], RestartRun(t, id, inputUnknown))
  {
    hide HasUnknown, Unsettled;
  }

  lemma RunsSet(t: Tables, u: Tables)
    requires u == t.(runs := u.runs) && RunsNewer(t, u)
    ensures Newer(t, u)
  {
  }

  lemma RestartIsNewer(t: Tables, inputUnknown: set<nat>, lost: set<nat>, accepted: set<nat>, now: nat)
    ensures Newer(t, DoRestart(t, inputUnknown, lost, accepted, now))
  {
    var t1, u := RestartEffects(t, now), RestartTables(t, inputUnknown, now);
    var v := FailBatches(u, lost);
    RestartRowsAreNewer(t, now);
    BatchesAreNewer(u, lost);
    IdleIsNewer(v, accepted - inputUnknown);
    assert RunsNewer(t1, u) by {
      hide RestartEffects;
      forall r | r in t1.runs ensures r in u.runs && RunNewer(t1.runs[r], u.runs[r]) {
        RestartRunIsNewer(t1, r, r in inputUnknown);
      }
    }
    hide RestartEffects, FailBatches, FailIdle, Newer, RunsNewer, RestartRun;
    RunsSet(t1, u);
    NewerComposes(t, t1, u);
    NewerComposes(t, u, v);
    NewerComposes(t, v, FailIdle(v, accepted - inputUnknown));
  }

  lemma BatchesAreNewer(t: Tables, lost: set<nat>)
    ensures Newer(t, FailBatches(t, lost))
  {
    var batches := set r | r in t.runs && r in lost && AcceptsEffects(t.runs[r]);
    var t1 := CloseEffects(t, batches);
    ClosingIsNewer(t, batches);
    assert t1.runs == t.runs;
    hide CloseEffects;
    assert RunsNewer(t1, FailBatches(t, lost));
    hide Newer, RunsNewer;
    RunsSet(t1, FailBatches(t, lost));
    NewerComposes(t, t1, FailBatches(t, lost));
  }

  lemma IdleIsNewer(t: Tables, accepted: set<nat>)
    ensures Newer(t, FailIdle(t, accepted))
  {
    hide Unsettled;
  }

  // Any command -------------------------------------------------------------------------------------

  predicate Composite(c: Command) {
    c.Prepare? || c.Resolve? || c.RecordResult? || c.ConfirmResolved? || c.AbortRun? || c.ReconcileLoss? || c.Restart?
  }

  lemma StepIsNewer(t: Tables, c: Command)
    requires Inv(t)
    ensures Newer(t, Step(t, c))
  {
    NewerReflexive(t);
    if Composite(c) {
      hide Inv, Newer, CanPrepare, DoPrepare, CanResolve, DoResolve, CanRecordResult, DoRecordResult, CanConfirm,
           DoConfirm, Abort, CanReconcileLoss, DoReconcileLoss, DoRestart;
      match c {
        case Prepare(_, _, _, _, _, _, _, _, _, _, _, _, _) => if CanPrepare(t, c) { PreparingIsNewer(t, c); }
        case Resolve(_, _, _, _, _, _) => if CanResolve(t, c) { ResolvingIsNewer(t, c); }
        case RecordResult(_, _, _, _, _, _, _, _, _, _, _) => if CanRecordResult(t, c) { ResultIsNewer(t, c); }
        case ConfirmResolved(_, _, _, _, _) => if CanConfirm(t, c) { ConfirmingIsNewer(t, c); }
        case AbortRun(run, final) => if run in t.runs { AbortIsNewer(t, run, final); }
        case ReconcileLoss(_, _, _, _, _) => if CanReconcileLoss(t, c) { LossIsNewer(t, c); }
        case Restart(inputUnknown, lost, accepted, now) => RestartIsNewer(t, inputUnknown, lost, accepted, now);
        case _ => assert false;
      }
    } else if RunStep(c) || c.NewRun? || c.ClaimRun? || c.RequestCancel? || c.EndRun? {
      RunRowIsNewer(t, c);
    } else {
      RowIsNewer(t, c);
    }
  }

  lemma RunRowIsNewer(t: Tables, c: Command)
    requires RunStep(c) || c.NewRun? || c.ClaimRun? || c.RequestCancel? || c.EndRun?
    ensures Newer(t, Step(t, c))
  {
    hide Blocked, RecoveryBlocked, Newer;
    var u := Step(t, c);
    NewerReflexive(t);
    if u != t { RunSet(t, c.run, u); }
  }

  lemma ObservingIsNewer(t: Tables, c: Command)
    requires c.RecordObserved? && CanRecordObserved(t, c)
    ensures Newer(t, DoRecordObserved(t, c))
  {
    var a := Action(c.run, Observed, ObservedOnly, c.digest, None, c.runEpoch, None, StatusOf(c.outcome),
                    1, 0, None, 0, 0, None, false, NoError);
    var t1 := t.(actions := t.actions[c.action := a]);
    hide Newer, MarkWaiting;
    ActionSet(t, c.action, t1);
    WaitingIsNewer(t1, c.run, WaitUnknownOutcome);
    NewerComposes(t, t1, MarkWaiting(t1, c.run, WaitUnknownOutcome));
  }

  lemma RowIsNewer(t: Tables, c: Command)
    requires c.RecordObserved? || c.Claim? || c.MarkDispatch? || c.Acquire? || c.Acknowledge? || c.FailDelivery?
    ensures Newer(t, Step(t, c))
  {
    var u := Step(t, c);
    NewerReflexive(t);
    hide Newer, ResumeIfUnblocked, DoRecordObserved;
    match c {
      case RecordObserved(_, _, _, _, _, _, _) => if CanRecordObserved(t, c) { ObservingIsNewer(t, c); }
      case Claim(action, _, _, _, _, _, _, _, _) => if CanClaim(t, c) { ActionSet(t, action, u); }
      case MarkDispatch(action, _, _, _) => if CanMarkDispatch(t, c) { ActionSet(t, action, u); }
      case Acquire(d, _, _, _, _, _) => if CanAcquire(t, c) { DeliverySet(t, d, u); }
      case Acknowledge(d, _, _, _, _) =>
        if CanAcknowledge(t, c) {
          var t1 := SetDelivery(t, d, Acked);
          DeliverySet(t, d, t1);
          ResumingIsNewer(t1, t.deliveries[d].run);
          NewerComposes(t, t1, u);
        }
      case FailDelivery(d, _, _, _, _) => if CanFailDelivery(t, c) { DeliverySet(t, d, u); }
    }
  }

  lemma {:induction false} RunIsNewer(t: Tables, commands: seq<Command>)
    requires Inv(t)
    ensures Newer(t, RunAll(t, commands))
    decreases |commands|
  {
    NewerReflexive(t);
    hide Inv, Step, Newer, Evolves;
    if commands != [] {
      StepAdvances(t, commands[0]);
      StepIsNewer(t, commands[0]);
      RunIsNewer(Step(t, commands[0]), commands[1..]);
      NewerComposes(t, Step(t, commands[0]), RunAll(t, commands));
    }
  }

  /** Whatever happened since a row was read: when a claim, a resolution or a lease names the version that was read
      and is granted, the row it acts on is the one that was read, and an admission finds its run so but for a request
      to cancel and the end of its initialization. */
  lemma VersionFindsWhatWasRead(t: Tables, later: seq<Command>, c: Command)
    requires Reachable(t)
    ensures var u := RunAll(t, later);
      match c
      case Claim(a, _, _, version, _, _, _, _, _) =>
        CanClaim(u, c) && a in t.actions && t.actions[a].version == version ==> u.actions[a] == t.actions[a]
      case Resolve(a, _, _, version, _, _) =>
        CanResolve(u, c) && a in t.approvals && t.approvals[a].version == version ==> u.approvals[a] == t.approvals[a]
      case Acquire(d, _, version, _, _, _) =>
        CanAcquire(u, c) && d in t.deliveries && t.deliveries[d].version == version ==>
          u.deliveries[d] == t.deliveries[d]
      case ClaimRun(r, version, _) =>
        CanClaimRun(u, c) && r in t.runs && t.runs[r].version == version ==> u.runs[r] == t.runs[r]
      case _ => true
  {
    Continues(t, later);
    RunIsNewer(t, later);
    hide Inv, RunAll, RecoveryBlocked, ActionsEvolve, ApprovalsEvolve, AttemptsEvolve, DeliveriesEvolve, FenceHolds;
  }
}
