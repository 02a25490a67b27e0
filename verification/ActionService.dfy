/** The service and its recovery steps as they run: one method per transaction, updating the tables in place. */
module ActionService {
  import opened Options
  import opened ActionModel
  import opened ActionPolicy
  import opened ActionUpdates

  class Service {
    var runs: map<nat, Run>
    var actions: map<nat, Action>
    var approvals: map<nat, Approval>
    var attempts: map<nat, Attempt>
    var deliveries: map<nat, Delivery>

    function State(): Tables
      reads this
    {
      Tables(runs, actions, approvals, attempts, deliveries)
    }

    constructor ()
      ensures State() == EMPTY
    {
      runs, actions, approvals, attempts, deliveries := map[], map[], map[], map[], map[];
    }

    // Helpers --------------------------------------------------------------------------------------

    method MarkRunWaiting(run: nat, reason: WaitReason)
      modifies `runs
      ensures State() == MarkWaiting(old(State()), run, reason)
    {
      if run in runs && (runs[run].status.Running? || runs[run].status.Waiting?) {
        runs := runs[run := runs[run].(status := Waiting, wait := reason, version := runs[run].version + 1)];
      }
    }

    method ResumeRunIfUnblocked(run: nat)
      modifies `runs
      ensures State() == ResumeIfUnblocked(old(State()), run)
    {
      if Blocked(State(), run) || run !in runs { return; }
      var r := runs[run];
      if r.status.Waiting? && r.wait in {WaitApproval, WaitExecution, WaitDelivery} {
        if r.recoveryRequired {
          runs := runs[run := r.(wait := WaitRecovery, version := r.version + 1)];
        } else {
          runs := runs[run := r.(status := Running, wait := NoWait, version := r.version + 1, woken := false)];
        }
      }
    }

    method MarkNotExecuted(action: nat)
      requires action in actions
      modifies `actions
      ensures State() == SetNotExecuted(old(State()), action)
    {
      actions := actions[action := actions[action].(status := NotExecuted, version := actions[action].version + 1)];
    }

    method CreateRuntimeDelivery(id: nat, run: nat, action: nat, kind: DeliveryKind, epoch: nat, payload: Payload,
                                 now: nat)
      modifies `deliveries
      ensures State() == CreateDelivery(old(State()), id, run, action, kind, epoch, payload, now)
    {
      if !SamePayloadExists(State(), action, kind, payload) {
        deliveries := deliveries[id := Delivery(run, action, kind, payload, epoch, Queued, now, None, 0, 1)];
      }
    }

    method Decide(run: nat, c: Command) returns (policy: Option<Decision>)
      requires c.Prepare? && run in runs
      ensures policy == PolicyFor(runs[run], c)
    {
      if c.mode.Observed? { return Some(ObservedOnly); }
      if runs[run].semantics.RuntimeManaged? && c.mode.Intercepted? { return Some(Ask); }
      policy := EvaluatePolicy(runs[run].rules, c.kind);
    }

    // Commands -------------------------------------------------------------------------------------

    method PrepareAction(c: Command) returns (applied: bool)
      requires c.Prepare?
      modifies this
      ensures applied == CanPrepare(old(State()), c)
      ensures State() == if applied then DoPrepare(old(State()), c) else old(State())
    {
      hide SamePayloadExists, Evaluate;
      if !c.admitted || c.run !in runs || !Active(runs[c.run]) || runs[c.run].epoch != c.runEpoch { return false; }
      var r := runs[c.run];
      if !c.mode.Observed? && r.cancelRequested { return false; }
      if c.mode.Intercepted? != c.nativeRequest.Some? { return false; }
      var runtimeManaged := RuntimeManagedRequest(r, c);
      if !runtimeManaged && !r.capable { return false; }
      if r.semantics.CoreEnforced? && !c.scopeOk { return false; }
      if runtimeManaged && !OptionsAcceptable(c.options) { return false; }
      if c.action in actions || c.delivery in deliveries { return false; }
      var decided := Decide(c.run, c);
      if decided.None? { return false; }
      var policy := decided.value;
      actions := actions[c.action := NewAction(c, policy)];
      match policy {
        case Ask =>
          var options := if c.mode.Intercepted? then c.options else CORE_OPTIONS;
          approvals := approvals[c.action := Approval(Pending, 1, options, c.executeBefore)];
          MarkRunWaiting(c.run, WaitApproval);
        case Deny =>
          MarkRunWaiting(c.run, WaitDelivery);
          if c.mode.Intercepted? {
            CreateRuntimeDelivery(c.delivery, c.run, c.action, AuthorizationResolution, c.runEpoch, DeniedByPolicy,
                c.now);
          } else {
            CreateRuntimeDelivery(c.delivery, c.run, c.action, ActionResult, c.runEpoch, PolicyDeniedResult, c.now);
          }
        case Allow =>
          if c.mode.Intercepted? {
            MarkRunWaiting(c.run, WaitDelivery);
            CreateRuntimeDelivery(c.delivery, c.run, c.action, AuthorizationResolution, c.runEpoch, ApprovedByPolicy,
                c.now);
          } else {
            MarkRunWaiting(c.run, WaitExecution);
          }
        case ObservedOnly => MarkRunWaiting(c.run, WaitUnknownOutcome);
      }
      return true;
    }

    method RecordObservedAction(c: Command) returns (applied: bool)
      requires c.RecordObserved?
      modifies this
      ensures applied == CanRecordObserved(old(State()), c)
      ensures State() == if applied then DoRecordObserved(old(State()), c) else old(State())
    {
      if !Consistent(c.outcome, c.effect) || !c.admitted { return false; }
      if c.run !in runs || !Active(runs[c.run]) || runs[c.run].epoch != c.runEpoch { return false; }
      if runs[c.run].semantics.CoreEnforced? && !runs[c.run].capable { return false; }
      if c.action in actions { return false; }
      actions := actions[c.action :=
        Action(c.run, Observed, ObservedOnly, c.digest, None, c.runEpoch, None, StatusOf(c.outcome),
               1, 0, None, 0, 0, None, false, NoError)];
      if c.outcome.ResultUnknown? { MarkRunWaiting(c.run, WaitUnknownOutcome); }
      return true;
    }

    method ResolveApproval(c: Command) returns (applied: bool)
      requires c.Resolve?
      modifies this
      ensures applied == CanResolve(old(State()), c)
      ensures State() == if applied then DoResolve(old(State()), c) else old(State())
    {
      hide SamePayloadExists;
      if !c.admitted || c.action !in approvals || c.action !in actions || actions[c.action].run !in runs {
        return false;
      }
      var p, a := approvals[c.action], actions[c.action];
      var r := runs[a.run];
      if !p.status.Pending? || p.version != c.approvalVersion { return false; }
      if !a.status.Prepared? || a.sourceEpoch != r.epoch { return false; }
      var found := FindOption(p.options, c.option);
      if found.None? { return false; }
      var o := found.value;
      if o.allowsAction && !AcceptsEffects(r) { return false; }
      if r.semantics.RuntimeManaged? && !o.wellFormed { return false; }
      var expired := p.expiresAt.Some? && p.expiresAt.value < c.now;
      var refusal := FirstRefusal(p.options);
      if (expired && refusal.None?) || c.delivery in deliveries { return false; }
      if expired {
        approvals := approvals[c.action := p.(status := Expired, version := p.version + 1)];
        MarkNotExecuted(c.action);
        if AcceptsEffects(r) {
          CreateRuntimeDelivery(c.delivery, a.run, c.action, AuthorizationResolution, r.epoch,
              ExpiredWith(refusal.value.id), c.now);
        }
        return true;
      }
      approvals := approvals[c.action := p.(status := ChosenStatus(o), version := p.version + 1)];
      if !o.allowsAction { MarkNotExecuted(c.action); }
      if AcceptsEffects(r) && (a.mode.Intercepted? || !o.allowsAction) {
        CreateRuntimeDelivery(c.delivery, a.run, c.action, AuthorizationResolution, r.epoch,
                              ResolvedByUser(ChosenStatus(o), o.id), c.now);
        MarkRunWaiting(a.run, WaitDelivery);
      } else if o.allowsAction {
        MarkRunWaiting(a.run, WaitExecution);
      }
      return true;
    }

    method ClaimAction(c: Command) returns (applied: bool)
      requires c.Claim?
      modifies this
      ensures applied == CanClaim(old(State()), c)
      ensures State() == if applied then DoClaim(old(State()), c) else old(State())
    {
      if !c.admitted || c.action !in actions || actions[c.action].run !in runs { return false; }
      var a := actions[c.action];
      var r := runs[a.run];
      if !a.status.Prepared? || a.version != c.actionVersion { return false; }
      if !Active(r) || r.cancelRequested { return false; }
      if a.executeBefore.Some? && a.executeBefore.value < c.now { return false; }
      match a.policy {
        case Ask => if c.action !in approvals || !approvals[c.action].status.Approved? { return false; }
        case Allow =>
        case _ => return false;
      }
      match a.mode {
        case Mediated =>
          if !c.component.Executor? || c.authorization.Some? || c.authorizationOwner.Some? { return false; }
        case Intercepted =>
          if !c.component.Adapter? || c.authorization.None? || c.authorizationOwner.None? { return false; }
          if c.authorization.value !in deliveries { return false; }
          var d := deliveries[c.authorization.value];
          if d.action != c.action || !d.kind.AuthorizationResolution? || !d.status.Delivering? { return false; }
          if d.targetEpoch != r.epoch || d.leaseOwner != c.authorizationOwner { return false; }
        case Observed => return false;
      }
      if c.attempt in attempts { return false; }
      var number, epoch := a.attemptCount + 1, a.version + 1;
      attempts := attempts[c.attempt := Attempt(c.action, number, epoch, c.owner, false, None)];
      actions := actions[c.action := a.(
        status := Executing, attemptCount := number, activeAttempt := Some(c.attempt), epoch := epoch,
        runEpochAtDispatch := r.epoch, leaseOwner := Some(c.owner), version := epoch)];
      return true;
    }

    method MarkDispatchStarted(c: Command) returns (applied: bool)
      requires c.MarkDispatch?
      modifies this
      ensures applied == CanMarkDispatch(old(State()), c)
      ensures State() == if applied then DoMarkDispatch(old(State()), c) else old(State())
    {
      if c.action !in actions || actions[c.action].run !in runs { return false; }
      var a := actions[c.action];
      var r := runs[a.run];
      if a.activeAttempt != Some(c.attempt) || a.epoch != c.actionEpoch || a.leaseOwner != Some(c.owner) {
        return false;
      }
      if !a.status.Executing? { return false; }
      if !Active(r) || r.epoch != a.runEpochAtDispatch || r.cancelRequested { return false; }
      actions := actions[c.action := a.(dispatchStarted := true, version := a.version + 1)];
      if c.attempt in attempts && attempts[c.attempt].action == c.action && attempts[c.attempt].epoch == c.actionEpoch {
        attempts := attempts[c.attempt := attempts[c.attempt].(marked := true)];
      }
      return true;
    }

    method RecordResult(c: Command) returns (applied: bool)
      requires c.RecordResult?
      modifies this
      ensures applied == CanRecordResult(old(State()), c)
      ensures State() == if applied then DoRecordResult(old(State()), c) else old(State())
    {
      hide SamePayloadExists, Blocked;
      if !Consistent(c.outcome, c.effect) || !c.admitted { return false; }
      if c.action !in actions || actions[c.action].run !in runs { return false; }
      var a := actions[c.action];
      var lateEvidence := a.status.Unknown?
          && (c.component.Reconciler? || (c.component.Adapter? && c.backgroundEvidence));
      if !a.status.Executing? && !lateEvidence { return false; }
      if a.activeAttempt != Some(c.attempt) || a.epoch != c.actionEpoch { return false; }
      if !OwnsResult(a.mode, c.component) || !a.dispatchStarted || c.delivery in deliveries { return false; }
      actions := actions[c.action := a.(status := StatusOf(c.outcome), leaseOwner := None, version := a.version + 1)];
      if c.attempt in attempts && attempts[c.attempt].action == c.action && attempts[c.attempt].epoch == c.actionEpoch {
        attempts := attempts[c.attempt := attempts[c.attempt].(outcome := Some(OutcomeOf(c.outcome)))];
      }
      if c.outcome.ResultUnknown? {
        MarkRunWaiting(a.run, WaitUnknownOutcome);
      } else if a.mode.Mediated? {
        CreateRuntimeDelivery(c.delivery, a.run, c.action, ActionResult, runs[a.run].epoch,
            RecordedResult(c.outcome, c.content), c.now);
        MarkRunWaiting(a.run, WaitDelivery);
      } else {
        ResumeRunIfUnblocked(a.run);
      }
      return true;
    }

    method AcquireDelivery(c: Command) returns (applied: bool)
      requires c.Acquire?
      modifies this
      ensures applied == CanAcquire(old(State()), c)
      ensures State() == if applied then DoAcquire(old(State()), c) else old(State())
    {
      if !c.admitted || c.leaseSeconds == 0 || c.delivery !in deliveries || deliveries[c.delivery].run !in runs {
        return false;
      }
      var d := deliveries[c.delivery];
      var r := runs[d.run];
      if d.version != c.deliveryVersion || d.availableAt > c.now { return false; }
      if !d.status.Queued? && !(d.status.Delivering? && d.leaseExpires <= c.now) { return false; }
      if !Active(r) || r.epoch != d.targetEpoch || r.cancelRequested { return false; }
      deliveries := deliveries[c.delivery := d.(status := Delivering, leaseOwner := Some(c.owner),
                                                leaseExpires := c.now + c.leaseSeconds, version := d.version + 1)];
      return true;
    }

    method AcknowledgeDelivery(c: Command) returns (applied: bool)
      requires c.Acknowledge?
      modifies this
      ensures applied == CanAcknowledge(old(State()), c)
      ensures State() == if applied then DoAcknowledge(old(State()), c) else old(State())
    {
      hide Blocked;
      if !c.admitted || !HoldsLease(State(), c.delivery, c.payload, c.targetEpoch, c.owner) { return false; }
      var run := deliveries[c.delivery].run;
      if !Active(runs[run]) { return false; }
      deliveries := deliveries[c.delivery := Settle(deliveries[c.delivery], Acked)];
      ResumeRunIfUnblocked(run);
      return true;
    }

    method FailRuntimeDelivery(c: Command) returns (applied: bool)
      requires c.FailDelivery?
      modifies this
      ensures applied == CanFailDelivery(old(State()), c)
      ensures State() == if applied then SetDelivery(old(State()), c.delivery, DeliveryFailed) else old(State())
    {
      if !c.admitted || !HoldsLease(State(), c.delivery, c.payload, c.targetEpoch, c.owner) { return false; }
      deliveries := deliveries[c.delivery := Settle(deliveries[c.delivery], DeliveryFailed)];
      return true;
    }

    method CloseUndeliveredRequest(action: nat)
      requires action in actions
      modifies `actions, `approvals
      ensures State() == CloseUndelivered(old(State()), action)
    {
      if actions[action].status.Prepared? { MarkNotExecuted(action); }
      if action in approvals && approvals[action].status.Pending? {
        approvals := approvals[action := approvals[action].(status := Cancelled,
                                                            version := approvals[action].version + 1)];
      }
    }

    method ConfirmRequestResolved(c: Command) returns (applied: bool)
      requires c.ConfirmResolved? && OneAuthorization(State(), c.action)
      modifies this
      ensures applied == CanConfirm(old(State()), c)
      ensures State() == if applied then DoConfirm(old(State()), c) else old(State())
    {
      hide Blocked;
      if !c.admitted || c.action !in actions || actions[c.action].run != c.run || c.run !in runs { return false; }
      var a, r := actions[c.action], runs[c.run];
      if !a.mode.Intercepted? || a.sourceEpoch != c.runEpoch || a.nativeRequest != Some(c.requestId) { return false; }
      if r.epoch != c.runEpoch || !Active(r) { return false; }
      if !HasAuthorization(State(), c.action) {
        CloseUndeliveredRequest(c.action);
      } else {
        var d :| d in deliveries && IsAuthorization(State(), d, c.action);
        assert d == AuthorizationOf(State(), c.action);
        match deliveries[d].status {
          case Delivering => deliveries := deliveries[d := Settle(deliveries[d], Acked)];
          case Queued =>
            deliveries := deliveries[d := Settle(deliveries[d], SafelyClosed)];
            CloseUndeliveredRequest(c.action);
          case DeliveryFailed => deliveries := deliveries[d := Settle(deliveries[d], SafelyClosed)];
          case _ =>
        }
      }
      ResumeRunIfUnblocked(c.run);
      return true;
    }

    // Runs, losses and restarts ----------------------------------------------------------------------

    method AdmitRun(c: Command) returns (applied: bool)
      requires c.NewRun?
      modifies `runs
      ensures applied == (c.run !in old(runs))
      ensures State() == Step(old(State()), c)
    {
      if c.run in runs { return false; }
      runs := runs[c.run :=
        Run(RunQueued, NoWait, false, 0, 1, false, c.semantics, c.capable, c.rules, c.singleChat, false)];
      return true;
    }

    method ClaimAgentRun(c: Command) returns (applied: bool)
      requires c.ClaimRun?
      modifies `runs
      ensures applied == CanClaimRun(old(State()), c)
      ensures State() == Step(old(State()), c)
    {
      hide Blocked, RecoveryBlocked;
      if !c.admitted || c.run !in runs { return false; }
      var r := runs[c.run];
      if r.version != c.runVersion || r.cancelRequested { return false; }
      if !r.status.RunQueued? {
        if !r.status.Waiting? || !r.wait.WaitRecovery? || !r.recoveryRequired { return false; }
        if RecoveryBlocked(State(), c.run) { return false; }
      }
      runs := runs[c.run := r.(status := Running, wait := WaitInitializing, recoveryRequired := false,
                               epoch := r.epoch + 1, version := r.version + 1, woken := false)];
      return true;
    }

    method RequestRunCancel(run: nat) returns (applied: bool)
      modifies `runs
      ensures applied == (run in old(runs))
      ensures State() == Step(old(State()), RequestCancel(run))
    {
      if run !in runs { return false; }
      runs := runs[run := runs[run].(cancelRequested := true)];
      return true;
    }

    method MarkInputDeliveryUnknown(c: Command) returns (applied: bool)
      requires c.MarkInputUnknown?
      modifies `runs
      ensures State() == Step(old(State()), c) && (!applied ==> State() == old(State()))
    {
      if !c.admitted || c.run !in runs { return false; }
      var r := runs[c.run];
      if !Active(r) || r.epoch != c.runEpoch || r.cancelRequested { return false; }
      runs := runs[c.run := r.(
        status := Waiting, wait := WaitInputUnknown, recoveryRequired := true, version := r.version + 1)];
      return true;
    }

    method AcknowledgeInputDelivery(c: Command) returns (applied: bool)
      requires c.AcceptInput?
      modifies `runs
      ensures State() == Step(old(State()), c) && (!applied ==> State() == old(State()))
    {
      hide Blocked;
      if !c.admitted || c.run !in runs { return false; }
      var r := runs[c.run];
      if r.epoch != c.runEpoch || r.cancelRequested { return false; }
      if r.status.Running? && r.wait.WaitInitializing? {
        runs := runs[c.run := r.(wait := NoWait)];
      } else if c.uncertain && r.status.Waiting? && r.wait.WaitInputUnknown? {
        if c.live {
          var blocked := Blocked(State(), c.run);
          runs := runs[c.run := r.(
            status := Running, wait := NoWait, recoveryRequired := false, version := r.version + 1, woken := blocked)];
        } else {
          runs := runs[c.run := r.(wait := WaitRecovery, recoveryRequired := true, version := r.version + 1)];
        }
      } else {
        return false;
      }
      return true;
    }

    method MarkForRecovery(c: Command) returns (applied: bool)
      requires c.WaitForRecovery?
      modifies `runs
      ensures State() == Step(old(State()), c) && (!applied ==> State() == old(State()))
    {
      if !c.admitted || !RunIsCurrent(State(), c.run, c.runVersion, c.runEpoch) || !Active(runs[c.run]) {
        return false;
      }
      var r := runs[c.run];
      var wait := if r.status.Running? then WaitRecovery else r.wait;
      runs := runs[c.run := r.(status := Waiting, wait := wait, recoveryRequired := true, version := r.version + 1)];
      return true;
    }

    method MarkForNetworkRecovery(c: Command) returns (applied: bool)
      requires c.WaitForNetwork?
      modifies `runs
      ensures State() == Step(old(State()), c) && (!applied ==> State() == old(State()))
    {
      hide RecoveryBlocked;
      if !c.admitted || !RunIsCurrent(State(), c.run, c.runVersion, c.runEpoch) { return false; }
      var r := runs[c.run];
      if !r.status.Running? || RecoveryBlocked(State(), c.run) { return false; }
      runs := runs[c.run := r.(
        status := Waiting, wait := WaitNetwork, recoveryRequired := true, version := r.version + 1)];
      return true;
    }

    method ArmNetworkRecoveryAttempt(c: Command) returns (applied: bool)
      requires c.RetryNetwork?
      modifies `runs
      ensures State() == Step(old(State()), c) && (!applied ==> State() == old(State()))
    {
      hide RecoveryBlocked;
      if !c.admitted || !RunIsCurrent(State(), c.run, c.runVersion, c.runEpoch) { return false; }
      var r := runs[c.run];
      if !r.status.Waiting? || r.wait !in {WaitNetwork, WaitRecovery} || !r.recoveryRequired { return false; }
      if !c.safe || RecoveryBlocked(State(), c.run) {
        runs := runs[c.run := r.(wait := WaitNetworkBlocked, recoveryRequired := false, version := r.version + 1)];
      } else {
        runs := runs[c.run := r.(wait := WaitRecovery, version := r.version + 1)];
      }
      return true;
    }

    method FinishRun(run: nat, final: RunStatus) returns (applied: bool)
      modifies `runs
      ensures applied ==> run in old(runs)
      ensures State() == Step(old(State()), EndRun(run, final)) && (!applied ==> State() == old(State()))
    {
      if run !in runs || !Active(runs[run]) || !Final(final) { return false; }
      runs := runs[run := EndRow(runs[run], final, false)];
      return true;
    }

    /** close_abortive_run_effects: five updates, each over the rows of one table. */
    method CloseRunEffects(run: nat)
      modifies this
      ensures State() == CloseEffects(old(State()), {run})
    {
      ClosingUpdates(State(), run);
      hide CloseEffects;
      actions := StartedUnknown(actions, run);
      attempts := UnknownAttempts(attempts, actions, run);
      actions := UnstartedDiscarded(actions, run);
      approvals := PendingWithdrawn(approvals, actions, run);
      deliveries := CloseDeliveries(deliveries, {run});
    }

    method SettleRun(run: nat, final: RunStatus)
      requires run in runs
      modifies this
      ensures State() == Abort(old(State()), run, final)
    {
      CloseRunEffects(run);
      runs := runs[run := EndRow(runs[run], final, true)];
    }

    method SettleInterruptedRun(run: nat, final: RunStatus) returns (applied: bool)
      modifies this
      ensures State() == Step(old(State()), AbortRun(run, final)) && (!applied ==> State() == old(State()))
    {
      hide Abort;
      if run !in runs || Ended(runs[run]) || !Final(final) { return false; }
      SettleRun(run, final);
      return true;
    }

    /** The rows of one runtime generation: executing ones with a marker become unknown, prepared ones are discarded. */
    method LoseRunEffects(run: nat, epoch: nat)
      modifies this
      ensures State() == LoseEffects(old(State()), run, epoch)
    {
      LosingUpdates(State(), run, epoch);
      hide LoseEffects;
      actions := LostUnknown(actions, run, epoch);
      attempts := LostAttemptsUnknown(attempts, actions, run, epoch);
      actions := LostDiscarded(actions, run, epoch);
      approvals := LostWithdrawn(approvals, actions, run, epoch);
      deliveries := LoseDeliveries(deliveries, run, epoch);
    }

    method ReconcileRuntimeLoss(c: Command) returns (applied: bool)
      requires c.ReconcileLoss?
      modifies this
      ensures applied == CanReconcileLoss(old(State()), c)
      ensures State() == if applied then DoReconcileLoss(old(State()), c) else old(State())
    {
      hide Abort, LoseEffects, HasUnknown;
      if !c.admitted || c.run !in runs { return false; }
      var r := runs[c.run];
      if r.version != c.runVersion || r.epoch != c.runEpoch || !Active(r) { return false; }
      if !r.singleChat && c.inputMayHaveExecuted && r.cancelRequested { return false; }
      if r.singleChat {
        SettleRun(c.run, RunCancelled);
      } else if c.inputMayHaveExecuted {
        SettleRun(c.run, RunFailed);
      } else {
        LoseKeepsRuns(State(), c.run, c.runEpoch);
        LoseRunEffects(c.run, c.runEpoch);
        var wait := r.wait;
        if HasUnknown(State(), c.run) { wait := WaitUnknownOutcome; }
        else if r.status.Running? || r.wait in {WaitApproval, WaitExecution, WaitDelivery} { wait := WaitRecovery; }
        runs := runs[c.run := r.(status := Waiting, wait := wait, recoveryRequired := true, version := r.version + 1)];
      }
      return true;
    }

    /** prepare_v2_recovery: the updates of one start-up transaction, in order. */
    method RestartRows(now: nat)
      modifies this
      ensures State() == RestartEffects(old(State()), now)
    {
      RestartUpdates(State(), now);
      hide RestartEffects;
      actions := SentBack(actions);
      attempts := NotDispatchedAttempts(attempts, actions);
      actions := UnansweredDiscarded(actions, approvals, deliveries);
      approvals := InterceptedWithdrawn(approvals, actions);
      actions := RestartedUnknown(actions);
      attempts := RestartedAttempts(attempts, actions);
      deliveries := ResultsRequeued(deliveries, now);
      deliveries := AuthorizationsClosed(deliveries, actions);
    }

    method PrepareRecovery(inputUnknown: set<nat>, lost: set<nat>, accepted: set<nat>, now: nat)
      modifies this
      ensures State() == DoRestart(old(State()), inputUnknown, lost, accepted, now)
    {
      hide RestartEffects, CloseEffects, RestartRun, Unsettled;
      RestartRows(now);
      runs := map r | r in runs :: RestartRun(State(), r, r in inputUnknown);
      assert State() == RestartTables(old(State()), inputUnknown, now);
      FailLostBatches(lost);
      runs := FailIdle(State(), accepted - inputUnknown).runs;
    }

    method FailLostBatches(lost: set<nat>)
      modifies this
      ensures State() == FailBatches(old(State()), lost)
    {
      hide CloseEffects, EndRow;
      ghost var t := State();
      var batches := set r | r in runs && r in lost && AcceptsEffects(runs[r]);
      var rest := batches;
      ClosingNothing(t);
      assert State() == PartlyFailed(t, {}) && batches - rest == {};
      while rest != {}
        invariant rest <= batches <= t.runs.Keys
        invariant State() == PartlyFailed(t, batches - rest)
        decreases |rest|
      {
        var run :| run in rest;
        ghost var closed := batches - rest;
        ClosingOneMore(t, runs, closed, run);
        SettleRun(run, RunFailed);
        rest := rest - {run};
        assert batches - rest == closed + {run};
      }
      assert batches - rest == batches;
    }
  }

  ghost function PartlyFailed(t: Tables, closed: set<nat>): Tables {
    CloseEffects(t, closed).(runs := map r | r in t.runs ::
      if r in closed then EndRow(t.runs[r], RunFailed, true) else t.runs[r])
  }

  lemma LoseKeepsRuns(t: Tables, run: nat, epoch: nat)
    ensures LoseEffects(t, run, epoch).runs == t.runs
  {
  }
}
