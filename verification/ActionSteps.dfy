/** Every command leads from one good state to another along a history. */
module ActionSteps {
  import opened Options
  import opened ActionModel
  import opened ActionInvariant
  import opened ActionHistory

  lemma Stays(t: Tables)
    requires Inv(t)
    ensures Advances(t, t)
  {
    EvolvesReflexive(t);
  }

  lemma MarkWaitingAdvances(t: Tables, run: nat, reason: WaitReason)
    requires Inv(t)
    ensures Advances(t, MarkWaiting(t, run, reason)) && !RunsFree(MarkWaiting(t, run, reason).runs, run)
  {
    hide Inv, Evolves;
    if run in t.runs && Active(t.runs[run]) {
      RunRowAdvances(t, run, MarkWaiting(t, run, reason).runs[run]);
    } else {
      Stays(t);
    }
  }

  lemma ResumeAdvances(t: Tables, run: nat)
    requires Inv(t)
    ensures Advances(t, ResumeIfUnblocked(t, run))
  {
    hide Inv, Evolves, Blocked;
    if ResumeIfUnblocked(t, run) != t {
      RunRowAdvances(t, run, ResumeIfUnblocked(t, run).runs[run]);
    } else {
      Stays(t);
    }
  }

  // prepare_action and record_observed_action ------------------------------------------------------

  lemma PrepareAdvances(t: Tables, c: Command)
    requires Inv(t) && c.Prepare? && CanPrepare(t, c)
    ensures Advances(t, DoPrepare(t, c))
  {
    hide Inv, Evolves;
    match PolicyFor(t.runs[c.run], c).value
    case Ask => PrepareAskedAdvances(t, c);
    case Deny =>
      PrepareDeliveredAdvances(t, c, Deny, if c.mode.Intercepted? then AuthorizationResolution else ActionResult,
                               if c.mode.Intercepted? then DeniedByPolicy else PolicyDeniedResult);
    case Allow =>
      if c.mode.Intercepted? {
        PrepareDeliveredAdvances(t, c, Allow, AuthorizationResolution, ApprovedByPolicy);
      } else {
        PrepareQuietAdvances(t, c, Allow, WaitExecution);
      }
    case ObservedOnly => PrepareQuietAdvances(t, c, ObservedOnly, WaitUnknownOutcome);
  }

  lemma PrepareAskedAdvances(t: Tables, c: Command)
    requires Inv(t) && c.Prepare? && CanPrepare(t, c) && PolicyFor(t.runs[c.run], c) == Some(Ask)
    ensures Advances(t, DoPrepare(t, c))
  {
    hide Inv, Evolves;
    var a := NewAction(c, Ask);
    var p := Approval(Pending, 1, if c.mode.Intercepted? then c.options else CORE_OPTIONS, c.executeBefore);
    var t0 := MarkWaiting(t, c.run, WaitApproval);
    MarkWaitingAdvances(t, c.run, WaitApproval);
    AddAskedActionAdvances(t0, c.action, a, p);
    assert DoPrepare(t, c) == t0.(actions := t0.actions[c.action := a], approvals := t0.approvals[c.action := p]);
    AdvancesCompose(t, t0, DoPrepare(t, c));
  }

  lemma PrepareQuietAdvances(t: Tables, c: Command, policy: Decision, reason: WaitReason)
    requires Inv(t) && c.Prepare? && CanPrepare(t, c) && PolicyFor(t.runs[c.run], c) == Some(policy)
    requires if policy.Allow? then c.mode.Mediated? && reason.WaitExecution?
             else policy.ObservedOnly? && reason.WaitUnknownOutcome?
    ensures Advances(t, DoPrepare(t, c))
  {
    hide Inv, Evolves;
    var a := NewAction(c, policy);
    var t0 := MarkWaiting(t, c.run, reason);
    MarkWaitingAdvances(t, c.run, reason);
    AddActionAdvances(t0, c.action, a);
    assert DoPrepare(t, c) == t0.(actions := t0.actions[c.action := a]);
    AdvancesCompose(t, t0, DoPrepare(t, c));
  }

  lemma PrepareDeliveredAdvances(t: Tables, c: Command, policy: Decision, kind: DeliveryKind, payload: Payload)
    requires Inv(t) && c.Prepare? && CanPrepare(t, c) && PolicyFor(t.runs[c.run], c) == Some(policy)
    requires policy.Deny? || (policy.Allow? && c.mode.Intercepted?)
    requires kind == (if c.mode.Intercepted? then AuthorizationResolution else ActionResult)
    requires payload == (if policy.Allow? then ApprovedByPolicy
                         else if c.mode.Intercepted? then DeniedByPolicy else PolicyDeniedResult)
    ensures Advances(t, DoPrepare(t, c))
  {
    hide Inv, Evolves;
    var a := NewAction(c, policy);
    var t0 := MarkWaiting(t, c.run, WaitDelivery);
    MarkWaitingAdvances(t, c.run, WaitDelivery);
    AddActionAdvances(t0, c.action, a);
    var t1 := t0.(actions := t0.actions[c.action := a]);
    AdvancesCompose(t, t0, t1);
    FreshAction(t, c.action);
    CreateDeliveryAdvances(t1, c.delivery, c.run, c.action, kind, c.runEpoch, payload, c.now);
    assert MarkWaiting(t.(actions := t.actions[c.action := a]), c.run, WaitDelivery) == t1;
    AdvancesCompose(t, t1, DoPrepare(t, c));
  }

  lemma RecordObservedAdvances(t: Tables, c: Command)
    requires Inv(t) && c.RecordObserved? && CanRecordObserved(t, c)
    ensures Advances(t, DoRecordObserved(t, c))
  {
    hide Inv, Evolves;
    var t0 := if c.outcome.ResultUnknown? then MarkWaiting(t, c.run, WaitUnknownOutcome) else t;
    if c.outcome.ResultUnknown? { MarkWaitingAdvances(t, c.run, WaitUnknownOutcome); } else { Stays(t); }
    var a := DoRecordObserved(t, c).actions[c.action];
    AddActionAdvances(t0, c.action, a);
    assert DoRecordObserved(t, c) == t0.(actions := t0.actions[c.action := a]);
    AdvancesCompose(t, t0, DoRecordObserved(t, c));
  }

  // resolve_approval -------------------------------------------------------------------------------

  lemma ResolvedAdvances(t: Tables, c: Command)
    requires Inv(t) && c.Resolve? && CanResolve(t, c)
    ensures Advances(t, Resolved(t, c)) && Undelivered(Resolved(t, c), c.action, AuthorizationResolution)
    ensures !RunsFree(t.runs, t.actions[c.action].run) && !Unresolved(Resolved(t, c).approvals, c.action)
  {
    hide Inv, Evolves;
    var t2 := Resolved(t, c);
    UnresolvedAction(t, c.action);
    ResolutionAdvances(t, c.action, t2.actions[c.action], t2.approvals[c.action]);
    assert t2 == t.(actions := t.actions[c.action := t2.actions[c.action]],
                    approvals := t.approvals[c.action := t2.approvals[c.action]]);
  }

  lemma ResolveAdvances(t: Tables, c: Command)
    requires Inv(t) && c.Resolve? && CanResolve(t, c)
    ensures Advances(t, DoResolve(t, c))
  {
    hide Inv, Evolves, Undelivered;
    var p, a := t.approvals[c.action], t.actions[c.action];
    var r := t.runs[a.run];
    var o := FindOption(p.options, c.option).value;
    var t2 := Resolved(t, c);
    ResolvedAdvances(t, c);
    if ApprovalExpired(p, c.now) {
      if AcceptsEffects(r) {
        CreateDeliveryAdvances(t2, c.delivery, a.run, c.action, AuthorizationResolution, r.epoch,
                               ExpiredWith(FirstRefusal(p.options).value.id), c.now);
        AdvancesCompose(t, t2, DoResolve(t, c));
      }
    } else if AcceptsEffects(r) && (a.mode.Intercepted? || !o.allowsAction) {
      ResolveDeliveredAdvances(t, c, t2, ResolvedByUser(ChosenStatus(o), o.id));
    } else if o.allowsAction {
      MarkWaitingAdvances(t2, a.run, WaitExecution);
      AdvancesCompose(t, t2, DoResolve(t, c));
    }
  }

  lemma ResolveDeliveredAdvances(t: Tables, c: Command, t2: Tables, payload: Payload)
    requires Inv(t) && c.Resolve? && CanResolve(t, c) && t2 == Resolved(t, c) && Advances(t, t2)
    requires Undelivered(t2, c.action, AuthorizationResolution) && !Unresolved(t2.approvals, c.action)
    requires !RunsFree(t.runs, t.actions[c.action].run)
    ensures var a := t.actions[c.action];
            Advances(t, MarkWaiting(CreateDelivery(t2, c.delivery, a.run, c.action, AuthorizationResolution,
                                                   t.runs[a.run].epoch, payload, c.now), a.run, WaitDelivery))
  {
    hide Inv, Evolves, Undelivered;
    var a := t.actions[c.action];
    var t3 := CreateDelivery(t2, c.delivery, a.run, c.action, AuthorizationResolution, t.runs[a.run].epoch, payload,
        c.now);
    CreateDeliveryAdvances(t2, c.delivery, a.run, c.action, AuthorizationResolution, t.runs[a.run].epoch, payload,
        c.now);
    AdvancesCompose(t, t2, t3);
    MarkWaitingAdvances(t3, a.run, WaitDelivery);
    AdvancesCompose(t, t3, MarkWaiting(t3, a.run, WaitDelivery));
  }

  // claim_action, mark_dispatch_started and record_result -------------------------------------------

  lemma ClaimAdvances(t: Tables, c: Command)
    requires Inv(t) && c.Claim? && CanClaim(t, c)
    ensures Advances(t, DoClaim(t, c))
  {
    hide Inv, Evolves, AttemptsOk, AttemptsOrdered;
    var t' := DoClaim(t, c);
    NewAttemptFits(t, c);
    ActionRow(t, c.action);
    if t.actions[c.action].mode.Intercepted? {
      assert HandedBy(t.deliveries, c.authorization.value, c.action);
    }
    ActionAndAttemptAdvance(t, c.action, t'.actions[c.action], c.attempt, t'.attempts[c.attempt]);
  }

  lemma MarkDispatchAdvances(t: Tables, c: Command)
    requires Inv(t) && c.MarkDispatch? && CanMarkDispatch(t, c)
    ensures Advances(t, DoMarkDispatch(t, c))
  {
    hide Inv, Evolves, AttemptsOk, AttemptsOrdered;
    var t' := DoMarkDispatch(t, c);
    ActiveAttempt(t, c.action);
    ActionRow(t, c.action);
    AttemptTables(t);
    AttemptRowFits(t.actions, t.attempts, c.action, t'.actions[c.action], c.attempt, t'.attempts[c.attempt]);
    if c.action in t.approvals { AskedIsApproved(t, c.action); }
    ActionAndAttemptAdvance(t, c.action, t'.actions[c.action], c.attempt, t'.attempts[c.attempt]);
  }

  predicate AwaitsOutcome(a: Action) { a.status.Executing? || a.status.Unknown? }

  lemma OutcomeRowAdvances(t: Tables, id: nat, b: Action, attempt: nat, x: Attempt)
    requires Inv(t) && id in t.actions && t.actions[id].activeAttempt == Some(attempt) && attempt in t.attempts
    requires AwaitsOutcome(t.actions[id]) && t.actions[id].dispatchStarted
    requires b == t.actions[id].(status := b.status, leaseOwner := None, version := t.actions[id].version + 1)
    requires Resulted(b) && (b.status.Unknown? ==> !RunsFree(t.runs, b.run))
    requires x == t.attempts[attempt].(outcome := x.outcome) && x.outcome.Some?
    ensures Advances(t, t.(actions := t.actions[id := b], attempts := t.attempts[attempt := x]))
  {
    hide Inv, Evolves, AttemptsOk, AttemptsOrdered;
    ActiveAttempt(t, id);
    ActionRow(t, id);
    AttemptTables(t);
    AttemptRowFits(t.actions, t.attempts, id, b, attempt, x);
    if id in t.approvals { AskedIsApproved(t, id); }
    ActionAndAttemptAdvance(t, id, b, attempt, x);
  }

  lemma RecordResultAdvances(t: Tables, c: Command)
    requires Inv(t) && c.RecordResult? && CanRecordResult(t, c)
    ensures Advances(t, DoRecordResult(t, c))
  {
    hide Inv, Evolves;
    ActiveAttempt(t, c.action);
    var a := t.actions[c.action];
    var b := a.(status := StatusOf(c.outcome), leaseOwner := None, version := a.version + 1);
    var x := t.attempts[c.attempt].(outcome := Some(OutcomeOf(c.outcome)));
    if c.outcome.ResultUnknown? {
      var t0 := MarkWaiting(t, a.run, WaitUnknownOutcome);
      MarkWaitingAdvances(t, a.run, WaitUnknownOutcome);
      OutcomeRowAdvances(t0, c.action, b, c.attempt, x);
      assert DoRecordResult(t, c) == t0.(actions := t0.actions[c.action := b], attempts := t0.attempts[c.attempt := x]);
      AdvancesCompose(t, t0, DoRecordResult(t, c));
    } else {
      OutcomeRowAdvances(t, c.action, b, c.attempt, x);
      SettledResultAdvances(t, c, t.(actions := t.actions[c.action := b], attempts := t.attempts[c.attempt := x]));
    }
  }

  lemma SettledResultAdvances(t: Tables, c: Command, t1: Tables)
    requires Inv(t) && c.RecordResult? && CanRecordResult(t, c) && !c.outcome.ResultUnknown? && Advances(t, t1)
    requires c.attempt in t.attempts && t.attempts[c.attempt].action == c.action
               && t.attempts[c.attempt].epoch == c.actionEpoch
    requires t1 == t.(
      actions := t.actions[c.action := t.actions[c.action].(
        status := StatusOf(c.outcome), leaseOwner := None, version := t.actions[c.action].version + 1)],
      attempts := t.attempts[c.attempt := t.attempts[c.attempt].(outcome := Some(OutcomeOf(c.outcome)))])
    ensures Advances(t, DoRecordResult(t, c))
  {
    hide Inv, Evolves;
    var run := t.actions[c.action].run;
    if t.actions[c.action].mode.Mediated? {
      var payload := RecordedResult(c.outcome, c.content);
      var t2 := MarkWaiting(t1, run, WaitDelivery);
      MarkWaitingAdvances(t1, run, WaitDelivery);
      AdvancesCompose(t, t1, t2);
      UnfinishedAction(t, c.action);
      CreateDeliveryAdvances(t2, c.delivery, run, c.action, ActionResult, t.runs[run].epoch, payload, c.now);
      assert DoRecordResult(t, c)
          == CreateDelivery(t2, c.delivery, run, c.action, ActionResult, t.runs[run].epoch, payload, c.now);
      AdvancesCompose(t, t2, DoRecordResult(t, c));
    } else {
      ResumeAdvances(t1, run);
      AdvancesCompose(t, t1, DoRecordResult(t, c));
    }
  }

  // Deliveries -------------------------------------------------------------------------------------

  lemma AcquireAdvances(t: Tables, c: Command)
    requires Inv(t) && c.Acquire? && CanAcquire(t, c)
    ensures Advances(t, DoAcquire(t, c))
  {
    hide Inv, Evolves;
    DeliveryRowAdvances(t, c.delivery, DoAcquire(t, c).deliveries[c.delivery]);
  }

  lemma SetDeliveryAdvances(t: Tables, id: nat, status: DeliveryStatus)
    requires Inv(t) && id in t.deliveries && Open(t.deliveries[id]) && !status.Queued? && !status.Delivering?
    ensures Advances(t, SetDelivery(t, id, status))
  {
    hide Inv, Evolves;
    DeliveryRowAdvances(t, id, Settle(t.deliveries[id], status));
  }

  lemma AcknowledgeAdvances(t: Tables, c: Command)
    requires Inv(t) && c.Acknowledge? && CanAcknowledge(t, c)
    ensures Advances(t, DoAcknowledge(t, c))
  {
    hide Inv, Evolves;
    var t1 := SetDelivery(t, c.delivery, Acked);
    SetDeliveryAdvances(t, c.delivery, Acked);
    ResumeAdvances(t1, t.deliveries[c.delivery].run);
    AdvancesCompose(t, t1, DoAcknowledge(t, c));
  }

  // confirm_runtime_request_resolved ---------------------------------------------------------------

  lemma CloseUndeliveredAdvances(t: Tables, action: nat)
    requires Inv(t) && action in t.actions
    ensures Advances(t, CloseUndelivered(t, action))
  {
    var t' := CloseUndelivered(t, action);
    if Unresolved(t.approvals, action) {
      UnresolvedAction(t, action);
      hide Inv, Evolves;
      ResolutionAdvances(t, action, t'.actions[action], t'.approvals[action]);
      assert t' == t.(actions := t.actions[action := t'.actions[action]],
             approvals := t.approvals[action := t'.approvals[action]]);
    } else if t.actions[action].status.Prepared? {
      assert action in t.approvals ==> ApprovalOk(t.approvals[action], t.actions[action]);
      hide Inv, Evolves;
      DiscardAdvances(t, action);
    } else {
      Stays(t);
    }
  }

  lemma ConfirmAdvances(t: Tables, c: Command)
    requires Inv(t) && c.ConfirmResolved? && CanConfirm(t, c)
    ensures Advances(t, DoConfirm(t, c))
  {
    hide Inv, Evolves;
    var t1 := t;
    Stays(t);
    if !HasAuthorization(t, c.action) {
      CloseUndeliveredAdvances(t, c.action);
      t1 := CloseUndelivered(t, c.action);
    } else {
      var d := AuthorizationOf(t, c.action);
      match t.deliveries[d].status
      case Delivering => SetDeliveryAdvances(t, d, Acked); t1 := SetDelivery(t, d, Acked);
      case Queued =>
        var t0 := SetDelivery(t, d, SafelyClosed);
        SetDeliveryAdvances(t, d, SafelyClosed);
        CloseUndeliveredAdvances(t0, c.action);
        t1 := CloseUndelivered(t0, c.action);
        AdvancesCompose(t, t0, t1);
      case DeliveryFailed => SetDeliveryAdvances(t, d, SafelyClosed); t1 := SetDelivery(t, d, SafelyClosed);
      case _ =>
    }
    ResumeAdvances(t1, c.run);
    AdvancesCompose(t, t1, DoConfirm(t, c));
  }

  // Ending, losing and restarting ------------------------------------------------------------------

  lemma AbortAdvances(t: Tables, run: nat, final: RunStatus)
    requires Inv(t) && run in t.runs && Final(final)
    ensures Advances(t, Abort(t, run, final))
  {
    hide Inv, Evolves;
    var r := EndRow(t.runs[run], final, true);
    var t0 := t.(runs := t.runs[run := r]);
    RunRowAdvances(t, run, r);
    CloseEffectsAdvances(t0, {run});
    assert CloseEffects(t0, {run}) == Abort(t, run, final);
    AdvancesCompose(t, t0, Abort(t, run, final));
  }

  lemma ReconcileLossAdvances(t: Tables, c: Command)
    requires Inv(t) && c.ReconcileLoss? && CanReconcileLoss(t, c)
    ensures Advances(t, DoReconcileLoss(t, c))
  {
    hide Inv, Evolves, HasUnknown;
    if t.runs[c.run].singleChat {
      AbortAdvances(t, c.run, RunCancelled);
    } else if c.inputMayHaveExecuted {
      AbortAdvances(t, c.run, RunFailed);
    } else {
      var r := DoReconcileLoss(t, c).runs[c.run];
      var t0 := t.(runs := t.runs[c.run := r]);
      RunRowAdvances(t, c.run, r);
      LoseEffectsAdvances(t0, c.run, c.runEpoch);
      assert LoseEffects(t0, c.run, c.runEpoch) == DoReconcileLoss(t, c);
      AdvancesCompose(t, t0, DoReconcileLoss(t, c));
    }
  }

  lemma RestartRunEvolves(t: Tables, id: nat, inputUnknown: bool)
    requires id in t.runs
    ensures RunEvolves(t.runs[id], RestartRun(t, id, inputUnknown))
    ensures var r := RestartRun(t, id, inputUnknown);
              !r.status.Running? && (r.status.RunQueued? ==> t.runs[id].status.RunQueued?)
  {
    hide HasUnknown, Unsettled;
  }

  lemma RestartRunsEvolve(t: Tables, inputUnknown: set<nat>, now: nat)
    ensures var u := RestartTables(t, inputUnknown, now);
            u.runs.Keys == t.runs.Keys && forall r | r in t.runs ::
              && RunEvolves(t.runs[r], u.runs[r]) && !u.runs[r].status.Running?
              && (u.runs[r].status.RunQueued? ==> t.runs[r].status.RunQueued?)
  {
    hide RestartRun, RunEvolves;
    forall r | r in t.runs
      ensures var s := RestartTables(t, inputUnknown, now).runs[r];
              RunEvolves(t.runs[r], s) && !s.status.Running? && (s.status.RunQueued? ==> t.runs[r].status.RunQueued?)
    {
      RestartRunEvolves(RestartEffects(t, now), r, r in inputUnknown);
    }
  }

  lemma RestartIgnoresRuns(t: Tables, inputUnknown: set<nat>, now: nat)
    ensures var u := RestartTables(t, inputUnknown, now); RestartEffects(t.(runs := u.runs), now) == u
  {
    hide RestartRun, RestartAction, RestartAttempt, RestartDelivery, Unanswered;
  }

  lemma RestartTablesAdvance(t: Tables, inputUnknown: set<nat>, now: nat)
    requires Inv(t)
    ensures Advances(t, RestartTables(t, inputUnknown, now))
  {
    RestartRunsEvolve(t, inputUnknown, now);
    RestartIgnoresRuns(t, inputUnknown, now);
    hide Inv, Evolves, RestartTables, RestartEffects, RunEvolves;
    var u := RestartTables(t, inputUnknown, now);
    var t0 := t.(runs := u.runs);
    RunRowsAdvance(t, u.runs);
    RestartEffectsAdvances(t0, now);
    AdvancesCompose(t, t0, u);
  }

  lemma CloseIgnoresRuns(t: Tables, runs: map<nat, Run>, closed: set<nat>)
    ensures CloseEffects(t.(runs := runs), closed) == CloseEffects(t, closed).(runs := runs)
  {
  }

  lemma FailBatchesAdvances(t: Tables, lost: set<nat>)
    requires Inv(t) && forall r | r in t.runs :: !RunsFree(t.runs, r)
    ensures Advances(t, FailBatches(t, lost))
  {
    hide Inv, Evolves, CloseEffects;
    var u := FailBatches(t, lost);
    var batches := set r | r in t.runs && r in lost && AcceptsEffects(t.runs[r]);
    RunRowsAdvance(t, u.runs);
    CloseEffectsAdvances(t.(runs := u.runs), batches);
    CloseIgnoresRuns(t, u.runs, batches);
    AdvancesCompose(t, t.(runs := u.runs), u);
  }

  lemma FailIdleAdvances(t: Tables, accepted: set<nat>)
    requires Inv(t)
    ensures Advances(t, FailIdle(t, accepted))
  {
    hide Inv, Evolves, Unsettled;
    RunRowsAdvance(t, FailIdle(t, accepted).runs);
  }

  lemma RestartAdvances(t: Tables, inputUnknown: set<nat>, lost: set<nat>, accepted: set<nat>, now: nat)
    requires Inv(t)
    ensures Advances(t, DoRestart(t, inputUnknown, lost, accepted, now))
  {
    hide Inv, Evolves, RestartTables, FailBatches, FailIdle, RunEvolves;
    var t1 := RestartTables(t, inputUnknown, now);
    var t2 := FailBatches(t1, lost);
    RestartTablesAdvance(t, inputUnknown, now);
    RestartRunsEvolve(t, inputUnknown, now);
    FailBatchesAdvances(t1, lost);
    AdvancesCompose(t, t1, t2);
    FailIdleAdvances(t2, accepted - inputUnknown);
    AdvancesCompose(t, t2, DoRestart(t, inputUnknown, lost, accepted, now));
  }

  lemma CancelAdvances(t: Tables, run: nat)
    requires Inv(t) && run in t.runs
    ensures Advances(t, t.(runs := t.runs[run := t.runs[run].(cancelRequested := true)]))
  {
    hide Inv, Evolves;
    RunRowsAdvance(t, t.runs[run := t.runs[run].(cancelRequested := true)]);
  }

  lemma QueuedRunIsUnblocked(t: Tables, run: nat)
    requires Inv(t) && run in t.runs
    ensures t.runs[run].status.RunQueued? || RunsFree(t.runs, run) ==> !Blocked(t, run)
  {
  }

  lemma ClaimRunAdvances(t: Tables, c: Command)
    requires Inv(t) && c.ClaimRun? && CanClaimRun(t, c)
    ensures Advances(t, Step(t, c))
  {
    QueuedRunIsUnblocked(t, c.run);
    hide Inv, Evolves, Blocked;
    RunRowAdvances(t, c.run, Step(t, c).runs[c.run]);
  }

  /** Inputs and lost connections move a run row along, and leave a blocked run running only as woken. */
  lemma RunStepAdvances(t: Tables, c: Command)
    requires Inv(t) && RunStep(c)
    ensures Advances(t, Step(t, c))
  {
    RunStepMovesRow(t, c);
    if c.run in t.runs { QueuedRunIsUnblocked(t, c.run); }
    hide Inv, Evolves, Blocked, Step;
    if Step(t, c) == t { Stays(t); } else { RunRowAdvances(t, c.run, Step(t, c).runs[c.run]); }
  }

  lemma RunStepMovesRow(t: Tables, c: Command)
    requires RunStep(c)
    ensures Step(t, c) == t || (
      && c.run in t.runs && c.run in Step(t, c).runs
      && var r, s := t.runs[c.run], Step(t, c).runs[c.run];
      && Step(t, c) == t.(runs := t.runs[c.run := s]) && RunEvolves(r, s) && !s.status.RunQueued?
      && (s.status.Running? && !s.woken ==> !Blocked(t, c.run) || RunsFree(t.runs, c.run)))
  {
    hide Blocked, RecoveryBlocked;
  }

  // Any command, any run ----------------------------------------------------------------------------

  /** Every command keeps the invariant and every promise of the history. */
  lemma StepAdvances(t: Tables, c: Command)
    requires Inv(t)
    ensures Advances(t, Step(t, c))
  {
    hide Inv, Evolves, CanPrepare, DoPrepare, CanConfirm, DoConfirm, CanResolve, DoResolve, DoRestart, Abort,
         CanReconcileLoss, DoReconcileLoss, CanClaim, DoClaim, CanRecordResult, DoRecordResult, CanMarkDispatch,
         DoMarkDispatch, CanAcquire, DoAcquire, CanAcknowledge, DoAcknowledge, CanRecordObserved, DoRecordObserved,
         CanClaimRun, AfterInputUnknown, AfterAcceptInput, AfterConnectionLost, AfterNetworkLost, AfterNetworkRetry;
    Stays(t);
    match c
    case NewRun(run, semantics, capable, rules, singleChat) =>
      if run !in t.runs { RunRowAdvances(t, run, Step(t, c).runs[run]); }
    case ClaimRun(run, _, _) => if CanClaimRun(t, c) { ClaimRunAdvances(t, c); }
    case RequestCancel(run) => if run in t.runs { CancelAdvances(t, run); }
    case EndRun(run, final) =>
      if run in t.runs && Active(t.runs[run]) && Final(final) {
        RunRowAdvances(t, run, EndRow(t.runs[run], final, false));
      }
    case AbortRun(run, final) => if run in t.runs && !Ended(t.runs[run]) && Final(final) {
      AbortAdvances(t, run, final);
    }
    case Restart(inputUnknown, lost, accepted, now) => RestartAdvances(t, inputUnknown, lost, accepted, now);
    case MarkInputUnknown(_, _, _) => RunStepAdvances(t, c);
    case AcceptInput(_, _, _, _, _) => RunStepAdvances(t, c);
    case WaitForRecovery(_, _, _, _) => RunStepAdvances(t, c);
    case WaitForNetwork(_, _, _, _) => RunStepAdvances(t, c);
    case RetryNetwork(_, _, _, _, _) => RunStepAdvances(t, c);
    case Prepare(_, _, _, _, _, _, _, _, _, _, _, _, _) => if CanPrepare(t, c) { PrepareAdvances(t, c); }
    case RecordObserved(_, _, _, _, _, _, _) => if CanRecordObserved(t, c) { RecordObservedAdvances(t, c); }
    case Resolve(_, _, _, _, _, _) => if CanResolve(t, c) { ResolveAdvances(t, c); }
    case Claim(_, _, _, _, _, _, _, _, _) => if CanClaim(t, c) { ClaimAdvances(t, c); }
    case MarkDispatch(_, _, _, _) => if CanMarkDispatch(t, c) { MarkDispatchAdvances(t, c); }
    case RecordResult(_, _, _, _, _, _, _, _, _, _, _) => if CanRecordResult(t, c) { RecordResultAdvances(t, c); }
    case Acquire(_, _, _, _, _, _) => if CanAcquire(t, c) { AcquireAdvances(t, c); }
    case Acknowledge(_, _, _, _, _) => if CanAcknowledge(t, c) { AcknowledgeAdvances(t, c); }
    case FailDelivery(id, _, _, _, _) => if CanFailDelivery(t, c) { SetDeliveryAdvances(t, id, DeliveryFailed); }
    case ConfirmResolved(_, _, _, _, _) => if CanConfirm(t, c) { ConfirmAdvances(t, c); }
    case ReconcileLoss(_, _, _, _, _) => if CanReconcileLoss(t, c) { ReconcileLossAdvances(t, c); }
  }

  /** ... and so does every run of commands, in any interleaving. */
  lemma {:induction false} RunAdvances(t: Tables, commands: seq<Command>)
    requires Inv(t)
    ensures Advances(t, RunAll(t, commands))
    decreases |commands|
  {
    hide Inv, Evolves, Step;
    Stays(t);
    if commands != [] {
      var u := Step(t, commands[0]);
      StepAdvances(t, commands[0]);
      RunAdvances(u, commands[1..]);
      AdvancesCompose(t, u, RunAll(t, commands));
    }
  }
}
