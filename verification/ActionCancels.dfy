/** Which commands cancel an approval, and what they do to its action. */
module ActionCancels {
  import opened Options
  import opened ActionModel
  import opened ActionInvariant
  import opened ActionFrames

  /** What a caller can check before preparing: no cancel option allows the action. */
  predicate Strict(options: seq<PermissionOption>) {
    forall i | 0 <= i < |options| :: options[i].kind.CancelOption? ==> !options[i].allowsAction
  }

  predicate StrictCommand(c: Command) { c.Prepare? ==> Strict(c.options) }

  ghost predicate StrictApprovals(t: Tables) {
    forall a | a in t.approvals :: Strict(t.approvals[a].options)
  }

  lemma {:induction false} FoundIsStrict(options: seq<PermissionOption>, id: nat)
    requires Strict(options) && FindOption(options, id).Some?
    ensures FindOption(options, id).value.kind.CancelOption? ==> !FindOption(options, id).value.allowsAction
  {
    if options[0].id != id {
      assert Strict(options[1..]);
      FoundIsStrict(options[1..], id);
    }
  }

  /** Every approval newly cancelled by u has a discarded action, so CancelledClosed carries over. */
  ghost predicate CancelsCleanly(t: Tables, u: Tables) {
    forall a | a in u.approvals && u.approvals[a].status.Cancelled?
        && !(a in t.approvals && u.approvals[a] == t.approvals[a]) ::
      a in u.actions && u.actions[a].status.NotExecuted?
  }

  lemma ResolveRows(t: Tables, c: Command)
    requires c.Resolve? && CanResolve(t, c)
    ensures DoResolve(t, c).approvals == Resolved(t, c).approvals && DoResolve(t, c).actions == Resolved(t, c).actions
  {
    hide CanResolve, Resolved, SamePayloadExists, FindOption, FirstRefusal;
  }

  lemma ConfirmRows(t: Tables, c: Command)
    requires c.ConfirmResolved? && CanConfirm(t, c)
    ensures DoConfirm(t, c).approvals == Confirmed(t, c.action).approvals
    ensures DoConfirm(t, c).actions == Confirmed(t, c.action).actions
  {
    hide CanConfirm, Confirmed, Blocked;
  }

  lemma ResolveCancelsCleanly(t: Tables, c: Command)
    requires c.Resolve? && CanResolve(t, c) && StrictApprovals(t)
    ensures CancelsCleanly(t, DoResolve(t, c))
  {
    FoundIsStrict(t.approvals[c.action].options, c.option);
    ResolveRows(t, c);
    hide DoResolve, FindOption, FirstRefusal, Strict, StrictApprovals;
  }

  lemma CloseUndeliveredCancelsCleanly(t: Tables, action: nat)
    requires action in t.actions && (Unresolved(t.approvals, action) ==> t.actions[action].status.Prepared?)
    ensures CancelsCleanly(t, CloseUndelivered(t, action))
  {
  }

  lemma ConfirmCancelsCleanly(t: Tables, c: Command)
    requires Inv(t) && c.ConfirmResolved? && CanConfirm(t, c)
    ensures CancelsCleanly(t, DoConfirm(t, c))
  {
    if Unresolved(t.approvals, c.action) { UnresolvedAction(t, c.action); }
    ConfirmRows(t, c);
    hide Inv, CanConfirm, DoConfirm, HasAuthorization, CloseUndelivered;
    if !HasAuthorization(t, c.action) {
      CloseUndeliveredCancelsCleanly(t, c.action);
    } else {
      CloseUndeliveredCancelsCleanly(SetDelivery(t, AuthorizationOf(t, c.action), SafelyClosed), c.action);
    }
  }

  lemma CloseCancelsCleanly(t: Tables, runs: set<nat>)
    requires ApprovalsOk(t.actions, t.approvals)
    ensures CancelsCleanly(t, CloseEffects(t, runs))
  {
    hide CloseAttempts, CloseDeliveries;
  }

  lemma LossCancelsCleanly(t: Tables, run: nat, epoch: nat)
    requires ApprovalsOk(t.actions, t.approvals)
    ensures CancelsCleanly(t, LoseEffects(t, run, epoch))
  {
    hide LoseAttempts, LoseDeliveries;
  }

  lemma RestartCancelsCleanly(t: Tables, now: nat)
    requires ApprovalsOk(t.actions, t.approvals)
    ensures CancelsCleanly(t, RestartEffects(t, now))
  {
    hide RestartAttempts, RestartDeliveries;
  }

  lemma SameRows(t: Tables, u: Tables, v: Tables)
    requires CancelsCleanly(t, u) && v.actions == u.actions && v.approvals == u.approvals
    ensures CancelsCleanly(t, v)
  {
  }

  lemma EndingCancelsCleanly(t: Tables, run: nat, final: RunStatus)
    requires ApprovalsOk(t.actions, t.approvals) && run in t.runs
    ensures CancelsCleanly(t, Abort(t, run, final))
  {
    hide CloseEffects, CancelsCleanly;
    CloseCancelsCleanly(t, {run});
    SameRows(t, CloseEffects(t, {run}), Abort(t, run, final));
  }

  lemma ReconcileCancelsCleanly(t: Tables, c: Command)
    requires ApprovalsOk(t.actions, t.approvals) && c.ReconcileLoss? && CanReconcileLoss(t, c)
    ensures CancelsCleanly(t, DoReconcileLoss(t, c))
  {
    hide LoseEffects, CancelsCleanly, Abort, HasUnknown, ApprovalsOk;
    if t.runs[c.run].singleChat {
      EndingCancelsCleanly(t, c.run, RunCancelled);
    } else if c.inputMayHaveExecuted {
      EndingCancelsCleanly(t, c.run, RunFailed);
    } else {
      LossCancelsCleanly(t, c.run, c.runEpoch);
      SameRows(t, LoseEffects(t, c.run, c.runEpoch), DoReconcileLoss(t, c));
    }
  }

  lemma PrepareCancelsCleanly(t: Tables, c: Command)
    requires c.Prepare? && CanPrepare(t, c) && Strict(c.options)
    ensures CancelsCleanly(t, DoPrepare(t, c))
    ensures StrictApprovals(t) ==> StrictApprovals(DoPrepare(t, c))
  {
    hide CanPrepare, NewAction, SamePayloadExists;
    assert Strict(CORE_OPTIONS);
  }

  lemma OthersCancelNothing(t: Tables, c: Command)
    requires !RunStep(c) && !c.Prepare? && !c.Restart? && !c.ReconcileLoss? && !c.Resolve? && !c.ConfirmResolved?
               && !c.AbortRun?
    ensures Step(t, c).approvals == t.approvals
  {
    hide Blocked, SamePayloadExists;
  }

  lemma NothingCancelled(t: Tables, u: Tables)
    requires u.approvals == t.approvals
    ensures CancelsCleanly(t, u)
  {
  }

  lemma CancelResolution(t: Tables, c: Command)
    requires Inv(t) && c.Resolve? && CanResolve(t, c) && !ApprovalExpired(t.approvals[c.action], c.now)
    requires FindOption(t.approvals[c.action].options, c.option).value.kind.CancelOption?
    ensures var u := DoResolve(t, c);
            && c.action in u.approvals && u.approvals[c.action].status.Cancelled?
            && c.action in u.actions && u.actions[c.action].policy.Ask?
            && (u.actions[c.action].status.NotExecuted?
                <==> !FindOption(t.approvals[c.action].options, c.option).value.allowsAction)
  {
    assert Unresolved(t.approvals, c.action);
    UnresolvedAction(t, c.action);
    ResolveRows(t, c);
    hide Inv, CanResolve, DoResolve, FindOption, FirstRefusal;
  }

  lemma RestartAsksNothing(t: Tables, inputUnknown: set<nat>, lost: set<nat>, accepted: set<nat>, now: nat)
    ensures DoRestart(t, inputUnknown, lost, accepted, now).approvals.Keys == t.approvals.Keys
  {
    hide RestartActions, RestartAttempts, RestartDeliveries, RestartRun, CloseActions, CloseAttempts, CloseDeliveries,
         Unsettled;
  }

  lemma ResolveAsksNothing(t: Tables, c: Command)
    requires c.Resolve? && CanResolve(t, c)
    ensures DoResolve(t, c).approvals.Keys == t.approvals.Keys
  {
    ResolveRows(t, c);
    hide DoResolve, FindOption, FirstRefusal;
  }

  lemma ConfirmAsksNothing(t: Tables, c: Command)
    requires c.ConfirmResolved? && CanConfirm(t, c)
    ensures DoConfirm(t, c).approvals.Keys == t.approvals.Keys
  {
    ConfirmRows(t, c);
    hide CanConfirm, DoConfirm, HasAuthorization;
  }

  lemma EndingAsksNothing(t: Tables, c: Command)
    requires c.ReconcileLoss? || c.AbortRun?
    ensures Step(t, c).approvals.Keys == t.approvals.Keys
  {
    hide CloseActions, CloseAttempts, CloseDeliveries, HasUnknown, LoseActions, LoseAttempts, LoseDeliveries;
  }

  lemma OnlyPrepareAsks(t: Tables, c: Command)
    requires !c.Prepare?
    ensures Step(t, c).approvals.Keys == t.approvals.Keys
  {
    hide CanConfirm, DoConfirm, CanResolve, DoResolve, DoRestart, Abort, CanReconcileLoss, DoReconcileLoss;
    if c.Restart? { RestartAsksNothing(t, c.inputUnknown, c.lostBatches, c.acceptedInput, c.now); }
    else if c.Resolve? { if CanResolve(t, c) { ResolveAsksNothing(t, c); } }
    else if c.ConfirmResolved? { if CanConfirm(t, c) { ConfirmAsksNothing(t, c); } }
    else if c.ReconcileLoss? || c.AbortRun? { EndingAsksNothing(t, c); }
    else if RunStep(c) { RunStepFrame(t, c); }
    else { OthersCancelNothing(t, c); }
  }
}
