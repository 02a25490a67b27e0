/** What the action safety protocol promises, over every interleaving of users, adapters, executors,
    cancellations, runtime losses and restarts. A state is reachable when it is `RunAll(EMPTY, commands)`. */
module ActionTheorems {
  import opened Options
  import opened ActionModel
  import opened ActionInvariant
  import opened ActionHistory
  import opened ActionFrames
  import opened ActionSteps

  ghost predicate Reachable(t: Tables) {
    exists commands :: t == RunAll(EMPTY, commands)
  }

  lemma ReachableIsGood(t: Tables)
    requires Reachable(t)
    ensures Inv(t)
  {
    var commands :| t == RunAll(EMPTY, commands);
    hide RunAll;
    RunAdvances(EMPTY, commands);
  }

  lemma Continues(t: Tables, later: seq<Command>)
    requires Reachable(t)
    ensures Inv(t) && Inv(RunAll(t, later)) && Evolves(t, RunAll(t, later))
  {
    ReachableIsGood(t);
    RunAdvances(t, later);
  }

  // Dispatch ---------------------------------------------------------------------------------------

  /** An action is handed to an executor at most once: one marker at most, and it is the active attempt's. */
  lemma OneMarkedAttempt(t: Tables, x: nat, y: nat)
    requires Reachable(t) && x in t.attempts && y in t.attempts && t.attempts[x].action == t.attempts[y].action
    requires t.attempts[x].marked
    ensures t.attempts[y].marked ==> x == y
    ensures IsActive(t.actions, t.attempts[x].action, x) && t.actions[t.attempts[x].action].dispatchStarted
  {
    ReachableIsGood(t);
    AttemptTables(t);
    hide Inv;
    assert AttemptOk(x, t.attempts[x], t.actions[t.attempts[x].action]);
    assert AttemptOk(y, t.attempts[y], t.actions[t.attempts[y].action]);
  }

  /** A later attempt of an action has a larger number and a larger epoch than every earlier one. */
  lemma AttemptEpochsIncrease(t: Tables, x: nat, y: nat)
    requires Reachable(t) && x in t.attempts && y in t.attempts && t.attempts[x].action == t.attempts[y].action
               && x != y
    ensures t.attempts[x].number != t.attempts[y].number && t.attempts[x].epoch != t.attempts[y].epoch
    ensures t.attempts[x].number < t.attempts[y].number <==> t.attempts[x].epoch < t.attempts[y].epoch
  {
    ReachableIsGood(t);
    AttemptTables(t);
    hide Inv;
  }

  /** Once an attempt is not the active one, nothing is ever written under its name again, whatever
      action is named with it. */
  lemma SupersededAttemptIsFrozen(t: Tables, x: nat, later: seq<Command>, c: Command)
    requires Reachable(t) && x in t.attempts && !IsActive(t.actions, t.attempts[x].action, x)
    ensures var u := RunAll(t, later);
            && x in u.attempts && u.attempts[x] == t.attempts[x] && !IsActive(u.actions, t.attempts[x].action, x)
            && (c.MarkDispatch? && c.attempt == x ==> !CanMarkDispatch(u, c))
            && (c.RecordResult? && c.attempt == x ==> !CanRecordResult(u, c))
  {
    Continues(t, later);
    ActiveIsOwn(RunAll(t, later), x);
    hide Inv, RunAll, RunsEvolve, ActionsEvolve, ApprovalsEvolve, DeliveriesEvolve, FenceHolds;
    assert AttemptEvolves(t.attempts[x], RunAll(t, later).attempts[x], IsActive(t.actions, t.attempts[x].action, x));
  }

  lemma ActiveIsOwn(t: Tables, x: nat)
    requires Inv(t) && x in t.attempts
    ensures forall a | a in t.actions && t.actions[a].activeAttempt == Some(x) :: a == t.attempts[x].action
  {
    AttemptTables(t);
    hide Inv;
  }

  /** An action whose outcome is unknown only ever settles: it is never claimed, resolved or discarded again. */
  lemma UnknownIsNeverClaimed(t: Tables, a: nat, later: seq<Command>, c: Command)
    requires Reachable(t) && a in t.actions && t.actions[a].status.Unknown?
    ensures var u := RunAll(t, later);
            && a in u.actions && Resulted(u.actions[a])
            && (c.Claim? && c.action == a ==> !CanClaim(u, c))
            && (t.actions[a].dispatchStarted ==> u.actions[a].activeAttempt == t.actions[a].activeAttempt)
  {
    Continues(t, later);
    hide Inv, RunAll, RunsEvolve, ApprovalsEvolve, AttemptsEvolve, DeliveriesEvolve, FenceHolds;
    assert ActionEvolves(t.actions[a], RunAll(t, later).actions[a]);
  }

  /** A restart makes a marked execution unknown and sends an unmarked mediated one back for a fresh claim. */
  lemma RestartSettlesExecutions(t: Tables, inputUnknown: set<nat>, a: nat, now: nat)
    requires Reachable(t) && a in t.actions && t.actions[a].status.Executing?
    ensures t.actions[a].activeAttempt.Some? && t.actions[a].activeAttempt.value in t.attempts
    ensures var b := RestartTables(t, inputUnknown, now).actions[a]; var x := t.actions[a].activeAttempt.value;
            && (t.actions[a].dispatchStarted ==> b.status.Unknown? && b.activeAttempt == Some(x))
            && (!t.actions[a].dispatchStarted && t.actions[a].mode.Mediated? ==>
                  && b.status.Prepared? && b.activeAttempt == None
                  && RestartTables(t, inputUnknown, now).attempts[x].outcome
                     == (if t.attempts[x].outcome == None then Some(NotDispatched) else t.attempts[x].outcome))
  {
    ReachableIsGood(t);
    ActionRow(t, a);
    ActiveAttempt(t, a);
    hide Inv, Unanswered, RestartRun;
  }

  // Frozen rows ------------------------------------------------------------------------------------

  /** Finished actions, resolved approvals and closed deliveries are never written again. */
  lemma SettledRowsAreFrozen(t: Tables, later: seq<Command>, id: nat)
    requires Reachable(t)
    ensures var u := RunAll(t, later);
            && (id in t.actions && Finished(t.actions[id]) ==> id in u.actions && u.actions[id] == t.actions[id])
            && (id in t.approvals && !t.approvals[id].status.Pending? ==>
                id in u.approvals && u.approvals[id] == t.approvals[id])
            && (id in t.deliveries && !Open(t.deliveries[id]) ==>
                id in u.deliveries && u.deliveries[id] == t.deliveries[id])
  {
    Continues(t, later);
    hide Inv, RunAll, RunsEvolve, AttemptsEvolve, FenceHolds;
    var u := RunAll(t, later);
    if id in t.actions { assert ActionEvolves(t.actions[id], u.actions[id]); }
    if id in t.approvals { assert ApprovalEvolves(t.approvals[id], u.approvals[id]); }
    if id in t.deliveries { assert DeliveryEvolves(t.deliveries[id], u.deliveries[id]); }
  }

  /** At most one authorization and one result are delivered for an action, and a result only once it is finished. */
  lemma OneDeliveryOfEachKind(t: Tables, d: nat, e: nat)
    requires Reachable(t) && d in t.deliveries && e in t.deliveries
    ensures t.deliveries[d].action == t.deliveries[e].action && t.deliveries[d].kind == t.deliveries[e].kind ==> d == e
    ensures t.deliveries[d].action in t.actions
    ensures t.deliveries[d].kind.ActionResult? ==> Finished(t.actions[t.deliveries[d].action])
  {
    ReachableIsGood(t);
    assert DeliveriesUnique(t.deliveries) && DeliveriesOk(t.actions, t.approvals, t.deliveries);
    hide Inv;
  }

  // Authorisation ----------------------------------------------------------------------------------

  /** Nothing executes unauthorised: the policy allowed it, or it asked and the approval was given and stays given. */
  lemma EffectsAreAuthorised(t: Tables, a: nat, later: seq<Command>)
    requires Reachable(t) && a in t.actions && !t.actions[a].mode.Observed?
    requires t.actions[a].status.Executing? || Resulted(t.actions[a])
    ensures t.actions[a].policy.Allow?
         || (t.actions[a].policy.Ask? && a in t.approvals && t.approvals[a].status.Approved?
             && a in RunAll(t, later).approvals && RunAll(t, later).approvals[a].status.Approved?)
    ensures t.actions[a].mode.Intercepted? ==> Handed(t.deliveries, a)
  {
    ReachableIsGood(t);
    ActionRow(t, a);
    SettledRowsAreFrozen(t, later, a);
    if a in t.approvals { AskedIsApproved(t, a); }
    assert NeedsHanding(t.actions[a]) ==> Handed(t.deliveries, a);
    hide Inv, RunAll, Handed, Reachable;
  }

  /** What each approval status says about its action. A cancelled approval is the exception: see
      CancelLeavesPrepared. */
  lemma ApprovalsMatchActions(t: Tables, a: nat)
    requires Reachable(t) && a in t.approvals
    ensures a in t.actions && t.actions[a].policy.Ask?
    ensures t.approvals[a].status.Pending? ==> t.actions[a].status.Prepared?
    ensures t.approvals[a].status.Denied? || t.approvals[a].status.Expired? ==> t.actions[a].status.NotExecuted?
    ensures t.approvals[a].status.Cancelled? ==> t.actions[a].status.NotExecuted? || t.actions[a].status.Prepared?
    ensures !t.approvals[a].status.Approved? ==> !t.actions[a].dispatchStarted && !t.actions[a].status.Executing?
  {
    ReachableIsGood(t);
    ActionRow(t, a);
    assert ApprovalOk(t.approvals[a], t.actions[a]);
    hide Inv;
  }

  /** An action recorded as not executed was never handed out, and never will be. */
  lemma NotExecutedWasNotDispatched(t: Tables, a: nat, x: nat)
    requires Reachable(t) && a in t.actions && t.actions[a].status.NotExecuted?
    ensures !t.actions[a].dispatchStarted
    ensures x in t.attempts && t.attempts[x].action == a ==> !t.attempts[x].marked
  {
    ReachableIsGood(t);
    ActionRow(t, a);
    AttemptTables(t);
    hide Inv;
    if x in t.attempts && t.attempts[x].action == a { assert AttemptOk(x, t.attempts[x], t.actions[a]); }
  }

  // Runs -------------------------------------------------------------------------------------------

  /** A run with a pending approval, an unknown action or an open delivery is waiting or has ended, unless a live input
      acknowledgement set it running over its blockers. */
  lemma BlockedRunsWait(t: Tables, run: nat)
    requires Reachable(t) && run in t.runs && Blocked(t, run)
    ensures t.runs[run].status.Waiting? || Ended(t.runs[run]) || (t.runs[run].status.Running? && t.runs[run].woken)
  {
    ReachableIsGood(t);
    QueuedRunIsUnblocked(t, run);
    hide Inv, Blocked;
  }

  lemma RestartDoesNotResume(t: Tables, c: Command, run: nat)
    requires c.Restart?
    ensures !IsRunning(Step(t, c).runs, run)
  {
    RestartRunsEvolve(t, c.inputUnknown, c.now);
    hide RestartTables, CloseEffects, Unsettled;
  }

  /** A run is set running by admission or the resume check, and then nothing blocks it, or by the live acknowledgement
      of its input, which does not look. */
  lemma OnlyResumingSetsRunning(t: Tables, c: Command, run: nat)
    requires Reachable(t) && !IsRunning(t.runs, run) && IsRunning(Step(t, c).runs, run)
    ensures (Resumes(t, c, run) && !Blocked(Step(t, c), run)) || (Wakes(t, c) && c.run == run)
  {
    ReachableIsGood(t);
    StepAdvances(t, c);
    QueuedRunIsUnblocked(Step(t, c), run);
    if RunStep(c) { RunStepFrame(t, c); }
    hide Inv, Evolves, Blocked, Reachable, CanPrepare, DoPrepare, CanConfirm, DoConfirm, CanResolve, DoResolve,
         DoRestart, Abort, CanReconcileLoss, DoReconcileLoss, CanClaim, DoClaim, CanRecordResult, DoRecordResult,
         CanMarkDispatch, DoMarkDispatch, CanAcquire, DoAcquire, CanAcknowledge, DoAcknowledge, CanFailDelivery,
         CanRecordObserved, DoRecordObserved, AfterInputUnknown, AfterAcceptInput, AfterConnectionLost,
         AfterNetworkLost, AfterNetworkRetry;
    if !Resumes(t, c, run) {
      if c.Restart? { RestartDoesNotResume(t, c, run); }
      else if c.ReconcileLoss? || c.AbortRun? { EndingDoesNotResume(t, c, run); }
      else if c.Prepare? { if CanPrepare(t, c) { PrepareDoesNotResume(t, c, run); } }
      else if c.Resolve? { ResolvingDoesNotResume(t, c, run); }
      else if c.ConfirmResolved? { if CanConfirm(t, c) { ConfirmingResumesItsRun(t, c, run); } }
      else if c.RecordResult? { if CanRecordResult(t, c) { ResultDoesNotResume(t, c, run); } }
      else if !RunStep(c) { OthersDoNotResume(t, c, run); }
    } else {
      ResumedIsNotWoken(t, c, run);
    }
  }

  // The cancel fence -------------------------------------------------------------------------------

  function AttemptsOf(t: Tables, run: nat): set<nat> {
    set x | x in t.attempts && RunIs(t, t.attempts[x].action, run)
  }

  function MarkersOf(t: Tables, run: nat): set<nat> {
    set x | x in t.attempts && RunIs(t, t.attempts[x].action, run) && t.attempts[x].marked
  }

  function ApprovedOf(t: Tables, run: nat): set<nat> {
    set a | a in t.approvals && RunIs(t, a, run) && t.approvals[a].status.Approved?
  }

  function LeasedOf(t: Tables, run: nat): set<nat> {
    set d | d in t.deliveries && t.deliveries[d].run == run && t.deliveries[d].status.Delivering?
  }

  /** After a cancel request no attempt, marker, approval or delivery lease of the run is ever added. */
  lemma CancelFence(t: Tables, run: nat, later: seq<Command>)
    requires Reachable(t) && run in t.runs && t.runs[run].cancelRequested
    ensures var u := RunAll(t, later);
            && run in u.runs && u.runs[run].cancelRequested
            && AttemptsOf(u, run) <= AttemptsOf(t, run) && MarkersOf(u, run) <= MarkersOf(t, run)
            && ApprovedOf(u, run) == ApprovedOf(t, run) && LeasedOf(u, run) <= LeasedOf(t, run)
  {
    Continues(t, later);
    var u := RunAll(t, later);
    assert RunEvolves(t.runs[run], u.runs[run]);
    FenceSets(t, u, run);
  }

  lemma FenceSets(t: Tables, u: Tables, run: nat)
    requires Inv(t) && Evolves(t, u) && Fenced(t, run)
    ensures AttemptsOf(u, run) <= AttemptsOf(t, run) && MarkersOf(u, run) <= MarkersOf(t, run)
    ensures ApprovedOf(u, run) == ApprovedOf(t, run) && LeasedOf(u, run) <= LeasedOf(t, run)
  {
    AttemptTables(t);
    assert ApprovalsOk(t.actions, t.approvals);
    hide Inv, RunsEvolve;
    FenceAttempts(t, u, run);
    forall a | a in ApprovedOf(u, run) ensures a in ApprovedOf(t, run) {
      assert OfFenced(t, u.actions, a);
      assert ActionEvolves(t.actions[a], u.actions[a]);
    }
    forall a | a in ApprovedOf(t, run) ensures a in ApprovedOf(u, run) {
      assert ActionEvolves(t.actions[a], u.actions[a]) && ApprovalEvolves(t.approvals[a], u.approvals[a]);
    }
    forall d | d in LeasedOf(u, run) ensures d in LeasedOf(t, run) {
      assert DeliveryEvolves(t.deliveries[d], u.deliveries[d]);
    }
  }

  lemma FenceAttempts(t: Tables, u: Tables, run: nat)
    requires AttemptsOk(t.actions, t.attempts) && Evolves(t, u) && Fenced(t, run)
    ensures AttemptsOf(u, run) <= AttemptsOf(t, run) && MarkersOf(u, run) <= MarkersOf(t, run)
  {
    hide RunsEvolve, ApprovalsEvolve, DeliveriesEvolve, ApprovalsFenced, DeliveriesFenced, AttemptOk;
    forall x | x in AttemptsOf(u, run)
      ensures x in AttemptsOf(t, run) && (u.attempts[x].marked ==> t.attempts[x].marked)
    {
      assert OfFenced(t, u.actions, u.attempts[x].action);
      assert AttemptEvolves(t.attempts[x], u.attempts[x], IsActive(t.actions, t.attempts[x].action, x));
      assert ActionEvolves(t.actions[t.attempts[x].action], u.actions[t.attempts[x].action]);
    }
  }

  /** A well-formed result of the reconciler for this attempt, with a delivery of its own. */
  predicate Reconciles(t: Tables, c: Command, a: nat) {
    && c.RecordResult? && a in t.actions && c.action == a && c.admitted && c.component.Reconciler?
    && Consistent(c.outcome, c.effect) && OwnsResult(t.actions[a].mode, c.component)
    && t.actions[a].activeAttempt == Some(c.attempt) && t.actions[a].epoch == c.actionEpoch
  }

  /** ... while what was handed out can still be recorded: in every continuation, whatever is cancelled, ended, lost or
      restarted in it, the result of a marked action is accepted until the action is finished. */
  lemma MarkedStaysRecordable(t: Tables, a: nat, c: Command, later: seq<Command>)
    requires Reachable(t) && a in t.actions && t.actions[a].dispatchStarted && Reconciles(t, c, a)
    ensures var u := RunAll(t, later); c.delivery !in u.deliveries ==>
              a in u.actions && (Finished(u.actions[a]) <==> !CanRecordResult(u, c))
  {
    Continues(t, later);
    var u := RunAll(t, later);
    ActionRow(u, a);
    assert u.actions[a].run in u.runs;
    assert ActionEvolves(t.actions[a], u.actions[a]);
    hide Inv, RunAll, Evolves, RunsEvolve, ApprovalsEvolve, AttemptsEvolve, DeliveriesEvolve, FenceHolds;
  }

  /** Likewise what a cancelled run was seen to do: a well-formed observation is accepted in every continuation in which
      the run has not ended and the action is new. */
  lemma CancelledStaysObservable(t: Tables, c: Command, later: seq<Command>)
    requires Reachable(t) && c.RecordObserved? && CanRecordObserved(t, c) && t.runs[c.run].cancelRequested
    ensures var u := RunAll(t, later);
            c.run in u.runs && (CanRecordObserved(u, c) <==> !Ended(u.runs[c.run]) && c.action !in u.actions)
  {
    Continues(t, later);
    assert RunEvolves(t.runs[c.run], RunAll(t, later).runs[c.run]);
    hide Inv, RunAll, ActionsEvolve, ApprovalsEvolve, AttemptsEvolve, DeliveriesEvolve, FenceHolds;
  }

  // Delivery leases --------------------------------------------------------------------------------

  /** Once another owner took the lease over, the old one can neither acknowledge nor fail the delivery
      in any continuation, until it acquires the delivery itself. */
  lemma {:induction false} LeaseTakenOver(t: Tables, d: nat, owner: nat, later: seq<Command>, c: Command)
    requires d in t.deliveries && t.deliveries[d].leaseOwner != Some(owner)
    requires forall i | 0 <= i < |later| :: !Acquires(later[i], d, owner)
    ensures !LeasedTo(RunAll(t, later), d, owner)
    ensures c.Acknowledge? && c.delivery == d && c.owner == owner ==> !CanAcknowledge(RunAll(t, later), c)
    ensures c.FailDelivery? && c.delivery == d && c.owner == owner ==> !CanFailDelivery(RunAll(t, later), c)
    decreases |later|
  {
    LeaseNeverReturns(t, d, owner, later);
  }

  lemma {:induction false} LeaseNeverReturns(t: Tables, d: nat, owner: nat, later: seq<Command>)
    requires !LeasedTo(t, d, owner) && forall i | 0 <= i < |later| :: !Acquires(later[i], d, owner)
    ensures !LeasedTo(RunAll(t, later), d, owner)
    decreases |later|
  {
    hide Step;
    if later != [] {
      LeaseNeedsAcquire(t, later[0], d, owner);
      LeaseNeverReturns(Step(t, later[0]), d, owner, later[1..]);
    }
  }
}
