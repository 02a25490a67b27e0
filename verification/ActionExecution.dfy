/** Leases, executions and results: who may do what next, and whether the run goes on. */
module ActionExecution {
  import opened Options
  import opened ActionModel
  import opened ActionInvariant
  import opened ActionFrames
  import opened ActionOutcomes
  import opened ActionProgress

  // Leases ------------------------------------------------------------------------------------------

  /** A delivery on its way can be leased from the time it was made, at its first version, while its run takes
      effects. */
  lemma OnItsWayIsLeased(t: Tables, d: nat, action: nat, kind: DeliveryKind, payload: Payload, now: nat, lease: Command)
    requires OnItsWay(t, d, action, kind, payload, now) && AcceptsEffects(t.runs[t.deliveries[d].run])
    requires lease.Acquire? && lease.delivery == d && lease.admitted && lease.leaseSeconds > 0
    ensures CanAcquire(t, lease) <==> lease.deliveryVersion == 1 && now <= lease.now
  {
  }

  lemma AcquireStep(t: Tables, c: Command)
    requires c.Acquire? && CanAcquire(t, c)
    ensures Step(t, c) == DoAcquire(t, c)
  {
    hide CanAcquire, DoAcquire;
  }

  /** A lease that runs shuts everyone out, its holder too; one that has run out is given to whoever read the delivery
      as it is now. */
  lemma LeaseExcludes(t: Tables, c: Command, other: Command)
    requires c.Acquire? && CanAcquire(t, c)
    requires other.Acquire? && other.delivery == c.delivery && other.admitted && other.leaseSeconds > 0
    ensures CanAcquire(Step(t, c), other) <==>
              other.deliveryVersion == t.deliveries[c.delivery].version + 1 && c.now + c.leaseSeconds <= other.now
  {
    AcquireStep(t, c);
    hide Step;
  }

  /** Only the holder of a lease settles its delivery, naming the payload it was given and the generation it serves. */
  lemma HolderSettles(t: Tables, c: Command, ack: Command, fail: Command)
    requires c.Acquire? && CanAcquire(t, c)
    requires ack.Acknowledge? && ack.delivery == c.delivery && ack.admitted
    requires fail.FailDelivery? && fail.delivery == c.delivery && fail.admitted
    ensures var d := t.deliveries[c.delivery];
      && (CanAcknowledge(Step(t, c), ack) <==>
            ack.owner == c.owner && ack.payload == d.payload && ack.targetEpoch == d.targetEpoch)
      && (CanFailDelivery(Step(t, c), fail) <==>
            fail.owner == c.owner && fail.payload == d.payload && fail.targetEpoch == d.targetEpoch)
  {
    AcquireStep(t, c);
    hide Step;
  }

  // Executions --------------------------------------------------------------------------------------

  /** What an adapter says when it claims an intercepted action with the authorization it leased. */
  predicate AdapterClaim(t: Tables, claim: Command, action: nat, authorization: nat) {
    && claim.Claim? && claim.action == action && claim.admitted && claim.component.Adapter?
    && claim.authorization == Some(authorization) && claim.authorizationOwner.Some? && claim.attempt !in t.attempts
  }

  /** The policy allowed it, or it was asked and is approved. */
  predicate Permitted(t: Tables, action: nat) {
    && action in t.actions
    && (t.actions[action].policy.Allow?
        || (t.actions[action].policy.Ask? && action in t.approvals && t.approvals[action].status.Approved?))
  }

  /** Leasing its authorization lets an adapter claim an intercepted action: as the holder of that lease, and exactly
      when the action is still prepared, permitted, read as it is now and within its deadline. */
  lemma LeasedIsClaimable(t: Tables, c: Command, action: nat, claim: Command)
    requires Inv(t) && c.Acquire? && CanAcquire(t, c) && t.deliveries[c.delivery].kind.AuthorizationResolution?
    requires t.deliveries[c.delivery].action == action && action in t.actions && t.actions[action].mode.Intercepted?
    requires AdapterClaim(t, claim, action, c.delivery)
    ensures CanClaim(Step(t, c), claim) <==>
              && claim.authorizationOwner == Some(c.owner) && t.actions[action].status.Prepared? && Permitted(t, action)
              && claim.actionVersion == t.actions[action].version && By(t.actions[action].executeBefore, claim.now)
  {
    AcquireStep(t, c);
    assert t.deliveries[c.delivery].run == t.actions[action].run by {
      assert DeliveriesOk(t.actions, t.approvals, t.deliveries);
    }
    hide Inv, Step;
  }

  /** A claim opens an attempt in the name of its owner and lets that owner, and nobody else, mark its dispatch; until
      then nothing is recorded, and the action is not claimed again. */
  lemma ClaimedIsMarkable(t: Tables, c: Command, mark: Command, result: Command, again: Command)
    requires Inv(t) && c.Claim? && CanClaim(t, c) && mark.MarkDispatch? && mark.action == c.action
    requires result.RecordResult? && result.action == c.action && again.Claim? && again.action == c.action
    ensures var u := Step(t, c);
      && (CanMarkDispatch(u, mark) <==>
            mark.attempt == c.attempt && mark.owner == c.owner && mark.actionEpoch == t.actions[c.action].version + 1)
      && !CanRecordResult(u, result) && !CanClaim(u, again)
      && c.attempt in u.attempts && u.attempts[c.attempt].action == c.action
      && u.attempts[c.attempt].leaseOwner == c.owner && u.attempts[c.attempt].outcome.None?
  {
    ActionRow(t, c.action);
    assert Step(t, c) == DoClaim(t, c);
    hide Inv, Step;
  }

  predicate Plausible(outcome: ResultOutcome, effect: EffectDisposition) {
    && (outcome.ResultSucceeded? ==> !effect.UnknownEffect?) && (outcome.ResultFailed? ==> !effect.Complete?)
    && (outcome.ResultUnknown? ==> !effect.NoEffect? && !effect.Complete?)
  }

  /** A mark lets a plausible result of its attempt be recorded, by the side that executes it or by the reconciler. */
  lemma MarkedIsRecordable(t: Tables, c: Command, result: Command)
    requires Inv(t) && c.MarkDispatch? && CanMarkDispatch(t, c)
    requires result.RecordResult? && result.action == c.action && result.admitted
    ensures CanRecordResult(Step(t, c), result) <==>
              && Plausible(result.outcome, result.effect)
              && result.attempt == c.attempt && result.actionEpoch == c.actionEpoch
              && (result.component.Reconciler?
                  || (if t.actions[c.action].mode.Mediated? then result.component.Executor?
                      else result.component.Adapter?))
              && result.delivery !in t.deliveries
  {
    ActionRow(t, c.action);
    assert Step(t, c) == DoMarkDispatch(t, c);
    hide Inv, Step;
  }

  /** After a result that leaves the outcome open, the reconciler may still record another, and so may an adapter by
      evidence of its own; the executor may not. A settled one is the last. */
  lemma LateEvidence(t: Tables, c: Command, result: Command)
    requires Inv(t) && c.RecordResult? && CanRecordResult(t, c)
    requires result.RecordResult? && result.action == c.action && result.admitted
    requires result.attempt == c.attempt && result.actionEpoch == c.actionEpoch
    requires Plausible(result.outcome, result.effect) && result.delivery !in Step(t, c).deliveries
    ensures CanRecordResult(Step(t, c), result) <==>
              && c.outcome.ResultUnknown?
              && (result.component.Reconciler?
                  || (t.actions[c.action].mode.Intercepted? && result.component.Adapter? && result.backgroundEvidence))
  {
    OutcomeRows(t, c);
    OutcomeAction(t, c);
    ActionRow(t, c.action);
    RunStillThere(t, c);
    SettledStep(t, c);
    hide Inv, Step, DoRecordResult, WithOutcome;
  }

  lemma OutcomeAction(t: Tables, c: Command)
    requires c.RecordResult? && CanRecordResult(t, c)
    ensures var a := t.actions[c.action];
            WithOutcome(t, c).actions
            == t.actions[c.action := a.(status := StatusOf(c.outcome), leaseOwner := None, version := a.version + 1)]
  {
  }

  lemma RunStillThere(t: Tables, c: Command)
    requires c.RecordResult? && CanRecordResult(t, c)
    ensures t.actions[c.action].run in DoRecordResult(t, c).runs
  {
    ResultRuns(t, c);
    hide CanRecordResult, DoRecordResult, WithOutcome, Blocked;
  }

  /** A settled result of a mediated action is on its way and the run waits for it; one that leaves the outcome open
      keeps the run waiting for that; an intercepted action delivers nothing, since the runtime executed it. */
  predicate ResultAnswered(t: Tables, u: Tables, c: Command)
    requires c.RecordResult? && c.action in t.actions
  {
    var a := t.actions[c.action];
    if c.outcome.ResultUnknown? then u.deliveries == t.deliveries && Waiting(t, u, a.run, WaitUnknownOutcome)
    else if a.mode.Mediated? then
      && OnItsWay(u, c.delivery, c.action, ActionResult, RecordedResult(c.outcome, c.content), c.now)
      && Waiting(t, u, a.run, WaitDelivery)
    else u.deliveries == t.deliveries
  }

  // An active run waits; one that has ended stays as it is.
  predicate Waiting(t: Tables, u: Tables, run: nat, reason: WaitReason) {
    run in t.runs && run in u.runs && if Active(t.runs[run]) then Waits(u, run, reason) else u.runs[run] == t.runs[run]
  }

  lemma ResultIsAnswered(t: Tables, c: Command)
    requires Inv(t) && c.RecordResult? && CanRecordResult(t, c)
    ensures ResultAnswered(t, Step(t, c), c)
  {
    SettledStep(t, c);
    OutcomeBase(t, c);
    hide Inv, Step, CanRecordResult, WithOutcome, CreateDelivery, OnItsWay, ResumeIfUnblocked, MarkWaiting, Waiting;
    var t1, run := WithOutcome(t, c), t.actions[c.action].run;
    if c.outcome.ResultUnknown? {
      WaitingIs(t, t1, run, WaitUnknownOutcome);
    } else if t.actions[c.action].mode.Mediated? {
      var payload := RecordedResult(c.outcome, c.content);
      var t2 := CreateDelivery(t1, c.delivery, run, c.action, ActionResult, t.runs[run].epoch, payload, c.now);
      UnsettledHasNoResult(t, c);
      CreatedIsOnItsWay(t1, c.delivery, run, c.action, ActionResult, payload, c.now);
      CreatedKeepsRest(t1, c.delivery, run, c.action, ActionResult, t.runs[run].epoch, payload, c.now);
      WaitingStillOnItsWay(t2, run, c.delivery, c.action, ActionResult, payload, c.now);
      WaitingIs(t, t2, run, WaitDelivery);
    } else {
      ResumingKeepsDeliveries(t1, run);
    }
  }

  lemma WaitingIs(t: Tables, u: Tables, run: nat, reason: WaitReason)
    requires u.runs == t.runs && run in t.runs
    ensures Waiting(t, MarkWaiting(u, run, reason), run, reason)
    ensures MarkWaiting(u, run, reason).deliveries == u.deliveries
  {
  }

  lemma OutcomeBase(t: Tables, c: Command)
    requires c.RecordResult? && CanRecordResult(t, c)
    ensures WithOutcome(t, c).runs == t.runs && WithOutcome(t, c).deliveries == t.deliveries
    ensures c.delivery !in t.deliveries && t.actions[c.action].run in t.runs
  {
  }

  lemma UnsettledHasNoResult(t: Tables, c: Command)
    requires Inv(t) && c.RecordResult? && CanRecordResult(t, c)
    ensures forall e | e in t.deliveries :: t.deliveries[e].action == c.action ==> t.deliveries[e].kind != ActionResult
  {
    assert DeliveriesOk(t.actions, t.approvals, t.deliveries);
    hide Inv, Unresolved;
  }

  // Going on ----------------------------------------------------------------------------------------

  /** A run that waits for what the command settles. */
  predicate Settles(t: Tables, c: Command, run: nat) {
    && run in t.runs && t.runs[run].status.Waiting?
    && ((c.Acknowledge? && CanAcknowledge(t, c) && t.deliveries[c.delivery].run == run)
        || (c.ConfirmResolved? && CanConfirm(t, c) && c.run == run)
        || (c.RecordResult? && CanRecordResult(t, c) && !c.outcome.ResultUnknown?
            && !t.actions[c.action].mode.Mediated? && t.actions[c.action].run == run))
  }

  /** Once nothing blocks it any more, a run that waits for an approval, an execution or a delivery goes on: it runs
      again, or waits for recovery if it has to. A run that is still blocked, or waits for something else, waits on. */
  predicate GoesOn(r: Run, s: Run, blocked: bool) {
    if blocked || r.wait !in {WaitApproval, WaitExecution, WaitDelivery} then s == r
    else if r.recoveryRequired then s == r.(wait := WaitRecovery, version := r.version + 1)
    else s == r.(status := Running, wait := NoWait, version := r.version + 1, woken := false)
  }

  lemma ResumingGoesOn(t: Tables, run: nat)
    requires run in t.runs && t.runs[run].status.Waiting?
    ensures var u := ResumeIfUnblocked(t, run);
            run in u.runs && GoesOn(t.runs[run], u.runs[run], Blocked(u, run)) && (Blocked(u, run) <==> Blocked(t, run))
  {
    assert ResumeIfUnblocked(t, run) == t.(runs := ResumeIfUnblocked(t, run).runs);
    BlockersIgnoreRuns(t, ResumeIfUnblocked(t, run).runs, run);
    hide Blocked;
  }

  lemma SettledGoesOn(t: Tables, c: Command, run: nat)
    requires Settles(t, c, run)
    ensures var u := Step(t, c); run in u.runs && GoesOn(t.runs[run], u.runs[run], Blocked(u, run))
  {
    SettledStep(t, c);
    hide Step, Blocked, ResumeIfUnblocked, GoesOn;
    if c.Acknowledge? { ResumingGoesOn(SetDelivery(t, c.delivery, Acked), run); }
    else if c.ConfirmResolved? { ConfirmedRows(t, c.action); ResumingGoesOn(Confirmed(t, c.action), run); }
    else { assert WithOutcome(t, c).runs == t.runs; ResumingGoesOn(WithOutcome(t, c), run); }
  }

  lemma SettledStep(t: Tables, c: Command)
    ensures c.Acknowledge? && CanAcknowledge(t, c) ==> Step(t, c) == DoAcknowledge(t, c)
    ensures c.ConfirmResolved? && CanConfirm(t, c) ==> Step(t, c) == DoConfirm(t, c)
    ensures c.RecordResult? && CanRecordResult(t, c) ==> Step(t, c) == DoRecordResult(t, c)
  {
    hide CanAcknowledge, CanConfirm, CanRecordResult, DoAcknowledge, DoConfirm, DoRecordResult;
  }

  // Requests resolved by the runtime ------------------------------------------------------------------

  /** When the runtime has resolved a request by itself, its authorization is closed: acknowledged if it was leased, and
      otherwise no longer needed. A request that was never told anything is discarded with its approval. */
  predicate RequestClosed(t: Tables, u: Tables, action: nat, d: Option<nat>)
    requires action in t.actions && (d.Some? ==> d.value in t.deliveries)
  {
    var told := d.Some? && !t.deliveries[d.value].status.Queued?;
    && action in u.actions
    && (d.Some? ==> d.value in u.deliveries && var e, f := t.deliveries[d.value], u.deliveries[d.value];
          if e.status.Delivering? then f.status.Acked?
          else if Open(e) then f.status.SafelyClosed?
          else f == e)
    && (told || !t.actions[action].status.Prepared? ==> u.actions[action] == t.actions[action])
    && (!told && t.actions[action].status.Prepared? ==>
          u.actions[action]
          == t.actions[action].(status := NotExecuted, version := t.actions[action].version + 1))
    && (action in t.approvals ==>
          action in u.approvals
          && if !told && t.approvals[action].status.Pending? then u.approvals[action].status.Cancelled?
             else u.approvals[action] == t.approvals[action])
  }

  lemma ConfirmedIsClosed(t: Tables, c: Command, d: Option<nat>)
    requires Inv(t) && c.ConfirmResolved? && CanConfirm(t, c)
    requires if d.Some? then IsAuthorization(t, d.value, c.action) else !HasAuthorization(t, c.action)
    ensures RequestClosed(t, Step(t, c), c.action, d)
  {
    SettledStep(t, c);
    assert c.action in t.actions;
    if d.Some? { AuthorizationIs(t, c.action, d.value); }
    RowsConfirmed(t, c.action, d);
    hide Inv, Step, CanConfirm, Confirmed, HasAuthorization, Blocked;
  }

  lemma AuthorizationIs(t: Tables, action: nat, d: nat)
    requires Inv(t) && IsAuthorization(t, d, action)
    ensures HasAuthorization(t, action) && AuthorizationOf(t, action) == d
  {
    assert DeliveriesUnique(t.deliveries);
    hide Inv;
  }

  lemma RowsConfirmed(t: Tables, action: nat, d: Option<nat>)
    requires action in t.actions
    requires if d.Some? then HasAuthorization(t, action) && AuthorizationOf(t, action) == d.value
             else !HasAuthorization(t, action)
    ensures RequestClosed(t, Confirmed(t, action), action, d)
  {
  }
}
