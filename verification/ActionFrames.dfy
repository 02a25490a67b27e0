/** Which commands can set a run running, and which can lease a delivery. */
module ActionFrames {
  import opened Options
  import opened ActionModel
  import opened ActionInvariant

  /** The commands that can set a run running: admission, and those that end with the resume check. */
  predicate Resumes(t: Tables, c: Command, run: nat) {
    match c
    case ClaimRun(r, _, _) => r == run
    case RecordResult(a, _, _, _, _, _, _, _, _, _, _) => RunIs(t, a, run) && t.actions[a].mode.Intercepted?
    case Acknowledge(d, _, _, _, _) => d in t.deliveries && t.deliveries[d].run == run
    case ConfirmResolved(r, _, _, _, _) => r == run
    case _ => false
  }

  lemma OthersDoNotResume(t: Tables, c: Command, run: nat)
    requires !IsRunning(t.runs, run) && !Resumes(t, c, run) && !RunStep(c)
    requires !c.Restart? && !c.ReconcileLoss? && !c.AbortRun? && !c.Prepare? && !c.Resolve? && !c.ConfirmResolved?
    requires !c.RecordResult?
    ensures !IsRunning(Step(t, c).runs, run)
  {
    hide Blocked, RecoveryBlocked, SamePayloadExists;
  }

  // The rows a result leaves: its run waits, or is checked for resuming.
  lemma ResultRuns(t: Tables, c: Command)
    requires c.RecordResult? && CanRecordResult(t, c)
    ensures var run, runs := t.actions[c.action].run, DoRecordResult(t, c).runs;
      if c.outcome.ResultUnknown? then runs == MarkWaiting(WithOutcome(t, c), run, WaitUnknownOutcome).runs
      else if t.actions[c.action].mode.Mediated? then runs == MarkWaiting(t, run, WaitDelivery).runs
      else runs == ResumeIfUnblocked(WithOutcome(t, c), run).runs
    ensures WithOutcome(t, c).runs == t.runs
  {
    var t1, a := WithOutcome(t, c), t.actions[c.action];
    CreatingKeepsRuns(t1, c.delivery, a.run, c.action, ActionResult, t.runs[a.run].epoch,
                      RecordedResult(c.outcome, c.content), c.now);
    WaitingReadsRuns(CreateDelivery(t1, c.delivery, a.run, c.action, ActionResult, t.runs[a.run].epoch,
                                    RecordedResult(c.outcome, c.content), c.now), t, a.run, WaitDelivery);
    hide CanRecordResult, Blocked, CreateDelivery, MarkWaiting, ResumeIfUnblocked;
  }

  lemma WaitingReadsRuns(t: Tables, u: Tables, run: nat, reason: WaitReason)
    requires t.runs == u.runs
    ensures MarkWaiting(t, run, reason).runs == MarkWaiting(u, run, reason).runs
  {
  }

  lemma ResultDoesNotResume(t: Tables, c: Command, run: nat)
    requires !IsRunning(t.runs, run) && !Resumes(t, c, run) && c.RecordResult? && CanRecordResult(t, c)
    ensures !IsRunning(DoRecordResult(t, c).runs, run)
  {
    ResultRuns(t, c);
    ResumingKeepsDeliveries(WithOutcome(t, c), t.actions[c.action].run);
    hide DoRecordResult, WithOutcome, Blocked;
  }

  /** Inputs and lost connections change one run row, and only a live acknowledgement sets it running. */
  lemma RunStepFrame(t: Tables, c: Command)
    requires RunStep(c)
    ensures Step(t, c) == t.(runs := Step(t, c).runs)
    ensures forall r :: r != c.run ==> (r in Step(t, c).runs <==> r in t.runs)
    ensures forall r | r in t.runs && r != c.run :: Step(t, c).runs[r] == t.runs[r]
    ensures !Wakes(t, c) && IsRunning(Step(t, c).runs, c.run) ==> IsRunning(t.runs, c.run)
    ensures !Wakes(t, c) && IsWoken(Step(t, c).runs, c.run) ==> IsWoken(t.runs, c.run)
    ensures Wakes(t, c) ==> IsRunning(Step(t, c).runs, c.run)
                            && (IsWoken(Step(t, c).runs, c.run) <==> Blocked(t, c.run))
  {
    if c.AcceptInput? { AcceptedRow(t, c); } else { SuspendedRow(t, c); }
    hide AfterInputUnknown, AfterAcceptInput, AfterConnectionLost, AfterNetworkLost, AfterNetworkRetry, Wakes, Blocked;
  }

  lemma AcceptedRow(t: Tables, c: Command)
    requires c.AcceptInput?
    ensures var row := AfterAcceptInput(t, c);
      && (Wakes(t, c) ==> row.Some? && row.value.status.Running? && (row.value.woken <==> Blocked(t, c.run)))
      && (!Wakes(t, c) && row.Some? ==>
            c.run in t.runs && row.value.status == t.runs[c.run].status && row.value.woken == t.runs[c.run].woken)
  {
    hide Blocked;
  }

  lemma SuspendedRow(t: Tables, c: Command)
    requires RunStep(c) && !c.AcceptInput?
    ensures Step(t, c) == t || (
      && c.run in t.runs && c.run in Step(t, c).runs
      && var r, s := t.runs[c.run], Step(t, c).runs[c.run];
         Step(t, c) == t.(runs := t.runs[c.run := s]) && s.status.Waiting? && s.woken == r.woken)
  {
    hide RecoveryBlocked;
  }

  lemma ResolvingDoesNotResume(t: Tables, c: Command, run: nat)
    requires !IsRunning(t.runs, run) && c.Resolve?
    ensures !IsRunning(Step(t, c).runs, run)
  {
    hide SamePayloadExists, FindOption, FirstRefusal;
  }

  lemma ClosingKeepsDeliveries(t: Tables, action: nat)
    requires action in t.actions
    ensures CloseUndelivered(t, action).deliveries == t.deliveries && CloseUndelivered(t, action).runs == t.runs
  {
  }

  // A run that resumes is the one that was checked.
  lemma ResumingKeepsDeliveries(t: Tables, run: nat)
    ensures ResumeIfUnblocked(t, run).deliveries == t.deliveries
    ensures forall r | r != run && !IsRunning(t.runs, r) :: !IsRunning(ResumeIfUnblocked(t, run).runs, r)
  {
    hide Blocked;
  }

  lemma ConfirmedRows(t: Tables, action: nat)
    requires action in t.actions
    ensures Confirmed(t, action).runs == t.runs
    ensures Confirmed(t, action).deliveries == t.deliveries
         || (HasAuthorization(t, action)
             && var d := AuthorizationOf(t, action);
                exists s: DeliveryStatus ::
                    Confirmed(t, action).deliveries == t.deliveries[d := Settle(t.deliveries[d], s)])
  {
    hide CloseUndelivered;
    if !HasAuthorization(t, action) {
      ClosingKeepsDeliveries(t, action);
    } else {
      var d := AuthorizationOf(t, action);
      if t.deliveries[d].status.Queued? { ClosingKeepsDeliveries(SetDelivery(t, d, SafelyClosed), action); }
    }
  }

  lemma ConfirmingResumesItsRun(t: Tables, c: Command, run: nat)
    requires !IsRunning(t.runs, run) && c.ConfirmResolved? && CanConfirm(t, c) && c.run != run
    ensures !IsRunning(DoConfirm(t, c).runs, run)
  {
    ConfirmedRows(t, c.action);
    ResumingKeepsDeliveries(Confirmed(t, c.action), c.run);
    hide CanConfirm, Confirmed, ResumeIfUnblocked, HasAuthorization;
  }

  lemma WaitingDoesNotResume(t: Tables, waiting: nat, reason: WaitReason, run: nat)
    requires !IsRunning(t.runs, run)
    ensures !IsRunning(MarkWaiting(t, waiting, reason).runs, run)
  {
  }

  lemma CreatingKeepsRuns(t: Tables, id: nat, run: nat, action: nat, kind: DeliveryKind, epoch: nat, payload: Payload,
                          now: nat)
    ensures CreateDelivery(t, id, run, action, kind, epoch, payload, now).runs == t.runs
  {
  }

  lemma PrepareDoesNotResume(t: Tables, c: Command, run: nat)
    requires !IsRunning(t.runs, run) && c.Prepare? && CanPrepare(t, c)
    ensures !IsRunning(DoPrepare(t, c).runs, run)
  {
    hide CanPrepare, PolicyFor, NewAction, MarkWaiting, CreateDelivery;
    forall u: Tables, reason | !IsRunning(u.runs, run)
      ensures !IsRunning(MarkWaiting(u, c.run, reason).runs, run)
    {
      WaitingDoesNotResume(u, c.run, reason, run);
    }
    forall u: Tables, kind, payload
      ensures CreateDelivery(u, c.delivery, c.run, c.action, kind, c.runEpoch, payload, c.now).runs == u.runs
    {
      CreatingKeepsRuns(u, c.delivery, c.run, c.action, kind, c.runEpoch, payload, c.now);
    }
  }

  lemma EndingDoesNotResume(t: Tables, c: Command, run: nat)
    requires !IsRunning(t.runs, run) && (c.ReconcileLoss? || c.AbortRun?)
    ensures !IsRunning(Step(t, c).runs, run)
  {
    hide HasUnknown, CloseActions, CloseApprovals, CloseAttempts, CloseDeliveries, LoseActions, LoseApprovals,
         LoseAttempts, LoseDeliveries;
  }

  lemma BlockersIgnoreRuns(t: Tables, runs: map<nat, Run>, run: nat)
    ensures Blocked(t.(runs := runs), run) == Blocked(t, run)
    ensures RecoveryBlocked(t.(runs := runs), run) == RecoveryBlocked(t, run)
  {
  }

  // Woken runs ------------------------------------------------------------------------------------

  predicate IsWoken(runs: map<nat, Run>, run: nat) { run in runs && runs[run].woken }

  /** A live acknowledgement of the input of a blocked run: it sets the run running over its blockers. */
  predicate Overrides(t: Tables, c: Command) { Wakes(t, c) && Blocked(t, c.run) }

  lemma OthersWakeNone(t: Tables, c: Command, run: nat)
    requires !IsWoken(t.runs, run) && !RunStep(c)
    requires !c.Restart? && !c.ReconcileLoss? && !c.AbortRun? && !c.Prepare? && !c.Resolve? && !c.ConfirmResolved?
    requires !c.RecordResult?
    ensures !IsWoken(Step(t, c).runs, run)
  {
    hide Blocked, RecoveryBlocked, SamePayloadExists, CanAcquire, CanAcknowledge, CanFailDelivery, CanClaim,
         CanMarkDispatch, CanRecordObserved;
  }

  lemma ResultWakesNone(t: Tables, c: Command, run: nat)
    requires !IsWoken(t.runs, run) && c.RecordResult? && CanRecordResult(t, c)
    ensures !IsWoken(DoRecordResult(t, c).runs, run)
  {
    ResultRuns(t, c);
    hide CanRecordResult, DoRecordResult, WithOutcome, Blocked;
  }

  lemma ResolvingWakesNone(t: Tables, c: Command, run: nat)
    requires !IsWoken(t.runs, run) && c.Resolve?
    ensures !IsWoken(Step(t, c).runs, run)
  {
    hide SamePayloadExists, FindOption, FirstRefusal;
  }

  lemma ResumingWakesNone(t: Tables, resumed: nat, run: nat)
    requires !IsWoken(t.runs, run)
    ensures !IsWoken(ResumeIfUnblocked(t, resumed).runs, run)
  {
    hide Blocked;
  }

  lemma ConfirmingWakesNone(t: Tables, c: Command, run: nat)
    requires !IsWoken(t.runs, run) && c.ConfirmResolved? && CanConfirm(t, c)
    ensures !IsWoken(DoConfirm(t, c).runs, run)
  {
    ConfirmedRows(t, c.action);
    ResumingWakesNone(Confirmed(t, c.action), c.run, run);
    hide CanConfirm, Confirmed, ResumeIfUnblocked, HasAuthorization;
  }

  lemma PrepareWakesNone(t: Tables, c: Command, run: nat)
    requires !IsWoken(t.runs, run) && c.Prepare? && CanPrepare(t, c)
    ensures !IsWoken(DoPrepare(t, c).runs, run)
  {
    hide CanPrepare, NewAction, SamePayloadExists, OptionsAcceptable;
  }

  lemma EndingWakesNone(t: Tables, c: Command, run: nat)
    requires !IsWoken(t.runs, run) && (c.ReconcileLoss? || c.AbortRun?)
    ensures !IsWoken(Step(t, c).runs, run)
  {
    hide HasUnknown, CloseActions, CloseApprovals, CloseAttempts, CloseDeliveries, LoseActions, LoseApprovals,
         LoseAttempts, LoseDeliveries;
  }

  lemma RestartWakesNone(t: Tables, c: Command, run: nat)
    requires !IsWoken(t.runs, run) && c.Restart?
    ensures !IsWoken(Step(t, c).runs, run)
  {
    RestartRunWakesNone(RestartEffects(t, c.now), run, run in c.inputUnknown);
    hide RestartEffects, CloseEffects, RestartRun, Unsettled;
    var t1 := RestartTables(t, c.inputUnknown, c.now);
    assert !IsWoken(t1.runs, run) by { RestartKeepsRunKeys(t, c.now); }
    hide RestartTables;
    assert !IsWoken(FailBatches(t1, c.lostBatches).runs, run);
  }

  lemma RestartKeepsRunKeys(t: Tables, now: nat)
    ensures RestartEffects(t, now).runs == t.runs
  {
  }

  lemma RestartRunWakesNone(t: Tables, run: nat, inputUnknown: bool)
    requires !IsWoken(t.runs, run)
    ensures run in t.runs ==> !RestartRun(t, run, inputUnknown).woken
  {
    hide HasUnknown, Unsettled;
  }

  /** Only such an acknowledgement wakes a run. */
  lemma OnlyOverridingWakes(t: Tables, c: Command, run: nat)
    requires !IsWoken(t.runs, run)
    ensures IsWoken(Step(t, c).runs, run) <==> Overrides(t, c) && c.run == run
  {
    if RunStep(c) { RunStepFrame(t, c); }
    hide CanPrepare, DoPrepare, CanConfirm, DoConfirm, CanResolve, DoResolve, DoRestart, Abort, CanReconcileLoss,
         DoReconcileLoss, CanClaim, DoClaim, CanRecordResult, DoRecordResult, CanMarkDispatch, DoMarkDispatch,
         CanAcquire, DoAcquire, CanAcknowledge, DoAcknowledge, CanFailDelivery, CanRecordObserved, DoRecordObserved,
         CanClaimRun, Blocked, AfterInputUnknown, AfterAcceptInput, AfterConnectionLost, AfterNetworkLost,
         AfterNetworkRetry;
    if c.Prepare? { if CanPrepare(t, c) { PrepareWakesNone(t, c, run); } }
    else if c.Restart? { RestartWakesNone(t, c, run); }
    else if c.ReconcileLoss? || c.AbortRun? { EndingWakesNone(t, c, run); }
    else if c.Resolve? { ResolvingWakesNone(t, c, run); }
    else if c.ConfirmResolved? { if CanConfirm(t, c) { ConfirmingWakesNone(t, c, run); } }
    else if c.RecordResult? { if CanRecordResult(t, c) { ResultWakesNone(t, c, run); } }
    else if !RunStep(c) { OthersWakeNone(t, c, run); }
  }

  lemma ResumingFreely(t: Tables, resumed: nat, run: nat)
    requires !IsRunning(t.runs, run)
    ensures IsRunning(ResumeIfUnblocked(t, resumed).runs, run) ==> !IsWoken(ResumeIfUnblocked(t, resumed).runs, run)
  {
    hide Blocked;
  }

  // What resumes a run clears an earlier waking.
  lemma ResumedIsNotWoken(t: Tables, c: Command, run: nat)
    requires Resumes(t, c, run) && !IsRunning(t.runs, run) && IsRunning(Step(t, c).runs, run)
    ensures !IsWoken(Step(t, c).runs, run)
  {
    assert c.ConfirmResolved? && CanConfirm(t, c) ==> c.action in t.actions;
    hide CanClaimRun, CanRecordResult, CanAcknowledge, CanConfirm, Confirmed, WithOutcome, ResumeIfUnblocked, Blocked;
    match c
    case RecordResult(_, _, _, _, _, _, _, _, _, _, _) =>
      if CanRecordResult(t, c) {
        ResultRuns(t, c);
        ResumingFreely(WithOutcome(t, c), t.actions[c.action].run, run);
        WaitingDoesNotResume(WithOutcome(t, c), t.actions[c.action].run, WaitUnknownOutcome, run);
        hide DoRecordResult, MarkWaiting;
      }
    case Acknowledge(d, _, _, _, _) =>
      if CanAcknowledge(t, c) { ResumingFreely(SetDelivery(t, d, Acked), t.deliveries[d].run, run); }
    case ConfirmResolved(_, _, _, _, _) =>
      if CanConfirm(t, c) {
        ConfirmedRows(t, c.action);
        ResumingFreely(Confirmed(t, c.action), c.run, run);
      }
    case _ =>
  }

  // Delivery leases --------------------------------------------------------------------------------

  predicate LeasedTo(t: Tables, d: nat, owner: nat) { d in t.deliveries && t.deliveries[d].leaseOwner == Some(owner) }

  predicate Acquires(c: Command, d: nat, owner: nat) { c.Acquire? && c.delivery == d && c.owner == owner }

  /** A lease is gained only by acquiring it. */
  lemma LeaseNeedsAcquire(t: Tables, c: Command, d: nat, owner: nat)
    requires !LeasedTo(t, d, owner) && !Acquires(c, d, owner)
    ensures !LeasedTo(Step(t, c), d, owner)
  {
    if RunStep(c) { RunStepFrame(t, c); }
    hide CanPrepare, DoPrepare, CanConfirm, DoConfirm, CanResolve, DoResolve, DoRestart, Abort, CanReconcileLoss,
         DoReconcileLoss, CanClaim, DoClaim, CanRecordResult, DoRecordResult, CanMarkDispatch, DoMarkDispatch,
         CanAcquire, DoAcquire, CanAcknowledge, DoAcknowledge, CanFailDelivery, CanRecordObserved, DoRecordObserved,
         CanClaimRun, AfterInputUnknown, AfterAcceptInput, AfterConnectionLost, AfterNetworkLost, AfterNetworkRetry;
    if c.Prepare? { if CanPrepare(t, c) { PrepareLeasesNothing(t, c, d, owner); } }
    else if c.Restart? { RestartLeasesNothing(t, c, d, owner); }
    else if c.ReconcileLoss? { LossLeasesNothing(t, c, d, owner); }
    else if c.Resolve? { ResolveLeasesNothing(t, c, d, owner); }
    else if c.ConfirmResolved? { if CanConfirm(t, c) { ConfirmLeasesNothing(t, c, d, owner); } }
    else if !RunStep(c) { OthersLeaseNothing(t, c, d, owner); }
  }

  lemma PrepareLeasesNothing(t: Tables, c: Command, d: nat, owner: nat)
    requires !LeasedTo(t, d, owner) && c.Prepare? && CanPrepare(t, c)
    ensures !LeasedTo(DoPrepare(t, c), d, owner)
  {
    hide CanPrepare, NewAction, SamePayloadExists, OptionsAcceptable;
  }

  lemma RestartLeasesNothing(t: Tables, c: Command, d: nat, owner: nat)
    requires c.Restart? && !LeasedTo(t, d, owner)
    ensures !LeasedTo(Step(t, c), d, owner)
  {
    hide RestartActions, RestartApprovals, RestartAttempts, RestartRun, CloseActions, CloseApprovals, CloseAttempts,
         Unsettled;
  }

  lemma LossLeasesNothing(t: Tables, c: Command, d: nat, owner: nat)
    requires c.ReconcileLoss? && !LeasedTo(t, d, owner)
    ensures !LeasedTo(Step(t, c), d, owner)
  {
    hide HasUnknown, LoseActions, LoseApprovals, LoseAttempts, CloseActions, CloseApprovals, CloseAttempts;
  }

  lemma ResolveLeasesNothing(t: Tables, c: Command, d: nat, owner: nat)
    requires c.Resolve? && !LeasedTo(t, d, owner)
    ensures !LeasedTo(Step(t, c), d, owner)
  {
    hide SamePayloadExists, FindOption, FirstRefusal;
  }

  lemma ConfirmLeasesNothing(t: Tables, c: Command, d: nat, owner: nat)
    requires c.ConfirmResolved? && CanConfirm(t, c) && !LeasedTo(t, d, owner)
    ensures !LeasedTo(DoConfirm(t, c), d, owner)
  {
    ConfirmedRows(t, c.action);
    ResumingKeepsDeliveries(Confirmed(t, c.action), c.run);
    hide CanConfirm, Confirmed, ResumeIfUnblocked, HasAuthorization;
  }

  lemma OthersLeaseNothing(t: Tables, c: Command, d: nat, owner: nat)
    requires !LeasedTo(t, d, owner) && !Acquires(c, d, owner) && !RunStep(c)
    requires !c.Prepare? && !c.Restart? && !c.ReconcileLoss? && !c.Resolve? && !c.ConfirmResolved?
    ensures !LeasedTo(Step(t, c), d, owner)
  {
    hide Blocked, CloseActions, CloseApprovals, CloseAttempts, SamePayloadExists;
  }
}
