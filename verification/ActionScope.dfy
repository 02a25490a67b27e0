/** What a command leaves alone: every other action with its approval, attempts and deliveries, and every other run. */
module ActionScope {
  import opened Options
  import opened ActionModel
  import opened ActionInvariant
  import opened ActionHistory
  import opened ActionFrames
  import opened ActionOutcomes
  import opened ActionSteps

  predicate SameRow<T(==)>(m: map<nat, T>, n: map<nat, T>, k: nat) {
    (k in m <==> k in n) && (k in m ==> m[k] == n[k])
  }

  predicate AttemptOf(attempts: map<nat, Attempt>, x: nat, a: nat) { x in attempts && attempts[x].action == a }

  predicate DeliveryOf(deliveries: map<nat, Delivery>, d: nat, a: nat) { d in deliveries && deliveries[d].action == a }

  ghost predicate SameAttempts(m: map<nat, Attempt>, n: map<nat, Attempt>, a: nat) {
    forall x :: AttemptOf(m, x, a) || AttemptOf(n, x, a) ==> SameRow(m, n, x)
  }

  ghost predicate SameDeliveries(m: map<nat, Delivery>, n: map<nat, Delivery>, a: nat) {
    forall d :: DeliveryOf(m, d, a) || DeliveryOf(n, d, a) ==> SameRow(m, n, d)
  }

  /** The action, its approval, its attempts and its deliveries are the same. */
  ghost predicate SameAction(t: Tables, u: Tables, a: nat) {
    && SameRow(t.actions, u.actions, a) && SameRow(t.approvals, u.approvals, a)
    && SameAttempts(t.attempts, u.attempts, a) && SameDeliveries(t.deliveries, u.deliveries, a)
  }

  lemma SameActionComposes(t: Tables, u: Tables, v: Tables, a: nat)
    requires SameAction(t, u, a) && SameAction(u, v, a)
    ensures SameAction(t, v, a)
  {
    forall x | AttemptOf(t.attempts, x, a) || AttemptOf(v.attempts, x, a) ensures SameRow(t.attempts, v.attempts, x) {
      if AttemptOf(t.attempts, x, a) { assert SameRow(t.attempts, u.attempts, x); }
      if AttemptOf(v.attempts, x, a) { assert SameRow(u.attempts, v.attempts, x); }
    }
    forall d | DeliveryOf(t.deliveries, d, a) || DeliveryOf(v.deliveries, d, a)
      ensures SameRow(t.deliveries, v.deliveries, d)
    {
      if DeliveryOf(t.deliveries, d, a) { assert SameRow(t.deliveries, u.deliveries, d); }
      if DeliveryOf(v.deliveries, d, a) { assert SameRow(u.deliveries, v.deliveries, d); }
    }
  }

  /** These end or restart whole runs. */
  predicate WholeRun(c: Command) { c.Restart? || c.AbortRun? || c.ReconcileLoss? }

  /** The action that a command is about. */
  function ActionOf(t: Tables, c: Command): Option<nat> {
    match c
    case Prepare(_, _, _, _, action, _, _, _, _, _, _, _, _) => Some(action)
    case RecordObserved(_, _, _, action, _, _, _) => Some(action)
    case Resolve(action, _, _, _, _, _) => Some(action)
    case Claim(action, _, _, _, _, _, _, _, _) => Some(action)
    case MarkDispatch(action, _, _, _) => Some(action)
    case RecordResult(action, _, _, _, _, _, _, _, _, _, _) => Some(action)
    case ConfirmResolved(_, _, _, action, _) => Some(action)
    case Acquire(d, _, _, _, _, _) => if d in t.deliveries then Some(t.deliveries[d].action) else None
    case Acknowledge(d, _, _, _, _) => if d in t.deliveries then Some(t.deliveries[d].action) else None
    case FailDelivery(d, _, _, _, _) => if d in t.deliveries then Some(t.deliveries[d].action) else None
    case _ => None
  }

  // Helpers of the commands -------------------------------------------------------------------------

  lemma OnlyRunsDiffer(t: Tables, u: Tables, a: nat)
    requires u == t.(runs := u.runs)
    ensures SameAction(t, u, a)
  {
  }

  lemma CreatingScope(t: Tables, id: nat, run: nat, action: nat, kind: DeliveryKind, epoch: nat, payload: Payload,
                      now: nat, a: nat)
    requires id !in t.deliveries && a != action
    ensures SameAction(t, CreateDelivery(t, id, run, action, kind, epoch, payload, now), a)
  {
    hide SamePayloadExists;
  }

  lemma WaitingScope(t: Tables, run: nat, reason: WaitReason, a: nat)
    ensures SameAction(t, MarkWaiting(t, run, reason), a)
  {
    OnlyRunsDiffer(t, MarkWaiting(t, run, reason), a);
  }

  lemma ResumingScope(t: Tables, run: nat, a: nat)
    ensures SameAction(t, ResumeIfUnblocked(t, run), a)
  {
    hide Blocked;
    OnlyRunsDiffer(t, ResumeIfUnblocked(t, run), a);
  }

  // Commands ----------------------------------------------------------------------------------------

  lemma PrepareScope(t: Tables, c: Command, a: nat)
    requires c.Prepare? && CanPrepare(t, c) && a != c.action
    ensures SameAction(t, DoPrepare(t, c), a)
  {
    var t1 := Recorded(t, c);
    assert SameAction(t, t1, a) && t1.deliveries == t.deliveries;
    assert c.delivery !in t1.deliveries;
    hide CanPrepare, Recorded, SameAction, MarkWaiting, CreateDelivery, PolicyFor;
    forall reason ensures SameAction(t, MarkWaiting(t1, c.run, reason), a) {
      WaitingScope(t1, c.run, reason, a);
      SameActionComposes(t, t1, MarkWaiting(t1, c.run, reason), a);
    }
    forall kind, payload
      ensures SameAction(t, CreateDelivery(MarkWaiting(t1, c.run, WaitDelivery), c.delivery, c.run, c.action, kind,
                                           c.runEpoch, payload, c.now), a)
    {
      var t2 := MarkWaiting(t1, c.run, WaitDelivery);
      WaitingKeepsRows(t1, c.run, WaitDelivery);
      CreatingScope(t2, c.delivery, c.run, c.action, kind, c.runEpoch, payload, c.now, a);
      SameActionComposes(t, t2, CreateDelivery(t2, c.delivery, c.run, c.action, kind, c.runEpoch, payload, c.now), a);
    }
  }

  lemma ResolveScope(t: Tables, c: Command, a: nat)
    requires c.Resolve? && CanResolve(t, c) && a != c.action
    ensures SameAction(t, DoResolve(t, c), a)
  {
    var t1, b := Resolved(t, c), t.actions[c.action];
    var r := t.runs[b.run];
    assert SameAction(t, t1, a) && c.delivery !in t1.deliveries;
    hide CanResolve, Resolved, SameAction, MarkWaiting, CreateDelivery, FindOption, FirstRefusal;
    forall payload
      ensures SameAction(t, CreateDelivery(t1, c.delivery, b.run, c.action, AuthorizationResolution, r.epoch, payload,
                                           c.now), a)
      ensures SameAction(t, MarkWaiting(CreateDelivery(t1, c.delivery, b.run, c.action, AuthorizationResolution,
                                                       r.epoch, payload, c.now), b.run, WaitDelivery), a)
    {
      var t2 := CreateDelivery(t1, c.delivery, b.run, c.action, AuthorizationResolution, r.epoch, payload, c.now);
      CreatingScope(t1, c.delivery, b.run, c.action, AuthorizationResolution, r.epoch, payload, c.now, a);
      SameActionComposes(t, t1, t2, a);
      WaitingScope(t2, b.run, WaitDelivery, a);
      SameActionComposes(t, t2, MarkWaiting(t2, b.run, WaitDelivery), a);
    }
    WaitingScope(t1, b.run, WaitExecution, a);
    SameActionComposes(t, t1, MarkWaiting(t1, b.run, WaitExecution), a);
  }

  lemma ResultScope(t: Tables, c: Command, a: nat)
    requires c.RecordResult? && CanRecordResult(t, c) && a != c.action
    ensures SameAction(t, DoRecordResult(t, c), a)
  {
    var t1, b := WithOutcome(t, c), t.actions[c.action];
    var epoch, payload := t.runs[b.run].epoch, RecordedResult(c.outcome, c.content);
    assert SameAction(t, t1, a) && c.delivery !in t1.deliveries;
    hide CanRecordResult, WithOutcome, SameAction, MarkWaiting, CreateDelivery, ResumeIfUnblocked;
    var t2 := CreateDelivery(t1, c.delivery, b.run, c.action, ActionResult, epoch, payload, c.now);
    CreatingScope(t1, c.delivery, b.run, c.action, ActionResult, epoch, payload, c.now, a);
    SameActionComposes(t, t1, t2, a);
    WaitingScope(t2, b.run, WaitDelivery, a);
    SameActionComposes(t, t2, MarkWaiting(t2, b.run, WaitDelivery), a);
    WaitingScope(t1, b.run, WaitUnknownOutcome, a);
    SameActionComposes(t, t1, MarkWaiting(t1, b.run, WaitUnknownOutcome), a);
    ResumingScope(t1, b.run, a);
    SameActionComposes(t, t1, ResumeIfUnblocked(t1, b.run), a);
  }

  lemma ConfirmedScope(t: Tables, action: nat, a: nat)
    requires action in t.actions && a != action
    ensures SameAction(t, Confirmed(t, action), a)
  {
    if HasAuthorization(t, action) {
      var d := AuthorizationOf(t, action);
      ClosingScope(t, action, a);
      ClosingScope(SetDelivery(t, d, SafelyClosed), action, a);
      SettingScope(t, d, SafelyClosed, a);
      SettingScope(t, d, Acked, a);
      SameActionComposes(t, SetDelivery(t, d, SafelyClosed), CloseUndelivered(SetDelivery(t, d, SafelyClosed), action),
                         a);
      OnlyRunsDiffer(t, t, a);
    } else {
      ClosingScope(t, action, a);
    }
    hide SameAction, CloseUndelivered, SetDelivery, HasAuthorization;
  }

  lemma ClosingScope(t: Tables, action: nat, a: nat)
    requires action in t.actions && a != action
    ensures SameAction(t, CloseUndelivered(t, action), a)
  {
  }

  lemma SettingScope(t: Tables, d: nat, status: DeliveryStatus, a: nat)
    requires d in t.deliveries && t.deliveries[d].action != a
    ensures SameAction(t, SetDelivery(t, d, status), a)
  {
  }

  lemma DeliveryScope(t: Tables, c: Command, a: nat)
    requires (c.Acknowledge? && CanAcknowledge(t, c)) || (c.Acquire? && CanAcquire(t, c))
    requires ActionOf(t, c) != Some(a)
    ensures SameAction(t, Step(t, c), a)
  {
    if c.Acknowledge? {
      SettingScope(t, c.delivery, Acked, a);
      ResumingScope(SetDelivery(t, c.delivery, Acked), t.deliveries[c.delivery].run, a);
      SameActionComposes(t, SetDelivery(t, c.delivery, Acked), Step(t, c), a);
    }
    hide ResumeIfUnblocked;
  }

  lemma ConfirmScope(t: Tables, c: Command, a: nat)
    requires c.ConfirmResolved? && CanConfirm(t, c) && a != c.action
    ensures SameAction(t, DoConfirm(t, c), a)
  {
    ConfirmedScope(t, c.action, a);
    ResumingScope(Confirmed(t, c.action), c.run, a);
    SameActionComposes(t, Confirmed(t, c.action), DoConfirm(t, c), a);
    hide Confirmed, SameAction, ResumeIfUnblocked;
  }

  lemma OthersScope(t: Tables, c: Command, a: nat)
    requires !WholeRun(c) && !RunStep(c) && ActionOf(t, c) != Some(a)
    requires !c.Prepare? && !c.Resolve? && !c.RecordResult? && !c.ConfirmResolved? && !c.Acknowledge? && !c.Acquire?
    ensures SameAction(t, Step(t, c), a)
  {
    hide Blocked, RecoveryBlocked;
  }

  /** A command about one action changes nothing of any other: neither the row, nor its approval, attempts and
      deliveries. Commands about a run alone change nothing of any action. */
  lemma ActionsDoNotInterfere(t: Tables, c: Command, a: nat)
    requires !WholeRun(c) && ActionOf(t, c) != Some(a)
    ensures SameAction(t, Step(t, c), a)
  {
    OnlyRunsDiffer(t, t, a);
    if RunStep(c) {
      RunStepFrame(t, c);
      OnlyRunsDiffer(t, Step(t, c), a);
    }
    hide SameAction, CanPrepare, DoPrepare, CanResolve, DoResolve, CanRecordResult, DoRecordResult, CanConfirm,
         DoConfirm, CanAcknowledge, DoAcknowledge, CanAcquire, DoAcquire, CanClaim, DoClaim, CanMarkDispatch,
         DoMarkDispatch, CanFailDelivery, CanRecordObserved, DoRecordObserved, CanClaimRun, AfterInputUnknown,
         AfterAcceptInput, AfterConnectionLost, AfterNetworkLost, AfterNetworkRetry;
    if c.Prepare? { if CanPrepare(t, c) { PrepareScope(t, c, a); } }
    else if c.Resolve? { if CanResolve(t, c) { ResolveScope(t, c, a); } }
    else if c.RecordResult? { if CanRecordResult(t, c) { ResultScope(t, c, a); } }
    else if c.ConfirmResolved? { if CanConfirm(t, c) { ConfirmScope(t, c, a); } }
    else if c.Acknowledge? { if CanAcknowledge(t, c) { DeliveryScope(t, c, a); } }
    else if c.Acquire? { if CanAcquire(t, c) { DeliveryScope(t, c, a); } }
    else if !RunStep(c) { OthersScope(t, c, a); }
  }

  // Runs --------------------------------------------------------------------------------------------

  function RunOfAction(t: Tables, a: nat): Option<nat> { if a in t.actions then Some(t.actions[a].run) else None }

  function RunOfDelivery(t: Tables, d: nat): Option<nat> {
    if d in t.deliveries then Some(t.deliveries[d].run) else None
  }

  /** The run that a command is about; a restart is about all of them. */
  function RunOf(t: Tables, c: Command): Option<nat> {
    match c
    case Restart(_, _, _, _) => None
    case Resolve(a, _, _, _, _, _) => RunOfAction(t, a)
    case Claim(a, _, _, _, _, _, _, _, _) => RunOfAction(t, a)
    case MarkDispatch(a, _, _, _) => RunOfAction(t, a)
    case RecordResult(a, _, _, _, _, _, _, _, _, _, _) => RunOfAction(t, a)
    case Acquire(d, _, _, _, _, _) => RunOfDelivery(t, d)
    case Acknowledge(d, _, _, _, _) => RunOfDelivery(t, d)
    case FailDelivery(d, _, _, _, _) => RunOfDelivery(t, d)
    case _ => Some(c.run)
  }

  lemma WaitingRunRow(t: Tables, waiting: nat, reason: WaitReason, run: nat)
    requires run != waiting
    ensures SameRow(t.runs, MarkWaiting(t, waiting, reason).runs, run)
  {
  }

  lemma ResumingRunRow(t: Tables, resumed: nat, run: nat)
    requires run != resumed
    ensures SameRow(t.runs, ResumeIfUnblocked(t, resumed).runs, run)
  {
    hide Blocked;
  }

  lemma PrepareRunRow(t: Tables, c: Command, run: nat)
    requires c.Prepare? && CanPrepare(t, c) && run != c.run
    ensures SameRow(t.runs, DoPrepare(t, c).runs, run)
  {
    var t1 := Recorded(t, c);
    assert t1.runs == t.runs;
    hide CanPrepare, Recorded, PolicyFor, MarkWaiting, CreateDelivery, SameRow;
    forall reason ensures SameRow(t.runs, MarkWaiting(t1, c.run, reason).runs, run) {
      WaitingRunRow(t1, c.run, reason, run);
    }
    forall kind, payload
      ensures CreateDelivery(MarkWaiting(t1, c.run, WaitDelivery), c.delivery, c.run, c.action, kind, c.runEpoch,
                             payload, c.now).runs == MarkWaiting(t1, c.run, WaitDelivery).runs
    {
      CreatingKeepsRuns(MarkWaiting(t1, c.run, WaitDelivery), c.delivery, c.run, c.action, kind, c.runEpoch, payload,
                        c.now);
    }
  }

  lemma ResolveRunRow(t: Tables, c: Command, run: nat)
    requires c.Resolve? && CanResolve(t, c) && run != t.actions[c.action].run
    ensures SameRow(t.runs, DoResolve(t, c).runs, run)
  {
    hide SamePayloadExists, FindOption, FirstRefusal;
  }

  lemma ResultRunRow(t: Tables, c: Command, run: nat)
    requires c.RecordResult? && CanRecordResult(t, c) && run != t.actions[c.action].run
    ensures SameRow(t.runs, DoRecordResult(t, c).runs, run)
  {
    ResultRuns(t, c);
    ResumingRunRow(WithOutcome(t, c), t.actions[c.action].run, run);
    hide CanRecordResult, DoRecordResult, WithOutcome, Blocked;
  }

  lemma ConfirmRunRow(t: Tables, c: Command, run: nat)
    requires c.ConfirmResolved? && CanConfirm(t, c) && run != c.run
    ensures SameRow(t.runs, DoConfirm(t, c).runs, run)
  {
    ConfirmedRows(t, c.action);
    ResumingRunRow(Confirmed(t, c.action), c.run, run);
    hide CanConfirm, Confirmed, ResumeIfUnblocked, HasAuthorization;
  }

  lemma EndingRunRow(t: Tables, c: Command, run: nat)
    requires (c.AbortRun? || c.ReconcileLoss?) && run != c.run
    ensures SameRow(t.runs, Step(t, c).runs, run)
  {
    hide HasUnknown, CloseActions, CloseApprovals, CloseAttempts, CloseDeliveries, LoseActions, LoseApprovals,
         LoseAttempts, LoseDeliveries;
  }

  lemma OthersRunRow(t: Tables, c: Command, run: nat)
    requires !WholeRun(c) && !RunStep(c) && RunOf(t, c) != Some(run)
    requires !c.Prepare? && !c.Resolve? && !c.RecordResult? && !c.ConfirmResolved?
    ensures SameRow(t.runs, Step(t, c).runs, run)
  {
    if c.Acknowledge? && CanAcknowledge(t, c) {
      ResumingRunRow(SetDelivery(t, c.delivery, Acked), t.deliveries[c.delivery].run, run);
    }
    hide Blocked, RecoveryBlocked, ResumeIfUnblocked;
  }

  lemma RunRowsDoNotInterfere(t: Tables, c: Command, run: nat)
    requires !c.Restart? && RunOf(t, c) != Some(run)
    ensures SameRow(t.runs, Step(t, c).runs, run)
  {
    assert SameRow(t.runs, t.runs, run);
    if RunStep(c) {
      RunStepFrame(t, c);
      assert SameRow(t.runs, Step(t, c).runs, run);
    }
    hide SameRow, CanPrepare, DoPrepare, CanResolve, DoResolve, CanRecordResult, DoRecordResult, CanConfirm, DoConfirm,
         AfterInputUnknown, AfterAcceptInput, AfterConnectionLost, AfterNetworkLost, AfterNetworkRetry;
    if c.Prepare? { if CanPrepare(t, c) { PrepareRunRow(t, c, run); } }
    else if c.Resolve? { if CanResolve(t, c) { ResolveRunRow(t, c, run); } }
    else if c.RecordResult? { if CanRecordResult(t, c) { ResultRunRow(t, c, run); } }
    else if c.ConfirmResolved? { if CanConfirm(t, c) { ConfirmRunRow(t, c, run); } }
    else if c.AbortRun? || c.ReconcileLoss? { EndingRunRow(t, c, run); }
    else if !RunStep(c) { OthersRunRow(t, c, run); }
  }

  // Approvals belong to actions of their run, and so do attempts and deliveries.
  ghost predicate Belonging(t: Tables, a: nat) {
    && (a in t.approvals ==> a in t.actions)
    && (forall d :: DeliveryOf(t.deliveries, d, a) ==> a in t.actions && t.deliveries[d].run == t.actions[a].run)
    && (forall x :: AttemptOf(t.attempts, x, a) ==> a in t.actions)
  }

  lemma GoodTablesBelong(t: Tables, a: nat)
    requires Inv(t)
    ensures Belonging(t, a)
  {
    assert DeliveriesOk(t.actions, t.approvals, t.deliveries) && ApprovalsOk(t.actions, t.approvals);
    assert AttemptsOk(t.actions, t.attempts);
    hide Inv, AttemptOk, ApprovalOk, Unresolved;
  }

  lemma CloseScope(t: Tables, run: nat, a: nat)
    requires Belonging(t, a) && RunOfAction(t, a) != Some(run)
    ensures SameAction(t, CloseEffects(t, {run}), a)
  {
    hide CloseAction;
  }

  lemma LoseScope(t: Tables, run: nat, epoch: nat, a: nat)
    requires Belonging(t, a) && RunOfAction(t, a) != Some(run)
    ensures SameAction(t, LoseEffects(t, run, epoch), a)
  {
  }

  lemma WithOtherRuns(t: Tables, u: Tables, runs: map<nat, Run>, a: nat)
    requires SameAction(t, u, a)
    ensures SameAction(t, u.(runs := runs), a)
  {
    OnlyRunsDiffer(u, u.(runs := runs), a);
    hide SameAction;
    SameActionComposes(t, u, u.(runs := runs), a);
  }

  lemma AbortScope(t: Tables, run: nat, final: RunStatus, a: nat)
    requires Belonging(t, a) && run in t.runs && RunOfAction(t, a) != Some(run)
    ensures SameAction(t, Abort(t, run, final), a)
  {
    CloseScope(t, run, a);
    hide Belonging, SameAction, CloseEffects, EndRow;
    WithOtherRuns(t, CloseEffects(t, {run}), Abort(t, run, final).runs, a);
  }

  lemma EndingScope(t: Tables, c: Command, a: nat)
    requires Inv(t) && (c.AbortRun? || c.ReconcileLoss?) && RunOfAction(t, a) != Some(c.run)
    ensures SameAction(t, Step(t, c), a)
  {
    GoodTablesBelong(t, a);
    OnlyRunsDiffer(t, t, a);
    hide Inv, Belonging, SameAction, Abort, LoseEffects, HasUnknown;
    if c.AbortRun? {
      if c.run in t.runs { AbortScope(t, c.run, c.final, a); }
    } else if CanReconcileLoss(t, c) {
      AbortScope(t, c.run, RunCancelled, a);
      AbortScope(t, c.run, RunFailed, a);
      LoseScope(t, c.run, c.runEpoch, a);
      WithOtherRuns(t, LoseEffects(t, c.run, c.runEpoch), DoReconcileLoss(t, c).runs, a);
    }
  }

  // Only preparing and observing add actions: a command about another action does not touch this one, one that is
  // refused changes nothing, and the rest find their action there.
  lemma OthersAddNone(t: Tables, c: Command, a: nat)
    requires !c.Prepare? && !c.RecordObserved? && !c.Restart?
    ensures a in Step(t, c).actions ==> a in t.actions
  {
    if c.AbortRun? || c.ReconcileLoss? {
      EndingsAddNone(t, c, a);
    } else if ActionOf(t, c) != Some(a) {
      ActionsDoNotInterfere(t, c, a);
      hide SameAttempts, SameDeliveries;
    } else {
      OwnAddsNone(t, c, a);
    }
    hide Step;
  }

  lemma OwnAddsNone(t: Tables, c: Command, a: nat)
    requires !c.Prepare? && !c.RecordObserved? && ActionOf(t, c) == Some(a)
    ensures a in Step(t, c).actions ==> a in t.actions
  {
    hide DoResolve, DoRecordResult, DoConfirm, Blocked;
  }

  lemma EndingsAddNone(t: Tables, c: Command, a: nat)
    requires c.AbortRun? || c.ReconcileLoss?
    ensures a in Step(t, c).actions ==> a in t.actions
  {
    hide HasUnknown, CloseApprovals, CloseAttempts, CloseDeliveries, LoseApprovals, LoseAttempts, LoseDeliveries,
         CloseAction, LoseAction;
  }

  lemma PreparedActions(t: Tables, c: Command)
    requires c.Prepare? && CanPrepare(t, c)
    ensures Step(t, c).actions == t.actions[c.action := NewAction(c, PolicyFor(t.runs[c.run], c).value)]
  {
    var t1 := Recorded(t, c);
    var t2 := MarkWaiting(t1, c.run, WaitDelivery);
    assert t1.actions == t.actions[c.action := NewAction(c, PolicyFor(t.runs[c.run], c).value)];
    assert Step(t, c) == DoPrepare(t, c);
    WaitingKeepsRows(t1, c.run, WaitDelivery);
    WaitingKeepsRows(t1, c.run, WaitApproval);
    WaitingKeepsRows(t1, c.run, WaitExecution);
    WaitingKeepsRows(t1, c.run, WaitUnknownOutcome);
    Created(t2, c.delivery, c.run, c.action, AuthorizationResolution, c.runEpoch, DeniedByPolicy, c.now);
    Created(t2, c.delivery, c.run, c.action, ActionResult, c.runEpoch, PolicyDeniedResult, c.now);
    Created(t2, c.delivery, c.run, c.action, AuthorizationResolution, c.runEpoch, ApprovedByPolicy, c.now);
    hide Step, CanPrepare, Recorded, PolicyFor, NewAction, MarkWaiting, CreateDelivery, SamePayloadExists;
  }

  lemma ObservedActions(t: Tables, c: Command)
    requires c.RecordObserved? && CanRecordObserved(t, c)
    ensures var u := Step(t, c);
      && u.actions == t.actions[c.action := u.actions[c.action]] && u.actions[c.action].run == c.run
      && u.actions[c.action].mode.Observed? && u.actions[c.action].policy.ObservedOnly?
  {
  }

  lemma RefusedIsRefused(t: Tables, c: Command)
    ensures c.Prepare? && !CanPrepare(t, c) ==> Step(t, c) == t
    ensures c.RecordObserved? && !CanRecordObserved(t, c) ==> Step(t, c) == t
  {
    hide CanPrepare, CanRecordObserved;
  }

  lemma NewActionRun(t: Tables, c: Command, a: nat)
    requires a !in t.actions && a in Step(t, c).actions && !c.Restart?
    ensures (c.Prepare? || c.RecordObserved?) && Step(t, c).actions[a].run == c.run && RunOf(t, c) == Some(c.run)
  {
    if c.Prepare? {
      if CanPrepare(t, c) { PreparedActions(t, c); } else { RefusedIsRefused(t, c); }
      hide Step, CanPrepare, PolicyFor;
    } else if c.RecordObserved? {
      if CanRecordObserved(t, c) { ObservedActions(t, c); } else { RefusedIsRefused(t, c); }
      hide Step, CanRecordObserved;
    } else {
      OthersAddNone(t, c, a);
    }
  }

  lemma OldActionRun(t: Tables, c: Command, a: nat)
    requires Inv(t) && a in t.actions
    ensures a in Step(t, c).actions && Step(t, c).actions[a].run == t.actions[a].run
  {
    StepAdvances(t, c);
    hide Inv, RunsEvolve, ApprovalsEvolve, AttemptsEvolve, DeliveriesEvolve, FenceHolds, Step;
    assert ActionEvolves(t.actions[a], Step(t, c).actions[a]);
  }

  // A command that names an action of another run than its own is refused.
  lemma OfAnotherRun(t: Tables, c: Command, a: nat)
    requires Belonging(t, a) && ActionOf(t, c) == Some(a) && a in t.actions && RunOf(t, c) != Some(t.actions[a].run)
    ensures Step(t, c) == t
  {
    hide Confirmed, ResumeIfUnblocked, PolicyFor;
  }

  /** A command about one run changes nothing of any other: neither the row, nor its actions with theirs. */
  lemma RunsDoNotInterfere(t: Tables, c: Command, run: nat, a: nat)
    requires Inv(t) && !c.Restart? && RunOf(t, c) != Some(run)
    ensures SameRow(t.runs, Step(t, c).runs, run)
    ensures RunOfAction(t, a) == Some(run) || RunOfAction(Step(t, c), a) == Some(run) ==> SameAction(t, Step(t, c), a)
  {
    RunRowsDoNotInterfere(t, c, run);
    GoodTablesBelong(t, a);
    hide Inv, Step, SameAction, SameRow, Evolves, Belonging, RunOf, ActionOf;
    if a in t.actions { OldActionRun(t, c, a); }
    if a in Step(t, c).actions && a !in t.actions { NewActionRun(t, c, a); }
    if RunOfAction(t, a) == Some(run) || RunOfAction(Step(t, c), a) == Some(run) {
      if c.AbortRun? || c.ReconcileLoss? { EndingScope(t, c, a); }
      else if ActionOf(t, c) == Some(a) { OfAnotherRun(t, c, a); OnlyRunsDiffer(t, t, a); }
      else { ActionsDoNotInterfere(t, c, a); }
    }
  }
}
