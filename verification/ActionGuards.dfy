/** When a command takes effect. A command that is refused leaves every table as it was, and each is refused exactly
    unless the run, the rows it names and what it says of them fit. */
module ActionGuards {
  import opened Options
  import opened ActionModel
  import opened ActionPolicy
  import opened ActionProgress

  predicate Live(t: Tables, run: nat) {
    run in t.runs && (t.runs[run].status.Running? || t.runs[run].status.Waiting?)
  }

  predicate LiveAt(t: Tables, run: nat, epoch: nat) { Live(t, run) && t.runs[run].epoch == epoch }

  /** Alive, and not asked to cancel. */
  predicate Uncancelled(t: Tables, run: nat) { Live(t, run) && !t.runs[run].cancelRequested }

  // Preparing ---------------------------------------------------------------------------------------

  /** Well-formed options of different identities, one of which denies or cancels. */
  ghost predicate AcceptableOffer(options: seq<PermissionOption>) {
    && (exists o :: o in options && (o.kind.DenyOption? || o.kind.CancelOption?))
    && (forall o | o in options :: o.wellFormed)
    && forall i, j | 0 <= i < |options| && 0 <= j < |options| && options[i].id == options[j].id :: i == j
  }

  lemma AcceptableIff(options: seq<PermissionOption>)
    ensures OptionsAcceptable(options) <==> AcceptableOffer(options)
  {
    if OptionsAcceptable(options) {
      var i :| 0 <= i < |options| && Refusal(options[i]);
      assert options[i] in options;
    }
    if AcceptableOffer(options) {
      var o :| o in options && (o.kind.DenyOption? || o.kind.CancelOption?);
      var i :| 0 <= i < |options| && options[i] == o;
      assert Refusal(options[i]);
      forall i | 0 <= i < |options| ensures options[i].wellFormed { assert options[i] in options; }
    }
  }

  /** What a request may be made under: a run that enforces policies itself needs the scope and the capability, one that
      its runtime manages needs either options to decide by, for a request of the runtime, or the capability; and rules
      that apply to a decision have valid effects. */
  ghost predicate Admissible(r: Run, c: Command)
    requires c.Prepare?
  {
    var asksRuntime := r.semantics.RuntimeManaged? && c.mode.Intercepted?;
    && (r.semantics.CoreEnforced? ==> c.scopeOk)
    && (asksRuntime ==> AcceptableOffer(c.options))
    && (!asksRuntime ==> r.capable)
    && (!asksRuntime && !c.mode.Observed? ==> !SomeCovering(r.rules, c.kind, InvalidEffect))
  }

  lemma PreparedIff(t: Tables, c: Command)
    requires c.Prepare?
    ensures Step(t, c) != t <==>
      && c.admitted && LiveAt(t, c.run, c.runEpoch) && (c.mode.Observed? || Uncancelled(t, c.run))
      && (c.mode.Intercepted? <==> c.nativeRequest.Some?) && Admissible(t.runs[c.run], c)
      && c.action !in t.actions && c.delivery !in t.deliveries
  {
    AcceptableIff(c.options);
    if c.run in t.runs { DecisionIff(t.runs[c.run].rules, c.kind); }
    if CanPrepare(t, c) {
      PreparedRest(t, c);
      assert c.action in Recorded(t, c).actions;
    }
    hide Evaluate, OptionsAcceptable, AcceptableOffer, SomeCovering, DoPrepare, Recorded;
  }

  lemma ObservedIff(t: Tables, c: Command)
    requires c.RecordObserved?
    ensures Step(t, c) != t <==>
      && c.admitted && LiveAt(t, c.run, c.runEpoch) && c.action !in t.actions
      && (t.runs[c.run].semantics.CoreEnforced? ==> t.runs[c.run].capable)
      && match c.outcome
         case ResultSucceeded => !c.effect.UnknownEffect?
         case ResultFailed => !c.effect.Complete?
         case ResultUnknown => c.effect.Partial? || c.effect.UnknownEffect?
  {
    if CanRecordObserved(t, c) { assert c.action in DoRecordObserved(t, c).actions; }
    hide MarkWaiting;
  }

  // Approvals ---------------------------------------------------------------------------------------

  ghost predicate Resolvable(t: Tables, c: Command, i: nat)
    requires c.Resolve? && c.action in t.actions && c.action in t.approvals && t.actions[c.action].run in t.runs
  {
    var p, run := t.approvals[c.action], t.actions[c.action].run;
    && Chosen(p.options, c.option, i)
    && (p.options[i].allowsAction ==> Uncancelled(t, run))
    && (t.runs[run].semantics.RuntimeManaged? ==> p.options[i].wellFormed)
    && (By(p.expiresAt, c.now) || exists o :: o in p.options && (o.kind.DenyOption? || o.kind.CancelOption?))
  }

  lemma ResolvedIff(t: Tables, c: Command)
    requires c.Resolve?
    ensures Step(t, c) != t <==>
      && c.admitted && c.action in t.actions && c.action in t.approvals && t.actions[c.action].run in t.runs
      && t.approvals[c.action].status.Pending? && t.approvals[c.action].version == c.approvalVersion
      && t.actions[c.action].status.Prepared?
      && t.actions[c.action].sourceEpoch == t.runs[t.actions[c.action].run].epoch
      && c.delivery !in t.deliveries && exists i :: Resolvable(t, c, i)
  {
    if c.action in t.actions && c.action in t.approvals && t.actions[c.action].run in t.runs {
      var p := t.approvals[c.action];
      FindsRefusal(p.options);
      forall i: nat | Resolvable(t, c, i) ensures FindOption(p.options, c.option) == Some(p.options[i]) {
        ChosenIsFound(p.options, c.option, i);
      }
      hide FirstRefusal;
      if CanResolve(t, c) {
        var i := FoundIsChosen(p.options, c.option);
        ChosenIsFound(p.options, c.option, i);
        assert Resolvable(t, c, i);
        ResolutionDecides(t, c, i);
      }
    }
    hide DoResolve, FirstRefusal, FindOption;
  }

  // Executing ---------------------------------------------------------------------------------------

  /** An executor comes without an authorization; an adapter with one for this action that it was handed and holds. */
  predicate Entitled(t: Tables, c: Command)
    requires c.Claim? && c.action in t.actions && t.actions[c.action].run in t.runs
  {
    match t.actions[c.action].mode
    case Mediated => c.component.Executor? && c.authorization.None? && c.authorizationOwner.None?
    case Intercepted =>
      && c.component.Adapter? && c.authorization.Some? && c.authorizationOwner.Some?
      && c.authorization.value in t.deliveries
      && var d := t.deliveries[c.authorization.value];
      && d.action == c.action && d.kind.AuthorizationResolution? && d.status.Delivering?
      && d.leaseOwner == c.authorizationOwner && d.targetEpoch == t.runs[t.actions[c.action].run].epoch
    case Observed => false
  }

  lemma ClaimedIff(t: Tables, c: Command)
    requires c.Claim?
    ensures Step(t, c) != t <==>
      && c.admitted && c.action in t.actions && Uncancelled(t, t.actions[c.action].run) && c.attempt !in t.attempts
      && t.actions[c.action].status.Prepared? && t.actions[c.action].version == c.actionVersion
      && By(t.actions[c.action].executeBefore, c.now) && Entitled(t, c)
      && (t.actions[c.action].policy.Allow?
          || (t.actions[c.action].policy.Ask? && c.action in t.approvals && t.approvals[c.action].status.Approved?))
  {
    if CanClaim(t, c) { assert c.attempt in DoClaim(t, c).attempts; }
  }

  lemma MarkedIff(t: Tables, c: Command)
    requires c.MarkDispatch?
    ensures Step(t, c) != t <==>
      && c.action in t.actions && Uncancelled(t, t.actions[c.action].run) && t.actions[c.action].status.Executing?
      && t.actions[c.action].activeAttempt == Some(c.attempt) && t.actions[c.action].epoch == c.actionEpoch
      && t.actions[c.action].leaseOwner == Some(c.owner)
      && t.runs[t.actions[c.action].run].epoch == t.actions[c.action].runEpochAtDispatch
  {
    if CanMarkDispatch(t, c) { assert DoMarkDispatch(t, c).actions[c.action].version != t.actions[c.action].version; }
  }

  /** Who may say how an action came out: a reconciler at any time, and the one that carries out its kind of action
      while it executes; an adapter later too, with evidence from the background. */
  predicate MayReport(a: Action, c: Command)
    requires c.RecordResult?
  {
    && (c.component.Reconciler? || (a.mode.Mediated? && c.component.Executor?)
        || (a.mode.Intercepted? && c.component.Adapter?))
    && !a.mode.Observed?
    && (a.status.Executing?
        || (a.status.Unknown? && (c.component.Reconciler? || (c.component.Adapter? && c.backgroundEvidence))))
  }

  lemma RecordedIff(t: Tables, c: Command)
    requires c.RecordResult?
    ensures Step(t, c) != t <==>
      && c.admitted && c.action in t.actions && t.actions[c.action].run in t.runs && c.delivery !in t.deliveries
      && MayReport(t.actions[c.action], c) && t.actions[c.action].dispatchStarted
      && t.actions[c.action].activeAttempt == Some(c.attempt) && t.actions[c.action].epoch == c.actionEpoch
      && match c.outcome
         case ResultSucceeded => !c.effect.UnknownEffect?
         case ResultFailed => !c.effect.Complete?
         case ResultUnknown => c.effect.Partial? || c.effect.UnknownEffect?
  {
    if CanRecordResult(t, c) { ResultChanges(t, c); }
    hide DoRecordResult;
  }

  lemma ResultChanges(t: Tables, c: Command)
    requires c.RecordResult? && CanRecordResult(t, c)
    ensures DoRecordResult(t, c) != t
  {
    var t1 := WithOutcome(t, c);
    assert t1.actions[c.action].version != t.actions[c.action].version;
    hide CanRecordResult, WithOutcome, Blocked, SamePayloadExists;
    assert DoRecordResult(t, c).actions == t1.actions;
  }

  // Deliveries --------------------------------------------------------------------------------------

  lemma AcquiredIff(t: Tables, c: Command)
    requires c.Acquire?
    ensures Step(t, c) != t <==>
      && c.admitted && c.leaseSeconds >= 1 && c.delivery in t.deliveries
      && t.deliveries[c.delivery].version == c.deliveryVersion && t.deliveries[c.delivery].availableAt <= c.now
      && Uncancelled(t, t.deliveries[c.delivery].run)
      && t.runs[t.deliveries[c.delivery].run].epoch == t.deliveries[c.delivery].targetEpoch
      && (t.deliveries[c.delivery].status.Queued?
          || (t.deliveries[c.delivery].status.Delivering? && t.deliveries[c.delivery].leaseExpires <= c.now))
  {
    if CanAcquire(t, c) {
      assert DoAcquire(t, c).deliveries[c.delivery].version != t.deliveries[c.delivery].version;
    }
  }

  /** The lease of a delivery, with the payload and the generation of the run that it was made for. */
  predicate Holds(t: Tables, delivery: nat, payload: Payload, epoch: nat, owner: nat) {
    && delivery in t.deliveries && t.deliveries[delivery].status.Delivering?
    && t.deliveries[delivery].leaseOwner == Some(owner) && t.deliveries[delivery].payload == payload
    && t.deliveries[delivery].targetEpoch == epoch
    && t.deliveries[delivery].run in t.runs && t.runs[t.deliveries[delivery].run].epoch == epoch
  }

  lemma AcknowledgedIff(t: Tables, c: Command)
    requires c.Acknowledge?
    ensures Step(t, c) != t <==>
      && c.admitted && Holds(t, c.delivery, c.payload, c.targetEpoch, c.owner)
      && Live(t, t.deliveries[c.delivery].run)
  {
    if CanAcknowledge(t, c) {
      assert DoAcknowledge(t, c).deliveries[c.delivery].status != t.deliveries[c.delivery].status;
    }
    hide Blocked;
  }

  lemma FailedIff(t: Tables, c: Command)
    requires c.FailDelivery?
    ensures Step(t, c) != t <==> c.admitted && Holds(t, c.delivery, c.payload, c.targetEpoch, c.owner)
  {
    if CanFailDelivery(t, c) {
      var failed := SetDelivery(t, c.delivery, DeliveryFailed);
      assert failed.deliveries[c.delivery].status != t.deliveries[c.delivery].status;
    }
  }

  // Runs --------------------------------------------------------------------------------------------

  /** A confirmation is heard only for a request of the runtime itself, in the epoch it was made in. */
  lemma ConfirmationIsHeard(t: Tables, c: Command)
    requires c.ConfirmResolved? && Step(t, c) != t
    ensures c.admitted && LiveAt(t, c.run, c.runEpoch) && RunIs(t, c.action, c.run)
    ensures t.actions[c.action].mode.Intercepted? && t.actions[c.action].sourceEpoch == c.runEpoch
              && t.actions[c.action].nativeRequest == Some(c.requestId)
  {
    hide DoConfirm;
  }

  lemma LossIsTakenIff(t: Tables, c: Command)
    requires c.ReconcileLoss?
    ensures Step(t, c) != t <==>
      && c.admitted && LiveAt(t, c.run, c.runEpoch) && t.runs[c.run].version == c.runVersion
      && (t.runs[c.run].singleChat || !c.inputMayHaveExecuted || !t.runs[c.run].cancelRequested)
  {
    if CanReconcileLoss(t, c) { assert DoReconcileLoss(t, c).runs[c.run].version != t.runs[c.run].version; }
    hide CloseEffects, LoseEffects, HasUnknown;
  }

  lemma AdmittedIff(t: Tables, c: Command)
    requires c.ClaimRun?
    ensures Step(t, c) != t <==>
      && c.admitted && c.run in t.runs && t.runs[c.run].version == c.runVersion && !t.runs[c.run].cancelRequested
      && (t.runs[c.run].status.RunQueued?
          || (t.runs[c.run].status.Waiting? && t.runs[c.run].wait.WaitRecovery? && t.runs[c.run].recoveryRequired
              && !Hindered(t, c.run)))
  {
    HinderedIff(t, c.run);
    if CanClaimRun(t, c) { assert Step(t, c).runs[c.run].epoch != t.runs[c.run].epoch; }
    hide RecoveryBlocked, Hindered;
  }

  /** A question nobody answered, an action under way or of unknown outcome, or an answer that is not delivered. */
  ghost predicate Hindered(t: Tables, run: nat) {
    || (exists a :: a in t.approvals && a in t.actions && t.actions[a].run == run && t.approvals[a].status.Pending?)
    || (exists a :: a in t.actions && t.actions[a].run == run
                    && (t.actions[a].status.Unknown? || t.actions[a].status.Executing?))
    || (exists d :: d in t.deliveries && t.deliveries[d].run == run
                    && t.deliveries[d].status in {Queued, Delivering, DeliveryFailed})
  }

  lemma HinderedIff(t: Tables, run: nat)
    ensures RecoveryBlocked(t, run) <==> Hindered(t, run)
  {
    if RecoveryBlocked(t, run) {
      if a :| a in t.actions && t.actions[a].run == run
              && (t.actions[a].status.Unknown? || t.actions[a].status.Executing?) {
        assert Hindered(t, run);
      } else if a :| a in t.approvals && t.approvals[a].status.Pending? && RunIs(t, a, run) {
        assert Hindered(t, run);
      } else {
        var d :| d in t.deliveries && t.deliveries[d].run == run && Open(t.deliveries[d]);
        assert Hindered(t, run);
      }
    }
    if a :| a in t.approvals && a in t.actions && t.actions[a].run == run && t.approvals[a].status.Pending? {
      assert RunIs(t, a, run);
    }
    if d :| d in t.deliveries && t.deliveries[d].run == run
            && t.deliveries[d].status in {Queued, Delivering, DeliveryFailed} {
      assert Open(t.deliveries[d]);
    }
  }

  /** A run is ended only while it is live, and interrupted also while it waits in the queue; the end is a final one. */
  lemma EndedIff(t: Tables, c: Command)
    requires c.EndRun? || c.AbortRun?
    ensures Step(t, c) != t <==>
      && c.run in t.runs && c.final in {RunSucceeded, RunFailed, RunCancelled}
      && (Live(t, c.run) || (c.AbortRun? && t.runs[c.run].status.RunQueued?))
  {
    if c.run in t.runs && Final(c.final) {
      assert Abort(t, c.run, c.final).runs[c.run].version != t.runs[c.run].version;
      assert EndRow(t.runs[c.run], c.final, false).version != t.runs[c.run].version;
    }
    hide CloseEffects;
  }

  predicate CurrentAt(t: Tables, run: nat, version: nat, epoch: nat) {
    run in t.runs && t.runs[run].version == version && t.runs[run].epoch == epoch && !t.runs[run].cancelRequested
  }

  /** An input of unknown delivery needs no version, a lost connection finds the run live, a lost network finds it
      running with nothing to recover first, and a retry finds it waiting to recover. */
  ghost predicate Befalls(t: Tables, c: Command) {
    match c
    case MarkInputUnknown(run, epoch, admitted) => admitted && LiveAt(t, run, epoch) && Uncancelled(t, run)
    case WaitForRecovery(run, version, epoch, admitted) =>
      admitted && CurrentAt(t, run, version, epoch) && Live(t, run)
    case WaitForNetwork(run, version, epoch, admitted) =>
      admitted && CurrentAt(t, run, version, epoch) && t.runs[run].status.Running? && !Hindered(t, run)
    case RetryNetwork(run, version, epoch, admitted, _) =>
      && admitted && CurrentAt(t, run, version, epoch) && t.runs[run].status.Waiting? && t.runs[run].recoveryRequired
      && (t.runs[run].wait.WaitNetwork? || t.runs[run].wait.WaitRecovery?)
    case _ => false
  }

  lemma BefallsIff(t: Tables, c: Command)
    requires c.MarkInputUnknown? || c.WaitForRecovery? || c.WaitForNetwork? || c.RetryNetwork?
    ensures Step(t, c) != t <==> Befalls(t, c)
  {
    HinderedIff(t, c.run);
    hide RecoveryBlocked, Hindered;
    assert Befalls(t, c) ==> Step(t, c).runs[c.run].version != t.runs[c.run].version;
  }

  /** An input that arrives is noted by the run it is for, in its epoch and unless it is being cancelled, when the run
      initializes or waits for word of that input. */
  lemma InputIsNotedIff(t: Tables, c: Command)
    requires c.AcceptInput?
    ensures Step(t, c) != t <==>
      && c.admitted && c.run in t.runs && t.runs[c.run].epoch == c.runEpoch && !t.runs[c.run].cancelRequested
      && ((t.runs[c.run].status.Running? && t.runs[c.run].wait.WaitInitializing?)
          || (t.runs[c.run].status.Waiting? && t.runs[c.run].wait.WaitInputUnknown? && c.uncertain))
  {
    hide Blocked;
    assert AfterAcceptInput(t, c).Some? ==> Step(t, c).runs[c.run].wait != t.runs[c.run].wait;
  }

  // What is entered ---------------------------------------------------------------------------------

  /** A new action as it was asked for, in its first version and without attempts. */
  predicate Entered(a: Action, run: nat, mode: ControlMode, digest: nat, request: Option<nat>, epoch: nat,
                    deadline: Option<nat>) {
    && a.run == run && a.mode == mode && a.digest == digest && a.nativeRequest == request && a.sourceEpoch == epoch
    && a.executeBefore == deadline && a.version == 1 && a.attemptCount == 0 && a.activeAttempt.None?
    && a.leaseOwner.None? && !a.dispatchStarted
  }

  lemma EnteredAsAsked(t: Tables, c: Command)
    requires (c.Prepare? || c.RecordObserved?) && Step(t, c) != t
    ensures c.action in Step(t, c).actions
    ensures match c
      case Prepare(run, epoch, _, _, action, _, mode, digest, request, _, deadline, _, _) =>
        Entered(Step(t, c).actions[action], run, mode, digest, request, epoch, deadline)
      case RecordObserved(run, epoch, _, action, digest, outcome, _) =>
        && Entered(Step(t, c).actions[action], run, Observed, digest, None, epoch, None)
        && (outcome.ResultSucceeded? <==> Step(t, c).actions[action].status.Succeeded?)
        && (outcome.ResultFailed? <==> Step(t, c).actions[action].status.Failed?)
        && (outcome.ResultUnknown? <==> Step(t, c).actions[action].status.Unknown?)
      case _ => true
  {
    if c.Prepare? && CanPrepare(t, c) { PreparedRest(t, c); }
    hide CanPrepare, DoPrepare, PolicyFor, MarkWaiting;
  }

  /** A delivery is entered unless its action already has one of the same kind with the same payload. */
  lemma DeliveryIsEnteredIff(t: Tables, id: nat, run: nat, action: nat, kind: DeliveryKind, epoch: nat,
                             payload: Payload, now: nat)
    requires id !in t.deliveries
    ensures var u := CreateDelivery(t, id, run, action, kind, epoch, payload, now);
      && (id in u.deliveries <==>
            !exists d :: d in t.deliveries && t.deliveries[d].action == action && t.deliveries[d].kind == kind
                         && t.deliveries[d].payload == payload)
      && u == t.(deliveries := u.deliveries) && u.deliveries - {id} == t.deliveries
  {
  }

  /** An input that was acknowledged by evidence alone leaves its run to recovery. */
  lemma EvidenceLeavesToRecovery(t: Tables, c: Command)
    requires c.AcceptInput? && !c.live && Step(t, c) != t && c.run in t.runs && t.runs[c.run].status.Waiting?
    ensures var r := Step(t, c).runs[c.run]; r.status.Waiting? && r.wait.WaitRecovery? && r.recoveryRequired
  {
    hide Blocked;
  }
}
