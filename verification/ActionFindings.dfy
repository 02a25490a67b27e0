/** Two promises the code does not keep on every input, each with the exact condition under which it does. */
module ActionFindings {
  import opened Options
  import opened ActionModel
  import opened ActionInvariant
  import opened ActionHistory
  import opened ActionFrames
  import opened ActionCancels
  import opened ActionSteps
  import opened ActionTheorems

  // A cancel option that allows its action ----------------------------------------------------------

  /** Resolving with a cancel option closes the action exactly when the option does not allow it.
      When it does, the action stays prepared behind a cancelled approval and can never be claimed. */
  lemma CancelLeavesPrepared(t: Tables, c: Command, later: seq<Command>, claim: Command)
    requires Reachable(t) && c.Resolve? && CanResolve(t, c) && !ApprovalExpired(t.approvals[c.action], c.now)
    requires FindOption(t.approvals[c.action].options, c.option).value.kind.CancelOption?
    ensures var u := Step(t, c);
            && u.approvals[c.action].status.Cancelled?
            && (u.actions[c.action].status.NotExecuted?
                <==> !FindOption(t.approvals[c.action].options, c.option).value.allowsAction)
            && (claim.Claim? && claim.action == c.action ==> !CanClaim(RunAll(u, later), claim))
  {
    ReachableIsGood(t);
    StepAdvances(t, c);
    CancelResolution(t, c);
    hide Inv, Reachable, CanClaim, Evolves, CanResolve, DoResolve, RunAll;
    RunAdvances(Step(t, c), later);
    CancelledIsNotClaimed(Step(t, c), RunAll(Step(t, c), later), claim, c.action);
  }

  lemma CancelledIsNotClaimed(t: Tables, u: Tables, claim: Command, a: nat)
    requires Advances(t, u) && a in t.approvals && t.approvals[a].status.Cancelled?
    requires a in t.actions && t.actions[a].policy.Ask?
    ensures claim.Claim? && claim.action == a ==> !CanClaim(u, claim)
  {
    hide Inv;
    assert ApprovalEvolves(t.approvals[a], u.approvals[a]) && ActionEvolves(t.actions[a], u.actions[a]);
  }

  const PERMISSIVE := PermissionOption(0, CancelOption, true, true)

  const PERMISSIVE_RUN := [
    NewRun(0, RuntimeManaged, true, [], false),
    ClaimRun(0, 1, true),
    Prepare(0, 1, true, true, 0, 0, Intercepted, 7, Some(1), [PERMISSIVE], None, 0, 0),
    Resolve(0, true, 0, 1, 1, 0)]

  /** Four commands after which an approval is cancelled and its action is still prepared. */
  lemma CancelledYetPrepared()
    ensures var t := RunAll(EMPTY, PERMISSIVE_RUN);
            0 in t.approvals && t.approvals[0].status.Cancelled? && 0 in t.actions && t.actions[0].status.Prepared?
  {
    var t1 := Step(EMPTY, PERMISSIVE_RUN[0]);
    var t2 := Step(t1, PERMISSIVE_RUN[1]);
    assert OptionsAcceptable([PERMISSIVE]) by { assert Refusal([PERMISSIVE][0]); }
    assert CanPrepare(t2, PERMISSIVE_RUN[2]);
    var t3 := Step(t2, PERMISSIVE_RUN[2]);
    assert CanResolve(t3, PERMISSIVE_RUN[3]);
    var t4 := Step(t3, PERMISSIVE_RUN[3]);
    FourSteps(EMPTY, PERMISSIVE_RUN[0], PERMISSIVE_RUN[1], PERMISSIVE_RUN[2], PERMISSIVE_RUN[3]);
  }

  lemma FourSteps(t: Tables, a: Command, b: Command, c: Command, d: Command)
    ensures RunAll(t, [a, b, c, d]) == Step(Step(Step(Step(t, a), b), c), d)
  {
    hide Step;
    var all := [a, b, c, d];
    assert all[1..] == [b, c, d] && [b, c, d][1..] == [c, d] && [c, d][1..] == [d] && [d][1..] == [];
    assert RunAll(Step(t, a), [b, c, d]) == RunAll(Step(Step(t, a), b), [c, d]);
    assert RunAll(Step(Step(t, a), b), [c, d]) == RunAll(Step(Step(Step(t, a), b), c), [d]);
    assert RunAll(Step(Step(Step(t, a), b), c), [d]) == RunAll(Step(Step(Step(Step(t, a), b), c), d), []);
  }

  // With no such option, cancelled always means not executed -----------------------------------------

  ghost predicate CancelledClosed(t: Tables) {
    forall a | a in t.approvals && t.approvals[a].status.Cancelled? ::
        a in t.actions && t.actions[a].status.NotExecuted?
  }

  lemma ClosedStays(t: Tables, u: Tables)
    requires CancelledClosed(t) && CancelsCleanly(t, u) && ActionsEvolve(t, u)
    ensures CancelledClosed(u)
  {
    forall a | a in u.approvals && u.approvals[a].status.Cancelled?
      ensures a in u.actions && u.actions[a].status.NotExecuted?
    {
      if a in t.approvals && u.approvals[a] == t.approvals[a] { assert ActionEvolves(t.actions[a], u.actions[a]); }
    }
  }

  lemma StrictRestart(t: Tables, inputUnknown: set<nat>, lost: set<nat>, accepted: set<nat>, now: nat)
    requires Inv(t) && CancelledClosed(t)
    ensures CancelledClosed(DoRestart(t, inputUnknown, lost, accepted, now))
  {
    hide Inv, CancelledClosed, ApprovalsOk, RestartEffects, CloseEffects, RestartRun, ActionsEvolve, Unsettled,
         CancelsCleanly;
    var t1 := RestartTables(t, inputUnknown, now);
    var t2 := FailBatches(t1, lost);
    var batches := set r | r in t1.runs && r in lost && AcceptsEffects(t1.runs[r]);
    RestartTablesAdvance(t, inputUnknown, now);
    RestartRunsEvolve(t, inputUnknown, now);
    FailBatchesAdvances(t1, lost);
    GoodApprovals(t); GoodApprovals(t1);
    RestartCancelsCleanly(t, now);
    SameRows(t, RestartEffects(t, now), t1);
    ClosedStays(t, t1);
    CloseCancelsCleanly(t1, batches);
    SameRows(t1, CloseEffects(t1, batches), t2);
    ClosedStays(t1, t2);
    SameClosed(t2, DoRestart(t, inputUnknown, lost, accepted, now));
  }

  lemma GoodApprovals(t: Tables)
    requires Inv(t)
    ensures ApprovalsOk(t.actions, t.approvals)
  {
  }

  lemma SameClosed(u: Tables, v: Tables)
    requires CancelledClosed(u) && v.actions == u.actions && v.approvals == u.approvals
    ensures CancelledClosed(v)
  {
  }

  lemma StrictStep(t: Tables, c: Command)
    requires Inv(t) && StrictApprovals(t) && CancelledClosed(t) && StrictCommand(c)
    ensures StrictApprovals(Step(t, c)) && CancelledClosed(Step(t, c))
  {
    StepAdvances(t, c);
    GoodApprovals(t);
    StrictOptionsStay(t, c);
    hide Inv, CancelledClosed, StrictApprovals, CancelsCleanly, ActionsEvolve, ApprovalsOk, Strict, CanPrepare,
         DoPrepare, CanConfirm, DoConfirm, CanResolve, DoResolve, DoRestart, Abort, CanReconcileLoss, DoReconcileLoss;
    if c.Restart? { StrictRestart(t, c.inputUnknown, c.lostBatches, c.acceptedInput, c.now); }
    else { StepCancelsCleanly(t, c); ClosedStays(t, Step(t, c)); }
  }

  lemma StepCancelsCleanly(t: Tables, c: Command)
    requires Inv(t) && StrictApprovals(t) && StrictCommand(c) && !c.Restart?
    ensures CancelsCleanly(t, Step(t, c))
  {
    GoodApprovals(t);
    NothingCancelled(t, t);
    hide Inv, StrictApprovals, CancelsCleanly, ApprovalsOk, Strict, CanPrepare, DoPrepare, CanConfirm, DoConfirm,
         CanResolve, DoResolve, DoRestart, Abort, CanReconcileLoss, DoReconcileLoss, CanClaim, DoClaim, CanRecordResult,
         DoRecordResult, CanMarkDispatch, DoMarkDispatch, CanAcquire, DoAcquire, CanAcknowledge, DoAcknowledge,
         CanFailDelivery, CanRecordObserved, DoRecordObserved, CanClaimRun, AfterInputUnknown, AfterAcceptInput,
         AfterConnectionLost, AfterNetworkLost, AfterNetworkRetry;
    match c
    case Prepare(_, _, _, _, _, _, _, _, _, _, _, _, _) => if CanPrepare(t, c) { PrepareCancelsCleanly(t, c); }
    case Resolve(_, _, _, _, _, _) => if CanResolve(t, c) { ResolveCancelsCleanly(t, c); }
    case ConfirmResolved(_, _, _, _, _) => if CanConfirm(t, c) { ConfirmCancelsCleanly(t, c); }
    case AbortRun(run, final) => if run in t.runs && !Ended(t.runs[run]) && Final(final) {
      EndingCancelsCleanly(t, run, final);
    }
    case ReconcileLoss(_, _, _, _, _) => if CanReconcileLoss(t, c) { ReconcileCancelsCleanly(t, c); }
    case _ => OthersCancelCleanly(t, c);
  }

  lemma OthersCancelCleanly(t: Tables, c: Command)
    requires !c.Prepare? && !c.Restart? && !c.ReconcileLoss? && !c.Resolve? && !c.ConfirmResolved? && !c.AbortRun?
    ensures CancelsCleanly(t, Step(t, c))
  {
    if RunStep(c) { RunStepFrame(t, c); } else { OthersCancelNothing(t, c); }
    hide Step;
    NothingCancelled(t, Step(t, c));
  }

  // Only preparing adds an approval, and options never change.
  lemma StrictOptionsStay(t: Tables, c: Command)
    requires Inv(t) && StrictApprovals(t) && StrictCommand(c)
    ensures StrictApprovals(Step(t, c))
  {
    StepAdvances(t, c);
    hide Inv, Strict, CanPrepare, DoPrepare, CanConfirm, DoConfirm, CanResolve, DoResolve, DoRestart, Abort,
         CanReconcileLoss, DoReconcileLoss;
    if c.Prepare? {
      if CanPrepare(t, c) { PrepareCancelsCleanly(t, c); }
    } else {
      OnlyPrepareAsks(t, c);
      forall a | a in Step(t, c).approvals
        ensures Strict(Step(t, c).approvals[a].options)
      {
        assert ApprovalEvolves(t.approvals[a], Step(t, c).approvals[a]);
      }
    }
  }

  /** When no prepared request carries a cancel option that allows its action, a cancelled approval
      always belongs to an action that was not executed. */
  lemma {:induction false} StrictRunsCancelCleanly(t: Tables, commands: seq<Command>)
    requires Inv(t) && StrictApprovals(t) && CancelledClosed(t)
    requires forall i | 0 <= i < |commands| :: StrictCommand(commands[i])
    ensures CancelledClosed(RunAll(t, commands))
    decreases |commands|
  {
    hide Inv, StrictApprovals, CancelledClosed, Step, StrictCommand;
    if commands != [] {
      assert StrictCommand(commands[0]);
      StepAdvances(t, commands[0]);
      StrictStep(t, commands[0]);
      StrictRunsCancelCleanly(Step(t, commands[0]), commands[1..]);
    }
  }

  // Accepting an input whose delivery was unknown ----------------------------------------------------

  /** No running run has a blocker. */
  ghost predicate Quiet(t: Tables) {
    forall r | r in t.runs && t.runs[r].status.Running? :: !Blocked(t, r)
  }

  ghost predicate NoneWoken(t: Tables) { forall r :: !IsWoken(t.runs, r) }

  /** An acknowledgement leaves its run running and blocked exactly when it was so before, or is a live one that wakes
      the run and meets a blocker. */
  lemma AcceptInputIsSafeIff(t: Tables, c: Command)
    requires Inv(t) && c.AcceptInput?
    ensures IsRunning(Step(t, c).runs, c.run) && Blocked(Step(t, c), c.run) <==>
              Overrides(t, c) || (IsRunning(t.runs, c.run) && Blocked(t, c.run))
  {
    RunStepFrame(t, c);
    AcceptedRow(t, c);
    BlockersIgnoreRuns(t, Step(t, c).runs, c.run);
    hide Inv, Blocked;
  }

  /** Every state along these commands has its running runs unblocked. */
  ghost predicate AlwaysQuiet(t: Tables, commands: seq<Command>)
    decreases |commands|
  {
    Quiet(t) && (commands != [] ==> AlwaysQuiet(Step(t, commands[0]), commands[1..]))
  }

  /** No live acknowledgement along them wakes a blocked run. */
  ghost predicate Careful(t: Tables, commands: seq<Command>)
    decreases |commands|
  {
    commands != [] ==> !Overrides(t, commands[0]) && Careful(Step(t, commands[0]), commands[1..])
  }

  lemma UnwokenIsQuiet(t: Tables)
    requires Inv(t) && NoneWoken(t)
    ensures Quiet(t)
  {
    forall r | r in t.runs && t.runs[r].status.Running? ensures !Blocked(t, r) {
      assert !IsWoken(t.runs, r);
      QueuedRunIsUnblocked(t, r);
    }
  }

  lemma OverridingIsNotQuiet(t: Tables, c: Command)
    requires Overrides(t, c)
    ensures !Quiet(Step(t, c))
  {
    RunStepFrame(t, c);
    BlockersIgnoreRuns(t, Step(t, c).runs, c.run);
    hide Blocked, Step;
    assert IsRunning(Step(t, c).runs, c.run);
  }

  /** Running runs stay unblocked through a whole history exactly when no live acknowledgement in it meets a blocker. */
  lemma {:induction false} QuietIffCareful(t: Tables, commands: seq<Command>)
    requires Inv(t) && NoneWoken(t)
    ensures AlwaysQuiet(t, commands) <==> Careful(t, commands)
    decreases |commands|
  {
    UnwokenIsQuiet(t);
    hide Inv, Quiet, NoneWoken, Step, Overrides;
    if commands != [] {
      var c, u := commands[0], Step(t, commands[0]);
      if Overrides(t, c) {
        OverridingIsNotQuiet(t, c);
      } else {
        StepAdvances(t, c);
        NoneWokenStays(t, c);
        QuietIffCareful(u, commands[1..]);
      }
    }
  }

  lemma NoneWokenStays(t: Tables, c: Command)
    requires NoneWoken(t) && !Overrides(t, c)
    ensures NoneWoken(Step(t, c))
  {
    forall r ensures !IsWoken(Step(t, c).runs, r) { OnlyOverridingWakes(t, c, r); }
  }

  const INPUT_RUN := [
    NewRun(0, CoreEnforced, true, [Rule(None, AskEffect)], false),
    ClaimRun(0, 1, true),
    Prepare(0, 1, true, true, 0, 0, Mediated, 7, None, [], None, 0, 0),
    MarkInputUnknown(0, 1, true),
    AcceptInput(0, 1, true, true, true)]

  /** An input whose delivery turns out unknown while an approval is pending: its late live acknowledgement sets the run
      running over the approval. */
  lemma BlockedRunSetRunning()
    ensures var t := RunAll(EMPTY, INPUT_RUN);
            Reachable(t) && Blocked(t, 0) && 0 in t.runs && t.runs[0].status.Running? && !Careful(EMPTY, INPUT_RUN)
  {
    AskedAndPending();
    InputOverrides(Step(Step(Step(EMPTY, INPUT_RUN[0]), INPUT_RUN[1]), INPUT_RUN[2]));
    hide Step, CanPrepare, Blocked, Overrides;
    FourSteps(EMPTY, INPUT_RUN[0], INPUT_RUN[1], INPUT_RUN[2], INPUT_RUN[3]);
    assert INPUT_RUN[..4] == [INPUT_RUN[0], INPUT_RUN[1], INPUT_RUN[2], INPUT_RUN[3]];
    assert INPUT_RUN[..4] + [INPUT_RUN[4]] == INPUT_RUN;
    LastStep(EMPTY, INPUT_RUN[..4], INPUT_RUN[4]);
  }

  lemma AskedAndPending()
    ensures var t := Step(Step(Step(EMPTY, INPUT_RUN[0]), INPUT_RUN[1]), INPUT_RUN[2]);
      && 0 in t.approvals && t.approvals[0].status.Pending? && RunIs(t, 0, 0)
      && 0 in t.runs && AcceptsEffects(t.runs[0]) && t.runs[0].epoch == 1
  {
    var t1 := Step(EMPTY, INPUT_RUN[0]);
    var t2 := Step(t1, INPUT_RUN[1]);
    assert Matches(t2.runs[0].rules[0], 0) && t2.runs[0].rules[0].effect == AskEffect;
    assert Evaluate(t2.runs[0].rules, 0) == Some(Ask);
    assert CanPrepare(t2, INPUT_RUN[2]);
  }

  lemma InputOverrides(t: Tables)
    requires 0 in t.approvals && t.approvals[0].status.Pending? && RunIs(t, 0, 0)
    requires 0 in t.runs && AcceptsEffects(t.runs[0]) && t.runs[0].epoch == 1
    ensures var c, u := AcceptInput(0, 1, true, true, true), Step(t, MarkInputUnknown(0, 1, true));
            Overrides(u, c) && IsRunning(Step(u, c).runs, 0) && Blocked(Step(u, c), 0)
  {
    var c, u := AcceptInput(0, 1, true, true, true), Step(t, MarkInputUnknown(0, 1, true));
    assert RunIs(u, 0, 0) && u.approvals[0].status.Pending?;
    assert Wakes(u, c);
    RunStepFrame(u, c);
    BlockersIgnoreRuns(u, Step(u, c).runs, 0);
  }

  lemma {:induction false} LastStep(t: Tables, commands: seq<Command>, c: Command)
    ensures RunAll(t, commands + [c]) == Step(RunAll(t, commands), c)
    ensures Careful(t, commands + [c]) ==> !Overrides(RunAll(t, commands), c)
    decreases |commands|
  {
    hide Step, Overrides;
    var all := commands + [c];
    if commands == [] {
      assert all == [c] && all[1..] == [];
      assert RunAll(Step(t, c), all[1..]) == Step(t, c);
    } else {
      assert all[0] == commands[0] && all[1..] == commands[1..] + [c];
      LastStep(Step(t, commands[0]), commands[1..], c);
    }
  }
}
