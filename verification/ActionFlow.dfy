/** The whole way of an action, command by command: it is always open, and the run goes on at its end. */
module ActionFlow {
  import opened Options
  import opened ActionModel
  import opened ActionInvariant
  import opened ActionHistory
  import opened ActionFrames
  import opened ActionOutcomes
  import opened ActionProgress
  import opened ActionExecution
  import opened ActionScope
  import opened ActionSteps

  /** Who executes, who takes the result to the runtime, and when. */
  datatype Parties = Parties(
    attempt: nat, executor: nat, claimed: nat, outcome: ResultOutcome, effect: EffectDisposition, content: nat,
    result: nat, recorded: nat, courier: nat, leased: nat, seconds: nat)

  function ClaimOf(c: Command, p: Parties): Command
    requires c.Prepare?
  {
    Claim(c.action, true, Executor, 1, p.executor, None, None, p.attempt, p.claimed)
  }

  function MarkOf(c: Command, p: Parties): Command
    requires c.Prepare?
  {
    MarkDispatch(c.action, p.attempt, 2, p.executor)
  }

  function ResultOf(c: Command, p: Parties): Command
    requires c.Prepare?
  {
    RecordResult(c.action, true, Executor, false, p.attempt, 2, p.outcome, p.effect, p.content, p.result, p.recorded)
  }

  function LeaseOf(p: Parties): Command { Acquire(p.result, true, 1, p.courier, p.seconds, p.leased) }

  function ReceiptOf(c: Command, p: Parties): Command
    requires c.Prepare?
  {
    Acknowledge(p.result, true, RecordedResult(p.outcome, p.content), c.runEpoch, p.courier)
  }

  /** Prepare, claim, mark, record, lease, acknowledge. */
  function Way(c: Command, p: Parties): seq<Command>
    requires c.Prepare?
  {
    [c, ClaimOf(c, p), MarkOf(c, p), ResultOf(c, p), LeaseOf(p), ReceiptOf(c, p)]
  }

  /** The parties act in time and order, under fresh identities, and the outcome is a settled and plausible one. */
  predicate Fitting(t: Tables, c: Command, p: Parties)
    requires c.Prepare?
  {
    && p.attempt !in t.attempts && p.result !in t.deliveries && By(c.executeBefore, p.claimed)
    && !p.outcome.ResultUnknown? && Plausible(p.outcome, p.effect) && p.recorded <= p.leased && p.seconds > 0
  }

  // Between the commands ------------------------------------------------------------------------------

  predicate RunAt(t: Tables, run: nat, epoch: nat) {
    && run in t.runs && AcceptsEffects(t.runs[run]) && t.runs[run].epoch == epoch && !t.runs[run].recoveryRequired
  }

  /** On the way: nothing of another action has changed, and the run still takes effects, in the same epoch. */
  ghost predicate Underway(t: Tables, u: Tables, c: Command)
    requires c.Prepare?
  {
    && Inv(u) && RunAt(u, c.run, c.runEpoch) && (forall b | b != c.action :: SameAction(t, u, b))
    && c.action in u.actions && u.actions[c.action].run == c.run && u.actions[c.action].mode.Mediated?
    && u.actions[c.action].policy.Allow?
  }

  predicate Starts(t: Tables, c: Command, p: Parties) {
    && c.Prepare? && CanPrepare(t, c) && c.mode.Mediated? && PolicyFor(t.runs[c.run], c) == Some(Allow)
    && !t.runs[c.run].recoveryRequired && Fitting(t, c, p)
  }

  // A command about this action keeps all that, if it keeps the run.
  lemma OneCommand(t: Tables, u: Tables, c: Command, d: Command)
    requires c.Prepare? && Underway(t, u, c) && ActionOf(u, d) == Some(c.action) && !WholeRun(d)
    requires RunAt(Step(u, d), c.run, c.runEpoch)
    ensures Underway(t, Step(u, d), c)
  {
    StepAdvances(u, d);
    forall b | b != c.action ensures SameAction(t, Step(u, d), b) {
      ActionsDoNotInterfere(u, d, b);
      SameActionComposes(t, u, Step(u, d), b);
    }
    assert ActionEvolves(u.actions[c.action], Step(u, d).actions[c.action]);
    hide Inv, Step, SameAction, RunsEvolve, ApprovalsEvolve, AttemptsEvolve, DeliveriesEvolve, FenceHolds;
  }

  lemma PreparedRow(t: Tables, c: Command)
    requires c.Prepare? && CanPrepare(t, c) && c.mode.Mediated? && PolicyFor(t.runs[c.run], c) == Some(Allow)
    ensures var u, r := Step(t, c), t.runs[c.run];
      && u == t.(actions := u.actions, runs := t.runs[c.run := r.(
           status := Waiting, wait := WaitExecution, version := r.version + 1)])
      && c.action in u.actions && u.actions[c.action].run == c.run && u.actions[c.action].mode.Mediated?
      && u.actions[c.action].policy.Allow? && u.actions[c.action].version == 1
      && AcceptsEffects(r) && r.epoch == c.runEpoch
  {
    hide Evaluate, OptionsAcceptable, SamePayloadExists;
  }

  lemma AfterPrepare(t: Tables, c: Command, p: Parties)
    requires Inv(t) && Starts(t, c, p)
    ensures var u := Step(t, c);
            Underway(t, u, c) && u.deliveries == t.deliveries && u.attempts == t.attempts && NoDelivery(u, c.action)
            && u.actions[c.action].version == 1 && CanClaim(u, ClaimOf(c, p))
  {
    var u := Step(t, c);
    PreparedRow(t, c);
    StepAdvances(t, c);
    NoDeliveryYet(t, c.action);
    AllowedIsClaimable(t, c, ClaimOf(c, p));
    forall b | b != c.action ensures SameAction(t, u, b) { ActionsDoNotInterfere(t, c, b); }
    hide Inv, Evolves, Step, SameAction, CanClaim, PolicyFor, CanPrepare;
  }

  lemma AfterClaim(t: Tables, u: Tables, c: Command, p: Parties)
    requires c.Prepare? && Underway(t, u, c) && CanClaim(u, ClaimOf(c, p)) && u.actions[c.action].version == 1
    ensures var v := Step(u, ClaimOf(c, p));
            Underway(t, v, c) && v.deliveries == u.deliveries && CanMarkDispatch(v, MarkOf(c, p))
  {
    var d := ClaimOf(c, p);
    RunIsAt(t, u, c);
    hide Inv, Underway, CanClaim, CanMarkDispatch;
    assert Step(u, d) == DoClaim(u, d);
    hide Step;
    ClaimedIsMarkable(u, d, MarkOf(c, p), ResultOf(c, p), d);
    OneCommand(t, u, c, d);
  }

  lemma AfterMark(t: Tables, u: Tables, c: Command, p: Parties)
    requires c.Prepare? && Underway(t, u, c) && CanMarkDispatch(u, MarkOf(c, p)) && p.result !in u.deliveries
    requires !p.outcome.ResultUnknown? && Plausible(p.outcome, p.effect)
    ensures var v := Step(u, MarkOf(c, p));
            Underway(t, v, c) && v.deliveries == u.deliveries && CanRecordResult(v, ResultOf(c, p))
  {
    var d := MarkOf(c, p);
    RunIsAt(t, u, c);
    hide Inv, Underway, CanMarkDispatch, CanRecordResult;
    assert Step(u, d) == DoMarkDispatch(u, d);
    hide Step;
    MarkedIsRecordable(u, d, ResultOf(c, p));
    OneCommand(t, u, c, d);
  }

  predicate Settled(u: Tables, c: Command, p: Parties)
    requires c.Prepare?
  {
    && c.action in u.actions && u.actions[c.action].status == StatusOf(p.outcome)
    && p.attempt in u.attempts && u.attempts[p.attempt].outcome == Some(OutcomeOf(p.outcome))
    && Waits(u, c.run, WaitDelivery)
    && p.result in u.deliveries && u.deliveries[p.result].run == c.run && u.deliveries[p.result].action == c.action
    && u.deliveries[p.result].payload == RecordedResult(p.outcome, p.content)
    && u.deliveries[p.result].kind.ActionResult?
    && forall d | d in u.deliveries && u.deliveries[d].action == c.action :: d == p.result
  }

  lemma ResultRun(u: Tables, d: Command)
    requires d.RecordResult? && CanRecordResult(u, d) && u.actions[d.action].mode.Mediated? && !d.outcome.ResultUnknown?
    requires AcceptsEffects(u.runs[u.actions[d.action].run])
    ensures var run := u.actions[d.action].run; var r := u.runs[run];
            Step(u, d).runs == u.runs[run := r.(status := Waiting, wait := WaitDelivery, version := r.version + 1)]
  {
    ResultRuns(u, d);
    SettledStep(u, d);
    hide Step, DoRecordResult, CanRecordResult, WithOutcome;
  }

  lemma ResultDelivery(u: Tables, d: Command)
    requires Inv(u) && d.RecordResult? && CanRecordResult(u, d) && u.actions[d.action].mode.Mediated?
    requires !d.outcome.ResultUnknown? && NoDelivery(u, d.action)
    ensures var v := Step(u, d);
            && d.delivery in v.deliveries && v.deliveries[d.delivery].run == u.actions[d.action].run
            && forall e | e in v.deliveries && v.deliveries[e].action == d.action :: e == d.delivery
  {
    var t1, a := WithOutcome(u, d), u.actions[d.action];
    var payload := RecordedResult(d.outcome, d.content);
    SettledStep(u, d);
    OutcomeBase(u, d);
    hide Inv, Step, CanRecordResult, WithOutcome;
    assert !SamePayloadExists(t1, d.action, ActionResult, payload);
    WaitingKeepsRows(
      CreateDelivery(t1, d.delivery, a.run, d.action, ActionResult, u.runs[a.run].epoch, payload, d.now),
      a.run, WaitDelivery);
    hide MarkWaiting, SamePayloadExists;
  }

  lemma AfterResult(t: Tables, u: Tables, c: Command, p: Parties)
    requires c.Prepare? && Underway(t, u, c) && CanRecordResult(u, ResultOf(c, p)) && NoDelivery(u, c.action)
    requires !p.outcome.ResultUnknown?
    ensures var v := Step(u, ResultOf(c, p));
            && Underway(t, v, c) && Settled(v, c, p)
            && OnItsWay(v, p.result, c.action, ActionResult, RecordedResult(p.outcome, p.content), p.recorded)
  {
    var d := ResultOf(c, p);
    RunIsAt(t, u, c);
    hide Inv, Underway, Step, CanRecordResult, DoRecordResult, NoDelivery, RunAll;
    SettledStep(u, d);
    ResultIsRecorded(u, d);
    ResultIsAnswered(u, d);
    ResultRun(u, d);
    ResultDelivery(u, d);
    OneCommand(t, u, c, d);
    assert Reported(DoRecordResult(u, d), c.action, p.attempt, p.outcome);
  }

  lemma LeasedStaysSettled(u: Tables, c: Command, p: Parties)
    requires c.Prepare? && Settled(u, c, p) && CanAcquire(u, LeaseOf(p))
    ensures Settled(DoAcquire(u, LeaseOf(p)), c, p) && DoAcquire(u, LeaseOf(p)).runs == u.runs
  {
    hide CanAcquire;
  }

  lemma LeaseTaken(u: Tables, c: Command, p: Parties)
    requires c.Prepare? && RunAt(u, c.run, c.runEpoch) && Settled(u, c, p) && p.recorded <= p.leased && p.seconds > 0
    requires OnItsWay(u, p.result, c.action, ActionResult, RecordedResult(p.outcome, p.content), p.recorded)
    ensures var v := Step(u, LeaseOf(p)); RunAt(v, c.run, c.runEpoch) && Settled(v, c, p)
    ensures CanAcknowledge(Step(u, LeaseOf(p)), ReceiptOf(c, p))
  {
    var d, receipt := LeaseOf(p), ReceiptOf(c, p);
    hide Step, CanAcquire, DoAcquire, CanAcknowledge, CanFailDelivery;
    OnItsWayIsLeased(u, p.result, c.action, ActionResult, RecordedResult(p.outcome, p.content), p.recorded, d);
    AcquireStep(u, d);
    LeasedStaysSettled(u, c, p);
    var failure := FailDelivery(p.result, true, RecordedResult(p.outcome, p.content), c.runEpoch, p.courier);
    HolderSettles(u, d, receipt, failure);
  }

  lemma OfThisAction(u: Tables, c: Command, p: Parties)
    requires c.Prepare? && Settled(u, c, p)
    ensures ActionOf(u, LeaseOf(p)) == Some(c.action) == ActionOf(u, ReceiptOf(c, p))
  {
  }

  lemma RunIsAt(t: Tables, u: Tables, c: Command)
    requires c.Prepare? && Underway(t, u, c)
    ensures RunAt(u, c.run, c.runEpoch) && Inv(u) && c.action in u.actions && u.actions[c.action].run == c.run
    ensures u.actions[c.action].mode.Mediated? && u.actions[c.action].policy.Allow?
  {
  }

  lemma AfterLease(t: Tables, u: Tables, c: Command, p: Parties)
    requires c.Prepare? && Underway(t, u, c) && Settled(u, c, p) && p.recorded <= p.leased && p.seconds > 0
    requires OnItsWay(u, p.result, c.action, ActionResult, RecordedResult(p.outcome, p.content), p.recorded)
    ensures Underway(t, Step(u, LeaseOf(p)), c) && Settled(Step(u, LeaseOf(p)), c, p)
    ensures CanAcknowledge(Step(u, LeaseOf(p)), ReceiptOf(c, p))
  {
    hide Inv, Step, Underway, Settled, OnItsWay, CanAcknowledge, ActionOf, RunAt, RunAll;
    RunIsAt(t, u, c);
    OfThisAction(u, c, p);
    LeaseTaken(u, c, p);
    OneCommand(t, u, c, LeaseOf(p));
  }

  // What blocks the run at the end blocked it at the start.
  lemma NothingNewBlocks(t: Tables, u: Tables, run: nat, action: nat)
    requires forall b | b != action :: SameAction(t, u, b)
    requires action !in u.approvals && (action in u.actions ==> !u.actions[action].status.Unknown?)
    requires forall d | d in u.deliveries && u.deliveries[d].action == action :: !Open(u.deliveries[d])
    ensures Blocked(u, run) ==> Blocked(t, run)
  {
    forall a | a in u.approvals && u.approvals[a].status.Pending? && RunIs(u, a, run) ensures Blocked(t, run) {
      assert SameAction(t, u, a);
      assert t.approvals[a].status.Pending? && RunIs(t, a, run);
    }
    forall a | a in u.actions && u.actions[a].run == run && u.actions[a].status.Unknown? ensures Blocked(t, run) {
      assert SameAction(t, u, a);
      assert t.actions[a].run == run && t.actions[a].status.Unknown?;
    }
    forall d | d in u.deliveries && u.deliveries[d].run == run && Open(u.deliveries[d]) ensures Blocked(t, run) {
      assert SameAction(t, u, u.deliveries[d].action) && DeliveryOf(u.deliveries, d, u.deliveries[d].action);
      assert SameRow(t.deliveries, u.deliveries, d);
      assert t.deliveries[d].run == run && Open(t.deliveries[d]);
    }
  }

  lemma AllowedIsNotAsked(u: Tables, action: nat)
    requires Inv(u) && action in u.actions && u.actions[action].policy.Allow?
    ensures action !in u.approvals
  {
    assert ApprovalsOk(u.actions, u.approvals);
    hide Inv;
  }

  lemma OthersUnchanged(t: Tables, u: Tables, c: Command, d: Command)
    requires c.Prepare? && Underway(t, u, c) && ActionOf(u, d) == Some(c.action) && !WholeRun(d)
    ensures forall b | b != c.action :: SameAction(t, Step(u, d), b)
  {
    hide Inv, Step, SameAction;
    forall b | b != c.action ensures SameAction(t, Step(u, d), b) {
      ActionsDoNotInterfere(u, d, b);
      SameActionComposes(t, u, Step(u, d), b);
    }
  }

  lemma ReceiptSettles(u: Tables, c: Command, p: Parties)
    requires c.Prepare? && RunAt(u, c.run, c.runEpoch) && Settled(u, c, p) && CanAcknowledge(u, ReceiptOf(c, p))
    requires !Blocked(Step(u, ReceiptOf(c, p)), c.run)
    ensures Completed(Step(u, ReceiptOf(c, p)), c, p)
  {
    var d := ReceiptOf(c, p);
    hide Step, CanAcknowledge, DoAcknowledge, Blocked;
    SettledStep(u, d);
    ReceiptRows(u, d);
    SettledGoesOn(u, d, c.run);
  }

  lemma AfterReceipt(t: Tables, u: Tables, c: Command, p: Parties)
    requires c.Prepare? && Underway(t, u, c) && Settled(u, c, p) && CanAcknowledge(u, ReceiptOf(c, p))
    requires !p.outcome.ResultUnknown? && !Blocked(t, c.run)
    ensures Completed(Step(u, ReceiptOf(c, p)), c, p)
  {
    var d, v := ReceiptOf(c, p), Step(u, ReceiptOf(c, p));
    hide Inv, Step, Underway, SameAction, CanAcknowledge, DoAcknowledge, Blocked, ActionOf, RunAt, RunAll;
    RunIsAt(t, u, c);
    OfThisAction(u, c, p);
    OthersUnchanged(t, u, c, d);
    AllowedIsNotAsked(u, c.action);
    SettledStep(u, d);
    ReceiptRows(u, d);
    NothingNewBlocks(t, v, c.run, c.action);
    ReceiptSettles(u, c, p);
  }

  lemma ReceiptRows(u: Tables, d: Command)
    requires d.Acknowledge? && CanAcknowledge(u, d)
    ensures var v := DoAcknowledge(u, d);
      && v.actions == u.actions && v.attempts == u.attempts && v.approvals == u.approvals
      && v.deliveries == u.deliveries[d.delivery := v.deliveries[d.delivery]] && v.deliveries[d.delivery].status.Acked?
      && v.deliveries[d.delivery].payload == u.deliveries[d.delivery].payload
      && v.deliveries[d.delivery].action == u.deliveries[d.delivery].action
  {
    ResumingKeepsRows(SetDelivery(u, d.delivery, Acked), u.deliveries[d.delivery].run);
    hide ResumeIfUnblocked, CanAcknowledge;
  }

  lemma ResumingKeepsRows(t: Tables, run: nat)
    ensures var u := ResumeIfUnblocked(t, run);
            && u.actions == t.actions && u.attempts == t.attempts && u.approvals == t.approvals
            && u.deliveries == t.deliveries
  {
    hide Blocked;
  }

  /** The outcome is recorded, delivered and acknowledged, and the run is running again. */
  predicate Completed(u: Tables, c: Command, p: Parties)
    requires c.Prepare?
  {
    && c.action in u.actions && u.actions[c.action].status == StatusOf(p.outcome)
    && p.attempt in u.attempts && u.attempts[p.attempt].outcome == Some(OutcomeOf(p.outcome))
    && p.result in u.deliveries && u.deliveries[p.result].status.Acked?
    && u.deliveries[p.result].payload == RecordedResult(p.outcome, p.content)
    && c.run in u.runs && u.runs[c.run].status.Running? && u.runs[c.run].wait.NoWait?
    && u.runs[c.run].epoch == c.runEpoch
  }

  lemma SixSteps(t: Tables, s: seq<Command>)
    requires |s| == 6
    ensures RunAll(t, s) == Step(Step(Step(Step(Step(Step(t, s[0]), s[1]), s[2]), s[3]), s[4]), s[5])
  {
    hide Step;
    RunHead(t, s);
    RunHead(Step(t, s[0]), s[1..]);
    RunHead(Step(Step(t, s[0]), s[1]), s[2..]);
    RunHead(Step(Step(Step(t, s[0]), s[1]), s[2]), s[3..]);
    RunHead(Step(Step(Step(Step(t, s[0]), s[1]), s[2]), s[3]), s[4..]);
    RunHead(Step(Step(Step(Step(Step(t, s[0]), s[1]), s[2]), s[3]), s[4]), s[5..]);
    assert s[6..] == [];
  }

  lemma RunHead(t: Tables, s: seq<Command>)
    requires s != []
    ensures RunAll(t, s) == RunAll(Step(t, s[0]), s[1..])
    ensures forall i | 1 <= i <= |s| :: s[1..][i - 1..] == s[i..]
  {
  }

  /** From every good state, a mediated action that the policy allows, in a run that nothing blocks, can be carried
      through by whoever executes it and whoever delivers its result: each command is taken in its turn, whatever the
      parties, times, outcome and content are, and at the end the outcome stands, its delivery is acknowledged and the
      run runs. */
  lemma AllowedRunsThrough(t: Tables, c: Command, p: Parties)
    requires Inv(t) && Starts(t, c, p) && !Blocked(t, c.run)
    ensures Completed(RunAll(t, Way(c, p)), c, p)
  {
    SixSteps(t, Way(c, p));
    hide Inv, Step, RunAll, Blocked, Underway, Settled, Completed, CanClaim, CanMarkDispatch, CanRecordResult,
         CanAcknowledge, OnItsWay, PolicyFor;
    AfterPrepare(t, c, p);
    var t1 := Step(t, c);
    AfterClaim(t, t1, c, p);
    var t2 := Step(t1, ClaimOf(c, p));
    AfterMark(t, t2, c, p);
    var t3 := Step(t2, MarkOf(c, p));
    NothingDelivered(t1, t3, c.action);
    AfterResult(t, t3, c, p);
    var t4 := Step(t3, ResultOf(c, p));
    AfterLease(t, t4, c, p);
    AfterReceipt(t, Step(t4, LeaseOf(p)), c, p);
  }
}
