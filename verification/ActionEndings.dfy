/** What an ending, a loss and a restart leave of a run, and how a run comes back. */
module ActionEndings {
  import opened Options
  import opened ActionModel
  import opened ActionInvariant
  import opened ActionHistory
  import opened ActionFrames
  import opened ActionProgress
  import opened ActionScope
  import opened ActionSteps

  // Ended -------------------------------------------------------------------------------------------

  predicate UnderWay(a: Action) { a.status.Executing? && a.dispatchStarted }

  /** What was under way is unknown from now on, what had not started is discarded, what was finished stays. */
  predicate ClosedRow(a: Action, b: Action) {
    if UnderWay(a) then b.status.Unknown? && b.lastError.RunAborted? && b.leaseOwner == None
    else if a.status.Executing? || a.status.Prepared? then b.status.NotExecuted? && b.leaseOwner == None
    else b == a
  }

  predicate WithdrawnRow(p: Approval, q: Approval) { if p.status.Pending? then q.status.Cancelled? else q == p }

  /** An open attempt of what was under way is unknown, every other attempt stays. */
  predicate ClosedAttempt(y: Attempt, z: Attempt, a: Action) {
    && (y.outcome.Some? || (a.status.Executing? && !a.dispatchStarted) ==> z == y)
    && (y.outcome.None? && UnderWay(a) ==> z == y.(outcome := Some(AttemptUnknown)))
  }

  predicate ClosedDelivery(d: Delivery, e: Delivery) {
    if Open(d) then e.status.SafelyClosed? && e.leaseOwner == None else e == d
  }

  /** Nothing of the run is left open. */
  ghost predicate Closed(t: Tables, u: Tables, run: nat) {
    && (forall a | a in t.actions && t.actions[a].run == run ::
          a in u.actions && ClosedRow(t.actions[a], u.actions[a]))
    && (forall a | a in t.approvals && RunIs(t, a, run) ::
          a in u.approvals && WithdrawnRow(t.approvals[a], u.approvals[a]))
    && (forall x | x in t.attempts && RunIs(t, t.attempts[x].action, run) ::
          x in u.attempts && ClosedAttempt(t.attempts[x], u.attempts[x], t.actions[t.attempts[x].action]))
    && (forall d | d in t.deliveries && t.deliveries[d].run == run ::
          d in u.deliveries && ClosedDelivery(t.deliveries[d], u.deliveries[d]))
  }

  predicate EndedAs(r: Run, s: Run, final: RunStatus) {
    s == r.(status := final, wait := NoWait, recoveryRequired := false, cancelRequested := true,
            version := r.version + 1)
  }

  lemma EffectsAreClosed(t: Tables, runs: set<nat>, run: nat)
    requires run in runs
    ensures Closed(t, CloseEffects(t, runs), run)
  {
  }

  lemma ClosedWithRuns(t: Tables, u: Tables, runs: map<nat, Run>, run: nat)
    requires Closed(t, u, run)
    ensures Closed(t, u.(runs := runs), run)
  {
  }

  lemma AbortCloses(t: Tables, run: nat, final: RunStatus)
    requires run in t.runs
    ensures var u := Abort(t, run, final);
            Closed(t, u, run) && run in u.runs && EndedAs(t.runs[run], u.runs[run], final)
  {
    EffectsAreClosed(t, {run}, run);
    ClosedWithRuns(t, CloseEffects(t, {run}), Abort(t, run, final).runs, run);
    hide Closed, CloseActions, CloseApprovals, CloseAttempts, CloseDeliveries;
  }

  /** A run that is interrupted ends as it was told to, and leaves nothing open; one that has ended is left alone. */
  lemma AbortedRunIsClosed(t: Tables, run: nat, final: RunStatus)
    requires run in t.runs && Final(final)
    ensures var u := Step(t, AbortRun(run, final));
      if Ended(t.runs[run]) then u == t
      else Closed(t, u, run) && run in u.runs && EndedAs(t.runs[run], u.runs[run], final)
  {
    AbortCloses(t, run, final);
    hide Closed, Abort;
  }

  // Lost --------------------------------------------------------------------------------------------

  /** Of the lost generation's intercepted actions, what was under way is unknown, what was only prepared is discarded;
      one claimed but not marked is left to its adapter. Mediated actions go on. */
  predicate LostRow(a: Action, b: Action, epoch: nat) {
    if !a.mode.Intercepted? || a.sourceEpoch != epoch then b == a
    else if UnderWay(a) then b.status.Unknown? && b.lastError.RuntimeLost? && b.leaseOwner == None
    else if a.status.Prepared? then b.status.NotExecuted? && b.leaseOwner == None
    else b == a
  }

  predicate LostApproval(p: Approval, q: Approval, a: Action, epoch: nat) {
    if a.mode.Intercepted? && a.sourceEpoch == epoch then WithdrawnRow(p, q) else q == p
  }

  /** Nobody is left to take the authorizations of that generation; results wait for the next one. */
  predicate LostDelivery(d: Delivery, e: Delivery, epoch: nat) {
    if d.kind.AuthorizationResolution? && d.targetEpoch == epoch then ClosedDelivery(d, e) else e == d
  }

  ghost predicate LostEffects(t: Tables, u: Tables, run: nat, epoch: nat) {
    && (forall a | a in t.actions && t.actions[a].run == run ::
          a in u.actions && LostRow(t.actions[a], u.actions[a], epoch))
    && (forall a | a in t.approvals && RunIs(t, a, run) ::
          a in u.approvals && LostApproval(t.approvals[a], u.approvals[a], t.actions[a], epoch))
    && (forall d | d in t.deliveries && t.deliveries[d].run == run ::
          d in u.deliveries && LostDelivery(t.deliveries[d], u.deliveries[d], epoch))
  }

  /** The run waits to be recovered; for an outcome that nobody knows before anything else. */
  predicate LostRun(t: Tables, u: Tables, run: nat) {
    && run in t.runs && run in u.runs
    && var r, s := t.runs[run], u.runs[run];
    && s == r.(status := Waiting, wait := s.wait, recoveryRequired := true, version := r.version + 1)
    && (s.wait.WaitUnknownOutcome? <==>
          (exists a | a in u.actions :: u.actions[a].run == run && u.actions[a].status.Unknown?)
          || (r.status.Waiting? && r.wait.WaitUnknownOutcome?))
    && (!s.wait.WaitUnknownOutcome? ==>
          s.wait == if r.status.Running? || r.wait in {WaitApproval, WaitExecution, WaitDelivery} then WaitRecovery
                    else r.wait)
  }

  lemma EffectsAreLost(t: Tables, run: nat, epoch: nat)
    ensures LostEffects(t, LoseEffects(t, run, epoch), run, epoch)
  {
  }

  /** Losing the runtime ends a single chat, fails a run whose input may have been executed, and leaves any other run
      to be recovered. */
  lemma LossIsReconciled(t: Tables, c: Command)
    requires c.ReconcileLoss? && CanReconcileLoss(t, c)
    ensures var r, u := t.runs[c.run], Step(t, c);
      && c.run in u.runs
      && (r.singleChat ==> Closed(t, u, c.run) && EndedAs(r, u.runs[c.run], RunCancelled))
      && (!r.singleChat && c.inputMayHaveExecuted ==> Closed(t, u, c.run) && EndedAs(r, u.runs[c.run], RunFailed))
      && (!r.singleChat && !c.inputMayHaveExecuted ==> LostEffects(t, u, c.run, c.runEpoch) && LostRun(t, u, c.run))
  {
    AbortCloses(t, c.run, RunCancelled);
    AbortCloses(t, c.run, RunFailed);
    EffectsAreLost(t, c.run, c.runEpoch);
    var lost := LoseEffects(t, c.run, c.runEpoch);
    assert lost.runs == t.runs;
    LostWithRuns(t, lost, DoReconcileLoss(t, c).runs, c.run, c.runEpoch);
    hide Closed, Abort, LoseEffects, LostEffects;
  }

  lemma LostWithRuns(t: Tables, u: Tables, runs: map<nat, Run>, run: nat, epoch: nat)
    requires LostEffects(t, u, run, epoch)
    ensures LostEffects(t, u.(runs := runs), run, epoch)
  {
  }

  // Restarted ---------------------------------------------------------------------------------------

  /** Nobody has answered the request, or the answer is still on its way. */
  ghost predicate OpenRequest(t: Tables, a: nat) {
    || Unresolved(t.approvals, a)
    || exists d ::
         DeliveryOf(t.deliveries, d, a) && t.deliveries[d].kind.AuthorizationResolution? && Open(t.deliveries[d])
  }

  /** What was under way is unknown. What was claimed but not marked can be claimed again, as what was prepared still
      can, but for requests of the lost runtimes that were still open: those are discarded. */
  predicate RestartedRow(a: Action, b: Action, open: bool) {
    if UnderWay(a) then
      b == a.(status := Unknown, lastError := RestartedAfterDispatch, leaseOwner := None, version := a.version + 1)
    else if !a.status.Executing? && !a.status.Prepared? then b == a
    else if a.mode.Intercepted? && open then b.status.NotExecuted? && b.leaseOwner == None
    else b.status.Prepared? && (a.status.Executing? ==> b.activeAttempt == None && b.leaseOwner == None)
                            && (a.status.Prepared? ==> b == a)
  }

  /** Open attempts are unknown if their dispatch was marked, and otherwise known not to have been dispatched. */
  predicate RestartedAttempt(y: Attempt, z: Attempt, a: Action) {
    && (y.outcome.Some? ==> z == y)
    && (y.outcome.None? && UnderWay(a) ==> z == y.(outcome := Some(AttemptUnknown)))
    && (y.outcome.None? && a.status.Executing? && !a.dispatchStarted ==> z == y.(outcome := Some(NotDispatched)))
  }

  /** Leased results go back into the queue; authorizations of intercepted actions, whose runtimes are gone, are
      closed. */
  predicate RestartedDelivery(d: Delivery, e: Delivery, a: Action, now: nat) {
    if d.kind.ActionResult? then
      if d.status.Delivering? then e.status.Queued? && e.availableAt == now && e.leaseOwner == None else e == d
    else if a.mode.Intercepted? then ClosedDelivery(d, e)
    else e == d
  }

  predicate RestartedApproval(p: Approval, q: Approval, a: Action) {
    if a.mode.Intercepted? then WithdrawnRow(p, q) else q == p
  }

  ghost predicate Restarted(t: Tables, u: Tables, a: nat, now: nat)
    requires a in t.actions
  {
    && a in u.actions && RestartedRow(t.actions[a], u.actions[a], OpenRequest(t, a))
    && (a in t.approvals ==> a in u.approvals && RestartedApproval(t.approvals[a], u.approvals[a], t.actions[a]))
    && (forall x :: AttemptOf(t.attempts, x, a) ==>
          x in u.attempts && RestartedAttempt(t.attempts[x], u.attempts[x], t.actions[a]))
    && (forall d :: DeliveryOf(t.deliveries, d, a) ==>
          d in u.deliveries && RestartedDelivery(t.deliveries[d], u.deliveries[d], t.actions[a], now))
  }

  lemma OpenIsUnanswered(t: Tables, a: nat)
    ensures OpenRequest(t, a) <==> Unanswered(t.approvals, t.deliveries, a)
  {
    if OpenRequest(t, a) && !Unresolved(t.approvals, a) {
      var d :| DeliveryOf(t.deliveries, d, a) && t.deliveries[d].kind.AuthorizationResolution? && Open(t.deliveries[d]);
    }
    if Unanswered(t.approvals, t.deliveries, a) && !Unresolved(t.approvals, a) {
      var d :| d in t.deliveries && t.deliveries[d].action == a && t.deliveries[d].kind.AuthorizationResolution?
               && Open(t.deliveries[d]);
      assert DeliveryOf(t.deliveries, d, a);
    }
  }

  lemma RowIsRestarted(a: Action, open: bool)
    requires RowOk(a)
    ensures RestartedRow(a, RestartAction(a, open), open)
  {
  }

  lemma AttemptIsRestarted(y: Attempt, a: Action, open: bool)
    ensures RestartedAttempt(y, RestartAttempt(y, a, open), a)
  {
  }

  lemma DeliveryIsRestarted(t: Tables, d: nat, now: nat)
    requires d in t.deliveries && t.deliveries[d].action in t.actions
    ensures RestartedDelivery(t.deliveries[d], RestartDelivery(t.actions, t.deliveries[d], now),
                              t.actions[t.deliveries[d].action], now)
  {
  }

  lemma EffectsAreRestarted(t: Tables, a: nat, now: nat)
    requires Inv(t) && a in t.actions
    ensures Restarted(t, RestartEffects(t, now), a, now)
  {
    OpenIsUnanswered(t, a);
    ActionRow(t, a);
    var open := Unanswered(t.approvals, t.deliveries, a);
    RowIsRestarted(t.actions[a], open);
    hide Inv, Unanswered, OpenRequest, RestartAction, RestartAttempt, RestartDelivery, RestartedRow, RestartedAttempt,
         RestartedDelivery;
    forall x | AttemptOf(t.attempts, x, a)
      ensures RestartedAttempt(t.attempts[x], RestartAttempts(t)[x], t.actions[a])
    {
      AttemptIsRestarted(t.attempts[x], t.actions[a], open);
    }
    forall d | DeliveryOf(t.deliveries, d, a)
      ensures RestartedDelivery(t.deliveries[d], RestartDeliveries(t, now)[d], t.actions[a], now)
    {
      DeliveryIsRestarted(t, d, now);
    }
  }

  /** An active run waits and has to be recovered: for its input or for an outcome that nobody knows, and otherwise for
      recovery, unless it waits for something that is still open, or was given up by network recovery. */
  predicate RestartedRun(r: Run, s: Run, inputUnknown: bool, unknown: bool, unsettled: bool) {
    if !Active(r) then s == r
    else
      && s == r.(status := Waiting, wait := s.wait, recoveryRequired := s.recoveryRequired, version := s.version)
      && s.version >= r.version
      && (if inputUnknown then s.wait.WaitInputUnknown?
          else if unknown then s.wait.WaitUnknownOutcome?
          else if r.status.Running? || (r.wait.WaitNetwork? && r.recoveryRequired) then s.wait.WaitRecovery?
          else if r.wait in {WaitApproval, WaitExecution, WaitDelivery} && !unsettled then s.wait.WaitRecovery?
          else s.wait == r.wait)
      && (s.recoveryRequired || (s.wait.WaitNetworkBlocked? && r.wait.WaitNetworkBlocked?))
  }

  lemma RunIsRestarted(t: Tables, run: nat, inputUnknown: bool)
    requires run in t.runs
    ensures RestartedRun(t.runs[run], RestartRun(t, run, inputUnknown), inputUnknown, HasUnknown(t, run),
                         Unsettled(t, run))
  {
    assert HasUnknown(t, run) ==> Unsettled(t, run);
    hide HasUnknown, Unsettled;
  }

  lemma RunsAreRestarted(t: Tables, inputUnknown: set<nat>, now: nat, run: nat)
    requires run in t.runs
    ensures var m := RestartTables(t, inputUnknown, now);
            && run in m.runs
            && RestartedRun(t.runs[run], m.runs[run], run in inputUnknown, HasUnknown(m, run), Unsettled(m, run))
  {
    var e, m := RestartEffects(t, now), RestartTables(t, inputUnknown, now);
    assert e.runs == t.runs && m == e.(runs := m.runs);
    RunIsRestarted(e, run, run in inputUnknown);
    hide RestartEffects, RestartRun, RestartedRun;
    UnsettledIgnoresRuns(e, m.runs, run);
  }

  lemma UnsettledIgnoresRuns(t: Tables, runs: map<nat, Run>, run: nat)
    ensures Unsettled(t.(runs := runs), run) == Unsettled(t, run)
    ensures HasUnknown(t.(runs := runs), run) == HasUnknown(t, run)
  {
  }

  lemma RowsAreRestarted(t: Tables, inputUnknown: set<nat>, now: nat, a: nat)
    requires Inv(t) && a in t.actions
    ensures Restarted(t, RestartTables(t, inputUnknown, now), a, now)
  {
    EffectsAreRestarted(t, a, now);
    hide Inv, RestartEffects, OpenRequest, RestartedRow, RestartedApproval, RestartedAttempt, RestartedDelivery,
         RestartRun;
  }

  predicate LosesBatch(t: Tables, lost: set<nat>, run: nat) {
    run in t.runs && run in lost && AcceptsEffects(t.runs[run])
  }

  lemma KeepScope(t: Tables, runs: set<nat>, a: nat)
    requires Belonging(t, a) && a in t.actions && t.actions[a].run !in runs
    ensures SameAction(t, CloseEffects(t, runs), a)
  {
    hide CloseAction;
  }

  /** A run that lost a batch fails, and leaves nothing open; the others keep what they have. */
  lemma LostBatchesFail(t: Tables, lost: set<nat>, run: nat, a: nat)
    requires Inv(t) && run in t.runs
    ensures var u := FailBatches(t, lost);
      && run in u.runs
      && (LosesBatch(t, lost, run) ==> Closed(t, u, run) && EndedAs(t.runs[run], u.runs[run], RunFailed))
      && (!LosesBatch(t, lost, run) ==> u.runs[run] == t.runs[run]
                                        && (RunIs(t, a, run) ==> SameAction(t, u, a)))
  {
    var batches := set r | r in t.runs && r in lost && AcceptsEffects(t.runs[r]);
    var closed, u := CloseEffects(t, batches), FailBatches(t, lost);
    assert u == closed.(runs := u.runs);
    if LosesBatch(t, lost, run) {
      EffectsAreClosed(t, batches, run);
      hide Inv, CloseEffects, Closed;
      ClosedWithRuns(t, closed, u.runs, run);
    } else if RunIs(t, a, run) {
      GoodTablesBelong(t, a);
      hide Inv, CloseEffects, SameAction, Belonging;
      KeepScope(t, batches, a);
      WithOtherRuns(t, closed, u.runs, a);
    }
  }

  /** Waiting for recovery with nothing left to settle. */
  predicate Idle(t: Tables, run: nat) {
    && run in t.runs && t.runs[run].status.Waiting? && t.runs[run].wait.WaitRecovery? && t.runs[run].recoveryRequired
    && !t.runs[run].cancelRequested && !Unsettled(t, run)
  }

  /** A restart: the rows of every run as after the loss of all runtimes; then a run that lost a batch fails with
      everything it had open, and so does an idle one whose input was accepted, which nobody would ever answer. */
  lemma RestartOutcome(t: Tables, c: Command, run: nat, a: nat)
    requires Inv(t) && c.Restart? && RunIs(t, a, run) && run in t.runs
    ensures var m, u := RestartTables(t, c.inputUnknown, c.now), Step(t, c);
      && Restarted(t, m, a, c.now) && run in m.runs && run in u.runs
      && RestartedRun(t.runs[run], m.runs[run], run in c.inputUnknown, HasUnknown(m, run), Unsettled(m, run))
      && (LosesBatch(m, c.lostBatches, run) ==> Closed(m, u, run) && EndedAs(m.runs[run], u.runs[run], RunFailed))
      && (!LosesBatch(m, c.lostBatches, run) ==>
            && SameAction(m, u, a)
            && if run in c.acceptedInput && run !in c.inputUnknown && Idle(u.(runs := m.runs), run)
               then EndedAs(m.runs[run], u.runs[run], RunFailed) else u.runs[run] == m.runs[run])
  {
    var m := RestartTables(t, c.inputUnknown, c.now);
    var n, u := FailBatches(m, c.lostBatches), Step(t, c);
    RowsAreRestarted(t, c.inputUnknown, c.now, a);
    RunsAreRestarted(t, c.inputUnknown, c.now, run);
    RestartTablesAdvance(t, c.inputUnknown, c.now);
    assert RunIs(m, a, run) by { RestartKeepsRunOf(t, c.inputUnknown, c.now, a); }
    LostBatchesFail(m, c.lostBatches, run, a);
    IdleRuns(n, c.acceptedInput - c.inputUnknown, run);
    assert u == FailIdle(n, c.acceptedInput - c.inputUnknown);
    hide Inv, Step, Evolves, RestartTables, FailBatches, FailIdle, Restarted, RestartedRun, Closed, SameAction,
         Unsettled, HasUnknown;
    if LosesBatch(m, c.lostBatches, run) {
      ClosedWithRuns(m, n, u.runs, run);
    } else {
      WithOtherRuns(m, n, u.runs, a);
      UnsettledIgnoresRuns(n, m.runs, run);
    }
  }

  lemma IdleRuns(t: Tables, accepted: set<nat>, run: nat)
    requires run in t.runs
    ensures var u := FailIdle(t, accepted);
      && u == t.(runs := u.runs) && run in u.runs
      && if run in accepted && Idle(t, run) then EndedAs(t.runs[run], u.runs[run], RunFailed)
         else u.runs[run] == t.runs[run]
  {
    hide Unsettled;
  }

  lemma RestartKeepsRunOf(t: Tables, inputUnknown: set<nat>, now: nat, a: nat)
    requires a in t.actions
    ensures RunIs(RestartTables(t, inputUnknown, now), a, t.actions[a].run)
  {
    hide RestartRun, Unanswered;
  }
}
