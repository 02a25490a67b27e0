/** The bulk UPDATE statements of run closing, runtime loss and restart, one function each, and what a
    sequence of them adds up to. */
module ActionUpdates {
  import opened Options
  import opened ActionModel

  // close_abortive_run_effects ---------------------------------------------------------------------

  function StartedUnknown(actions: map<nat, Action>, run: nat): map<nat, Action> {
    map a | a in actions ::
      if actions[a].run == run && actions[a].status.Executing? && actions[a].dispatchStarted
      then MarkUnknown(actions[a], RunAborted) else actions[a]
  }

  function UnknownAttempts(attempts: map<nat, Attempt>, actions: map<nat, Action>, run: nat): map<nat, Attempt> {
    map x | x in attempts ::
      if attempts[x].outcome == None && RunOf(actions, attempts[x].action, run)
         && actions[attempts[x].action].status.Unknown? && actions[attempts[x].action].lastError.RunAborted?
      then attempts[x].(outcome := Some(AttemptUnknown)) else attempts[x]
  }

  predicate RunOf(actions: map<nat, Action>, id: nat, run: nat) { id in actions && actions[id].run == run }

  function UnstartedDiscarded(actions: map<nat, Action>, run: nat): map<nat, Action> {
    map a | a in actions ::
      if actions[a].run == run
        && (actions[a].status.Prepared? || (actions[a].status.Executing? && !actions[a].dispatchStarted))
      then Discard(actions[a]) else actions[a]
  }

  function PendingWithdrawn(approvals: map<nat, Approval>, actions: map<nat, Action>, run: nat): map<nat, Approval> {
    map a | a in approvals ::
      if approvals[a].status.Pending? && RunOf(actions, a, run) then Withdraw(approvals[a]) else approvals[a]
  }

  lemma ClosingUpdates(t: Tables, run: nat)
    ensures var actions := StartedUnknown(t.actions, run);
            CloseEffects(t, {run}) == Tables(t.runs, UnstartedDiscarded(actions, run),
              PendingWithdrawn(t.approvals, UnstartedDiscarded(actions, run), run),
              UnknownAttempts(t.attempts, actions, run), CloseDeliveries(t.deliveries, {run}))
  {
    ClosedActionsAgree(t.actions, run);
    ClosedAttemptsAgree(t, run);
    ClosedApprovalsAgree(t, run);
    hide CloseActions, CloseAttempts, CloseApprovals, CloseDeliveries, StartedUnknown, UnstartedDiscarded,
         PendingWithdrawn, UnknownAttempts;
  }

  lemma ClosedApprovalsAgree(t: Tables, run: nat)
    ensures CloseApprovals(t, {run})
              == PendingWithdrawn(t.approvals, UnstartedDiscarded(StartedUnknown(t.actions, run), run), run)
  {
  }

  lemma ClosedActionsAgree(actions: map<nat, Action>, run: nat)
    ensures CloseActions(actions, {run}) == UnstartedDiscarded(StartedUnknown(actions, run), run)
  {
  }

  lemma ClosedAttemptsAgree(t: Tables, run: nat)
    ensures CloseAttempts(t, {run}) == UnknownAttempts(t.attempts, StartedUnknown(t.actions, run), run)
  {
  }

  // reconcile_runtime_loss -------------------------------------------------------------------------

  function LostUnknown(actions: map<nat, Action>, run: nat, epoch: nat): map<nat, Action> {
    map a | a in actions ::
      if Lost(actions, a, run, epoch) && actions[a].mode.Intercepted?
         && actions[a].status.Executing? && actions[a].dispatchStarted
      then MarkUnknown(actions[a], RuntimeLost) else actions[a]
  }

  function LostAttemptsUnknown(attempts: map<nat, Attempt>, actions: map<nat, Action>, run: nat,
                               epoch: nat): map<nat, Attempt> {
    map x | x in attempts ::
      if attempts[x].outcome == None && Lost(actions, attempts[x].action, run, epoch)
         && actions[attempts[x].action].status.Unknown? && actions[attempts[x].action].lastError.RuntimeLost?
      then attempts[x].(outcome := Some(AttemptUnknown)) else attempts[x]
  }

  function LostDiscarded(actions: map<nat, Action>, run: nat, epoch: nat): map<nat, Action> {
    map a | a in actions ::
      if Lost(actions, a, run, epoch) && actions[a].mode.Intercepted? && actions[a].status.Prepared?
      then Discard(actions[a]) else actions[a]
  }

  function LostWithdrawn(approvals: map<nat, Approval>, actions: map<nat, Action>, run: nat,
                         epoch: nat): map<nat, Approval> {
    map a | a in approvals ::
      if approvals[a].status.Pending? && Lost(actions, a, run, epoch) && actions[a].mode.Intercepted?
      then Withdraw(approvals[a]) else approvals[a]
  }

  lemma LosingUpdates(t: Tables, run: nat, epoch: nat)
    ensures var actions := LostUnknown(t.actions, run, epoch);
            LoseEffects(t, run, epoch) == Tables(t.runs, LostDiscarded(actions, run, epoch),
              LostWithdrawn(t.approvals, LostDiscarded(actions, run, epoch), run, epoch),
              LostAttemptsUnknown(t.attempts, actions, run, epoch), LoseDeliveries(t.deliveries, run, epoch))
  {
    LostActionsAgree(t.actions, run, epoch);
    LostAttemptsAgree(t, run, epoch);
    LostApprovalsAgree(t, run, epoch);
    hide LoseActions, LoseAttempts, LoseApprovals, LoseDeliveries, LostUnknown, LostDiscarded, LostWithdrawn,
         LostAttemptsUnknown;
  }

  lemma LostApprovalsAgree(t: Tables, run: nat, epoch: nat)
    ensures LoseApprovals(t, run, epoch)
         == LostWithdrawn(t.approvals, LostDiscarded(LostUnknown(t.actions, run, epoch), run, epoch), run, epoch)
  {
  }

  lemma LostActionsAgree(actions: map<nat, Action>, run: nat, epoch: nat)
    ensures LoseActions(actions, run, epoch) == LostDiscarded(LostUnknown(actions, run, epoch), run, epoch)
  {
  }

  lemma LostAttemptsAgree(t: Tables, run: nat, epoch: nat)
    ensures LoseAttempts(t, run, epoch)
              == LostAttemptsUnknown(t.attempts, LostUnknown(t.actions, run, epoch), run, epoch)
  {
  }

  // prepare_v2_recovery ----------------------------------------------------------------------------

  function SentBack(actions: map<nat, Action>): map<nat, Action> {
    map a | a in actions ::
      if actions[a].status.Executing? && !actions[a].dispatchStarted
      then actions[a].(status := Prepared, activeAttempt := None, leaseOwner := None,
                       lastError := RestartedBeforeDispatch, version := actions[a].version + 1)
      else actions[a]
  }

  function NotDispatchedAttempts(attempts: map<nat, Attempt>, actions: map<nat, Action>): map<nat, Attempt> {
    map x | x in attempts ::
      if attempts[x].outcome == None && attempts[x].action in actions
         && actions[attempts[x].action].status.Prepared?
         && actions[attempts[x].action].lastError.RestartedBeforeDispatch?
      then attempts[x].(outcome := Some(NotDispatched)) else attempts[x]
  }

  function UnansweredDiscarded(actions: map<nat, Action>, approvals: map<nat, Approval>,
                               deliveries: map<nat, Delivery>): map<nat, Action> {
    map a | a in actions ::
      if actions[a].status.Prepared? && actions[a].mode.Intercepted? && Unanswered(approvals, deliveries, a)
      then Discard(actions[a]) else actions[a]
  }

  function InterceptedWithdrawn(approvals: map<nat, Approval>, actions: map<nat, Action>): map<nat, Approval> {
    map a | a in approvals ::
      if approvals[a].status.Pending? && a in actions && actions[a].mode.Intercepted?
      then Withdraw(approvals[a]) else approvals[a]
  }

  function RestartedUnknown(actions: map<nat, Action>): map<nat, Action> {
    map a | a in actions ::
      if actions[a].status.Executing? && actions[a].dispatchStarted
      then MarkUnknown(actions[a], RestartedAfterDispatch) else actions[a]
  }

  function RestartedAttempts(attempts: map<nat, Attempt>, actions: map<nat, Action>): map<nat, Attempt> {
    map x | x in attempts ::
      if attempts[x].outcome == None && attempts[x].action in actions
         && actions[attempts[x].action].status.Unknown? && actions[attempts[x].action].lastError.RestartedAfterDispatch?
      then attempts[x].(outcome := Some(AttemptUnknown)) else attempts[x]
  }

  function ResultsRequeued(deliveries: map<nat, Delivery>, now: nat): map<nat, Delivery> {
    map d | d in deliveries ::
      if deliveries[d].kind.ActionResult? && deliveries[d].status.Delivering?
      then deliveries[d].(status := Queued, availableAt := now, leaseOwner := None, leaseExpires := 0,
                          version := deliveries[d].version + 1)
      else deliveries[d]
  }

  function AuthorizationsClosed(deliveries: map<nat, Delivery>, actions: map<nat, Action>): map<nat, Delivery> {
    map d | d in deliveries ::
      if deliveries[d].kind.AuthorizationResolution? && Open(deliveries[d])
         && deliveries[d].action in actions && actions[deliveries[d].action].mode.Intercepted?
      then Settle(deliveries[d], SafelyClosed) else deliveries[d]
  }

  function AllRestarted(t: Tables): map<nat, Action> {
    RestartedUnknown(UnansweredDiscarded(SentBack(t.actions), t.approvals, t.deliveries))
  }

  lemma RestartUpdates(t: Tables, now: nat)
    ensures RestartEffects(t, now) == Tables(t.runs, AllRestarted(t),
              InterceptedWithdrawn(t.approvals, UnansweredDiscarded(SentBack(t.actions), t.approvals, t.deliveries)),
              RestartedAttempts(NotDispatchedAttempts(t.attempts, SentBack(t.actions)), AllRestarted(t)),
              AuthorizationsClosed(ResultsRequeued(t.deliveries, now), AllRestarted(t)))
  {
    RestartedActionsAgree(t);
    RestartedAttemptsAgree(t);
    RestartedRestAgrees(t, now);
    hide Unanswered, AllRestarted, RestartActions, RestartAttempts, RestartApprovals, RestartDeliveries,
         RestartedAttempts, InterceptedWithdrawn, AuthorizationsClosed, NotDispatchedAttempts, UnansweredDiscarded,
         SentBack, ResultsRequeued;
  }

  lemma RestartedActionsAgree(t: Tables)
    ensures RestartActions(t) == AllRestarted(t)
  {
    hide Unanswered;
  }

  lemma RestartedAttemptRow(t: Tables, x: nat)
    requires x in t.attempts
    ensures RestartedAttempts(NotDispatchedAttempts(t.attempts, SentBack(t.actions)), AllRestarted(t))[x]
              == RestartAttempts(t)[x]
  {
    RestartedActionsAgree(t);
    hide Unanswered, AllRestarted, RestartAction;
    if t.attempts[x].action in t.actions {
      var a := t.actions[t.attempts[x].action];
      assert SentBack(t.actions)[t.attempts[x].action].status.Prepared?
          <==> a.status.Prepared? || (a.status.Executing? && !a.dispatchStarted);
    }
  }

  lemma RestartedAttemptsAgree(t: Tables)
    ensures RestartAttempts(t) == RestartedAttempts(NotDispatchedAttempts(t.attempts, SentBack(t.actions)),
              AllRestarted(t))
  {
    hide RestartAttempt, AllRestarted, SentBack, Unanswered;
    forall x | x in t.attempts
      ensures RestartedAttempts(NotDispatchedAttempts(t.attempts, SentBack(t.actions)), AllRestarted(t))[x]
                == RestartAttempts(t)[x]
    {
      RestartedAttemptRow(t, x);
    }
  }

  lemma ModesStay(t: Tables)
    ensures UnansweredDiscarded(SentBack(t.actions), t.approvals, t.deliveries).Keys == t.actions.Keys
              == AllRestarted(t).Keys
    ensures forall a | a in t.actions ::
              && UnansweredDiscarded(SentBack(t.actions), t.approvals, t.deliveries)[a].mode == t.actions[a].mode
              && AllRestarted(t)[a].mode == t.actions[a].mode
  {
    hide Unanswered;
  }

  lemma RestartedRestAgrees(t: Tables, now: nat)
    ensures RestartApprovals(t)
         == InterceptedWithdrawn(t.approvals, UnansweredDiscarded(SentBack(t.actions), t.approvals, t.deliveries))
    ensures RestartDeliveries(t, now) == AuthorizationsClosed(ResultsRequeued(t.deliveries, now), AllRestarted(t))
  {
    ModesStay(t);
    hide UnansweredDiscarded, SentBack, AllRestarted, Unanswered;
  }

  // Restarting twice -------------------------------------------------------------------------------

  lemma SecondRow(a: Action, unanswered: bool, again: bool)
    requires a.mode.Intercepted? ==> !again
    ensures RestartAction(RestartAction(a, unanswered), again) == RestartAction(a, unanswered)
    ensures RestartAction(a, unanswered).mode == a.mode
  {
  }

  lemma SecondAttempt(y: Attempt, a: Action, unanswered: bool, again: bool)
    requires a.mode.Intercepted? ==> !again
    ensures var z := RestartAttempt(y, a, unanswered); RestartAttempt(z, RestartAction(a, unanswered), again) == z
  {
  }

  lemma RestartAnswersAll(t: Tables, id: nat, now: nat)
    requires id in t.actions && t.actions[id].mode.Intercepted?
    ensures !Unanswered(RestartApprovals(t), RestartDeliveries(t, now), id)
  {
  }

  lemma SecondActions(t: Tables, now: nat)
    ensures RestartActions(RestartEffects(t, now)) == RestartActions(t)
  {
    var u := RestartEffects(t, now);
    hide Unanswered, RestartAction, RestartAttempts;
    forall a | a in t.actions
      ensures RestartAction(u.actions[a], Unanswered(u.approvals, u.deliveries, a)) == u.actions[a]
    {
      if t.actions[a].mode.Intercepted? { RestartAnswersAll(t, a, now); }
      SecondRow(t.actions[a], Unanswered(t.approvals, t.deliveries, a), Unanswered(u.approvals, u.deliveries, a));
    }
  }

  lemma SecondAttemptRow(t: Tables, x: nat, now: nat)
    requires x in t.attempts
    ensures RestartAttempts(RestartEffects(t, now))[x] == RestartAttempts(t)[x]
  {
    var u, a := RestartEffects(t, now), t.attempts[x].action;
    SameAction(t, x);
    if a in t.actions {
      if t.actions[a].mode.Intercepted? { RestartAnswersAll(t, a, now); }
      SecondAttempt(t.attempts[x], t.actions[a], Unanswered(t.approvals, t.deliveries, a),
          Unanswered(u.approvals, u.deliveries, a));
    }
    hide Unanswered, RestartAction, RestartAttempt, RestartApprovals, RestartDeliveries;
  }

  /** What a restart did to the rows, a second restart at any later time leaves as it is. */
  lemma SecondRestartChangesNothing(t: Tables, now: nat, later: nat)
    ensures RestartEffects(RestartEffects(t, now), later) == RestartEffects(t, now)
  {
    SecondActions(t, now);
    SecondRest(t, now, later);
    var u := RestartEffects(t, now);
    forall x | x in t.attempts ensures RestartAttempts(u)[x] == u.attempts[x] { SecondAttemptRow(t, x, now); }
    SameKeys(t, now);
    hide RestartActions, RestartApprovals, RestartDeliveries, RestartAttempts;
  }

  lemma SameKeys(t: Tables, now: nat)
    ensures RestartAttempts(RestartEffects(t, now)).Keys == RestartAttempts(t).Keys == t.attempts.Keys
  {
    hide Unanswered, RestartAttempt;
  }

  lemma SameAction(t: Tables, x: nat)
    requires x in t.attempts
    ensures RestartAttempts(t)[x].action == t.attempts[x].action
  {
    hide Unanswered, RestartAction;
  }

  lemma SecondRest(t: Tables, now: nat, later: nat)
    ensures var u := RestartEffects(t, now);
              RestartApprovals(u) == u.approvals && RestartDeliveries(u, later) == u.deliveries
  {
    hide Unanswered, RestartAttempt;
  }

  // One run at a time ------------------------------------------------------------------------------

  lemma ClosingNothing(t: Tables)
    ensures CloseEffects(t, {}) == t
  {
  }

  /** Closing the runs of a batch one by one closes them all. */
  lemma ClosingOneMore(t: Tables, runs: map<nat, Run>, closed: set<nat>, run: nat)
    requires run !in closed
    ensures CloseEffects(CloseEffects(t, closed).(runs := runs), {run})
              == CloseEffects(t, closed + {run}).(runs := runs)
  {
    var u := CloseEffects(t, closed).(runs := runs);
    ActionsOneMore(t.actions, closed, run);
    AttemptsOneMore(t, runs, closed, run);
    assert CloseApprovals(u, {run}) == CloseApprovals(t, closed + {run}) by { ApprovalsOneMore(t, runs, closed, run); }
    assert CloseDeliveries(u.deliveries, {run}) == CloseDeliveries(t.deliveries, closed + {run});
  }

  lemma ActionsOneMore(actions: map<nat, Action>, closed: set<nat>, run: nat)
    requires run !in closed
    ensures CloseActions(CloseActions(actions, closed), {run}) == CloseActions(actions, closed + {run})
  {
  }

  lemma ApprovalsOneMore(t: Tables, runs: map<nat, Run>, closed: set<nat>, run: nat)
    requires run !in closed
    ensures CloseApprovals(CloseEffects(t, closed).(runs := runs), {run}) == CloseApprovals(t, closed + {run})
  {
    hide CloseAttempts, CloseDeliveries, CloseAction;
    RunsStay(t.actions, closed);
  }

  lemma RunsStay(actions: map<nat, Action>, closed: set<nat>)
    ensures CloseActions(actions, closed).Keys == actions.Keys
    ensures forall a | a in actions :: CloseActions(actions, closed)[a].run == actions[a].run
  {
  }

  lemma AttemptsOneMore(t: Tables, runs: map<nat, Run>, closed: set<nat>, run: nat)
    requires run !in closed
    ensures CloseAttempts(CloseEffects(t, closed).(runs := runs), {run}) == CloseAttempts(t, closed + {run})
  {
    hide CloseApprovals, CloseDeliveries, CloseAttempt;
    forall x | x in t.attempts
      ensures CloseAttempt(CloseActions(t.actions, closed), CloseAttempt(t.actions, t.attempts[x], closed), {run})
           == CloseAttempt(t.actions, t.attempts[x], closed + {run})
    {
      AttemptOneMore(t.actions, t.attempts[x], closed, run);
    }
  }

  lemma AttemptOneMore(actions: map<nat, Action>, y: Attempt, closed: set<nat>, run: nat)
    requires run !in closed
    ensures CloseAttempt(CloseActions(actions, closed), CloseAttempt(actions, y, closed), {run})
         == CloseAttempt(actions, y, closed + {run})
  {
  }
}
