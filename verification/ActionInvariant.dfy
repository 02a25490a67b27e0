/** The inductive invariant of the action tables, one predicate per table it speaks about. */
module ActionInvariant {
  import opened Options
  import opened ActionModel

  predicate Resulted(a: Action) { a.status.Succeeded? || a.status.Failed? || a.status.Unknown? }

  /** What each action row says on its own. */
  predicate RowOk(a: Action) {
    && (a.mode.Observed? <==> a.policy.ObservedOnly?)
    && (a.policy.Deny? ==> a.status.NotExecuted?)
    && a.epoch <= a.version
    && (a.dispatchStarted ==> a.activeAttempt.Some?)
    && (a.status.Executing? ==> a.activeAttempt.Some?)
    && (a.status.Prepared? ==> a.activeAttempt == None)
    && (a.status.NotExecuted? ==> !a.dispatchStarted)
    && (Resulted(a) ==> (a.dispatchStarted <==> !a.mode.Observed?))
    && (a.mode.Observed? ==> Resulted(a) && a.activeAttempt == None)
  }

  ghost predicate RowsOk(actions: map<nat, Action>) {
    forall a | a in actions :: RowOk(actions[a])
  }

  /** An attempt is the active one, or it is closed and unmarked for good. */
  predicate AttemptOk(x: nat, y: Attempt, a: Action) {
    && 1 <= y.number <= a.attemptCount && y.epoch <= a.epoch
    && (y.marked ==> a.activeAttempt == Some(x))
    && (y.outcome == None ==> a.activeAttempt == Some(x))
    && (a.activeAttempt == Some(x) ==>
        y.epoch == a.epoch && y.number == a.attemptCount && y.marked == a.dispatchStarted)
  }

  ghost predicate AttemptsOk(actions: map<nat, Action>, attempts: map<nat, Attempt>) {
    && (forall x | x in attempts ::
        attempts[x].action in actions && AttemptOk(x, attempts[x], actions[attempts[x].action]))
    && (forall a | a in actions && actions[a].activeAttempt.Some? ::
          actions[a].activeAttempt.value in attempts && attempts[actions[a].activeAttempt.value].action == a)
  }

  /** Attempt numbers and attempt epochs order the attempts of one action the same way. */
  ghost predicate AttemptsOrdered(attempts: map<nat, Attempt>) {
    forall x, y | x in attempts && y in attempts && attempts[x].action == attempts[y].action && x != y ::
      && attempts[x].number != attempts[y].number
      && (attempts[x].number < attempts[y].number <==> attempts[x].epoch < attempts[y].epoch)
  }

  predicate ApprovalOk(p: Approval, a: Action) {
    match p.status
    case Pending => a.status.Prepared?
    case Approved => true
    case Denied => a.status.NotExecuted?
    case Expired => a.status.NotExecuted?
    case Cancelled => a.status.NotExecuted? || a.status.Prepared?
  }

  ghost predicate ApprovalsOk(actions: map<nat, Action>, approvals: map<nat, Approval>) {
    && (forall a | a in actions :: actions[a].policy.Ask? ==> a in approvals)
    && (forall a | a in approvals :: a in actions && actions[a].policy.Ask? && ApprovalOk(approvals[a], actions[a]))
  }

  predicate Unresolved(approvals: map<nat, Approval>, a: nat) { a in approvals && approvals[a].status.Pending? }

  predicate Finished(a: Action) { a.status.Succeeded? || a.status.Failed? || a.status.NotExecuted? }

  predicate DeliveryOk(d: Delivery, a: Action, unresolved: bool) {
    && d.run == a.run
    && (d.leaseOwner.Some? <==> d.status.Delivering?)
    && (d.kind.AuthorizationResolution? ==> !unresolved)
    && (d.kind.ActionResult? ==> Finished(a))
  }

  ghost predicate DeliveriesOk(actions: map<nat, Action>, approvals: map<nat, Approval>,
                               deliveries: map<nat, Delivery>) {
    forall d | d in deliveries ::
      && deliveries[d].action in actions
      && DeliveryOk(deliveries[d], actions[deliveries[d].action], Unresolved(approvals, deliveries[d].action))
  }

  ghost predicate DeliveriesUnique(deliveries: map<nat, Delivery>) {
    forall d, e | d in deliveries && e in deliveries && d != e && deliveries[d].action == deliveries[e].action ::
      deliveries[d].kind != deliveries[e].kind
  }

  predicate HandedBy(deliveries: map<nat, Delivery>, d: nat, action: nat) {
    && d in deliveries && deliveries[d].action == action && deliveries[d].kind.AuthorizationResolution?
    && !deliveries[d].status.Queued?
  }

  ghost predicate Handed(deliveries: map<nat, Delivery>, action: nat) {
    exists d :: HandedBy(deliveries, d, action)
  }

  predicate NeedsHanding(a: Action) { a.mode.Intercepted? && (a.status.Executing? || Resulted(a)) }

  ghost predicate InterceptedHanded(actions: map<nat, Action>, deliveries: map<nat, Delivery>) {
    forall a | a in actions && NeedsHanding(actions[a]) :: Handed(deliveries, a)
  }

  predicate IsRunning(runs: map<nat, Run>, run: nat) { run in runs && runs[run].status.Running? }

  /** Running, and not since a live input acknowledgement that found it blocked. */
  predicate RunsFree(runs: map<nat, Run>, run: nat) { IsRunning(runs, run) && !runs[run].woken }

  /** A freely running run has no blocker; a queued run has no action yet. */
  ghost predicate RunsOk(runs: map<nat, Run>, actions: map<nat, Action>, approvals: map<nat, Approval>,
                         deliveries: map<nat, Delivery>)
  {
    && (forall a | a in actions ::
          && actions[a].run in runs && !runs[actions[a].run].status.RunQueued?
          && (actions[a].status.Unknown? || Unresolved(approvals, a) ==> !RunsFree(runs, actions[a].run)))
    && (forall d | d in deliveries && Open(deliveries[d]) :: !RunsFree(runs, deliveries[d].run))
  }

  ghost predicate Inv(t: Tables) {
    && RowsOk(t.actions) && AttemptsOk(t.actions, t.attempts) && AttemptsOrdered(t.attempts)
    && ApprovalsOk(t.actions, t.approvals)
    && DeliveriesOk(t.actions, t.approvals, t.deliveries) && DeliveriesUnique(t.deliveries)
    && InterceptedHanded(t.actions, t.deliveries)
    && RunsOk(t.runs, t.actions, t.approvals, t.deliveries)
  }

  // Row updates ------------------------------------------------------------------------------------

  lemma RunRowKeepsInv(t: Tables, run: nat, r: Run)
    requires Inv(t)
    requires r.status.Running? && !r.woken ==> !Blocked(t, run)
    requires r.status.RunQueued? ==> run !in t.runs || t.runs[run].status.RunQueued?
    ensures Inv(t.(runs := t.runs[run := r]))
  {
    var runs := t.runs[run := r];
    forall a | a in t.actions
      ensures t.actions[a].run in runs && !runs[t.actions[a].run].status.RunQueued?
      ensures t.actions[a].status.Unknown? || Unresolved(t.approvals, a) ==> !RunsFree(runs, t.actions[a].run)
    {
      if t.actions[a].run == run && Unresolved(t.approvals, a) { assert RunIs(t, a, run); }
    }
  }

  lemma DeliveryRowKeepsInv(t: Tables, id: nat, d: Delivery)
    requires Inv(t) && id in t.deliveries
    requires d.(status := t.deliveries[id].status, leaseOwner := t.deliveries[id].leaseOwner,
                leaseExpires := t.deliveries[id].leaseExpires, version := t.deliveries[id].version) == t.deliveries[id]
    requires d.leaseOwner.Some? <==> d.status.Delivering?
    requires Open(d) ==> Open(t.deliveries[id])
    requires d.status.Queued? ==> t.deliveries[id].status.Queued?
    ensures Inv(t.(deliveries := t.deliveries[id := d]))
  {
    var deliveries := t.deliveries[id := d];
    HandingSurvives(t.actions, t.deliveries, deliveries);
  }

  lemma HandingSurvives(actions: map<nat, Action>, before: map<nat, Delivery>, after: map<nat, Delivery>)
    requires InterceptedHanded(actions, before)
    requires forall d | d in before ::
      && d in after && after[d].action == before[d].action && after[d].kind == before[d].kind
      && (after[d].status.Queued? && after[d].kind.AuthorizationResolution? ==> before[d].status.Queued?)
    ensures InterceptedHanded(actions, after)
  {
    forall a | a in actions && NeedsHanding(actions[a])
      ensures Handed(after, a)
    {
      var d :| HandedBy(before, d, a);
      assert HandedBy(after, d, a);
    }
  }

  ghost predicate Undelivered(t: Tables, action: nat, kind: DeliveryKind) {
    forall d | d in t.deliveries :: t.deliveries[d].action == action ==> t.deliveries[d].kind != kind
  }

  lemma CreateDeliveryKeepsInv(t: Tables, id: nat, run: nat, action: nat, kind: DeliveryKind,
                               epoch: nat, payload: Payload, now: nat)
    requires Inv(t) && id !in t.deliveries && RunIs(t, action, run) && !RunsFree(t.runs, run)
    requires Undelivered(t, action, kind)
    requires kind.AuthorizationResolution? ==> !Unresolved(t.approvals, action)
    requires kind.ActionResult? ==> Finished(t.actions[action])
    ensures Inv(CreateDelivery(t, id, run, action, kind, epoch, payload, now))
  {
    if !SamePayloadExists(t, action, kind, payload) {
      var t' := CreateDelivery(t, id, run, action, kind, epoch, payload, now);
      HandingSurvives(t.actions, t.deliveries, t'.deliveries);
    }
  }

  // Changing many action rows at once -------------------------------------------------------------

  predicate SameDispatch(a: Action, b: Action) {
    && b.activeAttempt == a.activeAttempt && b.attemptCount == a.attemptCount && b.epoch == a.epoch
    && b.dispatchStarted == a.dispatchStarted
  }

  lemma AttemptsSurvive(before: map<nat, Action>, after: map<nat, Action>, attempts: map<nat, Attempt>)
    requires AttemptsOk(before, attempts)
    requires forall a | a in before :: a in after && SameDispatch(before[a], after[a])
    requires forall a | a in after && a !in before :: after[a].activeAttempt == None
    ensures AttemptsOk(after, attempts)
  {
  }

  lemma DeliveriesSurvive(actions: map<nat, Action>, approvals: map<nat, Approval>, deliveries: map<nat, Delivery>,
                          actions': map<nat, Action>, approvals': map<nat, Approval>)
    requires DeliveriesOk(actions, approvals, deliveries)
    requires forall a | a in actions ::
      && a in actions' && actions'[a].run == actions[a].run
      && (Finished(actions[a]) ==> Finished(actions'[a]))
      && (Unresolved(approvals', a) ==> Unresolved(approvals, a))
    ensures DeliveriesOk(actions', approvals', deliveries)
  {
  }

  /** No row newly needs an authorization that was handed over. */
  lemma NoNewHanding(before: map<nat, Action>, after: map<nat, Action>, deliveries: map<nat, Delivery>)
    requires InterceptedHanded(before, deliveries)
    requires forall a | a in after && NeedsHanding(after[a]) :: a in before && NeedsHanding(before[a])
    ensures InterceptedHanded(after, deliveries)
  {
  }

  lemma RowAfter(actions: map<nat, Action>, id: nat, a: Action)
    requires RowsOk(actions) && RowOk(a)
    ensures RowsOk(actions[id := a])
  {
  }

  lemma ApprovalsAfter(actions: map<nat, Action>, approvals: map<nat, Approval>, id: nat, a: Action, p: Approval)
    requires ApprovalsOk(actions, approvals) && a.policy.Ask? && ApprovalOk(p, a)
    ensures ApprovalsOk(actions[id := a], approvals[id := p])
  {
  }

  lemma ApprovalsKept(actions: map<nat, Action>, approvals: map<nat, Approval>, id: nat, a: Action)
    requires ApprovalsOk(actions, approvals) && id in actions && a.policy == actions[id].policy
    requires id in approvals ==> ApprovalOk(approvals[id], a)
    ensures ApprovalsOk(actions[id := a], approvals)
  {
  }

  lemma RunsAfter(runs: map<nat, Run>, actions: map<nat, Action>, approvals: map<nat, Approval>,
                  deliveries: map<nat, Delivery>, id: nat, a: Action, approvals': map<nat, Approval>)
    requires RunsOk(runs, actions, approvals, deliveries)
    requires a.run in runs && !runs[a.run].status.RunQueued?
    requires a.status.Unknown? || Unresolved(approvals', id) ==> !RunsFree(runs, a.run)
    requires forall b | b in actions && b != id :: Unresolved(approvals', b) ==> Unresolved(approvals, b)
    ensures RunsOk(runs, actions[id := a], approvals', deliveries)
  {
  }

  lemma AddActionKeepsInv(t: Tables, id: nat, a: Action)
    requires Inv(t) && id !in t.actions && RowOk(a) && a.activeAttempt == None && !a.policy.Ask?
    requires a.run in t.runs && !t.runs[a.run].status.RunQueued? && !NeedsHanding(a)
    requires a.status.Unknown? ==> !RunsFree(t.runs, a.run)
    ensures Inv(t.(actions := t.actions[id := a]))
  {
    var actions := t.actions[id := a];
    AttemptsSurvive(t.actions, actions, t.attempts);
    DeliveriesSurvive(t.actions, t.approvals, t.deliveries, actions, t.approvals);
    NoNewHanding(t.actions, actions, t.deliveries);
  }

  lemma AddAskedActionKeepsInv(t: Tables, id: nat, a: Action, p: Approval)
    requires Inv(t) && id !in t.actions && RowOk(a) && a.activeAttempt == None && a.policy.Ask?
    requires a.run in t.runs && !t.runs[a.run].status.RunQueued? && a.status.Prepared?
    requires p.status.Pending? && !RunsFree(t.runs, a.run)
    ensures Inv(t.(actions := t.actions[id := a], approvals := t.approvals[id := p]))
  {
    var actions, approvals := t.actions[id := a], t.approvals[id := p];
    AttemptsSurvive(t.actions, actions, t.attempts);
    DeliveriesSurvive(t.actions, t.approvals, t.deliveries, actions, approvals);
    NoNewHanding(t.actions, actions, t.deliveries);
  }

  lemma ResolutionRow(t: Tables, id: nat, a: Action)
    requires Inv(t) && id in t.actions && id in t.approvals && t.actions[id].status.Prepared?
    requires a == t.actions[id] || a == t.actions[id].(status := NotExecuted, version := t.actions[id].version + 1)
    ensures RowOk(a) && SameDispatch(t.actions[id], a) && a.policy.Ask?
    ensures a.run == t.actions[id].run && a.run in t.runs && !t.runs[a.run].status.RunQueued?
    ensures Unresolved(t.approvals, id) ==> !RunsFree(t.runs, a.run)
  {
    ActionRow(t, id);
  }

  /** A resolved approval and its action's row, changed together. */
  lemma ResolutionKeepsInv(t: Tables, id: nat, a: Action, p: Approval)
    requires Inv(t) && id in t.actions && id in t.approvals && t.actions[id].status.Prepared?
    requires a == t.actions[id] || a == t.actions[id].(status := NotExecuted, version := t.actions[id].version + 1)
    requires p.status.Pending? ==> p == t.approvals[id] && a == t.actions[id]
    requires ApprovalOk(p, a)
    ensures Inv(t.(actions := t.actions[id := a], approvals := t.approvals[id := p]))
  {
    ResolutionRow(t, id, a);
    hide RowOk, RowsOk, AttemptsOk, AttemptsOrdered, ApprovalsOk, DeliveriesOk, DeliveriesUnique, InterceptedHanded,
         RunsOk, ApprovalOk;
    var actions, approvals := t.actions[id := a], t.approvals[id := p];
    RowAfter(t.actions, id, a);
    ApprovalsAfter(t.actions, t.approvals, id, a, p);
    AttemptsSurvive(t.actions, actions, t.attempts);
    DeliveriesSurvive(t.actions, t.approvals, t.deliveries, actions, approvals);
    NoNewHanding(t.actions, actions, t.deliveries);
    RunsAfter(t.runs, t.actions, t.approvals, t.deliveries, id, a, approvals);
  }

  lemma DiscardKeepsInv(t: Tables, id: nat)
    requires Inv(t) && id in t.actions && t.actions[id].status.Prepared? && !Unresolved(t.approvals, id)
    requires id in t.approvals ==> ApprovalOk(t.approvals[id], t.actions[id].(status := NotExecuted))
    ensures Inv(SetNotExecuted(t, id))
  {
    var a := SetNotExecuted(t, id).actions[id];
    ActionRow(t, id);
    assert RowOk(a) && SameDispatch(t.actions[id], a) && (id in t.approvals ==> ApprovalOk(t.approvals[id], a));
    assert t.actions[id].run in t.runs && !t.runs[t.actions[id].run].status.RunQueued?;
    hide RowOk, RowsOk, AttemptsOk, AttemptsOrdered, ApprovalsOk, DeliveriesOk, DeliveriesUnique, InterceptedHanded,
         RunsOk, ApprovalOk;
    var actions := t.actions[id := a];
    RowAfter(t.actions, id, a);
    ApprovalsKept(t.actions, t.approvals, id, a);
    AttemptsSurvive(t.actions, actions, t.attempts);
    DeliveriesSurvive(t.actions, t.approvals, t.deliveries, actions, t.approvals);
    NoNewHanding(t.actions, actions, t.deliveries);
    RunsAfter(t.runs, t.actions, t.approvals, t.deliveries, id, a, t.approvals);
  }

  // What the invariant says about one row ----------------------------------------------------------

  lemma FreshAction(t: Tables, id: nat)
    requires Inv(t) && id !in t.actions
    ensures id !in t.approvals
    ensures Undelivered(t, id, AuthorizationResolution) && Undelivered(t, id, ActionResult)
  {
  }

  lemma ActiveAttempt(t: Tables, id: nat)
    requires Inv(t) && id in t.actions && t.actions[id].activeAttempt.Some?
    ensures var x := t.actions[id].activeAttempt.value;
            x in t.attempts && t.attempts[x].action == id && t.attempts[x].epoch == t.actions[id].epoch
            && t.attempts[x].marked == t.actions[id].dispatchStarted
  {
    assert AttemptOk(t.actions[id].activeAttempt.value, t.attempts[t.actions[id].activeAttempt.value], t.actions[id]);
  }

  lemma UnfinishedAction(t: Tables, id: nat)
    requires Inv(t) && id in t.actions && !Finished(t.actions[id])
    ensures Undelivered(t, id, ActionResult)
  {
  }

  lemma UnresolvedAction(t: Tables, id: nat)
    requires Inv(t) && Unresolved(t.approvals, id)
    ensures id in t.actions && t.actions[id].status.Prepared? && t.actions[id].policy.Ask?
    ensures Undelivered(t, id, AuthorizationResolution) && Undelivered(t, id, ActionResult)
    ensures !RunsFree(t.runs, t.actions[id].run)
  {
    assert ApprovalOk(t.approvals[id], t.actions[id]);
  }

  /** Action and attempt rows change while runs, approvals and deliveries stay. */
  lemma ActionAndAttemptKeepInv(t: Tables, actions: map<nat, Action>, attempts: map<nat, Attempt>, id: nat)
    requires Inv(t) && id in t.actions && id in actions && actions == t.actions[id := actions[id]]
    requires AttemptsOk(actions, attempts) && AttemptsOrdered(attempts)
    requires RowOk(actions[id]) && actions[id].run == t.actions[id].run && actions[id].policy == t.actions[id].policy
    requires id in t.approvals ==> ApprovalOk(t.approvals[id], actions[id]) && !Unresolved(t.approvals, id)
    requires Finished(t.actions[id]) ==> Finished(actions[id])
    requires actions[id].status.Unknown? ==> !RunsFree(t.runs, actions[id].run)
    requires NeedsHanding(actions[id]) ==> NeedsHanding(t.actions[id]) || Handed(t.deliveries, id)
    ensures Inv(t.(actions := actions, attempts := attempts))
  {
    assert t.actions[id].run in t.runs && !t.runs[t.actions[id].run].status.RunQueued?;
    hide RowOk, RowsOk, AttemptsOk, AttemptsOrdered, ApprovalsOk, DeliveriesOk, DeliveriesUnique, RunsOk, ApprovalOk;
    RowAfter(t.actions, id, actions[id]);
    ApprovalsKept(t.actions, t.approvals, id, actions[id]);
    DeliveriesSurvive(t.actions, t.approvals, t.deliveries, actions, t.approvals);
    RunsAfter(t.runs, t.actions, t.approvals, t.deliveries, id, actions[id], t.approvals);
  }

  lemma AskedIsApproved(t: Tables, id: nat)
    requires Inv(t) && id in t.approvals && id in t.actions
    ensures (t.actions[id].status.Executing? || Resulted(t.actions[id])) ==> t.approvals[id].status.Approved?
  {
    assert ApprovalOk(t.approvals[id], t.actions[id]);
  }

  lemma ActionRow(t: Tables, id: nat)
    requires Inv(t) && id in t.actions
    ensures RowOk(t.actions[id])
    ensures id in t.approvals <==> t.actions[id].policy.Ask?
  {
  }

  lemma NewAttemptIsOrdered(t: Tables, c: Command)
    requires Inv(t) && c.Claim? && CanClaim(t, c)
    ensures AttemptsOrdered(DoClaim(t, c).attempts)
  {
    AttemptTables(t);
    ActionRow(t, c.action);
    hide Inv, CanClaim;
    var a, after := t.actions[c.action], DoClaim(t, c).attempts;
    forall x | x in t.attempts && t.attempts[x].action == c.action
      ensures t.attempts[x].number < after[c.attempt].number && t.attempts[x].epoch < after[c.attempt].epoch
    {
      assert AttemptOk(x, t.attempts[x], a);
    }
  }

  lemma NewAttemptFits(t: Tables, c: Command)
    requires Inv(t) && c.Claim? && CanClaim(t, c)
    ensures AttemptsOk(DoClaim(t, c).actions, DoClaim(t, c).attempts) && AttemptsOrdered(DoClaim(t, c).attempts)
  {
    NewAttemptIsOrdered(t, c);
    AttemptTables(t);
    ActionRow(t, c.action);
    hide Inv, CanClaim, AttemptsOrdered;
    var t' := DoClaim(t, c);
    forall x | x in t'.attempts
      ensures t'.attempts[x].action in t'.actions && AttemptOk(x, t'.attempts[x], t'.actions[t'.attempts[x].action])
    {
      if x in t.attempts { assert AttemptOk(x, t.attempts[x], t.actions[t.attempts[x].action]); }
    }
  }

  lemma AttemptTables(t: Tables)
    requires Inv(t)
    ensures AttemptsOk(t.actions, t.attempts) && AttemptsOrdered(t.attempts)
  {
  }

  /** The active attempt and its action change together. */
  lemma AttemptRowFits(actions: map<nat, Action>, attempts: map<nat, Attempt>, id: nat, a: Action, attempt: nat,
                       x: Attempt)
    requires AttemptsOk(actions, attempts) && AttemptsOrdered(attempts)
    requires id in actions && actions[id].activeAttempt == Some(attempt)
    requires a == actions[id].(status := a.status, leaseOwner := a.leaseOwner, version := a.version,
               dispatchStarted := a.dispatchStarted)
    requires x == attempts[attempt].(marked := x.marked, outcome := x.outcome) && x.marked == a.dispatchStarted
    ensures AttemptsOk(actions[id := a], attempts[attempt := x]) && AttemptsOrdered(attempts[attempt := x])
  {
    var actions', attempts' := actions[id := a], attempts[attempt := x];
    forall y | y in attempts'
      ensures attempts'[y].action in actions' && AttemptOk(y, attempts'[y], actions'[attempts'[y].action])
    {
      assert AttemptOk(y, attempts[y], actions[attempts[y].action]);
    }
  }

  // Commands that change many rows -----------------------------------------------------------------

  lemma RunRowsKeepInv(t: Tables, runs: map<nat, Run>)
    requires Inv(t) && t.runs.Keys <= runs.Keys
    requires forall r | r in runs :: RunsFree(runs, r) ==> RunsFree(t.runs, r)
    requires forall r | r in t.runs :: runs[r].status.RunQueued? ==> t.runs[r].status.RunQueued?
    ensures Inv(t.(runs := runs))
  {
  }

  /** What a bulk update may do to one action row. */
  predicate Moves(a: Action, b: Action) {
    && b.run == a.run && b.mode == a.mode && b.policy == a.policy && RowOk(b)
    && (Finished(a) ==> b == a) && (NeedsHanding(b) ==> NeedsHanding(a))
  }

  predicate Settles(d: Delivery, e: Delivery) {
    && e == d.(status := e.status, availableAt := e.availableAt, leaseOwner := e.leaseOwner,
               leaseExpires := e.leaseExpires, version := e.version)
    && (e == d || (Open(d) && !e.status.Delivering? && e.leaseOwner == None))
    && (e.kind.AuthorizationResolution? && e.status.Queued? ==> d.status.Queued?)
  }

  ghost predicate RowsMove(t: Tables, u: Tables) {
    && u.actions.Keys == t.actions.Keys
    && (forall a | a in t.actions :: Moves(t.actions[a], u.actions[a]))
    && (forall a | a in t.actions :: u.actions[a].status.Unknown? ==> !RunsFree(t.runs, t.actions[a].run))
  }

  ghost predicate ApprovalsMove(t: Tables, u: Tables) {
    && u.approvals.Keys == t.approvals.Keys
    && (forall a | a in u.approvals && a in u.actions :: ApprovalOk(u.approvals[a], u.actions[a]))
    && (forall a | a in u.approvals :: Unresolved(u.approvals, a) ==> Unresolved(t.approvals, a))
  }

  ghost predicate DeliveriesSettle(t: Tables, u: Tables) {
    && u.deliveries.Keys == t.deliveries.Keys
    && (forall d | d in t.deliveries :: Settles(t.deliveries[d], u.deliveries[d]))
  }

  lemma BulkKeepsInv(t: Tables, u: Tables)
    requires Inv(t) && u.runs == t.runs
    requires RowsMove(t, u) && ApprovalsMove(t, u) && DeliveriesSettle(t, u)
    requires AttemptsOk(u.actions, u.attempts) && AttemptsOrdered(u.attempts)
    ensures Inv(u)
  {
    BulkDeliveries(t, u);
    HandingSurvives(t.actions, t.deliveries, u.deliveries);
    NoNewHanding(t.actions, u.actions, u.deliveries);
  }

  lemma BulkDeliveries(t: Tables, u: Tables)
    requires Inv(t) && RowsMove(t, u) && ApprovalsMove(t, u) && DeliveriesSettle(t, u)
    ensures DeliveriesOk(u.actions, u.approvals, u.deliveries) && DeliveriesUnique(u.deliveries)
  {
    forall d | d in u.deliveries
      ensures u.deliveries[d].action in u.actions
      ensures DeliveryOk(u.deliveries[d], u.actions[u.deliveries[d].action],
                Unresolved(u.approvals, u.deliveries[d].action))
    {
      var e := t.deliveries[d];
      assert DeliveryOk(e, t.actions[e.action], Unresolved(t.approvals, e.action));
      assert Moves(t.actions[e.action], u.actions[e.action]);
    }
  }

  /** Rows that keep their attempt columns keep their attempts, whatever outcomes are filled in. */
  lemma OutcomesFit(actions: map<nat, Action>, attempts: map<nat, Attempt>, actions': map<nat, Action>,
                    attempts': map<nat, Attempt>)
    requires AttemptsOk(actions, attempts) && AttemptsOrdered(attempts)
    requires actions'.Keys == actions.Keys && attempts'.Keys == attempts.Keys
    requires forall x | x in attempts :: attempts'[x] == attempts[x].(outcome := attempts'[x].outcome)
    requires forall x | x in attempts :: attempts'[x].outcome == None ==> attempts[x].outcome == None
    requires forall a | a in actions :: SameDispatch(actions[a], actions'[a])
    ensures AttemptsOk(actions', attempts') && AttemptsOrdered(attempts')
  {
    forall x | x in attempts'
      ensures attempts'[x].action in actions' && AttemptOk(x, attempts'[x], actions'[attempts'[x].action])
    {
      assert AttemptOk(x, attempts[x], actions[attempts[x].action]);
    }
  }

  lemma ClosedRows(t: Tables, runs: set<nat>)
    requires Inv(t) && forall r | r in runs :: !RunsFree(t.runs, r)
    ensures RowsMove(t, CloseEffects(t, runs))
  {
    assert RowsOk(t.actions) && RunsOk(t.runs, t.actions, t.approvals, t.deliveries);
    hide Inv;
    forall a | a in t.actions
      ensures Moves(t.actions[a], CloseEffects(t, runs).actions[a])
    {
      assert RowOk(t.actions[a]);
    }
  }

  lemma ClosedApprovals(t: Tables, runs: set<nat>)
    requires Inv(t)
    ensures ApprovalsMove(t, CloseEffects(t, runs))
  {
    assert ApprovalsOk(t.actions, t.approvals);
    hide Inv;
    var u := CloseEffects(t, runs);
    forall a | a in u.approvals && a in u.actions
      ensures ApprovalOk(u.approvals[a], u.actions[a])
    {
      assert ApprovalOk(t.approvals[a], t.actions[a]);
    }
  }

  lemma ClosedDispatch(a: Action)
    ensures SameDispatch(a, CloseAction(a)) && SameDispatch(a, a)
  {
  }

  lemma ClosedAttemptRow(actions: map<nat, Action>, y: Attempt, runs: set<nat>)
    ensures CloseAttempt(actions, y, runs).(outcome := y.outcome) == y
    ensures y.outcome.Some? ==> CloseAttempt(actions, y, runs) == y
  {
  }

  lemma ClosedAttempts(t: Tables, runs: set<nat>)
    requires Inv(t)
    ensures AttemptsOk(CloseEffects(t, runs).actions, CloseEffects(t, runs).attempts)
    ensures AttemptsOrdered(CloseEffects(t, runs).attempts)
  {
    AttemptTables(t);
    hide Inv, AttemptsOk, AttemptsOrdered, CloseApprovals, CloseDeliveries, CloseAction, CloseAttempt, SameDispatch;
    forall x | x in t.attempts
      ensures CloseAttempts(t, runs)[x].(outcome := t.attempts[x].outcome) == t.attempts[x]
      ensures t.attempts[x].outcome.Some? ==> CloseAttempts(t, runs)[x] == t.attempts[x]
    {
      ClosedAttemptRow(t.actions, t.attempts[x], runs);
    }
    forall a | a in t.actions
      ensures SameDispatch(t.actions[a], CloseActions(t.actions, runs)[a])
    {
      ClosedDispatch(t.actions[a]);
    }
    OutcomesFit(t.actions, t.attempts, CloseActions(t.actions, runs), CloseAttempts(t, runs));
  }

  lemma ClosedDeliveries(t: Tables, runs: set<nat>)
    ensures DeliveriesSettle(t, CloseEffects(t, runs))
  {
  }

  lemma CloseEffectsKeepsInv(t: Tables, runs: set<nat>)
    requires Inv(t) && forall r | r in runs :: !RunsFree(t.runs, r)
    ensures Inv(CloseEffects(t, runs))
  {
    hide Inv, RowsMove, ApprovalsMove, DeliveriesSettle, AttemptsOk, AttemptsOrdered, RunsFree;
    ClosedDeliveries(t, runs);
    ClosedRows(t, runs);
    ClosedApprovals(t, runs);
    ClosedAttempts(t, runs);
    BulkKeepsInv(t, CloseEffects(t, runs));
  }

  lemma LostRows(t: Tables, run: nat, epoch: nat)
    requires Inv(t) && !RunsFree(t.runs, run)
    ensures RowsMove(t, LoseEffects(t, run, epoch))
  {
    assert RowsOk(t.actions) && RunsOk(t.runs, t.actions, t.approvals, t.deliveries);
    hide Inv;
    forall a | a in t.actions
      ensures Moves(t.actions[a], LoseEffects(t, run, epoch).actions[a])
    {
      assert RowOk(t.actions[a]);
    }
  }

  lemma LostApproval(p: Approval, a: Action, run: nat, epoch: nat)
    requires ApprovalOk(p, a)
    ensures ApprovalOk(p, LoseAction(a, run, epoch))
              || (p.status.Pending? && a.run == run && a.sourceEpoch == epoch && a.mode.Intercepted?)
    ensures p.status.Pending? ==> ApprovalOk(Withdraw(p), LoseAction(a, run, epoch))
  {
  }

  lemma LostApprovals(t: Tables, run: nat, epoch: nat)
    requires Inv(t)
    ensures ApprovalsMove(t, LoseEffects(t, run, epoch))
  {
    assert ApprovalsOk(t.actions, t.approvals);
    hide Inv, ApprovalOk, LoseAction;
    var u := LoseEffects(t, run, epoch);
    forall a | a in u.approvals && a in u.actions
      ensures ApprovalOk(u.approvals[a], u.actions[a])
    {
      assert ApprovalOk(t.approvals[a], t.actions[a]);
      LostApproval(t.approvals[a], t.actions[a], run, epoch);
    }
  }

  lemma LostDispatch(a: Action, run: nat, epoch: nat)
    ensures SameDispatch(a, LoseAction(a, run, epoch))
  {
  }

  lemma LostAttemptRow(actions: map<nat, Action>, y: Attempt, run: nat, epoch: nat)
    ensures LoseAttempt(actions, y, run, epoch).(outcome := y.outcome) == y
    ensures y.outcome.Some? ==> LoseAttempt(actions, y, run, epoch) == y
  {
  }

  lemma LostAttempts(t: Tables, run: nat, epoch: nat)
    requires Inv(t)
    ensures AttemptsOk(LoseEffects(t, run, epoch).actions, LoseEffects(t, run, epoch).attempts)
    ensures AttemptsOrdered(LoseEffects(t, run, epoch).attempts)
  {
    AttemptTables(t);
    hide Inv, AttemptsOk, AttemptsOrdered, LoseApprovals, LoseDeliveries, LoseAction, LoseAttempt, SameDispatch;
    forall x | x in t.attempts
      ensures LoseAttempts(t, run, epoch)[x].(outcome := t.attempts[x].outcome) == t.attempts[x]
      ensures t.attempts[x].outcome.Some? ==> LoseAttempts(t, run, epoch)[x] == t.attempts[x]
    {
      LostAttemptRow(t.actions, t.attempts[x], run, epoch);
    }
    forall a | a in t.actions
      ensures SameDispatch(t.actions[a], LoseActions(t.actions, run, epoch)[a])
    {
      LostDispatch(t.actions[a], run, epoch);
    }
    OutcomesFit(t.actions, t.attempts, LoseActions(t.actions, run, epoch), LoseAttempts(t, run, epoch));
  }

  lemma LostDeliveries(t: Tables, run: nat, epoch: nat)
    ensures DeliveriesSettle(t, LoseEffects(t, run, epoch))
  {
  }

  lemma LoseEffectsKeepsInv(t: Tables, run: nat, epoch: nat)
    requires Inv(t) && !RunsFree(t.runs, run)
    ensures Inv(LoseEffects(t, run, epoch))
  {
    hide Inv, RowsMove, ApprovalsMove, DeliveriesSettle, AttemptsOk, AttemptsOrdered, RunsFree;
    LostDeliveries(t, run, epoch);
    LostRows(t, run, epoch);
    LostApprovals(t, run, epoch);
    LostAttempts(t, run, epoch);
    BulkKeepsInv(t, LoseEffects(t, run, epoch));
  }

  lemma RestartedRow(a: Action, unanswered: bool)
    requires RowOk(a)
    ensures Moves(a, RestartAction(a, unanswered))
  {
  }

  lemma RestartedRows(t: Tables, now: nat)
    requires Inv(t) && forall r | r in t.runs :: !RunsFree(t.runs, r)
    ensures RowsMove(t, RestartEffects(t, now))
  {
    assert RowsOk(t.actions) && RunsOk(t.runs, t.actions, t.approvals, t.deliveries);
    hide Inv, Moves, RestartAction;
    forall a | a in t.actions
      ensures Moves(t.actions[a], RestartEffects(t, now).actions[a])
    {
      RestartedRow(t.actions[a], Unanswered(t.approvals, t.deliveries, a));
    }
  }

  lemma RestartedApprovals(t: Tables, now: nat)
    requires Inv(t)
    ensures ApprovalsMove(t, RestartEffects(t, now))
  {
    assert ApprovalsOk(t.actions, t.approvals) && RowsOk(t.actions);
    hide Inv;
    var u := RestartEffects(t, now);
    forall a | a in u.approvals && a in u.actions
      ensures ApprovalOk(u.approvals[a], u.actions[a])
    {
      assert ApprovalOk(t.approvals[a], t.actions[a]) && RowOk(t.actions[a]);
    }
  }

  lemma RestartedAttempt(x: nat, y: Attempt, a: Action, unanswered: bool)
    requires AttemptOk(x, y, a) && RowOk(a)
    ensures AttemptOk(x, RestartAttempt(y, a, unanswered), RestartAction(a, unanswered))
  {
  }

  lemma RestartKeepsIdentity(y: Attempt, a: Action, unanswered: bool)
    ensures RestartAttempt(y, a, unanswered).(outcome := y.outcome) == y
    ensures y.outcome.Some? ==> RestartAttempt(y, a, unanswered) == y
    ensures RestartAction(a, unanswered).activeAttempt.Some? ==>
              RestartAction(a, unanswered).activeAttempt == a.activeAttempt
  {
  }

  lemma RestartedAttemptRow(t: Tables, x: nat)
    requires Inv(t) && x in t.attempts
    ensures var a := t.attempts[x].action;
            && a in t.actions && RestartAttempts(t)[x].(outcome := t.attempts[x].outcome) == t.attempts[x]
            && AttemptOk(x, RestartAttempts(t)[x], RestartActions(t)[a])
  {
    var a := t.attempts[x].action;
    assert a in t.actions && AttemptOk(x, t.attempts[x], t.actions[a]) && RowOk(t.actions[a]);
    hide Inv, AttemptOk, RowOk, Unanswered, RestartAction, RestartAttempt;
    RestartedAttempt(x, t.attempts[x], t.actions[a], Unanswered(t.approvals, t.deliveries, a));
    RestartKeepsIdentity(t.attempts[x], t.actions[a], Unanswered(t.approvals, t.deliveries, a));
  }

  lemma RestartedActive(t: Tables, a: nat)
    requires Inv(t) && a in t.actions && RestartActions(t)[a].activeAttempt.Some?
    ensures var x := RestartActions(t)[a].activeAttempt.value; x in t.attempts && t.attempts[x].action == a
  {
    AttemptTables(t);
    hide Inv, AttemptOk, RowOk, Unanswered;
  }

  lemma OutcomesKeepOrder(attempts: map<nat, Attempt>, later: map<nat, Attempt>)
    requires AttemptsOrdered(attempts) && later.Keys == attempts.Keys
    requires forall x | x in attempts :: later[x].(outcome := attempts[x].outcome) == attempts[x]
    ensures AttemptsOrdered(later)
  {
  }

  lemma RestartedAttempts(t: Tables)
    requires Inv(t)
    ensures AttemptsOk(RestartActions(t), RestartAttempts(t)) && AttemptsOrdered(RestartAttempts(t))
  {
    AttemptTables(t);
    hide Inv, AttemptOk, Unanswered, RestartAction, RestartAttempt, AttemptsOrdered;
    forall x | x in t.attempts
      ensures t.attempts[x].action in t.actions
                && RestartAttempts(t)[x].(outcome := t.attempts[x].outcome) == t.attempts[x]
      ensures AttemptOk(x, RestartAttempts(t)[x], RestartActions(t)[t.attempts[x].action])
    {
      RestartedAttemptRow(t, x);
    }
    OutcomesKeepOrder(t.attempts, RestartAttempts(t));
    forall a | a in RestartActions(t) && RestartActions(t)[a].activeAttempt.Some?
      ensures var x := RestartActions(t)[a].activeAttempt.value; x in t.attempts && t.attempts[x].action == a
    {
      RestartedActive(t, a);
    }
  }

  lemma RestartedDeliveries(t: Tables, now: nat)
    ensures DeliveriesSettle(t, RestartEffects(t, now))
  {
  }

  lemma RestartEffectsKeepsInv(t: Tables, now: nat)
    requires Inv(t) && forall r | r in t.runs :: !RunsFree(t.runs, r)
    ensures Inv(RestartEffects(t, now))
  {
    hide Inv, RowsMove, ApprovalsMove, DeliveriesSettle, AttemptsOk, AttemptsOrdered, RunsFree;
    RestartedDeliveries(t, now);
    RestartedRows(t, now);
    RestartedApprovals(t, now);
    RestartedAttempts(t);
    BulkKeepsInv(t, RestartEffects(t, now));
  }
}
