/** What never changes back: one relation between the tables before and after any number of commands. */
module ActionHistory {
  import opened Options
  import opened ActionModel
  import opened ActionInvariant

  predicate RunEvolves(r: Run, s: Run) {
    && s.semantics == r.semantics && s.capable == r.capable && s.rules == r.rules && s.singleChat == r.singleChat
    && r.epoch <= s.epoch && (r.cancelRequested ==> s.cancelRequested && s.epoch == r.epoch)
    && (Active(r) ==> Active(s) || Ended(s)) && (Ended(r) ==> Ended(s))
  }

  /** Finished rows are frozen, an unknown action only settles, and a marked action keeps its attempt. */
  predicate ActionEvolves(a: Action, b: Action) {
    && b.run == a.run && b.mode == a.mode && b.policy == a.policy && b.digest == a.digest
    && a.version <= b.version && a.epoch <= b.epoch && a.attemptCount <= b.attemptCount
    && (Finished(a) ==> b == a)
    && (a.status.Unknown? ==> Resulted(b))
    && (a.dispatchStarted ==> SameDispatch(a, b))
  }

  /** A resolved approval is never changed, so an approval once given is never revoked. */
  predicate ApprovalEvolves(p: Approval, q: Approval) {
    q.options == p.options && (p.status.Pending? || q == p)
  }

  /** An attempt that is not the active one of its action is frozen. */
  predicate AttemptEvolves(y: Attempt, z: Attempt, active: bool) {
    && z == y.(marked := z.marked, outcome := z.outcome)
    && (y.marked ==> z.marked)
    && (!active ==> z == y)
  }

  predicate DeliveryEvolves(d: Delivery, e: Delivery) {
    && e == d.(status := e.status, availableAt := e.availableAt, leaseOwner := e.leaseOwner,
               leaseExpires := e.leaseExpires, version := e.version)
    && (!Open(d) ==> e == d)
  }

  predicate IsActive(actions: map<nat, Action>, action: nat, attempt: nat) {
    action in actions && actions[action].activeAttempt == Some(attempt)
  }

  ghost predicate RunsEvolve(t: Tables, u: Tables) {
    forall r | r in t.runs :: r in u.runs && RunEvolves(t.runs[r], u.runs[r])
  }

  ghost predicate ActionsEvolve(t: Tables, u: Tables) {
    forall a | a in t.actions :: a in u.actions && ActionEvolves(t.actions[a], u.actions[a])
  }

  ghost predicate ApprovalsEvolve(t: Tables, u: Tables) {
    forall a | a in t.approvals :: a in u.approvals && ApprovalEvolves(t.approvals[a], u.approvals[a])
  }

  ghost predicate AttemptsEvolve(t: Tables, u: Tables) {
    && (forall x | x in t.attempts ::
          && x in u.attempts
          && AttemptEvolves(t.attempts[x], u.attempts[x], IsActive(t.actions, t.attempts[x].action, x)))
    && (forall x | x in t.attempts ::
          IsActive(u.actions, t.attempts[x].action, x) ==> IsActive(t.actions, t.attempts[x].action, x))
  }

  ghost predicate DeliveriesEvolve(t: Tables, u: Tables) {
    forall d | d in t.deliveries :: d in u.deliveries && DeliveryEvolves(t.deliveries[d], u.deliveries[d])
  }

  /** No new effect can start for the run: it is being cancelled or has ended. */
  predicate Fenced(t: Tables, run: nat) { run in t.runs && (t.runs[run].cancelRequested || Ended(t.runs[run])) }

  predicate OfFenced(t: Tables, actions: map<nat, Action>, action: nat) {
    action in actions && Fenced(t, actions[action].run)
  }

  ghost predicate AttemptsFenced(t: Tables, u: Tables) {
    forall x | x in u.attempts && OfFenced(t, u.actions, u.attempts[x].action) ::
      x in t.attempts && (u.attempts[x].marked ==> t.attempts[x].marked)
  }

  ghost predicate ApprovalsFenced(t: Tables, u: Tables) {
    forall a | a in u.approvals && u.approvals[a].status.Approved? && OfFenced(t, u.actions, a) ::
      a in t.approvals && t.approvals[a].status.Approved?
  }

  ghost predicate DeliveriesFenced(t: Tables, u: Tables) {
    forall d | d in u.deliveries && u.deliveries[d].status.Delivering? && Fenced(t, u.deliveries[d].run) ::
      d in t.deliveries && t.deliveries[d].status.Delivering?
  }

  /** Attempts, dispatch markers, approvals given and leased deliveries of a fenced run do not grow. */
  ghost predicate FenceHolds(t: Tables, u: Tables) {
    AttemptsFenced(t, u) && ApprovalsFenced(t, u) && DeliveriesFenced(t, u)
  }

  ghost predicate Evolves(t: Tables, u: Tables) {
    && RunsEvolve(t, u) && ActionsEvolve(t, u) && ApprovalsEvolve(t, u) && AttemptsEvolve(t, u)
    && DeliveriesEvolve(t, u) && FenceHolds(t, u)
  }

  /** From one good state to another, along a history. */
  ghost predicate Advances(t: Tables, u: Tables) { Inv(t) && Inv(u) && Evolves(t, u) }

  lemma EvolvesReflexive(t: Tables)
    ensures Evolves(t, t)
  {
  }

  // Transitivity, table by table -------------------------------------------------------------------

  lemma AttemptsCompose(t: Tables, u: Tables, v: Tables)
    requires AttemptsOk(t.actions, t.attempts) && AttemptsEvolve(t, u) && AttemptsEvolve(u, v)
    ensures AttemptsEvolve(t, v)
  {
    forall x | x in t.attempts
      ensures x in v.attempts && AttemptEvolves(t.attempts[x], v.attempts[x],
                IsActive(t.actions, t.attempts[x].action, x))
      ensures IsActive(v.actions, t.attempts[x].action, x) ==> IsActive(t.actions, t.attempts[x].action, x)
    {
      assert AttemptEvolves(t.attempts[x], u.attempts[x], IsActive(t.actions, t.attempts[x].action, x));
      assert AttemptEvolves(u.attempts[x], v.attempts[x], IsActive(u.actions, u.attempts[x].action, x));
    }
  }

  lemma FencedStays(t: Tables, u: Tables, run: nat)
    requires RunsEvolve(t, u) && Fenced(t, run)
    ensures Fenced(u, run)
  {
    assert RunEvolves(t.runs[run], u.runs[run]);
  }

  lemma ActionsCompose(t: Tables, u: Tables, v: Tables)
    requires ActionsEvolve(t, u) && ActionsEvolve(u, v)
    ensures ActionsEvolve(t, v)
  {
    forall a | a in t.actions
      ensures a in v.actions && ActionEvolves(t.actions[a], v.actions[a])
    {
      assert ActionEvolves(t.actions[a], u.actions[a]) && ActionEvolves(u.actions[a], v.actions[a]);
    }
  }

  lemma OthersCompose(t: Tables, u: Tables, v: Tables)
    requires RunsEvolve(t, u) && RunsEvolve(u, v) && ApprovalsEvolve(t, u) && ApprovalsEvolve(u, v)
    requires DeliveriesEvolve(t, u) && DeliveriesEvolve(u, v)
    ensures RunsEvolve(t, v) && ApprovalsEvolve(t, v) && DeliveriesEvolve(t, v)
  {
    forall r | r in t.runs
      ensures r in v.runs && RunEvolves(t.runs[r], v.runs[r])
    {
      assert RunEvolves(t.runs[r], u.runs[r]) && RunEvolves(u.runs[r], v.runs[r]);
    }
    forall a | a in t.approvals
      ensures a in v.approvals && ApprovalEvolves(t.approvals[a], v.approvals[a])
    {
      assert ApprovalEvolves(t.approvals[a], u.approvals[a]) && ApprovalEvolves(u.approvals[a], v.approvals[a]);
    }
    forall d | d in t.deliveries
      ensures d in v.deliveries && DeliveryEvolves(t.deliveries[d], v.deliveries[d])
    {
      assert DeliveryEvolves(t.deliveries[d], u.deliveries[d]) && DeliveryEvolves(u.deliveries[d], v.deliveries[d]);
    }
  }

  lemma FencedAttempt(t: Tables, u: Tables, v: Tables, x: nat)
    requires Advances(t, u) && Advances(u, v)
    requires x in v.attempts && OfFenced(t, v.actions, v.attempts[x].action)
    ensures x in t.attempts && (v.attempts[x].marked ==> t.attempts[x].marked)
  {
    var a := v.attempts[x].action;
    FencedStays(t, u, v.actions[a].run);
    assert x in u.attempts && AttemptEvolves(u.attempts[x], v.attempts[x],
           IsActive(u.actions, u.attempts[x].action, x));
    assert u.attempts[x].action == a && a in u.actions;
    assert ActionEvolves(u.actions[a], v.actions[a]);
  }

  lemma FencedApproval(t: Tables, u: Tables, v: Tables, a: nat)
    requires Advances(t, u) && Advances(u, v)
    requires a in v.approvals && v.approvals[a].status.Approved? && OfFenced(t, v.actions, a)
    ensures a in t.approvals && t.approvals[a].status.Approved?
  {
    FencedStays(t, u, v.actions[a].run);
    assert a in u.approvals && u.approvals[a].status.Approved? && a in u.actions;
    assert ActionEvolves(u.actions[a], v.actions[a]);
  }

  lemma FencedDelivery(t: Tables, u: Tables, v: Tables, d: nat)
    requires Advances(t, u) && Advances(u, v)
    requires d in v.deliveries && v.deliveries[d].status.Delivering? && Fenced(t, v.deliveries[d].run)
    ensures d in t.deliveries && t.deliveries[d].status.Delivering?
  {
    FencedStays(t, u, v.deliveries[d].run);
    assert d in u.deliveries && u.deliveries[d].status.Delivering?;
    assert DeliveryEvolves(u.deliveries[d], v.deliveries[d]);
  }

  lemma FenceComposes(t: Tables, u: Tables, v: Tables)
    requires Advances(t, u) && Advances(u, v)
    ensures FenceHolds(t, v)
  {
    hide Advances, Evolves, Inv;
    forall x | x in v.attempts && OfFenced(t, v.actions, v.attempts[x].action)
      ensures x in t.attempts && (v.attempts[x].marked ==> t.attempts[x].marked)
    {
      FencedAttempt(t, u, v, x);
    }
    forall a | a in v.approvals && v.approvals[a].status.Approved? && OfFenced(t, v.actions, a)
      ensures a in t.approvals && t.approvals[a].status.Approved?
    {
      FencedApproval(t, u, v, a);
    }
    forall d | d in v.deliveries && v.deliveries[d].status.Delivering? && Fenced(t, v.deliveries[d].run)
      ensures d in t.deliveries && t.deliveries[d].status.Delivering?
    {
      FencedDelivery(t, u, v, d);
    }
  }

  lemma AdvancesCompose(t: Tables, u: Tables, v: Tables)
    requires Advances(t, u) && Advances(u, v)
    ensures Advances(t, v)
  {
    assert AttemptsOk(t.actions, t.attempts);
    FenceComposes(t, u, v);
    hide Inv, FenceHolds, RunsEvolve, ActionsEvolve, ApprovalsEvolve, AttemptsEvolve, DeliveriesEvolve, AttemptsOk;
    AttemptsCompose(t, u, v);
    ActionsCompose(t, u, v);
    OthersCompose(t, u, v);
  }

  // Tables that one command leaves alone ----------------------------------------------------------

  lemma SameRuns(t: Tables, u: Tables)
    requires u.runs == t.runs
    ensures RunsEvolve(t, u)
  {
  }

  lemma SameApprovals(t: Tables, u: Tables)
    requires u.approvals == t.approvals
    ensures ApprovalsEvolve(t, u) && ApprovalsFenced(t, u)
  {
  }

  lemma SameAttempts(t: Tables, u: Tables)
    requires AttemptsOk(t.actions, t.attempts) && u.attempts == t.attempts
    requires forall a | a in t.actions :: a in u.actions && u.actions[a].activeAttempt == t.actions[a].activeAttempt
    ensures AttemptsEvolve(t, u) && AttemptsFenced(t, u)
  {
    hide AttemptOk, OfFenced;
  }

  lemma SameDeliveries(t: Tables, u: Tables)
    requires u.deliveries == t.deliveries
    ensures DeliveriesEvolve(t, u) && DeliveriesFenced(t, u)
  {
  }

  lemma OneAction(t: Tables, u: Tables, id: nat, a: Action)
    requires u.actions == t.actions[id := a] && (id in t.actions ==> ActionEvolves(t.actions[id], a))
    ensures ActionsEvolve(t, u)
  {
    forall b | b in t.actions
      ensures b in u.actions && ActionEvolves(t.actions[b], u.actions[b])
    {
      if b != id { assert u.actions[b] == t.actions[b]; }
    }
  }

  lemma OneApproval(t: Tables, u: Tables, id: nat, p: Approval)
    requires u.approvals == t.approvals[id := p]
    requires id in t.approvals ==> t.approvals[id].status.Pending? && p.options == t.approvals[id].options
    requires p.status.Approved? ==> !OfFenced(t, u.actions, id)
    ensures ApprovalsEvolve(t, u) && ApprovalsFenced(t, u)
  {
    hide OfFenced;
  }

  lemma OneAttempt(t: Tables, u: Tables, id: nat, x: Attempt)
    requires AttemptsOk(t.actions, t.attempts) && u.attempts == t.attempts[id := x] && IsActive(u.actions, x.action, id)
    requires x.action in t.actions && u.actions == t.actions[x.action := u.actions[x.action]]
    requires id in t.attempts ==> IsActive(t.actions, x.action, id) && AttemptEvolves(t.attempts[id], x, true)
    requires id !in t.attempts || (x.marked && !t.attempts[id].marked) ==> !OfFenced(t, u.actions, x.action)
    ensures AttemptsEvolve(t, u) && AttemptsFenced(t, u)
  {
    hide AttemptOk, OfFenced;
  }

  lemma OneDelivery(t: Tables, u: Tables, id: nat, d: Delivery)
    requires u.deliveries == t.deliveries[id := d] && (id in t.deliveries ==> DeliveryEvolves(t.deliveries[id], d))
    requires d.status.Delivering? ==> !Fenced(t, d.run)
    ensures DeliveriesEvolve(t, u) && DeliveriesFenced(t, u)
  {
    hide Fenced;
  }

  // Row updates ------------------------------------------------------------------------------------

  lemma RunRowAdvances(t: Tables, run: nat, r: Run)
    requires Inv(t)
    requires r.status.Running? && !r.woken ==> !Blocked(t, run)
    requires r.status.RunQueued? ==> run !in t.runs || t.runs[run].status.RunQueued?
    requires run in t.runs ==> RunEvolves(t.runs[run], r)
    ensures Advances(t, t.(runs := t.runs[run := r]))
  {
    RunRowKeepsInv(t, run, r);
    hide Inv;
  }

  lemma RunRowsAdvance(t: Tables, runs: map<nat, Run>)
    requires Inv(t) && t.runs.Keys <= runs.Keys
    requires forall r | r in runs :: RunsFree(runs, r) ==> RunsFree(t.runs, r)
    requires forall r | r in t.runs :: runs[r].status.RunQueued? ==> t.runs[r].status.RunQueued?
    requires forall r | r in t.runs :: RunEvolves(t.runs[r], runs[r])
    ensures Advances(t, t.(runs := runs))
  {
    RunRowsKeepInv(t, runs);
    hide Inv;
  }

  lemma DeliveryRowAdvances(t: Tables, id: nat, d: Delivery)
    requires Inv(t) && id in t.deliveries && Open(t.deliveries[id])
    requires d.(status := t.deliveries[id].status, leaseOwner := t.deliveries[id].leaseOwner,
                leaseExpires := t.deliveries[id].leaseExpires, version := t.deliveries[id].version) == t.deliveries[id]
    requires d.leaseOwner.Some? <==> d.status.Delivering?
    requires d.status.Queued? ==> t.deliveries[id].status.Queued?
    requires d.status.Delivering? ==> !Fenced(t, d.run)
    ensures Advances(t, t.(deliveries := t.deliveries[id := d]))
  {
    DeliveryRowKeepsInv(t, id, d);
    var u := t.(deliveries := t.deliveries[id := d]);
    AttemptTables(t);
    hide Inv, RunsEvolve, ApprovalsEvolve, AttemptsEvolve, DeliveriesEvolve, AttemptsFenced, ApprovalsFenced,
         DeliveriesFenced, AttemptsOk, Fenced;
    SameRuns(t, u); SameApprovals(t, u); SameAttempts(t, u);
    OneDelivery(t, u, id, d);
  }

  lemma CreateDeliveryAdvances(t: Tables, id: nat, run: nat, action: nat, kind: DeliveryKind,
                               epoch: nat, payload: Payload, now: nat)
    requires Inv(t) && id !in t.deliveries && RunIs(t, action, run) && !RunsFree(t.runs, run)
    requires Undelivered(t, action, kind)
    requires kind.AuthorizationResolution? ==> !Unresolved(t.approvals, action)
    requires kind.ActionResult? ==> Finished(t.actions[action])
    ensures Advances(t, CreateDelivery(t, id, run, action, kind, epoch, payload, now))
  {
    var u := CreateDelivery(t, id, run, action, kind, epoch, payload, now);
    CreateDeliveryKeepsInv(t, id, run, action, kind, epoch, payload, now);
    AttemptTables(t);
    EvolvesReflexive(t);
    hide Inv, RunsEvolve, ApprovalsEvolve, AttemptsEvolve, DeliveriesEvolve, AttemptsFenced, ApprovalsFenced,
         DeliveriesFenced, AttemptsOk, Fenced, Undelivered;
    if u != t {
      SameRuns(t, u); SameApprovals(t, u); SameAttempts(t, u);
      OneDelivery(t, u, id, u.deliveries[id]);
    }
  }

  lemma AddActionAdvances(t: Tables, id: nat, a: Action)
    requires Inv(t) && id !in t.actions && RowOk(a) && a.activeAttempt == None && !a.policy.Ask?
    requires a.run in t.runs && !t.runs[a.run].status.RunQueued? && !NeedsHanding(a)
    requires a.status.Unknown? ==> !RunsFree(t.runs, a.run)
    ensures Advances(t, t.(actions := t.actions[id := a]))
  {
    AddActionKeepsInv(t, id, a);
    var u := t.(actions := t.actions[id := a]);
    AttemptTables(t);
    hide Inv, RunsEvolve, ActionsEvolve, ApprovalsEvolve, AttemptsEvolve, DeliveriesEvolve, AttemptsFenced,
         ApprovalsFenced, DeliveriesFenced, AttemptsOk;
    SameRuns(t, u); SameApprovals(t, u); SameAttempts(t, u); SameDeliveries(t, u);
    OneAction(t, u, id, a);
  }

  lemma AddAskedActionAdvances(t: Tables, id: nat, a: Action, p: Approval)
    requires Inv(t) && id !in t.actions && RowOk(a) && a.activeAttempt == None && a.policy.Ask?
    requires a.run in t.runs && !t.runs[a.run].status.RunQueued? && a.status.Prepared?
    requires p.status.Pending? && !RunsFree(t.runs, a.run)
    ensures Advances(t, t.(actions := t.actions[id := a], approvals := t.approvals[id := p]))
  {
    AddAskedActionKeepsInv(t, id, a, p);
    var u := t.(actions := t.actions[id := a], approvals := t.approvals[id := p]);
    FreshAction(t, id);
    AttemptTables(t);
    hide Inv, RunsEvolve, ActionsEvolve, ApprovalsEvolve, AttemptsEvolve, DeliveriesEvolve, AttemptsFenced,
         ApprovalsFenced, DeliveriesFenced, AttemptsOk, Undelivered;
    SameRuns(t, u); SameAttempts(t, u); SameDeliveries(t, u);
    OneAction(t, u, id, a);
    OneApproval(t, u, id, p);
  }

  lemma PreparedEvolves(t: Tables, id: nat, a: Action)
    requires Inv(t) && id in t.actions && t.actions[id].status.Prepared?
    requires a == t.actions[id] || a == t.actions[id].(status := NotExecuted, version := t.actions[id].version + 1)
    ensures ActionEvolves(t.actions[id], a)
  {
    ActionRow(t, id);
    hide Inv;
  }

  lemma ResolutionAdvances(t: Tables, id: nat, a: Action, p: Approval)
    requires Inv(t) && id in t.actions && Unresolved(t.approvals, id) && t.actions[id].status.Prepared?
    requires a == t.actions[id] || a == t.actions[id].(status := NotExecuted, version := t.actions[id].version + 1)
    requires !p.status.Pending? && ApprovalOk(p, a) && p.options == t.approvals[id].options
    requires p.status.Approved? ==> !Fenced(t, a.run)
    ensures Advances(t, t.(actions := t.actions[id := a], approvals := t.approvals[id := p]))
  {
    ResolutionKeepsInv(t, id, a, p);
    var u := t.(actions := t.actions[id := a], approvals := t.approvals[id := p]);
    PreparedEvolves(t, id, a);
    AttemptTables(t);
    hide Inv, RunsEvolve, ActionsEvolve, ApprovalsEvolve, AttemptsEvolve, DeliveriesEvolve, AttemptsFenced,
         ApprovalsFenced, DeliveriesFenced, AttemptsOk, ApprovalOk, ActionEvolves;
    SameRuns(t, u); SameAttempts(t, u); SameDeliveries(t, u);
    OneAction(t, u, id, a);
    OneApproval(t, u, id, p);
  }

  lemma DiscardAdvances(t: Tables, id: nat)
    requires Inv(t) && id in t.actions && t.actions[id].status.Prepared? && !Unresolved(t.approvals, id)
    requires id in t.approvals ==> ApprovalOk(t.approvals[id], t.actions[id].(status := NotExecuted))
    ensures Advances(t, SetNotExecuted(t, id))
  {
    DiscardKeepsInv(t, id);
    var u := SetNotExecuted(t, id);
    ActionRow(t, id);
    AttemptTables(t);
    hide Inv, RunsEvolve, ActionsEvolve, ApprovalsEvolve, AttemptsEvolve, DeliveriesEvolve, AttemptsFenced,
         ApprovalsFenced, DeliveriesFenced, AttemptsOk, ApprovalOk;
    SameRuns(t, u); SameApprovals(t, u); SameAttempts(t, u); SameDeliveries(t, u);
    OneAction(t, u, id, u.actions[id]);
  }

  lemma ActionAndAttemptAdvance(t: Tables, id: nat, a: Action, attempt: nat, x: Attempt)
    requires Inv(t) && id in t.actions && x.action == id
    requires AttemptsOk(t.actions[id := a], t.attempts[attempt := x]) && AttemptsOrdered(t.attempts[attempt := x])
    requires RowOk(a) && ActionEvolves(t.actions[id], a)
    requires id in t.approvals ==> ApprovalOk(t.approvals[id], a) && !Unresolved(t.approvals, id)
    requires a.status.Unknown? ==> !RunsFree(t.runs, a.run)
    requires NeedsHanding(a) ==> NeedsHanding(t.actions[id]) || Handed(t.deliveries, id)
    requires a.activeAttempt == Some(attempt)
    requires attempt in t.attempts ==>
      t.actions[id].activeAttempt == Some(attempt) && AttemptEvolves(t.attempts[attempt], x, true)
    requires attempt !in t.attempts || (x.marked && !t.attempts[attempt].marked) ==> !Fenced(t, a.run)
    ensures Advances(t, t.(actions := t.actions[id := a], attempts := t.attempts[attempt := x]))
  {
    ActionAndAttemptKeepInv(t, t.actions[id := a], t.attempts[attempt := x], id);
    var u := t.(actions := t.actions[id := a], attempts := t.attempts[attempt := x]);
    AttemptTables(t);
    hide Inv, RunsEvolve, ActionsEvolve, ApprovalsEvolve, AttemptsEvolve, DeliveriesEvolve, AttemptsFenced,
         ApprovalsFenced, DeliveriesFenced, AttemptsOk, AttemptsOrdered, ApprovalOk, RowOk, NeedsHanding, Handed;
    SameRuns(t, u); SameApprovals(t, u); SameDeliveries(t, u);
    OneAction(t, u, id, a);
    OneAttempt(t, u, attempt, x);
  }

  // Bulk updates -----------------------------------------------------------------------------------

  ghost predicate OutcomesFilled(t: Tables, u: Tables) {
    && u.attempts.Keys == t.attempts.Keys
    && (forall x | x in t.attempts ::
          && u.attempts[x] == t.attempts[x].(outcome := u.attempts[x].outcome)
          && (t.attempts[x].outcome.Some? ==> u.attempts[x] == t.attempts[x]))
    && (forall a | a in t.actions && a in u.actions && u.actions[a].activeAttempt.Some? ::
          u.actions[a].activeAttempt == t.actions[a].activeAttempt)
  }

  ghost predicate ApprovalsWithdrawn(t: Tables, u: Tables) {
    && u.approvals.Keys == t.approvals.Keys
    && (forall a | a in t.approvals ::
          u.approvals[a] == t.approvals[a]
          || (t.approvals[a].status.Pending? && u.approvals[a] == Withdraw(t.approvals[a])))
  }

  lemma BulkEvolves(t: Tables, u: Tables)
    requires AttemptsOk(t.actions, t.attempts) && u.runs == t.runs && u.actions.Keys == t.actions.Keys
    requires ActionsEvolve(t, u) && OutcomesFilled(t, u) && ApprovalsWithdrawn(t, u) && DeliveriesSettle(t, u)
    ensures Evolves(t, u)
  {
    assert AttemptsEvolve(t, u) by {
      forall x | x in t.attempts
        ensures AttemptEvolves(t.attempts[x], u.attempts[x], IsActive(t.actions, t.attempts[x].action, x))
      {
        assert AttemptOk(x, t.attempts[x], t.actions[t.attempts[x].action]);
      }
    }
  }

  lemma CloseEffectsAdvances(t: Tables, runs: set<nat>)
    requires Inv(t) && forall r | r in runs :: !RunsFree(t.runs, r)
    ensures Advances(t, CloseEffects(t, runs))
  {
    var u := CloseEffects(t, runs);
    CloseEffectsKeepsInv(t, runs);
    AttemptTables(t);
    ClosedDeliveries(t, runs);
    hide Inv;
    ClosedEvolves(t, runs);
    BulkEvolves(t, u);
  }

  lemma ClosedRowEvolves(a: Action)
    ensures ActionEvolves(a, CloseAction(a)) && ActionEvolves(a, a)
  {
  }

  lemma ClosedEvolves(t: Tables, runs: set<nat>)
    ensures ActionsEvolve(t, CloseEffects(t, runs)) && OutcomesFilled(t, CloseEffects(t, runs))
    ensures ApprovalsWithdrawn(t, CloseEffects(t, runs))
  {
    hide ActionEvolves, CloseAction, CloseAttempt, SameDispatch;
    forall a | a in t.actions
      ensures ActionEvolves(t.actions[a], CloseActions(t.actions, runs)[a])
      ensures CloseActions(t.actions, runs)[a].activeAttempt == t.actions[a].activeAttempt
    {
      ClosedRowEvolves(t.actions[a]);
      ClosedActive(t.actions[a]);
    }
    forall x | x in t.attempts
      ensures CloseAttempts(t, runs)[x] == t.attempts[x].(outcome := CloseAttempts(t, runs)[x].outcome)
      ensures t.attempts[x].outcome.Some? ==> CloseAttempts(t, runs)[x] == t.attempts[x]
    {
      ClosedAttemptRow(t.actions, t.attempts[x], runs);
    }
  }

  lemma ClosedActive(a: Action)
    ensures CloseAction(a).activeAttempt == a.activeAttempt
  {
  }

  lemma LostRowEvolves(a: Action, run: nat, epoch: nat)
    ensures ActionEvolves(a, LoseAction(a, run, epoch)) && LoseAction(a, run, epoch).activeAttempt == a.activeAttempt
  {
  }

  lemma LostEvolves(t: Tables, run: nat, epoch: nat)
    ensures ActionsEvolve(t, LoseEffects(t, run, epoch)) && OutcomesFilled(t, LoseEffects(t, run, epoch))
    ensures ApprovalsWithdrawn(t, LoseEffects(t, run, epoch))
  {
    hide ActionEvolves, LoseAction, LoseAttempt, SameDispatch;
    forall a | a in t.actions
      ensures ActionEvolves(t.actions[a], LoseActions(t.actions, run, epoch)[a])
      ensures LoseActions(t.actions, run, epoch)[a].activeAttempt == t.actions[a].activeAttempt
    {
      LostRowEvolves(t.actions[a], run, epoch);
    }
    forall x | x in t.attempts
      ensures LoseAttempts(t, run, epoch)[x] == t.attempts[x].(outcome := LoseAttempts(t, run, epoch)[x].outcome)
      ensures t.attempts[x].outcome.Some? ==> LoseAttempts(t, run, epoch)[x] == t.attempts[x]
    {
      LostAttemptRow(t.actions, t.attempts[x], run, epoch);
    }
  }

  lemma LoseEffectsAdvances(t: Tables, run: nat, epoch: nat)
    requires Inv(t) && !RunsFree(t.runs, run)
    ensures Advances(t, LoseEffects(t, run, epoch))
  {
    LoseEffectsKeepsInv(t, run, epoch);
    AttemptTables(t);
    LostDeliveries(t, run, epoch);
    hide Inv;
    LostEvolves(t, run, epoch);
    BulkEvolves(t, LoseEffects(t, run, epoch));
  }

  lemma RestartedRowEvolves(a: Action, unanswered: bool)
    requires RowOk(a)
    ensures ActionEvolves(a, RestartAction(a, unanswered))
  {
  }

  lemma RestartedActions(t: Tables, now: nat)
    requires Inv(t)
    ensures ActionsEvolve(t, RestartEffects(t, now))
    ensures forall a | a in t.actions && RestartActions(t)[a].activeAttempt.Some? ::
              RestartActions(t)[a].activeAttempt == t.actions[a].activeAttempt
  {
    assert RowsOk(t.actions);
    hide Inv, RowOk, ActionEvolves, RestartAction, RestartAttempt, Unanswered;
    forall a | a in t.actions
      ensures ActionEvolves(t.actions[a], RestartActions(t)[a])
      ensures RestartActions(t)[a].activeAttempt.Some? ==>
                RestartActions(t)[a].activeAttempt == t.actions[a].activeAttempt
    {
      RestartedRowEvolves(t.actions[a], Unanswered(t.approvals, t.deliveries, a));
      RestartKeepsIdentity(Attempt(0, 0, 0, 0, false, None), t.actions[a], Unanswered(t.approvals, t.deliveries, a));
    }
  }

  lemma RestartedEvolves(t: Tables, now: nat)
    requires Inv(t)
    ensures ActionsEvolve(t, RestartEffects(t, now)) && OutcomesFilled(t, RestartEffects(t, now))
    ensures ApprovalsWithdrawn(t, RestartEffects(t, now))
  {
    RestartedActions(t, now);
    hide Inv, RowOk, ActionsEvolve, RestartAction, RestartAttempt, Unanswered;
    forall x | x in t.attempts
      ensures RestartAttempts(t)[x] == t.attempts[x].(outcome := RestartAttempts(t)[x].outcome)
      ensures t.attempts[x].outcome.Some? ==> RestartAttempts(t)[x] == t.attempts[x]
    {
      if t.attempts[x].action in t.actions {
        RestartKeepsIdentity(t.attempts[x], t.actions[t.attempts[x].action],
            Unanswered(t.approvals, t.deliveries, t.attempts[x].action));
      }
    }
  }

  lemma RestartEffectsAdvances(t: Tables, now: nat)
    requires Inv(t) && forall r | r in t.runs :: !RunsFree(t.runs, r)
    ensures Advances(t, RestartEffects(t, now))
  {
    RestartEffectsKeepsInv(t, now);
    AttemptTables(t);
    RestartedDeliveries(t, now);
    RestartedEvolves(t, now);
    hide Inv;
    BulkEvolves(t, RestartEffects(t, now));
  }
}
