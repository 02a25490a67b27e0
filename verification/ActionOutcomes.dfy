/** What one command leaves for the others to find: results, decisions and attempts, recorded as they were given. */
module ActionOutcomes {
  import opened Options
  import opened ActionModel
  import opened ActionInvariant

  lemma Created(t: Tables, id: nat, run: nat, action: nat, kind: DeliveryKind, epoch: nat, payload: Payload, now: nat)
    ensures SamePayloadExists(CreateDelivery(t, id, run, action, kind, epoch, payload, now), action, kind, payload)
    ensures var u := CreateDelivery(t, id, run, action, kind, epoch, payload, now);
            u.actions == t.actions && u.attempts == t.attempts && u.approvals == t.approvals && u.runs == t.runs
  {
    if !SamePayloadExists(t, action, kind, payload) {
      var u := CreateDelivery(t, id, run, action, kind, epoch, payload, now);
      assert u.deliveries[id].action == action && u.deliveries[id].kind == kind && u.deliveries[id].payload == payload;
    }
  }

  lemma WaitingKeepsRows(t: Tables, run: nat, reason: WaitReason)
    ensures var u := MarkWaiting(t, run, reason);
            u.actions == t.actions && u.attempts == t.attempts && u.approvals == t.approvals
            && u.deliveries == t.deliveries
  {
  }

  predicate Reported(t: Tables, action: nat, attempt: nat, outcome: ResultOutcome) {
    && action in t.actions && attempt in t.attempts
    && (outcome.ResultSucceeded? <==> t.actions[action].status.Succeeded?)
    && (outcome.ResultFailed? <==> t.actions[action].status.Failed?)
    && (outcome.ResultUnknown? <==> t.actions[action].status.Unknown?)
    && (outcome.ResultSucceeded? <==> t.attempts[attempt].outcome == Some(AttemptSucceeded))
    && (outcome.ResultFailed? <==> t.attempts[attempt].outcome == Some(AttemptFailed))
    && (outcome.ResultUnknown? <==> t.attempts[attempt].outcome == Some(AttemptUnknown))
  }

  // Waiting, delivering and resuming leave them alone.
  lemma OutcomeRows(t: Tables, c: Command)
    requires c.RecordResult? && CanRecordResult(t, c)
    ensures DoRecordResult(t, c).actions == WithOutcome(t, c).actions
              && DoRecordResult(t, c).attempts == WithOutcome(t, c).attempts
  {
    hide CanRecordResult, WithOutcome, SamePayloadExists, Blocked;
  }

  lemma OutcomeDelivered(t: Tables, c: Command)
    requires c.RecordResult? && CanRecordResult(t, c) && t.actions[c.action].mode.Mediated? && !c.outcome.ResultUnknown?
    ensures SamePayloadExists(DoRecordResult(t, c), c.action, ActionResult, RecordedResult(c.outcome, c.content))
  {
    var run, t1, payload := t.actions[c.action].run, WithOutcome(t, c), RecordedResult(c.outcome, c.content);
    Created(t1, c.delivery, run, c.action, ActionResult, t.runs[run].epoch, payload, c.now);
    var t2 := CreateDelivery(t1, c.delivery, run, c.action, ActionResult, t.runs[run].epoch, payload, c.now);
    WaitingKeepsRows(t2, run, WaitDelivery);
    SameDeliveriesSame(t2, MarkWaiting(t2, run, WaitDelivery), c.action, ActionResult, payload);
    hide CanRecordResult, WithOutcome, SamePayloadExists, CreateDelivery, MarkWaiting, ResumeIfUnblocked;
  }

  /** A result stands in the action and in its marked attempt as reported, and a mediated one is
      delivered as reported. */
  lemma ResultIsRecorded(t: Tables, c: Command)
    requires Inv(t) && c.RecordResult? && CanRecordResult(t, c)
    ensures Reported(DoRecordResult(t, c), c.action, c.attempt, c.outcome)
    ensures t.actions[c.action].mode.Mediated? && !c.outcome.ResultUnknown? ==>
              SamePayloadExists(DoRecordResult(t, c), c.action, ActionResult, RecordedResult(c.outcome, c.content))
  {
    ActiveAttempt(t, c.action);
    OutcomeRows(t, c);
    if t.actions[c.action].mode.Mediated? && !c.outcome.ResultUnknown? { OutcomeDelivered(t, c); }
    hide Inv, SamePayloadExists, DoRecordResult, WithOutcome, CanRecordResult;
    OutcomeReported(t, c);
  }

  lemma OutcomeReported(t: Tables, c: Command)
    requires c.RecordResult? && CanRecordResult(t, c) && c.attempt in t.attempts
    requires t.attempts[c.attempt].action == c.action && t.attempts[c.attempt].epoch == t.actions[c.action].epoch
    ensures Reported(WithOutcome(t, c), c.action, c.attempt, c.outcome)
  {
    hide Consistent, OwnsResult;
  }

  lemma SameDeliveriesSame(t: Tables, u: Tables, action: nat, kind: DeliveryKind, payload: Payload)
    requires u.deliveries == t.deliveries
    ensures SamePayloadExists(u, action, kind, payload) == SamePayloadExists(t, action, kind, payload)
  {
  }

  lemma {:induction false} RefusalIsOffered(options: seq<PermissionOption>)
    requires FirstRefusal(options).Some?
    ensures FirstRefusal(options).value in options && Refusal(FirstRefusal(options).value)
  {
    if !Refusal(options[0]) { RefusalIsOffered(options[1..]); }
  }

  lemma {:induction false} FoundIsOffered(options: seq<PermissionOption>, id: nat)
    requires FindOption(options, id).Some?
    ensures FindOption(options, id).value in options && FindOption(options, id).value.id == id
  {
    if options[0].id != id { FoundIsOffered(options[1..], id); }
  }

  /** An expired request is answered with a refusing option it offered. Any other resolution approves exactly what the
      chosen option allows, and an intercepted request, or a refused one, is answered with that option. */
  lemma DecisionIsDelivered(t: Tables, c: Command)
    requires c.Resolve? && CanResolve(t, c) && AcceptsEffects(t.runs[t.actions[c.action].run])
    ensures var p, u := t.approvals[c.action], DoResolve(t, c);
      if ApprovalExpired(p, c.now) then
        && u.approvals[c.action].status.Expired? && u.actions[c.action].status.NotExecuted?
        && exists o ::
            o in p.options && Refusal(o) && SamePayloadExists(u, c.action, AuthorizationResolution, ExpiredWith(o.id))
      else
        exists o :: o in p.options && o.id == c.option
          && (u.approvals[c.action].status.Approved? <==> o.allowsAction && !o.kind.CancelOption?)
          && (t.actions[c.action].mode.Intercepted? || !o.allowsAction ==>
                SamePayloadExists(u, c.action, AuthorizationResolution,
                    ResolvedByUser(u.approvals[c.action].status, c.option)))
  {
    var p, a := t.approvals[c.action], t.actions[c.action];
    var r, t1 := t.runs[a.run], Resolved(t, c);
    FoundIsOffered(p.options, c.option);
    if ApprovalExpired(p, c.now) {
      var o := FirstRefusal(p.options).value;
      RefusalIsOffered(p.options);
      Created(t1, c.delivery, a.run, c.action, AuthorizationResolution, r.epoch, ExpiredWith(o.id), c.now);
      hide FindOption, FirstRefusal, CanResolve, SamePayloadExists, CreateDelivery, Refusal, SetApproval,
           SetNotExecuted;
      assert o in p.options && Refusal(o)
             && SamePayloadExists(DoResolve(t, c), c.action, AuthorizationResolution, ExpiredWith(o.id));
      ExpiredRows(t, c);
    } else {
      var o := FindOption(p.options, c.option).value;
      var payload := ResolvedByUser(ChosenStatus(o), o.id);
      Created(t1, c.delivery, a.run, c.action, AuthorizationResolution, r.epoch, payload, c.now);
      var t2 := CreateDelivery(t1, c.delivery, a.run, c.action, AuthorizationResolution, r.epoch, payload, c.now);
      WaitingKeepsRows(t2, a.run, WaitDelivery);
      SameDeliveriesSame(t2, MarkWaiting(t2, a.run, WaitDelivery), c.action, AuthorizationResolution, payload);
      assert t1.approvals[c.action].status == ChosenStatus(o);
      WaitingKeepsRows(t1, a.run, WaitExecution);
      hide FindOption, FirstRefusal, CanResolve, SamePayloadExists, CreateDelivery, MarkWaiting, Resolved;
      assert a.mode.Intercepted? || !o.allowsAction ==> DoResolve(t, c) == MarkWaiting(t2, a.run, WaitDelivery);
    }
  }

  lemma ExpiredRows(t: Tables, c: Command)
    requires c.Resolve? && CanResolve(t, c) && ApprovalExpired(t.approvals[c.action], c.now)
    ensures c.action in Resolved(t, c).approvals && Resolved(t, c).approvals[c.action].status.Expired?
    ensures c.action in Resolved(t, c).actions && Resolved(t, c).actions[c.action].status.NotExecuted?
  {
    hide FindOption, FirstRefusal, CanResolve;
  }

  /** A claim's attempt is numbered and fenced after every earlier one, and is the one the action now answers to. */
  lemma ClaimIsFenced(t: Tables, c: Command, x: nat)
    requires Inv(t) && c.Claim? && CanClaim(t, c) && x in t.attempts && t.attempts[x].action == c.action
    ensures var u := DoClaim(t, c);
      && u.attempts[x] == t.attempts[x] && t.attempts[x].number < u.attempts[c.attempt].number
      && t.attempts[x].epoch < u.attempts[c.attempt].epoch == u.actions[c.action].epoch
      && u.actions[c.action].activeAttempt == Some(c.attempt) && !u.attempts[c.attempt].marked
  {
    AttemptTables(t);
    ActionRow(t, c.action);
    hide Inv, CanClaim;
    assert AttemptOk(x, t.attempts[x], t.actions[c.action]);
  }
}
