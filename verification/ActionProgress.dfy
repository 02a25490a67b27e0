/** What each command makes possible: the way of an action from its request over its authorization and its execution to
    the delivery of its result. */
module ActionProgress {
  import opened Options
  import opened ActionModel
  import opened ActionInvariant
  import opened ActionHistory
  import opened ActionFrames
  import opened ActionOutcomes
  import opened ActionSteps

  // Prepared ----------------------------------------------------------------------------------------

  /** What an executor says when it claims an action, but for the version it read and the time. */
  predicate ExecutorClaim(t: Tables, claim: Command, action: nat) {
    && claim.Claim? && claim.action == action && claim.admitted && claim.component.Executor?
    && claim.authorization == None && claim.authorizationOwner == None && claim.attempt !in t.attempts
  }

  predicate By(deadline: Option<nat>, now: nat) { deadline.Some? ==> now <= deadline.value }

  predicate Waits(t: Tables, run: nat, reason: WaitReason) {
    run in t.runs && t.runs[run].status.Waiting? && t.runs[run].wait == reason
  }

  /** An executor can claim what was just prepared exactly when it is mediated and the policy allowed it, at its first
      version and by its deadline; the run waits for that execution. */
  lemma AllowedIsClaimable(t: Tables, c: Command, claim: Command)
    requires c.Prepare? && CanPrepare(t, c) && ExecutorClaim(t, claim, c.action)
    ensures CanClaim(Step(t, c), claim) <==>
              && c.mode.Mediated? && PolicyFor(t.runs[c.run], c) == Some(Allow)
              && claim.actionVersion == 1 && By(c.executeBefore, claim.now)
    ensures c.mode.Mediated? && PolicyFor(t.runs[c.run], c) == Some(Allow) ==> Waits(Step(t, c), c.run, WaitExecution)
  {
    hide Evaluate, OptionsAcceptable, SamePayloadExists;
  }

  /** The options of a mediated request are to deny it or to allow it once; an intercepted one brings its own. */
  function Offered(c: Command): seq<PermissionOption>
    requires c.Prepare?
  {
    if c.mode.Intercepted? then c.options
    else [PermissionOption(0, DenyOption, false, true), PermissionOption(1, AllowOnce, true, true)]
  }

  lemma {:induction false} FindsOffered(options: seq<PermissionOption>, id: nat)
    ensures FindOption(options, id).Some? <==> exists o :: o in options && o.id == id
  {
    if options != [] && options[0].id != id {
      FindsOffered(options[1..], id);
      assert options == [options[0]] + options[1..];
    } else if options != [] {
      assert options[0] in options;
    }
  }

  lemma {:induction false} FindsRefusal(options: seq<PermissionOption>)
    ensures FirstRefusal(options).Some? <==> exists o :: o in options && Refusal(o)
  {
    if options != [] && !Refusal(options[0]) {
      FindsRefusal(options[1..]);
      assert options == [options[0]] + options[1..];
    } else if options != [] {
      assert options[0] in options;
    }
  }

  // What a prepared action is asked for.
  lemma AskedRows(t: Tables, c: Command)
    requires Inv(t) && c.Prepare? && CanPrepare(t, c)
    ensures var u, r := Step(t, c), t.runs[c.run];
      && c.action in u.actions && u.actions[c.action].run == c.run && u.actions[c.action].sourceEpoch == c.runEpoch
      && c.run in u.runs && u.runs[c.run] == r.(status := Waiting, wait := u.runs[c.run].wait, version := r.version + 1)
      && (c.action in u.approvals <==> PolicyFor(r, c) == Some(Ask))
      && (PolicyFor(r, c) == Some(Ask) ==>
            && u.actions[c.action].status.Prepared? && Waits(u, c.run, WaitApproval)
            && u.approvals[c.action] == Approval(Pending, 1, Offered(c), c.executeBefore))
  {
    FreshApproval(t, c.action);
    RecordedRows(t, c);
    PreparedRest(t, c);
    hide Inv, CanPrepare, Recorded, DoPrepare, PolicyFor, Offered;
  }

  function PreparedReason(c: Command, policy: Decision): WaitReason
    requires c.Prepare?
  {
    match policy
    case Ask => WaitApproval
    case ObservedOnly => WaitUnknownOutcome
    case Deny => WaitDelivery
    case Allow => if c.mode.Intercepted? then WaitDelivery else WaitExecution
  }

  // Waiting and delivering change neither the action nor the approval.
  lemma PreparedRest(t: Tables, c: Command)
    requires c.Prepare? && CanPrepare(t, c)
    ensures var u, t1 := DoPrepare(t, c), Recorded(t, c);
      && u.actions == t1.actions && u.approvals == t1.approvals
      && u.runs == MarkWaiting(t1, c.run, PreparedReason(c, PolicyFor(t.runs[c.run], c).value)).runs
  {
    var t1 := Recorded(t, c);
    var t2 := MarkWaiting(t1, c.run, WaitDelivery);
    hide CanPrepare, Recorded, PolicyFor, CreateDelivery;
    assert t2.actions == t1.actions && t2.approvals == t1.approvals;
    forall kind, payload
      ensures var u := CreateDelivery(t2, c.delivery, c.run, c.action, kind, c.runEpoch, payload, c.now);
              u.actions == t2.actions && u.approvals == t2.approvals && u.runs == t2.runs
    {
      CreatedKeepsRest(t2, c.delivery, c.run, c.action, kind, c.runEpoch, payload, c.now);
    }
  }

  lemma RecordedRows(t: Tables, c: Command)
    requires c.Prepare? && CanPrepare(t, c) && c.action !in t.approvals
    ensures var u, r := Recorded(t, c), t.runs[c.run];
      && u.runs == t.runs && c.run in t.runs && Active(r) && PolicyFor(r, c).Some?
      && c.action in u.actions && u.actions[c.action].run == c.run && u.actions[c.action].sourceEpoch == c.runEpoch
      && (c.action in u.approvals <==> PolicyFor(r, c) == Some(Ask))
      && (PolicyFor(r, c) == Some(Ask) ==>
            u.actions[c.action].status.Prepared?
            && u.approvals[c.action] == Approval(Pending, 1, Offered(c), c.executeBefore))
  {
    hide Evaluate, OptionsAcceptable;
  }

  /** What was just prepared can be resolved by exactly the options it offers, when the policy asks; after its deadline
      only if it offers a refusal. The run waits for that approval. */
  lemma AskedIsResolvable(t: Tables, c: Command, r: Command)
    requires Inv(t) && c.Prepare? && CanPrepare(t, c)
    requires r.Resolve? && r.action == c.action && r.admitted && r.delivery !in Step(t, c).deliveries
    ensures CanResolve(Step(t, c), r) <==>
              && PolicyFor(t.runs[c.run], c) == Some(Ask) && r.approvalVersion == 1
              && (exists o :: o in Offered(c) && o.id == r.option)
              && (By(c.executeBefore, r.now) || exists o :: o in Offered(c) && Refusal(o))
    ensures PolicyFor(t.runs[c.run], c) == Some(Ask) ==> Waits(Step(t, c), c.run, WaitApproval)
  {
    AskedRows(t, c);
    FindsOffered(Offered(c), r.option);
    FindsRefusal(Offered(c));
    FoundIsWellFormed(Offered(c), r.option);
    if t.runs[c.run].semantics.RuntimeManaged? && !c.mode.Observed? { OfferedIsAcceptable(t, c); }
    hide Inv, Step, PolicyFor, Offered, OptionsAcceptable, FindOption, FirstRefusal, Refusal;
  }

  lemma OfferedIsAcceptable(t: Tables, c: Command)
    requires c.Prepare? && CanPrepare(t, c) && t.runs[c.run].semantics.RuntimeManaged? && !c.mode.Observed?
    ensures OptionsAcceptable(Offered(c))
  {
    assert !c.mode.Intercepted? ==> Refusal(Offered(c)[0]);
  }

  lemma FreshApproval(t: Tables, a: nat)
    requires Inv(t) && a !in t.actions
    ensures a !in t.approvals
  {
  }

  lemma FoundIsWellFormed(options: seq<PermissionOption>, id: nat)
    ensures OptionsAcceptable(options) && FindOption(options, id).Some? ==> FindOption(options, id).value.wellFormed
  {
    if FindOption(options, id).Some? { FoundIsOffered(options, id); }
  }

  // Authorizations and results ------------------------------------------------------------------------

  /** The one delivery of this kind that the action has. */
  predicate OnlyDelivery(t: Tables, d: nat, action: nat, kind: DeliveryKind) {
    && d in t.deliveries && t.deliveries[d].action == action && t.deliveries[d].kind == kind
    && forall e | e in t.deliveries && t.deliveries[e].action == action && t.deliveries[e].kind == kind :: e == d
  }

  predicate NoDelivery(t: Tables, action: nat) { forall d | d in t.deliveries :: t.deliveries[d].action != action }

  /** A delivery on its way to the runtime generation that the run is in. */
  predicate OnItsWay(t: Tables, d: nat, action: nat, kind: DeliveryKind, payload: Payload, now: nat) {
    && OnlyDelivery(t, d, action, kind) && t.deliveries[d].payload == payload
    && t.deliveries[d].status.Queued? && t.deliveries[d].version == 1 && t.deliveries[d].availableAt == now
    && t.deliveries[d].run in t.runs && t.deliveries[d].targetEpoch == t.runs[t.deliveries[d].run].epoch
  }

  lemma CreatedIsOnItsWay(t: Tables, id: nat, run: nat, action: nat, kind: DeliveryKind, payload: Payload, now: nat)
    requires run in t.runs && id !in t.deliveries
    requires forall e | e in t.deliveries :: t.deliveries[e].action == action ==> t.deliveries[e].kind != kind
    ensures var u := CreateDelivery(t, id, run, action, kind, t.runs[run].epoch, payload, now);
            OnItsWay(u, id, action, kind, payload, now) && u.deliveries[id].run == run
  {
  }

  lemma StillOnItsWay(t: Tables, u: Tables, d: nat, action: nat, kind: DeliveryKind, payload: Payload, now: nat)
    requires OnItsWay(t, d, action, kind, payload, now) && u.deliveries == t.deliveries
    requires forall r | r in t.runs :: r in u.runs && u.runs[r].epoch == t.runs[r].epoch
    ensures OnItsWay(u, d, action, kind, payload, now)
  {
  }

  /** An intercepted request that the policy decides is told so, and a mediated one that it denies is refused by its
      result. Everything else is answered later, and has no delivery yet. */
  predicate AnsweredAtOnce(t: Tables, u: Tables, c: Command, policy: Decision)
    requires c.Prepare?
  {
    && c.action in u.actions
    && if policy.Deny? then
         && u.actions[c.action].status.NotExecuted? && Waits(u, c.run, WaitDelivery)
         && (c.mode.Intercepted? ==> OnItsWay(u, c.delivery, c.action, AuthorizationResolution, DeniedByPolicy, c.now))
         && (!c.mode.Intercepted? ==> OnItsWay(u, c.delivery, c.action, ActionResult, PolicyDeniedResult, c.now))
       else if policy.Allow? && c.mode.Intercepted? then
         && u.actions[c.action].status.Prepared? && Waits(u, c.run, WaitDelivery)
         && OnItsWay(u, c.delivery, c.action, AuthorizationResolution, ApprovedByPolicy, c.now)
       else
         && NoDelivery(u, c.action) && u.deliveries == t.deliveries
         && (c.mode.Observed? ==> u.actions[c.action].status.Unknown? && Waits(u, c.run, WaitUnknownOutcome))
         && (!c.mode.Observed? ==> u.actions[c.action].status.Prepared?)
  }

  lemma PreparedIsAnswered(t: Tables, c: Command)
    requires Inv(t) && c.Prepare? && CanPrepare(t, c)
    ensures AnsweredAtOnce(t, Step(t, c), c, PolicyFor(t.runs[c.run], c).value)
  {
    var t1, policy := Recorded(t, c), PolicyFor(t.runs[c.run], c).value;
    NoDeliveryYet(t, c.action);
    PreparedRest(t, c);
    RecordedStatus(t, c);
    var t2 := MarkWaiting(t1, c.run, WaitDelivery);
    hide Inv, Recorded, OnItsWay, CanPrepare, PolicyFor, CreateDelivery, NoDelivery;
    assert t2.runs[c.run].epoch == c.runEpoch && t2.deliveries == t.deliveries;
    assert DoPrepare(t, c) == Step(t, c);
    hide Step;
    if policy.Deny? || (policy.Allow? && c.mode.Intercepted?) {
      var kind := if policy.Allow? || c.mode.Intercepted? then AuthorizationResolution else ActionResult;
      var payload := if policy.Allow? then ApprovedByPolicy
                     else if c.mode.Intercepted? then DeniedByPolicy else PolicyDeniedResult;
      NoDeliveryFits(t2, c.action, kind);
      CreatedIsOnItsWay(t2, c.delivery, c.run, c.action, kind, payload, c.now);
    } else {
      NothingDelivered(t, DoPrepare(t, c), c.action);
    }
  }

  lemma NoDeliveryFits(t: Tables, action: nat, kind: DeliveryKind)
    requires NoDelivery(t, action)
    ensures forall e | e in t.deliveries :: t.deliveries[e].action == action ==> t.deliveries[e].kind != kind
  {
  }

  lemma NothingDelivered(t: Tables, u: Tables, action: nat)
    requires NoDelivery(t, action) && u.deliveries == t.deliveries
    ensures NoDelivery(u, action)
  {
  }

  lemma RecordedStatus(t: Tables, c: Command)
    requires c.Prepare? && CanPrepare(t, c)
    ensures var u, policy := Recorded(t, c), PolicyFor(t.runs[c.run], c).value;
      && u.runs == t.runs && u.deliveries == t.deliveries && c.delivery !in t.deliveries && c.action in u.actions
      && c.run in t.runs && Active(t.runs[c.run]) && t.runs[c.run].epoch == c.runEpoch
      && (policy.ObservedOnly? <==> c.mode.Observed?)
      && (u.actions[c.action].status.NotExecuted? <==> policy.Deny?)
      && (u.actions[c.action].status.Unknown? <==> policy.ObservedOnly?)
      && (u.actions[c.action].status.Prepared? <==> policy.Allow? || policy.Ask?)
  {
    hide Evaluate, OptionsAcceptable;
    assert PolicyFor(t.runs[c.run], c) == Some(ObservedOnly) ==> c.mode.Observed? by {
      DecidesNotObserved(t.runs[c.run], c);
    }
  }

  lemma DecidesNotObserved(r: Run, c: Command)
    requires c.Prepare?
    ensures PolicyFor(r, c) == Some(ObservedOnly) ==> c.mode.Observed?
  {
    hide HasEffect;
  }

  lemma NoDeliveryYet(t: Tables, action: nat)
    requires Inv(t) && action !in t.actions
    ensures NoDelivery(t, action)
  {
    assert DeliveriesOk(t.actions, t.approvals, t.deliveries);
    hide Inv, DeliveryOk, Unresolved;
  }

  lemma CreatedKeepsRest(t: Tables, id: nat, run: nat, action: nat, kind: DeliveryKind, epoch: nat, payload: Payload,
                         now: nat)
    ensures var u := CreateDelivery(t, id, run, action, kind, epoch, payload, now);
            u.actions == t.actions && u.approvals == t.approvals && u.attempts == t.attempts && u.runs == t.runs
  {
  }

  // Approved ----------------------------------------------------------------------------------------

  /** The first option of this identity. */
  predicate Chosen(options: seq<PermissionOption>, id: nat, i: nat) {
    i < |options| && options[i].id == id && forall j | 0 <= j < i :: options[j].id != id
  }

  lemma {:induction false} ChosenIsFound(options: seq<PermissionOption>, id: nat, i: nat)
    requires Chosen(options, id, i)
    ensures FindOption(options, id) == Some(options[i])
  {
    if i > 0 { ChosenIsFound(options[1..], id, i - 1); }
  }

  lemma {:induction false} FoundIsChosen(options: seq<PermissionOption>, id: nat) returns (i: nat)
    requires FindOption(options, id).Some?
    ensures Chosen(options, id, i)
  {
    if options[0].id == id {
      i := 0;
    } else {
      var k := FoundIsChosen(options[1..], id);
      i := k + 1;
    }
  }

  lemma ResolveStep(t: Tables, c: Command)
    requires c.Resolve? && CanResolve(t, c)
    ensures Step(t, c) == DoResolve(t, c)
  {
    hide CanResolve, DoResolve;
  }

  /** An option that allows the action, chosen in time, changes nothing of the action; any other, and any that comes too
      late, discards it. The approval says which. */
  predicate Decided(t: Tables, u: Tables, action: nat, o: PermissionOption, inTime: bool)
    requires action in t.actions
  {
    var a := t.actions[action];
    && action in u.approvals
    && (inTime && o.allowsAction ==> u.actions == t.actions)
    && (!inTime || !o.allowsAction ==>
          u.actions == t.actions[action := a.(status := NotExecuted, version := a.version + 1)])
    && (u.approvals[action].status.Expired? <==> !inTime)
    && (u.approvals[action].status.Cancelled? <==> inTime && o.kind.CancelOption?)
    && (u.approvals[action].status.Approved? <==> inTime && !o.kind.CancelOption? && o.allowsAction)
    && (u.approvals[action].status.Denied? <==> inTime && !o.kind.CancelOption? && !o.allowsAction)
  }

  /** What a resolution leaves of its action and its approval. */
  lemma ResolutionDecides(t: Tables, c: Command, i: nat)
    requires c.Resolve? && CanResolve(t, c) && Chosen(t.approvals[c.action].options, c.option, i)
    ensures var p := t.approvals[c.action];
            Decided(t, Step(t, c), c.action, p.options[i], By(p.expiresAt, c.now))
  {
    ResolveStep(t, c);
    hide Step;
    ChosenIsFound(t.approvals[c.action].options, c.option, i);
    var t1, a := Resolved(t, c), t.actions[c.action];
    var p := t.approvals[c.action];
    assert Decided(t, t1, c.action, p.options[i], By(p.expiresAt, c.now)) && c.action in t1.approvals by {
      hide FindOption, FirstRefusal, Refusal;
    }
    hide Step, CanResolve, Resolved, Chosen, FindOption, FirstRefusal, CreateDelivery, Decided;
    forall payload
      ensures var u := CreateDelivery(t1, c.delivery, a.run, c.action, AuthorizationResolution, t.runs[a.run].epoch,
                                      payload, c.now);
              u.actions == t1.actions && u.approvals == t1.approvals
    {
      CreatedKeepsRest(t1, c.delivery, a.run, c.action, AuthorizationResolution, t.runs[a.run].epoch, payload, c.now);
    }
    SameDecision(t, t1, DoResolve(t, c), c.action, p.options[i], By(p.expiresAt, c.now));
  }

  lemma SameDecision(t: Tables, u: Tables, v: Tables, action: nat, o: PermissionOption, inTime: bool)
    requires action in t.actions && Decided(t, u, action, o, inTime)
    requires v.actions == u.actions && v.approvals == u.approvals
    ensures Decided(t, v, action, o, inTime)
  {
  }

  // The run waits for what comes next, unless the answer came too late.
  predicate ResolvedWaits(t: Tables, u: Tables, action: nat, o: PermissionOption, inTime: bool)
    requires action in t.actions && t.actions[action].run in t.runs
  {
    var a := t.actions[action]; var r := t.runs[a.run];
    && (!inTime ==> u.runs == t.runs)
    && (inTime ==>
          && Waits(u, a.run, if a.mode.Intercepted? || !o.allowsAction then WaitDelivery else WaitExecution)
          && u.runs == t.runs[a.run := r.(status := Waiting, wait := u.runs[a.run].wait, version := r.version + 1)])
  }

  lemma ResolvedRun(t: Tables, c: Command, i: nat)
    requires c.Resolve? && CanResolve(t, c) && Chosen(t.approvals[c.action].options, c.option, i)
    requires AcceptsEffects(t.runs[t.actions[c.action].run])
    ensures var p := t.approvals[c.action];
            ResolvedWaits(t, Step(t, c), c.action, p.options[i], By(p.expiresAt, c.now))
  {
    ResolveStep(t, c);
    hide Step;
    ChosenIsFound(t.approvals[c.action].options, c.option, i);
    var t1, a := Resolved(t, c), t.actions[c.action];
    assert t1.runs == t.runs;
    hide Step, CanResolve, Resolved, Chosen, FindOption, FirstRefusal, CreateDelivery;
    forall payload
      ensures CreateDelivery(t1, c.delivery, a.run, c.action, AuthorizationResolution, t.runs[a.run].epoch, payload,
                             c.now).runs == t1.runs
    {
      CreatedKeepsRest(t1, c.delivery, a.run, c.action, AuthorizationResolution, t.runs[a.run].epoch, payload, c.now);
    }
  }

  /** An executor can claim a mediated action whose approval was just resolved exactly when the chosen option allows it
      without cancelling it and was chosen in time; the version it read before stays good. The run waits for that. */
  lemma ApprovedIsClaimable(t: Tables, c: Command, i: nat, claim: Command)
    requires Inv(t) && c.Resolve? && CanResolve(t, c) && Chosen(t.approvals[c.action].options, c.option, i)
    requires AcceptsEffects(t.runs[t.actions[c.action].run]) && t.actions[c.action].mode.Mediated?
    requires ExecutorClaim(Step(t, c), claim, c.action)
    ensures var p, a := t.approvals[c.action], t.actions[c.action];
            var o, inTime := p.options[i], By(p.expiresAt, c.now);
      && (CanClaim(Step(t, c), claim) <==>
            && inTime && o.allowsAction && !o.kind.CancelOption?
            && claim.actionVersion == a.version && By(a.executeBefore, claim.now))
      && (inTime && o.allowsAction ==> Waits(Step(t, c), a.run, WaitExecution))
  {
    ResolutionDecides(t, c, i);
    ResolvedRun(t, c, i);
    assert t.actions[c.action].policy.Ask? by { assert ApprovalsOk(t.actions, t.approvals); }
    hide Inv, Step, Chosen, FindOption, FirstRefusal;
  }

  /** A resolved request that is intercepted, or refused, is told so; one that came too late is refused by an option
      that it offered. An allowed mediated one is not told anything. */
  ghost predicate AnsweredBy(t: Tables, u: Tables, c: Command, i: nat)
    requires c.Resolve? && CanResolve(t, c) && i < |t.approvals[c.action].options|
  {
    var p, a := t.approvals[c.action], t.actions[c.action];
    var o, inTime := p.options[i], By(p.expiresAt, c.now);
    && c.action in u.approvals
    && (inTime && (a.mode.Intercepted? || !o.allowsAction) ==>
          OnItsWay(u, c.delivery, c.action, AuthorizationResolution,
                   ResolvedByUser(u.approvals[c.action].status, o.id), c.now))
    && (inTime && !a.mode.Intercepted? && o.allowsAction ==> u.deliveries == t.deliveries)
    && (!inTime ==> exists f ::
          f in p.options && Refusal(f)
          && OnItsWay(u, c.delivery, c.action, AuthorizationResolution, ExpiredWith(f.id), c.now))
  }

  lemma ResolvedIsAnswered(t: Tables, c: Command, i: nat)
    requires Inv(t) && c.Resolve? && CanResolve(t, c) && Chosen(t.approvals[c.action].options, c.option, i)
    requires AcceptsEffects(t.runs[t.actions[c.action].run])
    ensures AnsweredBy(t, Step(t, c), c, i)
  {
    var p, a := t.approvals[c.action], t.actions[c.action];
    var r, t1, o := t.runs[a.run], Resolved(t, c), p.options[i];
    ResolveStep(t, c);
    hide Step;
    ChosenIsFound(p.options, c.option, i);
    ResolutionDecides(t, c, i);
    UndeliveredYet(t, c.action);
    assert t1.runs == t.runs && t1.deliveries == t.deliveries && a.run in t.runs && c.delivery !in t.deliveries;
    assert !By(p.expiresAt, c.now) ==> FirstRefusal(p.options).Some?;
    hide Inv, Step, CanResolve, Resolved, FindOption, FirstRefusal, Refusal, Chosen, CreateDelivery, OnItsWay;
    if !By(p.expiresAt, c.now) {
      var f := FirstRefusal(p.options).value;
      RefusalIsOffered(p.options);
      CreatedIsOnItsWay(t1, c.delivery, a.run, c.action, AuthorizationResolution, ExpiredWith(f.id), c.now);
    } else if a.mode.Intercepted? || !o.allowsAction {
      var payload := ResolvedByUser(ChosenStatus(o), o.id);
      var t2 := CreateDelivery(t1, c.delivery, a.run, c.action, AuthorizationResolution, r.epoch, payload, c.now);
      CreatedIsOnItsWay(t1, c.delivery, a.run, c.action, AuthorizationResolution, payload, c.now);
      WaitingStillOnItsWay(t2, a.run, c.delivery, c.action, AuthorizationResolution, payload, c.now);
    } else {
      WaitingKeepsRows(t1, a.run, WaitExecution);
    }
  }

  lemma WaitingStillOnItsWay(t: Tables, run: nat, d: nat, action: nat, kind: DeliveryKind, payload: Payload, now: nat)
    requires OnItsWay(t, d, action, kind, payload, now)
    ensures OnItsWay(MarkWaiting(t, run, WaitDelivery), d, action, kind, payload, now)
  {
    StillOnItsWay(t, MarkWaiting(t, run, WaitDelivery), d, action, kind, payload, now);
  }

  // A pending approval keeps its authorization away.
  lemma UndeliveredYet(t: Tables, action: nat)
    requires Inv(t) && Unresolved(t.approvals, action)
    ensures forall e | e in t.deliveries :: t.deliveries[e].action == action ==> t.deliveries[e].kind.ActionResult?
  {
    assert DeliveriesOk(t.actions, t.approvals, t.deliveries);
    hide Inv;
  }
}
