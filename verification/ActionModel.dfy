/** Rows, guards and effects of the action safety protocol (crates/rovai-core/src/action.rs).
    Every command is one transaction: `Step` is the whole effect of one command, and a guard that
    fails leaves every table as it was. Identifiers, owners, digests and times are numbers. */
module ActionModel {
  import opened Options

  // Rows ------------------------------------------------------------------------------------------

  datatype ControlMode = Mediated | Intercepted | Observed
  datatype Decision = Allow | Ask | Deny | ObservedOnly
  datatype ActionStatus = Prepared | Executing | Succeeded | Failed | Unknown | NotExecuted
  datatype ActionError = NoError | RestartedBeforeDispatch | RestartedAfterDispatch | RuntimeLost | RunAborted

  datatype Action = Action(
    run: nat, mode: ControlMode, policy: Decision, digest: nat, nativeRequest: Option<nat>,
    sourceEpoch: nat, executeBefore: Option<nat>,
    status: ActionStatus, version: nat, attemptCount: nat, activeAttempt: Option<nat>,
    epoch: nat, runEpochAtDispatch: nat, leaseOwner: Option<nat>, dispatchStarted: bool,
    lastError: ActionError)

  datatype AttemptOutcome = AttemptSucceeded | AttemptFailed | AttemptUnknown | NotDispatched

  datatype Attempt = Attempt(
    action: nat, number: nat, epoch: nat, leaseOwner: nat, marked: bool, outcome: Option<AttemptOutcome>)

  datatype ApprovalStatus = Pending | Approved | Denied | Cancelled | Expired
  datatype OptionKind = AllowOnce | AllowSession | DenyOption | CancelOption | OtherOption

  datatype PermissionOption = PermissionOption(id: nat, kind: OptionKind, allowsAction: bool, wellFormed: bool)

  // approval.action_id is UNIQUE, so an approval is identified by its action.
  datatype Approval = Approval(
    status: ApprovalStatus, version: nat, options: seq<PermissionOption>, expiresAt: Option<nat>)

  datatype DeliveryKind = AuthorizationResolution | ActionResult
  datatype DeliveryStatus = Queued | Delivering | Acked | SafelyClosed | DeliveryFailed

  // The payload stands for its own digest.
  datatype Payload =
    | ApprovedByPolicy
    | DeniedByPolicy
    | ResolvedByUser(decision: ApprovalStatus, option: nat)
    | ExpiredWith(option: nat)
    | PolicyDeniedResult
    | RecordedResult(outcome: ResultOutcome, content: nat)

  datatype Delivery = Delivery(
    run: nat, action: nat, kind: DeliveryKind, payload: Payload, targetEpoch: nat,
    status: DeliveryStatus, availableAt: nat, leaseOwner: Option<nat>, leaseExpires: nat, version: nat)

  datatype RunStatus = RunQueued | Running | Waiting | RunSucceeded | RunFailed | RunCancelled
  datatype WaitReason =
    | NoWait | WaitApproval | WaitExecution | WaitDelivery | WaitUnknownOutcome
    | WaitRecovery | WaitInitializing | WaitInputUnknown | WaitNetwork | WaitNetworkBlocked

  datatype Semantics = CoreEnforced | RuntimeManaged
  datatype Effect = AllowEffect | AskEffect | DenyEffect | InvalidEffect
  datatype Rule = Rule(kind: Option<nat>, effect: Effect) // no kind: the wildcard

  datatype Run = Run(
    status: RunStatus, wait: WaitReason, recoveryRequired: bool, epoch: nat, version: nat,
    cancelRequested: bool, semantics: Semantics, capable: bool, rules: seq<Rule>, singleChat: bool,
    woken: bool) // for proofs alone: it last began to run at a live input acknowledgement that found it blocked

  datatype Tables = Tables(
    runs: map<nat, Run>, actions: map<nat, Action>, approvals: map<nat, Approval>,
    attempts: map<nat, Attempt>, deliveries: map<nat, Delivery>)

  const EMPTY := Tables(map[], map[], map[], map[], map[])

  datatype ResultOutcome = ResultSucceeded | ResultFailed | ResultUnknown
  datatype EffectDisposition = NoEffect | Complete | Partial | UnknownEffect
  datatype Component = Executor | Reconciler | Adapter | OtherComponent

  datatype Command =
    // environment
    | NewRun(run: nat, semantics: Semantics, capable: bool, rules: seq<Rule>, singleChat: bool)
    | ClaimRun(run: nat, runVersion: nat, admitted: bool)
    | RequestCancel(run: nat)
    | EndRun(run: nat, final: RunStatus)
    | AbortRun(run: nat, final: RunStatus)
    | Restart(inputUnknown: set<nat>, lostBatches: set<nat>, acceptedInput: set<nat>, now: nat)
    // environment, on the run row alone
    | MarkInputUnknown(run: nat, runEpoch: nat, admitted: bool)
    | AcceptInput(run: nat, runEpoch: nat, admitted: bool, uncertain: bool, live: bool)
    | WaitForRecovery(run: nat, runVersion: nat, runEpoch: nat, admitted: bool)
    | WaitForNetwork(run: nat, runVersion: nat, runEpoch: nat, admitted: bool)
    | RetryNetwork(run: nat, runVersion: nat, runEpoch: nat, admitted: bool, safe: bool)
    // action.rs
    | Prepare(run: nat, runEpoch: nat, admitted: bool, scopeOk: bool, action: nat, kind: nat,
              mode: ControlMode, digest: nat, nativeRequest: Option<nat>,
              options: seq<PermissionOption>, executeBefore: Option<nat>, delivery: nat, now: nat)
    | RecordObserved(run: nat, runEpoch: nat, admitted: bool, action: nat, digest: nat,
                     outcome: ResultOutcome, effect: EffectDisposition)
    | Resolve(action: nat, admitted: bool, option: nat, approvalVersion: nat, delivery: nat, now: nat)
    | Claim(action: nat, admitted: bool, component: Component, actionVersion: nat, owner: nat,
            authorization: Option<nat>, authorizationOwner: Option<nat>, attempt: nat, now: nat)
    | MarkDispatch(action: nat, attempt: nat, actionEpoch: nat, owner: nat)
    | RecordResult(action: nat, admitted: bool, component: Component, backgroundEvidence: bool,
                   attempt: nat, actionEpoch: nat, outcome: ResultOutcome, effect: EffectDisposition,
                   content: nat, delivery: nat, now: nat)
    | Acquire(delivery: nat, admitted: bool, deliveryVersion: nat, owner: nat, leaseSeconds: nat, now: nat)
    | Acknowledge(delivery: nat, admitted: bool, payload: Payload, targetEpoch: nat, owner: nat)
    | FailDelivery(delivery: nat, admitted: bool, payload: Payload, targetEpoch: nat, owner: nat)
    | ConfirmResolved(run: nat, runEpoch: nat, admitted: bool, action: nat, requestId: nat)
    | ReconcileLoss(run: nat, runVersion: nat, runEpoch: nat, admitted: bool, inputMayHaveExecuted: bool)

  // Predicates over rows ---------------------------------------------------------------------------

  predicate Active(r: Run) { r.status.Running? || r.status.Waiting? }

  predicate Ended(r: Run) { r.status.RunSucceeded? || r.status.RunFailed? || r.status.RunCancelled? }

  predicate AcceptsEffects(r: Run) { Active(r) && !r.cancelRequested }

  predicate Open(d: Delivery) { d.status.Queued? || d.status.Delivering? || d.status.DeliveryFailed? }

  predicate Refusal(o: PermissionOption) { o.kind.DenyOption? || o.kind.CancelOption? }

  predicate RunIs(t: Tables, action: nat, run: nat) { action in t.actions && t.actions[action].run == run }

  /** The three counts that keep a run from resuming (action.rs:3650-3662). */
  predicate Blocked(t: Tables, run: nat) {
    || (exists a | a in t.approvals :: t.approvals[a].status.Pending? && RunIs(t, a, run))
    || (exists a | a in t.actions :: t.actions[a].run == run && t.actions[a].status.Unknown?)
    || (exists d | d in t.deliveries :: t.deliveries[d].run == run && Open(t.deliveries[d]))
  }

  // Helpers shared by the commands -----------------------------------------------------------------

  function MarkWaiting(t: Tables, run: nat, reason: WaitReason): Tables {
    if run in t.runs && Active(t.runs[run]) then
      var r := t.runs[run];
      t.(runs := t.runs[run := r.(status := Waiting, wait := reason, version := r.version + 1)])
    else t
  }

  function ResumeIfUnblocked(t: Tables, run: nat): Tables {
    if run in t.runs && !Blocked(t, run) && t.runs[run].status.Waiting?
       && t.runs[run].wait in {WaitApproval, WaitExecution, WaitDelivery} then
      var r := t.runs[run];
      t.(runs := t.runs[run :=
        if r.recoveryRequired then r.(wait := WaitRecovery, version := r.version + 1)
        else r.(status := Running, wait := NoWait, version := r.version + 1, woken := false)])
    else t
  }

  function SetNotExecuted(t: Tables, action: nat): Tables
    requires action in t.actions
  {
    var a := t.actions[action];
    t.(actions := t.actions[action := a.(status := NotExecuted, version := a.version + 1)])
  }

  predicate SamePayloadExists(t: Tables, action: nat, kind: DeliveryKind, payload: Payload) {
    exists d | d in t.deliveries ::
      t.deliveries[d].action == action && t.deliveries[d].kind == kind && t.deliveries[d].payload == payload
  }

  // INSERT OR IGNORE under UNIQUE(action_id, delivery_kind, payload_digest).
  function CreateDelivery(t: Tables, id: nat, run: nat, action: nat, kind: DeliveryKind,
                          epoch: nat, payload: Payload, now: nat): Tables
  {
    if SamePayloadExists(t, action, kind, payload) then t
    else t.(deliveries := t.deliveries[id :=
      Delivery(run, action, kind, payload, epoch, Queued, now, None, 0, 1)])
  }

  function FindOption(options: seq<PermissionOption>, id: nat): Option<PermissionOption> {
    if options == [] then None
    else if options[0].id == id then Some(options[0])
    else FindOption(options[1..], id)
  }

  function FirstRefusal(options: seq<PermissionOption>): Option<PermissionOption> {
    if options == [] then None
    else if Refusal(options[0]) then Some(options[0])
    else FirstRefusal(options[1..])
  }

  // Policy -----------------------------------------------------------------------------------------

  predicate Matches(rule: Rule, kind: nat) { rule.kind == None || rule.kind == Some(kind) }

  predicate HasEffect(rules: seq<Rule>, kind: nat, effect: Effect) {
    exists i | 0 <= i < |rules| :: Matches(rules[i], kind) && rules[i].effect == effect
  }

  /** Deny over ask over allow; no matching rule denies. None: a matching rule has no valid effect. */
  function Evaluate(rules: seq<Rule>, kind: nat): Option<Decision> {
    if HasEffect(rules, kind, InvalidEffect) then None
    else if HasEffect(rules, kind, DenyEffect) then Some(Deny)
    else if HasEffect(rules, kind, AskEffect) then Some(Ask)
    else if HasEffect(rules, kind, AllowEffect) then Some(Allow)
    else Some(Deny)
  }

  // prepare_action ---------------------------------------------------------------------------------

  predicate OptionsAcceptable(options: seq<PermissionOption>) {
    && options != []
    && (forall i | 0 <= i < |options| :: options[i].wellFormed)
    && (forall i, j | 0 <= i < j < |options| :: options[i].id != options[j].id)
    && (exists i | 0 <= i < |options| :: Refusal(options[i]))
  }

  predicate RuntimeManagedRequest(r: Run, c: Command)
    requires c.Prepare?
  {
    r.semantics.RuntimeManaged? && c.mode.Intercepted?
  }

  function PolicyFor(r: Run, c: Command): Option<Decision>
    requires c.Prepare?
  {
    if c.mode.Observed? then Some(ObservedOnly)
    else if RuntimeManagedRequest(r, c) then Some(Ask)
    else Evaluate(r.rules, c.kind)
  }

  predicate CanPrepare(t: Tables, c: Command)
    requires c.Prepare?
  {
    && c.run in t.runs
    && var r := t.runs[c.run];
    && c.admitted && Active(r) && r.epoch == c.runEpoch
    && (c.mode.Observed? || !r.cancelRequested)
    && (c.mode.Intercepted? <==> c.nativeRequest.Some?)
    && (RuntimeManagedRequest(r, c) || r.capable)
    && (r.semantics.CoreEnforced? ==> c.scopeOk)
    && (RuntimeManagedRequest(r, c) ==> OptionsAcceptable(c.options))
    && c.action !in t.actions && c.delivery !in t.deliveries
    && PolicyFor(r, c).Some?
  }

  const CORE_OPTIONS :=
    [PermissionOption(0, DenyOption, false, true), PermissionOption(1, AllowOnce, true, true)]

  function NewAction(c: Command, policy: Decision): Action
    requires c.Prepare?
  {
    Action(c.run, c.mode, policy, c.digest, c.nativeRequest, c.runEpoch, c.executeBefore,
           match policy { case Deny => NotExecuted case ObservedOnly => Unknown case _ => Prepared },
           1, 0, None, 0, 0, None, false, NoError)
  }

  // The action and the approval it asks for, before the run waits and any delivery.
  function Recorded(t: Tables, c: Command): Tables
    requires c.Prepare? && CanPrepare(t, c)
  {
    var policy := PolicyFor(t.runs[c.run], c).value;
    t.(actions := t.actions[c.action := NewAction(c, policy)],
       approvals := if !policy.Ask? then t.approvals else t.approvals[c.action :=
         Approval(Pending, 1, if c.mode.Intercepted? then c.options else CORE_OPTIONS, c.executeBefore)])
  }

  function DoPrepare(t: Tables, c: Command): Tables
    requires c.Prepare? && CanPrepare(t, c)
  {
    var t1 := Recorded(t, c);
    match PolicyFor(t.runs[c.run], c).value
    case Ask => MarkWaiting(t1, c.run, WaitApproval)
    case Deny =>
      var t2 := MarkWaiting(t1, c.run, WaitDelivery);
      if c.mode.Intercepted? then
        CreateDelivery(t2, c.delivery, c.run, c.action, AuthorizationResolution, c.runEpoch, DeniedByPolicy, c.now)
      else
        CreateDelivery(t2, c.delivery, c.run, c.action, ActionResult, c.runEpoch, PolicyDeniedResult, c.now)
    case Allow =>
      if c.mode.Intercepted? then
        CreateDelivery(MarkWaiting(t1, c.run, WaitDelivery), c.delivery, c.run, c.action,
                       AuthorizationResolution, c.runEpoch, ApprovedByPolicy, c.now)
      else MarkWaiting(t1, c.run, WaitExecution)
    case ObservedOnly => MarkWaiting(t1, c.run, WaitUnknownOutcome)
  }

  // record_observed_action -------------------------------------------------------------------------

  predicate Consistent(outcome: ResultOutcome, effect: EffectDisposition) {
    match outcome
    case ResultSucceeded => !effect.UnknownEffect?
    case ResultFailed => !effect.Complete?
    case ResultUnknown => effect.Partial? || effect.UnknownEffect?
  }

  function StatusOf(outcome: ResultOutcome): ActionStatus {
    match outcome case ResultSucceeded => Succeeded case ResultFailed => Failed case ResultUnknown => Unknown
  }

  predicate CanRecordObserved(t: Tables, c: Command)
    requires c.RecordObserved?
  {
    && Consistent(c.outcome, c.effect)
    && c.run in t.runs && c.admitted && Active(t.runs[c.run]) && t.runs[c.run].epoch == c.runEpoch
    && (t.runs[c.run].semantics.CoreEnforced? ==> t.runs[c.run].capable)
    && c.action !in t.actions
  }

  function DoRecordObserved(t: Tables, c: Command): Tables
    requires c.RecordObserved? && CanRecordObserved(t, c)
  {
    var a := Action(c.run, Observed, ObservedOnly, c.digest, None, c.runEpoch, None, StatusOf(c.outcome),
                    1, 0, None, 0, 0, None, false, NoError);
    var t1 := t.(actions := t.actions[c.action := a]);
    if c.outcome.ResultUnknown? then MarkWaiting(t1, c.run, WaitUnknownOutcome) else t1
  }

  // resolve_approval -------------------------------------------------------------------------------

  predicate CanResolve(t: Tables, c: Command)
    requires c.Resolve?
  {
    && c.admitted && c.action in t.approvals && c.action in t.actions && t.actions[c.action].run in t.runs
    && var p := t.approvals[c.action]; var a := t.actions[c.action]; var r := t.runs[a.run];
    && p.status.Pending? && p.version == c.approvalVersion
    && a.status.Prepared? && a.sourceEpoch == r.epoch
    && var o := FindOption(p.options, c.option);
    && o.Some? && (o.value.allowsAction ==> AcceptsEffects(r))
    && (r.semantics.RuntimeManaged? ==> o.value.wellFormed)
    && (ApprovalExpired(p, c.now) ==> FirstRefusal(p.options).Some?)
    && c.delivery !in t.deliveries
  }

  predicate ApprovalExpired(p: Approval, now: nat) { p.expiresAt.Some? && p.expiresAt.value < now }

  function ChosenStatus(o: PermissionOption): ApprovalStatus {
    if o.kind.CancelOption? then Cancelled else if o.allowsAction then Approved else Denied
  }

  function SetApproval(t: Tables, action: nat, status: ApprovalStatus): Tables
    requires action in t.approvals
  {
    var p := t.approvals[action];
    t.(approvals := t.approvals[action := p.(status := status, version := p.version + 1)])
  }

  // The approval and its action, before any delivery.
  function Resolved(t: Tables, c: Command): Tables
    requires c.Resolve? && CanResolve(t, c)
  {
    var p := t.approvals[c.action];
    var o := FindOption(p.options, c.option).value;
    var t1 := SetApproval(t, c.action, if ApprovalExpired(p, c.now) then Expired else ChosenStatus(o));
    if ApprovalExpired(p, c.now) || !o.allowsAction then SetNotExecuted(t1, c.action) else t1
  }

  function DoResolve(t: Tables, c: Command): Tables
    requires c.Resolve? && CanResolve(t, c)
  {
    var p, a := t.approvals[c.action], t.actions[c.action];
    var r := t.runs[a.run];
    var o := FindOption(p.options, c.option).value;
    var t1 := Resolved(t, c);
    if ApprovalExpired(p, c.now) then
      if AcceptsEffects(r) then
        CreateDelivery(t1, c.delivery, a.run, c.action, AuthorizationResolution, r.epoch,
                       ExpiredWith(FirstRefusal(p.options).value.id), c.now)
      else t1
    else if AcceptsEffects(r) && (a.mode.Intercepted? || !o.allowsAction) then
      MarkWaiting(
        CreateDelivery(t1, c.delivery, a.run, c.action, AuthorizationResolution, r.epoch,
                       ResolvedByUser(ChosenStatus(o), o.id), c.now),
        a.run, WaitDelivery)
    else if o.allowsAction then MarkWaiting(t1, a.run, WaitExecution)
    else t1
  }

  // claim_action -----------------------------------------------------------------------------------

  predicate Authorised(t: Tables, action: nat)
    requires action in t.actions
  {
    match t.actions[action].policy
    case Ask => action in t.approvals && t.approvals[action].status.Approved?
    case Allow => true
    case _ => false
  }

  predicate CanClaim(t: Tables, c: Command)
    requires c.Claim?
  {
    && c.admitted && c.action in t.actions && t.actions[c.action].run in t.runs
    && var a := t.actions[c.action]; var r := t.runs[a.run];
    && a.status.Prepared? && a.version == c.actionVersion
    && Active(r) && !r.cancelRequested
    && (a.executeBefore.Some? ==> c.now <= a.executeBefore.value)
    && Authorised(t, c.action)
    && c.attempt !in t.attempts
    && match a.mode
       case Mediated => c.component.Executor? && c.authorization == None && c.authorizationOwner == None
       case Intercepted =>
         && c.component.Adapter? && c.authorization.Some? && c.authorizationOwner.Some?
         && c.authorization.value in t.deliveries
         && var d := t.deliveries[c.authorization.value];
         && d.action == c.action && d.kind.AuthorizationResolution? && d.status.Delivering?
         && d.targetEpoch == r.epoch && d.leaseOwner == c.authorizationOwner
       case Observed => false
  }

  function DoClaim(t: Tables, c: Command): Tables
    requires c.Claim? && CanClaim(t, c)
  {
    var a := t.actions[c.action];
    t.(attempts := t.attempts[c.attempt :=
         Attempt(c.action, a.attemptCount + 1, a.version + 1, c.owner, false, None)],
       actions := t.actions[c.action := a.(
         status := Executing, attemptCount := a.attemptCount + 1, activeAttempt := Some(c.attempt),
         epoch := a.version + 1, runEpochAtDispatch := t.runs[a.run].epoch, leaseOwner := Some(c.owner),
         version := a.version + 1)])
  }

  // mark_dispatch_started --------------------------------------------------------------------------

  predicate CanMarkDispatch(t: Tables, c: Command)
    requires c.MarkDispatch?
  {
    && c.action in t.actions && t.actions[c.action].run in t.runs
    && var a := t.actions[c.action]; var r := t.runs[a.run];
    && a.activeAttempt == Some(c.attempt) && a.epoch == c.actionEpoch && a.leaseOwner == Some(c.owner)
    && a.status.Executing?
    && Active(r) && r.epoch == a.runEpochAtDispatch && !r.cancelRequested
  }

  function DoMarkDispatch(t: Tables, c: Command): Tables
    requires c.MarkDispatch? && CanMarkDispatch(t, c)
  {
    var a := t.actions[c.action];
    t.(actions := t.actions[c.action := a.(dispatchStarted := true, version := a.version + 1)],
       attempts :=
         if c.attempt in t.attempts && t.attempts[c.attempt].action == c.action
            && t.attempts[c.attempt].epoch == c.actionEpoch
         then t.attempts[c.attempt := t.attempts[c.attempt].(marked := true)]
         else t.attempts)
  }

  // record_result ----------------------------------------------------------------------------------

  predicate OwnsResult(mode: ControlMode, component: Component) {
    match mode
    case Mediated => component.Executor? || component.Reconciler?
    case Intercepted => component.Adapter? || component.Reconciler?
    case Observed => false
  }

  predicate CanRecordResult(t: Tables, c: Command)
    requires c.RecordResult?
  {
    && Consistent(c.outcome, c.effect)
    && c.admitted && c.action in t.actions && t.actions[c.action].run in t.runs
    && var a := t.actions[c.action];
    && (a.status.Executing? ||
        (a.status.Unknown? && (c.component.Reconciler? || (c.component.Adapter? && c.backgroundEvidence))))
    && a.activeAttempt == Some(c.attempt) && a.epoch == c.actionEpoch
    && OwnsResult(a.mode, c.component) && a.dispatchStarted
    && c.delivery !in t.deliveries
  }

  function OutcomeOf(outcome: ResultOutcome): AttemptOutcome {
    match outcome
    case ResultSucceeded => AttemptSucceeded
    case ResultFailed => AttemptFailed
    case ResultUnknown => AttemptUnknown
  }

  // The action and its attempt, before the run and any delivery.
  function WithOutcome(t: Tables, c: Command): Tables
    requires c.RecordResult? && CanRecordResult(t, c)
  {
    var a := t.actions[c.action];
    t.(
      actions := t.actions[c.action := a.(
        status := StatusOf(c.outcome), leaseOwner := None, version := a.version + 1)],
      attempts :=
        if c.attempt in t.attempts && t.attempts[c.attempt].action == c.action
           && t.attempts[c.attempt].epoch == c.actionEpoch
        then t.attempts[c.attempt := t.attempts[c.attempt].(outcome := Some(OutcomeOf(c.outcome)))]
        else t.attempts)
  }

  function DoRecordResult(t: Tables, c: Command): Tables
    requires c.RecordResult? && CanRecordResult(t, c)
  {
    var a, t1 := t.actions[c.action], WithOutcome(t, c);
    if c.outcome.ResultUnknown? then MarkWaiting(t1, a.run, WaitUnknownOutcome)
    else if a.mode.Mediated? then
      MarkWaiting(
        CreateDelivery(t1, c.delivery, a.run, c.action, ActionResult, t.runs[a.run].epoch,
                       RecordedResult(c.outcome, c.content), c.now),
        a.run, WaitDelivery)
    else ResumeIfUnblocked(t1, a.run)
  }

  // Deliveries -------------------------------------------------------------------------------------

  predicate CanAcquire(t: Tables, c: Command)
    requires c.Acquire?
  {
    && c.admitted && c.leaseSeconds > 0 && c.delivery in t.deliveries && t.deliveries[c.delivery].run in t.runs
    && var d := t.deliveries[c.delivery]; var r := t.runs[d.run];
    && d.version == c.deliveryVersion
    && (d.status.Queued? || (d.status.Delivering? && d.leaseExpires <= c.now)) && d.availableAt <= c.now
    && Active(r) && r.epoch == d.targetEpoch && !r.cancelRequested
  }

  function DoAcquire(t: Tables, c: Command): Tables
    requires c.Acquire? && CanAcquire(t, c)
  {
    var d := t.deliveries[c.delivery];
    t.(deliveries := t.deliveries[c.delivery := d.(
      status := Delivering, leaseOwner := Some(c.owner), leaseExpires := c.now + c.leaseSeconds,
      version := d.version + 1)])
  }

  function Settle(d: Delivery, status: DeliveryStatus): Delivery {
    d.(status := status, leaseOwner := None, leaseExpires := 0, version := d.version + 1)
  }

  function SetDelivery(t: Tables, id: nat, status: DeliveryStatus): Tables
    requires id in t.deliveries
  {
    t.(deliveries := t.deliveries[id := Settle(t.deliveries[id], status)])
  }

  predicate HoldsLease(t: Tables, id: nat, payload: Payload, targetEpoch: nat, owner: nat) {
    && id in t.deliveries && t.deliveries[id].run in t.runs
    && var d := t.deliveries[id];
    && d.status.Delivering? && d.payload == payload && d.targetEpoch == targetEpoch && d.leaseOwner == Some(owner)
    && t.runs[d.run].epoch == targetEpoch
  }

  predicate CanAcknowledge(t: Tables, c: Command)
    requires c.Acknowledge?
  {
    && c.admitted && HoldsLease(t, c.delivery, c.payload, c.targetEpoch, c.owner)
    && Active(t.runs[t.deliveries[c.delivery].run])
  }

  function DoAcknowledge(t: Tables, c: Command): Tables
    requires c.Acknowledge? && CanAcknowledge(t, c)
  {
    ResumeIfUnblocked(SetDelivery(t, c.delivery, Acked), t.deliveries[c.delivery].run)
  }

  predicate CanFailDelivery(t: Tables, c: Command)
    requires c.FailDelivery?
  {
    c.admitted && HoldsLease(t, c.delivery, c.payload, c.targetEpoch, c.owner)
  }

  // confirm_runtime_request_resolved ---------------------------------------------------------------

  predicate IsAuthorization(t: Tables, id: nat, action: nat) {
    id in t.deliveries && t.deliveries[id].action == action && t.deliveries[id].kind.AuthorizationResolution?
  }

  predicate HasAuthorization(t: Tables, action: nat) {
    exists d | d in t.deliveries :: IsAuthorization(t, d, action)
  }

  ghost predicate OneAuthorization(t: Tables, action: nat) {
    forall d, e :: IsAuthorization(t, d, action) && IsAuthorization(t, e, action) ==> d == e
  }

  /** The joined delivery row: the invariant leaves at most one authorization per action. */
  ghost function AuthorizationOf(t: Tables, action: nat): (d: nat)
    requires HasAuthorization(t, action)
    ensures IsAuthorization(t, d, action)
  {
    var d :| d in t.deliveries && IsAuthorization(t, d, action); d
  }

  predicate CanConfirm(t: Tables, c: Command)
    requires c.ConfirmResolved?
  {
    && c.admitted && c.action in t.actions && t.actions[c.action].run == c.run && c.run in t.runs
    && var a := t.actions[c.action]; var r := t.runs[c.run];
    && a.mode.Intercepted? && a.sourceEpoch == c.runEpoch && a.nativeRequest == Some(c.requestId)
    && r.epoch == c.runEpoch && Active(r)
  }

  function CloseUndelivered(t: Tables, action: nat): Tables
    requires action in t.actions
  {
    var t1 := if t.actions[action].status.Prepared? then SetNotExecuted(t, action) else t;
    if action in t1.approvals && t1.approvals[action].status.Pending?
    then SetApproval(t1, action, Cancelled) else t1
  }

  // The rows of the request, before the run is looked at.
  ghost function Confirmed(t: Tables, action: nat): Tables
    requires action in t.actions
  {
    if !HasAuthorization(t, action) then CloseUndelivered(t, action)
    else
      var d := AuthorizationOf(t, action);
      match t.deliveries[d].status
      case Delivering => SetDelivery(t, d, Acked)
      case Queued => CloseUndelivered(SetDelivery(t, d, SafelyClosed), action)
      case DeliveryFailed => SetDelivery(t, d, SafelyClosed)
      case _ => t
  }

  ghost function DoConfirm(t: Tables, c: Command): Tables
    requires c.ConfirmResolved? && CanConfirm(t, c)
  {
    ResumeIfUnblocked(Confirmed(t, c.action), c.run)
  }

  // Closing a run's effects ------------------------------------------------------------------------

  function MarkUnknown(a: Action, error: ActionError): Action {
    a.(status := Unknown, leaseOwner := None, lastError := error, version := a.version + 1)
  }

  function Discard(a: Action): Action {
    a.(status := NotExecuted, leaseOwner := None, version := a.version + 1)
  }

  function Withdraw(p: Approval): Approval { p.(status := Cancelled, version := p.version + 1) }

  function CloseAction(a: Action): Action {
    if a.status.Executing? && a.dispatchStarted then MarkUnknown(a, RunAborted)
    else if a.status.Prepared? || a.status.Executing? then Discard(a)
    else a
  }

  predicate OfRuns(actions: map<nat, Action>, id: nat, runs: set<nat>) { id in actions && actions[id].run in runs }

  function CloseAttempt(actions: map<nat, Action>, y: Attempt, runs: set<nat>): Attempt {
    if y.outcome == None && OfRuns(actions, y.action, runs)
       && CloseAction(actions[y.action]).status.Unknown? && CloseAction(actions[y.action]).lastError.RunAborted?
    then y.(outcome := Some(AttemptUnknown)) else y
  }

  // close_abortive_run_effects, for any set of runs. One error name stands for the three reasons.
  function CloseActions(actions: map<nat, Action>, runs: set<nat>): map<nat, Action> {
    map a | a in actions :: if actions[a].run in runs then CloseAction(actions[a]) else actions[a]
  }

  function CloseApprovals(t: Tables, runs: set<nat>): map<nat, Approval> {
    map a | a in t.approvals ::
      if t.approvals[a].status.Pending? && OfRuns(t.actions, a, runs) then Withdraw(t.approvals[a]) else t.approvals[a]
  }

  function CloseAttempts(t: Tables, runs: set<nat>): map<nat, Attempt> {
    map x | x in t.attempts :: CloseAttempt(t.actions, t.attempts[x], runs)
  }

  function CloseDeliveries(deliveries: map<nat, Delivery>, runs: set<nat>): map<nat, Delivery> {
    map d | d in deliveries ::
      if deliveries[d].run in runs && Open(deliveries[d]) then Settle(deliveries[d], SafelyClosed) else deliveries[d]
  }

  function CloseEffects(t: Tables, runs: set<nat>): Tables {
    Tables(t.runs, CloseActions(t.actions, runs), CloseApprovals(t, runs), CloseAttempts(t, runs),
           CloseDeliveries(t.deliveries, runs))
  }

  predicate Final(s: RunStatus) { s.RunSucceeded? || s.RunFailed? || s.RunCancelled? }

  function EndRow(r: Run, final: RunStatus, cancel: bool): Run {
    r.(status := final, wait := NoWait, recoveryRequired := false, version := r.version + 1,
       cancelRequested := r.cancelRequested || cancel)
  }

  // settle_interrupted_run_in_tx: closing and the terminal status are one transaction.
  function Abort(t: Tables, run: nat, final: RunStatus): Tables
    requires run in t.runs
  {
    var t1 := CloseEffects(t, {run});
    t1.(runs := t1.runs[run := EndRow(t1.runs[run], final, true)])
  }

  // reconcile_runtime_loss -------------------------------------------------------------------------

  predicate CanReconcileLoss(t: Tables, c: Command)
    requires c.ReconcileLoss?
  {
    && c.admitted && c.run in t.runs
    && var r := t.runs[c.run];
    && r.version == c.runVersion && r.epoch == c.runEpoch && Active(r)
    // a lost run whose input may have executed is failed only while no cancel is requested
    && (!r.singleChat && c.inputMayHaveExecuted ==> !r.cancelRequested)
  }

  function LoseAction(a: Action, run: nat, epoch: nat): Action {
    if a.run != run || a.sourceEpoch != epoch || !a.mode.Intercepted? then a
    else if a.status.Executing? && a.dispatchStarted then MarkUnknown(a, RuntimeLost)
    else if a.status.Prepared? then Discard(a)
    else a
  }

  predicate Lost(actions: map<nat, Action>, id: nat, run: nat, epoch: nat) {
    id in actions && actions[id].run == run && actions[id].sourceEpoch == epoch
  }

  function LoseAttempt(actions: map<nat, Action>, y: Attempt, run: nat, epoch: nat): Attempt {
    if y.outcome == None && Lost(actions, y.action, run, epoch)
       && LoseAction(actions[y.action], run, epoch).status.Unknown?
       && LoseAction(actions[y.action], run, epoch).lastError.RuntimeLost?
    then y.(outcome := Some(AttemptUnknown)) else y
  }

  function LoseActions(actions: map<nat, Action>, run: nat, epoch: nat): map<nat, Action> {
    map a | a in actions :: LoseAction(actions[a], run, epoch)
  }

  function LoseApprovals(t: Tables, run: nat, epoch: nat): map<nat, Approval> {
    map a | a in t.approvals ::
      if t.approvals[a].status.Pending? && Lost(t.actions, a, run, epoch) && t.actions[a].mode.Intercepted?
      then Withdraw(t.approvals[a]) else t.approvals[a]
  }

  function LoseAttempts(t: Tables, run: nat, epoch: nat): map<nat, Attempt> {
    map x | x in t.attempts :: LoseAttempt(t.actions, t.attempts[x], run, epoch)
  }

  function LoseDeliveries(deliveries: map<nat, Delivery>, run: nat, epoch: nat): map<nat, Delivery> {
    map d | d in deliveries ::
      if deliveries[d].run == run && deliveries[d].targetEpoch == epoch
         && deliveries[d].kind.AuthorizationResolution? && Open(deliveries[d])
      then Settle(deliveries[d], SafelyClosed) else deliveries[d]
  }

  function LoseEffects(t: Tables, run: nat, epoch: nat): Tables {
    Tables(t.runs, LoseActions(t.actions, run, epoch), LoseApprovals(t, run, epoch), LoseAttempts(t, run, epoch),
           LoseDeliveries(t.deliveries, run, epoch))
  }

  predicate HasUnknown(t: Tables, run: nat) {
    exists a | a in t.actions :: t.actions[a].run == run && t.actions[a].status.Unknown?
  }

  function DoReconcileLoss(t: Tables, c: Command): Tables
    requires c.ReconcileLoss? && CanReconcileLoss(t, c)
  {
    if t.runs[c.run].singleChat then Abort(t, c.run, RunCancelled)
    else if c.inputMayHaveExecuted then Abort(t, c.run, RunFailed)
    else
      var t1 := LoseEffects(t, c.run, c.runEpoch);
      var r := t1.runs[c.run];
      t1.(runs := t1.runs[c.run := r.(
        status := Waiting,
        wait := if HasUnknown(t1, c.run) then WaitUnknownOutcome
                else if r.status.Running? || r.wait in {WaitApproval, WaitExecution, WaitDelivery} then WaitRecovery
                else r.wait,
        recoveryRequired := true, version := r.version + 1)])
  }

  // prepare_v2_recovery (crates/rovai-core/src/db.rs:8266-8660) -------------------------------------

  // An intercepted request that nobody answered yet, or whose answer is still open.
  predicate Unanswered(approvals: map<nat, Approval>, deliveries: map<nat, Delivery>, id: nat) {
    || (id in approvals && approvals[id].status.Pending?)
    || exists d | d in deliveries ::
         deliveries[d].action == id && deliveries[d].kind.AuthorizationResolution? && Open(deliveries[d])
  }

  // Executing without a marker goes back to prepared; then an unanswered intercepted prepared action is
  // discarded; then what still executes carries a marker and is unknown.
  function RestartAction(a: Action, unanswered: bool): Action {
    var b := if a.status.Executing? && !a.dispatchStarted
             then a.(status := Prepared, activeAttempt := None, leaseOwner := None,
                     lastError := RestartedBeforeDispatch, version := a.version + 1)
             else a;
    if b.status.Prepared? && b.mode.Intercepted? && unanswered then Discard(b)
    else if b.status.Executing? then MarkUnknown(b, RestartedAfterDispatch)
    else b
  }

  // The attempts of every action sent back are closed before some of those actions are discarded.
  function RestartAttempt(y: Attempt, a: Action, unanswered: bool): Attempt {
    if y.outcome != None then y
    else if (a.status.Executing? && !a.dispatchStarted) || (a.status.Prepared? && a.lastError.RestartedBeforeDispatch?)
    then y.(outcome := Some(NotDispatched))
    else if RestartAction(a, unanswered).status.Unknown?
        && RestartAction(a, unanswered).lastError.RestartedAfterDispatch?
    then y.(outcome := Some(AttemptUnknown))
    else y
  }

  function RestartDelivery(actions: map<nat, Action>, d: Delivery, now: nat): Delivery {
    if d.kind.ActionResult? && d.status.Delivering?
    then d.(status := Queued, availableAt := now, leaseOwner := None, leaseExpires := 0, version := d.version + 1)
    else if d.kind.AuthorizationResolution? && Open(d) && d.action in actions && actions[d.action].mode.Intercepted?
    then Settle(d, SafelyClosed)
    else d
  }

  function RestartActions(t: Tables): map<nat, Action> {
    map a | a in t.actions :: RestartAction(t.actions[a], Unanswered(t.approvals, t.deliveries, a))
  }

  function RestartApprovals(t: Tables): map<nat, Approval> {
    map a | a in t.approvals ::
      if t.approvals[a].status.Pending? && a in t.actions && t.actions[a].mode.Intercepted?
      then Withdraw(t.approvals[a]) else t.approvals[a]
  }

  function RestartAttempts(t: Tables): map<nat, Attempt> {
    map x | x in t.attempts ::
      if t.attempts[x].action in t.actions
      then RestartAttempt(t.attempts[x], t.actions[t.attempts[x].action],
                          Unanswered(t.approvals, t.deliveries, t.attempts[x].action))
      else t.attempts[x]
  }

  function RestartDeliveries(t: Tables, now: nat): map<nat, Delivery> {
    map d | d in t.deliveries :: RestartDelivery(t.actions, t.deliveries[d], now)
  }

  function RestartEffects(t: Tables, now: nat): Tables {
    Tables(t.runs, RestartActions(t), RestartApprovals(t), RestartAttempts(t), RestartDeliveries(t, now))
  }

  predicate Unsettled(t: Tables, run: nat) {
    || Blocked(t, run)
    || exists a | a in t.actions ::
        t.actions[a].run == run && (t.actions[a].status.Prepared? || t.actions[a].status.Executing?)
  }

  // The five updates of the run row, in order; t holds the rows after the action and delivery updates.
  function RestartRun(t: Tables, id: nat, inputUnknown: bool): Run
    requires id in t.runs
  {
    var r := t.runs[id];
    if !Active(r) then r
    else
      var r0 := if r.status.Waiting? && r.wait.WaitNetwork? && r.recoveryRequired
                then r.(wait := WaitRecovery, version := r.version + 1)
                else r;
      var r1 := if HasUnknown(t, id)
                then r0.(status := Waiting, wait := WaitUnknownOutcome, recoveryRequired := true,
                         version := r0.version + 1)
                else r0;
      var r2 := if inputUnknown
                then r1.(status := Waiting, wait := WaitInputUnknown, recoveryRequired := true,
                         version := r1.version + 1)
                else r1;
      var r3 := if (!r2.recoveryRequired || r2.status.Running?) && !HasUnknown(t, id)
                   && !(r2.status.Waiting? && r2.wait.WaitNetworkBlocked?)
                then r2.(status := Waiting, wait := if r2.status.Running? then WaitRecovery else r2.wait,
                         recoveryRequired := true, version := r2.version + 1)
                else r2;
      if r3.status.Waiting? && r3.recoveryRequired && r3.wait in {WaitApproval, WaitExecution, WaitDelivery}
         && !Unsettled(t, id)
      then r3.(wait := WaitRecovery, version := r3.version + 1) else r3
  }

  function RestartTables(t: Tables, inputUnknown: set<nat>, now: nat): Tables {
    var t1 := RestartEffects(t, now);
    t1.(runs := map r | r in t1.runs :: RestartRun(t1, r, r in inputUnknown))
  }

  // The runs of a lost batch are closed and failed.
  function FailBatches(t: Tables, lost: set<nat>): Tables {
    var batches := set r | r in t.runs && r in lost && AcceptsEffects(t.runs[r]);
    CloseEffects(t, batches).(runs := map r | r in t.runs ::
      if r in batches then EndRow(t.runs[r], RunFailed, true) else t.runs[r])
  }

  // A settled run that waits on an accepted input is failed.
  function FailIdle(t: Tables, accepted: set<nat>): Tables {
    t.(runs := map r | r in t.runs ::
      if r in accepted && t.runs[r].status.Waiting? && t.runs[r].wait.WaitRecovery?
         && t.runs[r].recoveryRequired && !t.runs[r].cancelRequested && !Unsettled(t, r)
      then EndRow(t.runs[r], RunFailed, true) else t.runs[r])
  }

  function DoRestart(t: Tables, inputUnknown: set<nat>, lost: set<nat>, accepted: set<nat>, now: nat): Tables {
    FailIdle(FailBatches(RestartTables(t, inputUnknown, now), lost), accepted - inputUnknown)
  }

  // claim_agent_run --------------------------------------------------------------------------------

  /** Approvals, executing or unknown actions and open deliveries (runtime.rs:6990-7014). */
  predicate RecoveryBlocked(t: Tables, run: nat) {
    || Blocked(t, run)
    || exists a | a in t.actions :: t.actions[a].run == run && t.actions[a].status.Executing?
  }

  predicate CanClaimRun(t: Tables, c: Command)
    requires c.ClaimRun?
  {
    && c.admitted && c.run in t.runs
    && var r := t.runs[c.run];
    && r.version == c.runVersion && !r.cancelRequested
    && (r.status.RunQueued?
        || (r.status.Waiting? && r.wait.WaitRecovery? && r.recoveryRequired && !RecoveryBlocked(t, c.run)))
  }

  // The run row alone ------------------------------------------------------------------------------

  predicate RunStep(c: Command) {
    c.MarkInputUnknown? || c.AcceptInput? || c.WaitForRecovery? || c.WaitForNetwork? || c.RetryNetwork?
  }

  function SetRun(t: Tables, run: nat, row: Option<Run>): Tables {
    if row.Some? then t.(runs := t.runs[run := row.value]) else t
  }

  // mark_input_delivery_unknown (context.rs:2757-2775), for an input without a source delivery.
  function AfterInputUnknown(t: Tables, c: Command): Option<Run>
    requires c.MarkInputUnknown?
  {
    if !c.admitted || c.run !in t.runs || !AcceptsEffects(t.runs[c.run]) || t.runs[c.run].epoch != c.runEpoch then None
    else
      var r := t.runs[c.run];
      Some(r.(status := Waiting, wait := WaitInputUnknown, recoveryRequired := true, version := r.version + 1))
  }

  /** A live acknowledgement of an input whose delivery was unknown finds the run waiting for it. */
  predicate Wakes(t: Tables, c: Command) {
    && c.AcceptInput? && c.admitted && c.uncertain && c.live && c.run in t.runs
    && var r := t.runs[c.run];
    && r.epoch == c.runEpoch && !r.cancelRequested && r.status.Waiting? && r.wait.WaitInputUnknown?
  }

  // acknowledge_input_delivery_transaction (context.rs:2999-3120): the live acknowledgement sets the run running
  // without looking at its blockers; the evidence-only one does not.
  function AfterAcceptInput(t: Tables, c: Command): Option<Run>
    requires c.AcceptInput?
  {
    if !c.admitted || c.run !in t.runs || t.runs[c.run].epoch != c.runEpoch || t.runs[c.run].cancelRequested then None
    else
      var r := t.runs[c.run];
      if Wakes(t, c) then
        Some(r.(status := Running, wait := NoWait, recoveryRequired := false, version := r.version + 1,
                woken := Blocked(t, c.run)))
      else if r.status.Running? && r.wait.WaitInitializing? then Some(r.(wait := NoWait))
      else if c.uncertain && r.status.Waiting? && r.wait.WaitInputUnknown? then
        Some(r.(wait := WaitRecovery, recoveryRequired := true, version := r.version + 1))
      else None
  }

  predicate RunIsCurrent(t: Tables, run: nat, version: nat, epoch: nat) {
    && run in t.runs && t.runs[run].version == version && t.runs[run].epoch == epoch && !t.runs[run].cancelRequested
  }

  // mark_for_recovery (runtime.rs:2121-2145).
  function AfterConnectionLost(t: Tables, c: Command): Option<Run>
    requires c.WaitForRecovery?
  {
    if !c.admitted || !RunIsCurrent(t, c.run, c.runVersion, c.runEpoch) || !Active(t.runs[c.run]) then None
    else
      var r := t.runs[c.run];
      Some(r.(status := Waiting, wait := if r.status.Running? then WaitRecovery else r.wait,
              recoveryRequired := true, version := r.version + 1))
  }

  // mark_for_network_recovery (runtime.rs:2202-2279).
  function AfterNetworkLost(t: Tables, c: Command): Option<Run>
    requires c.WaitForNetwork?
  {
    if !c.admitted || !RunIsCurrent(t, c.run, c.runVersion, c.runEpoch) || !t.runs[c.run].status.Running?
       || RecoveryBlocked(t, c.run) then None
    else
      var r := t.runs[c.run];
      Some(r.(status := Waiting, wait := WaitNetwork, recoveryRequired := true, version := r.version + 1))
  }

  // arm_network_recovery_attempt (runtime.rs:2321-2464).
  function AfterNetworkRetry(t: Tables, c: Command): Option<Run>
    requires c.RetryNetwork?
  {
    if !c.admitted || !RunIsCurrent(t, c.run, c.runVersion, c.runEpoch) || !t.runs[c.run].status.Waiting?
       || t.runs[c.run].wait !in {WaitNetwork, WaitRecovery} || !t.runs[c.run].recoveryRequired then None
    else
      var r := t.runs[c.run];
      Some(if !c.safe || RecoveryBlocked(t, c.run)
           then r.(wait := WaitNetworkBlocked, recoveryRequired := false, version := r.version + 1)
           else r.(wait := WaitRecovery, version := r.version + 1))
  }

  // One command ------------------------------------------------------------------------------------

  ghost function Step(t: Tables, c: Command): Tables {
    match c
    case NewRun(run, semantics, capable, rules, singleChat) =>
      if run in t.runs then t
      else t.(runs := t.runs[run := Run(
        RunQueued, NoWait, false, 0, 1, false, semantics, capable, rules, singleChat, false)])
    case ClaimRun(run, _, _) =>
      if CanClaimRun(t, c) then
        var r := t.runs[run];
        t.(runs := t.runs[run := r.(status := Running, wait := WaitInitializing, recoveryRequired := false,
                                    epoch := r.epoch + 1, version := r.version + 1, woken := false)])
      else t
    case RequestCancel(run) =>
      if run in t.runs then t.(runs := t.runs[run := t.runs[run].(cancelRequested := true)]) else t
    case EndRun(run, final) =>
      if run in t.runs && Active(t.runs[run]) && Final(final)
      then t.(runs := t.runs[run := EndRow(t.runs[run], final, false)]) else t
    case AbortRun(run, final) =>
      if run in t.runs && !Ended(t.runs[run]) && Final(final) then Abort(t, run, final) else t
    case Restart(inputUnknown, lost, accepted, now) => DoRestart(t, inputUnknown, lost, accepted, now)
    case MarkInputUnknown(_, _, _) => SetRun(t, c.run, AfterInputUnknown(t, c))
    case AcceptInput(_, _, _, _, _) => SetRun(t, c.run, AfterAcceptInput(t, c))
    case WaitForRecovery(_, _, _, _) => SetRun(t, c.run, AfterConnectionLost(t, c))
    case WaitForNetwork(_, _, _, _) => SetRun(t, c.run, AfterNetworkLost(t, c))
    case RetryNetwork(_, _, _, _, _) => SetRun(t, c.run, AfterNetworkRetry(t, c))
    case Prepare(_, _, _, _, _, _, _, _, _, _, _, _, _) => if CanPrepare(t, c) then DoPrepare(t, c) else t
    case RecordObserved(_, _, _, _, _, _, _) => if CanRecordObserved(t, c) then DoRecordObserved(t, c) else t
    case Resolve(_, _, _, _, _, _) => if CanResolve(t, c) then DoResolve(t, c) else t
    case Claim(_, _, _, _, _, _, _, _, _) => if CanClaim(t, c) then DoClaim(t, c) else t
    case MarkDispatch(_, _, _, _) => if CanMarkDispatch(t, c) then DoMarkDispatch(t, c) else t
    case RecordResult(_, _, _, _, _, _, _, _, _, _, _) => if CanRecordResult(t, c) then DoRecordResult(t, c) else t
    case Acquire(_, _, _, _, _, _) => if CanAcquire(t, c) then DoAcquire(t, c) else t
    case Acknowledge(_, _, _, _, _) => if CanAcknowledge(t, c) then DoAcknowledge(t, c) else t
    case FailDelivery(id, _, _, _, _) =>
      if CanFailDelivery(t, c) then SetDelivery(t, id, DeliveryFailed) else t
    case ConfirmResolved(_, _, _, _, _) => if CanConfirm(t, c) then DoConfirm(t, c) else t
    case ReconcileLoss(_, _, _, _, _) => if CanReconcileLoss(t, c) then DoReconcileLoss(t, c) else t
  }

  /** The tables after a whole run of commands. */
  ghost function RunAll(t: Tables, commands: seq<Command>): Tables
    decreases |commands|
  {
    if commands == [] then t else RunAll(Step(t, commands[0]), commands[1..])
  }
}
