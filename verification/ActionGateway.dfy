/** The command gateway: one command, one transaction, against the live tables. */
module ActionGateway {
  import opened Options
  import opened ActionModel
  import opened ActionInvariant
  import opened ActionHistory
  import opened ActionSteps
  import opened ActionService

  lemma AuthorizationIsUnique(t: Tables, action: nat)
    requires Inv(t)
    ensures OneAuthorization(t, action)
  {
    assert DeliveriesUnique(t.deliveries);
    hide Inv;
  }

  /** Every transaction moves the live tables by exactly one step, so the invariant and the history survive it. */
  method Execute(s: Service, c: Command) returns (applied: bool)
    requires Inv(s.State())
    modifies s
    ensures s.State() == Step(old(s.State()), c) && Advances(old(s.State()), s.State())
    ensures !applied ==> s.State() == old(s.State())
  {
    StepAdvances(s.State(), c);
    if c.ConfirmResolved? { AuthorizationIsUnique(s.State(), c.action); }
    hide Inv, Evolves, CanPrepare, DoPrepare, CanConfirm, DoConfirm, CanResolve, DoResolve, DoRestart, Abort,
         CanReconcileLoss, DoReconcileLoss, CanClaim, DoClaim, CanRecordResult, DoRecordResult, CanMarkDispatch,
         DoMarkDispatch, CanAcquire, DoAcquire, CanAcknowledge, DoAcknowledge, CanFailDelivery, CanRecordObserved,
         DoRecordObserved, CanClaimRun, OneAuthorization, AfterInputUnknown, AfterAcceptInput, AfterConnectionLost,
         AfterNetworkLost, AfterNetworkRetry;
    match c {
      case NewRun(_, _, _, _, _) => applied := s.AdmitRun(c);
      case ClaimRun(_, _, _) => applied := s.ClaimAgentRun(c);
      case RequestCancel(run) => applied := s.RequestRunCancel(run);
      case EndRun(run, final) => applied := s.FinishRun(run, final);
      case AbortRun(run, final) => applied := s.SettleInterruptedRun(run, final);
      case Restart(inputUnknown, lost, accepted, now) =>
        s.PrepareRecovery(inputUnknown, lost, accepted, now);
        applied := true;
      case MarkInputUnknown(_, _, _) => applied := s.MarkInputDeliveryUnknown(c);
      case AcceptInput(_, _, _, _, _) => applied := s.AcknowledgeInputDelivery(c);
      case WaitForRecovery(_, _, _, _) => applied := s.MarkForRecovery(c);
      case WaitForNetwork(_, _, _, _) => applied := s.MarkForNetworkRecovery(c);
      case RetryNetwork(_, _, _, _, _) => applied := s.ArmNetworkRecoveryAttempt(c);
      case Prepare(_, _, _, _, _, _, _, _, _, _, _, _, _) => applied := s.PrepareAction(c);
      case RecordObserved(_, _, _, _, _, _, _) => applied := s.RecordObservedAction(c);
      case Resolve(_, _, _, _, _, _) => applied := s.ResolveApproval(c);
      case Claim(_, _, _, _, _, _, _, _, _) => applied := s.ClaimAction(c);
      case MarkDispatch(_, _, _, _) => applied := s.MarkDispatchStarted(c);
      case RecordResult(_, _, _, _, _, _, _, _, _, _, _) => applied := s.RecordResult(c);
      case Acquire(_, _, _, _, _, _) => applied := s.AcquireDelivery(c);
      case Acknowledge(_, _, _, _, _) => applied := s.AcknowledgeDelivery(c);
      case FailDelivery(_, _, _, _, _) => applied := s.FailRuntimeDelivery(c);
      case ConfirmResolved(_, _, _, _, _) => applied := s.ConfirmRequestResolved(c);
      case ReconcileLoss(_, _, _, _, _) => applied := s.ReconcileRuntimeLoss(c);
    }
  }
}
