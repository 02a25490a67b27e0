/** Admission and return of runs: a new epoch fences what belongs to an earlier one, and a run that lost its runtime,
    its network or its input comes back by a claim. */
module ActionRuns {
  import opened Options
  import opened ActionModel
  import opened ActionInvariant
  import opened ActionHistory
  import opened ActionFrames
  import opened ActionProgress
  import opened ActionSteps

  // Admitted ----------------------------------------------------------------------------------------

  /** A new run waits in the queue; an identity is never given twice. It is admitted at its first version and then
      initializes, in its first epoch. */
  lemma NewRunIsAdmitted(t: Tables, c: Command, claim: Command)
    requires c.NewRun? && claim.ClaimRun? && claim.run == c.run && claim.admitted
    ensures if c.run in t.runs then Step(t, c) == t
      else var u := Step(t, c);
        && (CanClaimRun(u, claim) <==> claim.runVersion == 1)
        && (CanClaimRun(u, claim) ==>
              var r := Step(u, claim).runs[c.run];
              && r.status.Running? && r.wait.WaitInitializing? && r.epoch == 1
              && !r.recoveryRequired && !r.cancelRequested && r.rules == c.rules
              && r.semantics == c.semantics && r.capable == c.capable && r.singleChat == c.singleChat)
  {
  }

  /** Every admission opens the next epoch, and what was claimed, asked or to be delivered in an earlier one is neither
      dispatched, nor resolved, nor leased in it. */
  lemma AdmissionFences(t: Tables, c: Command, late: Command)
    requires c.ClaimRun? && CanClaimRun(t, c)
    ensures var u, epoch := Step(t, c), t.runs[c.run].epoch;
      && u.runs[c.run].epoch == epoch + 1 && u.runs[c.run].status.Running? && !u.runs[c.run].recoveryRequired
      && (late.MarkDispatch? && RunIs(t, late.action, c.run) && t.actions[late.action].runEpochAtDispatch <= epoch ==>
            !CanMarkDispatch(u, late))
      && (late.Resolve? && RunIs(t, late.action, c.run) && t.actions[late.action].sourceEpoch <= epoch ==>
            !CanResolve(u, late))
      && (late.Acquire? && DeliveryBefore(t, late.delivery, c.run, epoch) ==> !CanAcquire(u, late))
  {
    hide RecoveryBlocked, FindOption, FirstRefusal;
  }

  predicate DeliveryBefore(t: Tables, d: nat, run: nat, epoch: nat) {
    d in t.deliveries && t.deliveries[d].run == run && t.deliveries[d].targetEpoch <= epoch
  }

  /** The epoch of a run that a command names, when it names one. */
  predicate NamesEpoch(t: Tables, c: Command, run: nat, epoch: nat) {
    match c
    case Prepare(r, e, _, _, _, _, _, _, _, _, _, _, _) => r == run && e == epoch
    case RecordObserved(r, e, _, _, _, _, _) => r == run && e == epoch
    case ConfirmResolved(r, e, _, _, _) => r == run && e == epoch
    case ReconcileLoss(r, _, e, _, _) => r == run && e == epoch
    case MarkInputUnknown(r, e, _) => r == run && e == epoch
    case AcceptInput(r, e, _, _, _) => r == run && e == epoch
    case WaitForRecovery(r, _, e, _) => r == run && e == epoch
    case WaitForNetwork(r, _, e, _) => r == run && e == epoch
    case RetryNetwork(r, _, e, _, _) => r == run && e == epoch
    case Acknowledge(d, _, _, e, _) => d in t.deliveries && t.deliveries[d].run == run && e == epoch
    case FailDelivery(d, _, _, e, _) => d in t.deliveries && t.deliveries[d].run == run && e == epoch
    case _ => false
  }

  lemma OtherEpochIsRefused(t: Tables, c: Command, run: nat, epoch: nat)
    requires run in t.runs && epoch != t.runs[run].epoch && NamesEpoch(t, c, run, epoch)
    ensures Step(t, c) == t
  {
    hide PolicyFor, OptionsAcceptable, RecoveryBlocked, Blocked, HasUnknown, Confirmed, ResumeIfUnblocked, Abort,
         LoseEffects, DoPrepare;
  }

  /** Nothing that names an epoch before an admission is taken in any continuation of it. */
  lemma StaleEpochIsRefused(t: Tables, c: Command, later: seq<Command>, late: Command, epoch: nat)
    requires Inv(t) && c.ClaimRun? && CanClaimRun(t, c) && epoch <= t.runs[c.run].epoch
    ensures var u := RunAll(Step(t, c), later);
            NamesEpoch(u, late, c.run, epoch) ==> Step(u, late) == u
  {
    var u := RunAll(Step(t, c), later);
    AdmissionFences(t, c, late);
    StepAdvances(t, c);
    RunAdvances(Step(t, c), later);
    assert RunEvolves(Step(t, c).runs[c.run], u.runs[c.run]);
    hide Inv, Step, Evolves, RunAll, CanClaimRun, NamesEpoch;
    if NamesEpoch(u, late, c.run, epoch) { OtherEpochIsRefused(u, late, c.run, epoch); }
  }

  /** A cancel request only raises the flag, and from then on nothing new is prepared, approved, claimed, marked, leased
      or admitted for the run. */
  lemma CancelRequestFences(t: Tables, run: nat, late: Command)
    requires run in t.runs
    ensures var u := Step(t, RequestCancel(run));
      && u == t.(runs := t.runs[run := t.runs[run].(cancelRequested := true)])
      && (late.Prepare? && late.run == run && !late.mode.Observed? ==> !CanPrepare(u, late))
      && (late.Claim? && RunIs(t, late.action, run) ==> !CanClaim(u, late))
      && (late.MarkDispatch? && RunIs(t, late.action, run) ==> !CanMarkDispatch(u, late))
      && (late.Acquire? && late.delivery in t.deliveries && t.deliveries[late.delivery].run == run ==>
            !CanAcquire(u, late))
      && (late.ClaimRun? && late.run == run ==> !CanClaimRun(u, late))
  {
    hide PolicyFor, OptionsAcceptable, RecoveryBlocked;
  }

  lemma EndedRun(t: Tables, run: nat, final: RunStatus)
    requires run in t.runs && Final(final)
    ensures Step(t, EndRun(run, final)) == if !Active(t.runs[run]) then t else
      t.(runs := t.runs[run := t.runs[run].(
        status := final, wait := NoWait, recoveryRequired := false, version := t.runs[run].version + 1)])
  {
  }

  // Coming back ---------------------------------------------------------------------------------------

  /** A claim of the run as it is now. */
  function ClaimNow(t: Tables, run: nat): Command
    requires run in t.runs
  {
    ClaimRun(run, t.runs[run].version, true)
  }

  predicate Comes(t: Tables, run: nat, epoch: nat) {
    && run in t.runs && t.runs[run].status.Running? && t.runs[run].epoch == epoch && !t.runs[run].recoveryRequired
  }

  /** A running run that loses its connection waits for recovery, and comes back in a new epoch unless something of it
      is still open. */
  lemma ConnectionLossComesBack(t: Tables, run: nat)
    requires run in t.runs && t.runs[run].status.Running? && !t.runs[run].cancelRequested
    ensures var r := t.runs[run];
            var u := Step(t, WaitForRecovery(run, r.version, r.epoch, true));
      && Waits(u, run, WaitRecovery) && u.runs[run].recoveryRequired
      && (CanClaimRun(u, ClaimNow(u, run)) <==> !RecoveryBlocked(t, run))
      && (CanClaimRun(u, ClaimNow(u, run)) ==> Comes(Step(u, ClaimNow(u, run)), run, r.epoch + 1))
  {
    var r := t.runs[run];
    var u := Step(t, WaitForRecovery(run, r.version, r.epoch, true));
    BlockersIgnoreRuns(t, u.runs, run);
    hide RecoveryBlocked;
  }

  /** A running run that loses the network, with nothing open, waits without being claimed; the next attempt, when it is
      safe, lets it come back in a new epoch, and otherwise gives it up until somebody else looks at it. */
  lemma NetworkLossComesBack(t: Tables, run: nat, safe: bool)
    requires run in t.runs && t.runs[run].status.Running? && !t.runs[run].cancelRequested && !RecoveryBlocked(t, run)
    ensures var r := t.runs[run];
            var u := Step(t, WaitForNetwork(run, r.version, r.epoch, true));
            var v := Step(u, RetryNetwork(run, r.version + 1, r.epoch, true, safe));
      && Waits(u, run, WaitNetwork) && !CanClaimRun(u, ClaimNow(u, run))
      && run in v.runs && (CanClaimRun(v, ClaimNow(v, run)) <==> safe)
      && (safe ==> Waits(v, run, WaitRecovery) && Comes(Step(v, ClaimNow(v, run)), run, r.epoch + 1))
      && (!safe ==> Waits(v, run, WaitNetworkBlocked) && !v.runs[run].recoveryRequired)
  {
    var r := t.runs[run];
    var u := Step(t, WaitForNetwork(run, r.version, r.epoch, true));
    var v := Step(u, RetryNetwork(run, r.version + 1, r.epoch, true, safe));
    BlockersIgnoreRuns(t, u.runs, run);
    BlockersIgnoreRuns(t, v.runs, run);
    hide RecoveryBlocked;
  }

  /** With something open a run that loses the network goes on running, and is left to the recovery of its parts. */
  lemma BlockedNetworkLoss(t: Tables, c: Command)
    requires c.WaitForNetwork? && c.run in t.runs && RecoveryBlocked(t, c.run)
    ensures Step(t, c) == t
  {
    hide RecoveryBlocked;
  }

  /** An input whose delivery is unknown holds the run until it is acknowledged. A live acknowledgement lets it run on
      in its epoch; evidence alone leaves it to recovery, in a new one. */
  lemma UnknownInputComesBack(t: Tables, run: nat, live: bool)
    requires run in t.runs && AcceptsEffects(t.runs[run])
    ensures var r := t.runs[run];
            var u := Step(t, MarkInputUnknown(run, r.epoch, true));
            var v := Step(u, AcceptInput(run, r.epoch, true, true, live));
      && Waits(u, run, WaitInputUnknown) && u.runs[run].recoveryRequired && !CanClaimRun(u, ClaimNow(u, run))
      && run in v.runs
      && (live ==> Comes(v, run, r.epoch) && v.runs[run].wait.NoWait?)
      && (!live ==> Waits(v, run, WaitRecovery) && (CanClaimRun(v, ClaimNow(v, run)) <==> !RecoveryBlocked(t, run)))
  {
    var r := t.runs[run];
    var u := Step(t, MarkInputUnknown(run, r.epoch, true));
    var v := Step(u, AcceptInput(run, r.epoch, true, true, live));
    BlockersIgnoreRuns(t, u.runs, run);
    BlockersIgnoreRuns(t, v.runs, run);
    hide RecoveryBlocked, Blocked;
  }

  /** The first acknowledged input ends the initialization of an admitted run. */
  lemma FirstInputEndsInitialization(t: Tables, c: Command)
    requires c.ClaimRun? && CanClaimRun(t, c)
    ensures var u := Step(t, c); var v := Step(u, AcceptInput(c.run, t.runs[c.run].epoch + 1, true, false, true));
            v == u.(runs := u.runs[c.run := u.runs[c.run].(wait := NoWait)])
  {
    hide RecoveryBlocked, Blocked;
  }
}
