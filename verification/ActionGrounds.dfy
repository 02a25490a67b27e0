/** Where decisions come from: whatever was allowed or asked was decided so by the rules of its run, through any
    history. */
module ActionGrounds {
  import opened Options
  import opened ActionModel
  import opened ActionInvariant
  import opened ActionHistory
  import opened ActionFrames
  import opened ActionPolicy
  import opened ActionScope
  import opened ActionSteps
  import opened ActionTheorems

  /** What an action was decided for: the rules of its run, unless it was only observed or is the request of a runtime
      that manages its own permissions, which is always asked. */
  ghost predicate Grounded(r: Run, a: Action) {
    match a.policy
    case ObservedOnly => a.mode.Observed?
    case Allow => !a.mode.Observed? && exists kind :: Allows(r.rules, kind)
    case Ask => !a.mode.Observed?
      && ((r.semantics.RuntimeManaged? && a.mode.Intercepted?) || exists kind :: Asks(r.rules, kind))
    case Deny => !a.mode.Observed? && exists kind :: Denies(r.rules, kind)
  }

  ghost predicate AllGrounded(t: Tables) {
    forall a | a in t.actions :: t.actions[a].run in t.runs && Grounded(t.runs[t.actions[a].run], t.actions[a])
  }

  /** Only preparing and observing add actions, as decided. */
  lemma AddedAction(t: Tables, c: Command, a: nat)
    requires a !in t.actions && a in Step(t, c).actions
    ensures (c.Prepare? || c.RecordObserved?) && ActionOf(t, c) == Some(a) && c.run in t.runs
    ensures Step(t, c).actions[a].run == c.run
    ensures c.Prepare? ==> CanPrepare(t, c) && Step(t, c).actions[a] == NewAction(c, PolicyFor(t.runs[c.run], c).value)
    ensures c.RecordObserved? ==> Step(t, c).actions[a].mode.Observed? && Step(t, c).actions[a].policy.ObservedOnly?
  {
    RefusedIsRefused(t, c);
    if c.Prepare? && CanPrepare(t, c) { PreparedActions(t, c); }
    if c.RecordObserved? && CanRecordObserved(t, c) { ObservedActions(t, c); }
    if c.Restart? { RestartAddsNone(t, c, a); }
    if !c.Prepare? && !c.RecordObserved? && !c.Restart? { OthersAddNone(t, c, a); }
    hide Step, PolicyFor, NewAction, OptionsAcceptable;
  }

  lemma RestartAddsNone(t: Tables, c: Command, a: nat)
    requires a !in t.actions && c.Restart?
    ensures a !in Step(t, c).actions
  {
    hide RestartApprovals, RestartAttempts, RestartDeliveries, RestartRun, CloseApprovals, CloseAttempts,
         CloseDeliveries, Unsettled, Unanswered;
  }

  lemma DecisionIsGrounded(t: Tables, c: Command)
    requires c.Prepare? && CanPrepare(t, c)
    ensures Grounded(t.runs[c.run], NewAction(c, PolicyFor(t.runs[c.run], c).value))
  {
    var rules := t.runs[c.run].rules;
    DecisionIff(rules, c.kind);
    hide Evaluate, Allows, Asks, Denies, OptionsAcceptable;
  }

  lemma SameGrounds(r: Run, s: Run, a: Action, b: Action)
    requires Grounded(r, a) && s.rules == r.rules && s.semantics == r.semantics
    requires b.policy == a.policy && b.mode == a.mode
    ensures Grounded(s, b)
  {
  }

  lemma OldIsGrounded(t: Tables, u: Tables, a: nat)
    requires AllGrounded(t) && a in t.actions && a in u.actions && ActionEvolves(t.actions[a], u.actions[a])
    requires RunsEvolve(t, u)
    ensures u.actions[a].run in u.runs && Grounded(u.runs[u.actions[a].run], u.actions[a])
  {
    hide Grounded;
    var run := t.actions[a].run;
    assert RunEvolves(t.runs[run], u.runs[run]);
    SameGrounds(t.runs[run], u.runs[run], t.actions[a], u.actions[a]);
  }

  lemma NewIsGrounded(t: Tables, c: Command, a: nat)
    requires a !in t.actions && a in Step(t, c).actions && RunsEvolve(t, Step(t, c))
    ensures var u := Step(t, c); u.actions[a].run in u.runs && Grounded(u.runs[u.actions[a].run], u.actions[a])
  {
    AddedAction(t, c, a);
    if c.Prepare? { DecisionIsGrounded(t, c); }
    hide Step;
    var u := Step(t, c);
    assert RunEvolves(t.runs[c.run], u.runs[c.run]);
    hide Allows, Asks, Denies, PolicyFor, NewAction;
  }

  lemma StepKeepsGrounds(t: Tables, c: Command)
    requires Inv(t) && AllGrounded(t)
    ensures AllGrounded(Step(t, c))
  {
    StepAdvances(t, c);
    var u := Step(t, c);
    hide Inv, Step, Grounded, RunsEvolve, ActionEvolves, ApprovalsEvolve, AttemptsEvolve, DeliveriesEvolve, FenceHolds;
    forall a | a in u.actions
      ensures u.actions[a].run in u.runs && Grounded(u.runs[u.actions[a].run], u.actions[a])
    {
      if a in t.actions { OldIsGrounded(t, u, a); } else { NewIsGrounded(t, c, a); }
    }
  }

  lemma {:induction false} RunKeepsGrounds(t: Tables, commands: seq<Command>)
    requires Inv(t) && AllGrounded(t)
    ensures AllGrounded(RunAll(t, commands))
    decreases |commands|
  {
    hide Inv, AllGrounded, Step;
    if commands != [] {
      StepAdvances(t, commands[0]);
      StepKeepsGrounds(t, commands[0]);
      RunKeepsGrounds(Step(t, commands[0]), commands[1..]);
    }
  }

  /** In every reachable state an allowed action has a rule of its run that allows, with none beside it that says
      otherwise; an asked one has a rule that asks and none that denies, or is the request of a runtime that manages its
      own permissions; a denied one has a rule that denies, or none at all. */
  lemma DecisionsAreGrounded(t: Tables, a: nat)
    requires Reachable(t) && a in t.actions
    ensures t.actions[a].run in t.runs && Grounded(t.runs[t.actions[a].run], t.actions[a])
  {
    var commands :| t == RunAll(EMPTY, commands);
    hide RunAll, Grounded;
    RunKeepsGrounds(EMPTY, commands);
  }
}
