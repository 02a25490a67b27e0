/** The policy of a run: what its rules decide about a kind of action (crates/rovai-core/src/action.rs:3381-3418). */
module ActionPolicy {
  import opened Options
  import opened ActionModel

  /** The rule is for this kind of action, or for every kind. */
  predicate Covers(rule: Rule, kind: nat) { rule.kind.Some? ==> rule.kind.value == kind }

  /** Some rule for the kind has this effect. */
  predicate SomeCovering(rules: seq<Rule>, kind: nat, effect: Effect) {
    exists r :: r in rules && Covers(r, kind) && r.effect == effect
  }

  /** Allowing takes a rule for the kind, and every rule for the kind to allow. */
  predicate Allows(rules: seq<Rule>, kind: nat) {
    && (exists r :: r in rules && Covers(r, kind))
    && (forall r :: r in rules && Covers(r, kind) ==> r.effect == AllowEffect)
  }

  /** Asking takes a rule for the kind that asks, and every other to allow or ask. */
  predicate Asks(rules: seq<Rule>, kind: nat) {
    && SomeCovering(rules, kind, AskEffect)
    && (forall r :: r in rules && Covers(r, kind) ==> r.effect == AskEffect || r.effect == AllowEffect)
  }

  /** Denying takes a rule for the kind that denies, or no rule for the kind at all. */
  predicate Denies(rules: seq<Rule>, kind: nat) {
    && (SomeCovering(rules, kind, DenyEffect) || (forall r :: r in rules ==> !Covers(r, kind)))
    && (forall r :: r in rules && Covers(r, kind) ==> r.effect != InvalidEffect)
  }

  /** What each decision says of the rules, and an invalid effect of a rule for the kind is an error. */
  lemma DecisionIff(rules: seq<Rule>, kind: nat)
    ensures Evaluate(rules, kind) == Some(Allow) <==> Allows(rules, kind)
    ensures Evaluate(rules, kind) == Some(Ask) <==> Asks(rules, kind)
    ensures Evaluate(rules, kind) == Some(Deny) <==> Denies(rules, kind)
    ensures Evaluate(rules, kind) == None <==> SomeCovering(rules, kind, InvalidEffect)
  {
    EffectIsCovering(rules, kind, InvalidEffect);
    EffectIsCovering(rules, kind, DenyEffect);
    EffectIsCovering(rules, kind, AskEffect);
    EffectIsCovering(rules, kind, AllowEffect);
    hide HasEffect, Covers;
    forall r | r in rules && Covers(r, kind) ensures SomeCovering(rules, kind, r.effect) {}
  }

  lemma EffectIsCovering(rules: seq<Rule>, kind: nat, effect: Effect)
    ensures HasEffect(rules, kind, effect) <==> SomeCovering(rules, kind, effect)
  {
    if HasEffect(rules, kind, effect) {
      var i :| 0 <= i < |rules| && Matches(rules[i], kind) && rules[i].effect == effect;
      assert rules[i] in rules && Covers(rules[i], kind);
    }
  }

  /** evaluate_policy: one pass over the rules, keeping the effects of those that match. */
  method EvaluatePolicy(rules: seq<Rule>, kind: nat) returns (decision: Option<Decision>)
    ensures decision == Evaluate(rules, kind)
    ensures (decision == Some(Allow) <==> Allows(rules, kind)) && (decision == Some(Ask) <==> Asks(rules, kind))
    ensures decision == Some(Deny) <==> Denies(rules, kind)
    ensures decision == None <==> SomeCovering(rules, kind, InvalidEffect)
  {
    DecisionIff(rules, kind);
    hide Covers, SomeCovering, Allows, Asks, Denies;
    var effects: set<Effect> := {};
    var i := 0;
    while i < |rules|
      invariant 0 <= i <= |rules|
      invariant InvalidEffect !in effects
      invariant forall e :: e in effects <==> HasEffect(rules[..i], kind, e)
    {
      assert rules[..i + 1] == rules[..i] + [rules[i]];
      var before := effects;
      if rules[i].kind == None || rules[i].kind == Some(kind) {
        if rules[i].effect.InvalidEffect? {
          assert Matches(rules[i], kind);
          return None;
        }
        effects := effects + {rules[i].effect};
      }
      forall e
        ensures HasEffect(rules[..i + 1], kind, e)
            <==> HasEffect(rules[..i], kind, e) || (Matches(rules[i], kind) && rules[i].effect == e)
      {
        HasEffectAppend(rules[..i], rules[i], kind, e);
      }
      i := i + 1;
    }
    assert rules[..i] == rules;
    if DenyEffect in effects { return Some(Deny); }
    if AskEffect in effects { return Some(Ask); }
    if AllowEffect in effects { return Some(Allow); }
    return Some(Deny);
  }

  lemma HasEffectAppend(rules: seq<Rule>, rule: Rule, kind: nat, effect: Effect)
    ensures HasEffect(rules + [rule], kind, effect)
        <==> HasEffect(rules, kind, effect) || (Matches(rule, kind) && rule.effect == effect)
  {
    var all := rules + [rule];
    if HasEffect(rules, kind, effect) {
      var i :| 0 <= i < |rules| && Matches(rules[i], kind) && rules[i].effect == effect;
      assert all[i] == rules[i];
    }
    if Matches(rule, kind) && rule.effect == effect { assert all[|rules|] == rule; }
  }

  /** The strictest matching rule decides, whatever the order of the rules. */
  lemma PolicyOrderIrrelevant(rules: seq<Rule>, others: seq<Rule>, kind: nat)
    requires forall r :: r in rules <==> r in others
    ensures Evaluate(rules, kind) == Evaluate(others, kind)
  {
    forall e
      ensures HasEffect(rules, kind, e) == HasEffect(others, kind, e)
    {
      SameEffects(rules, others, kind, e);
      SameEffects(others, rules, kind, e);
    }
  }

  lemma SameEffects(rules: seq<Rule>, others: seq<Rule>, kind: nat, effect: Effect)
    requires forall r :: r in rules ==> r in others
    ensures HasEffect(rules, kind, effect) ==> HasEffect(others, kind, effect)
  {
    if HasEffect(rules, kind, effect) {
      var i :| 0 <= i < |rules| && Matches(rules[i], kind) && rules[i].effect == effect;
      assert rules[i] in others;
      var j :| 0 <= j < |others| && others[j] == rules[i];
    }
  }

  function Strictness(d: Option<Decision>): nat {
    match d case None => 3 case Some(Deny) => 2 case Some(Ask) => 1 case Some(_) => 0
  }

  /** A rule added to a policy that already matches never loosens its decision. */
  lemma AddedRuleNeverLoosens(rules: seq<Rule>, rule: Rule, kind: nat)
    requires exists e :: HasEffect(rules, kind, e)
    ensures Strictness(Evaluate(rules + [rule], kind)) >= Strictness(Evaluate(rules, kind))
  {
    forall e
      ensures HasEffect(rules + [rule], kind, e) <==>
                HasEffect(rules, kind, e) || (Matches(rule, kind) && rule.effect == e)
    {
      HasEffectAppend(rules, rule, kind, e);
    }
    var e :| HasEffect(rules, kind, e);
    assert e == InvalidEffect || e == DenyEffect || e == AskEffect || e == AllowEffect;
  }
}
