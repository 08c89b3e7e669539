/** Policy evaluation: one pass over the rules, deny overriding allow. */
module Policy {
  import opened ByteStrings
  import opened Wrappers
  import opened Domain

  datatype Effect = Allow | Deny

  datatype Destination = Destination(origin: Origin, pathPrefix: Option<Bytes>)

  datatype Conditions = Conditions(
    browserAssurance: Option<Bytes>, presence: bool, maxUses: nat, consumeTtl: nat, executionTtl: nat)

  datatype Rule = Rule(
    id: Id, effect: Effect, principals: seq<Bytes>, credentials: seq<Bytes>, actions: seq<ActionKind>,
    destinations: seq<Destination>, conditions: Conditions)

  datatype Query = Query(
    agent: Id, credential: Bytes, action: ActionKind, origin: Origin, path: Option<Bytes>, assurance: Bytes)

  datatype RiskLevel = Low | Medium | High | Critical
  {
    function Rank(): nat {
      match this
      case Low => 0
      case Medium => 1
      case High => 2
      case Critical => 3
    }
  }

  datatype Decision = Decision(
    effect: Effect, risk: RiskLevel, rule: Id, presence: bool, maxUses: nat, consumeTtl: nat, executionTtl: nat)

  datatype PolicyError = DefaultDeny

  function RiskOf(action: ActionKind, presence: bool, assurance: Bytes): RiskLevel {
    if assurance != Ascii("managed") then Critical
    else if presence then High
    else match action
      case AuthenticatePassword => Medium
      case AuthenticateTotp => Medium
      case FormSensitiveFill => High
      case OAuthAuthorize => Low
  }

  predicate ListsOrStars(items: seq<Bytes>, wanted: Bytes) {
    Ascii("*") in items || wanted in items
  }

  /** A rule without a path covers every path; one with a path covers requests
      whose path starts with it, character by character. */
  predicate Reaches(d: Destination, q: Query) {
    d.origin == q.origin
    && match (q.path, d.pathPrefix)
       case (Some(path), Some(prefix)) => prefix <= path
       case (None, Some(_)) => false
       case (_, None) => true
  }

  predicate Matches(r: Rule, q: Query) {
    && ListsOrStars(r.principals, q.agent)
    && ListsOrStars(r.credentials, q.credential)
    && q.action in r.actions
    && (exists i :: 0 <= i < |r.destinations| && Reaches(r.destinations[i], q))
    && (r.conditions.browserAssurance.Some? ==> r.conditions.browserAssurance.value == q.assurance)
  }

  function DenyBy(r: Rule, q: Query): Decision {
    Decision(Deny, RiskOf(q.action, r.conditions.presence, q.assurance), r.id, true, 0, 0, 0)
  }

  function AllowBy(r: Rule, q: Query): Decision {
    Decision(Allow, RiskOf(q.action, r.conditions.presence, q.assurance), r.id,
             r.conditions.presence, r.conditions.maxUses, r.conditions.consumeTtl, r.conditions.executionTtl)
  }

  predicate MatchesAs(r: Rule, q: Query, effect: Effect) {
    Matches(r, q) && r.effect == effect
  }

  ghost predicate FirstMatch(rules: seq<Rule>, q: Query, effect: Effect, k: int) {
    0 <= k < |rules| && MatchesAs(rules[k], q, effect) && forall i :: 0 <= i < k ==> !MatchesAs(rules[i], q, effect)
  }

  ghost predicate NoMatch(rules: seq<Rule>, q: Query, effect: Effect) {
    forall i :: 0 <= i < |rules| ==> !MatchesAs(rules[i], q, effect)
  }

  /** The answer, stated without the order of evaluation: the first rule that
      matches and denies if there is one, else the first that matches and
      allows, else the default. */
  ghost predicate Answers(rules: seq<Rule>, q: Query, answer: Result<Decision, PolicyError>) {
    match answer
    case Success(d) =>
      (exists k :: FirstMatch(rules, q, Deny, k) && d == DenyBy(rules[k], q))
      || (NoMatch(rules, q, Deny) && exists k :: FirstMatch(rules, q, Allow, k) && d == AllowBy(rules[k], q))
    case Failure(_) => NoMatch(rules, q, Deny) && NoMatch(rules, q, Allow)
  }

  method Evaluate(rules: seq<Rule>, q: Query) returns (answer: Result<Decision, PolicyError>)
    ensures Answers(rules, q, answer)
  {
    hide ListsOrStars, RiskOf, Reaches;
    var matchedAllow: Option<Rule> := None;
    ghost var first := 0;
    for i := 0 to |rules|
      invariant forall j :: 0 <= j < i ==> !MatchesAs(rules[j], q, Deny)
      invariant matchedAllow == None ==> forall j :: 0 <= j < i ==> !MatchesAs(rules[j], q, Allow)
      invariant matchedAllow.Some? ==> FirstMatch(rules, q, Allow, first) && matchedAllow.value == rules[first]
    {
      var rule := rules[i];
      if !ListsOrStars(rule.principals, q.agent) {
        continue;
      }
      if !ListsOrStars(rule.credentials, q.credential) {
        continue;
      }
      if q.action !in rule.actions {
        continue;
      }
      var reached := AnyReaches(rule.destinations, q);
      if !reached {
        continue;
      }
      if rule.conditions.browserAssurance.Some? && rule.conditions.browserAssurance.value != q.assurance {
        continue;
      }
      if rule.effect == Deny {
        assert FirstMatch(rules, q, Deny, i);
        return Success(DenyBy(rule, q));
      }
      if rule.effect == Allow && matchedAllow == None {
        matchedAllow := Some(rule);
        first := i;
      }
    }
    match matchedAllow
    case Some(rule) => return Success(AllowBy(rule, q));
    case None => return Failure(DefaultDeny);
  }

  method AnyReaches(destinations: seq<Destination>, q: Query) returns (reached: bool)
    ensures reached <==> exists i :: 0 <= i < |destinations| && Reaches(destinations[i], q)
  {
    reached := false;
    for i := 0 to |destinations|
      invariant !reached && forall j :: 0 <= j < i ==> !Reaches(destinations[j], q)
    {
      if Reaches(destinations[i], q) {
        return true;
      }
    }
  }

  // ------------------------------------------------------------- consequences

  ghost predicate Any(rules: seq<Rule>, q: Query, effect: Effect) {
    exists r :: r in rules && MatchesAs(r, q, effect)
  }

  /** The effect depends only on which rules there are. */
  lemma EffectByMembership(rules: seq<Rule>, q: Query, answer: Result<Decision, PolicyError>)
    requires Answers(rules, q, answer)
    ensures answer.Success? && answer.value.effect == Deny <==> Any(rules, q, Deny)
    ensures answer.Success? && answer.value.effect == Allow <==> Any(rules, q, Allow) && !Any(rules, q, Deny)
  {
  }

  predicate Allows(answer: Result<Decision, PolicyError>) {
    answer.Success? && answer.value.effect == Allow
  }

  predicate Denies(answer: Result<Decision, PolicyError>) {
    answer.Success? && answer.value.effect == Deny
  }

  /** Reordering or repeating rules does not change the effect. */
  lemma OrderDoesNotMatter(
    rules: seq<Rule>, others: seq<Rule>, q: Query, a: Result<Decision, PolicyError>, b: Result<Decision, PolicyError>)
    requires forall r :: r in rules <==> r in others
    requires Answers(rules, q, a) && Answers(others, q, b)
    ensures Allows(a) == Allows(b) && Denies(a) == Denies(b)
  {
    hide Answers, MatchesAs;
    EffectByMembership(rules, q, a);
    EffectByMembership(others, q, b);
  }

  lemma PermutationsAgree(
    rules: seq<Rule>, others: seq<Rule>, q: Query, a: Result<Decision, PolicyError>, b: Result<Decision, PolicyError>)
    requires multiset(rules) == multiset(others)
    requires Answers(rules, q, a) && Answers(others, q, b)
    ensures Allows(a) == Allows(b) && Denies(a) == Denies(b)
  {
    hide Answers;
    forall r
      ensures r in rules <==> r in others
    {
      assert r in rules <==> r in multiset(rules);
      assert r in others <==> r in multiset(others);
    }
    OrderDoesNotMatter(rules, others, q, a, b);
  }

  /** A deny rule put in anywhere never turns a refusal into an allow; it turns
      an allow into a refusal exactly when it matches. */
  lemma DenyOnlyTakesAway(
    rules: seq<Rule>, k: nat, deny: Rule, q: Query, before: Result<Decision, PolicyError>,
    after: Result<Decision, PolicyError>)
    requires k <= |rules| && deny.effect == Deny
    requires Answers(rules, q, before) && Answers(rules[..k] + [deny] + rules[k..], q, after)
    ensures Allows(after) <==> Allows(before) && !Matches(deny, q)
  {
    hide Answers, Matches;
    var more := rules[..k] + [deny] + rules[k..];
    EffectByMembership(rules, q, before);
    EffectByMembership(more, q, after);
    assert rules == rules[..k] + rules[k..];
    assert forall r :: r in more <==> r in rules || r == deny;
    assert MatchesAs(deny, q, Deny) == Matches(deny, q) && !MatchesAs(deny, q, Allow);
    assert Any(more, q, Deny) <==> Any(rules, q, Deny) || MatchesAs(deny, q, Deny) by {
      assert deny in more;
    }
    assert Any(more, q, Allow) <==> Any(rules, q, Allow);
  }

  /** The first allow that matches sets the terms, so a decision's terms, unlike
      its effect, depend on the order of the rules. */
  lemma TermsComeFromTheFirstAllow(rules: seq<Rule>, q: Query, answer: Result<Decision, PolicyError>, k: int)
    requires Answers(rules, q, answer) && Allows(answer) && FirstMatch(rules, q, Allow, k)
    ensures answer.value == AllowBy(rules[k], q)
  {
  }
}
