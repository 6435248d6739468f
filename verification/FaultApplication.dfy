/** Applying matched faults: delays, the one fault that replaces, and the transformed observation. */
module FaultApplication {
  import opened Prelude
  import opened JsonTrees
  import opened FaultMatcher
  import P = Pointers
  import Texts
  import Decimals

  datatype Selection = Selection(decisions: seq<Decision>, matchedRules: seq<Rule>)

  datatype AppliedFault = AppliedFault(rule: Rule, activation: string)

  datatype Application = Application(applied: seq<AppliedFault>, output: Option<Tree>, failure: Option<string>)

  // ----- Parameters -----

  /** `_validate_parameters`. */
  predicate ValidParameters(d: Directive)
  {
    match d
    case Delay(ms) => 1 <= ms <= 600_000
    case Timeout(ms) => 1 <= ms <= 600_000
    case AmbiguousPostCommitTimeout(ms) => 1 <= ms <= 600_000
    case HttpError(status) => status == 429 || status == 503
    case AuthError(status) => status == 401 || status == 403
    case MalformedResponse(_) => true
    case StaleField(pointer, _) => pointer != [] && pointer[0] == '/'
    case PromptInjection(content) => 1 <= |content| <= 4000
    case DuplicateResponse(deliveries) => 2 <= deliveries <= 10
  }

  /** `_failure_code`. */
  function FailureCode(d: Directive): Option<string>
  {
    match d
    case Timeout(_) => Some("fault_timeout")
    case HttpError(status) => Some(if status == 429 then "fault_http_429" else "fault_http_503")
    case AuthError(status) => Some(if status == 401 then "fault_auth_401" else "fault_auth_403")
    case _ => None
  }

  // ----- Which of the matched faults take effect -----

  function Rivals(rules: seq<Rule>): seq<Rule>
  {
    if rules == [] then []
    else Rivals(Front(rules)) + (if Last(rules).directive.Delay? then [] else [Last(rules)])
  }

  /** Every delay, and of the others the first. */
  function Effective(rules: seq<Rule>): (effective: seq<Rule>)
  {
    if rules == [] then []
    else
      var before := Front(rules);
      Effective(before) + (if Last(rules).directive.Delay? || Rivals(before) == [] then [Last(rules)] else [])
  }

  lemma {:induction false} EffectiveFacts(rules: seq<Rule>)
    ensures forall r :: r in Effective(rules) ==> r in rules
    ensures forall r :: r in rules && r.directive.Delay? ==> r in Effective(rules)
  {
    if rules != [] {
      EffectiveFacts(Front(rules));
      assert rules == Front(rules) + [Last(rules)];
    }
  }

  /** Of the faults that are no delay, only the first takes effect. */
  lemma {:induction false} OneRivalTakesEffect(rules: seq<Rule>)
    ensures Rivals(Effective(rules)) == if Rivals(rules) == [] then [] else [Rivals(rules)[0]]
  {
    if rules != [] {
      var before, last := Front(rules), Last(rules);
      OneRivalTakesEffect(before);
      if last.directive.Delay? || Rivals(before) == [] {
        assert Effective(rules) == Effective(before) + [last];
        assert Front(Effective(rules)) == Effective(before);
      } else {
        assert Effective(rules) == Effective(before);
      }
    }
  }

  lemma {:induction false} EffectiveLength(rules: seq<Rule>)
    ensures |Effective(rules)| == |rules| + (if Rivals(rules) == [] then 0 else 1) - |Rivals(rules)|
  {
    if rules != [] {
      EffectiveLength(Front(rules));
    }
  }

  /** All matched faults take effect exactly when at most one of them is not a delay. */
  lemma {:induction false} AllEffective(rules: seq<Rule>)
    ensures Effective(rules) == rules <==> |Rivals(rules)| <= 1
  {
    EffectiveLength(rules);
    if |Rivals(rules)| <= 1 && rules != [] {
      AllEffective(Front(rules));
      assert Effective(rules) == Front(rules) + [Last(rules)];
    }
  }

  // ----- What is observed -----

  function Marked(kind: string, fields: map<string, Tree>): Tree
  {
    Object(fields["kind" := Text(kind)])
  }

  /** `_replace_json_pointer`, through named fields only. */
  predicate NamesField(t: Tree, path: Path)
  {
    && t.Object? && path != [] && path[0] in t.fields
    && (|path| > 1 ==> NamesField(t.fields[path[0]], path[1..]))
  }

  lemma {:induction false} NamedFieldExists(t: Tree, path: Path)
    requires NamesField(t, path)
    ensures Get(t, path).Some?
  {
    if |path| > 1 {
      NamedFieldExists(t.fields[path[0]], path[1..]);
    }
  }

  function Tokens(pointer: string): Path
    requires pointer != []
  {
    var raw := Texts.Split(pointer[1..], '/');
    seq(|raw|, i requires 0 <= i < |raw| => P.DecodeTwoReplace(raw[i]))
  }

  predicate HasEmptyToken(pointer: string)
    requires pointer != []
  {
    [] in Texts.Split(pointer[1..], '/')
  }

  function ReplaceField(t: Tree, pointer: string, value: Tree): (replaced: Option<Tree>)
    requires pointer != []
    ensures replaced.Some? ==>
      && Get(t, Tokens(pointer)).Some?
      && Get(replaced.value, Tokens(pointer)) == Some(value)
      && forall other :: !(Tokens(pointer) <= other) && !(other <= Tokens(pointer)) ==>
           Get(replaced.value, other) == Get(t, other)
  {
    var path := Tokens(pointer);
    if HasEmptyToken(pointer) || !NamesField(t, path) then None
    else
      NamedFieldExists(t, path);
      PutGet(t, path, value);
      assert forall other :: !(path <= other) && !(other <= path) ==> Get(Put(t, path, value), other) == Get(t, other) by {
        forall other | !(path <= other) && !(other <= path)
          ensures Get(Put(t, path, value), other) == Get(t, other)
        {
          PutFrame(t, path, value, other);
        }
      }
      Some(Put(t, path, value))
  }

  /** What the agent observes instead of `output`, or None where the application raises. */
  function Observe(d: Directive, output: Tree): Option<(Option<Tree>, Option<string>)>
  {
    match d
    case Timeout(_) => Some((None, Some("fault_timeout")))
    case MalformedResponse(invalidJson) =>
      var representation := if invalidJson then Text("<invalid-json>") else Object(map[]);
      var mode := Text(if invalidJson then "invalid_json" else "schema_violation");
      var mark := Marked("malformed_response", map["mode" := mode, "representation" := representation]);
      Some((Some(Object(map["_chaosagent_fault" := mark])), Some("fault_malformed_response")))
    case StaleField(pointer, value) =>
      var stale := if pointer == [] then None else ReplaceField(output, pointer, value);
      if stale.None? then None else Some((stale, None))
    case PromptInjection(content) =>
      var mark := Marked("indirect_prompt_injection", map["untrusted_content" := Text(content)]);
      Some((Some(Object(map["_chaosagent_fault" := mark, "response" := output])), None))
    case DuplicateResponse(deliveries) =>
      var mark := Marked("duplicate_response", map["deliveries" := Scalar(Decimals.Digits(deliveries))]);
      Some((Some(Object(map["_chaosagent_fault" := mark,
                            "responses" := Array(seq(deliveries, _ => output))])), None))
    case _ => None
  }

  /** What survives of a response: all of it behind an injection, every delivery of a duplicate, and
      nothing of it in a timeout or a malformed response. */
  lemma WhatIsDelivered(d: Directive, output: Tree, i: nat)
    requires Observe(d, output).Some?
    ensures d.PromptInjection? ==> Get(Observe(d, output).value.0.value, ["response"]) == Some(output)
    ensures d.DuplicateResponse? && i < d.deliveries ==>
              Get(Observe(d, output).value.0.value, ["responses", Decimals.Digits(i)]) == Some(output)
    ensures d.Timeout? || d.MalformedResponse? <==> Observe(d, output).value.1.Some?
    ensures Observe(d, output).value.0.None? <==> d.Timeout?
    ensures d.MalformedResponse? ==> Observe(d, output) == Observe(d, Object(map[]))
  {
    if d.PromptInjection? {
      assert Get(output, []) == Some(output) && ["response"][1..] == [];
    } else if d.DuplicateResponse? && i < d.deliveries {
      GetItem(seq(d.deliveries, _ => output), i);
      assert ["responses", Decimals.Digits(i)][1..] == [Decimals.Digits(i)];
    }
  }

  lemma GetItem(items: seq<Tree>, i: nat)
    requires i < |items|
    ensures Get(Array(items), [Decimals.Digits(i)]) == Some(items[i])
  {
    Decimals.ReadPrinted(i);
    assert [Decimals.Digits(i)][1..] == [];
  }

  // ----- Selections -----

  function SelectionOf(h: Hashes, plan: Plan, c: Context): Option<Selection>
  {
    match MatchPlan(h, plan, c)
    case None => None
    case Some(decisions) => Some(Selection(decisions, MatchedRules(plan.rules, decisions)))
  }

  function MatchedRules(rules: seq<Rule>, decisions: seq<Decision>): seq<Rule>
    requires |rules| == |decisions|
  {
    if rules == [] then []
    else MatchedRules(Front(rules), Front(decisions)) + (if Last(decisions).matched then [Last(rules)] else [])
  }

  function ActivationOf(decisions: seq<Decision>, faultId: string): string
  {
    if decisions == [] then ""
    else if decisions[0].matched && decisions[0].activation.Some? && decisions[0].faultId == faultId
    then decisions[0].activation.value
    else ActivationOf(decisions[1..], faultId)
  }

  function Bound(selection: Selection, rules: seq<Rule>): (applied: seq<AppliedFault>)
    ensures |applied| == |rules|
  {
    seq(|rules|, i requires 0 <= i < |rules| =>
      AppliedFault(rules[i], ActivationOf(selection.decisions, rules[i].faultId)))
  }

  lemma {:induction false} MatchedRuleFacts(h: Hashes, rules: seq<Rule>, c: Context, decisions: seq<Decision>)
    requires |decisions| == |rules| && forall i :: 0 <= i < |rules| ==> decisions[i] == MatchRule(h, rules[i], c)
    ensures forall r :: r in MatchedRules(rules, decisions) <==> r in rules && MatchRule(h, r, c).matched
    ensures (forall i, j :: 0 <= i < j < |rules| ==> rules[i].faultId != rules[j].faultId) ==>
              DistinctFaults(MatchedRules(rules, decisions))
  {
    if rules != [] {
      MatchedRuleFacts(h, Front(rules), c, Front(decisions));
      assert rules == Front(rules) + [Last(rules)];
      var front := MatchedRules(Front(rules), Front(decisions));
      if forall i, j :: 0 <= i < j < |rules| ==> rules[i].faultId != rules[j].faultId {
        forall r | r in front
          ensures r.faultId != Last(rules).faultId
        {
          assert r in Front(rules);
        }
      }
    }
  }

  ghost predicate DistinctFaults(rules: seq<Rule>)
  {
    forall i, j :: 0 <= i < j < |rules| ==> rules[i].faultId != rules[j].faultId
  }

  lemma {:induction false} ActivationIsDecided(h: Hashes, rules: seq<Rule>, c: Context, decisions: seq<Decision>, r: Rule)
    requires |decisions| == |rules| && forall i :: 0 <= i < |rules| ==> decisions[i] == MatchRule(h, rules[i], c)
    requires DistinctFaults(rules) && r in rules && MatchRule(h, r, c).matched
    ensures Some(ActivationOf(decisions, r.faultId)) == MatchRule(h, r, c).activation
  {
    if rules[0] != r {
      assert rules[0].faultId != r.faultId;
      ActivationIsDecided(h, rules[1..], c, decisions[1..], r);
    }
  }

  /** A selection holds exactly the rules of the plan that match, each once, and every activation bound
      to one of them is authentic for it, whether or not the call's ordinal is known. */
  lemma SelectionIsAuthentic(h: Hashes, plan: Plan, c: Context, r: Rule)
    requires CollisionFree(h) && ValidPlan(plan) && SelectionOf(h, plan, c).Some?
    ensures var s := SelectionOf(h, plan, c).value;
            && DistinctFaults(s.matchedRules)
            && (r in s.matchedRules <==> r in plan.rules && MatchRule(h, r, c).matched)
            && (r in s.matchedRules ==>
                  var activation := ActivationOf(s.decisions, r.faultId);
                  Authentic(h, r, c.facts, activation, None)
                  && Authentic(h, r, c.facts, activation, Some(c.ordinal)))
  {
    var decisions := MatchPlan(h, plan, c).value;
    MatchedRuleFacts(h, plan.rules, c, decisions);
    if r in SelectionOf(h, plan, c).value.matchedRules {
      ActivationIsDecided(h, plan.rules, c, decisions, r);
      IssuedIsAuthentic(h, r, c);
    }
  }

  // ----- Which rival wins -----

  /** The order in which the compiler leaves a plan's rules. */
  ghost predicate InIdOrder(rules: seq<Rule>)
  {
    forall i, j :: 0 <= i < j < |rules| ==> Texts.Before(rules[i].faultId, rules[j].faultId)
  }

  lemma {:induction false} MatchedInOrder(rules: seq<Rule>, decisions: seq<Decision>)
    requires |rules| == |decisions| && InIdOrder(rules)
    ensures InIdOrder(MatchedRules(rules, decisions))
    ensures forall r :: r in MatchedRules(rules, decisions) ==> r in rules
  {
    if rules != [] {
      var before, last := Front(rules), Last(rules);
      MatchedInOrder(before, Front(decisions));
      assert rules == before + [last];
      forall r | r in before
        ensures Texts.Before(r.faultId, last.faultId)
      {
        var i :| 0 <= i < |before| && before[i] == r;
        assert rules[i] == r && rules[|before|] == last;
      }
    }
  }

  lemma {:induction false} RivalsInOrder(rules: seq<Rule>)
    requires InIdOrder(rules)
    ensures InIdOrder(Rivals(rules))
  {
    if rules != [] {
      var before, last := Front(rules), Last(rules);
      RivalsInOrder(before);
      RivalsFacts(before);
      forall r | r in before
        ensures Texts.Before(r.faultId, last.faultId)
      {
        var i :| 0 <= i < |before| && before[i] == r;
        assert rules[i] == r && rules[|before|] == last;
      }
    }
  }

  /** Of the matched faults that are no delay, the one with the least identity takes effect. */
  lemma LeastRivalWins(h: Hashes, plan: Plan, c: Context, loser: Rule)
    requires InIdOrder(plan.rules) && SelectionOf(h, plan, c).Some?
    requires var rules := SelectionOf(h, plan, c).value.matchedRules;
             loser in rules && !loser.directive.Delay? && loser !in Effective(rules)
    ensures var rules := SelectionOf(h, plan, c).value.matchedRules;
            exists winner :: winner in Effective(rules) && !winner.directive.Delay?
              && Texts.Before(winner.faultId, loser.faultId)
  {
    var rules := SelectionOf(h, plan, c).value.matchedRules;
    MatchedInOrder(plan.rules, SelectionOf(h, plan, c).value.decisions);
    RivalsInOrder(rules);
    RivalsFacts(rules);
    RivalsFacts(Effective(rules));
    OneRivalTakesEffect(rules);
    var winner := Rivals(rules)[0];
    assert winner in Rivals(Effective(rules));
    var i :| 0 <= i < |Rivals(rules)| && Rivals(rules)[i] == loser;
  }

  // ----- The engine -----

  predicate AllValid(rules: seq<Rule>)
  {
    forall r :: r in rules ==> ValidParameters(r.directive)
  }

  function BeforeApplication(s: Selection): Option<Application>
  {
    if AllValid(s.matchedRules) && (forall r :: r in s.matchedRules ==> RunsAt(r.directive, BeforeTool)) then
      var rivals := Rivals(s.matchedRules);
      Some(Application(Bound(s, Effective(s.matchedRules)), None,
                       if rivals == [] then None else FailureCode(rivals[0].directive)))
    else None
  }

  function AfterApplication(s: Selection, output: Tree): Option<Application>
  {
    var rivals := Rivals(s.matchedRules);
    if !AllValid(s.matchedRules) then None
    else if rivals == [] then Some(Application(Bound(s, Effective(s.matchedRules)), Some(output), None))
    else
      match Observe(rivals[0].directive, output)
      case None => None
      case Some((observed, failure)) =>
        Some(Application(Bound(s, Effective(s.matchedRules)), observed, failure))
  }

  function PostCommitApplication(s: Selection): Option<Application>
  {
    if AllValid(s.matchedRules)
       && (forall r :: r in s.matchedRules ==> r.directive.AmbiguousPostCommitTimeout? && r.phase == AfterCommit) then
      var first := if s.matchedRules == [] then [] else [s.matchedRules[0]];
      Some(Application(Bound(s, first), None, if first == [] then None else Some("fault_timeout")))
    else None
  }

  class FaultEngine {
    const hashes: Hashes
    const plan: Plan
    const seed: nat
    var issued: set<Selection>

    constructor (hashes: Hashes, plan: Plan, seed: nat)
      ensures this.hashes == hashes && this.plan == plan && this.seed == seed && issued == {}
    {
      this.hashes, this.plan, this.seed, issued := hashes, plan, seed, {};
    }

    /** `select`: the decisions, remembered as issued by this engine. */
    method Select(c: Context) returns (selection: Option<Selection>)
      modifies this
      ensures selection == SelectionOf(hashes, plan, c.(facts := c.facts.(seed := seed)))
      ensures issued == if selection.Some? then old(issued) + {selection.value} else old(issued)
    {
      selection := SelectionOf(hashes, plan, c.(facts := c.facts.(seed := seed)));
      if selection.Some? {
        issued := issued + {selection.value};
      }
    }

    /** `apply_before`: refuses a selection it did not issue. */
    method ApplyBefore(s: Selection) returns (result: Option<Application>)
      ensures result == if s in issued then BeforeApplication(s) else None
    {
      if s !in issued {
        return None;
      }
      var rules, applied, failure := s.matchedRules, [], None;
      for i := 0 to |rules|
        invariant AllValid(rules[..i]) && forall r :: r in rules[..i] ==> RunsAt(r.directive, BeforeTool)
        invariant applied == Bound(s, Effective(rules[..i]))
        invariant failure == FirstFailure(rules[..i])
      {
        var rule := rules[i];
        assert rules[..i + 1] == rules[..i] + [rule];
        if !ValidParameters(rule.directive) || !RunsAt(rule.directive, BeforeTool) {
          return None;
        }
        NextEffective(s, rules[..i], rule);
        FailureSoFar(rules[..i]);
        NextFailure(rules[..i], rule);
        if rule.directive.Delay? || failure == None {
          applied := applied + [AppliedFault(rule, ActivationOf(s.decisions, rule.faultId))];
        }
        if !rule.directive.Delay? && failure == None {
          failure := FailureCode(rule.directive);
        }
      }
      assert rules[..|rules|] == rules;
      return Some(Application(applied, None, failure));
    }

    /** `apply_after`: the first fault that is no delay transforms the output. */
    method ApplyAfter(s: Selection, output: Tree) returns (result: Option<Application>)
      ensures result == if s in issued then AfterApplication(s, output) else None
    {
      if s !in issued {
        return None;
      }
      var rules, applied, transformed := s.matchedRules, [], false;
      var observed: Option<Tree>, failure: Option<string> := Some(output), None;
      for i := 0 to |rules|
        invariant AllValid(rules[..i])
        invariant applied == Bound(s, Effective(rules[..i]))
        invariant transformed <==> Rivals(rules[..i]) != []
        invariant !transformed ==> observed == Some(output) && failure == None
        invariant transformed ==> Observe(Rivals(rules[..i])[0].directive, output) == Some((observed, failure))
      {
        var rule := rules[i];
        assert rules[..i + 1] == rules[..i] + [rule];
        NextEffective(s, rules[..i], rule);
        if !ValidParameters(rule.directive) {
          return None;
        }
        if rule.directive.Delay? {
          applied := applied + [AppliedFault(rule, ActivationOf(s.decisions, rule.faultId))];
        } else if !transformed {
          var change := Observe(rule.directive, output);
          if change.None? {
            FirstRivalStays(rules, i + 1);
            return None;
          }
          observed, failure := change.value.0, change.value.1;
          transformed := true;
          applied := applied + [AppliedFault(rule, ActivationOf(s.decisions, rule.faultId))];
        }
      }
      assert rules[..|rules|] == rules;
      return Some(Application(applied, observed, failure));
    }

    /** `apply_post_commit`: only the first fault replaces the acknowledgement. */
    method ApplyPostCommit(s: Selection) returns (result: Option<Application>)
      ensures result == if s in issued then PostCommitApplication(s) else None
    {
      if s !in issued {
        return None;
      }
      var rules, applied := s.matchedRules, [];
      for i := 0 to |rules|
        invariant AllValid(rules[..i])
        invariant forall r :: r in rules[..i] ==> r.directive.AmbiguousPostCommitTimeout? && r.phase == AfterCommit
        invariant applied == Bound(s, if i == 0 then [] else [rules[0]])
      {
        var rule := rules[i];
        assert rules[..i + 1] == rules[..i] + [rule];
        if !ValidParameters(rule.directive) || !rule.directive.AmbiguousPostCommitTimeout? || rule.phase != AfterCommit {
          return None;
        }
        if applied == [] {
          applied := [AppliedFault(rule, ActivationOf(s.decisions, rule.faultId))];
        }
      }
      assert rules[..|rules|] == rules;
      return Some(Application(applied, None, if applied == [] then None else Some("fault_timeout")));
    }
  }

  /** One more matched rule: whether it is a rival, and whether it takes effect. */
  lemma NextEffective(s: Selection, before: seq<Rule>, rule: Rule)
    ensures Rivals(before + [rule]) == Rivals(before) + (if rule.directive.Delay? then [] else [rule])
    ensures Bound(s, Effective(before + [rule])) == Bound(s, Effective(before))
            + (if rule.directive.Delay? || Rivals(before) == []
               then [AppliedFault(rule, ActivationOf(s.decisions, rule.faultId))] else [])
  {
    assert Front(before + [rule]) == before && Last(before + [rule]) == rule;
  }

  function FirstFailure(rules: seq<Rule>): Option<string>
  {
    if Rivals(rules) == [] then None else FailureCode(Rivals(rules)[0].directive)
  }

  lemma {:induction false} RivalsFacts(rules: seq<Rule>)
    ensures forall r :: r in Rivals(rules) <==> r in rules && !r.directive.Delay?
  {
    if rules != [] {
      RivalsFacts(Front(rules));
      assert rules == Front(rules) + [Last(rules)];
    }
  }

  lemma NextFailure(before: seq<Rule>, rule: Rule)
    ensures FirstFailure(before + [rule]) ==
            if Rivals(before) == [] && !rule.directive.Delay? then FailureCode(rule.directive) else FirstFailure(before)
  {
    assert Front(before + [rule]) == before && Last(before + [rule]) == rule;
  }

  lemma FailureSoFar(rules: seq<Rule>)
    requires forall r :: r in rules ==> RunsAt(r.directive, BeforeTool)
    ensures FirstFailure(rules) == None <==> Rivals(rules) == []
  {
    RivalsFacts(rules);
    if Rivals(rules) != [] {
      assert Rivals(rules)[0] in Rivals(rules);
    }
  }

  lemma {:induction false} FirstRivalStays(rules: seq<Rule>, n: nat)
    requires n <= |rules| && Rivals(rules[..n]) != []
    ensures Rivals(rules) != [] && Rivals(rules)[0] == Rivals(rules[..n])[0]
  {
    if n == |rules| {
      assert rules[..n] == rules;
    } else {
      assert Front(rules)[..n] == rules[..n];
      FirstRivalStays(Front(rules), n);
    }
  }
}
