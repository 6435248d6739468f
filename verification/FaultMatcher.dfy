/** Seeded, deterministic fault matching, activation identities, and their authentication. */
module FaultMatcher {
  import opened Prelude
  import opened JsonTrees

  const TWO_256: nat := 0x1_0000000000000000_0000000000000000_0000000000000000_0000000000000000
  const PPM: nat := 1_000_000
  const MAX_ORDINAL: nat := 1000
  const MAX_COUNT: nat := 1000

  datatype Phase = BeforeTool | AfterCommit | AfterTool

  /** A fault kind with its parameters. */
  datatype Directive =
    | Delay(durationMs: nat)
    | Timeout(durationMs: nat)
    | HttpError(status: nat)
    | AuthError(status: nat)
    | MalformedResponse(invalidJson: bool)
    | StaleField(pointer: string, value: Tree)
    | PromptInjection(content: string)
    | DuplicateResponse(deliveries: nat)
    | AmbiguousPostCommitTimeout(durationMs: nat)

  datatype Rule = Rule(
    faultId: string, scenarioDigest: string, directive: Directive, toolId: string, phase: Phase,
    callOrdinal: Option<nat>, argumentEquals: map<string, Json>, probabilityPpm: nat, maxOccurrences: nat)

  datatype Plan = Plan(scenarioDigest: string, rules: seq<Rule>)

  predicate RunsAt(directive: Directive, phase: Phase)
  {
    match phase
    case BeforeTool => directive.Delay? || directive.Timeout? || directive.HttpError? || directive.AuthError?
    case AfterCommit => directive.AmbiguousPostCommitTimeout?
    case AfterTool =>
      directive.Delay? || directive.Timeout? || directive.MalformedResponse? || directive.StaleField?
      || directive.PromptInjection? || directive.DuplicateResponse?
  }

  /** What compiling a frozen Scenario guarantees. */
  ghost predicate ValidPlan(plan: Plan)
  {
    && (forall i, j :: 0 <= i < j < |plan.rules| ==> plan.rules[i].faultId != plan.rules[j].faultId)
    && (forall r :: r in plan.rules ==>
          && r.scenarioDigest == plan.scenarioDigest
          && RunsAt(r.directive, r.phase)
          && (r.callOrdinal.Some? ==> 1 <= r.callOrdinal.value <= MAX_ORDINAL))
  }

  function FaultIds(plan: Plan): set<string>
  {
    set r | r in plan.rules :: r.faultId
  }

  // ----- Hashing -----

  /** The document whose canonical bytes are hashed for one selection. */
  datatype Material = Material(
    seed: nat, runId: string, scenarioDigest: string, faultId: string, toolId: string, phase: Phase,
    logicalId: string, attempt: nat, ordinal: nat, argumentsDigest: string)

  /** SHA-256 as three functions: the sample as a number, the activation identity of a material and an
      attempt (joined by a NUL byte, which canonical JSON never contains), and the arguments digest. */
  datatype Hashes = Hashes(sample: Material -> nat, activation: (Material, string) -> string,
                           arguments: map<string, Json> -> string)

  ghost predicate Samples256(h: Hashes)
  {
    forall m :: h.sample(m) < TWO_256
  }

  ghost predicate CollisionFree(h: Hashes)
  {
    forall m, a, m', a' :: h.activation(m, a) == h.activation(m', a') ==> m == m' && a == a'
  }

  /** `_selection_bucket`. */
  function Bucket(sample: nat): nat
  {
    sample * PPM / TWO_256
  }

  /** The number of 256-bit samples a probability selects: p * 2^256 / 10^6, rounded up. */
  function Threshold(ppm: nat): nat
  {
    (ppm * TWO_256 + PPM - 1) / PPM
  }

  /** Comparing buckets is comparing samples with the exact threshold. */
  lemma BucketIsThreshold(sample: nat, ppm: nat)
    ensures Bucket(sample) < ppm <==> sample < Threshold(ppm)
  {
  }

  // ----- Matching -----

  datatype Facts = Facts(seed: nat, runId: string, logicalId: string, attemptId: string, attempt: nat,
                         argumentsDigest: string)

  datatype Context = Context(
    facts: Facts, scenarioDigest: string, toolId: string, phase: Phase, ordinal: nat,
    arguments: map<string, Json>, prior: map<string, nat>)

  datatype Reason =
    | MatchedReason | ToolMismatch | PhaseMismatch | OrdinalMismatch | ArgumentMismatch | CapReached | NotSelected

  datatype Decision = Decision(faultId: string, matched: bool, reason: Reason, bucket: Option<nat>,
                               activation: Option<string>)

  function MaterialOf(rule: Rule, f: Facts, ordinal: nat): Material
  {
    Material(f.seed, f.runId, rule.scenarioDigest, rule.faultId, rule.toolId, rule.phase, f.logicalId,
             f.attempt, ordinal, f.argumentsDigest)
  }

  predicate ArgumentsMatch(rule: Rule, arguments: map<string, Json>)
  {
    forall name :: name in rule.argumentEquals ==>
      name in arguments && arguments[name] == rule.argumentEquals[name]
  }

  function Prior(c: Context, faultId: string): nat
  {
    if faultId in c.prior then c.prior[faultId] else 0
  }

  /** `_match_fault_rule_v0`. */
  function MatchRule(h: Hashes, rule: Rule, c: Context): Decision
  {
    if c.toolId != rule.toolId then Decision(rule.faultId, false, ToolMismatch, None, None)
    else if c.phase != rule.phase then Decision(rule.faultId, false, PhaseMismatch, None, None)
    else if rule.callOrdinal.Some? && c.ordinal != rule.callOrdinal.value then
      Decision(rule.faultId, false, OrdinalMismatch, None, None)
    else if !ArgumentsMatch(rule, c.arguments) then Decision(rule.faultId, false, ArgumentMismatch, None, None)
    else if Prior(c, rule.faultId) >= rule.maxOccurrences then
      Decision(rule.faultId, false, CapReached, None, None)
    else
      var material := MaterialOf(rule, c.facts, c.ordinal);
      var bucket := Bucket(h.sample(material));
      if bucket >= rule.probabilityPpm then Decision(rule.faultId, false, NotSelected, Some(bucket), None)
      else Decision(rule.faultId, true, MatchedReason, Some(bucket),
                    Some(h.activation(material, c.facts.attemptId)))
  }

  /** `_validate_context`, less the shapes of identifiers. */
  predicate ValidContext(h: Hashes, plan: Plan, c: Context)
  {
    && c.scenarioDigest == plan.scenarioDigest
    && c.prior.Keys <= FaultIds(plan)
    && (forall id :: id in c.prior ==> c.prior[id] <= MAX_COUNT)
    && 1 <= c.ordinal <= MAX_ORDINAL
    && 1 <= c.facts.attempt
    && c.facts.argumentsDigest == h.arguments(c.arguments)
  }

  /** `match_fault_plan_v0`; None is the validation error. */
  function MatchPlan(h: Hashes, plan: Plan, c: Context): Option<seq<Decision>>
  {
    if ValidContext(h, plan, c) then
      Some(seq(|plan.rules|, i requires 0 <= i < |plan.rules| => MatchRule(h, plan.rules[i], c)))
    else None
  }

  /** What a decision's reason means: the first guard, in declaration order, that failed. */
  predicate Fails(h: Hashes, rule: Rule, c: Context, reason: Reason)
  {
    match reason
    case ToolMismatch => c.toolId != rule.toolId
    case PhaseMismatch => c.phase != rule.phase
    case OrdinalMismatch => rule.callOrdinal.Some? && c.ordinal != rule.callOrdinal.value
    case ArgumentMismatch => !ArgumentsMatch(rule, c.arguments)
    case CapReached => Prior(c, rule.faultId) >= rule.maxOccurrences
    case NotSelected => h.sample(MaterialOf(rule, c.facts, c.ordinal)) >= Threshold(rule.probabilityPpm)
    case MatchedReason => true
  }

  const GUARDS: seq<Reason> :=
    [ToolMismatch, PhaseMismatch, OrdinalMismatch, ArgumentMismatch, CapReached, NotSelected, MatchedReason]

  /** A rule is matched exactly when every guard holds, the last being that its sample lies below the
      exact threshold; otherwise the reason names the first guard that failed. */
  lemma DecisionIsFirstFailure(h: Hashes, rule: Rule, c: Context)
    ensures exists i :: 0 <= i < |GUARDS| && MatchRule(h, rule, c).reason == GUARDS[i]
              && Fails(h, rule, c, GUARDS[i]) && forall j :: 0 <= j < i ==> !Fails(h, rule, c, GUARDS[j])
    ensures MatchRule(h, rule, c).matched <==> forall i :: 0 <= i < 6 ==> !Fails(h, rule, c, GUARDS[i])
    ensures MatchRule(h, rule, c).matched <==> MatchRule(h, rule, c).activation.Some?
  {
    BucketIsThreshold(h.sample(MaterialOf(rule, c.facts, c.ordinal)), rule.probabilityPpm);
    var reason := MatchRule(h, rule, c).reason;
    var i := match reason
      case ToolMismatch => 0 case PhaseMismatch => 1 case OrdinalMismatch => 2 case ArgumentMismatch => 3
      case CapReached => 4 case NotSelected => 5 case MatchedReason => 6;
    assert reason == GUARDS[i] && Fails(h, rule, c, GUARDS[i]);
    assert forall j :: 0 <= j < i ==> !Fails(h, rule, c, GUARDS[j]);
  }

  // ----- Authentication -----

  /** `expected_fault_activation_id_v0`; outside the ordinal's range, where it raises, nothing is expected. */
  function Expected(h: Hashes, rule: Rule, f: Facts, ordinal: nat): Option<string>
  {
    var material := MaterialOf(rule, f, ordinal);
    if ordinal < 1 || ordinal > MAX_ORDINAL || Bucket(h.sample(material)) >= rule.probabilityPpm then None
    else Some(h.activation(material, f.attemptId))
  }

  /** The ordinals an authentication tries: first and past the last. */
  function Candidates(rule: Rule, ordinal: Option<nat>): (nat, nat)
  {
    if ordinal.Some? then (ordinal.value, ordinal.value + 1)
    else if rule.callOrdinal.Some? then (rule.callOrdinal.value, rule.callOrdinal.value + 1)
    else (1, MAX_ORDINAL + 1)
  }

  ghost function Issuers(h: Hashes, rule: Rule, f: Facts, activation: string, first: nat, past: nat): set<nat>
  {
    set o: nat | first <= o < past && Expected(h, rule, f, o) == Some(activation)
  }

  ghost predicate Authentic(h: Hashes, rule: Rule, f: Facts, activation: string, ordinal: Option<nat>)
  {
    var (first, past) := Candidates(rule, ordinal);
    |Issuers(h, rule, f, activation, first, past)| == 1
  }

  /** `authenticates_activation`: exactly one ordinal explains the activation. */
  method AuthenticatesActivation(h: Hashes, rule: Rule, f: Facts, activation: string, ordinal: Option<nat>)
    returns (ok: bool)
    ensures ok <==> Authentic(h, rule, f, activation, ordinal)
  {
    var (first, past) := Candidates(rule, ordinal);
    var matches := 0;
    for o := first to past
      invariant matches == |Issuers(h, rule, f, activation, first, o)|
    {
      ghost var before := Issuers(h, rule, f, activation, first, o);
      ghost var after := Issuers(h, rule, f, activation, first, o + 1);
      if Expected(h, rule, f, o) == Some(activation) {
        assert after == before + {o};
        matches := matches + 1;
      } else {
        assert after == before;
      }
    }
    return matches == 1;
  }

  lemma OneIssuer(h: Hashes, rule: Rule, f: Facts, activation: string, first: nat, past: nat, ordinal: nat)
    requires CollisionFree(h) && first <= ordinal < past
    requires Expected(h, rule, f, ordinal) == Some(activation)
    ensures Issuers(h, rule, f, activation, first, past) == {ordinal}
  {
  }

  /** Every activation the matcher issues is authenticated, whether or not the ordinal is known. */
  lemma IssuedIsAuthentic(h: Hashes, rule: Rule, c: Context)
    requires CollisionFree(h) && 1 <= c.ordinal <= MAX_ORDINAL && MatchRule(h, rule, c).matched
    ensures Authentic(h, rule, c.facts, MatchRule(h, rule, c).activation.value, None)
    ensures Authentic(h, rule, c.facts, MatchRule(h, rule, c).activation.value, Some(c.ordinal))
  {
    var activation := MatchRule(h, rule, c).activation.value;
    var (first, past) := Candidates(rule, None);
    OneIssuer(h, rule, c.facts, activation, first, past, c.ordinal);
    OneIssuer(h, rule, c.facts, activation, c.ordinal, c.ordinal + 1, c.ordinal);
  }

  /** An authentic activation was selected by its sample, at an ordinal the activation determines, and
      stands for one fault and one physical attempt only. */
  lemma AuthenticDetermines(h: Hashes, rule: Rule, f: Facts, ordinal: Option<nat>,
                            rule': Rule, f': Facts, ordinal': Option<nat>, activation: string)
    requires CollisionFree(h)
    requires Authentic(h, rule, f, activation, ordinal) && Authentic(h, rule', f', activation, ordinal')
    ensures f == f' && rule.faultId == rule'.faultId
    ensures exists o :: 1 <= o <= MAX_ORDINAL && Expected(h, rule, f, o) == Some(activation)
              && Expected(h, rule', f', o) == Some(activation)
              && h.sample(MaterialOf(rule, f, o)) < Threshold(rule.probabilityPpm)
  {
    var o := AuthenticOrdinal(h, rule, f, ordinal, activation);
    var o' := AuthenticOrdinal(h, rule', f', ordinal', activation);
    assert MaterialOf(rule, f, o) == MaterialOf(rule', f', o');
    BucketIsThreshold(h.sample(MaterialOf(rule, f, o)), rule.probabilityPpm);
  }

  lemma AuthenticOrdinal(h: Hashes, rule: Rule, f: Facts, ordinal: Option<nat>, activation: string) returns (o: nat)
    requires Authentic(h, rule, f, activation, ordinal)
    ensures 1 <= o <= MAX_ORDINAL && Expected(h, rule, f, o) == Some(activation)
    ensures ordinal.Some? ==> o == ordinal.value
  {
    var (first, past) := Candidates(rule, ordinal);
    var issuers := Issuers(h, rule, f, activation, first, past);
    assert issuers != {};
    o :| o in issuers;
  }
}
