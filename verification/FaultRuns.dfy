/** Whole runs: authenticate the counts, select, apply, append the chains, and again. */
module FaultRuns {
  import opened Prelude
  import opened RunEvents
  import opened FaultMatcher
  import opened FaultApplication
  import opened FaultHistory
  import opened FaultChains
  import opened FaultGrowth
  import EventStreams

  /** The context the gateway matches one request in; `prior` is what authentication returned. */
  ghost predicate ContextOf(s: Setup, log: seq<Event>, request: Event, c: Context)
    requires request.body.ToolRequested?
  {
    && c.facts == FactsOf(s, request)
    && c.toolId == request.body.toolId
    && c.prior == Outcome(s, log).counts
    && (s.component.Some? ==> request.producer.component == s.component.value)
    && (s.ordinals.Some? ==> OrdinalOf(s, request) == Some(c.ordinal))
    && (s.arguments.Some? && request.id in s.arguments.value ==> s.arguments.value[request.id] == c.arguments)
  }

  function RulesAt(s: Setup, c: Context, phase: Phase): seq<Rule>
  {
    var selection := SelectionOf(s.hashes, s.plan, c.(phase := phase));
    if selection.None? then [] else selection.value.matchedRules
  }

  /** Which of a phase's matched rules its `apply_*` method applies. */
  function Winners(phase: Phase, rules: seq<Rule>): seq<Rule>
  {
    if phase != AfterCommit then Effective(rules) else if rules == [] then [] else [rules[0]]
  }

  predicate AllTakeEffect(phase: Phase, rules: seq<Rule>)
  {
    if phase == AfterCommit then |rules| <= 1 else |Rivals(rules)| <= 1
  }

  function BoundAt(s: Setup, c: Context, phase: Phase, rules: seq<Rule>): seq<AppliedFault>
  {
    var selection := SelectionOf(s.hashes, s.plan, c.(phase := phase));
    if selection.None? then [] else Bound(selection.value, rules)
  }

  function MatchedIn(s: Setup, c: Context, phases: seq<Phase>): seq<AppliedFault>
  {
    if phases == [] then []
    else MatchedIn(s, c, Front(phases)) + BoundAt(s, c, Last(phases), RulesAt(s, c, Last(phases)))
  }

  function AppliedIn(s: Setup, c: Context, phases: seq<Phase>): seq<AppliedFault>
  {
    if phases == [] then []
    else AppliedIn(s, c, Front(phases)) + BoundAt(s, c, Last(phases), Winners(Last(phases), RulesAt(s, c, Last(phases))))
  }

  /** One request: the phases it went through, and the chains it left. */
  ghost predicate RequestStep(s: Setup, log: seq<Event>, block: seq<Event>, w: Written, c: Context, phases: seq<Phase>)
  {
    && FreshBlock(s, log, block, w.request)
    && ContextOf(s, log, w.request, c)
    && Distinct(phases)
    && Writes(w, MatchedIn(s, c, phases), AppliedIn(s, c, phases))
    && Holds(w, block)
  }

  /** A stream that validates has given the request's identity and attempt to nothing before it. */
  lemma StreamIsFresh(s: Setup, log: seq<Event>, block: seq<Event>, request: Event)
    requires EventStreams.ValidStream(log + block, true)
    requires block != [] && block[0] == request && request.body.ToolRequested?
    requires forall e :: e in block ==> e.runId == s.runId
    requires forall e :: e in log && e.body.ApprovalResolved? ==> e.body.requestEvent != request.id
    ensures FreshBlock(s, log, block, request)
  {
    assert (log + block)[..|log|] == log;
    EventStreams.NothingRefersAhead(log + block, |log|, request);
  }

  // ----- What one phase contributes -----

  lemma OneMoreDistinct(some: seq<Rule>, last: Rule)
    requires DistinctFaults(some) && forall r :: r in some ==> r.faultId != last.faultId
    ensures DistinctFaults(some + [last])
  {
    assert forall i :: 0 <= i < |some| ==> some[i] in some;
  }

  lemma LastIsDistinct(before: seq<Rule>, last: Rule)
    requires DistinctFaults(before + [last])
    ensures DistinctFaults(before) && forall r :: r in before ==> r.faultId != last.faultId
  {
    var rules := before + [last];
    assert rules[|before|] == last && forall i :: 0 <= i < |before| ==> rules[i] == before[i];
  }

  lemma {:induction false} EffectiveDistinct(rules: seq<Rule>)
    requires DistinctFaults(rules)
    ensures DistinctFaults(Effective(rules)) && DistinctFaults(Rivals(rules))
    ensures forall r :: r in Rivals(rules) ==> r in rules && !r.directive.Delay?
  {
    RivalsFacts(rules);
    if rules != [] {
      var before, last := Front(rules), Last(rules);
      assert rules == before + [last];
      LastIsDistinct(before, last);
      EffectiveDistinct(before);
      EffectiveFacts(before);
      RivalsFacts(before);
      OneMoreDistinct(Effective(before), last);
      OneMoreDistinct(Rivals(before), last);
    }
  }

  /** All rules of a phase are applied exactly when at most one of them is not a delay. */
  lemma WinnersAreAll(phase: Phase, rules: seq<Rule>)
    requires DistinctFaults(rules)
    ensures forall r :: r in Winners(phase, rules) ==> r in rules
    ensures DistinctFaults(Winners(phase, rules))
    ensures (forall r :: r in rules ==> r in Winners(phase, rules)) <==> AllTakeEffect(phase, rules)
  {
    if phase == AfterCommit {
      if |rules| > 1 {
        assert rules[1] in rules && rules[0].faultId != rules[1].faultId;
      }
    } else {
      EffectiveFacts(rules);
      EffectiveDistinct(rules);
      AllEffective(rules);
      if |Rivals(rules)| > 1 {
        var second := Rivals(rules)[1];
        OneRivalTakesEffect(rules);
        RivalsFacts(Effective(rules));
        assert second in Rivals(rules) && Rivals(rules)[0].faultId != second.faultId;
        assert second !in Effective(rules);
      }
    }
  }

  lemma PhaseIsIssued(s: Setup, log: seq<Event>, request: Event, c: Context, phase: Phase)
    requires CollisionFree(s.hashes) && ValidPlan(s.plan)
    requires request.body.ToolRequested? && ContextOf(s, log, request, c)
    ensures DistinctFaults(RulesAt(s, c, phase))
    ensures forall f :: f in BoundAt(s, c, phase, RulesAt(s, c, phase)) ==> IssuedOne(s, log, request, f) && f.rule.phase == phase
  {
    var rules, bound := RulesAt(s, c, phase), BoundAt(s, c, phase, RulesAt(s, c, phase));
    if SelectionOf(s.hashes, s.plan, c.(phase := phase)).Some? {
      forall i | 0 <= i < |rules|
        ensures IssuedOne(s, log, request, bound[i]) && bound[i].rule.phase == phase
      {
        RuleIsIssued(s, log, request, c, phase, i);
      }
      if rules != [] {
        SelectionIsAuthentic(s.hashes, s.plan, c.(phase := phase), rules[0]);
      }
    }
  }

  lemma RuleIsIssued(s: Setup, log: seq<Event>, request: Event, c: Context, phase: Phase, i: nat)
    requires CollisionFree(s.hashes) && ValidPlan(s.plan)
    requires request.body.ToolRequested? && ContextOf(s, log, request, c)
    requires i < |RulesAt(s, c, phase)|
    ensures var f := BoundAt(s, c, phase, RulesAt(s, c, phase))[i];
            IssuedOne(s, log, request, f) && f.rule.phase == phase
  {
    var r, c' := RulesAt(s, c, phase)[i], c.(phase := phase);
    SelectionIsAuthentic(s.hashes, s.plan, c', r);
    assert r.faultId in FaultIds(s.plan);
    MatchedGuards(s.hashes, r, c');
  }

  lemma MatchedGuards(h: Hashes, r: Rule, c: Context)
    requires MatchRule(h, r, c).matched
    ensures c.toolId == r.toolId && c.phase == r.phase && ArgumentsMatch(r, c.arguments)
    ensures r.callOrdinal.Some? ==> r.callOrdinal.value == c.ordinal
    ensures Prior(c, r.faultId) < r.maxOccurrences
  {
  }

  /** The faults bound for some of a phase's rules. */
  lemma BoundRules(s: Setup, c: Context, phase: Phase, rules: seq<Rule>)
    requires forall r :: r in rules ==> r in RulesAt(s, c, phase)
    requires DistinctFaults(rules)
    ensures OneEach(BoundAt(s, c, phase, rules))
    ensures forall f :: f in BoundAt(s, c, phase, rules) <==>
              f.rule in rules && f in BoundAt(s, c, phase, RulesAt(s, c, phase))
  {
    var selection := SelectionOf(s.hashes, s.plan, c.(phase := phase));
    if selection.Some? {
      var all, some := RulesAt(s, c, phase), BoundAt(s, c, phase, rules);
      forall f | f in BoundAt(s, c, phase, all) && f.rule in rules
        ensures f in some
      {
        var i :| 0 <= i < |rules| && rules[i] == f.rule;
        assert some[i] == f;
      }
      forall f | f in some
        ensures f.rule in rules && f in BoundAt(s, c, phase, all)
      {
        var i :| 0 <= i < |some| && some[i] == f;
        assert rules[i] in rules;
        var j :| 0 <= j < |all| && all[j] == rules[i];
        assert BoundAt(s, c, phase, all)[j] == f;
      }
    }
  }

  /** What the phases contribute together. */
  ghost predicate Contribution(s: Setup, log: seq<Event>, request: Event, c: Context, phases: seq<Phase>,
                               matched: seq<AppliedFault>, applied: seq<AppliedFault>)
    requires request.body.ToolRequested?
  {
    && OneEach(matched) && OneEach(applied)
    && (forall f :: f in applied ==> f in matched)
    && (forall f :: f in matched ==> IssuedOne(s, log, request, f) && f.rule.phase in phases)
    && ((forall f :: f in matched ==> f in applied) <==> forall p :: p in phases ==> AllTakeEffect(p, RulesAt(s, c, p)))
  }

  lemma PhaseContributes(s: Setup, log: seq<Event>, request: Event, c: Context, phase: Phase)
    requires CollisionFree(s.hashes) && ValidPlan(s.plan)
    requires request.body.ToolRequested? && ContextOf(s, log, request, c)
    ensures var rules := RulesAt(s, c, phase);
            Contribution(s, log, request, c, [phase], BoundAt(s, c, phase, rules), BoundAt(s, c, phase, Winners(phase, rules)))
  {
    var rules := RulesAt(s, c, phase);
    var matched, applied := BoundAt(s, c, phase, rules), BoundAt(s, c, phase, Winners(phase, rules));
    PhaseIsIssued(s, log, request, c, phase);
    WinnersAreAll(phase, rules);
    BoundRules(s, c, phase, rules);
    BoundRules(s, c, phase, Winners(phase, rules));
    forall r | r in rules
      ensures exists f :: f in matched && f.rule == r
    {
      var i :| 0 <= i < |rules| && rules[i] == r;
      assert matched[i] in matched;
    }
  }

  lemma Combine(s: Setup, log: seq<Event>, request: Event, c: Context, phases: seq<Phase>, phase: Phase,
                m: seq<AppliedFault>, a: seq<AppliedFault>, m': seq<AppliedFault>, a': seq<AppliedFault>)
    requires ValidPlan(s.plan) && request.body.ToolRequested? && phase !in phases
    requires Contribution(s, log, request, c, phases, m, a) && Contribution(s, log, request, c, [phase], m', a')
    ensures Contribution(s, log, request, c, phases + [phase], m + m', a + a')
  {
    PhasesAreApart(s.plan, phases, phase, m, m');
    CombineDistinct(m, m');
    CombineDistinct(a, a');
    CombineCovers(m, a, m', a');
    EveryPhase(s, c, phases, phase);
  }

  /** Faults of different phases are different faults. */
  lemma PhasesAreApart(plan: Plan, phases: seq<Phase>, phase: Phase, m: seq<AppliedFault>, m': seq<AppliedFault>)
    requires ValidPlan(plan) && phase !in phases
    requires forall f :: f in m ==> f.rule in plan.rules && f.rule.phase in phases
    requires forall f :: f in m' ==> f.rule in plan.rules && f.rule.phase in [phase]
    ensures forall f, g :: f in m && g in m' ==> f.rule.faultId != g.rule.faultId && f != g
  {
    forall f, g | f in m && g in m'
      ensures f.rule.faultId != g.rule.faultId && f != g
    {
      assert f.rule.phase in phases && g.rule.phase in [phase];
      var i :| 0 <= i < |plan.rules| && plan.rules[i] == f.rule;
      var j :| 0 <= j < |plan.rules| && plan.rules[j] == g.rule;
    }
  }

  lemma EveryPhase(s: Setup, c: Context, phases: seq<Phase>, phase: Phase)
    ensures (forall p :: p in phases + [phase] ==> AllTakeEffect(p, RulesAt(s, c, p))) <==>
            (forall p :: p in phases ==> AllTakeEffect(p, RulesAt(s, c, p)))
            && (forall p :: p in [phase] ==> AllTakeEffect(p, RulesAt(s, c, p)))
  {
    assert forall p :: p in phases + [phase] <==> p in phases || p in [phase];
  }

  lemma CombineDistinct(m: seq<AppliedFault>, m': seq<AppliedFault>)
    requires OneEach(m) && OneEach(m')
    requires forall f, g :: f in m && g in m' ==> f.rule.faultId != g.rule.faultId
    ensures OneEach(m + m')
  {
    var all := m + m';
    forall i, j | 0 <= i < j < |all|
      ensures all[i].rule.faultId != all[j].rule.faultId
    {
      if i < |m| <= j {
        assert all[i] in m && all[j] in m';
      }
    }
  }

  lemma CombineCovers(m: seq<AppliedFault>, a: seq<AppliedFault>, m': seq<AppliedFault>, a': seq<AppliedFault>)
    requires (forall f :: f in a ==> f in m) && (forall f :: f in a' ==> f in m')
    requires forall f, g :: f in m && g in m' ==> f != g
    ensures (forall f :: f in m + m' ==> f in a + a') <==> (forall f :: f in m ==> f in a) && (forall f :: f in m' ==> f in a')
  {
    if forall f :: f in m + m' ==> f in a + a' {
      forall f | f in m
        ensures f in a
      {
        assert f in m + m';
      }
      forall f | f in m'
        ensures f in a'
      {
        assert f in m + m';
      }
    }
  }

  lemma PhaseExtends(s: Setup, log: seq<Event>, request: Event, c: Context, phases: seq<Phase>, phase: Phase)
    requires CollisionFree(s.hashes) && ValidPlan(s.plan) && phase !in phases
    requires request.body.ToolRequested? && ContextOf(s, log, request, c)
    requires Contribution(s, log, request, c, phases, MatchedIn(s, c, phases), AppliedIn(s, c, phases))
    ensures var every := phases + [phase];
            Contribution(s, log, request, c, every, MatchedIn(s, c, every), AppliedIn(s, c, every))
  {
    var rules, every := RulesAt(s, c, phase), phases + [phase];
    PhaseContributes(s, log, request, c, phase);
    assert Front(every) == phases && Last(every) == phase;
    Combine(s, log, request, c, phases, phase, MatchedIn(s, c, phases), AppliedIn(s, c, phases),
            BoundAt(s, c, phase, rules), BoundAt(s, c, phase, Winners(phase, rules)));
  }

  lemma NoPhaseContributes(s: Setup, log: seq<Event>, request: Event, c: Context)
    requires request.body.ToolRequested?
    ensures Contribution(s, log, request, c, [], [], [])
  {
  }

  lemma {:induction false} PhasesContribute(s: Setup, log: seq<Event>, request: Event, c: Context, phases: seq<Phase>)
    requires CollisionFree(s.hashes) && ValidPlan(s.plan) && Distinct(phases)
    requires request.body.ToolRequested? && ContextOf(s, log, request, c)
    ensures Contribution(s, log, request, c, phases, MatchedIn(s, c, phases), AppliedIn(s, c, phases))
  {
    if phases == [] {
      NoPhaseContributes(s, log, request, c);
    } else {
      var before, last := Front(phases), Last(phases);
      assert phases == before + [last] && last !in before && Distinct(before);
      PhasesContribute(s, log, request, c, before);
      PhaseExtends(s, log, request, c, before, last);
    }
  }

  // ----- One request -----

  lemma StepGrows(s: Setup, log: seq<Event>, block: seq<Event>, w: Written, c: Context, phases: seq<Phase>)
    requires CollisionFree(s.hashes) && ValidPlan(s.plan)
    requires RequestStep(s, log, block, w, c, phases)
    ensures Grows(s, log, block, w, MatchedIn(s, c, phases), AppliedIn(s, c, phases))
  {
    PhasesContribute(s, log, w.request, c, phases);
    var matched := MatchedIn(s, c, phases);
    assert Issued(s, log, w.request, matched);
  }

  /** After any request, no fault has been applied more often than its cap; and the log that holds the
      request's chains is accepted again exactly when, in each phase, at most one matched fault was not a
      delay (at most one fault at all after a commit). */
  lemma RequestAccepted(s: Setup, log: seq<Event>, block: seq<Event>, w: Written, c: Context, phases: seq<Phase>)
    requires CollisionFree(s.hashes) && ValidPlan(s.plan) && Coherent(s, log)
    requires RequestStep(s, log, block, w, c, phases)
    ensures Coherent(s, log + block) <==> forall p :: p in phases ==> AllTakeEffect(p, RulesAt(s, c, p))
    ensures WithinCaps(s.plan, log + block)
  {
    StepGrows(s, log, block, w, c, phases);
    PhasesContribute(s, log, w.request, c, phases);
    GrownLogAccepted(s, log, block, w, MatchedIn(s, c, phases), AppliedIn(s, c, phases));
  }

  // ----- Two faults in one phase -----

  function AlwaysTimeout(faultId: string): Rule
  {
    Rule(faultId, "scenario", Timeout(1000), "orders.get", BeforeTool, None, map[], PPM, 1)
  }

  /** A plan the compiler accepts, whose every call has two rivals. */
  const RIVALS := Plan("scenario", [AlwaysTimeout("first"), AlwaysTimeout("second")])

  /** Both rules match every first call, one is applied, and the log that records them is refused. */
  lemma RivalsAreOrphaned(s: Setup, log: seq<Event>, block: seq<Event>, w: Written, c: Context)
    requires CollisionFree(s.hashes) && Samples256(s.hashes) && s.plan == RIVALS && Coherent(s, log)
    requires RequestStep(s, log, block, w, c, [BeforeTool])
    requires ValidContext(s.hashes, RIVALS, c.(phase := BeforeTool))
    requires c.toolId == "orders.get" && Prior(c, "first") == 0 && Prior(c, "second") == 0
    ensures RulesAt(s, c, BeforeTool) == RIVALS.rules
    ensures !Coherent(s, log + block)
  {
    BothMatch(s, c);
    RivalsAreValid();
    assert BeforeTool in [BeforeTool];
    RequestAccepted(s, log, block, w, c, [BeforeTool]);
  }

  lemma RivalsAreValid()
    ensures ValidPlan(RIVALS) && !AllTakeEffect(BeforeTool, RIVALS.rules)
  {
    var first, second := AlwaysTimeout("first"), AlwaysTimeout("second");
    assert RIVALS.rules == [first, second] && first.faultId[0] != second.faultId[0];
    TwoRivals(first, second);
  }

  lemma TwoRivals(first: Rule, second: Rule)
    requires !first.directive.Delay? && !second.directive.Delay?
    ensures Rivals([first, second]) == [first, second]
  {
    assert Front([first, second]) == [first] && Front([first]) == [];
    assert Rivals([first]) == [first];
  }

  lemma BothMatch(s: Setup, c: Context)
    requires Samples256(s.hashes) && s.plan == RIVALS
    requires ValidContext(s.hashes, RIVALS, c.(phase := BeforeTool))
    requires c.toolId == "orders.get" && Prior(c, "first") == 0 && Prior(c, "second") == 0
    ensures RulesAt(s, c, BeforeTool) == RIVALS.rules
  {
    var c' := c.(phase := BeforeTool);
    forall r | r in RIVALS.rules
      ensures MatchRule(s.hashes, r, c').matched
    {
      BucketIsThreshold(s.hashes.sample(MaterialOf(r, c'.facts, c'.ordinal)), PPM);
    }
    var decisions, rules := MatchPlan(s.hashes, RIVALS, c').value, RIVALS.rules;
    assert decisions[0] == MatchRule(s.hashes, rules[0], c') && decisions[1] == MatchRule(s.hashes, rules[1], c');
    BothAreTaken(rules[0], rules[1], decisions[0], decisions[1]);
    assert rules == [rules[0], rules[1]] && decisions == [decisions[0], decisions[1]];
  }

  lemma BothAreTaken(first: Rule, second: Rule, d: Decision, e: Decision)
    requires d.matched && e.matched
    ensures MatchedRules([first, second], [d, e]) == [first, second]
  {
    assert Front([first, second]) == [first] && Front([d, e]) == [d] && Front([first]) == [] && Front([d]) == [];
    assert MatchedRules([first], [d]) == [first];
  }

  // The first request of a run under `RIVALS`, and the events it leaves.
  const GATEWAY := Producer("tool-gateway", None)

  function RivalSetup(h: Hashes): Setup
  {
    Setup(h, RIVALS, 0, "run", "scenario", None, None, None)
  }

  function EventId(n: nat): (id: string)
    ensures |id| == n
  {
    seq(n, _ => 'e')
  }

  function Logged(n: nat, cause: Option<string>, body: Body): Event
  {
    Event(EventId(n), "run", n, GATEWAY, cause, "call", body)
  }

  function RivalRequest(h: Hashes): Event
  {
    Logged(1, None, ToolRequested("call", "attempt", 1, "step", "orders.get", h.arguments(map[]), None))
  }

  function RivalContext(h: Hashes): Context
  {
    Context(FactsOf(RivalSetup(h), RivalRequest(h)), "scenario", "orders.get", BeforeTool, 1, map[],
            Outcome(RivalSetup(h), []).counts)
  }

  /** Two matches, one application with its result and its observation. */
  function RivalWritten(h: Hashes, a: string, b: string): Written
  {
    Written(
      RivalRequest(h),
      [Logged(2, Some(EventId(1)), Fault(Matched, "first", a, [EventId(1)])),
       Logged(3, Some(EventId(1)), Fault(Matched, "second", b, [EventId(1)]))],
      [Logged(4, Some(EventId(2)), Fault(Applied, "first", a, [EventId(1), EventId(2)]))],
      Logged(5, Some(EventId(4)),
             ToolResulted("call", "attempt", 1, "orders.get", EventId(1), 0, "timed_out", None, Some("fault_timeout"))),
      [Logged(6, Some(EventId(5)), Fault(Observed, "first", a, [EventId(1), EventId(4), EventId(5)]))])
  }

  function RivalBlock(w: Written): seq<Event>
    requires |w.matches| == 2 && |w.applications| == |w.observations| == 1
  {
    [w.request, w.matches[0], w.matches[1], w.applications[0], w.result, w.observations[0]]
  }

  lemma DifferentLengths(block: seq<Event>)
    requires forall i :: 0 <= i < |block| ==> |block[i].id| == i + 1
    ensures UniqueIds(block)
  {
  }

  lemma RivalBlockIsFresh(h: Hashes, a: string, b: string)
    ensures var w := RivalWritten(h, a, b); FreshBlock(RivalSetup(h), [], RivalBlock(w), w.request)
  {
    var w := RivalWritten(h, a, b);
    var block := RivalBlock(w);
    DifferentLengths(block);
    assert [] + block == block;
    assert forall e :: e in block ==> e.runId == "run";
  }

  lemma RivalBlockHolds(h: Hashes, a: string, b: string)
    ensures var w := RivalWritten(h, a, b); Holds(w, RivalBlock(w))
  {
  }

  lemma RivalChains(h: Hashes, f: AppliedFault, g: AppliedFault)
    requires f.rule == AlwaysTimeout("first") && g.rule == AlwaysTimeout("second")
    ensures Writes(RivalWritten(h, f.activation, g.activation), [f, g], [f])
  {
    var w := RivalWritten(h, f.activation, g.activation);
    assert w.matches[0] in w.matches && AppliesMatch(w, w.matches[0], f, w.applications[0]);
  }

  lemma RivalsAreBound(h: Hashes) returns (f: AppliedFault, g: AppliedFault)
    requires Samples256(h)
    ensures var s, c := RivalSetup(h), RivalContext(h);
            && f.rule == AlwaysTimeout("first") && g.rule == AlwaysTimeout("second")
            && MatchedIn(s, c, [BeforeTool]) == [f, g] && AppliedIn(s, c, [BeforeTool]) == [f]
  {
    var s, c, rules := RivalSetup(h), RivalContext(h), RIVALS.rules;
    assert c.(phase := BeforeTool) == c;
    BothMatch(s, c);
    OneWins();
    f, g := BoundAt(s, c, BeforeTool, rules)[0], BoundAt(s, c, BeforeTool, rules)[1];
    assert Front([BeforeTool]) == [];
    assert MatchedIn(s, c, [BeforeTool]) == [f, g];
    assert AppliedIn(s, c, [BeforeTool]) == [f];
  }

  /** Such a run exists: under this plan the very first call leaves a log that the next one refuses. */
  lemma RivalsHappen(h: Hashes) returns (w: Written)
    requires CollisionFree(h) && Samples256(h)
    ensures |w.matches| == 2 && |w.applications| == |w.observations| == 1
    ensures RequestStep(RivalSetup(h), [], RivalBlock(w), w, RivalContext(h), [BeforeTool])
    ensures Coherent(RivalSetup(h), []) && !Coherent(RivalSetup(h), RivalBlock(w))
  {
    var f, g := RivalsAreBound(h);
    w := RivalWritten(h, f.activation, g.activation);
    RivalBlockIsFresh(h, f.activation, g.activation);
    RivalBlockHolds(h, f.activation, g.activation);
    RivalChains(h, f, g);
    assert [] + RivalBlock(w) == RivalBlock(w);
    assert RivalContext(h).(phase := BeforeTool) == RivalContext(h);
    RivalsAreOrphaned(RivalSetup(h), [], RivalBlock(w), w, RivalContext(h));
  }

  lemma OneWins()
    ensures Winners(BeforeTool, RIVALS.rules) == [RIVALS.rules[0]]
  {
    var rules := RIVALS.rules;
    assert Front(rules) == [rules[0]] && Front([rules[0]]) == [];
    assert Effective([rules[0]]) == [rules[0]];
  }

  // ----- Whole runs -----

  /** The log only grows; faults are applied only by a request whose history was authenticated first. */
  ghost predicate FaultStep(s: Setup, log: seq<Event>, log': seq<Event>)
  {
    && log <= log'
    && var block := log'[|log|..];
    || (forall e :: e in block ==> !IsFault(e, Applied))
    || (Coherent(s, log) && exists w, c, phases :: RequestStep(s, log, block, w, c, phases))
  }

  lemma FaultStepKeepsCaps(s: Setup, log: seq<Event>, log': seq<Event>)
    requires CollisionFree(s.hashes) && ValidPlan(s.plan)
    requires WithinCaps(s.plan, log) && FaultStep(s, log, log')
    ensures WithinCaps(s.plan, log')
  {
    var block := log'[|log|..];
    assert log' == log + block;
    if forall e :: e in block ==> !IsFault(e, Applied) {
      forall r | r in s.plan.rules
        ensures AppliedCount(log', r.faultId) <= r.maxOccurrences
      {
        CountStable(log, block, r.faultId);
      }
    } else {
      var w, c, phases :| RequestStep(s, log, block, w, c, phases);
      RequestAccepted(s, log, block, w, c, phases);
    }
  }

  /** Over any run, no fault is ever applied more often than its cap. */
  lemma CapsHoldForever(s: Setup, logs: seq<seq<Event>>)
    requires CollisionFree(s.hashes) && ValidPlan(s.plan)
    requires logs != [] && logs[0] == []
    requires forall i :: 0 <= i < |logs| - 1 ==> FaultStep(s, logs[i], logs[i + 1])
    ensures WithinCaps(s.plan, Last(logs))
  {
    var good := (log: seq<Event>) => WithinCaps(s.plan, log);
    var step := (log: seq<Event>, log': seq<Event>) => FaultStep(s, log, log');
    forall log, log' | good(log) && step(log, log')
      ensures good(log')
    {
      FaultStepKeepsCaps(s, log, log');
    }
    ChainKeeps(good, step, logs);
  }

  /** Steps in which no phase has rivals, and events of no chain. */
  ghost predicate CleanStep(s: Setup, log: seq<Event>, log': seq<Event>)
  {
    && log <= log'
    && var block := log'[|log|..];
    || (UniqueIds(log') && forall e :: e in block ==> Inert(e) && e.runId == s.runId)
    || exists w, c, phases ::
         RequestStep(s, log, block, w, c, phases) && forall p :: p in phases ==> AllTakeEffect(p, RulesAt(s, c, p))
  }

  lemma CleanStepKeeps(s: Setup, log: seq<Event>, log': seq<Event>)
    requires CollisionFree(s.hashes) && ValidPlan(s.plan)
    requires Coherent(s, log) && CleanStep(s, log, log')
    ensures Coherent(s, log')
  {
    var block := log'[|log|..];
    assert log' == log + block;
    if UniqueIds(log') && forall e :: e in block ==> Inert(e) && e.runId == s.runId {
      InertIgnored(s, log, block);
    } else {
      var w, c, phases :|
        RequestStep(s, log, block, w, c, phases) && forall p :: p in phases ==> AllTakeEffect(p, RulesAt(s, c, p));
      RequestAccepted(s, log, block, w, c, phases);
    }
  }

  /** A run in which no phase ever has rivals is accepted at every point. */
  lemma CleanRunsAreAccepted(s: Setup, logs: seq<seq<Event>>)
    requires CollisionFree(s.hashes) && ValidPlan(s.plan) && s.plan.scenarioDigest == s.scenarioDigest
    requires logs != [] && logs[0] == []
    requires forall i :: 0 <= i < |logs| - 1 ==> CleanStep(s, logs[i], logs[i + 1])
    ensures Coherent(s, Last(logs))
  {
    var good := (log: seq<Event>) => Coherent(s, log);
    var step := (log: seq<Event>, log': seq<Event>) => CleanStep(s, log, log');
    assert Coherent(s, []);
    forall log, log' | good(log) && step(log, log')
      ensures good(log')
    {
      CleanStepKeeps(s, log, log');
    }
    ChainKeeps(good, step, logs);
  }
}
