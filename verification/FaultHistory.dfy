/** `authenticate_fault_history_v0`: committed fault chains, checked once and counted. */
module FaultHistory {
  import opened Prelude
  import opened RunEvents
  import opened FaultMatcher

  /** What a log is authenticated against. */
  datatype Setup = Setup(
    hashes: Hashes, plan: Plan, seed: nat, runId: string, scenarioDigest: string, component: Option<string>,
    arguments: Option<map<string, map<string, Json>>>, ordinals: Option<map<string, nat>>)

  datatype Authenticated = Authenticated(counts: map<string, nat>, observed: map<string, seq<string>>)

  function RuleIn(rules: seq<Rule>, faultId: string): Option<Rule>
  {
    if rules == [] then None
    else if Last(rules).faultId == faultId then Some(Last(rules))
    else RuleIn(Front(rules), faultId)
  }

  lemma {:induction false} RuleInFacts(rules: seq<Rule>, faultId: string)
    ensures RuleIn(rules, faultId).Some? ==>
              RuleIn(rules, faultId).value in rules && RuleIn(rules, faultId).value.faultId == faultId
    ensures (exists r :: r in rules && r.faultId == faultId) ==> RuleIn(rules, faultId).Some?
    ensures (forall i, j :: 0 <= i < j < |rules| ==> rules[i].faultId != rules[j].faultId) ==>
              forall r :: r in rules && r.faultId == faultId ==> RuleIn(rules, faultId) == Some(r)
  {
    if rules != [] {
      RuleInFacts(Front(rules), faultId);
      assert rules == Front(rules) + [Last(rules)];
    }
  }

  // ----- A request that is still in flight -----

  predicate Touches(e: Event, request: string)
  {
    || e.id == request
    || request in Related(e)
    || ((e.body.ToolResulted? || e.body.ApprovalResolved?) && e.body.requestEvent == request)
  }

  function Untouched(ignored: Option<string>): Event -> bool
  {
    (e: Event) => ignored.None? || !Touches(e, ignored.value)
  }

  function Kept(log: seq<Event>, ignored: Option<string>): seq<Event>
  {
    Select(log, Untouched(ignored))
  }

  // ----- A match and its request -----

  function FactsOf(s: Setup, request: Event): Facts
    requires request.body.ToolRequested?
  {
    Facts(s.seed, s.runId, request.body.logicalId, request.body.attemptId, request.body.attempt,
          request.body.argumentsDigest)
  }

  predicate HasRequest(log: seq<Event>, m: Event)
  {
    && m.body.Fault? && |m.body.related| == 1
    && Find(log, m.body.related[0]).Some?
    && Find(log, m.body.related[0]).value.body.ToolRequested?
  }

  function RequestOf(log: seq<Event>, m: Event): Event
    requires HasRequest(log, m)
  {
    Find(log, m.body.related[0]).value
  }

  function OrdinalOf(s: Setup, request: Event): Option<nat>
  {
    if s.ordinals.Some? && request.id in s.ordinals.value then Some(s.ordinals.value[request.id]) else None
  }

  /** Everything but the activation itself. */
  predicate BindsRequest(s: Setup, m: Event, request: Event, rule: Rule)
    requires m.body.Fault? && request.body.ToolRequested?
  {
    && m.causation == Some(request.id)
    && m.correlation == request.correlation
    && m.producer == request.producer
    && (s.component.Some? ==> m.producer.component == s.component.value)
    && (s.arguments.Some? && request.id in s.arguments.value ==>
          ArgumentsMatch(rule, s.arguments.value[request.id]))
    && (s.ordinals.Some? ==> OrdinalOf(s, request).Some?)
    && request.body.toolId == rule.toolId
    && (OrdinalOf(s, request).Some? && rule.callOrdinal.Some? ==> OrdinalOf(s, request) == rule.callOrdinal)
    && request.correlation == request.body.logicalId
    && request.sequence < m.sequence
  }

  ghost predicate MatchOk(s: Setup, log: seq<Event>, m: Event)
  {
    && HasRequest(log, m)
    && var request, rule := RequestOf(log, m), RuleIn(s.plan.rules, m.body.faultId);
    && rule.Some?
    && BindsRequest(s, m, request, rule.value)
    && Authentic(s.hashes, rule.value, FactsOf(s, request), m.body.activationId, OrdinalOf(s, request))
  }

  method CheckMatch(s: Setup, log: seq<Event>, m: Event) returns (ok: bool)
    ensures ok <==> MatchOk(s, log, m)
  {
    if !HasRequest(log, m) {
      return false;
    }
    var request, rule := RequestOf(log, m), RuleIn(s.plan.rules, m.body.faultId);
    if rule.None? || !BindsRequest(s, m, request, rule.value) {
      return false;
    }
    ok := AuthenticatesActivation(s.hashes, rule.value, FactsOf(s, request), m.body.activationId, OrdinalOf(s, request));
  }

  // ----- An application, its result and its observation -----

  function ResultsFor(log: seq<Event>, request: Event): seq<Event>
  {
    Select(log, (e: Event) => e.body.ToolResulted? && e.body.requestEvent == request.id)
  }

  function ObservedFor(log: seq<Event>, activation: string): seq<Event>
  {
    Select(log, (e: Event) => IsFault(e, Observed) && e.body.activationId == activation)
  }

  function AppliedTo(log: seq<Event>, request: Event): seq<Event>
  {
    Select(log, (e: Event) => IsFault(e, Applied) && request.id in e.body.related)
  }

  predicate FollowsMatch(m: Event, request: Event, a: Event)
    requires m.body.Fault? && a.body.Fault?
  {
    && a.body.faultId == m.body.faultId
    && a.body.activationId == m.body.activationId
    && ToSet(a.body.related) == {request.id, m.id}
    && a.causation == Some(m.id)
    && a.correlation == m.correlation
    && a.producer == m.producer
    && m.sequence < a.sequence
  }

  predicate FollowsApplication(request: Event, a: Event, last: Event, result: Event, observed: Event)
    requires request.body.ToolRequested? && a.body.Fault? && result.body.ToolResulted? && observed.body.Fault?
  {
    && result.body.logicalId == request.body.logicalId
    && result.body.attemptId == request.body.attemptId
    && result.body.attempt == request.body.attempt
    && result.body.toolId == request.body.toolId
    && result.causation == Some(last.id)
    && result.correlation == request.correlation
    && result.producer == request.producer
    && observed.body.faultId == a.body.faultId
    && ToSet(observed.body.related) == {request.id, a.id, result.id}
    && observed.causation == Some(result.id)
    && observed.correlation == request.correlation
    && observed.producer == request.producer
    && a.sequence < result.sequence < observed.sequence
  }

  predicate ApplicationOk(log: seq<Event>, m: Event, a: Event)
  {
    && a.body.Fault? && HasRequest(log, m)
    && var request := RequestOf(log, m);
    && FollowsMatch(m, request, a)
    && var results, observed := ResultsFor(log, request), ObservedFor(log, a.body.activationId);
    && |results| == 1 && |observed| == 1 && AppliedTo(log, request) != []
    && results[0].body.ToolResulted? && observed[0].body.Fault?
    && FollowsApplication(request, a, Latest(AppliedTo(log, request)), results[0], observed[0])
  }

  // ----- The whole log -----

  predicate IsFor(e: Event, kind: FaultKind, activation: string)
  {
    IsFault(e, kind) && e.body.activationId == activation
  }

  ghost predicate OnePerActivation(log: seq<Event>, kind: FaultKind)
  {
    forall i, j :: 0 <= i < j < |log| && IsFault(log[i], kind) && IsFault(log[j], kind) ==>
      log[i].body.activationId != log[j].body.activationId
  }

  predicate IsApplicationOf(e: Event, faultId: string)
  {
    IsFault(e, Applied) && e.body.faultId == faultId
  }

  function AppliedCount(log: seq<Event>, faultId: string): nat
  {
    if log == [] then 0
    else AppliedCount(Front(log), faultId) + (if IsApplicationOf(Last(log), faultId) then 1 else 0)
  }

  /** The observations of a fault's applications, in the order of the applications. */
  function ObservedIds(log: seq<Event>, upTo: seq<Event>, faultId: string): seq<string>
  {
    if upTo == [] then []
    else
      var e := Last(upTo);
      ObservedIds(log, Front(upTo), faultId)
      + (if IsApplicationOf(e, faultId) && ObservedFor(log, e.body.activationId) != []
         then [ObservedFor(log, e.body.activationId)[0].id] else [])
  }

  ghost predicate Identified(s: Setup, log: seq<Event>)
  {
    UniqueIds(log) && forall e :: e in log ==> e.runId == s.runId
  }

  ghost predicate MatchesOk(s: Setup, log: seq<Event>, upTo: seq<Event>)
  {
    && (forall m :: m in upTo && IsFault(m, Matched) ==> MatchOk(s, log, m))
    && OnePerActivation(upTo, Matched)
  }

  ghost predicate HasApplication(log: seq<Event>, a: Event)
  {
    a.body.Fault? && exists m :: m in log && IsFor(m, Matched, a.body.activationId) && ApplicationOk(log, m, a)
  }

  ghost predicate AllHaveApplication(log: seq<Event>, upTo: seq<Event>)
  {
    forall a :: a in upTo && IsFault(a, Applied) ==> HasApplication(log, a)
  }

  ghost predicate WithinCaps(plan: Plan, log: seq<Event>)
  {
    forall r :: r in plan.rules ==> AppliedCount(log, r.faultId) <= r.maxOccurrences
  }

  ghost predicate ApplicationsOk(s: Setup, log: seq<Event>, upTo: seq<Event>)
  {
    && AllHaveApplication(log, upTo)
    && OnePerActivation(upTo, Applied)
    && WithinCaps(s.plan, upTo)
  }

  function Activations(log: seq<Event>, kind: FaultKind): set<string>
  {
    set e | e in log && IsFault(e, kind) :: e.body.activationId
  }

  /** The log that is accepted: no fabricated, repeated, excessive or incomplete chain. */
  ghost predicate Coherent(s: Setup, log: seq<Event>)
  {
    && s.plan.scenarioDigest == s.scenarioDigest
    && Identified(s, log)
    && MatchesOk(s, log, log)
    && ApplicationsOk(s, log, log)
    && Activations(log, Matched) == Activations(log, Applied)
    && Activations(log, Observed) <= Activations(log, Applied)
  }

  function Counts(s: Setup, log: seq<Event>): map<string, nat>
  {
    map id | id in FaultIds(s.plan) :: AppliedCount(log, id)
  }

  function Outcome(s: Setup, log: seq<Event>): Authenticated
  {
    Authenticated(Counts(s, log), map id | id in FaultIds(s.plan) :: ObservedIds(log, log, id))
  }

  method Authenticate(s: Setup, documents: seq<Event>, ignored: Option<string>) returns (result: Option<Authenticated>)
    requires ValidPlan(s.plan)
    ensures result.Some? <==> Coherent(s, Kept(documents, ignored))
    ensures result.Some? ==> result.value == Outcome(s, Kept(documents, ignored))
  {
    if s.plan.scenarioDigest != s.scenarioDigest {
      return None;
    }
    var log := [];
    for i := 0 to |documents|
      invariant log == Kept(documents[..i], ignored)
    {
      assert Front(documents[..i + 1]) == documents[..i];
      if Untouched(ignored)(documents[i]) {
        log := log + [documents[i]];
      }
    }
    assert documents[..|documents|] == documents;
    var identified := CheckIdentity(s, log);
    if !identified {
      return None;
    }
    var matched := CheckMatches(s, log);
    if matched.None? {
      return None;
    }
    var outcome := CheckApplications(s, log, matched.value);
    if outcome.None? {
      return None;
    }
    var observed := AllObservationsApplied(log, Activations(log, Applied));
    return if matched.value.Keys == Activations(log, Applied) && observed then outcome else None;
  }

  method CheckIdentity(s: Setup, log: seq<Event>) returns (ok: bool)
    ensures ok <==> Identified(s, log)
  {
    ok := IdsAreUnique(log);
    for i := 0 to |log|
      invariant ok <==> UniqueIds(log) && forall j :: 0 <= j < i ==> log[j].runId == s.runId
    {
      ok := ok && log[i].runId == s.runId;
    }
  }

  /** The matched events by activation. */
  ghost predicate Indexes(matched: map<string, Event>, log: seq<Event>)
  {
    && matched.Keys == Activations(log, Matched)
    && forall x :: x in matched ==> matched[x] in log && IsFor(matched[x], Matched, x)
  }

  method CheckMatches(s: Setup, log: seq<Event>) returns (matched: Option<map<string, Event>>)
    ensures matched.Some? <==> MatchesOk(s, log, log)
    ensures matched.Some? ==> Indexes(matched.value, log)
  {
    var found: map<string, Event> := map[];
    for i := 0 to |log|
      invariant MatchesOk(s, log, log[..i])
      invariant Indexes(found, log[..i])
    {
      var e := log[i];
      assert log[..i + 1] == log[..i] + [e];
      if IsFault(e, Matched) {
        var ok := CheckMatch(s, log, e);
        if !ok || e.body.activationId in found {
          RepeatedMatch(log, i, found);
          return None;
        }
        found := found[e.body.activationId := e];
      }
    }
    assert log[..|log|] == log;
    return Some(found);
  }

  lemma RepeatedMatch(log: seq<Event>, i: nat, found: map<string, Event>)
    requires i < |log| && IsFault(log[i], Matched) && Indexes(found, log[..i])
    ensures log[i].body.activationId in found ==> !OnePerActivation(log, Matched)
  {
    if log[i].body.activationId in found {
      var j :| 0 <= j < i && log[..i][j] == found[log[i].body.activationId];
      assert log[j] == log[..i][j];
    }
  }

  lemma OnlyMatch(s: Setup, log: seq<Event>, matched: map<string, Event>, a: Event)
    requires MatchesOk(s, log, log) && Indexes(matched, log)
    ensures HasApplication(log, a) <==>
            a.body.Fault? && a.body.activationId in matched && ApplicationOk(log, matched[a.body.activationId], a)
  {
    forall m | a.body.Fault? && m in log && IsFor(m, Matched, a.body.activationId)
      ensures a.body.activationId in matched && m == matched[a.body.activationId]
    {
      var i :| 0 <= i < |log| && log[i] == m;
      var j :| 0 <= j < |log| && log[j] == matched[a.body.activationId];
    }
  }

  /** What one more event must satisfy. */
  ghost predicate Fits(s: Setup, log: seq<Event>, before: seq<Event>, e: Event)
  {
    IsFault(e, Applied) ==>
      && HasApplication(log, e)
      && e.body.activationId !in Activations(before, Applied)
      && RuleIn(s.plan.rules, e.body.faultId).Some?
      && AppliedCount(before, e.body.faultId) < RuleIn(s.plan.rules, e.body.faultId).value.maxOccurrences
  }

  lemma FitsExtends(s: Setup, log: seq<Event>, before: seq<Event>, e: Event)
    requires ValidPlan(s.plan) && MatchesOk(s, log, log)
    ensures ApplicationsOk(s, log, before + [e]) <==> ApplicationsOk(s, log, before) && Fits(s, log, before, e)
  {
    OneMoreActivation(before, e);
    OneMoreHas(log, before, e);
    if !IsFault(e, Applied) {
      OneMoreOther(before, e);
    } else if HasApplication(log, e) {
      RuleOfApplication(s, log, e);
      OneMoreApplication(s.plan, before, e);
    }
  }

  lemma OneMoreHas(log: seq<Event>, before: seq<Event>, e: Event)
    ensures AllHaveApplication(log, before + [e]) <==>
            AllHaveApplication(log, before) && (IsFault(e, Applied) ==> HasApplication(log, e))
  {
    assert e in before + [e] && forall a :: a in before + [e] <==> a in before || a == e;
  }

  lemma RuleOfApplication(s: Setup, log: seq<Event>, e: Event)
    requires MatchesOk(s, log, log) && HasApplication(log, e)
    ensures RuleIn(s.plan.rules, e.body.faultId).Some?
  {
    var m :| m in log && IsFor(m, Matched, e.body.activationId) && ApplicationOk(log, m, e);
    RuleOfMatch(s, log, m);
  }

  lemma OneMoreApplication(plan: Plan, before: seq<Event>, e: Event)
    requires ValidPlan(plan) && IsFault(e, Applied) && RuleIn(plan.rules, e.body.faultId).Some?
    ensures WithinCaps(plan, before + [e]) <==>
            WithinCaps(plan, before)
            && AppliedCount(before, e.body.faultId) < RuleIn(plan.rules, e.body.faultId).value.maxOccurrences
  {
    assert Front(before + [e]) == before;
    RuleInFacts(plan.rules, e.body.faultId);
  }

  lemma OneMoreOther(before: seq<Event>, e: Event)
    requires !IsFault(e, Applied)
    ensures forall id :: AppliedCount(before + [e], id) == AppliedCount(before, id)
  {
    assert Front(before + [e]) == before;
  }

  lemma OneMoreActivation(before: seq<Event>, e: Event)
    ensures OnePerActivation(before + [e], Applied) <==>
            OnePerActivation(before, Applied) && (IsFault(e, Applied) ==> e.body.activationId !in Activations(before, Applied))
  {
    var after := before + [e];
    assert forall i :: 0 <= i < |before| ==> after[i] == before[i];
    if OnePerActivation(after, Applied) && IsFault(e, Applied) {
      forall x | x in before && IsFault(x, Applied)
        ensures x.body.activationId != e.body.activationId
      {
        var i :| 0 <= i < |before| && before[i] == x;
        assert after[i] == x && after[|before|] == e;
      }
    }
  }

  ghost predicate AllFit(s: Setup, log: seq<Event>, upTo: seq<Event>)
  {
    upTo == [] || (AllFit(s, log, Front(upTo)) && Fits(s, log, Front(upTo), Last(upTo)))
  }

  lemma {:induction false} AllFitIsOk(s: Setup, log: seq<Event>, upTo: seq<Event>)
    requires ValidPlan(s.plan) && MatchesOk(s, log, log)
    ensures AllFit(s, log, upTo) <==> ApplicationsOk(s, log, upTo)
  {
    if upTo != [] {
      AllFitIsOk(s, log, Front(upTo));
      assert upTo == Front(upTo) + [Last(upTo)];
      FitsExtends(s, log, Front(upTo), Last(upTo));
    }
  }

  lemma {:induction false} PrefixFits(s: Setup, log: seq<Event>, upTo: seq<Event>, n: nat)
    requires n <= |upTo| && AllFit(s, log, upTo)
    ensures AllFit(s, log, upTo[..n])
  {
    if n == |upTo| {
      assert upTo[..n] == upTo;
    } else {
      assert Front(upTo)[..n] == upTo[..n];
      PrefixFits(s, log, Front(upTo), n);
    }
  }

  /** The activations applied so far, the counts and the observations. */
  datatype Tally = Tally(applied: set<string>, counts: map<string, nat>, observed: map<string, seq<string>>)

  function Started(s: Setup): Tally
  {
    Tally({}, map id | id in FaultIds(s.plan) :: 0, map id | id in FaultIds(s.plan) :: [])
  }

  predicate Counted(log: seq<Event>, t: Tally, e: Event)
  {
    && IsFault(e, Applied) && e.body.faultId in t.counts && e.body.faultId in t.observed
    && ObservedFor(log, e.body.activationId) != []
  }

  function Add(log: seq<Event>, t: Tally, e: Event): Tally
    requires Counted(log, t, e)
  {
    var id, observed := e.body.faultId, ObservedFor(log, e.body.activationId)[0].id;
    Tally(t.applied + {e.body.activationId}, t.counts[id := t.counts[id] + 1],
          t.observed[id := t.observed[id] + [observed]])
  }

  ghost predicate Tallies(s: Setup, log: seq<Event>, upTo: seq<Event>, t: Tally)
  {
    && t.applied == Activations(upTo, Applied)
    && t.counts.Keys == t.observed.Keys == FaultIds(s.plan)
    && forall id :: id in t.counts ==>
         t.counts[id] == AppliedCount(upTo, id) && t.observed[id] == ObservedIds(log, upTo, id)
  }

  lemma FitIsCounted(s: Setup, log: seq<Event>, before: seq<Event>, t: Tally, e: Event)
    requires Tallies(s, log, before, t) && Fits(s, log, before, e) && IsFault(e, Applied)
    ensures Counted(log, t, e)
  {
    RuleInFacts(s.plan.rules, e.body.faultId);
  }

  lemma TallyNext(s: Setup, log: seq<Event>, before: seq<Event>, t: Tally, e: Event)
    requires Tallies(s, log, before, t) && (IsFault(e, Applied) ==> Counted(log, t, e))
    ensures Tallies(s, log, before + [e], if IsFault(e, Applied) then Add(log, t, e) else t)
  {
    var upTo := before + [e];
    assert Front(upTo) == before && Last(upTo) == e;
    assert Activations(upTo, Applied) ==
           Activations(before, Applied) + (if IsFault(e, Applied) then {e.body.activationId} else {});
  }

  /** The first i events fit, and the tally counts them. */
  ghost predicate CountedUpTo(s: Setup, log: seq<Event>, i: nat, t: Tally)
    requires i <= |log|
  {
    AllFit(s, log, log[..i]) && Tallies(s, log, log[..i], t)
  }

  lemma CountNext(s: Setup, log: seq<Event>, i: nat, t: Tally)
    requires i < |log| && CountedUpTo(s, log, i, t) && Fits(s, log, log[..i], log[i])
    ensures IsFault(log[i], Applied) ==> Counted(log, t, log[i])
    ensures CountedUpTo(s, log, i + 1, if IsFault(log[i], Applied) then Add(log, t, log[i]) else t)
  {
    assert log[..i + 1] == log[..i] + [log[i]] && Front(log[..i + 1]) == log[..i];
    if IsFault(log[i], Applied) {
      FitIsCounted(s, log, log[..i], t, log[i]);
    }
    TallyNext(s, log, log[..i], t, log[i]);
  }

  method CheckApplications(s: Setup, log: seq<Event>, matched: map<string, Event>) returns (outcome: Option<Authenticated>)
    requires ValidPlan(s.plan) && MatchesOk(s, log, log) && Indexes(matched, log)
    ensures outcome.Some? <==> ApplicationsOk(s, log, log)
    ensures outcome.Some? ==> outcome.value == Outcome(s, log)
  {
    var tally := Started(s);
    for i := 0 to |log|
      invariant CountedUpTo(s, log, i, tally)
    {
      var fits := true;
      if IsFault(log[i], Applied) {
        fits := CheckFit(s, log, log[..i], matched, tally, log[i]);
      }
      if !fits {
        DoesNotFit(s, log, i);
        return None;
      }
      CountNext(s, log, i, tally);
      if IsFault(log[i], Applied) {
        tally := Add(log, tally, log[i]);
      }
    }
    assert log[..|log|] == log;
    AllFitIsOk(s, log, log);
    TallyIsOutcome(s, log, tally);
    return Some(Authenticated(tally.counts, tally.observed));
  }

  lemma TallyIsOutcome(s: Setup, log: seq<Event>, t: Tally)
    requires Tallies(s, log, log, t)
    ensures Authenticated(t.counts, t.observed) == Outcome(s, log)
  {
    assert t.counts == Counts(s, log);
    assert t.observed == Outcome(s, log).observed;
  }

  lemma DoesNotFit(s: Setup, log: seq<Event>, i: nat)
    requires ValidPlan(s.plan) && MatchesOk(s, log, log)
    requires i < |log| && !Fits(s, log, log[..i], log[i])
    ensures !ApplicationsOk(s, log, log)
  {
    AllFitIsOk(s, log, log);
    assert Front(log[..i + 1]) == log[..i] && Last(log[..i + 1]) == log[i];
    if AllFit(s, log, log) {
      PrefixFits(s, log, log, i + 1);
    }
  }

  method CheckFit(s: Setup, log: seq<Event>, ghost before: seq<Event>, matched: map<string, Event>, tally: Tally, e: Event)
    returns (fits: bool)
    requires ValidPlan(s.plan) && MatchesOk(s, log, log) && Indexes(matched, log) && IsFault(e, Applied)
    requires Tallies(s, log, before, tally)
    ensures fits <==> Fits(s, log, before, e)
  {
    var activation := e.body.activationId;
    OnlyMatch(s, log, matched, e);
    if activation !in matched || activation in tally.applied || !ApplicationOk(log, matched[activation], e) {
      return false;
    }
    RuleOfMatch(s, log, matched[activation]);
    return tally.counts[e.body.faultId] < RuleIn(s.plan.rules, e.body.faultId).value.maxOccurrences;
  }

  lemma RuleOfMatch(s: Setup, log: seq<Event>, m: Event)
    requires MatchOk(s, log, m)
    ensures var rule := RuleIn(s.plan.rules, m.body.faultId);
            rule.Some? && rule.value in s.plan.rules && rule.value.faultId == m.body.faultId
            && m.body.faultId in FaultIds(s.plan)
  {
    RuleInFacts(s.plan.rules, m.body.faultId);
  }

  method AllObservationsApplied(log: seq<Event>, applied: set<string>) returns (ok: bool)
    ensures ok <==> Activations(log, Observed) <= applied
  {
    for i := 0 to |log|
      invariant Activations(log[..i], Observed) <= applied
    {
      assert log[..i + 1] == log[..i] + [log[i]];
      if IsFault(log[i], Observed) && log[i].body.activationId !in applied {
        assert log[i].body.activationId in Activations(log, Observed);
        return false;
      }
    }
    assert log[..|log|] == log;
    return true;
  }
}
