/** What the gateway appends for one tool request, and when the grown history is accepted again. */
module FaultGrowth {
  import opened Prelude
  import opened RunEvents
  import opened FaultMatcher
  import opened FaultApplication
  import opened FaultHistory
  import opened FaultChains

  /** The events of one request's fault chains. */
  datatype Written = Written(request: Event, matches: seq<Event>, applications: seq<Event>,
                             result: Event, observations: seq<Event>)

  predicate OfRequest(request: Event, e: Event)
  {
    e.correlation == request.correlation && e.producer == request.producer
  }

  predicate StagedAs(e: Event, kind: FaultKind, fault: AppliedFault, related: seq<string>, cause: string)
  {
    && IsFault(e, kind) && e.body.faultId == fault.rule.faultId && e.body.activationId == fault.activation
    && e.body.related == related && e.causation == Some(cause)
  }

  ghost predicate WritesMatches(w: Written, matched: seq<AppliedFault>)
  {
    && |w.matches| == |matched|
    && forall i :: 0 <= i < |matched| ==>
         && StagedAs(w.matches[i], Matched, matched[i], [w.request.id], w.request.id)
         && OfRequest(w.request, w.matches[i])
         && w.request.sequence < w.matches[i].sequence
  }

  predicate AppliesMatch(w: Written, match_: Event, fault: AppliedFault, application: Event)
  {
    && IsFor(match_, Matched, fault.activation) && match_.body.faultId == fault.rule.faultId
    && StagedAs(application, Applied, fault, [w.request.id, match_.id], match_.id)
    && OfRequest(w.request, application)
    && match_.sequence < application.sequence
  }

  ghost predicate WritesApplications(w: Written, applied: seq<AppliedFault>)
  {
    && |w.applications| == |applied|
    && InOrder(w.applications)
    && forall k :: 0 <= k < |applied| ==>
         exists match_ :: match_ in w.matches && AppliesMatch(w, match_, applied[k], w.applications[k])
  }

  ghost predicate WritesResult(w: Written)
  {
    && w.request.body.ToolRequested? && w.result.body.ToolResulted?
    && w.request.correlation == w.request.body.logicalId
    && w.result.body.requestEvent == w.request.id
    && w.result.body.logicalId == w.request.body.logicalId
    && w.result.body.attemptId == w.request.body.attemptId
    && w.result.body.attempt == w.request.body.attempt
    && w.result.body.toolId == w.request.body.toolId
    && OfRequest(w.request, w.result)
    && (w.applications != [] ==> w.result.causation == Some(Last(w.applications).id))
    && forall k :: 0 <= k < |w.applications| ==> w.applications[k].sequence < w.result.sequence
  }

  ghost predicate WritesObservations(w: Written, applied: seq<AppliedFault>)
  {
    && |w.observations| == |applied| == |w.applications|
    && forall k :: 0 <= k < |applied| ==>
         && StagedAs(w.observations[k], Observed, applied[k], [w.request.id, w.applications[k].id, w.result.id], w.result.id)
         && OfRequest(w.request, w.observations[k])
         && w.result.sequence < w.observations[k].sequence
  }

  ghost predicate Writes(w: Written, matched: seq<AppliedFault>, applied: seq<AppliedFault>)
  {
    WritesMatches(w, matched) && WritesApplications(w, applied) && WritesResult(w) && WritesObservations(w, applied)
  }

  predicate InChains(w: Written, e: Event)
  {
    e == w.request || e == w.result || e in w.matches || e in w.applications || e in w.observations
  }

  /** The block holds the chains, in any interleaving with events of no chain. */
  ghost predicate Holds(w: Written, block: seq<Event>)
  {
    && (forall e :: InChains(w, e) ==> e in block)
    && (forall e :: e in block ==> InChains(w, e) || Inert(e))
  }

  /** The request is new: its identity, its attempt, and every identity in the block. */
  ghost predicate FreshBlock(s: Setup, log: seq<Event>, block: seq<Event>, request: Event)
  {
    && request.body.ToolRequested?
    && UniqueIds(log + block)
    && (forall e :: e in block ==> e.runId == s.runId)
    && (forall e :: e in log ==> !Touches(e, request.id))
    && (forall e :: e in log && e.body.ToolRequested? ==> e.body.attemptId != request.body.attemptId)
  }

  /** The fault was issued by the matcher for this request, under its cap. */
  ghost predicate IssuedOne(s: Setup, log: seq<Event>, request: Event, f: AppliedFault)
    requires request.body.ToolRequested?
  {
    && f.rule in s.plan.rules
    && f.rule.toolId == request.body.toolId
    && (s.arguments.Some? && request.id in s.arguments.value ==>
          ArgumentsMatch(f.rule, s.arguments.value[request.id]))
    && (OrdinalOf(s, request).Some? && f.rule.callOrdinal.Some? ==> OrdinalOf(s, request) == f.rule.callOrdinal)
    && Authentic(s.hashes, f.rule, FactsOf(s, request), f.activation, OrdinalOf(s, request))
    && AppliedCount(log, f.rule.faultId) < f.rule.maxOccurrences
  }

  ghost predicate OneEach(faults: seq<AppliedFault>)
  {
    forall i, j :: 0 <= i < j < |faults| ==> faults[i].rule.faultId != faults[j].rule.faultId
  }

  ghost predicate Issued(s: Setup, log: seq<Event>, request: Event, matched: seq<AppliedFault>)
    requires request.body.ToolRequested?
  {
    && (s.component.Some? ==> request.producer.component == s.component.value)
    && (s.ordinals.Some? ==> OrdinalOf(s, request).Some?)
    && OneEach(matched)
    && forall f :: f in matched ==> IssuedOne(s, log, request, f)
  }

  /** A log, and the block one request adds to it. */
  ghost predicate Grows(s: Setup, log: seq<Event>, block: seq<Event>, w: Written, matched: seq<AppliedFault>,
                        applied: seq<AppliedFault>)
  {
    && CollisionFree(s.hashes) && ValidPlan(s.plan)
    && FreshBlock(s, log, block, w.request) && Issued(s, log, w.request, matched)
    && Writes(w, matched, applied) && Holds(w, block)
    && (forall f :: f in applied ==> f in matched) && Distinct(applied)
  }

  // ----- New activations are new -----

  lemma ActivationIsNew(s: Setup, log: seq<Event>, request: Event, matched: seq<AppliedFault>, f: AppliedFault, kind: FaultKind)
    requires CollisionFree(s.hashes) && Coherent(s, log)
    requires request.body.ToolRequested? && Issued(s, log, request, matched) && f in matched
    requires forall e :: e in log && e.body.ToolRequested? ==> e.body.attemptId != request.body.attemptId
    ensures f.activation !in Activations(log, kind)
  {
    if f.activation in Activations(log, kind) {
      var c := ChainOfActivation(s, log, f.activation, kind);
      MatchedIsAuthentic(s, log, c.matched);
      var earlier := RequestOf(log, c.matched);
      FindFacts(log, c.matched.body.related[0]);
      AuthenticDetermines(s.hashes, RuleIn(s.plan.rules, c.matched.body.faultId).value, FactsOf(s, earlier), OrdinalOf(s, earlier),
                          f.rule, FactsOf(s, request), OrdinalOf(s, request), f.activation);
      assert false;
    }
  }

  lemma MatchedIsAuthentic(s: Setup, log: seq<Event>, m: Event)
    requires Coherent(s, log) && m in log && IsFault(m, Matched)
    ensures MatchOk(s, log, m)
  {
  }

  lemma SameActivationSameFault(s: Setup, log: seq<Event>, request: Event, matched: seq<AppliedFault>, f: AppliedFault,
                                g: AppliedFault)
    requires CollisionFree(s.hashes) && request.body.ToolRequested? && Issued(s, log, request, matched)
    requires f in matched && g in matched && f.activation == g.activation
    ensures f == g
  {
    AuthenticDetermines(s.hashes, f.rule, FactsOf(s, request), OrdinalOf(s, request),
                        g.rule, FactsOf(s, request), OrdinalOf(s, request), f.activation);
    var i :| 0 <= i < |matched| && matched[i] == f;
    var j :| 0 <= j < |matched| && matched[j] == g;
  }

  // ----- Old chains are not disturbed -----

  lemma OldMatchStays(s: Setup, log: seq<Event>, block: seq<Event>, m: Event)
    requires UniqueIds(log + block) && MatchOk(s, log, m)
    ensures MatchOk(s, log + block, m) && RequestOf(log + block, m) == RequestOf(log, m)
  {
    FindStable(log, block, m.body.related[0]);
  }

  /** No event of the block answers an old request or stages an old activation. */
  ghost predicate Apart(log: seq<Event>, block: seq<Event>)
  {
    && (forall e, x :: e in block && x in log && e.body.ToolResulted? ==> e.body.requestEvent != x.id)
    && (forall e, x :: e in block && x in log && IsFault(e, Applied) ==> x.id !in e.body.related)
    && (forall e, x :: e in block && x in log && e.body.Fault? && x.body.Fault? ==> e.body.activationId != x.body.activationId)
  }

  lemma OldApplicationStays(log: seq<Event>, block: seq<Event>, m: Event, a: Event)
    requires UniqueIds(log + block) && Apart(log, block) && a in log && ApplicationOk(log, m, a)
    ensures ApplicationOk(log + block, m, a)
  {
    FindStable(log, block, m.body.related[0]);
    FindFacts(log, m.body.related[0]);
    var request, activation := RequestOf(log, m), a.body.activationId;
    SelectStable(log, block, (e: Event) => e.body.ToolResulted? && e.body.requestEvent == request.id);
    SelectStable(log, block, (e: Event) => IsFault(e, Observed) && e.body.activationId == activation);
    SelectStable(log, block, (e: Event) => IsFault(e, Applied) && request.id in e.body.related);
  }

  function EventsOf(w: Written, kind: FaultKind): seq<Event>
  {
    match kind case Matched => w.matches case Applied => w.applications case Observed => w.observations
  }

  function FaultsOf(matched: seq<AppliedFault>, applied: seq<AppliedFault>, kind: FaultKind): seq<AppliedFault>
  {
    if kind == Matched then matched else applied
  }

  /** The staged events are what they say, stage by stage. */
  lemma Stages(w: Written, matched: seq<AppliedFault>, applied: seq<AppliedFault>, kind: FaultKind)
    requires Writes(w, matched, applied)
    ensures |EventsOf(w, kind)| == |FaultsOf(matched, applied, kind)|
    ensures forall i :: 0 <= i < |EventsOf(w, kind)| ==>
              IsFor(EventsOf(w, kind)[i], kind, FaultsOf(matched, applied, kind)[i].activation)
              && EventsOf(w, kind)[i].body.faultId == FaultsOf(matched, applied, kind)[i].rule.faultId
  {
  }

  /** The place of a staged event of the block among the events of its stage. */
  lemma StageOf(w: Written, matched: seq<AppliedFault>, applied: seq<AppliedFault>, block: seq<Event>, e: Event) returns (i: nat)
    requires Writes(w, matched, applied) && Holds(w, block) && e in block && e.body.Fault?
    ensures i < |EventsOf(w, e.body.kind)| == |FaultsOf(matched, applied, e.body.kind)|
    ensures EventsOf(w, e.body.kind)[i] == e
    ensures e.body.activationId == FaultsOf(matched, applied, e.body.kind)[i].activation
    ensures e.body.faultId == FaultsOf(matched, applied, e.body.kind)[i].rule.faultId
  {
    forall kind | e in EventsOf(w, kind)
      ensures kind == e.body.kind
    {
      Stages(w, matched, applied, kind);
    }
    Stages(w, matched, applied, e.body.kind);
    assert e in EventsOf(w, Matched) || e in EventsOf(w, Applied) || e in EventsOf(w, Observed);
    i :| 0 <= i < |EventsOf(w, e.body.kind)| && EventsOf(w, e.body.kind)[i] == e;
  }

  lemma FaultOf(w: Written, matched: seq<AppliedFault>, applied: seq<AppliedFault>, block: seq<Event>,
                e: Event) returns (f: AppliedFault)
    requires Writes(w, matched, applied) && Holds(w, block) && e in block && e.body.Fault?
    requires forall f :: f in applied ==> f in matched
    ensures f in matched && f in FaultsOf(matched, applied, e.body.kind)
    ensures e.body.activationId == f.activation && e.body.faultId == f.rule.faultId
  {
    var i := StageOf(w, matched, applied, block, e);
    f := FaultsOf(matched, applied, e.body.kind)[i];
  }

  lemma BlockIsApart(s: Setup, log: seq<Event>, block: seq<Event>, w: Written, matched: seq<AppliedFault>,
                     applied: seq<AppliedFault>)
    requires Coherent(s, log) && Grows(s, log, block, w, matched, applied)
    ensures Apart(log, block)
  {
    ActivationsAreNew(s, log, block, w, matched, applied);
    RelatedAreNew(log, block, w, matched, applied);
  }

  lemma ActivationsAreNew(s: Setup, log: seq<Event>, block: seq<Event>, w: Written, matched: seq<AppliedFault>,
                          applied: seq<AppliedFault>)
    requires Coherent(s, log) && Grows(s, log, block, w, matched, applied)
    ensures forall e, x :: e in block && x in log && e.body.Fault? && x.body.Fault? ==> e.body.activationId != x.body.activationId
  {
    forall e, x | e in block && x in log && e.body.Fault? && x.body.Fault?
      ensures e.body.activationId != x.body.activationId
    {
      var f := FaultOf(w, matched, applied, block, e);
      ActivationIsNew(s, log, w.request, matched, f, x.body.kind);
    }
  }

  lemma RelatedAreNew(log: seq<Event>, block: seq<Event>, w: Written, matched: seq<AppliedFault>, applied: seq<AppliedFault>)
    requires UniqueIds(log + block) && Writes(w, matched, applied) && Holds(w, block)
    ensures forall e, x :: e in block && x in log && e.body.ToolResulted? ==> e.body.requestEvent != x.id
    ensures forall e, x :: e in block && x in log && IsFault(e, Applied) ==> x.id !in e.body.related
  {
    forall e, x | e in block && x in log && e.body.ToolResulted?
      ensures e.body.requestEvent != x.id
    {
      NoStageIsAResult(w, matched, applied, e);
      assert InChains(w, w.request);
      NewIsNotOld(log, block, x, w.request);
    }
    forall e, x | e in block && x in log && IsFault(e, Applied)
      ensures x.id !in e.body.related
    {
      var k := StageOf(w, matched, applied, block, e);
      RelatedIsNew(log, block, w, applied, k, x);
    }
  }

  lemma RelatedIsNew(log: seq<Event>, block: seq<Event>, w: Written, applied: seq<AppliedFault>, k: nat, x: Event)
    requires UniqueIds(log + block) && WritesApplications(w, applied) && Holds(w, block) && k < |applied| && x in log
    ensures w.applications[k].body.Fault? && x.id !in w.applications[k].body.related
  {
    var f, a := applied[k], w.applications[k];
    var m :| m in w.matches && AppliesMatch(w, m, f, a);
    assert InChains(w, m) && InChains(w, w.request);
    NewIsNotOld(log, block, x, m);
    NewIsNotOld(log, block, x, w.request);
  }

  // ----- New chains are complete -----

  lemma {:induction false} SelectOnly(log: seq<Event>, keep: Event -> bool, e: Event)
    requires UniqueIds(log) && e in log && keep(e) && forall x :: x in log && keep(x) ==> x == e
    ensures Select(log, keep) == [e]
  {
    assert log == Front(log) + [Last(log)];
    if Last(log) == e {
      forall x | x in Front(log)
        ensures !keep(x)
      {
        var i :| 0 <= i < |log| - 1 && log[i] == x;
      }
      SelectNone(Front(log), keep);
    } else {
      SelectOnly(Front(log), keep, e);
    }
  }

  lemma NewMatchOk(s: Setup, log: seq<Event>, block: seq<Event>, w: Written, matched: seq<AppliedFault>, i: nat)
    requires ValidPlan(s.plan) && FreshBlock(s, log, block, w.request) && Issued(s, log, w.request, matched)
    requires WritesMatches(w, matched) && w.request in block && i < |matched|
    requires w.request.correlation == w.request.body.logicalId
    ensures MatchOk(s, log + block, w.matches[i]) && RequestOf(log + block, w.matches[i]) == w.request
  {
    assert w.request in log + block;
    FindFacts(log + block, w.request.id);
    assert matched[i] in matched;
    RuleInFacts(s.plan.rules, matched[i].rule.faultId);
  }

  lemma LastIsLatest(log: seq<Event>, w: Written)
    requires w.applications != [] && InOrder(w.applications)
    requires forall e :: e in AppliedTo(log, w.request) <==> e in w.applications
    ensures AppliedTo(log, w.request) != [] && Latest(AppliedTo(log, w.request)) == Last(w.applications)
  {
    var events := AppliedTo(log, w.request);
    assert Last(w.applications) in events;
    LatestFacts(events);
    var k :| 0 <= k < |w.applications| && w.applications[k] == Latest(events);
  }

  lemma AppliedToNew(log: seq<Event>, block: seq<Event>, w: Written, applied: seq<AppliedFault>)
    requires forall e :: e in log ==> !Touches(e, w.request.id)
    requires WritesApplications(w, applied) && Holds(w, block)
    requires forall e :: InChains(w, e) && IsFault(e, Applied) ==> e in w.applications
    ensures forall e :: e in AppliedTo(log + block, w.request) <==> e in w.applications
  {
    SelectFacts(log + block, (e: Event) => IsFault(e, Applied) && w.request.id in e.body.related);
    forall e | e in w.applications
      ensures IsFault(e, Applied) && w.request.id in e.body.related
    {
      var k :| 0 <= k < |w.applications| && w.applications[k] == e;
    }
  }

  lemma OneResult(s: Setup, log: seq<Event>, block: seq<Event>, w: Written, matched: seq<AppliedFault>,
                  applied: seq<AppliedFault>)
    requires FreshBlock(s, log, block, w.request) && Writes(w, matched, applied) && Holds(w, block)
    ensures ResultsFor(log + block, w.request) == [w.result]
  {
    assert InChains(w, w.result) && w.result in log + block;
    OldResults(s, log, block, w.request);
    NewResults(w, matched, applied, block);
    SelectOnly(log + block, (e: Event) => e.body.ToolResulted? && e.body.requestEvent == w.request.id, w.result);
  }

  lemma OldResults(s: Setup, log: seq<Event>, block: seq<Event>, request: Event)
    requires FreshBlock(s, log, block, request)
    ensures forall e :: e in log && e.body.ToolResulted? ==> e.body.requestEvent != request.id
  {
    assert forall e :: e in log ==> !Touches(e, request.id);
  }

  lemma NewResults(w: Written, matched: seq<AppliedFault>, applied: seq<AppliedFault>, block: seq<Event>)
    requires Writes(w, matched, applied) && Holds(w, block)
    ensures forall e :: e in block && e.body.ToolResulted? ==> e == w.result
  {
    forall e | e in block && e.body.ToolResulted?
      ensures e == w.result
    {
      NoStageIsAResult(w, matched, applied, e);
    }
  }

  lemma NoStageIsAResult(w: Written, matched: seq<AppliedFault>, applied: seq<AppliedFault>, e: Event)
    requires Writes(w, matched, applied) && e.body.ToolResulted?
    ensures e !in w.matches && e !in w.applications && e !in w.observations
  {
    forall kind
      ensures e !in EventsOf(w, kind)
    {
      Stages(w, matched, applied, kind);
    }
    assert e !in EventsOf(w, Matched) && e !in EventsOf(w, Applied) && e !in EventsOf(w, Observed);
  }

  lemma OneObservation(s: Setup, log: seq<Event>, block: seq<Event>, w: Written, matched: seq<AppliedFault>,
                       applied: seq<AppliedFault>, k: nat)
    requires Grows(s, log, block, w, matched, applied) && Apart(log, block) && k < |applied|
    ensures ObservedFor(log + block, applied[k].activation) == [w.observations[k]]
  {
    var activation, o := applied[k].activation, w.observations[k];
    Stages(w, matched, applied, Observed);
    assert InChains(w, o) && o in log + block;
    assert forall e :: e in log && e.body.Fault? ==> e.body.activationId != o.body.activationId;
    forall e | e in log + block && IsFor(e, Observed, activation)
      ensures e == o
    {
      if e != o && e in block {
        DifferentFaults(s, log, block, w, matched, applied, e, o);
      }
    }
    SelectOnly(log + block, (e: Event) => IsFault(e, Observed) && e.body.activationId == activation, o);
  }

  lemma NewApplicationOk(s: Setup, log: seq<Event>, block: seq<Event>, w: Written, matched: seq<AppliedFault>,
                         applied: seq<AppliedFault>, k: nat)
    requires Grows(s, log, block, w, matched, applied) && Apart(log, block) && k < |applied|
    ensures HasApplication(log + block, w.applications[k])
  {
    var a := w.applications[k];
    var m := NewFollowsMatch(s, log, block, w, matched, applied, k);
    OneResult(s, log, block, w, matched, applied);
    OneObservation(s, log, block, w, matched, applied, k);
    LastApplied(s, log, block, w, matched, applied);
    NewFollowsApplication(w, matched, applied, k);
    assert ApplicationOk(log + block, m, a);
  }

  lemma NewFollowsMatch(s: Setup, log: seq<Event>, block: seq<Event>, w: Written, matched: seq<AppliedFault>,
                        applied: seq<AppliedFault>, k: nat) returns (m: Event)
    requires Grows(s, log, block, w, matched, applied) && k < |applied|
    ensures m in log + block && IsFor(m, Matched, applied[k].activation)
    ensures HasRequest(log + block, m) && RequestOf(log + block, m) == w.request
    ensures FollowsMatch(m, w.request, w.applications[k])
  {
    var i := MatchApplied(w, applied, k);
    m := w.matches[i];
    assert InChains(w, m) && InChains(w, w.request);
    NewMatchOk(s, log, block, w, matched, i);
    RelatedTwo(w, m, w.applications[k]);
  }

  lemma MatchApplied(w: Written, applied: seq<AppliedFault>, k: nat) returns (i: nat)
    requires WritesApplications(w, applied) && k < |applied|
    ensures i < |w.matches| && AppliesMatch(w, w.matches[i], applied[k], w.applications[k])
  {
    var f, a := applied[k], w.applications[k];
    var m :| m in w.matches && AppliesMatch(w, m, f, a);
    i :| 0 <= i < |w.matches| && w.matches[i] == m;
  }

  lemma RelatedTwo(w: Written, m: Event, a: Event)
    requires a.body.Fault? && a.body.related == [w.request.id, m.id]
    ensures ToSet(a.body.related) == {w.request.id, m.id}
  {
  }

  lemma NewFollowsApplication(w: Written, matched: seq<AppliedFault>, applied: seq<AppliedFault>, k: nat)
    requires Writes(w, matched, applied) && k < |applied|
    ensures w.applications[k].body.Fault? && w.observations[k].body.Fault?
    ensures FollowsApplication(w.request, w.applications[k], Last(w.applications), w.result, w.observations[k])
  {
    Stages(w, matched, applied, Applied);
  }

  lemma LastApplied(s: Setup, log: seq<Event>, block: seq<Event>, w: Written, matched: seq<AppliedFault>,
                    applied: seq<AppliedFault>)
    requires Grows(s, log, block, w, matched, applied) && applied != []
    ensures AppliedTo(log + block, w.request) != []
    ensures Latest(AppliedTo(log + block, w.request)) == Last(w.applications)
  {
    forall e | InChains(w, e) && IsFault(e, Applied)
      ensures e in w.applications
    {
      var k := StageOf(w, matched, applied, block, e);
    }
    AppliedToNew(log, block, w, applied);
    LastIsLatest(log + block, w);
  }

  // ----- The grown log -----

  lemma DifferentFaults(s: Setup, log: seq<Event>, block: seq<Event>, w: Written, matched: seq<AppliedFault>,
                        applied: seq<AppliedFault>, e: Event, e': Event)
    requires Grows(s, log, block, w, matched, applied) && e in block && e' in block && e != e'
    requires e.body.Fault? && e'.body.Fault? && e.body.kind == e'.body.kind
    ensures e.body.activationId != e'.body.activationId
  {
    var i := StageOf(w, matched, applied, block, e);
    var j := StageOf(w, matched, applied, block, e');
    DistinctActivations(s, log, w.request, matched, applied, e.body.kind, i, j);
  }

  lemma DistinctActivations(s: Setup, log: seq<Event>, request: Event, matched: seq<AppliedFault>, applied: seq<AppliedFault>,
                            kind: FaultKind, i: nat, j: nat)
    requires CollisionFree(s.hashes) && request.body.ToolRequested? && Issued(s, log, request, matched)
    requires (forall f :: f in applied ==> f in matched) && Distinct(applied)
    requires i < |FaultsOf(matched, applied, kind)| && j < |FaultsOf(matched, applied, kind)| && i != j
    ensures FaultsOf(matched, applied, kind)[i].activation != FaultsOf(matched, applied, kind)[j].activation
  {
    var faults := FaultsOf(matched, applied, kind);
    assert faults[i] in faults && faults[j] in faults && faults[i] != faults[j];
    if faults[i].activation == faults[j].activation {
      SameActivationSameFault(s, log, request, matched, faults[i], faults[j]);
    }
  }

  lemma GrownOnePerActivation(s: Setup, log: seq<Event>, block: seq<Event>, w: Written, matched: seq<AppliedFault>,
                              applied: seq<AppliedFault>, kind: FaultKind)
    requires Grows(s, log, block, w, matched, applied) && Apart(log, block)
    requires OnePerActivation(log, kind)
    ensures OnePerActivation(log + block, kind)
  {
    var all := log + block;
    forall i, j | 0 <= i < j < |all| && IsFault(all[i], kind) && IsFault(all[j], kind)
      ensures all[i].body.activationId != all[j].body.activationId
    {
      assert all[i].id != all[j].id;
      if j < |log| {
        assert all[i] == log[i] && all[j] == log[j];
      } else if i < |log| {
        assert all[i] in log && all[j] in block;
      } else {
        assert all[i] in block && all[j] in block;
        DifferentFaults(s, log, block, w, matched, applied, all[i], all[j]);
      }
    }
  }

  lemma GrownMatches(s: Setup, log: seq<Event>, block: seq<Event>, w: Written, matched: seq<AppliedFault>,
                     applied: seq<AppliedFault>)
    requires MatchesOk(s, log, log) && Grows(s, log, block, w, matched, applied) && Apart(log, block)
    ensures MatchesOk(s, log + block, log + block)
  {
    forall m | m in log + block && IsFault(m, Matched)
      ensures MatchOk(s, log + block, m)
    {
      if m in log {
        OldMatchStays(s, log, block, m);
      } else {
        var i := StageOf(w, matched, applied, block, m);
        NewMatchOk(s, log, block, w, matched, i);
      }
    }
    GrownOnePerActivation(s, log, block, w, matched, applied, Matched);
  }

  lemma GrownApplications(s: Setup, log: seq<Event>, block: seq<Event>, w: Written, matched: seq<AppliedFault>,
                          applied: seq<AppliedFault>)
    requires AllHaveApplication(log, log) && Grows(s, log, block, w, matched, applied) && Apart(log, block)
    ensures AllHaveApplication(log + block, log + block)
  {
    forall a | a in log + block && IsFault(a, Applied)
      ensures HasApplication(log + block, a)
    {
      if a in log {
        var m := MatchOfApplication(log, a);
        OldApplicationStays(log, block, m, a);
        assert m in log + block;
      } else {
        var k := StageOf(w, matched, applied, block, a);
        NewApplicationOk(s, log, block, w, matched, applied, k);
      }
    }
  }

  function ActivationsIn(faults: seq<AppliedFault>): set<string>
  {
    set f | f in faults :: f.activation
  }

  lemma BlockActivation(w: Written, matched: seq<AppliedFault>, applied: seq<AppliedFault>, block: seq<Event>, e: Event)
    requires Writes(w, matched, applied) && Holds(w, block) && e in block && e.body.Fault?
    ensures e.body.activationId in ActivationsIn(FaultsOf(matched, applied, e.body.kind))
  {
    var i := StageOf(w, matched, applied, block, e);
    assert FaultsOf(matched, applied, e.body.kind)[i] in FaultsOf(matched, applied, e.body.kind);
  }

  lemma StagedInBlock(w: Written, matched: seq<AppliedFault>, applied: seq<AppliedFault>, block: seq<Event>,
                      kind: FaultKind, f: AppliedFault)
    requires Writes(w, matched, applied) && Holds(w, block) && f in FaultsOf(matched, applied, kind)
    ensures f.activation in Activations(block, kind)
  {
    var faults := FaultsOf(matched, applied, kind);
    Stages(w, matched, applied, kind);
    var i :| 0 <= i < |faults| && faults[i] == f;
    assert InChains(w, EventsOf(w, kind)[i]);
  }

  lemma BlockActivations(w: Written, matched: seq<AppliedFault>, applied: seq<AppliedFault>, block: seq<Event>, kind: FaultKind)
    requires Writes(w, matched, applied) && Holds(w, block)
    ensures Activations(block, kind) == ActivationsIn(FaultsOf(matched, applied, kind))
  {
    forall e | e in block && IsFault(e, kind)
      ensures e.body.activationId in ActivationsIn(FaultsOf(matched, applied, kind))
    {
      BlockActivation(w, matched, applied, block, e);
    }
    forall f | f in FaultsOf(matched, applied, kind)
      ensures f.activation in Activations(block, kind)
    {
      StagedInBlock(w, matched, applied, block, kind, f);
    }
  }

  /** The grown log's activations, stage by stage. */
  lemma GrownActivations(log: seq<Event>, block: seq<Event>, w: Written, matched: seq<AppliedFault>,
                         applied: seq<AppliedFault>, kind: FaultKind)
    requires Writes(w, matched, applied) && Holds(w, block)
    ensures Activations(log + block, kind) ==
            Activations(log, kind) + ActivationsIn(FaultsOf(matched, applied, kind))
  {
    BlockActivations(w, matched, applied, block, kind);
    ActivationsTogether(log, block, kind);
  }

  lemma ActivationsTogether(log: seq<Event>, block: seq<Event>, kind: FaultKind)
    ensures Activations(log + block, kind) == Activations(log, kind) + Activations(block, kind)
  {
  }

  function NewActivations(applied: seq<AppliedFault>, faultId: string): set<string>
  {
    set f | f in applied && f.rule.faultId == faultId :: f.activation
  }

  lemma GrownActivationsOf(log: seq<Event>, block: seq<Event>, w: Written, matched: seq<AppliedFault>,
                           applied: seq<AppliedFault>, faultId: string)
    requires Writes(w, matched, applied) && Holds(w, block)
    ensures ActivationsOf(log + block, faultId) == ActivationsOf(log, faultId) + NewActivations(applied, faultId)
  {
    forall e | e in block && IsApplicationOf(e, faultId)
      ensures e.body.activationId in NewActivations(applied, faultId)
    {
      var k := StageOf(w, matched, applied, block, e);
      assert applied[k] in applied;
    }
    forall f | f in applied && f.rule.faultId == faultId
      ensures f.activation in ActivationsOf(log + block, faultId)
    {
      NewApplicationCounted(log, block, w, matched, applied, f);
    }
  }

  lemma GrownCount(s: Setup, log: seq<Event>, block: seq<Event>, w: Written, matched: seq<AppliedFault>,
                   applied: seq<AppliedFault>, faultId: string)
    requires Grows(s, log, block, w, matched, applied) && Apart(log, block) && OnePerActivation(log, Applied)
    ensures AppliedCount(log + block, faultId) == AppliedCount(log, faultId) + |NewActivations(applied, faultId)|
    ensures |NewActivations(applied, faultId)| == if exists f :: f in applied && f.rule.faultId == faultId then 1 else 0
  {
    GrownOnePerActivation(s, log, block, w, matched, applied, Applied);
    CountsActivations(log, faultId);
    CountsActivations(log + block, faultId);
    GrownActivationsOf(log, block, w, matched, applied, faultId);
    NewAreApart(log, block, w, matched, applied, faultId);
    AtMostOne(s, log, w.request, matched, applied, faultId);
  }

  lemma NewAreApart(log: seq<Event>, block: seq<Event>, w: Written, matched: seq<AppliedFault>,
                    applied: seq<AppliedFault>, faultId: string)
    requires Writes(w, matched, applied) && Holds(w, block) && Apart(log, block)
    ensures ActivationsOf(log, faultId) !! NewActivations(applied, faultId)
  {
    forall f | f in applied && f.rule.faultId == faultId
      ensures f.activation !in ActivationsOf(log, faultId)
    {
      NewApplicationCounted(log, block, w, matched, applied, f);
    }
  }

  lemma AtMostOne(s: Setup, log: seq<Event>, request: Event, matched: seq<AppliedFault>, applied: seq<AppliedFault>,
                  faultId: string)
    requires request.body.ToolRequested? && Issued(s, log, request, matched)
    requires forall f :: f in applied ==> f in matched
    ensures |NewActivations(applied, faultId)| == if exists f :: f in applied && f.rule.faultId == faultId then 1 else 0
  {
    if f :| f in applied && f.rule.faultId == faultId {
      forall g | g in applied && g.rule.faultId == faultId
        ensures g == f
      {
        OneFaultEach(s, log, request, matched, g, f);
      }
      assert NewActivations(applied, faultId) == {f.activation};
    } else {
      assert NewActivations(applied, faultId) == {};
    }
  }

  lemma OneFaultEach(s: Setup, log: seq<Event>, request: Event, matched: seq<AppliedFault>, f: AppliedFault, g: AppliedFault)
    requires request.body.ToolRequested? && Issued(s, log, request, matched)
    requires f in matched && g in matched && f.rule.faultId == g.rule.faultId
    ensures f == g
  {
    var i :| 0 <= i < |matched| && matched[i] == f;
    var j :| 0 <= j < |matched| && matched[j] == g;
  }

  lemma NewApplicationCounted(log: seq<Event>, block: seq<Event>, w: Written, matched: seq<AppliedFault>,
                              applied: seq<AppliedFault>, f: AppliedFault)
    requires Writes(w, matched, applied) && Holds(w, block) && f in applied
    ensures exists e :: e in block && IsApplicationOf(e, f.rule.faultId) && e.body.activationId == f.activation
  {
    var k :| 0 <= k < |applied| && applied[k] == f;
    Stages(w, matched, applied, Applied);
    assert InChains(w, w.applications[k]);
  }

  lemma GrownCaps(s: Setup, log: seq<Event>, block: seq<Event>, w: Written, matched: seq<AppliedFault>,
                  applied: seq<AppliedFault>)
    requires Grows(s, log, block, w, matched, applied) && Apart(log, block)
    requires OnePerActivation(log, Applied) && WithinCaps(s.plan, log)
    ensures WithinCaps(s.plan, log + block)
  {
    forall r | r in s.plan.rules
      ensures AppliedCount(log + block, r.faultId) <= r.maxOccurrences
    {
      GrownCount(s, log, block, w, matched, applied, r.faultId);
      if f :| f in applied && f.rule.faultId == r.faultId {
        assert f in matched;
        RuleInFacts(s.plan.rules, r.faultId);
        assert f.rule == r;
      }
    }
  }

  /** The grown history is accepted again exactly when every fault that matched was also applied, and
      either way no fault was applied beyond its cap. */
  lemma GrownLogAccepted(s: Setup, log: seq<Event>, block: seq<Event>, w: Written, matched: seq<AppliedFault>,
                         applied: seq<AppliedFault>)
    requires Coherent(s, log) && Grows(s, log, block, w, matched, applied)
    ensures Coherent(s, log + block) <==> forall f :: f in matched ==> f in applied
    ensures WithinCaps(s.plan, log + block)
  {
    BlockIsApart(s, log, block, w, matched, applied);
    GrownMatches(s, log, block, w, matched, applied);
    GrownApplicationsOk(s, log, block, w, matched, applied);
    GrownIsComplete(s, log, block, w, matched, applied);
    assert Identified(s, log + block);
  }

  lemma GrownApplicationsOk(s: Setup, log: seq<Event>, block: seq<Event>, w: Written, matched: seq<AppliedFault>,
                            applied: seq<AppliedFault>)
    requires ApplicationsOk(s, log, log) && Grows(s, log, block, w, matched, applied) && Apart(log, block)
    ensures ApplicationsOk(s, log + block, log + block)
  {
    GrownApplications(s, log, block, w, matched, applied);
    GrownOnePerActivation(s, log, block, w, matched, applied, Applied);
    GrownCaps(s, log, block, w, matched, applied);
  }

  lemma GrownIsComplete(s: Setup, log: seq<Event>, block: seq<Event>, w: Written, matched: seq<AppliedFault>,
                        applied: seq<AppliedFault>)
    requires Coherent(s, log) && Grows(s, log, block, w, matched, applied)
    ensures Activations(log + block, Observed) <= Activations(log + block, Applied)
    ensures Activations(log + block, Matched) == Activations(log + block, Applied) <==> forall f :: f in matched ==> f in applied
  {
    forall f | f in matched && f !in applied
      ensures f.activation !in Activations(log, Applied) && forall g :: g in applied ==> g.activation != f.activation
    {
      OrphanIsNew(s, log, block, w, matched, applied, f);
    }
    Completeness(log, block, w, matched, applied);
  }

  lemma OrphanIsNew(s: Setup, log: seq<Event>, block: seq<Event>, w: Written, matched: seq<AppliedFault>,
                    applied: seq<AppliedFault>, f: AppliedFault)
    requires Coherent(s, log) && Grows(s, log, block, w, matched, applied) && f in matched && f !in applied
    ensures f.activation !in Activations(log, Applied) && forall g :: g in applied ==> g.activation != f.activation
  {
    ActivationIsNew(s, log, w.request, matched, f, Applied);
    forall g | g in applied
      ensures g.activation != f.activation
    {
      if g.activation == f.activation {
        SameActivationSameFault(s, log, w.request, matched, f, g);
      }
    }
  }

  lemma Completeness(log: seq<Event>, block: seq<Event>, w: Written, matched: seq<AppliedFault>, applied: seq<AppliedFault>)
    requires Writes(w, matched, applied) && Holds(w, block)
    requires Activations(log, Matched) == Activations(log, Applied) && Activations(log, Observed) <= Activations(log, Applied)
    requires forall f :: f in applied ==> f in matched
    requires forall f :: f in matched && f !in applied ==>
               f.activation !in Activations(log, Applied) && forall g :: g in applied ==> g.activation != f.activation
    ensures Activations(log + block, Observed) <= Activations(log + block, Applied)
    ensures Activations(log + block, Matched) == Activations(log + block, Applied) <==> forall f :: f in matched ==> f in applied
  {
    GrownActivations(log, block, w, matched, applied, Matched);
    GrownActivations(log, block, w, matched, applied, Applied);
    GrownActivations(log, block, w, matched, applied, Observed);
    NoOrphan(Activations(log, Applied), matched, applied);
  }

  lemma NoOrphan(known: set<string>, matched: seq<AppliedFault>, applied: seq<AppliedFault>)
    requires forall f :: f in applied ==> f in matched
    requires forall f :: f in matched && f !in applied ==>
               f.activation !in known && forall g :: g in applied ==> g.activation != f.activation
    ensures known + ActivationsIn(matched) == known + ActivationsIn(applied) <==> forall f :: f in matched ==> f in applied
  {
    forall f | f in matched && f !in applied
      ensures f.activation in ActivationsIn(matched) && f.activation !in known + ActivationsIn(applied)
    {
    }
  }

  // ----- Before the request is complete -----

  /** However much of a request's chains is written, authenticating the log while ignoring the request
      gives what the log before it gave: all phases of one request are matched against the same counts. */
  lemma CountsWhileWriting(s: Setup, log: seq<Event>, part: seq<Event>, w: Written, matched: seq<AppliedFault>,
                           applied: seq<AppliedFault>)
    requires FreshBlock(s, log, part, w.request) && Writes(w, matched, applied)
    requires forall e :: e in part ==> InChains(w, e) || Inert(e)
    ensures Coherent(s, Kept(log + part, Some(w.request.id))) <==> Coherent(s, log)
    ensures Outcome(s, Kept(log + part, Some(w.request.id))) == Outcome(s, log)
  {
    forall e | e in part
      ensures Touches(e, w.request.id) || Inert(e)
    {
      if InChains(w, e) {
        ChainsTouch(w, matched, applied, e);
      }
    }
    InFlightIgnored(s, log, part, w.request.id);
  }

  lemma ChainsTouch(w: Written, matched: seq<AppliedFault>, applied: seq<AppliedFault>, e: Event)
    requires Writes(w, matched, applied) && InChains(w, e)
    ensures Touches(e, w.request.id)
  {
    if e in w.matches {
      var i :| 0 <= i < |w.matches| && w.matches[i] == e;
      assert w.request.id in e.body.related;
    } else if e in w.applications {
      var k :| 0 <= k < |w.applications| && w.applications[k] == e;
      var i := MatchApplied(w, applied, k);
      assert e.body.related[0] == w.request.id;
    } else if e in w.observations {
      var k :| 0 <= k < |w.observations| && w.observations[k] == e;
      assert e.body.related[0] == w.request.id;
    }
  }
}
