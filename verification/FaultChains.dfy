/** What acceptance of a fault history says, and what it does not depend on. */
module FaultChains {
  import opened Prelude
  import opened RunEvents
  import opened FaultMatcher
  import opened FaultHistory

  // ----- One chain for each activation -----

  datatype Chain = Chain(request: Event, matched: Event, applied: Event, result: Event, observed: Event)

  ghost predicate IsChain(log: seq<Event>, activation: string, c: Chain)
  {
    && c.request in log && c.matched in log && c.applied in log && c.result in log && c.observed in log
    && c.request.body.ToolRequested? && c.result.body.ToolResulted?
    && IsFor(c.matched, Matched, activation) && IsFor(c.applied, Applied, activation)
    && IsFor(c.observed, Observed, activation)
    && c.matched.body.faultId == c.applied.body.faultId == c.observed.body.faultId
    && c.matched.causation == Some(c.request.id) && c.applied.causation == Some(c.matched.id)
    && c.observed.causation == Some(c.result.id) && c.result.body.requestEvent == c.request.id
    && c.request.sequence < c.matched.sequence < c.applied.sequence < c.result.sequence < c.observed.sequence
  }

  ghost predicate OnlyOne(log: seq<Event>, activation: string, c: Chain)
  {
    && (forall e :: e in log && IsFor(e, Matched, activation) ==> e == c.matched)
    && (forall e :: e in log && IsFor(e, Applied, activation) ==> e == c.applied)
    && (forall e :: e in log && IsFor(e, Observed, activation) ==> e == c.observed)
    && (forall e :: e in log && e.body.ToolResulted? && e.body.requestEvent == c.request.id ==> e == c.result)
  }

  lemma OnlyEvent(log: seq<Event>, kind: FaultKind, e: Event, e': Event)
    requires OnePerActivation(log, kind) && e in log && e' in log && IsFault(e, kind)
    requires IsFor(e', kind, e.body.activationId)
    ensures e == e'
  {
    var i :| 0 <= i < |log| && log[i] == e;
    var j :| 0 <= j < |log| && log[j] == e';
  }

  /** In an accepted log every activation, at whichever stage it is seen, has exactly one match, one
      application, one result and one observation, in strictly increasing order after its request. */
  lemma ChainOfActivation(s: Setup, log: seq<Event>, activation: string, kind: FaultKind) returns (c: Chain)
    requires Coherent(s, log) && activation in Activations(log, kind)
    ensures IsChain(log, activation, c) && OnlyOne(log, activation, c)
  {
    var a := SeenIsApplied(s, log, activation, kind);
    assert ApplicationsOk(s, log, log);
    c := ChainOfApplication(s, log, a);
  }

  lemma SeenIsApplied(s: Setup, log: seq<Event>, activation: string, kind: FaultKind) returns (a: Event)
    requires Activations(log, Matched) == Activations(log, Applied)
    requires Activations(log, Observed) <= Activations(log, Applied)
    requires activation in Activations(log, kind)
    ensures a in log && IsFor(a, Applied, activation)
  {
    assert activation in Activations(log, Applied) by {
      match kind { case Matched => case Applied => case Observed => }
    }
    a :| a in log && IsFor(a, Applied, activation);
  }

  lemma ChainOfApplication(s: Setup, log: seq<Event>, a: Event) returns (c: Chain)
    requires MatchesOk(s, log, log) && AllHaveApplication(log, log) && OnePerActivation(log, Applied)
    requires a in log && IsFault(a, Applied)
    ensures IsChain(log, a.body.activationId, c) && OnlyOne(log, a.body.activationId, c) && c.applied == a
  {
    var activation := a.body.activationId;
    var m := MatchOfApplication(log, a);
    c := ChainFrom(log, m, a);
    assert MatchOk(s, log, m);
    assert IsChain(log, activation, c);
    forall e | e in log && IsFor(e, Matched, activation)
      ensures e == m
    {
      OnlyEvent(log, Matched, m, e);
    }
    forall e | e in log && IsFor(e, Applied, activation)
      ensures e == a
    {
      OnlyEvent(log, Applied, a, e);
    }
  }

  lemma MatchOfApplication(log: seq<Event>, a: Event) returns (m: Event)
    requires AllHaveApplication(log, log) && a in log && IsFault(a, Applied)
    ensures m in log && IsFor(m, Matched, a.body.activationId) && ApplicationOk(log, m, a)
  {
    assert HasApplication(log, a);
    m :| m in log && IsFor(m, Matched, a.body.activationId) && ApplicationOk(log, m, a);
  }

  lemma ChainFrom(log: seq<Event>, m: Event, a: Event) returns (c: Chain)
    requires m in log && a in log && IsFault(m, Matched) && IsFault(a, Applied) && ApplicationOk(log, m, a)
    ensures c.matched == m && c.applied == a && c.request == RequestOf(log, m)
    ensures c.request in log && c.result in log && c.observed in log
    ensures c.result.body.ToolResulted? && c.result.body.requestEvent == c.request.id
    ensures IsFor(c.observed, Observed, a.body.activationId) && c.observed.body.faultId == a.body.faultId
    ensures a.causation == Some(m.id) && c.observed.causation == Some(c.result.id)
    ensures m.sequence < a.sequence < c.result.sequence < c.observed.sequence
    ensures forall e :: e in log && IsFor(e, Observed, a.body.activationId) ==> e == c.observed
    ensures forall e :: e in log && e.body.ToolResulted? && e.body.requestEvent == c.request.id ==> e == c.result
  {
    var request := RequestOf(log, m);
    FindFacts(log, m.body.related[0]);
    var results, observed := ResultsFor(log, request), ObservedFor(log, a.body.activationId);
    SelectFacts(log, (e: Event) => e.body.ToolResulted? && e.body.requestEvent == request.id);
    SelectFacts(log, (e: Event) => IsFault(e, Observed) && e.body.activationId == a.body.activationId);
    c := Chain(request, m, a, results[0], observed[0]);
    assert results[0] in results && observed[0] in observed;
  }

  /** Matched, applied and observed events correspond one to one by activation. */
  lemma OneToOne(s: Setup, log: seq<Event>)
    requires Coherent(s, log)
    ensures Activations(log, Matched) == Activations(log, Applied) == Activations(log, Observed)
    ensures forall kind :: OnePerActivation(log, kind)
  {
    forall x | x in Activations(log, Applied)
      ensures x in Activations(log, Observed)
    {
      var c := ChainOfActivation(s, log, x, Applied);
    }
    ObservedOnce(s, log);
    forall kind
      ensures OnePerActivation(log, kind)
    {
      match kind { case Matched => case Applied => case Observed => }
    }
  }

  lemma ObservedOnce(s: Setup, log: seq<Event>)
    requires Coherent(s, log)
    ensures OnePerActivation(log, Observed)
  {
    forall i, j | 0 <= i < j < |log| && IsFault(log[i], Observed) && IsFault(log[j], Observed)
      ensures log[i].body.activationId != log[j].body.activationId
    {
      var c := ChainOfActivation(s, log, log[i].body.activationId, Observed);
      assert log[i] in log && log[j] in log && log[i].id != log[j].id;
    }
  }

  // ----- What is counted -----

  function ActivationsOf(log: seq<Event>, faultId: string): set<string>
  {
    set e | e in log && IsApplicationOf(e, faultId) :: e.body.activationId
  }

  lemma {:induction false} CountsActivations(log: seq<Event>, faultId: string)
    requires OnePerActivation(log, Applied)
    ensures AppliedCount(log, faultId) == |ActivationsOf(log, faultId)|
  {
    if log != [] {
      var before, e := Front(log), Last(log);
      assert log == before + [e];
      CountsActivations(before, faultId);
      NewApplications(before, e, faultId);
    }
  }

  lemma NewApplications(before: seq<Event>, e: Event, faultId: string)
    requires OnePerActivation(before + [e], Applied)
    ensures |ActivationsOf(before + [e], faultId)| ==
            |ActivationsOf(before, faultId)| + (if IsApplicationOf(e, faultId) then 1 else 0)
  {
    var log := before + [e];
    forall x | x in before && IsFault(x, Applied) && IsFault(e, Applied)
      ensures x.body.activationId != e.body.activationId
    {
      var i :| 0 <= i < |before| && before[i] == x;
      assert log[i] == x && log[|before|] == e;
    }
    assert ActivationsOf(log, faultId) ==
           ActivationsOf(before, faultId) + (if IsApplicationOf(e, faultId) then {e.body.activationId} else {});
  }

  /** The identity is that of the observation of an application among the events. */
  ghost predicate Observes(log: seq<Event>, upTo: seq<Event>, faultId: string, id: string)
  {
    && Find(log, id).Some?
    && var o := Find(log, id).value;
    && o.body.Fault? && o.body.faultId == faultId
    && exists a :: a in upTo && IsApplicationOf(a, faultId) && IsFor(o, Observed, a.body.activationId)
  }

  lemma ObservationOf(s: Setup, log: seq<Event>, a: Event) returns (o: Event)
    requires Coherent(s, log) && a in log && IsFault(a, Applied)
    ensures o in log && Find(log, o.id) == Some(o) && o.body.Fault? && o.body.faultId == a.body.faultId
    ensures IsFor(o, Observed, a.body.activationId)
    ensures ObservedFor(log, a.body.activationId) != [] && ObservedFor(log, a.body.activationId)[0] == o
  {
    assert a.body.activationId in Activations(log, Applied);
    var c := ChainOfActivation(s, log, a.body.activationId, Applied);
    o := c.observed;
    SelectFacts(log, (x: Event) => IsFault(x, Observed) && x.body.activationId == a.body.activationId);
    assert o in ObservedFor(log, a.body.activationId);
    assert ObservedFor(log, a.body.activationId)[0] in ObservedFor(log, a.body.activationId);
    FindFacts(log, o.id);
  }

  /** Each application counted has its own observation. */
  lemma {:induction false} ObservationsCounted(s: Setup, log: seq<Event>, upTo: seq<Event>, faultId: string)
    requires Coherent(s, log) && (forall e :: e in upTo ==> e in log) && OnePerActivation(upTo, Applied)
    ensures |ObservedIds(log, upTo, faultId)| == AppliedCount(upTo, faultId)
    ensures forall id :: id in ObservedIds(log, upTo, faultId) ==> Observes(log, upTo, faultId, id)
    ensures Distinct(ObservedIds(log, upTo, faultId))
  {
    if upTo != [] {
      var before, e := Front(upTo), Last(upTo);
      assert upTo == before + [e];
      ObservationsCounted(s, log, before, faultId);
      var ids := ObservedIds(log, before, faultId);
      forall id | id in ids
        ensures Observes(log, upTo, faultId, id)
      {
        ObservesMore(log, before, e, faultId, id);
      }
      if IsApplicationOf(e, faultId) {
        var o := ObservationOf(s, log, e);
        NewObservation(log, before, e, faultId, o);
        assert ObservedIds(log, upTo, faultId) == ids + [o.id];
      }
    }
  }

  lemma ObservesMore(log: seq<Event>, before: seq<Event>, e: Event, faultId: string, id: string)
    requires Observes(log, before, faultId, id)
    ensures Observes(log, before + [e], faultId, id)
  {
    var o := Find(log, id).value;
    var a :| a in before && IsApplicationOf(a, faultId) && IsFor(o, Observed, a.body.activationId);
    assert a in before + [e];
  }

  lemma NewObservation(log: seq<Event>, before: seq<Event>, e: Event, faultId: string, o: Event)
    requires OnePerActivation(before + [e], Applied) && IsApplicationOf(e, faultId)
    requires Find(log, o.id) == Some(o) && IsFor(o, Observed, e.body.activationId) && o.body.faultId == faultId
    ensures Observes(log, before + [e], faultId, o.id) && !Observes(log, before, faultId, o.id)
  {
    assert e in before + [e];
    forall a | a in before && IsFault(a, Applied)
      ensures a.body.activationId != e.body.activationId
    {
      var i :| 0 <= i < |before| && before[i] == a;
      assert (before + [e])[i] == a && (before + [e])[|before|] == e;
    }
  }

  /** The counts handed to the next match are the numbers of distinct activations applied, never above
      their caps, and as many observations are reported as applications counted. */
  lemma CountsAreApplications(s: Setup, log: seq<Event>, r: Rule)
    requires Coherent(s, log) && r in s.plan.rules
    ensures var outcome := Outcome(s, log);
            && r.faultId in outcome.counts
            && outcome.counts[r.faultId] == |ActivationsOf(log, r.faultId)| <= r.maxOccurrences
            && |outcome.observed[r.faultId]| == outcome.counts[r.faultId]
  {
    assert r.faultId in FaultIds(s.plan);
    CountsActivations(log, r.faultId);
    ObservationsCounted(s, log, log, r.faultId);
  }

  // ----- Events that do not matter -----

  /** Neither a fault stage nor a tool request or result. */
  predicate Inert(e: Event)
  {
    !e.body.Fault? && !e.body.ToolRequested? && !e.body.ToolResulted?
  }

  lemma {:induction false} CountStable(log: seq<Event>, block: seq<Event>, faultId: string)
    requires forall e :: e in block ==> !IsFault(e, Applied)
    ensures AppliedCount(log + block, faultId) == AppliedCount(log, faultId)
  {
    if block == [] {
      assert log + block == log;
    } else {
      assert Front(log + block) == log + Front(block) && Last(block) in block;
      CountStable(log, Front(block), faultId);
    }
  }

  lemma {:induction false} FindInert(log: seq<Event>, inert: seq<Event>, id: string)
    requires UniqueIds(log + inert) && forall e :: e in inert ==> Inert(e)
    ensures Find(log, id).Some? ==> Find(log + inert, id) == Find(log, id)
    ensures Find(log, id).None? && Find(log + inert, id).Some? ==> Inert(Find(log + inert, id).value)
  {
    if Find(log, id).Some? {
      FindStable(log, inert, id);
    } else if Find(log + inert, id).Some? {
      FindFacts(log + inert, id);
      var e := Find(log + inert, id).value;
      if e in log {
        assert UniqueIds(log) by {
          forall i, j | 0 <= i < j < |log|
            ensures log[i].id != log[j].id
          {
            assert (log + inert)[i] == log[i] && (log + inert)[j] == log[j];
          }
        }
        FindFacts(log, id);
      }
    }
  }

  lemma InertMatch(s: Setup, log: seq<Event>, inert: seq<Event>, m: Event)
    requires UniqueIds(log + inert) && forall e :: e in inert ==> Inert(e)
    ensures HasRequest(log + inert, m) <==> HasRequest(log, m)
    ensures HasRequest(log, m) ==> RequestOf(log + inert, m) == RequestOf(log, m)
    ensures MatchOk(s, log + inert, m) <==> MatchOk(s, log, m)
  {
    if m.body.Fault? && |m.body.related| == 1 {
      FindInert(log, inert, m.body.related[0]);
    }
  }

  lemma InertApplication(s: Setup, log: seq<Event>, inert: seq<Event>, m: Event, a: Event)
    requires UniqueIds(log + inert) && forall e :: e in inert ==> Inert(e)
    ensures ApplicationOk(log + inert, m, a) <==> ApplicationOk(log, m, a)
  {
    InertMatch(s, log, inert, m);
    if HasRequest(log, m) && a.body.Fault? {
      var request, activation := RequestOf(log, m), a.body.activationId;
      SelectStable(log, inert, (e: Event) => e.body.ToolResulted? && e.body.requestEvent == request.id);
      SelectStable(log, inert, (e: Event) => IsFault(e, Observed) && e.body.activationId == activation);
      SelectStable(log, inert, (e: Event) => IsFault(e, Applied) && request.id in e.body.related);
    }
  }

  lemma InertActivations(log: seq<Event>, inert: seq<Event>, kind: FaultKind)
    requires forall e :: e in inert ==> Inert(e)
    ensures Activations(log + inert, kind) == Activations(log, kind)
    ensures OnePerActivation(log + inert, kind) <==> OnePerActivation(log, kind)
  {
    var all := log + inert;
    if OnePerActivation(all, kind) {
      forall i, j | 0 <= i < j < |log| && IsFault(log[i], kind) && IsFault(log[j], kind)
        ensures log[i].body.activationId != log[j].body.activationId
      {
        assert all[i] == log[i] && all[j] == log[j];
      }
    }
    if OnePerActivation(log, kind) {
      forall i, j | 0 <= i < j < |all| && IsFault(all[i], kind) && IsFault(all[j], kind)
        ensures all[i].body.activationId != all[j].body.activationId
      {
        assert forall k :: |log| <= k < |all| ==> all[k] in inert;
      }
    }
  }

  lemma InertApplications(s: Setup, log: seq<Event>, inert: seq<Event>)
    requires UniqueIds(log + inert) && forall e :: e in inert ==> Inert(e)
    ensures AllHaveApplication(log + inert, log + inert) <==> AllHaveApplication(log, log)
  {
    forall a, m
      ensures ApplicationOk(log + inert, m, a) <==> ApplicationOk(log, m, a)
    {
      InertApplication(s, log, inert, m, a);
    }
    forall a
      ensures HasApplication(log + inert, a) <==> HasApplication(log, a)
    {
      if HasApplication(log, a) {
        var m :| m in log && IsFor(m, Matched, a.body.activationId) && ApplicationOk(log, m, a);
        assert m in log + inert;
      }
    }
  }

  lemma InertMatches(s: Setup, log: seq<Event>, inert: seq<Event>)
    requires UniqueIds(log + inert) && forall e :: e in inert ==> Inert(e)
    ensures MatchesOk(s, log + inert, log + inert) <==> MatchesOk(s, log, log)
  {
    forall m
      ensures MatchOk(s, log + inert, m) <==> MatchOk(s, log, m)
    {
      InertMatch(s, log, inert, m);
    }
    InertActivations(log, inert, Matched);
    assert forall m :: m in log ==> m in log + inert;
  }

  lemma {:induction false} InertObserved(log: seq<Event>, inert: seq<Event>, upTo: seq<Event>, faultId: string)
    requires forall e :: e in inert ==> Inert(e)
    ensures ObservedIds(log + inert, upTo, faultId) == ObservedIds(log, upTo, faultId)
  {
    if upTo != [] {
      InertObserved(log, inert, Front(upTo), faultId);
      if IsApplicationOf(Last(upTo), faultId) {
        var activation := Last(upTo).body.activationId;
        SelectStable(log, inert, (e: Event) => IsFault(e, Observed) && e.body.activationId == activation);
      }
    }
  }

  lemma {:induction false} ObservedUpTo(log: seq<Event>, upTo: seq<Event>, inert: seq<Event>, faultId: string)
    requires forall e :: e in inert ==> Inert(e)
    ensures ObservedIds(log, upTo + inert, faultId) == ObservedIds(log, upTo, faultId)
  {
    if inert == [] {
      assert upTo + inert == upTo;
    } else {
      assert Front(upTo + inert) == upTo + Front(inert) && Last(inert) in inert;
      ObservedUpTo(log, upTo, Front(inert), faultId);
    }
  }

  lemma InertOutcome(s: Setup, log: seq<Event>, inert: seq<Event>)
    requires forall e :: e in inert ==> Inert(e)
    ensures Outcome(s, log + inert) == Outcome(s, log)
  {
    forall id: string
      ensures AppliedCount(log + inert, id) == AppliedCount(log, id)
      ensures ObservedIds(log + inert, log + inert, id) == ObservedIds(log, log, id)
    {
      CountStable(log, inert, id);
      InertObserved(log, inert, log + inert, id);
      ObservedUpTo(log, log, inert, id);
    }
    assert Counts(s, log + inert) == Counts(s, log);
    assert Outcome(s, log + inert).observed == Outcome(s, log).observed;
  }

  /** Events of no fault chain neither break nor mend a history, nor change what is counted. */
  lemma InertIgnored(s: Setup, log: seq<Event>, inert: seq<Event>)
    requires UniqueIds(log + inert) && forall e :: e in inert ==> Inert(e) && e.runId == s.runId
    ensures Coherent(s, log + inert) <==> Coherent(s, log)
    ensures Outcome(s, log + inert) == Outcome(s, log)
  {
    InertOutcome(s, log, inert);
    InertMatches(s, log, inert);
    InertApplicationsOk(s, log, inert);
    assert Activations(log + inert, Matched) == Activations(log, Matched)
        && Activations(log + inert, Applied) == Activations(log, Applied)
        && Activations(log + inert, Observed) == Activations(log, Observed) by {
      InertActivations(log, inert, Matched);
      InertActivations(log, inert, Applied);
      InertActivations(log, inert, Observed);
    }
    InertIdentified(s, log, inert);
  }

  lemma InertIdentified(s: Setup, log: seq<Event>, inert: seq<Event>)
    requires UniqueIds(log + inert) && forall e :: e in inert ==> e.runId == s.runId
    ensures Identified(s, log + inert) <==> Identified(s, log)
  {
    assert forall i :: 0 <= i < |log| ==> (log + inert)[i] == log[i];
  }

  lemma InertApplicationsOk(s: Setup, log: seq<Event>, inert: seq<Event>)
    requires UniqueIds(log + inert) && forall e :: e in inert ==> Inert(e)
    ensures ApplicationsOk(s, log + inert, log + inert) <==> ApplicationsOk(s, log, log)
  {
    InertApplications(s, log, inert);
    InertActivations(log, inert, Applied);
    forall r | r in s.plan.rules
      ensures AppliedCount(log + inert, r.faultId) == AppliedCount(log, r.faultId)
    {
      CountStable(log, inert, r.faultId);
    }
  }

  // ----- A request in flight -----

  /** While a request is in flight, ignoring it gives exactly what the log before it gave: the same
      verdict, the same counts, the same observations. */
  lemma InFlightIgnored(s: Setup, log: seq<Event>, block: seq<Event>, request: string)
    requires UniqueIds(log + block) && (forall e :: e in block ==> e.runId == s.runId)
    requires forall e :: e in log ==> !Touches(e, request)
    requires forall e :: e in block ==> Touches(e, request) || Inert(e)
    ensures Coherent(s, Kept(log + block, Some(request))) <==> Coherent(s, log)
    ensures Outcome(s, Kept(log + block, Some(request))) == Outcome(s, log)
  {
    var keep := Untouched(Some(request));
    var inert := Select(block, keep);
    SelectConcat(log, block, keep);
    SelectAll(log, keep);
    SelectFacts(block, keep);
    assert Kept(log + block, Some(request)) == log + inert;
    SelectKeepsOrder(log + block, keep);
    InertIgnored(s, log, inert);
  }
}
