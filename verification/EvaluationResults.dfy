/** The result contract's own checks, and that the engine's results always pass them. */
module EvaluationResults {
  import opened Prelude
  import opened Classifications
  import opened RunEvents
  import opened EventStreams
  import opened FaultMatcher
  import H = FaultHistory
  import C = FaultChains
  import opened EvaluationInputs
  import opened Authority
  import opened Evaluation

  // ----- The contract -----

  function EventIds(refs: seq<Ref>): seq<string>
  {
    seq(|refs|, i requires 0 <= i < |refs| => refs[i].eventId)
  }

  ghost predicate ReferencesOk(refs: seq<Ref>, boundary: int)
  {
    && Distinct(EventIds(refs))
    && (forall i, j :: 0 <= i < j < |refs| ==> refs[i].sequence != refs[j].sequence)
    && (forall r :: r in refs ==> r.sequence <= boundary)
  }

  predicate HasStatus(gates: seq<GateResult>, status: Status)
  {
    exists g :: g in gates && g.status == status
  }

  predicate Contradictory(classification: Classification, gates: seq<GateResult>)
  {
    match classification
    case Passed => HasStatus(gates, Fail) || HasStatus(gates, Error)
    case Failed => !HasStatus(gates, Fail) || HasStatus(gates, Error)
    case Invalid => !HasStatus(gates, Error) && gates != []
  }

  function ResultIds(gates: seq<GateResult>): seq<string>
  {
    seq(|gates|, i requires 0 <= i < |gates| => gates[i].gateId)
  }

  ghost predicate ResultOk(r: Result)
  {
    && Distinct(ResultIds(r.gates))
    && (forall g :: g in r.gates ==> ReferencesOk(g.evidence, r.boundary))
    && !Contradictory(r.classification, r.gates)
  }

  method CheckEvidence(refs: seq<Ref>, boundary: int) returns (ok: bool)
    ensures ok <==> ReferencesOk(refs, boundary)
  {
    ok := NoDuplicates(EventIds(refs));
    var sequences: set<nat> := {};
    for i := 0 to |refs|
      invariant sequences == set j | 0 <= j < i :: refs[j].sequence
      invariant ok ==> Distinct(EventIds(refs)) && (forall j, k :: 0 <= j < k < i ==> refs[j].sequence != refs[k].sequence)
                       && (forall j :: 0 <= j < i ==> refs[j].sequence <= boundary)
      invariant ReferencesOk(refs, boundary) ==> ok
    {
      if refs[i].sequence in sequences || refs[i].sequence > boundary {
        assert refs[i] in refs;
        ok := false;
      }
      sequences := sequences + {refs[i].sequence};
    }
  }

  /** The semantic part of `_canonical` for a result. */
  method CheckResult(r: Result) returns (ok: bool)
    ensures ok <==> ResultOk(r)
  {
    ok := NoDuplicates(ResultIds(r.gates));
    for i := 0 to |r.gates|
      invariant ok <==> Distinct(ResultIds(r.gates)) && forall j :: 0 <= j < i ==> ReferencesOk(r.gates[j].evidence, r.boundary)
    {
      var fine := CheckEvidence(r.gates[i].evidence, r.boundary);
      ok := ok && fine;
    }
    ok := ok && !Contradictory(r.classification, r.gates);
  }

  // ----- What the engine cites -----

  /** Distinct references to events of the log. */
  ghost predicate CitesOnce(events: seq<Event>, refs: seq<Ref>)
  {
    Distinct(refs) && forall r :: r in refs ==> exists e :: e in events && r == RefOf(e)
  }

  lemma CitesOnceIsOk(events: seq<Event>, refs: seq<Ref>, boundary: int)
    requires UniqueIds(events) && InOrder(events) && CitesOnce(events, refs)
    requires forall e :: e in events ==> e.sequence <= boundary
    ensures ReferencesOk(refs, boundary)
  {
    forall i, j | 0 <= i < j < |refs|
      ensures refs[i].eventId != refs[j].eventId && refs[i].sequence != refs[j].sequence
    {
      assert refs[i] in refs && refs[j] in refs;
      var x :| x in events && refs[i] == RefOf(x);
      var y :| y in events && refs[j] == RefOf(y);
      var m :| 0 <= m < |events| && events[m] == x;
      var n :| 0 <= n < |events| && events[n] == y;
    }
  }

  lemma GrantEvent(st: Setting, cut: Input, e: Effect)
    requires GrantOf(cut, st.frozen, e).Some?
    ensures var x := GrantOf(cut, st.frozen, e).value.stateEvent;
            x in cut.events && x.body.StateEvidence? && x.body.evidenceId == e.effectId
  {
    TraceFacts(cut, st.frozen, e);
  }

  lemma {:induction false} GrantingCites(st: Setting, cut: Input, effects: seq<Effect>, wanted: Effect -> bool)
    requires UniqueIds(cut.events) && Distinct(EffectIds(effects))
    ensures CitesOnce(cut.events, Granting(st, cut, effects, wanted))
    ensures forall r :: r in Granting(st, cut, effects, wanted) ==> RestsOn(st, cut, effects, r)
  {
    if effects != [] {
      var before, e := Front(effects), Last(effects);
      FrontDistinct(effects);
      GrantingCites(st, cut, before, wanted);
      assert effects == before + [e];
      if wanted(e) && GrantOf(cut, st.frozen, e).Some? {
        var ref := RefOf(GrantOf(cut, st.frozen, e).value.stateEvent);
        GrantEvent(st, cut, e);
        assert RestsOn(st, cut, effects, ref);
        if ref in Granting(st, cut, before, wanted) {
          NotGrantedTwice(st, cut, before, e, ref);
          assert false;
        }
      }
    }
  }

  ghost predicate RestsOn(st: Setting, cut: Input, effects: seq<Effect>, r: Ref)
  {
    exists x :: x in effects && GrantOf(cut, st.frozen, x).Some? && r == RefOf(GrantOf(cut, st.frozen, x).value.stateEvent)
  }

  lemma NotGrantedTwice(st: Setting, cut: Input, before: seq<Effect>, e: Effect, ref: Ref)
    requires UniqueIds(cut.events) && GrantOf(cut, st.frozen, e).Some?
    requires ref == RefOf(GrantOf(cut, st.frozen, e).value.stateEvent)
    requires forall x :: x in before ==> x.effectId != e.effectId
    ensures !RestsOn(st, cut, before, ref)
  {
    GrantEvent(st, cut, e);
    forall x | x in before && GrantOf(cut, st.frozen, x).Some?
      ensures RefOf(GrantOf(cut, st.frozen, x).value.stateEvent) != ref
    {
      GrantEvent(st, cut, x);
      FindFacts(cut.events, ref.eventId);
    }
  }

  // ----- Fault observations -----

  lemma {:induction false} RefsOfIdsFacts(events: seq<Event>, ids: seq<string>)
    requires Distinct(ids)
    ensures CitesOnce(events, RefsOfIds(events, ids))
    ensures forall r :: r in RefsOfIds(events, ids) ==> r.eventId in ids
  {
    if ids != [] {
      assert Distinct(Front(ids));
      RefsOfIdsFacts(events, Front(ids));
      FindFacts(events, Last(ids));
      assert ids == Front(ids) + [Last(ids)];
    }
  }

  lemma {:induction false} FaultRefsCite(s: H.Setup, cut: Input, rules: seq<Rule>, required: set<string>)
    requires H.Coherent(s, cut.events)
    requires forall i, j :: 0 <= i < j < |rules| ==> rules[i].faultId != rules[j].faultId
    ensures CitesOnce(cut.events, FaultRefs(cut, rules, required))
    ensures forall r :: r in FaultRefs(cut, rules, required) ==>
              exists f :: f in rules && C.Observes(cut.events, cut.events, f.faultId, r.eventId)
  {
    if rules != [] {
      var before, rule := Front(rules), Last(rules);
      FaultRefsCite(s, cut, before, required);
      assert rules == before + [rule];
      if rule.faultId in required {
        OneFaultCites(s, cut, rule.faultId);
        var refs := RefsOfIds(cut.events, H.ObservedIds(cut.events, cut.events, rule.faultId));
        forall r, q | r in FaultRefs(cut, before, required) && q in refs
          ensures r != q
        {
          var f :| f in before && C.Observes(cut.events, cut.events, f.faultId, r.eventId);
          assert f.faultId != rule.faultId;
        }
        JoinCites(cut.events, FaultRefs(cut, before, required), refs);
      }
    }
  }

  lemma OneFaultCites(s: H.Setup, cut: Input, faultId: string)
    requires H.Coherent(s, cut.events)
    ensures var refs := RefsOfIds(cut.events, H.ObservedIds(cut.events, cut.events, faultId));
            CitesOnce(cut.events, refs) && forall r :: r in refs ==> C.Observes(cut.events, cut.events, faultId, r.eventId)
  {
    C.ObservationsCounted(s, cut.events, cut.events, faultId);
    RefsOfIdsFacts(cut.events, H.ObservedIds(cut.events, cut.events, faultId));
  }

  lemma JoinCites(events: seq<Event>, a: seq<Ref>, b: seq<Ref>)
    requires CitesOnce(events, a) && CitesOnce(events, b) && forall r, q :: r in a && q in b ==> r != q
    ensures CitesOnce(events, a + b)
  {
    forall i, j | 0 <= i < j < |a + b|
      ensures (a + b)[i] != (a + b)[j]
    {
      if i < |a| <= j {
        assert a[i] in a && b[j - |a|] in b;
      }
    }
  }

  // ----- The engine's results -----

  lemma GateCites(st: Setting, cut: Input, gate: Gate)
    requires ValidPlan(st.plan) && UniqueIds(cut.events) && Distinct(EffectIds(cut.effects)) && FaultsOk(st, cut)
    ensures CitesOnce(cut.events, EvaluateGate(st, cut, gate).evidence)
  {
    var effects := cut.effects;
    match gate.kind
    case RefundState(_, _, _, _, _, _, _) =>
      var ids := set r | r in MatchingRefunds(cut.final.refunds, gate.kind) :: r.refundId;
      GrantingCites(st, cut, effects, (e: Effect) => e.subjectId in ids);
    case TicketState(id, _, _, _) =>
      GrantingCites(st, cut, effects, (e: Effect) => Kind(e.change) == "support_ticket.updated" && e.subjectId == id);
    case EffectCount(kind, _, _) =>
      GrantingCites(st, cut, effects, (e: Effect) => Kind(e.change) == kind);
    case AuthorizationRespected(kinds) =>
      GrantingCites(st, cut, effects, (e: Effect) => Kind(e.change) in kinds);
    case ClaimSupported(_, _, _, _, _) =>
      GrantingCites(st, cut, effects, (e: Effect) => Supports(st, cut, e, gate.kind));
    case FaultObserved(required) =>
      if NoFaults(st, cut) {
        assert FaultRefs(cut, st.plan.rules, required) == [];
      } else {
        FaultRefsCite(SetupOf(st, cut, cut.seed.value), cut, st.plan.rules, required);
      }
    case BudgetsSatisfied =>
    case UnknownKind =>
  }

  lemma ClassifiedRight(gates: seq<GateResult>, consistent: bool)
    requires !consistent ==> forall g :: g in gates ==> g.status == Error
    ensures !Contradictory(Classify(gates, consistent), gates)
  {
    if !consistent && gates != [] {
      assert gates[0] in gates;
    }
  }

  lemma DecisionIsOk(st: Setting, cut: Input, valid: bool, unique: bool, consistent: bool)
    requires unique ==> Distinct(GateIds(st.gates))
    requires valid && consistent ==> forall g :: g in st.gates ==> ReferencesOk(EvaluateGate(st, cut, g).evidence, cut.boundary)
    ensures ResultOk(Decide(st, cut, valid, unique, consistent))
  {
    var r := Decide(st, cut, valid, unique, consistent);
    if r.gates != [] {
      assert r.gates == EvaluateGates(st, cut, st.gates, consistent);
      assert ResultIds(r.gates) == GateIds(st.gates);
      ClassifiedRight(r.gates, consistent);
      forall i | 0 <= i < |r.gates|
        ensures ReferencesOk(r.gates[i].evidence, r.boundary)
      {
        assert st.gates[i] in st.gates;
      }
    }
  }

  /** Every result the engine assembles, of any input whatever, passes the result contract: gate
      identities are distinct, no gate cites an event twice or one past the boundary, and the
      classification agrees with the gates. */
  lemma EngineResultsAreAccepted(st: Setting, v: Input)
    requires ValidPlan(st.plan)
    ensures ResultOk(Evaluate(st, v))
  {
    var cut := Cut(v);
    var consistent := Consistent(st, cut, HasLater(v) || SameRelevant(v.final, cut.final));
    if ValidStream(cut.events, true) && consistent {
      forall g | g in st.gates
        ensures ReferencesOk(EvaluateGate(st, cut, g).evidence, cut.boundary)
      {
        CutGateOk(st, v, g);
      }
    }
    DecisionIsOk(st, cut, ValidStream(cut.events, true), Distinct(GateIds(st.gates)), consistent);
  }

  lemma CutGateOk(st: Setting, v: Input, g: Gate)
    requires ValidPlan(st.plan) && UniqueIds(Cut(v).events) && InOrder(Cut(v).events)
    requires Distinct(EffectIds(Cut(v).effects)) && FaultsOk(st, Cut(v))
    ensures ReferencesOk(EvaluateGate(st, Cut(v), g).evidence, v.boundary)
  {
    GateCites(st, Cut(v), g);
    SelectFacts(v.events, UpTo(v.boundary));
    CitesOnceIsOk(Cut(v).events, EvaluateGate(st, Cut(v), g).evidence, v.boundary);
  }
}
