/** What a passed evaluation says about the log. */
module Verdicts {
  import opened Prelude
  import opened Classifications
  import opened RunEvents
  import opened EventStreams
  import opened FaultMatcher
  import H = FaultHistory
  import C = FaultChains
  import opened EvaluationInputs
  import opened Authority
  import opened Evaluation

  // ----- Authorization -----

  lemma PassedDecision(st: Setting, cut: Input, valid: bool, unique: bool, consistent: bool, gate: Gate)
    requires Decide(st, cut, valid, unique, consistent).classification == Passed && gate in st.gates
    ensures valid && consistent && EvaluateGate(st, cut, gate).status == Pass
  {
    var i :| 0 <= i < |st.gates| && st.gates[i] == gate;
    var gates := EvaluateGates(st, cut, st.gates, true);
    assert gates[i] in gates && gates[i] == EvaluateGate(st, cut, gate);
  }

  lemma PassedGate(st: Setting, v: Input, gate: Gate)
    requires Evaluate(st, v).classification == Passed && gate in st.gates
    ensures EvaluateGate(st, Cut(v), gate).status == Pass
  {
    var cut := Cut(v);
    PassedDecision(st, cut, ValidStream(cut.events, true), Distinct(GateIds(st.gates)),
                   Consistent(st, cut, HasLater(v) || SameRelevant(v.final, cut.final)), gate);
  }

  /** In the log, the effect follows a request and then a decision that allowed it, or an approved
      resolution of an approval asked for exactly this action. */
  ghost predicate LawfullyDone(cut: Input, fz: Frozen, e: Effect)
  {
    && TraceOf(cut, fz, e).Some?
    && var t := TraceOf(cut, fz, e).value;
    && t.request.body.ToolRequested? && t.decision.body.PolicyDecision? && t.state in cut.events
    && t.request.sequence < t.decision.sequence < t.state.sequence
    && (t.decision.body.decision == "allow" || exists asked, resolved :: ApprovedBy(cut, fz, e, t, asked, resolved))
  }

  lemma GrantedIsLawful(st: Setting, cut: Input, e: Effect)
    requires Authorized(st, cut, e)
    ensures LawfullyDone(cut, st.frozen, e)
  {
    TraceFacts(cut, st.frozen, e);
    if GrantOf(cut, st.frozen, e).value.authorization == Approved {
      ApprovedFacts(cut, st.frozen, e);
    }
  }

  lemma GatePassesOnlyAuthorized(st: Setting, cut: Input, gate: Gate, e: Effect)
    requires gate.kind.AuthorizationRespected? && EvaluateGate(st, cut, gate).status == Pass
    requires e in cut.effects && Kind(e.change) in gate.kind.effectKinds
    ensures Authorized(st, cut, e)
  {
  }

  /** When an evaluation with an authorization gate passes, every effect of the gate's kinds was lawfully
      done within the boundary. */
  lemma PassedIsLawful(st: Setting, v: Input, gate: Gate, e: Effect)
    requires Evaluate(st, v).classification == Passed
    requires gate in st.gates && gate.kind.AuthorizationRespected?
    requires e in Cut(v).effects && Kind(e.change) in gate.kind.effectKinds
    ensures LawfullyDone(Cut(v), st.frozen, e)
  {
    PassedGate(st, v, gate);
    GatePassesOnlyAuthorized(st, Cut(v), gate, e);
    GrantedIsLawful(st, Cut(v), e);
  }

  // ----- Counts -----

  lemma DecidedConsistent(st: Setting, cut: Input, valid: bool, unique: bool, consistent: bool)
    requires Decide(st, cut, valid, unique, consistent).classification == Passed
    ensures consistent
  {
  }

  lemma PassedConsistent(st: Setting, v: Input)
    requires Evaluate(st, v).classification == Passed
    ensures AuthorityOk(Cut(v), st.frozen) && FaultsOk(st, Cut(v))
  {
    var cut := Cut(v);
    var consistent := Consistent(st, cut, HasLater(v) || SameRelevant(v.final, cut.final));
    DecidedConsistent(st, cut, ValidStream(cut.events, true), Distinct(GateIds(st.gates)), consistent);
  }

  lemma {:induction false} CountIsSize(effects: seq<Effect>, kind: string, wanted: Effect -> bool)
    requires Distinct(EffectIds(effects)) && forall e :: wanted(e) <==> Kind(e.change) == kind
    ensures CountEffects(effects, wanted) == |EffectsOfKind(effects, kind)|
  {
    if effects != [] {
      FrontDistinct(effects);
      CountIsSize(Front(effects), kind, wanted);
      OneMoreEffect(Front(effects), Last(effects), kind);
      assert effects == Front(effects) + [Last(effects)];
    }
  }

  lemma OneMoreEffect(before: seq<Effect>, e: Effect, kind: string)
    requires forall x :: x in before ==> x.effectId != e.effectId
    ensures |EffectsOfKind(before + [e], kind)| == |EffectsOfKind(before, kind)| + (if Kind(e.change) == kind then 1 else 0)
  {
    assert EffectsOfKind(before + [e], kind) ==
           EffectsOfKind(before, kind) + (if Kind(e.change) == kind then {e.effectId} else {});
  }

  /** When an evaluation with an effect-count gate passes, the number of effects of that kind the log
      records up to the boundary lies within the gate's limits. */
  lemma PassedCountIsLogged(st: Setting, v: Input, gate: Gate)
    requires Evaluate(st, v).classification == Passed && gate in st.gates && gate.kind.EffectCount?
    ensures gate.kind.minEffects <= |EvidencedOfKind(Cut(v).events, gate.kind.effectKind)| <= gate.kind.maxEffects
  {
    PassedGate(st, v, gate);
    PassedConsistent(st, v);
    LedgerIsTheLog(Cut(v), st.frozen, gate.kind.effectKind);
    GateCounts(st, Cut(v), gate);
  }

  lemma GateCounts(st: Setting, cut: Input, gate: Gate)
    requires gate.kind.EffectCount? && EvaluateGate(st, cut, gate).status == Pass && Distinct(EffectIds(cut.effects))
    ensures gate.kind.minEffects <= |EffectsOfKind(cut.effects, gate.kind.effectKind)| <= gate.kind.maxEffects
  {
    var kind := gate.kind.effectKind;
    CountIsSize(cut.effects, kind, (e: Effect) => Kind(e.change) == kind);
  }

  // ----- Claims -----

  lemma {:induction false} SomeCounted(effects: seq<Effect>, wanted: Effect -> bool)
    requires CountEffects(effects, wanted) > 0
    ensures exists e :: e in effects && wanted(e)
  {
    if wanted(Last(effects)) {
      assert Last(effects) in effects;
    } else {
      SomeCounted(Front(effects), wanted);
      assert effects == Front(effects) + [Last(effects)];
    }
  }

  /** When an evaluation with a claim gate passes, the agent answered exactly the claim, and an effect with
      the fields the gate asks for rests on its own event, request and decision. */
  lemma PassedClaimIsSupported(st: Setting, v: Input, gate: Gate)
    requires Evaluate(st, v).classification == Passed && gate in st.gates && gate.kind.ClaimSupported?
    ensures Cut(v).execution.answer == Some(gate.kind.claim)
    ensures exists e :: e in Cut(v).effects && Supports(st, Cut(v), e, gate.kind) && TraceOf(Cut(v), st.frozen, e).Some?
  {
    PassedGate(st, v, gate);
    ClaimHasEffect(st, Cut(v), gate);
  }

  lemma ClaimHasEffect(st: Setting, cut: Input, gate: Gate)
    requires gate.kind.ClaimSupported? && EvaluateGate(st, cut, gate).status == Pass
    ensures cut.execution.answer == Some(gate.kind.claim)
    ensures exists e :: e in cut.effects && Supports(st, cut, e, gate.kind) && TraceOf(cut, st.frozen, e).Some?
  {
    var wanted := (e: Effect) => Supports(st, cut, e, gate.kind);
    SomeCounted(cut.effects, wanted);
    var e :| e in cut.effects && wanted(e);
    assert Supports(st, cut, e, gate.kind) && TraceOf(cut, st.frozen, e).Some?;
  }

  // ----- Faults -----

  /** When an evaluation with a fault gate passes, every fault the gate requires happened within the
      boundary: some request, its match, its application, its result and its observation, in order. */
  lemma PassedFaultsHappened(st: Setting, v: Input, gate: Gate, faultId: string)
    requires Evaluate(st, v).classification == Passed
    requires gate in st.gates && gate.kind.FaultObserved? && faultId in gate.kind.faultIds
    ensures exists activation, c :: C.IsChain(Cut(v).events, activation, c) && c.observed.body.faultId == faultId
  {
    PassedGate(st, v, gate);
    PassedConsistent(st, v);
    ObservedHappened(st, Cut(v), gate, faultId);
  }

  lemma ObservedHappened(st: Setting, cut: Input, gate: Gate, faultId: string)
    requires FaultsOk(st, cut) && gate.kind.FaultObserved? && faultId in gate.kind.faultIds
    requires EvaluateGate(st, cut, gate).status == Pass
    ensures exists activation, c :: C.IsChain(cut.events, activation, c) && c.observed.body.faultId == faultId
  {
    assert faultId in FaultIds(st.plan) && WasObserved(cut, faultId);
    var s := SetupOf(st, cut, cut.seed.value);
    var ids := H.ObservedIds(cut.events, cut.events, faultId);
    C.ObservationsCounted(s, cut.events, cut.events, faultId);
    assert ids[0] in ids;
    var o := Find(cut.events, ids[0]).value;
    FindFacts(cut.events, ids[0]);
    var c := C.ChainOfActivation(s, cut.events, o.body.activationId, Observed);
    assert C.IsChain(cut.events, o.body.activationId, c);
  }
}
