/** The run event log: its events, and what finding and selecting in it means. */
module RunEvents {
  import opened Prelude

  datatype FaultKind = Matched | Applied | Observed

  datatype Producer = Producer(component: string, instance: Option<string>)

  /** Payloads. An absent optional identity is "", which no present identity is. */
  datatype Body =
    | AgentStep(completed: bool, stepId: string, stepNumber: nat, modelCall: string, model: string,
                inputDigest: string, outputDigest: Option<string>)
    | ToolRequested(logicalId: string, attemptId: string, attempt: nat, stepId: string,
                    toolId: string, argumentsDigest: string, keyDigest: Option<string>)
    | ToolResulted(logicalId: string, attemptId: string, attempt: nat, toolId: string,
                   requestEvent: string, durationMs: nat, outcome: string,
                   responseDigest: Option<string>, errorCode: Option<string>)
    | FaultNotMatched(faultId: string, reason: string)
    | Fault(kind: FaultKind, faultId: string, activationId: string, related: seq<string>)
    | StateEvidence(evidenceId: string, isEffect: bool, factType: string, subjectType: string,
                    subjectId: string, related: seq<string>)
    | PolicyDecision(decisionId: string, policy: string, decision: string, logicalId: string)
    | ApprovalRequested(approvalId: string, decisionId: string, actionDigest: string)
    | ApprovalResolved(approvalId: string, requestEvent: string, result: string)
    | OtherBody

  datatype Event = Event(id: string, runId: string, sequence: nat, producer: Producer,
                         causation: Option<string>, correlation: string, body: Body)

  /** `related_event_ids`, which fault and state evidence carry. */
  function Related(e: Event): seq<string>
  {
    if e.body.Fault? || e.body.StateEvidence? then e.body.related else []
  }

  predicate IsFault(e: Event, kind: FaultKind)
  {
    e.body.Fault? && e.body.kind == kind
  }

  // ----- Looking things up -----

  function Select(log: seq<Event>, keep: Event -> bool): seq<Event>
  {
    if log == [] then []
    else Select(Front(log), keep) + (if keep(Last(log)) then [Last(log)] else [])
  }

  function Find(log: seq<Event>, id: string): Option<Event>
  {
    if log == [] then None
    else if Last(log).id == id then Some(Last(log))
    else Find(Front(log), id)
  }

  /** The event of greatest sequence. */
  function Latest(events: seq<Event>): Event
    requires events != []
  {
    if |events| == 1 then events[0]
    else if Latest(Front(events)).sequence >= Last(events).sequence then Latest(Front(events))
    else Last(events)
  }

  ghost predicate UniqueIds(log: seq<Event>)
  {
    forall i, j :: 0 <= i < j < |log| ==> log[i].id != log[j].id
  }

  ghost predicate InOrder(events: seq<Event>)
  {
    forall i, j :: 0 <= i < j < |events| ==> events[i].sequence < events[j].sequence
  }

  ghost predicate Contains(log: seq<Event>, id: string)
  {
    exists i :: 0 <= i < |log| && log[i].id == id
  }

  function Ids(events: seq<Event>): (ids: seq<string>)
    ensures |ids| == |events| && forall i :: 0 <= i < |ids| ==> ids[i] == events[i].id
  {
    seq(|events|, i requires 0 <= i < |events| => events[i].id)
  }

  method IdsAreUnique(log: seq<Event>) returns (unique: bool)
    ensures unique <==> UniqueIds(log)
  {
    var seen: set<string> := {};
    for i := 0 to |log|
      invariant seen == set j | 0 <= j < i :: log[j].id
      invariant UniqueIds(log[..i])
    {
      if log[i].id in seen {
        return false;
      }
      seen := seen + {log[i].id};
    }
    assert log[..|log|] == log;
    return true;
  }

  // ----- Facts about any log -----

  lemma {:induction false} FindFacts(log: seq<Event>, id: string)
    ensures Find(log, id).Some? ==> Find(log, id).value in log && Find(log, id).value.id == id
    ensures UniqueIds(log) ==> forall e :: e in log && e.id == id ==> Find(log, id) == Some(e)
  {
    if log != [] {
      FindFacts(Front(log), id);
      if UniqueIds(log) {
        forall e | e in log && e.id == id
          ensures Find(log, id) == Some(e)
        {
          if e != Last(log) {
            assert e in Front(log);
          }
        }
      }
    }
  }

  lemma {:induction false} SelectFacts(log: seq<Event>, keep: Event -> bool)
    ensures forall e :: e in Select(log, keep) <==> e in log && keep(e)
  {
    if log != [] {
      SelectFacts(Front(log), keep);
      assert log == Front(log) + [Last(log)];
    }
  }

  lemma {:induction false} SelectKeepsOrder(log: seq<Event>, keep: Event -> bool)
    ensures InOrder(log) ==> InOrder(Select(log, keep))
    ensures UniqueIds(log) ==> UniqueIds(Select(log, keep))
  {
    if log != [] {
      SelectKeepsOrder(Front(log), keep);
      SelectFacts(Front(log), keep);
      forall e | e in Select(Front(log), keep)
        ensures InOrder(log) ==> e.sequence < Last(log).sequence
        ensures UniqueIds(log) ==> e.id != Last(log).id
      {
        assert e in Front(log);
      }
    }
  }

  lemma {:induction false} SelectConcat(a: seq<Event>, b: seq<Event>, keep: Event -> bool)
    ensures Select(a + b, keep) == Select(a, keep) + Select(b, keep)
  {
    if b == [] {
      assert a + b == a;
    } else {
      assert Front(a + b) == a + Front(b);
      SelectConcat(a, Front(b), keep);
    }
  }

  lemma {:induction false} SelectNone(log: seq<Event>, keep: Event -> bool)
    requires forall e :: e in log ==> !keep(e)
    ensures Select(log, keep) == []
  {
    if log != [] {
      assert Last(log) in log;
      SelectNone(Front(log), keep);
    }
  }

  lemma {:induction false} SelectAll(log: seq<Event>, keep: Event -> bool)
    requires forall e :: e in log ==> keep(e)
    ensures Select(log, keep) == log
  {
    if log != [] {
      assert log == Front(log) + [Last(log)];
      assert keep(Last(log)) && forall e :: e in Front(log) ==> e in log;
      SelectAll(Front(log), keep);
    }
  }

  /** Selecting only looks at what it is asked about the events of the log. */
  lemma {:induction false} SelectSame(log: seq<Event>, keep: Event -> bool, keep': Event -> bool)
    requires forall e :: e in log ==> keep(e) == keep'(e)
    ensures Select(log, keep) == Select(log, keep')
  {
    if log != [] {
      assert Last(log) in log;
      SelectSame(Front(log), keep, keep');
    }
  }

  function Both(first: Event -> bool, second: Event -> bool): Event -> bool
  {
    (e: Event) => first(e) && second(e)
  }

  lemma {:induction false} SelectTwice(log: seq<Event>, first: Event -> bool, keep: Event -> bool)
    ensures Select(Select(log, first), keep) == Select(log, Both(first, keep))
  {
    if log != [] {
      SelectTwice(Front(log), first, keep);
      if first(Last(log)) {
        assert Front(Select(log, first)) == Select(Front(log), first);
      } else {
        assert Select(log, first) == Select(Front(log), first);
      }
    }
  }

  lemma {:induction false} FindStable(log: seq<Event>, block: seq<Event>, id: string)
    requires UniqueIds(log + block) && Find(log, id).Some?
    ensures Find(log + block, id) == Find(log, id)
  {
    FindFacts(log, id);
    FindFacts(log + block, id);
    assert Find(log, id).value in log + block;
  }

  lemma SelectStable(log: seq<Event>, block: seq<Event>, keep: Event -> bool)
    requires forall e :: e in block ==> !keep(e)
    ensures Select(log + block, keep) == Select(log, keep)
  {
    SelectConcat(log, block, keep);
    SelectNone(block, keep);
  }

  lemma LaterThan(log: seq<Event>, block: seq<Event>, x: Event, e: Event)
    requires InOrder(log + block) && x in log && e in block
    ensures x.sequence < e.sequence
  {
    var i :| 0 <= i < |log| && log[i] == x;
    var j :| 0 <= j < |block| && block[j] == e;
    assert (log + block)[i] == x && (log + block)[|log| + j] == e;
  }

  lemma NewIsNotOld(log: seq<Event>, block: seq<Event>, x: Event, e: Event)
    requires UniqueIds(log + block) && x in log && e in block
    ensures x.id != e.id
  {
    var i :| 0 <= i < |log| && log[i] == x;
    var j :| 0 <= j < |block| && block[j] == e;
    assert (log + block)[i] == x && (log + block)[|log| + j] == e;
  }

  lemma {:induction false} LatestFacts(events: seq<Event>)
    requires events != []
    ensures Latest(events) in events
    ensures forall e :: e in events ==> e.sequence <= Latest(events).sequence
  {
    if |events| > 1 {
      LatestFacts(Front(events));
      assert events == Front(events) + [Last(events)];
    }
  }

  /** Two increasing sequences of the same events are the same sequence. */
  lemma {:induction false} SameEvents(a: seq<Event>, b: seq<Event>)
    requires InOrder(a) && InOrder(b)
    requires forall e :: e in a <==> e in b
    ensures a == b
  {
    assert (a != [] ==> a[0] in a) && (b != [] ==> b[0] in b);
    if a != [] && b != [] {
      var x, y := Last(a), Last(b);
      assert x in b && y in a;
      assert x == y;
      forall e
        ensures e in Front(a) <==> e in Front(b)
      {
        assert a == Front(a) + [x] && b == Front(b) + [y];
        if e in Front(a) { assert e in a && e.sequence < x.sequence; }
        if e in Front(b) { assert e in b && e.sequence < y.sequence; }
      }
      SameEvents(Front(a), Front(b));
      assert a == Front(a) + [x] && b == Front(b) + [y];
    }
  }
}
