/** `validate_run_event_stream_v0`: one ordered stream, its references, and its prefixes. */
module EventStreams {
  import opened Prelude
  import opened RunEvents

  // ----- The checks -----

  ghost predicate OneRun(log: seq<Event>)
  {
    forall e, e' :: e in log && e' in log ==> e.runId == e'.runId
  }

  predicate SameCall(result: Event, request: Event)
    requires result.body.ToolResulted? && request.body.ToolRequested?
  {
    && result.body.logicalId == request.body.logicalId
    && result.body.attemptId == request.body.attemptId
    && result.body.attempt == request.body.attempt
    && result.body.toolId == request.body.toolId
  }

  /** A result answers a request that precedes it in the stream. */
  predicate Answers(before: seq<Event>, e: Event)
  {
    e.body.ToolResulted? ==>
      var request := Find(before, e.body.requestEvent);
      request.Some? && request.value.body.ToolRequested? && SameCall(e, request.value)
  }

  function References(e: Event): seq<string>
  {
    (if e.causation.Some? then [e.causation.value] else []) + Related(e)
  }

  /** Every reference is to an event of the stream of smaller sequence. */
  ghost predicate Grounded(log: seq<Event>, e: Event)
  {
    forall id :: id in References(e) ==> Find(log, id).Some? && Find(log, id).value.sequence < e.sequence
  }

  function RequestAttempts(log: seq<Event>): seq<string>
  {
    if log == [] then []
    else RequestAttempts(Front(log)) + (if Last(log).body.ToolRequested? then [Last(log).body.attemptId] else [])
  }

  function ResultAttempts(log: seq<Event>): seq<string>
  {
    if log == [] then []
    else ResultAttempts(Front(log)) + (if Last(log).body.ToolResulted? then [Last(log).body.attemptId] else [])
  }

  ghost predicate Enveloped(log: seq<Event>, complete: bool)
  {
    OneRun(log) && UniqueIds(log) && InOrder(log) && (complete && log != [] ==> log[0].sequence == 1)
  }

  ghost predicate Linked(log: seq<Event>, complete: bool, i: nat)
    requires i < |log|
  {
    Answers(log[..i], log[i]) && (complete ==> Grounded(log, log[i]))
  }

  ghost predicate LinkedUpTo(log: seq<Event>, complete: bool, n: nat)
    requires n <= |log|
  {
    forall i :: 0 <= i < n ==> Linked(log, complete, i)
  }

  ghost predicate ValidStream(log: seq<Event>, complete: bool)
  {
    && log != []
    && Enveloped(log, complete)
    && LinkedUpTo(log, complete, |log|)
    && Distinct(RequestAttempts(log)) && Distinct(ResultAttempts(log))
  }

  method ValidateStream(log: seq<Event>, complete: bool) returns (ok: bool)
    ensures ok <==> ValidStream(log, complete)
  {
    if log == [] {
      return false;
    }
    ok := CheckEnvelope(log, complete);
    var requests, results := [], [];
    var known: map<string, Event> := map[];
    for i := 0 to |log|
      invariant requests == RequestAttempts(log[..i]) && results == ResultAttempts(log[..i])
      invariant Requests(log[..i], known)
      invariant ok <==> Enveloped(log, complete) && LinkedUpTo(log, complete, i)
    {
      var e := log[i];
      assert log[..i + 1] == log[..i] + [e] && Front(log[..i + 1]) == log[..i];
      ok := CheckNext(log, complete, i, known, ok);
      RequestsExtend(log[..i], known, e);
      if e.body.ToolRequested? {
        known := known[e.id := e];
        requests := requests + [e.body.attemptId];
      } else if e.body.ToolResulted? {
        results := results + [e.body.attemptId];
      }
    }
    assert log[..|log|] == log;
    var once := NoDuplicates(requests);
    var once' := NoDuplicates(results);
    ok := ok && once && once';
  }

  method CheckNext(log: seq<Event>, complete: bool, i: nat, known: map<string, Event>, sofar: bool) returns (ok: bool)
    requires i < |log| && Requests(log[..i], known)
    requires sofar <==> Enveloped(log, complete) && LinkedUpTo(log, complete, i)
    ensures ok <==> Enveloped(log, complete) && LinkedUpTo(log, complete, i + 1)
  {
    ok := sofar && Answered(known, log[i]);
    if complete {
      var grounded := CheckReferences(log, log[i]);
      ok := ok && grounded;
    }
    PrefixIsUnique(log, i);
    RequestsAnswer(log[..i], known, log[i]);
    assert LinkedUpTo(log, complete, i + 1) <==> LinkedUpTo(log, complete, i) && Linked(log, complete, i);
  }

  predicate Answered(known: map<string, Event>, e: Event)
  {
    e.body.ToolResulted? ==>
      && e.body.requestEvent in known
      && known[e.body.requestEvent].body.ToolRequested?
      && SameCall(e, known[e.body.requestEvent])
  }

  lemma RequestsExtend(log: seq<Event>, known: map<string, Event>, e: Event)
    requires Requests(log, known)
    ensures Requests(log + [e], if e.body.ToolRequested? then known[e.id := e] else known)
  {
  }

  ghost predicate Requests(log: seq<Event>, known: map<string, Event>)
  {
    && (forall id :: id in known ==> known[id] in log && known[id].id == id && known[id].body.ToolRequested?)
    && (forall e :: e in log && e.body.ToolRequested? ==> e.id in known)
  }

  lemma PrefixIsUnique(log: seq<Event>, n: nat)
    requires n <= |log|
    ensures UniqueIds(log) ==> UniqueIds(log[..n])
    ensures InOrder(log) ==> InOrder(log[..n])
  {
  }

  lemma RequestsAnswer(log: seq<Event>, known: map<string, Event>, e: Event)
    requires Requests(log, known)
    ensures UniqueIds(log) ==> (Answers(log, e) <==> Answered(known, e))
  {
    if e.body.ToolResulted? && UniqueIds(log) {
      FindFacts(log, e.body.requestEvent);
    }
  }

  method CheckEnvelope(log: seq<Event>, complete: bool) returns (ok: bool)
    requires log != []
    ensures ok <==> Enveloped(log, complete)
  {
    ok := IdsAreUnique(log);
    for i := 0 to |log|
      invariant ok <==> UniqueIds(log) && (forall j :: 0 <= j < i ==> log[j].runId == log[0].runId)
    {
      ok := ok && log[i].runId == log[0].runId;
    }
    assert OneRun(log) <==> forall j :: 0 <= j < |log| ==> log[j].runId == log[0].runId;
    ok := ok && !(complete && log[0].sequence != 1);
    for i := 1 to |log|
      invariant ok <==> OneRun(log) && UniqueIds(log) && (complete ==> log[0].sequence == 1) && InOrder(log[..i])
    {
      assert log[..i + 1] == log[..i] + [log[i]];
      if log[i].sequence <= log[i - 1].sequence {
        assert log[..i + 1][i - 1] == log[i - 1];
        ok := false;
      } else {
        assert InOrder(log[..i]) ==> InOrder(log[..i + 1]);
        PrefixInOrder(log, i);
      }
    }
    assert log[..|log|] == log;
  }

  lemma PrefixInOrder(log: seq<Event>, i: nat)
    requires i < |log|
    ensures InOrder(log[..i + 1]) ==> InOrder(log[..i])
  {
    if InOrder(log[..i + 1]) {
      forall j, k | 0 <= j < k < i
        ensures log[..i][j].sequence < log[..i][k].sequence
      {
        assert log[..i + 1][j] == log[j] && log[..i + 1][k] == log[k];
      }
    }
  }

  method CheckReferences(log: seq<Event>, e: Event) returns (ok: bool)
    ensures ok <==> Grounded(log, e)
  {
    var ids := References(e);
    for i := 0 to |ids|
      invariant forall j :: 0 <= j < i ==> Find(log, ids[j]).Some? && Find(log, ids[j]).value.sequence < e.sequence
    {
      if Find(log, ids[i]).None? || Find(log, ids[i]).value.sequence >= e.sequence {
        assert ids[i] in ids;
        return false;
      }
    }
    return true;
  }

  // ----- Cutting a stream -----

  lemma {:induction false} PrefixFind(log: seq<Event>, n: nat, e: Event)
    requires UniqueIds(log) && InOrder(log) && 0 < n <= |log| && e in log
    requires e.sequence < log[n - 1].sequence
    ensures Find(log[..n], e.id) == Some(e)
  {
    var i :| 0 <= i < |log| && log[i] == e;
    assert i < n;
    assert log[..n][i] == e;
    PrefixIsUnique(log, n);
    FindFacts(log[..n], e.id);
  }

  lemma {:induction false} AttemptsOfPrefix(log: seq<Event>, n: nat)
    requires n <= |log|
    ensures RequestAttempts(log[..n]) <= RequestAttempts(log)
    ensures ResultAttempts(log[..n]) <= ResultAttempts(log)
  {
    if n == |log| {
      assert log[..n] == log;
    } else {
      AttemptsOfPrefix(Front(log), n);
      assert Front(log)[..n] == log[..n];
    }
  }

  /** A complete valid stream may be cut anywhere: what is left of it is a complete valid stream, so no
      reference dangles and no result lacks its request. */
  lemma PrefixIsValid(log: seq<Event>, n: nat)
    requires ValidStream(log, true) && 0 < n <= |log|
    ensures ValidStream(log[..n], true)
  {
    var cut := log[..n];
    PrefixIsUnique(log, n);
    AttemptsOfPrefix(log, n);
    forall i | 0 <= i < |cut|
      ensures Linked(cut, true, i)
    {
      assert cut[..i] == log[..i] && cut[i] == log[i];
      assert Linked(log, true, i);
      PrefixGrounded(log, n, log[i]);
    }
  }

  lemma PrefixGrounded(log: seq<Event>, n: nat, e: Event)
    requires UniqueIds(log) && InOrder(log) && 0 < n <= |log| && e in log[..n] && Grounded(log, e)
    ensures Grounded(log[..n], e)
  {
    var i :| 0 <= i < n && log[i] == e;
    forall id | id in References(e)
      ensures Find(log[..n], id).Some? && Find(log[..n], id).value.sequence < e.sequence
    {
      FindFacts(log, id);
      var x := Find(log, id).value;
      assert e.sequence <= log[n - 1].sequence;
      PrefixFind(log, n, x);
    }
  }

  /** Following references backwards, in any way, never comes back: they form no cycle. */
  lemma {:induction false} ReferencesDescend(log: seq<Event>, path: seq<Event>)
    requires ValidStream(log, true) && |path| > 1
    requires forall i :: 0 <= i < |path| ==> path[i] in log
    requires forall i :: 0 <= i < |path| - 1 ==> path[i + 1].id in References(path[i])
    ensures Last(path).sequence < path[0].sequence && Last(path).id != path[0].id
  {
    var e, next := path[|path| - 2], Last(path);
    FindFacts(log, next.id);
    var i :| 0 <= i < |log| && log[i] == e;
    assert Linked(log, true, i);
    assert next.sequence < e.sequence;
    if |path| > 2 {
      ReferencesDescend(log, Front(path));
    }
    if next.id == path[0].id {
      FindFacts(log, path[0].id);
    }
  }

  // ----- What the request before an in-flight request knows -----

  /** In a complete valid stream, what an event's identity names appears only after the event. */
  lemma NothingRefersAhead(log: seq<Event>, n: nat, e: Event)
    requires ValidStream(log, true) && n < |log| && log[n] == e
    ensures forall x :: x in log[..n] ==> e.id != x.id && e.id !in References(x)
    ensures forall x :: x in log[..n] && x.body.ToolResulted? ==> x.body.requestEvent != e.id
    ensures e.body.ToolRequested? ==>
              forall x :: x in log[..n] && x.body.ToolRequested? ==> x.body.attemptId != e.body.attemptId
  {
    forall x | x in log[..n]
      ensures e.id != x.id && e.id !in References(x)
      ensures x.body.ToolResulted? ==> x.body.requestEvent != e.id
      ensures e.body.ToolRequested? && x.body.ToolRequested? ==> x.body.attemptId != e.body.attemptId
    {
      var i :| 0 <= i < n && log[i] == x;
      assert log[i].sequence < log[n].sequence;
      FindFacts(log, e.id);
      assert Linked(log, true, i);
      FindFacts(log[..i], e.id);
      if e.body.ToolRequested? && x.body.ToolRequested? {
        AttemptsApart(log, i, n);
      }
    }
  }

  lemma AttemptAt(log: seq<Event>, i: nat)
    requires i < |log| && log[i].body.ToolRequested?
    ensures RequestAttempts(log[..i + 1]) == RequestAttempts(log[..i]) + [log[i].body.attemptId]
    ensures |RequestAttempts(log)| > |RequestAttempts(log[..i])|
    ensures RequestAttempts(log)[|RequestAttempts(log[..i])|] == log[i].body.attemptId
  {
    assert Front(log[..i + 1]) == log[..i] && Last(log[..i + 1]) == log[i];
    AttemptsOfPrefix(log, i + 1);
  }

  lemma AttemptsApart(log: seq<Event>, i: nat, j: nat)
    requires i < j < |log| && log[i].body.ToolRequested? && log[j].body.ToolRequested?
    requires Distinct(RequestAttempts(log))
    ensures log[i].body.attemptId != log[j].body.attemptId
  {
    AttemptAt(log, i);
    AttemptAt(log, j);
    AttemptsOfPrefix(log[..j], i + 1);
    assert log[..j][..i + 1] == log[..i + 1];
  }
}
