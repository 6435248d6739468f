/** `sortAndMergeEvents`: the client's list of events, merged with what is replayed. */
module EventLists {
  import opened Prelude
  import opened RunEvents

  /** Neither identities nor sequences repeat. */
  ghost predicate Keyed(events: seq<Event>)
  {
    forall i, j :: 0 <= i < j < |events| ==> events[i].id != events[j].id && events[i].sequence != events[j].sequence
  }

  predicate Clashes(events: seq<Event>, e: Event)
  {
    exists x :: x in events && (x.id == e.id || x.sequence == e.sequence)
  }

  /** `Map.set` by identity: in place of an earlier entry, or at the end. */
  function SetById(values: seq<Event>, e: Event): seq<Event>
  {
    if values == [] then [e]
    else if Last(values).id == e.id then Front(values) + [e]
    else SetById(Front(values), e) + [Last(values)]
  }

  function Entries(events: seq<Event>): seq<Event>
  {
    if events == [] then []
    else
      var before := Entries(Front(events));
      if exists x :: x in before && x.id == Last(events).id then SetById(before, Last(events)) else before + [Last(events)]
  }

  function Ids(events: seq<Event>): set<string>
  {
    set e | e in events :: e.id
  }

  function Sequences(events: seq<Event>): set<nat>
  {
    set e | e in events :: e.sequence
  }

  /** What each incoming event does: added unless its identity or its sequence is taken. A sequence in
      `occupied` is taken even where its event was overwritten by a later one of the same identity. */
  function Added(values: seq<Event>, occupied: set<nat>, incoming: seq<Event>): seq<Event>
  {
    if incoming == [] then values
    else
      var before, e := Added(values, occupied, Front(incoming)), Last(incoming);
      if e.id in Ids(before) || e.sequence in occupied + Sequences(before) then before else before + [e]
  }

  function InsertBySequence(sorted: seq<Event>, e: Event): seq<Event>
  {
    if sorted == [] then [e]
    else if e.sequence < Last(sorted).sequence then InsertBySequence(Front(sorted), e) + [Last(sorted)]
    else sorted + [e]
  }

  function SortBySequence(events: seq<Event>): seq<Event>
  {
    if events == [] then [] else InsertBySequence(SortBySequence(Front(events)), Last(events))
  }

  function Merged(current: seq<Event>, incoming: seq<Event>): seq<Event>
  {
    SortBySequence(Added(Entries(current), Sequences(current), incoming))
  }

  lemma {:induction false} EntriesOfKeyed(events: seq<Event>)
    requires Keyed(events)
    ensures Entries(events) == events
  {
    if events != [] {
      EntriesOfKeyed(Front(events));
      assert events == Front(events) + [Last(events)];
    }
  }

  method SortAndMerge(current: seq<Event>, incoming: seq<Event>) returns (merged: seq<Event>)
    ensures merged == Merged(current, incoming)
  {
    var values: seq<Event> := [];
    for i := 0 to |current|
      invariant values == Entries(current[..i])
    {
      assert Front(current[..i + 1]) == current[..i];
      values := if exists x :: x in values && x.id == current[i].id then SetById(values, current[i]) else values + [current[i]];
    }
    assert current[..|current|] == current;
    ghost var entries := values;
    EntriesMembers(current);
    var ids, sequences := Ids(values), Sequences(current);
    for i := 0 to |incoming|
      invariant values == Added(entries, Sequences(current), incoming[..i])
      invariant ids == Ids(values) && sequences == Sequences(current) + Sequences(values)
    {
      var event := incoming[i];
      assert Front(incoming[..i + 1]) == incoming[..i];
      if event.id in ids || event.sequence in sequences {
        continue;
      }
      KeysExtend(values, event);
      values := values + [event];
      ids, sequences := ids + {event.id}, sequences + {event.sequence};
    }
    assert incoming[..|incoming|] == incoming;
    return SortBySequence(values);
  }

  lemma KeysExtend(events: seq<Event>, e: Event)
    ensures Ids(events + [e]) == Ids(events) + {e.id} && Sequences(events + [e]) == Sequences(events) + {e.sequence}
  {
  }

  lemma {:induction false} SetByIdMembers(values: seq<Event>, e: Event)
    ensures forall x :: x in SetById(values, e) ==> x in values || x == e
  {
    if values != [] {
      SetByIdMembers(Front(values), e);
    }
  }

  lemma {:induction false} EntriesMembers(events: seq<Event>)
    ensures forall e :: e in Entries(events) ==> e in events
  {
    if events != [] {
      EntriesMembers(Front(events));
      SetByIdMembers(Entries(Front(events)), Last(events));
    }
  }

  lemma {:induction false} AddedFacts(values: seq<Event>, incoming: seq<Event>)
    requires Keyed(values)
    ensures var added := Added(values, Sequences(values), incoming);
            && Keyed(added) && values <= added
            && (forall e :: e in added ==> e in values || e in incoming)
            && (forall e :: e in incoming ==> Clashes(added, e))
  {
    if incoming != [] {
      AddedFacts(values, Front(incoming));
      assert incoming == Front(incoming) + [Last(incoming)];
      var before, e := Added(values, Sequences(values), Front(incoming)), Last(incoming);
      var after := Added(values, Sequences(values), incoming);
      TakenClashes(values, before, e);
      if !Clashes(before, e) {
        assert e in after;
        KeyedExtends(before, e);
      }
      ClashesGrow(before, after);
    }
  }

  /** Where nothing was overwritten, what is taken is what is there. */
  lemma TakenClashes(values: seq<Event>, before: seq<Event>, e: Event)
    requires values <= before
    ensures e.id in Ids(before) || e.sequence in Sequences(values) + Sequences(before) <==> Clashes(before, e)
  {
  }

  lemma ClashesGrow(before: seq<Event>, after: seq<Event>)
    requires before <= after
    ensures forall e :: Clashes(before, e) ==> Clashes(after, e)
  {
    forall e | Clashes(before, e)
      ensures Clashes(after, e)
    {
      var x :| x in before && (x.id == e.id || x.sequence == e.sequence);
      assert x in after;
    }
  }

  lemma KeyedExtends(events: seq<Event>, e: Event)
    requires Keyed(events) && !Clashes(events, e)
    ensures Keyed(events + [e])
  {
  }

  lemma {:induction false} InsertFacts(sorted: seq<Event>, e: Event)
    requires InOrder(sorted) && forall x :: x in sorted ==> x.sequence != e.sequence
    ensures InOrder(InsertBySequence(sorted, e))
    ensures forall x :: x in InsertBySequence(sorted, e) <==> x in sorted || x == e
  {
    if sorted != [] {
      assert sorted == Front(sorted) + [Last(sorted)];
      if e.sequence < Last(sorted).sequence {
        InsertFacts(Front(sorted), e);
        var inserted := InsertBySequence(Front(sorted), e);
        forall i | 0 <= i < |inserted|
          ensures inserted[i].sequence < Last(sorted).sequence
        {
          assert inserted[i] in inserted;
        }
      }
    }
  }

  lemma {:induction false} SortFacts(events: seq<Event>)
    requires Keyed(events)
    ensures InOrder(SortBySequence(events))
    ensures forall x :: x in SortBySequence(events) <==> x in events
  {
    if events != [] {
      SortFacts(Front(events));
      assert events == Front(events) + [Last(events)];
      forall x | x in Front(events)
        ensures x.sequence != Last(events).sequence
      {
        var i :| 0 <= i < |events| - 1 && events[i] == x;
      }
      InsertFacts(SortBySequence(Front(events)), Last(events));
    }
  }

  lemma KeyedMembers(sorted: seq<Event>, events: seq<Event>)
    requires Keyed(events) && InOrder(sorted) && forall x :: x in sorted <==> x in events
    ensures UniqueIds(sorted)
  {
    forall i, j | 0 <= i < j < |sorted|
      ensures sorted[i].id != sorted[j].id
    {
      assert sorted[i] in sorted && sorted[j] in sorted && sorted[i].sequence < sorted[j].sequence;
      var m :| 0 <= m < |events| && events[m] == sorted[i];
      var n :| 0 <= n < |events| && events[n] == sorted[j];
      assert m < n || n < m;
    }
  }

  /** A list that repeats an identity keeps the sequence of the event it overwrote taken. */
  lemma OverwrittenSequenceIsTaken(first: Event, second: Event, other: Event)
    requires first.id == second.id != other.id && first.sequence == other.sequence != second.sequence
    ensures Merged([first, second], [other]) == [second] && !Clashes(Merged([first, second], [other]), other)
  {
    var current := [first, second];
    assert Front(current) == [first] && Front([first]) == [] && Front([other]) == [] && Front([second]) == [];
    assert Entries([]) == [] && Entries([first]) == [first];
    assert first in Entries([first]) && Entries(current) == SetById([first], second) == [second];
    assert first in current && first.sequence in Sequences(current);
    assert Added([second], Sequences(current), [other]) == [second];
    assert SortBySequence([second]) == [second];
  }

  /** From a list without repeated identities or sequences, merging anything whatever gives a list in
      sequence order without repeated identities or sequences, which keeps every event of the list and
      leaves an incoming event out only where its identity or its sequence was taken. */
  lemma MergeKeepsOrder(current: seq<Event>, incoming: seq<Event>)
    requires Keyed(current)
    ensures var merged := Merged(current, incoming);
            && InOrder(merged) && UniqueIds(merged)
            && (forall e :: e in current ==> e in merged)
            && (forall e :: e in merged ==> e in current || e in incoming)
            && (forall e :: e in incoming && e !in merged ==> Clashes(merged, e))
  {
    EntriesOfKeyed(current);
    AddedFacts(current, incoming);
    var added := Added(current, Sequences(current), incoming);
    SortFacts(added);
    KeyedMembers(SortBySequence(added), added);
    forall e | e in incoming
      ensures Clashes(Merged(current, incoming), e)
    {
      var x :| x in added && (x.id == e.id || x.sequence == e.sequence);
      assert x in Merged(current, incoming);
    }
  }

  /** For events of one log the result is the log's own order of exactly the events of either list, so
      merging a replayed tail again, or in any order, changes nothing. */
  lemma MergeIsUnion(log: seq<Event>, current: seq<Event>, incoming: seq<Event>)
    requires UniqueIds(log) && InOrder(log) && Keyed(current)
    requires (forall e :: e in current ==> e in log) && (forall e :: e in incoming ==> e in log)
    ensures Merged(current, incoming) == Select(log, (e: Event) => e in current || e in incoming)
  {
    var keep := (e: Event) => e in current || e in incoming;
    var merged := Merged(current, incoming);
    MergeKeepsOrder(current, incoming);
    SelectFacts(log, keep);
    SelectKeepsOrder(log, keep);
    forall e | e in incoming
      ensures e in merged
    {
      if e !in merged {
        var x :| x in merged && (x.id == e.id || x.sequence == e.sequence);
        SameKeySameEvent(log, x, e);
      }
    }
    SameEvents(merged, Select(log, keep));
  }

  lemma SameKeySameEvent(log: seq<Event>, x: Event, e: Event)
    requires UniqueIds(log) && InOrder(log) && x in log && e in log && (x.id == e.id || x.sequence == e.sequence)
    ensures x == e
  {
    var m :| 0 <= m < |log| && log[m] == x;
    var n :| 0 <= n < |log| && log[n] == e;
  }
}
