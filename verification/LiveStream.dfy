/** The live event stream: the polling server, the reconnecting client, and the merged event list. */
module LiveStream {
  import opened Prelude
  import opened RunEvents

  // ----- The server -----

  function Past(sequence: nat): Event -> bool
  {
    (e: Event) => e.sequence > sequence
  }

  /** The events of the log after a sequence. */
  function After(log: seq<Event>, sequence: nat): seq<Event>
  {
    Select(log, Past(sequence))
  }

  /** What one poll finds: the log so far, whether the run has ended, and, if the client is found to be
      gone, after how many records of the page (0 for before the poll itself). */
  datatype Poll = Poll(log: seq<Event>, terminal: bool, gone: Option<nat>)

  /** Each poll finds the log of the one before, or more. */
  ghost predicate Growing(polls: seq<Poll>)
  {
    polls != [] ==>
      && Growing(Front(polls)) && InOrder(Last(polls).log)
      && (|polls| > 1 ==> Last(Front(polls)).log <= Last(polls).log)
  }

  lemma {:induction false} GrowsFrom(polls: seq<Poll>, i: nat)
    requires Growing(polls) && i < |polls|
    ensures InOrder(polls[i].log) && polls[i].log <= Last(polls).log
  {
    if i < |polls| - 1 {
      GrowsFrom(Front(polls), i);
      assert Front(polls)[i] == polls[i];
    }
  }

  lemma AfterGrows(log: seq<Event>, longer: seq<Event>, sequence: nat)
    requires log <= longer
    ensures After(log, sequence) <= After(longer, sequence)
  {
    assert longer == log + longer[|log|..];
    SelectConcat(log, longer[|log|..], Past(sequence));
  }

  /** Resuming after the last event sent leaves out exactly what was sent. */
  lemma {:induction false} Resumes(log: seq<Event>, start: nat, n: nat)
    requires InOrder(log) && 0 < n <= |After(log, start)|
    ensures After(log, After(log, start)[n - 1].sequence) == After(log, start)[n..]
  {
    var all := After(log, start);
    SelectKeepsOrder(log, Past(start));
    SelectFacts(log, Past(start));
    var last := all[n - 1];
    assert last in all;
    Narrowing(log, start, last.sequence);
    SelectTail(all, n);
  }

  lemma Narrowing(log: seq<Event>, start: nat, later: nat)
    requires start <= later
    ensures After(log, later) == Select(After(log, start), Past(later))
  {
    SelectTwice(log, Past(start), Past(later));
    SelectSame(log, Past(later), Both(Past(start), Past(later)));
  }

  lemma SelectTail(all: seq<Event>, n: nat)
    requires InOrder(all) && 0 < n <= |all|
    ensures Select(all, Past(all[n - 1].sequence)) == all[n..]
  {
    var keep := Past(all[n - 1].sequence);
    assert all == all[..n] + all[n..];
    SelectConcat(all[..n], all[n..], keep);
    SelectNone(all[..n], keep);
    SelectAll(all[n..], keep);
  }

  /** How a stream stands: still open, complete after the run's end, or cut short. */
  datatype Ending = Open | Complete | CutShort

  datatype Served = Served(sent: seq<Event>, ending: Ending)

  /** How many of a page's records are sent before one whose type cannot be framed. */
  function Framable(framed: Event -> bool, records: seq<Event>): (n: nat)
    ensures n <= |records|
  {
    if records == [] || !framed(records[0]) then 0 else 1 + Framable(framed, records[1..])
  }

  function PageOf(log: seq<Event>, after: nat, page: nat): seq<Event>
  {
    var found := After(log, after);
    if |found| > page then found[..page] else found
  }

  /** How much of a page is sent before the stream ends within it, if it does. */
  function Sendable(framed: Event -> bool, poll: Poll, records: seq<Event>): (n: nat)
    ensures n <= |records|
  {
    var n := Framable(framed, records);
    if poll.gone.Some? && poll.gone.value < n then poll.gone.value else n
  }

  predicate EndsWithin(framed: Event -> bool, poll: Poll, records: seq<Event>)
  {
    var n := Framable(framed, records);
    n < |records| || (poll.gone.Some? && poll.gone.value <= n)
  }

  function Resume(sent: seq<Event>, start: nat): nat
  {
    if sent == [] then start else Last(sent).sequence
  }

  function ServeOne(framed: Event -> bool, poll: Poll, start: nat, page: nat, sent: seq<Event>): Served
  {
    var records := PageOf(poll.log, Resume(sent, start), page);
    Served(sent + records[..Sendable(framed, poll, records)],
           if EndsWithin(framed, poll, records) then CutShort
           else if |records| < page && poll.terminal then Complete else Open)
  }

  /** What the loop sends over some polls. */
  function Serve(framed: Event -> bool, polls: seq<Poll>, start: nat, page: nat): Served
  {
    if polls == [] then Served([], Open)
    else
      var before := Serve(framed, Front(polls), start, page);
      if before.ending != Open then before else ServeOne(framed, Last(polls), start, page, before.sent)
  }

  lemma {:induction false} EndedStays(framed: Event -> bool, polls: seq<Poll>, n: nat, start: nat, page: nat)
    requires n <= |polls| && Serve(framed, polls[..n], start, page).ending != Open
    ensures Serve(framed, polls, start, page) == Serve(framed, polls[..n], start, page)
  {
    if n == |polls| {
      assert polls[..n] == polls;
    } else {
      assert Front(polls)[..n] == polls[..n];
      EndedStays(framed, Front(polls), n, start, page);
    }
  }

  /** The loop of `RunEventStream.frames`: pages in order, until the client is gone, a record cannot be
      framed, or the run has ended and a page is not full. */
  method Frames(framed: Event -> bool, polls: seq<Poll>, start: nat, page: nat) returns (served: Served)
    ensures served == Serve(framed, polls, start, page)
  {
    var sent, after := [], start;
    for i := 0 to |polls|
      invariant Serve(framed, polls[..i], start, page) == Served(sent, Open) && after == Resume(sent, start)
    {
      assert Front(polls[..i + 1]) == polls[..i] && Last(polls[..i + 1]) == polls[i];
      var records := PageOf(polls[i].log, after, page);
      var quit := polls[i].gone == Some(0);
      if !quit {
        sent, after, quit := SendPage(framed, polls[i], start, sent, after, records);
      }
      if quit {
        EndedStays(framed, polls, i + 1, start, page);
        return Served(sent, CutShort);
      }
      if |records| == page {
        continue;
      }
      if polls[i].terminal {
        EndedStays(framed, polls, i + 1, start, page);
        return Served(sent, Complete);
      }
    }
    assert polls[..|polls|] == polls;
    return Served(sent, Open);
  }

  /** One page: its records are sent in order, each moving on where the next poll starts. */
  method SendPage(framed: Event -> bool, poll: Poll, start: nat, sent: seq<Event>, after: nat, records: seq<Event>)
    returns (sent': seq<Event>, after': nat, quit: bool)
    requires poll.gone != Some(0) && after == Resume(sent, start)
    ensures sent' == sent + records[..Sendable(framed, poll, records)] && after' == Resume(sent', start)
    ensures quit <==> EndsWithin(framed, poll, records)
  {
    sent', after' := sent, after;
    for r := 0 to |records|
      invariant sent' == sent + records[..r] && after' == Resume(sent', start)
      invariant Framable(framed, records) == r + Framable(framed, records[r..])
      invariant poll.gone.Some? ==> poll.gone.value > r
    {
      if !framed(records[r]) {
        return sent', after', true;
      }
      sent' := sent' + [records[r]];
      after' := records[r].sequence;
      if poll.gone == Some(r + 1) {
        return sent', after', true;
      }
    }
    return sent', after', false;
  }

  lemma NextPage(log: seq<Event>, start: nat, sent: seq<Event>)
    requires InOrder(log) && sent <= After(log, start)
    ensures sent + After(log, Resume(sent, start)) == After(log, start)
  {
    if sent != [] {
      Resumes(log, start, |sent|);
    }
  }

  lemma OnePoll(framed: Event -> bool, poll: Poll, start: nat, page: nat, sent: seq<Event>)
    requires InOrder(poll.log) && sent <= After(poll.log, start)
    ensures var served := ServeOne(framed, poll, start, page, sent);
            && served.sent <= After(poll.log, start)
            && (served.ending != CutShort ==>
                  served.sent == After(poll.log, start) || |served.sent| == |sent| + page)
            && (served.ending == Complete ==> poll.terminal && served.sent == After(poll.log, start))
  {
    NextPage(poll.log, start, sent);
  }

  /** What is sent is always the beginning of what was asked for, and a stream is complete only after the
      run's end and after all of it. */
  lemma {:induction false} SentIsPrefix(framed: Event -> bool, polls: seq<Poll>, start: nat, page: nat)
    requires Growing(polls)
    ensures var served := Serve(framed, polls, start, page);
            && (polls == [] ==> served.sent == [])
            && (polls != [] ==> served.sent <= After(Last(polls).log, start))
            && (served.ending == Complete ==>
                  exists i :: 0 <= i < |polls| && polls[i].terminal && served.sent == After(polls[i].log, start))
  {
    if polls != [] {
      var before, last := Front(polls), Last(polls);
      SentIsPrefix(framed, before, start, page);
      if before != [] {
        AfterGrows(Last(before).log, last.log, start);
      }
      var had := Serve(framed, before, start, page);
      if had.ending == Open {
        OnePoll(framed, last, start, page, had.sent);
        assert last == polls[|polls| - 1];
      } else if had.ending == Complete {
        var i :| 0 <= i < |before| && before[i].terminal && had.sent == After(before[i].log, start);
        assert polls[i] == before[i];
      }
    }
  }

  /** A stream still open has sent a whole page at the last poll, or everything the poll found. */
  lemma LastPage(framed: Event -> bool, polls: seq<Poll>, start: nat, page: nat)
    requires Growing(polls) && polls != [] && Serve(framed, polls, start, page).ending == Open
    ensures var sent, before := Serve(framed, polls, start, page).sent, Serve(framed, Front(polls), start, page);
            && before.ending == Open && before.sent <= sent
            && (sent == After(Last(polls).log, start) || |sent| == |before.sent| + page)
  {
    var before, last := Front(polls), Last(polls);
    SentIsPrefix(framed, before, start, page);
    if before != [] {
      AfterGrows(Last(before).log, last.log, start);
    }
    SentOnlyGrows(framed, polls, start, page);
    OnePoll(framed, last, start, page, Serve(framed, before, start, page).sent);
  }

  /** Of everything due, at least n pages have been sent. */
  ghost predicate CaughtUp(due: seq<Event>, sent: seq<Event>, n: nat, page: nat)
  {
    due <= sent || |sent| >= n * page
  }

  /** Each of the last n polls found all that is due. */
  ghost predicate DueIn(polls: seq<Poll>, start: nat, due: seq<Event>, n: nat)
  {
    n > 0 ==> polls != [] && due <= After(Last(polls).log, start) && DueIn(Front(polls), start, due, n - 1)
  }

  lemma {:induction false} FoundIsDue(polls: seq<Poll>, start: nat, n: nat)
    requires Growing(polls) && 0 < n <= |polls|
    ensures DueIn(polls, start, After(polls[|polls| - n].log, start), n)
  {
    GrowsFrom(polls, |polls| - n);
    AfterGrows(polls[|polls| - n].log, Last(polls).log, start);
    if n > 1 {
      FoundIsDue(Front(polls), start, n - 1);
    }
  }

  lemma {:induction false} DueIsSent(framed: Event -> bool, polls: seq<Poll>, start: nat, page: nat, due: seq<Event>, n: nat)
    requires Growing(polls) && DueIn(polls, start, due, n) && Serve(framed, polls, start, page).ending == Open
    ensures CaughtUp(due, Serve(framed, polls, start, page).sent, n, page)
  {
    if n > 0 {
      LastPage(framed, polls, start, page);
      DueIsSent(framed, Front(polls), start, page, due, n - 1);
      CatchesUp(due, After(Last(polls).log, start), Serve(framed, Front(polls), start, page).sent,
                Serve(framed, polls, start, page).sent, n, page);
    }
  }

  /** From any poll on, each of the n polls sends a whole page until everything the first of them found has
      been sent. */
  lemma SendsEverything(framed: Event -> bool, polls: seq<Poll>, start: nat, page: nat, n: nat)
    requires Growing(polls) && 0 < n <= |polls| && Serve(framed, polls, start, page).ending == Open
    ensures CaughtUp(After(polls[|polls| - n].log, start), Serve(framed, polls, start, page).sent, n, page)
  {
    FoundIsDue(polls, start, n);
    DueIsSent(framed, polls, start, page, After(polls[|polls| - n].log, start), n);
  }

  lemma CatchesUp(due: seq<Event>, all: seq<Event>, before: seq<Event>, sent: seq<Event>, n: nat, page: nat)
    requires due <= all && before <= sent && (sent == all || |sent| == |before| + page)
    requires n > 0 && CaughtUp(due, before, n - 1, page)
    ensures CaughtUp(due, sent, n, page)
  {
    assert n * page == (n - 1) * page + page;
  }

  lemma SentOnlyGrows(framed: Event -> bool, polls: seq<Poll>, start: nat, page: nat)
    requires polls != []
    ensures Serve(framed, Front(polls), start, page).sent <= Serve(framed, polls, start, page).sent
    ensures Serve(framed, polls, start, page).ending == Open ==>
              Serve(framed, Front(polls), start, page).ending == Open
              && Serve(framed, polls, start, page) ==
                 ServeOne(framed, Last(polls), start, page, Serve(framed, Front(polls), start, page).sent)
  {
  }

  // ----- The client -----

  /** A frame as the browser hands it over; the cursor it carries is known by its sequence. */
  datatype Message = Malformed | Frame(event: Event, cursor: Option<nat>)

  datatype View = View(cursor: Option<nat>, stopped: bool, attempts: nat, seenIds: map<string, nat>,
                       seenSequences: map<nat, string>, handed: seq<Event>)

  function Received(v: View, message: Message): View
  {
    if message.Malformed? || message.cursor.None? then v
    else
      var e := message.event;
      if e.id in v.seenIds || e.sequence in v.seenSequences then
        if e.id in v.seenIds && v.seenIds[e.id] == e.sequence
           && e.sequence in v.seenSequences && v.seenSequences[e.sequence] == e.id
        then v.(cursor := message.cursor, attempts := 0)
        else v.(stopped := true)
      else
        v.(cursor := message.cursor, attempts := 0, seenIds := v.seenIds[e.id := e.sequence],
           seenSequences := v.seenSequences[e.sequence := e.id], handed := v.handed + [e])
  }

  function SeenIds(events: seq<Event>): map<string, nat>
  {
    if events == [] then map[] else SeenIds(Front(events))[Last(events).id := Last(events).sequence]
  }

  function SeenSequences(events: seq<Event>): map<nat, string>
  {
    if events == [] then map[] else SeenSequences(Front(events))[Last(events).sequence := Last(events).id]
  }

  function Started(cursor: Option<nat>, persisted: seq<Event>): View
  {
    View(cursor, false, 0, SeenIds(persisted), SeenSequences(persisted), [])
  }

  class ReplaySafeRunStream {
    var cursor: Option<nat>
    var stopped: bool
    var reconnectAttempt: nat
    var seenEventIds: map<string, nat>
    var seenSequences: map<nat, string>
    /** What `onEvent` was called with. */
    var handed: seq<Event>

    function AsView(): View
      reads this
    {
      View(cursor, stopped, reconnectAttempt, seenEventIds, seenSequences, handed)
    }

    constructor (cursor: Option<nat>, persisted: seq<Event>)
      ensures AsView() == Started(cursor, persisted).(stopped := true)
    {
      this.cursor, stopped, reconnectAttempt, handed := cursor, true, 0, [];
      var ids: map<string, nat>, sequences: map<nat, string> := map[], map[];
      for i := 0 to |persisted|
        invariant ids == SeenIds(persisted[..i]) && sequences == SeenSequences(persisted[..i])
      {
        assert Front(persisted[..i + 1]) == persisted[..i];
        ids := ids[persisted[i].id := persisted[i].sequence];
        sequences := sequences[persisted[i].sequence := persisted[i].id];
      }
      assert persisted[..|persisted|] == persisted;
      seenEventIds, seenSequences := ids, sequences;
    }

    method Start()
      modifies this
      ensures AsView() == old(AsView()).(stopped := false)
    {
      stopped := false;
    }

    method Stop()
      modifies this
      ensures AsView() == old(AsView()).(stopped := true)
    {
      stopped := true;
    }

    /** The `onerror` handler: the delay before the next connection. */
    method Failed() returns (delayMs: nat)
      modifies this
      ensures AsView() == if old(stopped) then old(AsView()) else old(AsView()).(attempts := old(reconnectAttempt) + 1)
      ensures !old(stopped) ==> 1000 <= delayMs <= 15000 && (old(reconnectAttempt) >= 4 ==> delayMs == 15000)
    {
      if stopped {
        return 0;
      }
      delayMs := if reconnectAttempt >= 4 then 15000 else 1000 * Power2(reconnectAttempt);
      reconnectAttempt := reconnectAttempt + 1;
    }

    /** The `receive` handler of a connection. */
    method Receive(message: Message)
      modifies this
      ensures AsView() == Received(old(AsView()), message)
    {
      if message.Malformed? || message.cursor.None? {
        return;
      }
      var event := message.event;
      if event.id in seenEventIds || event.sequence in seenSequences {
        if event.id in seenEventIds && seenEventIds[event.id] == event.sequence
           && event.sequence in seenSequences && seenSequences[event.sequence] == event.id {
          cursor := message.cursor;
          reconnectAttempt := 0;
          return;
        }
        Stop();
        return;
      }
      cursor := message.cursor;
      reconnectAttempt := 0;
      seenEventIds := seenEventIds[event.id := event.sequence];
      seenSequences := seenSequences[event.sequence := event.id];
      handed := handed + [event];
    }
  }

  function Power2(n: nat): (p: nat)
    ensures p > 0
    ensures n < 4 ==> p <= 8
  {
    if n == 0 then 1 else if n == 1 then 2 else if n == 2 then 4 else if n == 3 then 8 else 2 * Power2(n - 1)
  }

  // ----- Whatever the network does -----

  /** A frame of the log arrives, at whatever time, or something that is no event. */
  datatype Arrival = Arrives(index: nat) | Noise

  ghost predicate LogOk(log: seq<Event>)
  {
    UniqueIds(log) && InOrder(log)
  }

  function MessageOf(log: seq<Event>, arrival: Arrival): Message
  {
    if arrival.Noise? || arrival.index >= |log| then Malformed
    else Frame(log[arrival.index], Some(log[arrival.index].sequence))
  }

  function Watch(log: seq<Event>, v: View, arrivals: seq<Arrival>): View
  {
    if arrivals == [] then v else Received(Watch(log, v, Front(arrivals)), MessageOf(log, Last(arrivals)))
  }

  /** The client knows exactly these events of the log. */
  ghost predicate Tracks(log: seq<Event>, v: View, known: set<nat>)
  {
    && (forall i :: i in known ==> i < |log|)
    && !v.stopped
    && (forall i :: 0 <= i < |log| ==>
          && (i in known <==> log[i].id in v.seenIds) && (i in known <==> log[i].sequence in v.seenSequences)
          && (i in known ==> v.seenIds[log[i].id] == log[i].sequence && v.seenSequences[log[i].sequence] == log[i].id))
  }

  lemma OneArrival(log: seq<Event>, v: View, known: set<nat>, i: nat)
    requires LogOk(log) && Tracks(log, v, known) && i < |log|
    ensures var next := Received(v, MessageOf(log, Arrives(i)));
            && Tracks(log, next, known + {i})
            && next.handed == (if i in known then v.handed else v.handed + [log[i]])
            && next.cursor == Some(log[i].sequence)
  {
    forall j | 0 <= j < |log| && j != i
      ensures log[j].id != log[i].id && log[j].sequence != log[i].sequence
    {
      if j < i {
        assert log[j].sequence < log[i].sequence;
      } else {
        assert log[i].sequence < log[j].sequence;
      }
    }
  }

  function UpTo(n: nat): (places: set<nat>)
    ensures forall i: nat :: i in places <==> i < n
  {
    if n == 0 then {} else UpTo(n - 1) + {n - 1}
  }

  /** A fresh client knows exactly its initial replay. */
  lemma {:induction false} StartTracks(log: seq<Event>, cursor: Option<nat>, n: nat)
    requires LogOk(log) && n <= |log|
    ensures Tracks(log, Started(cursor, log[..n]), UpTo(n))
  {
    if n == 0 {
      assert log[..0] == [];
    } else {
      StartTracks(log, cursor, n - 1);
      assert Front(log[..n]) == log[..n - 1];
      OneArrival(log, Started(cursor, log[..n - 1]), UpTo(n - 1), n - 1);
      assert UpTo(n) == UpTo(n - 1) + {n - 1};
    }
  }

  /** The indexes of the events handed over so far. */
  function Handed(known: set<nat>, size: nat, arrivals: seq<Arrival>): seq<nat>
  {
    if arrivals == [] then []
    else
      var before, last := Handed(known, size, Front(arrivals)), Last(arrivals);
      if last.Noise? || last.index >= size || last.index in known || last.index in before then before
      else before + [last.index]
  }

  function Places(indexes: seq<nat>): set<nat>
  {
    set i | i in indexes
  }

  function At(log: seq<Event>, indexes: seq<nat>): seq<Event>
    requires forall i :: i in indexes ==> i < |log|
  {
    seq(|indexes|, i requires 0 <= i < |indexes| => assert indexes[i] in indexes; log[indexes[i]])
  }

  lemma {:induction false} HandedFacts(known: set<nat>, size: nat, arrivals: seq<Arrival>)
    ensures forall i :: i in Handed(known, size, arrivals) ==> i < size && i !in known
    ensures Distinct(Handed(known, size, arrivals))
  {
    if arrivals != [] {
      HandedFacts(known, size, Front(arrivals));
    }
  }

  /** Whatever is lost, repeated or reordered, the client hands over only events of the log it did not
      have, each at most once, and never takes the log for a contradiction. */
  lemma {:induction false} HandedOnce(log: seq<Event>, v: View, known: set<nat>, arrivals: seq<Arrival>)
    requires LogOk(log) && Tracks(log, v, known)
    ensures var indexes := Handed(known, |log|, arrivals);
            && (forall i :: i in indexes ==> i < |log| && i !in known) && Distinct(indexes)
            && Watch(log, v, arrivals).handed == v.handed + At(log, indexes)
            && Tracks(log, Watch(log, v, arrivals), known + Places(indexes))
  {
    HandedFacts(known, |log|, arrivals);
    if arrivals != [] {
      var before, last := Front(arrivals), Last(arrivals);
      HandedOnce(log, v, known, before);
      var had := Handed(known, |log|, before);
      if last.Arrives? && last.index < |log| {
        OneArrival(log, Watch(log, v, before), known + Places(had), last.index);
        HandedGrows(log, known, had, last.index);
      }
    }
  }

  lemma HandedGrows(log: seq<Event>, known: set<nat>, had: seq<nat>, i: nat)
    requires i < |log| && forall j :: j in had ==> j < |log|
    ensures i in known + Places(had) ==> (known + Places(had)) + {i} == known + Places(had)
    ensures known + Places(had) + {i} == known + Places(had + [i])
    ensures At(log, had + [i]) == At(log, had) + [log[i]]
  {
  }

  // ----- The prefix -----

  /** How far the client has got when no frame ever arrived past a gap; None when one did. */
  function Reach(n: nat, size: nat, arrivals: seq<Arrival>): Option<nat>
  {
    if arrivals == [] then Some(n)
    else
      match Reach(n, size, Front(arrivals))
      case None => None
      case Some(m) =>
        var last := Last(arrivals);
        if last.Noise? || last.index >= size || last.index < m then Some(m)
        else if last.index == m then Some(m + 1)
        else None
  }

  function Range(n: nat, m: nat): seq<nat>
    requires n <= m
  {
    seq(m - n, i requires 0 <= i < m - n => n + i)
  }

  lemma {:induction false} ReachIsHanded(n: nat, size: nat, arrivals: seq<Arrival>)
    requires n <= size
    ensures Reach(n, size, arrivals).Some? ==>
              n <= Reach(n, size, arrivals).value <= size
              && Handed(UpTo(n), size, arrivals) == Range(n, Reach(n, size, arrivals).value)
    ensures Reach(n, size, arrivals).None? ==>
              exists k :: 0 <= k < |Handed(UpTo(n), size, arrivals)| && Handed(UpTo(n), size, arrivals)[k] != n + k
  {
    if arrivals != [] {
      var before, last := Front(arrivals), Last(arrivals);
      ReachIsHanded(n, size, before);
      var had := Handed(UpTo(n), size, before);
      assert had <= Handed(UpTo(n), size, arrivals);
      if Reach(n, size, before).Some? {
        var m := Reach(n, size, before).value;
        RangeFacts(n, m);
        if last.Arrives? && last.index < size && last.index > m {
          assert Handed(UpTo(n), size, arrivals) == had + [last.index];
          assert Handed(UpTo(n), size, arrivals)[m - n] == last.index;
        }
      }
    }
  }

  lemma RangeFacts(n: nat, m: nat)
    requires n <= m
    ensures forall i :: i in Range(n, m) <==> n <= i < m
    ensures Range(n, m + 1) == Range(n, m) + [m]
  {
    forall i | n <= i < m
      ensures i in Range(n, m)
    {
      assert Range(n, m)[i - n] == i;
    }
  }

  /** The initial replay and the events handed over are a prefix of the log, in order and without
      repetition, exactly when no frame ever arrived past a gap: ahead of an event not yet received. */
  lemma PrefixExactly(log: seq<Event>, cursor: Option<nat>, n: nat, arrivals: seq<Arrival>)
    requires LogOk(log) && n <= |log|
    ensures var v := Started(cursor, log[..n]);
            Reach(n, |log|, arrivals).Some? <==> log[..n] + Watch(log, v, arrivals).handed <= log
  {
    var v := Started(cursor, log[..n]);
    StartTracks(log, cursor, n);
    HandedOnce(log, v, UpTo(n), arrivals);
    var indexes := Handed(UpTo(n), |log|, arrivals);
    assert Watch(log, v, arrivals).handed == At(log, indexes);
    if Reach(n, |log|, arrivals).Some? {
      ReachedIsPrefix(log, n, arrivals);
    } else {
      GapIsNotPrefix(log, n, arrivals);
    }
  }

  lemma ReachedIsPrefix(log: seq<Event>, n: nat, arrivals: seq<Arrival>)
    requires n <= |log| && Reach(n, |log|, arrivals).Some?
    ensures var indexes := Handed(UpTo(n), |log|, arrivals);
            (forall i :: i in indexes ==> i < |log|) && log[..n] + At(log, indexes) <= log
  {
    ReachIsHanded(n, |log|, arrivals);
    RangeIsPrefix(log, n, Reach(n, |log|, arrivals).value);
  }

  lemma GapIsNotPrefix(log: seq<Event>, n: nat, arrivals: seq<Arrival>)
    requires UniqueIds(log) && n <= |log| && Reach(n, |log|, arrivals).None?
    ensures var indexes := Handed(UpTo(n), |log|, arrivals);
            (forall i :: i in indexes ==> i < |log|) && !(log[..n] + At(log, indexes) <= log)
  {
    ReachIsHanded(n, |log|, arrivals);
    HandedFacts(UpTo(n), |log|, arrivals);
    NotAPrefix(log, n, Handed(UpTo(n), |log|, arrivals));
  }

  lemma RangeIsPrefix(log: seq<Event>, n: nat, m: nat)
    requires n <= m <= |log|
    ensures (forall i :: i in Range(n, m) ==> i < |log|) && log[..n] + At(log, Range(n, m)) == log[..m]
  {
    RangeFacts(n, m);
  }

  lemma NotAPrefix(log: seq<Event>, n: nat, indexes: seq<nat>)
    requires UniqueIds(log) && n <= |log| && forall i :: i in indexes ==> i < |log|
    requires exists k :: 0 <= k < |indexes| && indexes[k] != n + k
    ensures !(log[..n] + At(log, indexes) <= log)
  {
    var k :| 0 <= k < |indexes| && indexes[k] != n + k;
    var seen := log[..n] + At(log, indexes);
    assert indexes[k] in indexes && seen[n + k] == log[indexes[k]];
    if n + k < |log| {
      DifferentEvents(log, indexes[k], n + k);
    }
  }

  lemma DifferentEvents(log: seq<Event>, i: nat, j: nat)
    requires UniqueIds(log) && i < |log| && j < |log| && i != j
    ensures log[i] != log[j]
  {
    if i < j {
      assert log[i].id != log[j].id;
    } else {
      assert log[j].id != log[i].id;
    }
  }

  /** One frame lost within a connection: the next one moves the cursor past it, and it is never sent again. */
  lemma LostFrameBreaksPrefix(log: seq<Event>)
    requires LogOk(log) && |log| == 2
    ensures var after := Watch(log, Started(None, []), [Arrives(1)]);
            after.handed == [log[1]] && !(after.handed <= log)
            && after.cursor == Some(log[1].sequence) && After(log, log[1].sequence) == []
  {
    var v := Started(None, []);
    OneArrival(log, v, UpTo(0), 1);
    assert Front([Arrives(1)]) == [];
    assert Watch(log, v, []) == v;
    DifferentEvents(log, 0, 1);
    assert log == [log[0], log[1]];
    SelectNone(log, Past(log[1].sequence));
  }

  // ----- Connections that lose only what they end with -----

  /** The place in the log a cursor resumes from. */
  ghost predicate ResumesAt(log: seq<Event>, cursor: Option<nat>, place: nat)
  {
    && place <= |log|
    && (if cursor.None? then place == 0 else place > 0 && cursor.value == log[place - 1].sequence)
  }

  /** Frames arriving from a place on, in order, some perhaps again, until the connection is cut. */
  ghost predicate InSequence(size: nat, place: nat, arrivals: seq<Arrival>)
  {
    forall k :: 0 <= k < |arrivals| ==> FollowsOn(size, place, arrivals, k)
  }

  ghost predicate FollowsOn(size: nat, place: nat, arrivals: seq<Arrival>, k: nat)
    requires k < |arrivals|
  {
    arrivals[k].Arrives? && place < arrivals[k].index < size ==>
      exists j :: 0 <= j < k && arrivals[j] == Arrives(arrivals[k].index - 1)
  }

  /** Every frame that arrived is behind where the client has got to. */
  ghost predicate Behind(size: nat, arrivals: seq<Arrival>, m: nat)
  {
    forall j :: 0 <= j < |arrivals| && arrivals[j].Arrives? && arrivals[j].index < size ==> arrivals[j].index < m
  }

  lemma {:induction false} ConnectionReaches(size: nat, n: nat, m: nat, place: nat, earlier: seq<Arrival>, arrivals: seq<Arrival>)
    requires Reach(n, size, earlier) == Some(m)
    requires place <= m && InSequence(size, place, arrivals)
    ensures Reach(n, size, earlier + arrivals).Some? && m <= Reach(n, size, earlier + arrivals).value
    ensures Behind(size, arrivals, Reach(n, size, earlier + arrivals).value)
  {
    if arrivals == [] {
      assert earlier + arrivals == earlier;
    } else {
      var before, both := Front(arrivals), earlier + arrivals;
      FrontInSequence(size, place, arrivals);
      ConnectionReaches(size, n, m, place, earlier, before);
      assert Front(both) == earlier + before && Last(both) == Last(arrivals);
      NextIsNotPastGap(size, place, arrivals, Reach(n, size, Front(both)).value);
      ReachNext(n, size, both);
      StillBehind(size, arrivals, Reach(n, size, Front(both)).value, Reach(n, size, both).value);
    }
  }

  lemma FrontInSequence(size: nat, place: nat, arrivals: seq<Arrival>)
    requires arrivals != [] && InSequence(size, place, arrivals)
    ensures InSequence(size, place, Front(arrivals))
  {
    var before := Front(arrivals);
    forall k | 0 <= k < |before|
      ensures FollowsOn(size, place, before, k)
    {
      assert FollowsOn(size, place, arrivals, k) && before[k] == arrivals[k];
      if before[k].Arrives? && place < before[k].index < size {
        var j :| 0 <= j < k && arrivals[j] == Arrives(arrivals[k].index - 1);
        assert before[j] == arrivals[j];
      }
    }
  }

  /** A frame that is not past a gap moves the client on by at most one. */
  lemma ReachNext(n: nat, size: nat, arrivals: seq<Arrival>)
    requires arrivals != [] && Reach(n, size, Front(arrivals)).Some?
    requires var last, m := Last(arrivals), Reach(n, size, Front(arrivals)).value;
             last.Arrives? && last.index < size ==> last.index <= m
    ensures Reach(n, size, arrivals).Some?
    ensures Reach(n, size, Front(arrivals)).value <= Reach(n, size, arrivals).value
    ensures Last(arrivals).Arrives? && Last(arrivals).index < size ==> Last(arrivals).index < Reach(n, size, arrivals).value
  {
  }

  lemma StillBehind(size: nat, arrivals: seq<Arrival>, m: nat, m': nat)
    requires arrivals != [] && Behind(size, Front(arrivals), m) && m <= m'
    requires Last(arrivals).Arrives? && Last(arrivals).index < size ==> Last(arrivals).index < m'
    ensures Behind(size, arrivals, m')
  {
    forall j | 0 <= j < |arrivals| && arrivals[j].Arrives? && arrivals[j].index < size
      ensures arrivals[j].index < m'
    {
      assert j < |arrivals| - 1 ==> Front(arrivals)[j] == arrivals[j];
    }
  }

  lemma NextIsNotPastGap(size: nat, place: nat, arrivals: seq<Arrival>, m: nat)
    requires arrivals != [] && InSequence(size, place, arrivals) && place <= m && Behind(size, Front(arrivals), m)
    ensures Last(arrivals).Arrives? && Last(arrivals).index < size ==> Last(arrivals).index <= m
  {
    var k, last := |arrivals| - 1, Last(arrivals);
    assert FollowsOn(size, place, arrivals, k);
    if last.Arrives? && place < last.index < size {
      var j :| 0 <= j < k && arrivals[j] == Arrives(last.index - 1);
      assert Front(arrivals)[j] == arrivals[j];
    }
  }

  /** Where the cursor stands after some arrivals. */
  lemma {:induction false} CursorFollows(log: seq<Event>, v: View, known: set<nat>, arrivals: seq<Arrival>,
                                         place: nat) returns (next: nat)
    requires LogOk(log) && Tracks(log, v, known) && ResumesAt(log, v.cursor, place)
    ensures ResumesAt(log, Watch(log, v, arrivals).cursor, next)
    ensures next == place || exists j :: 0 <= j < |arrivals| && 0 < next <= |log| && arrivals[j] == Arrives(next - 1)
  {
    next := place;
    if arrivals != [] {
      next := CursorFollows(log, v, known, Front(arrivals), place);
      HandedOnce(log, v, known, Front(arrivals));
      var last := Last(arrivals);
      if last.Arrives? && last.index < |log| {
        OneArrival(log, Watch(log, v, Front(arrivals)), known + Places(Handed(known, |log|, Front(arrivals))), last.index);
        next := last.index + 1;
        assert arrivals[|arrivals| - 1] == Arrives(next - 1);
      }
    }
  }

  /** Connections one after another, each resuming at the client's cursor of the time. */
  ghost predicate Connected(log: seq<Event>, v: View, connections: seq<seq<Arrival>>)
  {
    connections == [] ||
    (&& Connected(log, v, Front(connections))
     && forall place :: ResumesAt(log, Watch(log, v, All(Front(connections))).cursor, place) ==>
          InSequence(|log|, place, Last(connections)))
  }

  function All(connections: seq<seq<Arrival>>): seq<Arrival>
  {
    if connections == [] then [] else All(Front(connections)) + Last(connections)
  }

  lemma {:induction false} WatchTwice(log: seq<Event>, v: View, first: seq<Arrival>, second: seq<Arrival>)
    ensures Watch(log, v, first + second) == Watch(log, Watch(log, v, first), second)
  {
    if second == [] {
      assert first + second == first;
    } else {
      assert Front(first + second) == first + Front(second);
      WatchTwice(log, v, first, Front(second));
    }
  }

  lemma {:induction false} ConnectionsReach(log: seq<Event>, v: View, n: nat, place: nat,
                                            connections: seq<seq<Arrival>>) returns (next: nat)
    requires LogOk(log) && n <= |log| && Tracks(log, v, UpTo(n)) && ResumesAt(log, v.cursor, place) && place <= n
    requires Connected(log, v, connections)
    ensures Reach(n, |log|, All(connections)).Some?
    ensures next <= Reach(n, |log|, All(connections)).value
    ensures ResumesAt(log, Watch(log, v, All(connections)).cursor, next)
  {
    next := place;
    if connections != [] {
      var before, last := All(Front(connections)), Last(connections);
      var from := ConnectionsReach(log, v, n, place, Front(connections));
      ConnectionReaches(|log|, n, Reach(n, |log|, before).value, from, before, last);
      HandedOnce(log, v, UpTo(n), before);
      WatchTwice(log, v, before, last);
      next := CursorFollows(log, Watch(log, v, before), UpTo(n) + Places(Handed(UpTo(n), |log|, before)), last, from);
    }
  }

  /** Over any number of connections, each of which delivers in order from the client's cursor, repeats what
      it likes, and loses only what it had not delivered when it was cut, the initial replay and the events
      handed over are always a prefix of the log. */
  lemma ReconnectingKeepsPrefix(log: seq<Event>, cursor: Option<nat>, n: nat, place: nat, connections: seq<seq<Arrival>>)
    requires LogOk(log) && n <= |log| && ResumesAt(log, cursor, place) && place <= n
    requires Connected(log, Started(cursor, log[..n]), connections)
    ensures log[..n] + Watch(log, Started(cursor, log[..n]), All(connections)).handed <= log
  {
    StartTracks(log, cursor, n);
    var next := ConnectionsReach(log, Started(cursor, log[..n]), n, place, connections);
    PrefixExactly(log, cursor, n, All(connections));
  }

  /** Resuming at a cursor, the server sends the log from that place on. */
  lemma ServerResumes(log: seq<Event>, cursor: Option<nat>, place: nat)
    requires LogOk(log) && ResumesAt(log, cursor, place) && (forall e :: e in log ==> e.sequence > 0)
    ensures After(log, if cursor.None? then 0 else cursor.value) == log[place..]
  {
    if cursor.None? {
      SelectAll(log, Past(0));
    } else {
      SelectTail(log, place);
    }
  }
}
