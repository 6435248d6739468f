/** The polling server and the reconnecting client joined: what the client ends up with. */
module Deliveries {
  import opened Prelude
  import opened RunEvents
  import opened LiveStream

  /** One connection: what the server's polls found, and the messages that reached the client. */
  datatype Connection = Connection(polls: seq<Poll>, page: nat, messages: seq<Message>)

  function Hear(v: View, messages: seq<Message>): View
  {
    if messages == [] then v else Received(Hear(v, Front(messages)), Last(messages))
  }

  function HearAll(v: View, connections: seq<Connection>): View
  {
    if connections == [] then v else Hear(HearAll(v, Front(connections)), Last(connections).messages)
  }

  function FrameOf(e: Event): Message
  {
    Frame(e, Some(e.sequence))
  }

  /** The i-th event sent, delivered after the one sent before it. */
  ghost predicate InTurn(sent: seq<Event>, messages: seq<Message>, k: nat, i: nat)
    requires k < |messages|
  {
    && i < |sent| && messages[k] == FrameOf(sent[i])
    && (i > 0 ==> FrameOf(sent[i - 1]) in messages[..k])
  }

  /** Apart from what is no event, and from repetition, what arrives is what was sent, in order, up to
      where the connection broke. */
  ghost predicate Delivers(sent: seq<Event>, messages: seq<Message>)
  {
    forall k :: 0 <= k < |messages| ==> Delivered(sent, messages, k)
  }

  ghost predicate Delivered(sent: seq<Event>, messages: seq<Message>, k: nat)
    requires k < |messages|
  {
    messages[k].Frame? ==> exists i: nat :: InTurn(sent, messages, k, i)
  }

  /** Where the server starts for a client's cursor. */
  function StartOf(cursor: Option<nat>): nat
  {
    if cursor.None? then 0 else cursor.value
  }

  /** What the server sends on a connection opened at a cursor. */
  function SentOn(framed: Event -> bool, cursor: Option<nat>, c: Connection): Served
  {
    Serve(framed, c.polls, StartOf(cursor), c.page)
  }

  /** A connection of a run whose whole log is `log`, opened at a cursor. */
  ghost predicate Serves(framed: Event -> bool, log: seq<Event>, cursor: Option<nat>, c: Connection)
  {
    && Growing(c.polls) && (c.polls != [] ==> Last(c.polls).log <= log)
    && Delivers(SentOn(framed, cursor, c).sent, c.messages)
  }

  /** Connections one after another, each opened at the cursor the client has by then. */
  ghost predicate Live(framed: Event -> bool, log: seq<Event>, v: View, connections: seq<Connection>)
  {
    connections == [] ||
    (&& Live(framed, log, v, Front(connections))
     && Serves(framed, log, HearAll(v, Front(connections)).cursor, Last(connections)))
  }

  ghost predicate RunLog(log: seq<Event>)
  {
    LogOk(log) && forall e :: e in log ==> e.sequence > 0
  }

  // ----- Messages are arrivals of the log's events -----

  function PlaceOf(log: seq<Event>, e: Event): (i: nat)
    requires e in log
    ensures i < |log| && log[i] == e
  {
    if log[0] == e then 0 else 1 + PlaceOf(log[1..], e)
  }

  function ArrivalOf(log: seq<Event>, message: Message): Arrival
  {
    if message.Frame? && message.event in log then Arrives(PlaceOf(log, message.event)) else Noise
  }

  function ArrivalsOf(log: seq<Event>, messages: seq<Message>): (arrivals: seq<Arrival>)
    ensures |arrivals| == |messages|
  {
    seq(|messages|, k requires 0 <= k < |messages| => ArrivalOf(log, messages[k]))
  }

  function ArrivalsOn(log: seq<Event>, connections: seq<Connection>): (arrivals: seq<seq<Arrival>>)
    ensures |arrivals| == |connections|
  {
    seq(|connections|, k requires 0 <= k < |connections| => ArrivalsOf(log, connections[k].messages))
  }

  lemma PlaceIsOnly(log: seq<Event>, i: nat)
    requires LogOk(log) && i < |log|
    ensures ArrivalOf(log, FrameOf(log[i])) == Arrives(i)
    ensures MessageOf(log, Arrives(i)) == FrameOf(log[i])
  {
    var p := PlaceOf(log, log[i]);
    if p != i {
      DifferentEvents(log, p, i);
    }
  }

  /** Nothing is sent but the log from the cursor's place on. */
  lemma SentFromPlace(framed: Event -> bool, log: seq<Event>, cursor: Option<nat>, place: nat, c: Connection)
    requires RunLog(log) && ResumesAt(log, cursor, place) && Serves(framed, log, cursor, c)
    ensures SentOn(framed, cursor, c).sent <= log[place..]
  {
    ServerResumes(log, cursor, place);
    SentIsPrefix(framed, c.polls, StartOf(cursor), c.page);
    if c.polls != [] {
      AfterGrows(Last(c.polls).log, log, StartOf(cursor));
    }
  }

  /** A delivered frame is the log's event at some place, and the one before it was delivered earlier. */
  lemma DeliveredFrame(log: seq<Event>, place: nat, sent: seq<Event>, messages: seq<Message>, k: nat) returns (i: nat)
    requires LogOk(log) && place <= |log| && sent <= log[place..] && Delivers(sent, messages)
    requires k < |messages| && messages[k].Frame?
    ensures i < |log| && messages[k] == FrameOf(log[i]) && ArrivalsOf(log, messages)[k] == Arrives(i)
    ensures i > place ==> exists j :: 0 <= j < k && ArrivalsOf(log, messages)[j] == Arrives(i - 1)
  {
    assert Delivered(sent, messages, k);
    var n: nat :| InTurn(sent, messages, k, n);
    i := place + n;
    assert sent[n] == log[place..][n];
    PlaceIsOnly(log, i);
    if n > 0 {
      assert sent[n - 1] == log[place..][n - 1];
      PlaceIsOnly(log, i - 1);
      var j :| 0 <= j < k && messages[..k][j] == FrameOf(log[i - 1]);
      assert ArrivalsOf(log, messages)[j] == Arrives(i - 1);
    }
  }

  lemma DeliveredInSequence(log: seq<Event>, place: nat, sent: seq<Event>, messages: seq<Message>)
    requires LogOk(log) && place <= |log| && sent <= log[place..] && Delivers(sent, messages)
    ensures InSequence(|log|, place, ArrivalsOf(log, messages))
    ensures forall k :: 0 <= k < |messages| ==> MessageOf(log, ArrivalsOf(log, messages)[k]) == messages[k]
  {
    var arrivals := ArrivalsOf(log, messages);
    forall k | 0 <= k < |messages|
      ensures MessageOf(log, arrivals[k]) == messages[k]
      ensures FollowsOn(|log|, place, arrivals, k)
    {
      if messages[k].Frame? {
        var i := DeliveredFrame(log, place, sent, messages, k);
        PlaceIsOnly(log, i);
      }
    }
  }

  lemma {:induction false} HearIsWatch(log: seq<Event>, v: View, messages: seq<Message>)
    requires forall k :: 0 <= k < |messages| ==> MessageOf(log, ArrivalsOf(log, messages)[k]) == messages[k]
    ensures Hear(v, messages) == Watch(log, v, ArrivalsOf(log, messages))
  {
    if messages != [] {
      var arrivals := ArrivalsOf(log, messages);
      assert Front(arrivals) == ArrivalsOf(log, Front(messages));
      forall k | 0 <= k < |Front(messages)|
        ensures MessageOf(log, ArrivalsOf(log, Front(messages))[k]) == Front(messages)[k]
      {
        assert MessageOf(log, arrivals[k]) == messages[k];
      }
      HearIsWatch(log, v, Front(messages));
      assert MessageOf(log, Last(arrivals)) == Last(messages);
    }
  }

  /** Where the client's cursor stands in the log. */
  lemma {:induction false} LivePlace(framed: Event -> bool, log: seq<Event>, v: View, n: nat, place: nat,
                                     connections: seq<Connection>) returns (next: nat)
    requires RunLog(log) && n <= |log| && Tracks(log, v, UpTo(n)) && ResumesAt(log, v.cursor, place) && place <= n
    requires Live(framed, log, v, connections)
    ensures HearAll(v, connections) == Watch(log, v, All(ArrivalsOn(log, connections)))
    ensures Connected(log, v, ArrivalsOn(log, connections))
    ensures ResumesAt(log, HearAll(v, connections).cursor, next)
    ensures var reached := Reach(n, |log|, All(ArrivalsOn(log, connections)));
            reached.Some? && next <= reached.value
  {
    var arrivals := ArrivalsOn(log, connections);
    if connections != [] {
      var before, c := Front(connections), Last(connections);
      assert Front(arrivals) == ArrivalsOn(log, before);
      var from := LivePlace(framed, log, v, n, place, before);
      var had := HearAll(v, before);
      forall p | ResumesAt(log, had.cursor, p)
        ensures InSequence(|log|, p, ArrivalsOf(log, c.messages))
      {
        SentFromPlace(framed, log, had.cursor, p, c);
        DeliveredInSequence(log, p, SentOn(framed, had.cursor, c).sent, c.messages);
      }
      SentFromPlace(framed, log, had.cursor, from, c);
      DeliveredInSequence(log, from, SentOn(framed, had.cursor, c).sent, c.messages);
      HearIsWatch(log, had, c.messages);
      WatchTwice(log, v, All(Front(arrivals)), Last(arrivals));
    }
    next := ConnectionsReach(log, v, n, place, arrivals);
  }

  /** Whatever the log grows by between polls, whatever the page size, wherever the server or the network
      cuts a connection, whatever is repeated, and however often the client reconnects, the initial replay
      and the events handed over are a prefix of the run's log: in order, without a gap, none twice. */
  lemma ClientHasPrefix(framed: Event -> bool, log: seq<Event>, cursor: Option<nat>, n: nat, place: nat,
                        connections: seq<Connection>)
    requires RunLog(log) && n <= |log| && ResumesAt(log, cursor, place) && place <= n
    requires Live(framed, log, Started(cursor, log[..n]), connections)
    ensures log[..n] + HearAll(Started(cursor, log[..n]), connections).handed <= log
  {
    StartTracks(log, cursor, n);
    var next := LivePlace(framed, log, Started(cursor, log[..n]), n, place, connections);
    ReconnectingKeepsPrefix(log, cursor, n, place, ArrivalsOn(log, connections));
  }

  /** Once a connection delivers all of a stream that ended complete, the client has the whole log. */
  lemma ClientHasAll(framed: Event -> bool, log: seq<Event>, cursor: Option<nat>, n: nat, place: nat,
                     connections: seq<Connection>)
    requires RunLog(log) && n <= |log| && ResumesAt(log, cursor, place) && place <= n
    requires Live(framed, log, Started(cursor, log[..n]), connections) && connections != []
    requires var c, had := Last(connections), HearAll(Started(cursor, log[..n]), Front(connections));
             && SentOn(framed, had.cursor, c).ending == Complete
             && (forall p :: p in c.polls && p.terminal ==> p.log == log)
             && (forall e :: e in SentOn(framed, had.cursor, c).sent ==> FrameOf(e) in c.messages)
    ensures log[..n] + HearAll(Started(cursor, log[..n]), connections).handed == log
  {
    var v := Started(cursor, log[..n]);
    StartTracks(log, cursor, n);
    var next := LivePlace(framed, log, v, n, place, connections);
    LiveReachesEnd(framed, log, v, n, place, connections);
    HandedCount(log, v, n, All(ArrivalsOn(log, connections)));
    ClientHasPrefix(framed, log, cursor, n, place, connections);
  }

  lemma HandedCount(log: seq<Event>, v: View, n: nat, arrivals: seq<Arrival>)
    requires LogOk(log) && n <= |log| && Tracks(log, v, UpTo(n)) && v.handed == []
    requires Reach(n, |log|, arrivals) == Some(|log|)
    ensures |Watch(log, v, arrivals).handed| == |log| - n
  {
    HandedOnce(log, v, UpTo(n), arrivals);
    ReachIsHanded(n, |log|, arrivals);
  }

  lemma LiveReachesEnd(framed: Event -> bool, log: seq<Event>, v: View, n: nat, place: nat, connections: seq<Connection>)
    requires RunLog(log) && n <= |log| && Tracks(log, v, UpTo(n)) && ResumesAt(log, v.cursor, place) && place <= n
    requires Live(framed, log, v, connections) && connections != []
    requires var c, had := Last(connections), HearAll(v, Front(connections));
             && SentOn(framed, had.cursor, c).ending == Complete
             && (forall p :: p in c.polls && p.terminal ==> p.log == log)
             && (forall e :: e in SentOn(framed, had.cursor, c).sent ==> FrameOf(e) in c.messages)
    ensures Reach(n, |log|, All(ArrivalsOn(log, connections))) == Some(|log|)
  {
    var before, c, arrivals := Front(connections), Last(connections), ArrivalsOn(log, connections);
    var from := LivePlace(framed, log, v, n, place, before);
    assert Front(arrivals) == ArrivalsOn(log, before);
    CompleteSendsRest(framed, log, HearAll(v, before).cursor, from, c);
    RestDelivered(log, n, from, All(ArrivalsOn(log, before)), c.messages);
  }

  lemma RestDelivered(log: seq<Event>, n: nat, from: nat, earlier: seq<Arrival>, messages: seq<Message>)
    requires LogOk(log) && n <= |log| && from <= |log|
    requires Reach(n, |log|, earlier).Some? && from <= Reach(n, |log|, earlier).value
    requires Delivers(log[from..], messages) && forall e :: e in log[from..] ==> FrameOf(e) in messages
    ensures Reach(n, |log|, earlier + ArrivalsOf(log, messages)) == Some(|log|)
  {
    DeliveredInSequence(log, from, log[from..], messages);
    if from < |log| {
      EndArrives(log, from, messages);
    }
    ReachesEnd(|log|, n, from, earlier, ArrivalsOf(log, messages));
  }

  /** When the last place has arrived in sequence, the client has got to the end. */
  lemma ReachesEnd(size: nat, n: nat, from: nat, earlier: seq<Arrival>, arrivals: seq<Arrival>)
    requires n <= size && from <= size && InSequence(size, from, arrivals)
    requires Reach(n, size, earlier).Some? && from <= Reach(n, size, earlier).value
    requires from < size ==> Arrives(size - 1) in arrivals
    ensures Reach(n, size, earlier + arrivals) == Some(size)
  {
    ConnectionReaches(size, n, Reach(n, size, earlier).value, from, earlier, arrivals);
    ReachIsHanded(n, size, earlier + arrivals);
    if from < size {
      var k :| 0 <= k < |arrivals| && arrivals[k] == Arrives(size - 1);
    }
  }

  lemma CompleteSendsRest(framed: Event -> bool, log: seq<Event>, cursor: Option<nat>, place: nat, c: Connection)
    requires RunLog(log) && ResumesAt(log, cursor, place) && Serves(framed, log, cursor, c)
    requires SentOn(framed, cursor, c).ending == Complete
    requires forall p :: p in c.polls && p.terminal ==> p.log == log
    ensures SentOn(framed, cursor, c).sent == log[place..]
  {
    SentIsPrefix(framed, c.polls, StartOf(cursor), c.page);
    ServerResumes(log, cursor, place);
  }

  lemma EndArrives(log: seq<Event>, from: nat, messages: seq<Message>)
    requires LogOk(log) && from < |log| && forall e :: e in log[from..] ==> FrameOf(e) in messages
    ensures Arrives(|log| - 1) in ArrivalsOf(log, messages)
  {
    var last := |log| - 1;
    assert log[from..][last - from] == log[last];
    assert log[last] in log[from..] && FrameOf(log[last]) in messages;
    var k :| 0 <= k < |messages| && messages[k] == FrameOf(log[last]);
    PlaceIsOnly(log, last);
    assert ArrivalsOf(log, messages)[k] == Arrives(last);
  }
}
