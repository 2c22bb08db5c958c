/** The socket handlers `connectWebSocket` installs: each incoming message is
    normalised into at most one event, a socket error becomes an error event,
    and a socket close becomes `closed`. */
module Stream {
  import opened Optional
  import opened JsonValues
  import opened Events
  import opened Traces

  /** A text frame and what `JSON.parse` makes of it (`None` when it throws). */
  datatype SocketMessage = SocketMessage(raw: string, parsed: Option<Json>)

  datatype SocketSignal = Message(message: SocketMessage) | SocketError | SocketClose

  /** Whether a message is forwarded: its parsed value has a truthy `type`. */
  predicate Forwarded(m: SocketMessage) {
    m.parsed.Some? && TruthyField(Member(m.parsed.value, "type"))
  }

  /** `socket.onmessage`: forward typed JSON unchanged, drop untyped JSON,
      degrade unparsable data to a status event carrying the raw text. */
  function OnMessage(m: SocketMessage): (r: seq<Event>)
    ensures |r| <= 1
    ensures |r| == 0 <==> m.parsed.Some? && !Forwarded(m)
    ensures Forwarded(m) ==> r == [Relayed(m.parsed.value)]
    ensures m.parsed.None? ==> r == [Status(Raw(m.raw))]
  {
    match m.parsed
    case None => [Status(Raw(m.raw))]
    case Some(data) => if TruthyField(Member(data, "type")) then [Relayed(data)] else []
  }

  /** The events one socket signal produces. */
  function OnSignal(s: SocketSignal): seq<Event> {
    match s
    case Message(m) => OnMessage(m)
    case SocketError => [Error(Constant(StreamError))]
    case SocketClose => [Closed]
  }

  /** The events a sequence of signals produces, in order. */
  function StreamEvents(signals: seq<SocketSignal>): seq<Event>
    decreases |signals|
  {
    if |signals| == 0 then []
    else StreamEvents(signals[..|signals| - 1]) + OnSignal(signals[|signals| - 1])
  }

  function CountCloses(signals: seq<SocketSignal>): nat
    decreases |signals|
  {
    if |signals| == 0 then 0
    else CountCloses(signals[..|signals| - 1]) + (if signals[|signals| - 1].SocketClose? then 1 else 0)
  }

  function CountErrors(signals: seq<SocketSignal>): nat
    decreases |signals|
  {
    if |signals| == 0 then 0
    else CountErrors(signals[..|signals| - 1]) + (if signals[|signals| - 1].SocketError? then 1 else 0)
  }

  /** Every socket close yields exactly one `closed`, every socket error exactly
      one error event, no message yields either, and no signal yields more than
      one event. */
  lemma {:induction false} StreamCounts(signals: seq<SocketSignal>)
    ensures Count(StreamEvents(signals), ClosedKind) == CountCloses(signals)
    ensures Count(StreamEvents(signals), ErrorKind) == CountErrors(signals)
    ensures Count(StreamEvents(signals), FinalKind) == 0
    ensures |StreamEvents(signals)| <= |signals|
    decreases |signals|
  {
    if |signals| > 0 {
      var init := signals[..|signals| - 1];
      var last := signals[|signals| - 1];
      StreamCounts(init);
      var es := OnSignal(last);
      CountConcat(StreamEvents(init), es, ClosedKind);
      CountConcat(StreamEvents(init), es, ErrorKind);
      CountConcat(StreamEvents(init), es, FinalKind);
      if |es| == 1 {
        CountSingle(es[0], ClosedKind);
        CountSingle(es[0], ErrorKind);
        CountSingle(es[0], FinalKind);
        assert es == [es[0]];
      }
    }
  }

  lemma {:induction false} StreamConcat(a: seq<SocketSignal>, b: seq<SocketSignal>)
    ensures StreamEvents(a + b) == StreamEvents(a) + StreamEvents(b)
    decreases |b|
  {
    if |b| == 0 {
      assert a + b == a;
    } else {
      var b' := b[..|b| - 1];
      assert (a + b)[..|a + b| - 1] == a + b';
      StreamConcat(a, b');
    }
  }

  /** The socket handlers run one signal at a time; the events they emit are
      the stream's events. */
  method DeliverSignals(signals: seq<SocketSignal>) returns (events: seq<Event>)
    ensures events == StreamEvents(signals)
    ensures Count(events, ClosedKind) == CountCloses(signals)
    ensures |events| <= |signals|
  {
    events := [];
    var i := 0;
    while i < |signals|
      invariant 0 <= i <= |signals|
      invariant events == StreamEvents(signals[..i])
    {
      assert signals[..i + 1][..i] == signals[..i];
      events := events + OnSignal(signals[i]);
      i := i + 1;
    }
    assert signals[..i] == signals;
    StreamCounts(signals);
  }

  /** Nothing in the handlers orders the stream: a server-sent `closed`
      message may be followed by a forwarded `final`, and the socket's own
      `closed` then follows both. */
  lemma StreamIsNotTerminated()
    ensures var closedMsg := JObj([("type", JStr("closed"))]);
            var finalMsg := JObj([("type", JStr("final")), ("text", JStr("hej"))]);
            StreamEvents([Message(SocketMessage("{\"type\":\"closed\"}", Some(closedMsg))),
                          Message(SocketMessage("{\"type\":\"final\",\"text\":\"hej\"}", Some(finalMsg))),
                          SocketClose])
            == [Relayed(closedMsg), Relayed(finalMsg), Closed]
  {
    var closedMsg := JObj([("type", JStr("closed"))]);
    var finalMsg := JObj([("type", JStr("final")), ("text", JStr("hej"))]);
    var a := Message(SocketMessage("{\"type\":\"closed\"}", Some(closedMsg)));
    var b := Message(SocketMessage("{\"type\":\"final\",\"text\":\"hej\"}", Some(finalMsg)));
    assert Member(closedMsg, "type") == Some(JStr("closed"));
    assert finalMsg.fields[..1] == [("type", JStr("final"))];
    assert Member(finalMsg, "type") == Some(JStr("final"));
    assert [a, b, SocketClose][..2] == [a, b];
    assert [a, b][..1] == [a];
    assert [a][..0] == [];
    assert StreamEvents([a]) == [Relayed(closedMsg)];
    assert StreamEvents([a, b]) == [Relayed(closedMsg), Relayed(finalMsg)];
  }
}
