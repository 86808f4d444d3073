/** The client's task for one tunnelled TCP stream: request, status, then a loop that pumps both halves
    until both are closed. */
module StreamTask {
  import opened Bytes

  datatype Event = Status(code: int) | Data(bytes: seq<byte>) | Eof | Error

  /** What the peer and the connection do before the pump starts. */
  datatype Opening = RequestFails | NoResponse | Response(code: int)

  /** What is ready at one turn of the pump: an item or the end of the outbound channel, with the outcome
      of sending it, or something from the response stream. */
  datatype Turn =
    | OutItem(data: seq<byte>, eof: bool, sendOk: bool, finishOk: bool)
    | OutClosed(finishOk: bool)
    | InData(bytes: seq<byte>)
    | InEnd
    | InError

  /** Still waiting for its next turn; returned; returned with an error. */
  datatype Exit = Running | Returned | Failed

  /** Bytes of the response stream, up to its end or error. */
  function Received(turns: seq<Turn>): seq<byte> {
    if turns == [] || turns[0].InEnd? || turns[0].InError? then []
    else (match turns[0] case InData(bytes) => bytes case _ => []) + Received(turns[1..])
  }

  /** Bytes offered for the request stream, up to the item that ends it or the end of the channel. */
  function Offered(turns: seq<Turn>): seq<byte> {
    if turns == [] || turns[0].OutClosed? then []
    else if turns[0].OutItem? then turns[0].data + if turns[0].eof then [] else Offered(turns[1..])
    else Offered(turns[1..])
  }

  function BytesIn(event: Event): seq<byte> {
    match event case Data(bytes) => bytes case _ => []
  }

  function EventBytes(events: seq<Event>): seq<byte> {
    if events == [] then [] else BytesIn(events[0]) + EventBytes(events[1..])
  }

  predicate AllData(events: seq<Event>) {
    forall i :: 0 <= i < |events| ==> events[i].Data?
  }

  /** A response's events after its status: data, then perhaps the end, then perhaps an error. */
  ghost predicate Body(events: seq<Event>, ended: bool, failed: bool) {
    exists n: nat :: n <= |events| && AllData(events[..n])
      && events[n..] == (if ended then [Eof] else []) + if failed then [Error] else []
  }

  /** The language of complete traces. */
  ghost predicate CompleteTrace(events: seq<Event>) {
    || events == [Error]
    || (exists code :: code != 200 && events == [Status(code)])
    || (events != [] && events[0] == Status(200)
        && (Body(events[1..], true, false) || Body(events[1..], true, true) || Body(events[1..], false, true)))
  }

  /** Traces of a task that has not returned: prefixes of complete ones without an error. */
  ghost predicate OpenTrace(events: seq<Event>) {
    events == [] || (events[0] == Status(200) && (Body(events[1..], true, false) || Body(events[1..], false, false)))
  }

  lemma BodyGrows(events: seq<Event>, bytes: seq<byte>)
    requires Body(events, false, false)
    ensures Body(events + [Data(bytes)], false, false)
    ensures Body(events + [Eof], true, false)
  {
    var n: nat :| n <= |events| && AllData(events[..n]) && events[n..] == [];
    assert events[..n] == events;
    assert (events + [Data(bytes)])[..n + 1] == events + [Data(bytes)];
    assert (events + [Data(bytes)])[n + 1..] == [];
    assert (events + [Eof])[..n] == events && (events + [Eof])[n..] == [Eof];
  }

  lemma BodyFails(events: seq<Event>, ended: bool)
    requires Body(events, ended, false)
    ensures Body(events + [Error], ended, true)
  {
    var n: nat :| n <= |events| && AllData(events[..n]) && events[n..] == if ended then [Eof] else [];
    var tail := if ended then [Eof] else [];
    assert events == events[..n] + tail;
    var all := events + [Error];
    assert all == events[..n] + (tail + [Error]);
    assert all[..n] == events[..n] && all[n..] == tail + [Error];
  }

  lemma {:induction false} EventBytesAppend(events: seq<Event>, event: Event)
    ensures EventBytes(events + [event]) == EventBytes(events) + BytesIn(event)
  {
    if events == [] {
      assert events + [event] == [event];
    } else {
      var first, rest := events[0], events[1..];
      assert (events + [event])[0] == first && (events + [event])[1..] == rest + [event];
      EventBytesAppend(rest, event);
      assert BytesIn(first) + (EventBytes(rest) + BytesIn(event)) == BytesIn(first) + EventBytes(rest) + BytesIn(event);
    }
  }

  /** Everything of the response up to turn `i` has been read, and its end not yet met. */
  predicate Unended(turns: seq<Turn>) {
    forall i :: 0 <= i < |turns| ==> !turns[i].InEnd? && !turns[i].InError?
  }

  lemma ReceivedAppend(turns: seq<Turn>, turn: Turn)
    requires Unended(turns)
    ensures Received(turns + [turn]) == Received(turns) + match turn case InData(bytes) => bytes case _ => []
  {
    if turns == [] {
      assert turns + [turn] == [turn];
    } else {
      ReceivedAppend(turns[1..], turn);
      assert (turns + [turn])[1..] == turns[1..] + [turn];
    }
  }

  lemma ReceivedAfterEnd(turns: seq<Turn>, turn: Turn)
    requires !Unended(turns)
    ensures Received(turns + [turn]) == Received(turns)
  {
    assert (turns + [turn])[0] == turns[0];
    if !turns[0].InEnd? && !turns[0].InError? {
      ReceivedAfterEnd(turns[1..], turn);
      assert (turns + [turn])[1..] == turns[1..] + [turn];
    }
  }

  /** The outbound half has not been ended by any of the turns. */
  predicate Unfinished(turns: seq<Turn>) {
    forall i :: 0 <= i < |turns| ==> !turns[i].OutClosed? && !(turns[i].OutItem? && turns[i].eof)
  }

  lemma OfferedAppend(turns: seq<Turn>, turn: Turn)
    ensures Offered(turns + [turn]) ==
      if Unfinished(turns) && turn.OutItem? then Offered(turns) + turn.data else Offered(turns)
  {
    if turns == [] {
      assert turns + [turn] == [turn];
    } else {
      OfferedAppend(turns[1..], turn);
      assert (turns + [turn])[1..] == turns[1..] + [turn] && (turns + [turn])[0] == turns[0];
      assert Unfinished(turns) <==> Unfinished(turns[..1]) && Unfinished(turns[1..]);
    }
  }

  /** The pump over the two halves of an accepted stream. A turn of a half that is closed is never taken. */
  method Pump(turns: seq<Turn>) returns (exit: Exit, events: seq<Event>, used: nat, sent: seq<byte>, fins: nat)
    ensures used <= |turns| && (exit.Running? ==> used == |turns|)
    ensures Body(events, true, false) || (!exit.Returned? && Body(events, false, false))
    ensures EventBytes(events) == Received(turns[..used])
    ensures sent <= Offered(turns[..used]) && (!exit.Failed? ==> sent == Offered(turns[..used]))
    ensures fins <= 1 && (exit.Returned? ==> fins == 1)
  {
    events, used, sent, fins := [], 0, [], 0;
    var outboundOpen, inboundOpen := true, true;
    assert events[..0] == events;
    while used < |turns|
      invariant used <= |turns|
      invariant Body(events, !inboundOpen, false)
      invariant fins == if outboundOpen then 0 else 1
      invariant inboundOpen <==> Unended(turns[..used])
      invariant outboundOpen <==> Unfinished(turns[..used])
      invariant EventBytes(events) == Received(turns[..used])
      invariant sent == Offered(turns[..used])
      invariant inboundOpen || outboundOpen
    {
      var turn := turns[used];
      TurnTaken(turns, used);
      used := used + 1;
      match turn {
        case OutItem(data, eof, sendOk, finishOk) =>
          if outboundOpen {
            if data != [] {
              if !sendOk {
                return Failed, events, used, sent, fins;
              }
              sent := sent + data;
            }
            if eof {
              if !finishOk {
                return Failed, events, used, sent, fins;
              }
              outboundOpen, fins := false, fins + 1;
            }
          }
        case OutClosed(finishOk) =>
          if outboundOpen {
            if !finishOk {
              return Failed, events, used, sent, fins;
            }
            outboundOpen, fins := false, fins + 1;
          }
        case InData(bytes) =>
          if inboundOpen {
            BodyGrows(events, bytes);
            EventBytesAppend(events, Data(bytes));
            events := events + [Data(bytes)];
          }
        case InEnd =>
          if inboundOpen {
            BodyGrows(events, []);
            EventBytesAppend(events, Eof);
            inboundOpen, events := false, events + [Eof];
          }
        case InError =>
          if inboundOpen {
            return Failed, events, used, sent, fins;
          }
      }
      if !inboundOpen && !outboundOpen {
        return Returned, events, used, sent, fins;
      }
    }
    exit := Running;
  }

  lemma TurnTaken(turns: seq<Turn>, i: nat)
    requires i < |turns|
    ensures var before, after := turns[..i], turns[..i + 1];
      && (Unended(after) <==> Unended(before) && !turns[i].InEnd? && !turns[i].InError?)
      && (Unfinished(after) <==> Unfinished(before) && !turns[i].OutClosed? && !(turns[i].OutItem? && turns[i].eof))
      && Received(after) == Received(before)
           + (if Unended(before) && turns[i].InData? then turns[i].bytes else [])
      && Offered(after) == Offered(before)
           + (if Unfinished(before) && turns[i].OutItem? then turns[i].data else [])
  {
    var before := turns[..i];
    assert turns[..i + 1] == before + [turns[i]];
    if Unended(before) {
      ReceivedAppend(before, turns[i]);
    } else {
      ReceivedAfterEnd(before, turns[i]);
    }
    OfferedAppend(before, turns[i]);
    assert forall j :: 0 <= j < i ==> turns[..i + 1][j] == before[j];
    assert turns[..i + 1][i] == turns[i];
  }

  /** The whole task, with the error event that its caller adds. Its trace is in the grammar: open while it
      runs, complete once it returns. After a 200 it returns normally only when both halves are closed and
      one FIN was sent; every byte of the response came out in order, and what was sent is what was offered. */
  method PumpTcpH3(opening: Opening, turns: seq<Turn>)
    returns (exit: Exit, events: seq<Event>, used: nat, sent: seq<byte>, fins: nat)
    ensures if exit.Running? then OpenTrace(events) else CompleteTrace(events)
    ensures exit.Failed? <==> Error in events
    ensures exit.Returned? && events[0] == Status(200) ==> Body(events[1..], true, false) && fins == 1
    ensures used <= |turns| && sent <= Offered(turns[..used]) && fins <= 1
    ensures opening != Response(200) ==> sent == [] && fins == 0 && !exit.Running?
    ensures opening == Response(200) ==> EventBytes(events) == Received(turns[..used])
    ensures opening == Response(200) && !exit.Failed? ==> sent == Offered(turns[..used])
  {
    used, sent, fins := 0, [], 0;
    if !opening.Response? {
      return Failed, [Error], used, sent, fins;
    }
    if opening.code != 200 {
      return Returned, [Status(opening.code)], used, sent, fins;
    }
    var body;
    exit, body, used, sent, fins := Pump(turns);
    StatusFirst(body);
    if exit.Failed? {
      FailedTrace(body);
      events := [Status(200)] + body + [Error];
    } else {
      UnfailedTrace(body);
      events := [Status(200)] + body;
    }
  }

  lemma StatusFirst(body: seq<Event>)
    ensures ([Status(200)] + body)[1..] == body && EventBytes([Status(200)] + body) == EventBytes(body)
  {
  }

  lemma UnfailedTrace(body: seq<Event>)
    requires Body(body, true, false) || Body(body, false, false)
    ensures OpenTrace([Status(200)] + body) && Error !in [Status(200)] + body
    ensures Body(body, true, false) ==> CompleteTrace([Status(200)] + body)
  {
  }

  lemma FailedTrace(body: seq<Event>)
    requires Body(body, true, false) || Body(body, false, false)
    ensures var events := [Status(200)] + body + [Error];
            CompleteTrace(events) && events[0] == Status(200) && EventBytes(events) == EventBytes(body)
  {
    var ended := Body(body, true, false);
    BodyFails(body, ended);
    StatusFirst(body + [Error]);
    EventBytesAppend(body, Error);
    assert [Status(200)] + body + [Error] == [Status(200)] + (body + [Error]);
  }
}
