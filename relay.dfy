// The queue reader: drains an interaction's event queue into the client
// connection until a final status, a failed send, or an empty queue (where
// the real reader suspends waiting for more).

module Relay {
  import opened Protocol

  /** How a run of the reader ends. `Waiting` means the queue is empty and the
      reader is suspended in `get`, still alive. */
  datatype Exit = FinalState | Waiting | ClientGone | Crashed

  /** The reader stops on `m`: the send raises, or `m` is a final status. */
  predicate StopsAt(m: Message, connected: bool)
  {
    !connected || !Encodable(m) || IsFinal(m)
  }

  /** The position of the first queued message the reader stops on, or the
      queue's length when there is none. */
  function FirstStop(items: seq<Message>, connected: bool): (k: nat)
    ensures k <= |items|
    ensures forall j :: 0 <= j < k ==> !StopsAt(items[j], connected)
    ensures k < |items| ==> StopsAt(items[k], connected)
  {
    if items == [] then 0
    else if StopsAt(items[0], connected) then 0
    else 1 + FirstStop(items[1..], connected)
  }

  const ReaderErrorPrefix := "Queue reader error: "

  /** The best-effort notice the reader sends when a send raises something
      other than a disconnect. */
  function ReaderError(detail: string): Message
  {
    Error(ReaderErrorPrefix + detail, Some("Error"))
  }

  /** What the client receives for the message the reader stops on. */
  function LastSends(m: Message, connected: bool): seq<Message>
  {
    if !connected then []
    else if !Encodable(m) then [ReaderError(m.encodeError.value)]
    else [m]
  }

  /** How the reader ends when it stops on `m`. */
  function ExitAt(m: Message, connected: bool): Exit
  {
    if !connected then ClientGone
    else if !Encodable(m) then Crashed
    else FinalState
  }

  /** Everything one run of the reader sends, given what is queued. */
  function Forwarded(items: seq<Message>, connected: bool): seq<Message>
  {
    var k := FirstStop(items, connected);
    if k == |items| then items else items[..k] + LastSends(items[k], connected)
  }

  /** How many queued messages one run of the reader takes off the queue. */
  function Taken(items: seq<Message>, connected: bool): (n: nat)
    ensures n <= |items|
  {
    var k := FirstStop(items, connected);
    if k == |items| then k else k + 1
  }

  /** How one run of the reader ends. */
  function RunExit(items: seq<Message>, connected: bool): Exit
  {
    var k := FirstStop(items, connected);
    if k == |items| then Waiting else ExitAt(items[k], connected)
  }

  /** The reader stops at position `n`: everything before it was forwarded,
      and the run's outcome is decided by that message. */
  lemma StopAt(items: seq<Message>, connected: bool, n: nat)
    requires n < |items| && n <= FirstStop(items, connected) && StopsAt(items[n], connected)
    ensures FirstStop(items, connected) == n
    ensures Forwarded(items, connected) == items[..n] + LastSends(items[n], connected)
    ensures Taken(items, connected) == n + 1
    ensures RunExit(items, connected) == ExitAt(items[n], connected)
  {
  }

  /** handle_interaction_queue, run as the reader task `t` until it ends or
      blocks on an empty queue; the task is done exactly when the loop has
      returned. */
  method HandleInteractionQueue(ws: Socket, q: EventQueue, t: Task) returns (exit: Exit)
    requires t.role == Reader && t.queue == q && !t.done
    modifies ws, q, t
    ensures t.done <==> exit != Waiting
    ensures ws.connected == old(ws.connected)
    ensures ws.sent == old(ws.sent) + Forwarded(old(q.items), old(ws.connected))
    ensures q.items == old(q.items)[Taken(old(q.items), old(ws.connected))..]
    ensures exit == RunExit(old(q.items), old(ws.connected))
  {
    ghost var queued := q.items;
    ghost var c := ws.connected;
    ghost var n := 0;
    exit := Waiting;
    while q.items != []
      invariant ws.connected == c && !t.done
      invariant 0 <= n <= FirstStop(queued, c) && n <= |queued|
      invariant q.items == queued[n..]
      invariant ws.sent == old(ws.sent) + queued[..n]
      decreases |q.items|
    {
      var m := q.Get();
      assert m == queued[n];
      var r := ws.Send(m);
      if r.Disconnected? {
        StopAt(queued, c, n);
        exit := ClientGone;
        t.Finish();
        return;
      }
      if r.Raised? {
        // a best-effort error notice; its own failure would be ignored
        var ignored := ws.Send(ReaderError(r.detail));
        StopAt(queued, c, n);
        exit := Crashed;
        t.Finish();
        return;
      }
      if IsFinal(m) {
        StopAt(queued, c, n);
        exit := FinalState;
        t.Finish();
        return;
      }
      assert queued[..n + 1] == queued[..n] + [m];
      n := n + 1;
    }
    assert queued[..n] == queued;
  }

  /** Reference definition: the queue up to and including its first final
      status, or all of it when there is none. */
  function UpToFinal(items: seq<Message>): seq<Message>
  {
    if items == [] then []
    else if IsFinal(items[0]) then [items[0]]
    else [items[0]] + UpToFinal(items[1..])
  }

  /** One step of the reader: a message it does not stop on is forwarded and
      the run continues with the rest of the queue. */
  lemma ForwardedStep(items: seq<Message>, connected: bool)
    requires items != [] && !StopsAt(items[0], connected)
    ensures Forwarded(items, connected) == [items[0]] + Forwarded(items[1..], connected)
    ensures Taken(items, connected) == 1 + Taken(items[1..], connected)
    ensures RunExit(items, connected) == RunExit(items[1..], connected)
  {
    var rest := items[1..];
    var k := FirstStop(rest, connected);
    if k < |rest| {
      assert items[..k + 1] == [items[0]] + rest[..k];
    }
  }

  /** When the client is connected and every record encodes, the reader
      forwards exactly the queue up to and including the first final status,
      in order, and takes nothing beyond it. */
  lemma {:induction false} CleanRunIsUpToFinal(items: seq<Message>)
    requires forall i :: 0 <= i < |items| ==> Encodable(items[i])
    ensures Forwarded(items, true) == UpToFinal(items)
    ensures Taken(items, true) == |UpToFinal(items)|
  {
    if items != [] && !IsFinal(items[0]) {
      ForwardedStep(items, true);
      CleanRunIsUpToFinal(items[1..]);
    }
  }

  /** With a connected client and encodable records, the reader ends in
      `FinalState` exactly when some final status is queued, and otherwise
      drains the queue and waits. */
  lemma {:induction false} CleanRunExit(items: seq<Message>)
    requires forall i :: 0 <= i < |items| ==> Encodable(items[i])
    ensures RunExit(items, true) == FinalState <==> exists i :: 0 <= i < |items| && IsFinal(items[i])
    ensures RunExit(items, true) != FinalState ==> RunExit(items, true) == Waiting
  {
    var k := FirstStop(items, true);
    if k < |items| {
      assert IsFinal(items[k]);
    }
  }

  /** FIFO, each at most once: every queued message the reader forwards is
      forwarded at its own position, and the only thing that can follow the
      forwarded prefix is the reader's own error notice. */
  lemma {:induction false} ForwardedIsQueuePrefix(items: seq<Message>, connected: bool)
    ensures var f := Forwarded(items, connected);
            var k := FirstStop(items, connected);
            f[..k] == items[..k] &&
            |f| <= k + 1 &&
            (|f| == k + 1 && RunExit(items, connected) != Crashed ==> f == items[..k + 1]) &&
            (RunExit(items, connected) == Crashed ==> f[k] == ReaderError(items[k].encodeError.value))
  {
  }

  /** Nothing queued after the first final status is ever forwarded. */
  lemma NothingAfterFinal(items: seq<Message>, connected: bool, i: nat)
    requires i < |items| && IsFinal(items[i])
    ensures |Forwarded(items, connected)| <= i + 1
    ensures Taken(items, connected) <= i + 1
  {
  }

  /** An `Idle` or `Interrupted` status does not end the reader: what is
      queued behind it is still forwarded. */
  lemma IdleDoesNotEndRun(items: seq<Message>, i: nat)
    requires i + 1 < |items|
    requires items[i].Status? && items[i].state in {"Idle", "Interrupted"}
    requires forall j :: 0 <= j < i ==> !IsFinal(items[j])
    requires forall j :: 0 <= j <= i + 1 ==> Encodable(items[j])
    ensures |Forwarded(items, true)| > i + 1
    ensures Forwarded(items, true)[i + 1] == items[i + 1]
  {
    var k := FirstStop(items, true);
    assert k > i;
  }

  /** A disconnected client gets nothing; the reader consumes one message. */
  lemma DisconnectedRunSendsNothing(items: seq<Message>)
    requires items != []
    ensures Forwarded(items, false) == []
    ensures Taken(items, false) == 1 && RunExit(items, false) == ClientGone
  {
  }
}
