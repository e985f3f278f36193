// Client-side consequences of the session and reader contracts: what a
// sequence of commands and reader runs does, proved from the contracts alone.

module Scenarios {
  import opened Protocol
  import opened Relay
  import opened Session

  /** Two `stop` commands in a row: whatever the first finds, the second
      always gets the "nothing active" reply and cancels nothing. */
  method StopTwice(s: Server, ws: Socket)
    requires s.Valid() && ws.connected
    modifies s, ws
    ensures s.Valid() && s.Cleared()
    ensures |ws.sent| == |old(ws.sent)| + 2
    ensures ws.sent[|ws.sent| - 1] == NothingToStop
    ensures s.cancelled == old(s.cancelled) + old(Live(s.interaction))
  {
    s.HandleStop(ws);
    s.HandleStop(ws);
  }

  /** A second `start` after a voice interaction finished by itself: the
      previous reader, still waiting on its queue, is neither cancelled nor
      finished, and a second reader on a new queue runs beside it. */
  method RestartBesideWaitingReader(s: Server, ws: Socket) returns (previous: Task)
    requires s.Valid() && ws.connected
    requires s.interaction != null && s.interaction.done
    requires s.reader != null && !s.reader.done && s.reader !in s.cancelled
    modifies s, ws
    ensures previous == old(s.reader)
    ensures s.reader != null && s.reader != previous && s.reader.queue != previous.queue
    ensures !previous.done && !s.reader.done
    ensures previous !in s.cancelled && previous in s.released
  {
    previous := s.reader;
    s.HandleStart(None, ws, None);
  }

  /** The worker queues `Processing`, one chunk and `Idle` on an empty queue,
      and the reader task `t` runs: the client receives the three messages in
      order and the reader is left waiting for more, not done, since `Idle` is
      not final for it. */
  method IdleTurn(ws: Socket, q: EventQueue, t: Task) returns (exit: Exit)
    requires ws.connected && q.items == []
    requires t.role == Reader && t.queue == q && !t.done
    modifies ws, q, t
    ensures exit == Waiting && !t.done && q.items == [] && ws.connected
    ensures ws.sent == old(ws.sent) +
              [Status("Processing", None, None), LlmChunk("hello"), Status("Idle", None, None)]
  {
    q.Put(Status("Processing", None, None));
    q.Put(LlmChunk("hello"));
    q.Put(Status("Idle", None, None));
    var items := q.items;
    exit := HandleInteractionQueue(ws, q, t);
    assert FirstStop(items, true) == 3;
    assert items[..3] == items;
  }

  /** The same turn ending in `Cancelled` instead of `Idle`: the reader
      forwards the three messages, stops at the final status and is done, and
      what the worker queues afterwards stays on the queue. */
  method CancelledTurn(ws: Socket, q: EventQueue, t: Task) returns (exit: Exit)
    requires ws.connected && q.items == []
    requires t.role == Reader && t.queue == q && !t.done
    modifies ws, q, t
    ensures exit == FinalState && t.done && ws.connected
    ensures ws.sent == old(ws.sent) +
              [Status("Processing", None, None), LlmChunk("hello"), Status("Cancelled", None, None)]
    ensures q.items == [LlmChunk("late")]
  {
    q.Put(Status("Processing", None, None));
    q.Put(LlmChunk("hello"));
    q.Put(Status("Cancelled", None, None));
    q.Put(LlmChunk("late"));
    var items := q.items;
    exit := HandleInteractionQueue(ws, q, t);
    assert !StopsAt(items[0], true) && !StopsAt(items[1], true) && StopsAt(items[2], true);
    StopAt(items, true, 2);
    assert items[..2] + [items[2]] == items[..3];
  }

  /** A voice interaction, from `start` to `stop`, in which the worker runs one
      `IdleTurn` and then finishes: the client receives exactly that turn, and
      a `stop` then gets the "nothing active" reply and drops the reader, which
      is still waiting on its queue because `Idle` did not end it, without
      cancelling it. */
  method VoiceRoundTrip() returns (exit: Exit, relayed: seq<Message>, stopReply: Message, leaked: bool)
    ensures exit == Waiting
    ensures relayed == [Status("Processing", None, None), LlmChunk("hello"), Status("Idle", None, None)]
    ensures stopReply == NothingToStop
    ensures leaked
  {
    var s := new Server(Some(Backend(true, true)));
    var ws := new Socket();
    s.Open();
    s.HandleStart(Some("voice"), ws, None);
    var worker, reader := s.interaction, s.reader;
    assert ws.sent == [] && s.queue.items == [];
    exit := IdleTurn(ws, s.queue, reader);
    worker.Finish();
    relayed := ws.sent;
    s.HandleStop(ws);
    stopReply := ws.sent[|ws.sent| - 1];
    leaked := reader in s.released && reader !in s.cancelled && !reader.done;
  }

  /** A disconnect while a reader still has events queued: the handles are
      cleared, and when the dropped reader runs again it delivers nothing more
      to the client, takes one event and ends. */
  method ReaderAfterDisconnect(s: Server, ws: Socket, q: EventQueue, t: Task) returns (exit: Exit)
    requires s.Valid() && q.items != []
    requires t.role == Reader && t.queue == q && !t.done
    modifies s, ws, q, t
    ensures s.Valid() && s.Cleared()
    ensures exit == ClientGone && t.done
    ensures ws.sent == old(ws.sent) && q.items == old(q.items)[1..]
  {
    ghost var items := q.items;
    s.Disconnect(ws);
    exit := HandleInteractionQueue(ws, q, t);
    DisconnectedRunSendsNothing(items);
  }
}
