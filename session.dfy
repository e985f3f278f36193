// The per-connection session state of the WebSocket endpoint: the handles of
// the running interaction task, of its queue reader and of the queue they
// share, the client's user name, and the command dispatcher and teardown
// that update them.

module Session {
  import opened Protocol
  import opened Text

  /** The assistant instance, by the capabilities the endpoint probes for. */
  datatype Backend = Backend(hasInteractionHandler: bool, canInterrupt: bool)

  /** An exception raised by a backend call, by the handler that catches it. */
  datatype Fault = AttributeFault(detail: string) | OtherFault(detail: string)

  /** What the backend's text interaction yields: the chunks it produced, and
      the exception that ended it early, if any. */
  datatype TextRun = TextRun(chunks: seq<string>, fault: Option<Fault>)

  /** One received JSON command, by the fields the endpoint reads
      (`None` where the field is absent). */
  datatype Command = Command(
    action: Option<string>,
    userName: Option<string>,
    mode: Option<string>,
    text: Option<string>,
    enabled: Option<bool>)

  /** What the backend does while one command is handled. */
  datatype Effects = Effects(startFault: Option<Fault>, textRun: TextRun, interruptRaises: bool)

  // The replies of the command dispatcher.
  const NotInitialised := Error("Alpaca assistant not initialized.", Some("Error"))
  const AlreadyInProgress := Error("An interaction is already in progress.", Some("Busy"))
  const UseSendText := Info("Use 'send_text' action for text interactions.")
  const StopCancelled := Info("Stop command processed. Interaction cancelled.")
  const NothingToStop := Status("Idle", Some("Stop command received, nothing active to stop."), None)
  const EmptyText := Error("Received empty text for 'send_text' action.", Some("Idle"))
  const TextWhileBusy := Error("Cannot send text while voice interaction is active.", Some("Busy"))
  const Processing := Status("Processing", None, None)
  const IdleStatus := Status("Idle", None, None)
  const MissingHandler := "Alpaca instance lacks an 'interaction_handler'"
  const InterruptSent := Info("Interrupt signal sent to TTS handler.")
  const InterruptNotSignalled := Info("Interrupt received, but TTS handler could not be signalled.")

  function ConfigError(detail: string): Message
  {
    Error("Server configuration error: " + detail, Some("Error"))
  }

  function StartFailed(f: Fault): Message
  {
    match f
    case AttributeFault(d) => ConfigError(d)
    case OtherFault(d) => Error("Failed to start interaction: " + d, Some("Error"))
  }

  function Unsupported(mode: string): Message
  {
    Error("Unsupported start mode: " + mode, Some("Error"))
  }

  function TextFailed(detail: string): Message
  {
    Error("Error processing text: " + detail, Some("Error"))
  }

  function TextDone(full: string): Message
  {
    Status("Idle", None, Some(full))
  }

  function Toggled(enabled: bool): Message
  {
    Info("VAD Interrupt Toggled: " + (if enabled then "True" else "False") + " (Server logic TBD)")
  }

  function UnknownAction(action: Option<string>): Message
  {
    Error("Unknown action: " + (match action case None => "None" case Some(a) => a), None)
  }

  function ServerError(detail: string): Message
  {
    Error("Server error: " + detail, Some("Error"))
  }

  /** The start mode, `"voice"` when the field is absent. */
  function ModeOf(mode: Option<string>): string
  {
    match mode
    case None => "voice"
    case Some(m) => m
  }

  /** `not text`: the text field is absent or empty. */
  predicate NoText(text: Option<string>)
  {
    text.None? || text.value == ""
  }

  /** A user name field that overwrites the stored one: a non-empty string. */
  predicate GivesUserName(cmd: Command)
  {
    cmd.userName.Some? && cmd.userName.value != ""
  }

  /** The LlmChunk messages for the given texts, in order. */
  function ChunkMessages(texts: seq<string>): seq<Message>
  {
    seq(|texts|, i requires 0 <= i < |texts| => LlmChunk(texts[i]))
  }

  /** The task, as a one-element list, when it is present and unfinished. */
  function Live(t: Task?): seq<Task>
    reads t
  {
    if t != null && !t.done then [t] else []
  }

  /** Appending a text appends its LlmChunk message. */
  lemma ChunkMessagesAppend(texts: seq<string>, x: string)
    ensures ChunkMessages(texts + [x]) == ChunkMessages(texts) + [LlmChunk(x)]
  {
    var l, r := ChunkMessages(texts + [x]), ChunkMessages(texts) + [LlmChunk(x)];
    assert |l| == |r|;
    forall i | 0 <= i < |l| ensures l[i] == r[i] {
      if i < |texts| {
        assert (texts + [x])[i] == texts[i];
      }
    }
  }

  /** One step of the streaming loop over `chunks[i]`: what has been kept,
      joined and sent grows by that chunk exactly when it is non-empty. */
  lemma StreamStep(chunks: seq<string>, i: nat, shown: seq<string>)
    requires i < |chunks| && shown == NonEmpty(chunks[..i])
    ensures var kept := if chunks[i] == "" then [] else [chunks[i]];
            NonEmpty(chunks[..i + 1]) == shown + kept &&
            Concat(shown + kept) == Concat(shown) + chunks[i] &&
            ChunkMessages(shown + kept) == ChunkMessages(shown) + ChunkMessages(kept)
  {
    assert chunks[..i + 1] == chunks[..i] + [chunks[i]];
    NonEmptyAppend(chunks[..i], chunks[i]);
    if chunks[i] != "" {
      ConcatAppend(shown, chunks[i]);
      ChunkMessagesAppend(shown, chunks[i]);
    } else {
      assert shown + [] == shown;
    }
  }

  /** The streaming loop of `send_text`: each non-empty chunk is sent as it
      comes and appended to the full response. */
  method StreamChunks(ws: Socket, chunks: seq<string>) returns (full: string)
    requires ws.connected
    modifies ws
    ensures ws.connected
    ensures full == Concat(NonEmpty(chunks))
    ensures ws.sent == old(ws.sent) + ChunkMessages(NonEmpty(chunks))
  {
    full := "";
    var i := 0;
    ghost var before := ws.sent;
    ghost var shown: seq<string> := [];
    while i < |chunks|
      invariant 0 <= i <= |chunks| && ws.connected
      invariant shown == NonEmpty(chunks[..i])
      invariant full == Concat(shown)
      invariant ws.sent == before + ChunkMessages(shown)
    {
      var chunk := chunks[i];
      StreamStep(chunks, i, shown);
      if chunk != "" {
        full := full + chunk;
        ws.Deliver(LlmChunk(chunk));
        shown := shown + [chunk];
      }
      i := i + 1;
    }
    assert chunks[..i] == chunks;
  }

  /** The endpoint's connection-scoped state (module globals in the server). */
  class Server {
    var backend: Option<Backend>
    var userName: string
    var interaction: Task?
    var reader: Task?
    var queue: EventQueue?
    /** Every `cancel()` request issued, in order. */
    var cancelled: seq<Task>
    /** Reader handles dropped while unfinished, without a `cancel()`. */
    var released: seq<Task>
    /** Calls made to the backend's output `interrupt()`. */
    var interruptCalls: nat

    /** The three handles are set and cleared together, and when set the
        worker and the reader share the one queue. */
    ghost predicate Valid()
      reads this
    {
      (interaction == null && reader == null && queue == null) ||
      (interaction != null && reader != null && queue != null &&
       interaction.role == Worker && reader.role == Reader &&
       interaction.queue == queue && reader.queue == queue)
    }

    /** The busy check: an interaction task is present and not done. */
    predicate Busy()
      reads this`interaction, interaction
    {
      interaction != null && !interaction.done
    }

    /** While busy, all three handles are set: the running interaction and
        the reader share the current queue, and each runs its own role. */
    lemma BusyHandles()
      requires Valid() && Busy()
      ensures reader != null && queue != null
      ensures interaction.queue == queue && reader.queue == queue
      ensures interaction.role == Worker && reader.role == Reader && interaction != reader
    {
    }

    /** The three handles are all cleared. */
    predicate Cleared()
      reads this`interaction, this`reader, this`queue
    {
      interaction == null && reader == null && queue == null
    }

    constructor (backend: Option<Backend>)
      ensures Valid() && Cleared()
      ensures this.backend == backend && userName == "User"
      ensures cancelled == [] && released == [] && interruptCalls == 0
    {
      this.backend := backend;
      userName := "User";
      interaction, reader, queue := null, null, null;
      cancelled, released := [], [];
      interruptCalls := 0;
    }

    /** Cancel whichever handle is still running, then clear all three. */
    method Reset()
      modifies this
      ensures Valid() && Cleared()
      ensures cancelled == old(cancelled) + old(Live(interaction) + Live(reader))
      ensures backend == old(backend) && userName == old(userName)
      ensures released == old(released) && interruptCalls == old(interruptCalls)
    {
      if interaction != null && !interaction.done {
        cancelled := cancelled + [interaction];
      }
      if reader != null && !reader.done {
        cancelled := cancelled + [reader];
      }
      interaction, reader, queue := null, null, null;
    }

    /** A new connection is accepted: remnants of the previous one are
        cancelled and the handles reset. */
    method Open()
      modifies this
      ensures Valid() && Cleared()
      ensures cancelled == old(cancelled) + old(Live(interaction) + Live(reader))
      ensures backend == old(backend) && userName == old(userName)
      ensures released == old(released) && interruptCalls == old(interruptCalls)
    {
      Reset();
    }

    /** The client disconnects: the connection is gone, and the disconnect
        handler, then the `finally` block, both cancel what still runs and
        clear the handles. */
    method Disconnect(ws: Socket)
      modifies this, ws
      ensures Valid() && Cleared()
      ensures !ws.connected && ws.sent == old(ws.sent)
      ensures cancelled == old(cancelled) + old(Live(interaction) + Live(reader))
      ensures backend == old(backend) && userName == old(userName)
      ensures released == old(released) && interruptCalls == old(interruptCalls)
    {
      ws.Close();
      Reset();
      Reset();
    }

    /** Any other error in the receive loop: a best-effort error notice and
        close, then the `finally` block. */
    method Fail(ws: Socket, detail: string)
      modifies this, ws
      ensures Valid() && Cleared() && !ws.connected
      ensures ws.sent == old(ws.sent) + (if old(ws.connected) then [ServerError(detail)] else [])
      ensures cancelled == old(cancelled) + old(Live(interaction) + Live(reader))
      ensures backend == old(backend) && userName == old(userName)
      ensures released == old(released) && interruptCalls == old(interruptCalls)
    {
      if ws.connected {
        ws.Deliver(ServerError(detail));
      }
      ws.Close();
      Reset();
    }

    /** The handles and both logs are as they were. */
    twostate predicate HandlesUnchanged()
      reads this`interaction, this`reader, this`queue, this`cancelled, this`released
    {
      interaction == old(interaction) && reader == old(reader) && queue == old(queue) &&
      cancelled == old(cancelled) && released == old(released)
    }

    /** What `start` does to the handles, the logs and the connection. */
    twostate predicate StartEffect(mode: Option<string>, ws: Socket, fault: Option<Fault>)
      reads this`interaction, this`reader, this`queue, this`cancelled, this`released, ws`sent, queue, interaction, reader
    {
      // mutual exclusion: a start while busy only replies "Busy"
      (old(Busy()) ==>
         ws.sent == old(ws.sent) + [AlreadyInProgress] && HandlesUnchanged()) &&
      // a voice start installs a fresh queue and two fresh tasks bound to it,
      // dropping the previous reader handle without cancelling it
      (!old(Busy()) && ModeOf(mode) == "voice" && fault.None? ==>
         ws.sent == old(ws.sent) &&
         queue != null && fresh(queue) && queue.items == [] &&
         interaction != null && fresh(interaction) && !interaction.done &&
         reader != null && fresh(reader) && !reader.done &&
         cancelled == old(cancelled) && released == old(released) + old(Live(reader))) &&
      // a voice start that raises reports once, cancels its new reader and
      // clears all three handles
      (!old(Busy()) && ModeOf(mode) == "voice" && fault.Some? ==>
         ws.sent == old(ws.sent) + [StartFailed(fault.value)] && Cleared() &&
         |cancelled| == |old(cancelled)| + 1 && cancelled[..|old(cancelled)|] == old(cancelled) &&
         fresh(cancelled[|old(cancelled)|]) && cancelled[|old(cancelled)|].role == Reader &&
         released == old(released) + old(Live(reader))) &&
      // any other mode only replies
      (!old(Busy()) && ModeOf(mode) != "voice" ==>
         ws.sent == old(ws.sent) + [if ModeOf(mode) == "text" then UseSendText else Unsupported(ModeOf(mode))] &&
         HandlesUnchanged())
    }

    /** What `stop` does: cancel a running interaction, drop the reader handle
        without cancelling it, clear all three handles, reply once. */
    twostate predicate StopEffect(ws: Socket)
      reads this`interaction, this`reader, this`queue, this`cancelled, this`released, ws`sent
    {
      Cleared() &&
      cancelled == old(cancelled) + old(Live(interaction)) &&
      released == old(released) + old(Live(reader)) &&
      ws.sent == old(ws.sent) + [if old(Busy()) then StopCancelled else NothingToStop]
    }

    /** What `send_text` sends: the empty-text check first, then the busy
        check, then `Processing`, each non-empty chunk, and a closing message. */
    twostate predicate TextEffect(text: Option<string>, ws: Socket, run: TextRun)
      reads this`backend, ws`sent
    {
      old(backend).Some? &&
      (NoText(text) ==> ws.sent == old(ws.sent) + [EmptyText]) &&
      (!NoText(text) && old(Busy()) ==> ws.sent == old(ws.sent) + [TextWhileBusy]) &&
      (!NoText(text) && !old(Busy()) && !old(backend).value.hasInteractionHandler ==>
         ws.sent == old(ws.sent) + [Processing, ConfigError(MissingHandler)]) &&
      (!NoText(text) && !old(Busy()) && old(backend).value.hasInteractionHandler ==>
         ws.sent == old(ws.sent) + [Processing] + ChunkMessages(NonEmpty(run.chunks)) +
                    match run.fault
                    case None => [TextDone(Concat(NonEmpty(run.chunks)))]
                    case Some(AttributeFault(d)) => [ConfigError(d)]
                    case Some(OtherFault(d)) => [TextFailed(d), IdleStatus])
    }

    /** What `interrupt` does: call the output's `interrupt()` when it has
        one, and reply once whether it was signalled. */
    twostate predicate InterruptEffect(ws: Socket, raises: bool)
      reads this`backend, this`interruptCalls, ws`sent
    {
      old(backend).Some? &&
      interruptCalls == old(interruptCalls) + (if old(backend).value.canInterrupt then 1 else 0) &&
      ws.sent == old(ws.sent) +
        [if old(backend).value.canInterrupt && !raises then InterruptSent else InterruptNotSignalled]
    }

    /** The `start` action. */
    method HandleStart(mode: Option<string>, ws: Socket, fault: Option<Fault>)
      requires Valid() && ws.connected
      modifies this, ws
      ensures Valid() && ws.connected
      ensures backend == old(backend) && userName == old(userName) && interruptCalls == old(interruptCalls)
      ensures StartEffect(mode, ws, fault)
    {
      if interaction != null && !interaction.done {
        ws.Deliver(AlreadyInProgress);
        return;
      }
      var m := ModeOf(mode);
      if m == "voice" {
        StartVoice(ws, fault);
      } else if m == "text" {
        ws.Deliver(UseSendText);
      } else {
        ws.Deliver(Unsupported(m));
      }
    }

    /** A voice start from idle: a new queue, its reader, then the interaction
        task; if creating the interaction raises, report it and undo. */
    method StartVoice(ws: Socket, fault: Option<Fault>)
      requires Valid() && ws.connected && !Busy()
      modifies this, ws
      ensures Valid() && ws.connected
      ensures backend == old(backend) && userName == old(userName) && interruptCalls == old(interruptCalls)
      ensures released == old(released) + old(Live(reader))
      ensures fault.None? ==>
                ws.sent == old(ws.sent) &&
                queue != null && fresh(queue) && queue.items == [] &&
                interaction != null && fresh(interaction) && !interaction.done &&
                reader != null && fresh(reader) && !reader.done &&
                cancelled == old(cancelled)
      ensures fault.Some? ==>
                ws.sent == old(ws.sent) + [StartFailed(fault.value)] && Cleared() &&
                |cancelled| == |old(cancelled)| + 1 && cancelled[..|old(cancelled)|] == old(cancelled) &&
                fresh(cancelled[|old(cancelled)|]) && cancelled[|old(cancelled)|].role == Reader
    {
      released := released + Live(reader);
      var q := new EventQueue();
      queue := q;
      var r := new Task(Reader, q);
      reader := r;
      match fault
      case None =>
        interaction := new Task(Worker, q);
      case Some(f) =>
        ws.Deliver(StartFailed(f));
        // the new reader is at most suspended on its empty queue, so it is still unfinished
        cancelled := cancelled + [r];
        interaction, reader, queue := null, null, null;
    }

    /** The `stop` action. */
    method HandleStop(ws: Socket)
      requires Valid() && ws.connected
      modifies this, ws
      ensures Valid() && ws.connected
      ensures backend == old(backend) && userName == old(userName) && interruptCalls == old(interruptCalls)
      ensures StopEffect(ws)
    {
      var wasRunning := interaction != null && !interaction.done;
      if wasRunning {
        cancelled := cancelled + [interaction];
      }
      released := released + Live(reader);
      interaction, reader, queue := null, null, null;
      if wasRunning {
        ws.Deliver(StopCancelled);
      } else {
        ws.Deliver(NothingToStop);
      }
    }

    /** The `send_text` action: a text interaction streamed directly, outside
        the queue; the session's own fields are not touched. */
    method HandleSendText(text: Option<string>, ws: Socket, run: TextRun)
      requires Valid() && ws.connected && backend.Some?
      modifies ws
      ensures ws.connected
      ensures TextEffect(text, ws, run)
    {
      if NoText(text) {
        ws.Deliver(EmptyText);
        return;
      }
      if interaction != null && !interaction.done {
        ws.Deliver(TextWhileBusy);
        return;
      }
      ws.Deliver(Processing);
      if !backend.value.hasInteractionHandler {
        ws.Deliver(ConfigError(MissingHandler));
        return;
      }
      var full := StreamChunks(ws, run.chunks);
      match run.fault
      case None =>
        ws.Deliver(TextDone(full));
      case Some(AttributeFault(d)) =>
        ws.Deliver(ConfigError(d));
      case Some(OtherFault(d)) =>
        ws.Deliver(TextFailed(d));
        ws.Deliver(IdleStatus);
    }

    /** The `interrupt` action: signal the backend's output, if it can be. */
    method HandleInterrupt(ws: Socket, raises: bool)
      requires Valid() && ws.connected && backend.Some?
      modifies this, ws
      ensures Valid() && ws.connected
      ensures backend == old(backend) && userName == old(userName)
      ensures HandlesUnchanged() && InterruptEffect(ws, raises)
    {
      var signalled := false;
      if backend.value.canInterrupt {
        interruptCalls := interruptCalls + 1;
        signalled := !raises;
      }
      if signalled {
        ws.Deliver(InterruptSent);
      } else {
        ws.Deliver(InterruptNotSignalled);
      }
    }

    /** One iteration of the receive loop: take the user name, check for the
        assistant, dispatch on the action. */
    method Receive(cmd: Command, ws: Socket, fx: Effects)
      requires Valid() && ws.connected
      modifies this, ws
      ensures Valid() && ws.connected
      ensures backend == old(backend)
      ensures userName == if GivesUserName(cmd) then Strip(cmd.userName.value) else old(userName)
      // without an assistant every command gets one error and nothing else
      ensures old(backend).None? ==>
                ws.sent == old(ws.sent) + [NotInitialised] && HandlesUnchanged() &&
                interruptCalls == old(interruptCalls)
      ensures old(backend).Some? && cmd.action == Some("start") ==>
                StartEffect(cmd.mode, ws, fx.startFault)
      ensures old(backend).Some? && cmd.action == Some("stop") ==> StopEffect(ws)
      ensures old(backend).Some? && cmd.action == Some("send_text") ==>
                TextEffect(cmd.text, ws, fx.textRun)
      ensures old(backend).Some? && cmd.action == Some("interrupt") ==>
                InterruptEffect(ws, fx.interruptRaises)
      ensures old(backend).Some? && cmd.action == Some("toggle_vad_interrupt") ==>
                ws.sent == old(ws.sent) + [Toggled(cmd.enabled == Some(true))]
      ensures old(backend).Some? && cmd.action !in {Some("start"), Some("stop"), Some("send_text"),
                                                    Some("interrupt"), Some("toggle_vad_interrupt")} ==>
                ws.sent == old(ws.sent) + [UnknownAction(cmd.action)]
      // only start and stop touch the handles, only interrupt calls the backend's output
      ensures cmd.action != Some("start") && cmd.action != Some("stop") ==> HandlesUnchanged()
      ensures cmd.action != Some("interrupt") ==> interruptCalls == old(interruptCalls)
    {
      if GivesUserName(cmd) {
        userName := Strip(cmd.userName.value);
      }
      if backend.None? {
        ws.Deliver(NotInitialised);
        return;
      }
      Dispatch(cmd, ws, fx);
    }

    /** The action switch of the receive loop, with an assistant present. */
    method Dispatch(cmd: Command, ws: Socket, fx: Effects)
      requires Valid() && ws.connected && backend.Some?
      modifies this, ws
      ensures Valid() && ws.connected
      ensures backend == old(backend) && userName == old(userName)
      ensures cmd.action == Some("start") ==> StartEffect(cmd.mode, ws, fx.startFault)
      ensures cmd.action == Some("stop") ==> StopEffect(ws)
      ensures cmd.action == Some("send_text") ==> TextEffect(cmd.text, ws, fx.textRun)
      ensures cmd.action == Some("interrupt") ==> InterruptEffect(ws, fx.interruptRaises)
      ensures cmd.action == Some("toggle_vad_interrupt") ==>
                ws.sent == old(ws.sent) + [Toggled(cmd.enabled == Some(true))]
      ensures cmd.action !in {Some("start"), Some("stop"), Some("send_text"),
                              Some("interrupt"), Some("toggle_vad_interrupt")} ==>
                ws.sent == old(ws.sent) + [UnknownAction(cmd.action)]
      ensures cmd.action != Some("start") && cmd.action != Some("stop") ==> HandlesUnchanged()
      ensures cmd.action != Some("interrupt") ==> interruptCalls == old(interruptCalls)
    {
      var action := cmd.action;
      if action == Some("start") {
        HandleStart(cmd.mode, ws, fx.startFault);
      } else if action == Some("stop") {
        HandleStop(ws);
      } else if action == Some("send_text") {
        HandleSendText(cmd.text, ws, fx.textRun);
      } else if action == Some("interrupt") {
        HandleInterrupt(ws, fx.interruptRaises);
      } else if action == Some("toggle_vad_interrupt") {
        ws.Deliver(Toggled(cmd.enabled == Some(true)));
      } else {
        ws.Deliver(UnknownAction(action));
      }
    }
  }
}
