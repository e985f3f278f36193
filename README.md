# Alpaca voice-assistant WebSocket session, modelled in Dafny

This project models the session core of the Alpaca assistant's API server
(`src/api/server.py`). It has two parts.

- **The queue reader** (`handle_interaction_queue`). It takes events off the
  interaction's FIFO queue one at a time and forwards each to the client. It
  stops after the first `status` message whose state is `Error`, `Cancelled`
  or `Disabled`. It also stops when a send fails.
- **The command dispatcher** (the receive loop of `websocket_endpoint`). It
  keeps three handles: the interaction task, the queue reader task and the
  queue they share. It also keeps the client's user name. The handlers
  `start`, `stop`, `send_text`, `interrupt` and `toggle_vad_interrupt`, and the
  reply to an unknown action, each update that state and reply to the client.
  So do the connection-open reset and the disconnect and `finally` teardown.

Files:

- `protocol.dfy` (module `Protocol`): the messages sent to the client, the
  connection (`Socket`, which records what it delivered), the `EventQueue`,
  and the asyncio task handles (`Task`).
- `relay.dfy` (module `Relay`): the reader loop `HandleInteractionQueue`,
  proved against `Forwarded` / `Taken` / `RunExit`. Those are defined through
  `FirstStop`, the first queued message the reader stops on. The reader is
  also related to an independent definition, `UpToFinal`.
- `text.dfy` (module `Text`): Python's `str.strip()`, used for the user name,
  and how a streamed text reply is accumulated.
- `session.dfy` (module `Session`): the
  connection-scoped state (`Server`) with one method per handler. Each
  handler's effect is a named two-state predicate (`StartEffect`,
  `StopEffect`, `TextEffect`, `InterruptEffect`), which `Receive` ensures too.
  `Valid()` is the invariant every handler keeps: the three handles are set
  and cleared together, and when set, the worker and the reader share the one
  queue.
- `scenarios.dfy` (module `Scenarios`): consequences proved from the contracts
  alone. These are two `stop`s in a row, a restart next to a still-waiting
  reader, a worker turn ending in `Idle` and one ending in `Cancelled`, a
  full voice round trip, and a reader that runs after a disconnect.

How the environment is represented:

- The network becomes `Socket.connected` plus each event's `encodeError`.
  Together these decide whether a send is delivered, raises a disconnect, or
  raises some other error.
- The backend becomes inputs. These are the `Backend` capabilities, the
  `Fault` a start may raise, the chunks and fault of a text reply
  (`TextRun`), and whether `interrupt()` raises.
- A task's completion is `Task.Finish`. The worker's is called from outside.
  The reader's is called by `Relay.HandleInteractionQueue` itself, when its
  loop returns, so a reader task is done exactly when a run has ended
  instead of waiting on an empty queue.
- `cancel()` is a request. It is recorded in `Server.cancelled`.
- A reader handle dropped while still unfinished, without a `cancel()`, is
  recorded in `Server.released`.

Behaviour the model makes visible:

- The reader's final set is the one the code tests on line 168:
  `{Error, Cancelled, Disabled}`. The comment on line 167 also names `Idle`
  and `Interrupted`. The client stops reading on `Idle` as well
  (`src/api/test.py:130`), and one of its checks also stops on `Interrupted`
  (`src/api/test.py:58`); on `Interrupted` its main loop keeps reading
  (`src/api/test.py:124-128`). The server's reader does not stop on `Idle` or
  `Interrupted`, and the model follows the server. `Relay.IdleDoesNotEndRun`,
  `Scenarios.IdleTurn` and `Scenarios.VoiceRoundTrip` show the effect: after
  `Processing`, a chunk and `Idle`, the reader task is not done and still
  waits on its queue, whereas `Scenarios.CancelledTurn` shows the same turn
  ending in `Cancelled` finishing it.
- The busy check looks only at the interaction task. `stop` drops the reader
  handle without cancelling it. A `start` after an interaction has finished
  overwrites the old reader handle, also without cancelling it. So two
  readers can be alive at once, each on its own queue
  (`Scenarios.RestartBesideWaitingReader`). The model does not assume that
  readers exclude each other.
- Other behaviours of the code the model keeps:
  - a busy `send_text` is answered with an error whose state is `Busy`
    (src/api/server.py:402-404);
  - `start` with mode `text` only answers with an info message
    (src/api/server.py:349-353);
  - `stop` while idle still clears the handles of finished tasks
    (src/api/server.py:376-379);
  - teardown cancels the tasks without waiting for them to end
    (src/api/server.py:497-501).

## Model

| member | source | states |
|---|---|---|
| `Protocol.Socket.Send` | src/api/server.py:165 | a send on a closed connection raises a disconnect and delivers nothing; a record that cannot be encoded raises with its error and delivers nothing; otherwise the record is appended to what the client received |
| `Protocol.EventQueue.Get` | src/api/server.py:164 | `get` on a non-empty queue returns its oldest element and removes exactly that element |
| `Relay.FirstStop` | src/api/server.py:163-170 | the position of the first queued message on which the reader stops (a failed send or a final status); no earlier message stops it; the queue length when none does |
| `Relay.HandleInteractionQueue` | src/api/server.py:160-184 | the client receives exactly `Forwarded` of the queue; the queue loses exactly `Taken` messages from its front; the exit is final-state, waiting on an empty queue, client gone, or crashed, as `RunExit` says; the reader task is done exactly when the exit is not waiting |
| `Relay.StopAt` | src/api/server.py:164-182 | when the reader stops at a position, everything before it has been forwarded, exactly one more message is taken, and that message decides what else is sent and how the reader exits |
| `Relay.ForwardedStep` | src/api/server.py:163-170 | a message the reader does not stop on is forwarded first, and the run continues on the rest of the queue |
| `Relay.CleanRunIsUpToFinal` | src/api/server.py:163-170 | with a connected client and encodable records, the reader forwards the queue in FIFO order up to and including its first final status, each exactly once, and takes nothing queued after it |
| `Relay.CleanRunExit` | src/api/server.py:163-170 | with a connected client and encodable records, the reader ends at a final status if and only if one is queued; otherwise it drains the queue and waits |
| `Relay.ForwardedIsQueuePrefix` | src/api/server.py:163-182 | what the client receives is the queue's own prefix; at most one more message follows it, which is either the stopping message itself or, on a crash, the single "Queue reader error" notice |
| `Relay.NothingAfterFinal` | src/api/server.py:168-170 | nothing queued after a final status is ever forwarded or taken off the queue |
| `Relay.IdleDoesNotEndRun` | src/api/server.py:167-168 | an `Idle` or `Interrupted` status does not stop the reader: the message queued behind it is still forwarded |
| `Relay.DisconnectedRunSendsNothing` | src/api/server.py:173-174 | when the client has gone, the reader delivers nothing, takes one message and exits without retrying |
| `Text.TrimStart` | src/api/server.py:280 | a suffix of the input with only whitespace removed before it, starting with a non-whitespace character unless empty |
| `Text.TrimEnd` | src/api/server.py:280 | a prefix of the input with only whitespace removed after it, ending with a non-whitespace character unless empty |
| `Text.Strip` | src/api/server.py:278-280 | `str.strip()`: an infix of the input with only whitespace removed on either side, with no whitespace at its ends, and empty exactly when the input is all whitespace |
| `Text.IsSpace` | src/api/server.py:280 | the whitespace `strip()` removes: the ASCII separators, the no-break and ideographic spaces; not the zero-width space or byte-order mark, and never a letter, digit or underscore |
| `Text.NonEmptyKeeps` | src/api/server.py:416-417 | the non-empty chunks: every element is non-empty and comes from the input, every non-empty input chunk is kept, and as often as it occurs (the multiset of the input without `""`) |
| `Text.NonEmptyAppend` | src/api/server.py:416-419 | a further chunk is kept at the end when non-empty and dropped when empty |
| `Text.ConcatAppend` | src/api/server.py:418 | appending a chunk to the response appends its text |
| `Text.ConcatSkipsEmpty` | src/api/server.py:415-421 | the final response, built from the non-empty chunks only, equals the concatenation of all the chunks the backend produced |
| `Session.ChunkMessagesAppend` | src/api/server.py:419 | sending one more chunk appends one `llm_chunk` message carrying its text |
| `Session.StreamStep` | src/api/server.py:416-419 | one chunk of the stream: the kept chunks, the response and the sent messages grow by that chunk exactly when it is non-empty |
| `Session.StreamChunks` | src/api/server.py:415-420 | the client receives one `llm_chunk` per non-empty chunk, in order, and the accumulated response is their concatenation |
| `Session.Server.BusyHandles` | src/api/server.py:292-323 | whenever the busy check (`Busy()`: an interaction task present and not done) holds, the reader and queue handles are set too, and the running interaction and its reader share the current queue |
| `Session.Server.constructor` | src/api/server.py:31-49 | a fresh server state: no handles, user name `User`, nothing cancelled or released |
| `Session.Server.Reset` | src/api/server.py:497-501 | every still-running handle is cancelled, the interaction task first, then all three handles are cleared; nothing is sent |
| `Session.Server.Open` | src/api/server.py:198-206 | accepting a connection cancels the previous connection's still-running tasks and clears all three handles; the user name persists |
| `Session.Server.Disconnect` | src/api/server.py:474-501 | the connection is gone and nothing is sent; a disconnect cancels each still-running task exactly once, although both the handler and the `finally` block run, and leaves all three handles cleared |
| `Session.Server.Fail` | src/api/server.py:487-501 | any other error in the loop sends one "Server error" notice if the client is still there, closes the connection, cancels still-running tasks and clears the handles |
| `Session.Server.HandleStart` | src/api/server.py:288-356 | while busy (`Busy()`: an interaction task present and not done): exactly one `Busy` error and no change. Voice mode (`ModeOf`: the `mode` field, `"voice"` when absent): a fresh empty queue with fresh reader and interaction tasks bound to it, and no reply. If startup raises: one error, the new reader cancelled, all handles cleared. `text`: one info message; any other mode: one "Unsupported start mode" error; in both cases the handles are unchanged. `Valid()` is preserved |
| `Session.Server.StartVoice` | src/api/server.py:296-347 | from idle: a fresh empty queue, then a fresh reader and a fresh interaction task bound to it, no reply, the previous reader handle dropped uncancelled; if creating the interaction raises, one error naming the fault, the new reader cancelled, all three handles cleared |
| `Session.Server.HandleStop` | src/api/server.py:359-391 | all three handles cleared; a running interaction is cancelled and answered "Interaction cancelled", otherwise the reply is the `Idle` "nothing active to stop" status; the reader handle is dropped without cancel |
| `Session.Server.HandleSendText` | src/api/server.py:394-431 | empty or missing text (`NoText`) gives one `Idle`-state error (checked before busy); busy gives one `Busy` error; otherwise `Processing`, one `llm_chunk` per non-empty chunk in order, then an `Idle` status whose `final_response` is their concatenation (or the error replies of a failure); the server's state is untouched |
| `Session.Server.HandleInterrupt` | src/api/server.py:434-457 | the output's `interrupt()` is called only when the backend offers it; exactly one info reply says whether it was signalled; no handle changes |
| `Session.Server.Receive` | src/api/server.py:270-471 | a non-empty string `user_name` (`GivesUserName`) is stored stripped; without an assistant every command gets exactly one error and nothing else changes; each action has its handler's effect; `toggle_vad_interrupt` and unknown actions send exactly one message; only `start` and `stop` touch the handles; `Valid()` is preserved |
| `Session.Server.Dispatch` | src/api/server.py:287-471 | each action has its handler's effect; `toggle_vad_interrupt` sends exactly one info message and an unknown action exactly one "Unknown action" error; only `start` and `stop` touch the handles; the user name is untouched |
| `Scenarios.StopTwice` | src/api/server.py:359-391 | after any state, a second consecutive `stop` always gets the "nothing active to stop" reply and cancels nothing more |
| `Scenarios.RestartBesideWaitingReader` | src/api/server.py:292-323 | after an interaction has finished while its reader still waits, `start` installs a second reader on a new queue; the old reader is neither cancelled nor finished |
| `Scenarios.IdleTurn` | src/api/server.py:163-170 | a worker turn of `Processing`, one chunk and `Idle` reaches the client in order, and the reader then waits on its empty queue instead of exiting: its task is not done |
| `Scenarios.CancelledTurn` | src/api/server.py:163-170 | the same turn ending in a `Cancelled` status reaches the client in order, the reader exits at that status and its task is done, and a chunk queued after it stays on the queue |
| `Scenarios.VoiceRoundTrip` | src/api/server.py:160-391 | start voice; the worker queues `Processing`, one chunk and `Idle`, then ends. The client receives exactly those three messages in order, and the reader's run ends waiting, so its task is not done. A following `stop` answers "nothing active to stop" and drops that reader, still running, without cancelling it |
| `Scenarios.ReaderAfterDisconnect` | src/api/server.py:173-174 | after a disconnect the handles are cleared, and a reader that still has events queued delivers nothing more to the client, takes one event and ends with its task done |

## Left out

- `src/api/test.py` is a manual client (WebSocket I/O, base64 and audio playback); it is not modelled.
- The FastAPI/WebSocket transport, `accept`/`close` handshakes, JSON framing and the `/config` endpoint (src/api/server.py:145-157) are I/O. The connection is a `Socket` that records delivered messages.
- asyncio scheduling and cancellation. A reader run is modelled as "run until it stops or blocks on an empty queue"; interleavings are sequences of such runs, worker `put`s and commands. `cancel()` is a logged request. The reader's own `CancelledError` exit path and `queue.task_done()` are not modelled.
- The backend (`run_voice_interaction_loop`, `run_single_text_interaction`, `generate_initial_greeting`, `output_handler.interrupt`, `component_manager.cleanup`) is external. Its outcomes are inputs, and the exception texts it produces are opaque `detail` strings. The interaction parameters (timeout, phrase limit, duration; src/api/server.py:308-310) and the user name passed to the backend are not modelled.
- Startup and shutdown hooks, configuration loading, `sys.path` edits and the uvicorn entry point (src/api/server.py:10-142, 505-515) are process plumbing.
- The greeting phase (src/api/server.py:211-265) is not modelled. The receive loop handles a missing assistant itself (line 283), so it needs no precondition about it.
- Logging and `print` output.
- JSON fields of other types than the source expects are not modelled: a non-string `action`, `mode`, `text` or `user_name`, a `null` mode, or a non-boolean `enabled`. `toggle_vad_interrupt` renders `enabled` as Python's `True`/`False`.
- `Session.Server.HandleStart`, `StartVoice`, `HandleStop`, `HandleSendText`, `HandleInterrupt`, `Dispatch`, `Receive`: require the connection to be open when the command is handled. A send that fails inside a handler is modelled only as the `Disconnect` transition that follows. Every handler makes its state change either before its first send, or in a way the disconnect teardown makes anyway, so the final state is the same.
- `Relay.HandleInteractionQueue`: the best-effort error notice after a crash is always delivered in the model (the connection is open and the notice encodes), so the `except: pass` around it is not exercised.
- Only an `Event` record can fail to encode. Status, info, error and chunk records are plain strings.
