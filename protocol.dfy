// The messages the session server exchanges with its client, the client
// transport (a WebSocket reduced to the sequence of messages it delivered) and
// the unbounded FIFO queue through which a backend worker hands events to the
// queue reader, and the task handles of the worker and the reader.

module Protocol {

  datatype Option<T> = None | Some(value: T)

  /** A JSON record sent to the client, by its "type" field.
      `Event` stands for any other record a backend worker puts on the queue
      (audio chunks, transcripts, ...), which the reader forwards verbatim;
      `encodeError` is the error JSON encoding raises on it, if any. */
  datatype Message =
    | Status(state: string, remark: Option<string>, finalResponse: Option<string>)
    | Info(message: string)
    | Error(message: string, errorState: Option<string>)
    | LlmChunk(text: string)
    | Event(kind: string, encodeError: Option<string>)

  /** The states the queue reader treats as the end of an interaction. */
  const FinalStates: set<string> := {"Error", "Cancelled", "Disabled"}

  /** A status message whose state ends the queue reader. */
  predicate IsFinal(m: Message)
  {
    m.Status? && m.state in FinalStates
  }

  /** Whether the transport can encode the message as JSON. */
  predicate Encodable(m: Message)
  {
    !(m.Event? && m.encodeError.Some?)
  }

  /** What one `send_json` call does: delivers, raises a disconnect, or raises
      some other error (with its text). */
  datatype SendOutcome = Delivered | Disconnected | Raised(detail: string)

  /** The connection to the client, as the messages it has delivered so far. */
  class Socket {
    var connected: bool
    var sent: seq<Message>

    constructor ()
      ensures connected && sent == []
    {
      connected := true;
      sent := [];
    }

    /** One `send_json`: a closed connection raises a disconnect, a record
        that cannot be encoded raises, anything else is delivered. */
    method Send(m: Message) returns (r: SendOutcome)
      modifies this
      ensures connected == old(connected)
      ensures r == if !connected then Disconnected
                   else if !Encodable(m) then Raised(m.encodeError.value)
                   else Delivered
      ensures sent == old(sent) + (if r.Delivered? then [m] else [])
    {
      if !connected {
        r := Disconnected;
      } else if !Encodable(m) {
        r := Raised(m.encodeError.value);
      } else {
        r := Delivered;
        sent := sent + [m];
      }
    }

    /** A send whose outcome the caller already knows to be a delivery. */
    method Deliver(m: Message)
      requires connected && Encodable(m)
      modifies this
      ensures connected && sent == old(sent) + [m]
    {
      sent := sent + [m];
    }

    /** The client goes away. */
    method Close()
      modifies this
      ensures !connected && sent == old(sent)
    {
      connected := false;
    }
  }

  /** An unbounded FIFO mailbox of events awaiting delivery. */
  class EventQueue {
    var items: seq<Message>

    constructor ()
      ensures items == []
    {
      items := [];
    }

    /** The worker side: `put`. */
    method Put(m: Message)
      modifies this
      ensures items == old(items) + [m]
    {
      items := items + [m];
    }

    /** The reader side: `get` on a non-empty queue (on an empty one the
        reader suspends, which the reader's loop models by stopping). */
    method Get() returns (m: Message)
      requires items != []
      modifies this
      ensures m == old(items)[0] && items == old(items)[1..]
    {
      m := items[0];
      items := items[1..];
    }
  }

  /** Which coroutine a task runs: the backend's voice loop or the queue reader. */
  datatype Role = Worker | Reader

  /** An asyncio task handle: what it runs, the queue it is bound to, and
      whether it has finished. */
  class Task {
    const role: Role
    const queue: EventQueue
    var done: bool

    constructor (role: Role, queue: EventQueue)
      ensures this.role == role && this.queue == queue && !done
    {
      this.role := role;
      this.queue := queue;
      done := false;
    }

    /** The coroutine returns or raises. For the worker this is decided
        outside the session; the reader finishes when its loop returns. */
    method Finish()
      modifies this
      ensures done
    {
      done := true;
    }
  }
}
