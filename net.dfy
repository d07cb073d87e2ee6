/**
 * A client connection (`ws`), reduced to what the server reads and does with
 * it: its `readyState`, and the messages handed to `send`, which are recorded
 * in an outbox instead of being transmitted.
 */
module Net {
  import opened Protocol

  /** The WebSocket `readyState` values CONNECTING, OPEN, CLOSING and CLOSED. */
  datatype ReadyState = Connecting | Open | Closing | Closed

  class Socket {
    var readyState: ReadyState
    var sent: seq<Message>

    constructor (readyState: ReadyState)
      ensures this.readyState == readyState && sent == []
    {
      this.readyState := readyState;
      sent := [];
    }
  }
}
