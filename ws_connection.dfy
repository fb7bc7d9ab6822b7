/** The socket state that the experiment page and the application root keep
    for their own raw WebSocket (`WebSocketConnection`): no socket, a socket
    being opened, or an open one, each holding its task. */
module WsConnection {

  /** A `WebSocketTask`, known only by identity. */
  type Task = nat

  datatype WebSocketConnection = NoConnection | Pending(task: Task) | Connected(task: Task)

  predicate IsNone(c: WebSocketConnection) {
    match c
    case NoConnection => true
    case _ => false
  }

  predicate IsPending(c: WebSocketConnection) {
    match c
    case Pending(_) => true
    case _ => false
  }

  predicate IsConnected(c: WebSocketConnection) {
    match c
    case Connected(_) => true
    case _ => false
  }

  /** `connected`: a socket being opened is now open, with the same task;
      in any other state the message is incoherent and ignored. */
  function AfterConnected(c: WebSocketConnection): (r: WebSocketConnection)
    ensures IsConnected(r) <==> IsPending(c) || IsConnected(c)
    ensures IsPending(c) ==> r == Connected(c.task)
    ensures !IsPending(c) ==> r == c
  {
    match c
    case Pending(task) => Connected(task)
    case _ => c
  }

  /** A second `connected` changes nothing. */
  lemma AfterConnectedIdempotent(c: WebSocketConnection)
    ensures AfterConnected(AfterConnected(c)) == AfterConnected(c)
  {
  }
}
