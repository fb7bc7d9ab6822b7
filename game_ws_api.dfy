/** The requests, responses and status of the WebSocket agent as the agent's
    clients (`GameMgr`, `JoiningGame`, `WebSocketDebugConsole`, `PlayGame`)
    use them. Their version of the agent's protocol names the game and the
    player of the connection (`GameWsConnectionInfo`) in `Connecting`,
    `Connected`, `JoinRound` and the status, unlike the agent itself
    (module `GameWsMgr`), whose variants carry no such data. */
module GameWsApi {
  import opened Json
  import Wrappers

  /** `GameWsConnectionInfo { game_id, player_id }`. */
  datatype ConnectionInfo = ConnectionInfo(gameId: string, playerId: string)

  datatype WebSocketStatus =
    | NotConnected
    | Pending(info: ConnectionInfo)
    | Connected(info: ConnectionInfo)

  datatype GameWsRequest =
    | CloseSocket
    | JoinRound(info: ConnectionInfo)
    | Send(data: Json)
    | GetWebSocketStatus

  datatype GameWsResponse =
    | Closed
    | Connected(info: ConnectionInfo)
    | Connecting(info: ConnectionInfo)
    | ErrorOccurred
    | FailedToConnect(reason: string)
    | Received(data: Json)
    | ReceivedError(error: string)
    | WebSocketStatus(status: WebSocketStatus)

  /** The status a response from the WebSocket agent implies, or `None` for
      the responses about frames, which say nothing about the connection. */
  function ImpliedStatus(response: GameWsResponse): (r: Wrappers.Option<WebSocketStatus>)
    ensures r.None? <==> response.Received? || response.ReceivedError?
    ensures response.Connecting? ==> r == Wrappers.Some(Pending(response.info))
    ensures response.Connected? ==> r == Wrappers.Some(WebSocketStatus.Connected(response.info))
    ensures response.Closed? || response.FailedToConnect? || response.ErrorOccurred? ==> r == Wrappers.Some(NotConnected)
    ensures response.WebSocketStatus? ==> r == Wrappers.Some(response.status)
  {
    match response
    case Connecting(info) => Wrappers.Some(Pending(info))
    case Connected(info) => Wrappers.Some(WebSocketStatus.Connected(info))
    case Closed => Wrappers.Some(NotConnected)
    case FailedToConnect(_) => Wrappers.Some(NotConnected)
    case ErrorOccurred => Wrappers.Some(NotConnected)
    case Received(_) => Wrappers.None
    case ReceivedError(_) => Wrappers.None
    case WebSocketStatus(status) => Wrappers.Some(status)
  }

}
