/** `GameWsMgr`, the agent that owns the game's WebSocket. It keeps the
    connection (`None`, `Pending(task)` or `Connected(task)`), a registry of
    subscribers with set semantics, and a text history, and it broadcasts
    every socket event to all subscribers.

    The transport is outside the model: a `WebSocketTask` is an opaque token,
    the result of `WebSocketService::connect` is an argument of `HandleInput`,
    and the effects the agent causes are appended to four outboxes: the
    `(subscriber, response)` pairs given to `link.respond`, the messages it
    queues to itself with `link.send_message`, the URLs it connects to and
    the frames it writes on the socket. */
module GameWsMgr {
  import opened Json
  import opened Subscribers
  import Wrappers

  /** An open or opening socket (`WebSocketTask`), as an opaque token. */
  type Task = nat

  /** `WebSocketConnection`; the Rust variant `None` is `NoConnection` here. */
  datatype WebSocketConnection = NoConnection | Pending(task: Task) | Connected(task: Task)

  /** Yew's `WebSocketStatus`, the notification a socket sends about itself. */
  datatype SocketEvent = Opened | Closed | Error

  datatype Msg =
    | FailedToConnect(reason: string)
    | WsNotification(event: SocketEvent)
    | WsReceived(data: Wrappers.Result<Json, string>)

  datatype GameWsRequest =
    | CloseSocket
    | JoinRound(gameId: string, playerId: string)
    | Send(data: Json)
    | GetWebSocketStatus

  datatype GameWsResponse =
    | Closed
    | Connected
    | Connecting
    | ErrorOccurred
    | FailedToConnect(reason: string)
    | Received(data: Json)
    | ReceivedError(error: string)
    | WebSocketStatus(status: WebSocketStatus)

  /** What subscribers are told about the connection; unlike
      `WebSocketConnection` it holds no socket. */
  datatype WebSocketStatus = NotConnected | Pending | Connected

  // ---------------------------------------------------------------------------
  // The pure parts of the handlers
  // ---------------------------------------------------------------------------

  /** `From<&WebSocketConnection> for WebSocketStatus`. */
  function StatusOf(ws: WebSocketConnection): (r: WebSocketStatus)
    ensures r == WebSocketStatus.NotConnected <==> ws.NoConnection?
    ensures r == WebSocketStatus.Pending <==> ws.Pending?
    ensures r == WebSocketStatus.Connected <==> ws.Connected?
  {
    match ws
    case NoConnection => WebSocketStatus.NotConnected
    case Pending(_) => WebSocketStatus.Pending
    case Connected(_) => WebSocketStatus.Connected
  }

  /** The connection after a socket notification: the pending socket becomes
      connected when it reports `Opened`; every other combination drops the
      connection, including an `Opened` that arrives when nothing is pending. */
  function AfterNotification(ws: WebSocketConnection, event: SocketEvent): (r: WebSocketConnection)
    ensures r.Connected? <==> ws.Pending? && event == Opened
    ensures r.Connected? ==> r.task == ws.task
    ensures !r.Connected? ==> r == NoConnection
  {
    match (ws, event)
    case (Pending(task), Opened) => WebSocketConnection.Connected(task)
    case _ => NoConnection
  }

  /** The response broadcast for a socket notification. */
  function NotificationResponse(event: SocketEvent): (r: GameWsResponse)
    ensures event.Opened? <==> r.Connected?
    ensures event.Closed? <==> r.Closed?
    ensures event.Error? <==> r.ErrorOccurred?
  {
    match event
    case Opened => GameWsResponse.Connected
    case Closed => GameWsResponse.Closed
    case Error => ErrorOccurred
  }

  /** The three notifications are told apart by their responses. */
  lemma NotificationResponseInjective(e1: SocketEvent, e2: SocketEvent)
    requires NotificationResponse(e1) == NotificationResponse(e2)
    ensures e1 == e2
  {
  }

  /** The response broadcast for a received frame, decoded or not. */
  function ReceivedResponse(data: Wrappers.Result<Json, string>): (r: GameWsResponse)
    ensures data.Ok? <==> r.Received?
    ensures data.Ok? ==> r == Received(data.value)
    ensures data.Err? ==> r == ReceivedError(data.error)
  {
    match data
    case Ok(frame) => Received(frame)
    case Err(error) => ReceivedError(error)
  }

  /** The path `JoinRound` connects to, relative to the page. */
  function JoinPath(gameId: string, playerId: string): string {
    "/api/round/" + gameId + "/join?playerId=" + playerId
  }

  /** The socket URL: the join path resolved against the page's origin
      (`host[:port]`), with the scheme set to `ws`. The scheme is `ws` even on
      an `https` page. */
  function SocketUrl(origin: string, gameId: string, playerId: string): (url: string)
    ensures |url| == 5 + |origin| + 11 + |gameId| + 15 + |playerId|
    ensures url[..5] == "ws://"
    ensures url[|url| - |playerId| - 10..] == "?playerId=" + playerId
    ensures url[5..5 + |origin|] == origin
    ensures url[5 + |origin|..5 + |origin| + 11] == "/api/round/"
    ensures url[5 + |origin| + 11..5 + |origin| + 11 + |gameId|] == gameId
    ensures url[5 + |origin| + 11 + |gameId|..5 + |origin| + 11 + |gameId| + 5] == "/join"
  {
    var url := "ws://" + origin + JoinPath(gameId, playerId);
    assert url == "ws://" + origin + "/api/round/" + gameId + "/join?playerId=" + playerId;
    url
  }

  /** Two joins from the same page with the same player id but different game
      ids connect to different URLs. */
  lemma SocketUrlSeparatesGames(origin: string, g1: string, g2: string, playerId: string)
    requires g1 != g2
    ensures SocketUrl(origin, g1, playerId) != SocketUrl(origin, g2, playerId)
  {
    var u1, u2 := SocketUrl(origin, g1, playerId), SocketUrl(origin, g2, playerId);
    var n := 5 + |origin| + 11;
    if |g1| == |g2| {
      assert u1[n..n + |g1|] == g1 != g2 == u2[n..n + |g1|];
    }
  }

  // ---------------------------------------------------------------------------
  // The agent
  // ---------------------------------------------------------------------------

  class GameWsMgr {
    var subscribers: seq<HandlerId>
    var ws: WebSocketConnection
    var wsHistory: seq<string>

    /** `link.respond(subscriber, response)`, in call order. */
    var responses: seq<(HandlerId, GameWsResponse)>
    /** `link.send_message(msg)`: messages the agent queues for itself. */
    var queued: seq<Msg>
    /** The URLs passed to `WebSocketService::connect`. */
    var dialed: seq<string>
    /** `ws.send(Json(&data))` on the connected socket. */
    var frames: seq<(Task, Json)>

    ghost predicate Valid()
      reads this
    {
      NoDuplicates(subscribers)
    }

    /** `create`: no subscriber, no connection, an empty history. */
    constructor ()
      ensures Valid()
      ensures subscribers == [] && ws == NoConnection && wsHistory == []
      ensures responses == [] && queued == [] && dialed == [] && frames == []
    {
      subscribers, ws, wsHistory := [], NoConnection, [];
      responses, queued, dialed, frames := [], [], [], [];
    }

    /** Every registered subscriber is told `output`, once each, in order. */
    method BroadcastToSubscribers(output: GameWsResponse)
      modifies this`responses
      ensures responses == old(responses) + Deliveries(subscribers, output)
    {
      responses := Broadcast(subscribers, output, responses);
    }

    /** `update`: the messages the socket callbacks and the agent itself
        send. Only a notification touches the connection. */
    method Update(msg: Msg)
      requires Valid()
      modifies this`ws, this`responses
      ensures Valid()
      ensures match msg
        case FailedToConnect(reason) =>
          ws == old(ws) && responses == old(responses) + Deliveries(subscribers, GameWsResponse.FailedToConnect(reason))
        case WsNotification(event) =>
          ws == AfterNotification(old(ws), event)
          && responses == old(responses) + Deliveries(subscribers, NotificationResponse(event))
        case WsReceived(data) =>
          ws == old(ws) && responses == old(responses) + Deliveries(subscribers, ReceivedResponse(data))
    {
      match msg
      case FailedToConnect(reason) =>
        BroadcastToSubscribers(GameWsResponse.FailedToConnect(reason));
      case WsNotification(event) =>
        ws := AfterNotification(ws, event);
        BroadcastToSubscribers(NotificationResponse(event));
      case WsReceived(data) =>
        BroadcastToSubscribers(ReceivedResponse(data));
    }

    /** `handle_input`. `origin` is the authority of the page the client runs
        on, and `connect` what `WebSocketService::connect` returns for the
        socket URL (a task, or the text of its error); both matter only to
        `JoinRound`. */
    method HandleInput(input: GameWsRequest, sender: HandlerId, origin: string,
                       connect: Wrappers.Result<Task, string>)
      requires Valid()
      modifies this`ws, this`wsHistory, this`responses, this`queued, this`dialed, this`frames
      ensures Valid()
      ensures subscribers == old(subscribers)
      ensures match input
        case JoinRound(gameId, playerId) =>
          var url := SocketUrl(origin, gameId, playerId);
          dialed == old(dialed) + [url] && frames == old(frames)
          && (connect.Ok? ==>
                ws == WebSocketConnection.Pending(connect.value)
                && wsHistory == old(wsHistory) + ["Connecting to " + url + "..."]
                && responses == old(responses) + Deliveries(subscribers, Connecting)
                && queued == old(queued))
          && (connect.Err? ==>
                var err := "WebSocket connection failed: " + connect.error;
                ws == old(ws) && wsHistory == old(wsHistory) + [err]
                && responses == old(responses) && queued == old(queued) + [Msg.FailedToConnect(err)])
        case CloseSocket =>
          ws == NoConnection && wsHistory == old(wsHistory) + ["Closed"]
          && responses == old(responses) && queued == old(queued)
          && dialed == old(dialed) && frames == old(frames)
        case Send(data) =>
          ws == old(ws) && responses == old(responses) && queued == old(queued) && dialed == old(dialed)
          && (old(ws).Connected? ==>
                frames == old(frames) + [(old(ws).task, data)] && wsHistory == old(wsHistory) + ["> " + Serialize(data)])
          && (!old(ws).Connected? ==> frames == old(frames) && wsHistory == old(wsHistory))
        case GetWebSocketStatus =>
          ws == old(ws) && wsHistory == old(wsHistory)
          && responses == old(responses) + [(sender, WebSocketStatus(StatusOf(ws)))]
          && queued == old(queued) && dialed == old(dialed) && frames == old(frames)
    {
      match input
      case JoinRound(gameId, playerId) =>
        var url := SocketUrl(origin, gameId, playerId);
        dialed := dialed + [url];
        match connect {
          case Ok(task) =>
            wsHistory := wsHistory + ["Connecting to " + url + "..."];
            ws := WebSocketConnection.Pending(task);
            BroadcastToSubscribers(Connecting);
          case Err(e) =>
            var err := "WebSocket connection failed: " + e;
            wsHistory := wsHistory + [err];
            queued := queued + [Msg.FailedToConnect(err)];
        }
      case CloseSocket =>
        wsHistory := wsHistory + ["Closed"];
        ws := NoConnection;
      case Send(data) =>
        if ws.Connected? {
          frames := frames + [(ws.task, data)];
          wsHistory := wsHistory + ["> " + Serialize(data)];
        }
      case GetWebSocketStatus =>
        responses := responses + [(sender, WebSocketStatus(StatusOf(ws)))];
    }

    /** `connected`: register `id` unless it already is. */
    method Connected(id: HandlerId)
      requires Valid()
      modifies this`subscribers
      ensures Valid()
      ensures subscribers == AddIfAbsent(old(subscribers), id)
    {
      AddIfAbsentNoDuplicates(subscribers, id);
      if id !in subscribers {
        subscribers := subscribers + [id];
      }
    }

    /** `disconnected`: swap-remove `id` if registered, else change nothing. */
    method Disconnected(id: HandlerId)
      requires Valid()
      modifies this`subscribers
      ensures Valid()
      ensures subscribers == Remove(old(subscribers), id)
      ensures id !in subscribers
    {
      RemoveNoDuplicates(subscribers, id);
      match Position(subscribers, id)
      case Some(pos) => subscribers := SwapRemove(subscribers, pos);
      case None =>
    }
  }
}
