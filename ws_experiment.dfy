/** `WsExperiment`, the page for trying a raw WebSocket by hand. The server
    address lives in the state the page shares with the rest of the client
    (`Rc<RefCell<State>>`), modelled as an object the page holds a reference
    to. Dialling is a parameter of `Update` (the task, or the text of the
    error); frames sent, addresses dialled and notifications posted are
    appended to outboxes. */
module WsExperiment {
  import opened Wrappers
  import opened Json
  import opened WsConnection
  import opened Notifications

  /** `crate::state::State` behind its shared, mutable reference. */
  class SharedState {
    var wsServerAddr: string

    constructor (wsServerAddr: string)
      ensures this.wsServerAddr == wsServerAddr
    {
      this.wsServerAddr := wsServerAddr;
    }
  }

  datatype WsMsg =
    | Close
    | Closed
    | Connect
    | Connected
    | ErrorOccurred
    | Received(result: Result<Json, string>)
    | Send(data: Json)

  datatype Msg = WsServerAddrUpdated(addr: string) | WebSocket(action: WsMsg)

  /** The history line a received frame adds: the frame's compact JSON, or
      the decoding error, behind `< `. */
  function ReceivedLine(data: Result<Json, string>): (line: string)
    ensures |line| >= 2 && line[..2] == "< "
    ensures data.Ok? ==> line == "< " + Serialize(data.value)
    ensures data.Err? ==> line == "< ERROR: " + data.error
  {
    match data
    case Ok(v) => "< " + Serialize(v)
    case Err(e) => "< ERROR: " + e
  }

  /** A decoded frame and a decoding error never leave the same line: no JSON
      text begins with the `E` of `ERROR`. */
  lemma ReceivedLineTellsOutcome(v: Json, e: string)
    ensures ReceivedLine(Ok(v)) != ReceivedLine(Err(e))
  {
    SerializeFirst(v);
    assert ReceivedLine(Ok(v))[2] == Serialize(v)[0];
    assert ReceivedLine(Err(e))[2] == 'E';
  }

  class WsExperimentPage {
    var state: SharedState
    var ws: WebSocketConnection
    var wsHistory: seq<string>

    /** The addresses passed to `WebSocketService::connect`. */
    var dialed: seq<string>
    /** `ws.send(Json(&data))` on the open socket. */
    var frames: seq<(Task, Json)>
    /** What `notify_error` and its siblings sent to the notification bus. */
    var notified: seq<NotificationRequest>

    /** `create`: no socket, an empty history. */
    constructor (state: SharedState)
      ensures this.state == state && ws == NoConnection && wsHistory == []
      ensures dialed == [] && frames == [] && notified == []
    {
      this.state, ws, wsHistory := state, NoConnection, [];
      dialed, frames, notified := [], [], [];
    }

    /** `change`: the page adopts the new shared state only when its content
        differs from the one it holds; the comparison is by value, so an
        equal state behind another reference is not adopted. */
    method Change(props: SharedState) returns (render: bool)
      modifies this`state
      ensures render <==> old(state.wsServerAddr) != props.wsServerAddr
      ensures render ==> state == props
      ensures !render ==> state == old(state)
    {
      if state.wsServerAddr != props.wsServerAddr {
        state := props;
        render := true;
      } else {
        render := false;
      }
    }

    /** `update`. Everything re-renders. */
    method Update(msg: Msg, connect: Result<Task, string>) returns (render: bool)
      modifies this`ws, this`wsHistory, this`dialed, this`frames, this`notified, state
      ensures render && state == old(state)
      ensures msg.WsServerAddrUpdated? ==>
        state.wsServerAddr == msg.addr && ws == old(ws) && wsHistory == old(wsHistory)
        && dialed == old(dialed) && frames == old(frames) && notified == old(notified)
      ensures msg.WebSocket? ==> state.wsServerAddr == old(state.wsServerAddr)
      ensures msg.WebSocket? ==> match msg.action
        case Connect =>
          var addr := old(state.wsServerAddr);
          dialed == old(dialed) + [addr] && frames == old(frames) && notified == old(notified)
          && (connect.Ok? ==> ws == Pending(connect.value) && wsHistory == old(wsHistory) + ["Connecting to " + addr + "..."])
          && (connect.Err? ==> ws == old(ws) && wsHistory == old(wsHistory) + ["WebSocket connection failed: " + connect.error])
        case Connected =>
          ws == AfterConnected(old(ws)) && wsHistory == old(wsHistory) + ["Connected"]
          && dialed == old(dialed) && frames == old(frames) && notified == old(notified)
        case Send(data) =>
          ws == old(ws) && dialed == old(dialed) && notified == old(notified)
          && (IsConnected(old(ws)) ==>
                frames == old(frames) + [(old(ws).task, data)] && wsHistory == old(wsHistory) + ["> " + Serialize(data)])
          && (!IsConnected(old(ws)) ==> frames == old(frames) && wsHistory == old(wsHistory))
        case Received(data) =>
          ws == old(ws) && wsHistory == old(wsHistory) + [ReceivedLine(data)]
          && dialed == old(dialed) && frames == old(frames) && notified == old(notified)
        case ErrorOccurred =>
          ws == NoConnection && wsHistory == old(wsHistory) + ["Error"]
          && notified == old(notified) + [New(Notification("An error occurred on WebSocket.", Error))]
          && dialed == old(dialed) && frames == old(frames)
        case _ =>
          ws == NoConnection && wsHistory == old(wsHistory) + ["Closed"]
          && dialed == old(dialed) && frames == old(frames) && notified == old(notified)
    {
      match msg {
      case WsServerAddrUpdated(addr) =>
        state.wsServerAddr := addr;
      case WebSocket(action) =>
        match action {
          case Connect =>
            var addr := state.wsServerAddr;
            dialed := dialed + [addr];
            match connect {
              case Ok(task) =>
                wsHistory := wsHistory + ["Connecting to " + addr + "..."];
                ws := Pending(task);
              case Err(e) =>
                wsHistory := wsHistory + ["WebSocket connection failed: " + e];
            }
          case Connected =>
            wsHistory := wsHistory + ["Connected"];
            ws := AfterConnected(ws);
          case Send(data) =>
            if ws.Connected? {
              frames := frames + [(ws.task, data)];
              wsHistory := wsHistory + ["> " + Serialize(data)];
            }
          case Received(data) =>
            wsHistory := wsHistory + [ReceivedLine(data)];
          case Close =>
            wsHistory := wsHistory + ["Closed"];
            ws := NoConnection;
          case Closed =>
            wsHistory := wsHistory + ["Closed"];
            ws := NoConnection;
          case ErrorOccurred =>
            notified := notified + [New(Notification("An error occurred on WebSocket.", Error))];
            wsHistory := wsHistory + ["Error"];
            ws := NoConnection;
        }
      }
      render := true;
    }
  }
}
