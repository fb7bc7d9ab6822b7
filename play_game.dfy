/** `PlayGame`, the page of a game in progress. It asks the game manager to
    make sure the socket of this game and player is open, and tracks the
    status the manager reports. */
module PlayGame {
  import opened GameWsApi
  import opened ChangeDetection
  import GameMgr

  datatype Props = Props(gameId: string, playerId: string)

  datatype Command = Update

  datatype Msg = Command(command: Command) | GameMgrMessage(response: GameMgr.GameMgrResponse)

  class PlayGamePage {
    var props: Props
    var wsStatus: WebSocketStatus
    /** `link.send_message(command)`. */
    var queued: seq<Command>
    /** `game_mgr_agent.send(request)`. */
    var gameMgrRequests: seq<GameMgr.GameMgrRequest>

    /** `create`: not connected, and an `Update` queued. */
    constructor (props: Props)
      ensures this.props == props && wsStatus == NotConnected
      ensures queued == [Command.Update] && gameMgrRequests == []
    {
      this.props, wsStatus := props, NotConnected;
      queued, gameMgrRequests := [Command.Update], [];
    }

    /** `change`: new properties are stored; only when they differ is an
        `Update` queued and the page re-rendered. */
    method Change(value: Props) returns (changed: bool)
      modifies this`props, this`queued
      ensures props == value
      ensures changed <==> old(props) != value
      ensures queued == old(queued) + (if changed then [Command.Update] else [])
    {
      props, changed := NeqAssign(props, value);
      if changed {
        queued := queued + [Command.Update];
      }
    }

    /** `update`: `Update` asks the manager to connect this game and player;
        a status report is stored and re-renders only when it changed. */
    method Update(msg: Msg) returns (render: bool)
      modifies this`wsStatus, this`gameMgrRequests
      ensures msg.Command? ==>
        !render && wsStatus == old(wsStatus)
        && gameMgrRequests == old(gameMgrRequests)
             + [GameMgr.EnsureConnected(ConnectionInfo(props.gameId, props.playerId))]
      ensures msg.GameMgrMessage? ==>
        wsStatus == msg.response.status && gameMgrRequests == old(gameMgrRequests)
        && (render <==> old(wsStatus) != msg.response.status)
    {
      match msg
      case Command(Update) =>
        gameMgrRequests := gameMgrRequests + [GameMgr.EnsureConnected(ConnectionInfo(props.gameId, props.playerId))];
        render := false;
      case GameMgrMessage(WebSocketStatusChanged(status)) =>
        wsStatus, render := NeqAssign(wsStatus, status);
    }
  }
}
