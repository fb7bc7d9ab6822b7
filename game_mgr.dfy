/** `GameMgr`, the agent between the game pages and the WebSocket agent. It
    tracks the socket's status from the WebSocket agent's responses and
    tells its own subscribers only when that status changes. The requests it
    sends to the WebSocket agent (`ws_agent.send`) and the responses it gives
    (`link.respond`) are appended to outboxes. */
module GameMgr {
  import opened Wrappers
  import opened Subscribers
  import opened GameWsApi
  import opened ChangeDetection

  datatype GameMgrRequest = EnsureConnected(info: ConnectionInfo)

  datatype GameMgrResponse = WebSocketStatusChanged(status: WebSocketStatus)

  datatype Command = Update

  datatype Msg = Command(command: Command) | WebSocketMessage(response: GameWsResponse)

  class GameMgr {
    var subscribers: seq<HandlerId>
    var wsStatus: WebSocketStatus

    /** `link.respond(subscriber, response)`, in call order. */
    var responses: seq<(HandlerId, GameMgrResponse)>
    /** `ws_agent.send(request)`. */
    var wsRequests: seq<GameWsRequest>
    /** `link.send_message(command)`. */
    var queued: seq<Command>

    /** `create`: not connected, no subscriber, and a status query queued. */
    constructor ()
      ensures subscribers == [] && wsStatus == NotConnected
      ensures responses == [] && wsRequests == [] && queued == [Command.Update]
    {
      subscribers, wsStatus := [], NotConnected;
      responses, wsRequests, queued := [], [], [Command.Update];
    }

    /** `update_ws_status`: the new status is stored; the result says whether
        it differs from the old one. */
    method UpdateWsStatus(status: WebSocketStatus) returns (changed: bool)
      modifies this`wsStatus
      ensures wsStatus == status
      ensures changed <==> old(wsStatus) != status
    {
      wsStatus, changed := NeqAssign(wsStatus, status);
    }

    method BroadcastToSubscribers(output: GameMgrResponse)
      modifies this`responses
      ensures responses == old(responses) + Deliveries(subscribers, output)
    {
      responses := Broadcast(subscribers, output, responses);
    }

    /** `update`: `Update` asks the WebSocket agent for its status; a response
        from it updates the status and, only when the status changed, tells
        every subscriber the new one. */
    method Update(msg: Msg)
      modifies this`wsStatus, this`responses, this`wsRequests
      ensures subscribers == old(subscribers) && queued == old(queued)
      ensures msg.Command? ==>
        wsStatus == old(wsStatus) && responses == old(responses)
        && wsRequests == old(wsRequests) + [GetWebSocketStatus]
      ensures msg.WebSocketMessage? ==> wsRequests == old(wsRequests)
      ensures msg.WebSocketMessage? && ImpliedStatus(msg.response).None? ==>
        wsStatus == old(wsStatus) && responses == old(responses)
      ensures msg.WebSocketMessage? && ImpliedStatus(msg.response).Some? ==>
        var status := ImpliedStatus(msg.response).value;
        wsStatus == status
        && responses == old(responses)
             + (if status != old(wsStatus) then Deliveries(subscribers, WebSocketStatusChanged(status)) else [])
    {
      match msg
      case Command(Update) =>
        wsRequests := wsRequests + [GetWebSocketStatus];
      case WebSocketMessage(response) =>
        match ImpliedStatus(response) {
          case None =>
          case Some(status) =>
            var changed := UpdateWsStatus(status);
            if changed {
              BroadcastToSubscribers(WebSocketStatusChanged(wsStatus));
            }
        }
    }

    /** `handle_input`: forward a join request to the WebSocket agent, every
        time, whatever the current status. */
    method HandleInput(input: GameMgrRequest, sender: HandlerId)
      modifies this`wsRequests
      ensures wsRequests == old(wsRequests) + [JoinRound(input.info)]
    {
      wsRequests := wsRequests + [JoinRound(input.info)];
    }

    /** `connected`: a plain push, so the same id can be registered twice. */
    method Connected(id: HandlerId)
      modifies this`subscribers
      ensures subscribers == old(subscribers) + [id]
    {
      subscribers := subscribers + [id];
    }

    /** `disconnected`: swap-remove one occurrence of `id`, if any. */
    method Disconnected(id: HandlerId)
      modifies this`subscribers
      ensures subscribers == Remove(old(subscribers), id)
    {
      match Position(subscribers, id)
      case Some(pos) => subscribers := SwapRemove(subscribers, pos);
      case None =>
    }
  }

  /** Because `connected` does not check for duplicates, a subscriber that
      connects twice is told every status change twice. */
  lemma DoubleRegistrationDoubleDelivery(subs: seq<HandlerId>, id: HandlerId, output: GameMgrResponse)
    requires id !in subs
    ensures CountTo(Deliveries(subs + [id] + [id], output), id) == 2
  {
    DeliveriesCount(subs + [id] + [id], output, id);
    assert multiset(subs + [id] + [id]) == multiset(subs) + multiset{id, id};
  }
}
