/** `JoiningGame`, the page that takes a player into a round: it asks the
    game server to join, then asks the WebSocket agent to connect as the
    player the server named, waits three seconds once connected and finally
    sends the browser to the game. The page is a state machine over
    `JoinStep`; each transition starts at most one effect. */
module JoiningGame {
  import opened Wrappers
  import opened GameWsApi
  import Routes
  import GameServer

  datatype JoinStep =
    | WantToJoinGame
    | JoiningGame
    | JoinedGameWebSocketPending(playerId: string)
    | JoinedGameWithWebSocket(playerId: string)
    | WaitingRedirect
    | JoinFailed(failedPlayerId: Option<string>, error: string)
    /** Only seen if a transition ended unexpectedly. */
    | Failed

  datatype Msg =
    | JoinRound
    | JoinRoundResponse(response: Result<GameServer.JoinRoundResponse, string>)
    | GameWsResponse(wsResponse: GameWsResponse)
    | SuccessfullyJoined

  /** What a transition starts besides changing the step. */
  datatype Effect =
    | NoEffect
    /** `game_server.join_round(game_id, username, ..)`: a fetch of this URL. */
    | FetchJoinRound(url: string)
    /** `game_ws_mgr.send(request)`. */
    | SendToWs(request: GameWsRequest)
    /** An interval that sends `SuccessfullyJoined` every `millis` ms. */
    | StartInterval(millis: nat)
    /** `RouteRequest::ChangeRoute(route)`. */
    | ChangeRoute(route: Routes.AppRoute)

  /** `into_player_id_or_none`: the player id a step knows, if any. */
  function IntoPlayerIdOrNone(step: JoinStep): (r: Option<string>)
    ensures step.JoinedGameWebSocketPending? || step.JoinedGameWithWebSocket? ==> r == Some(step.playerId)
    ensures step.JoinFailed? ==> r == step.failedPlayerId
    ensures r.Some? ==> step.JoinedGameWebSocketPending? || step.JoinedGameWithWebSocket? || step.JoinFailed?
  {
    match step
    case JoinedGameWebSocketPending(p) => Some(p)
    case JoinedGameWithWebSocket(p) => Some(p)
    case JoinFailed(p, _) => p
    case _ => None
  }

  /** A failure that keeps the player id the step knew. */
  function FailFrom(step: JoinStep, error: string): JoinStep {
    JoinFailed(IntoPlayerIdOrNone(step), error)
  }

  /** `update`'s match, arm by arm in the source's order: the next step and
      the effect it starts. */
  function Transition(step: JoinStep, msg: Msg, gameId: string, username: string): (r: (JoinStep, Effect))
    ensures r.0.JoinFailed? <==>
      step.JoinFailed?
      || (msg.JoinRoundResponse? && msg.response.Err?)
      || (msg.GameWsResponse? && (msg.wsResponse.ErrorOccurred? || msg.wsResponse.FailedToConnect?))
    ensures r.0.JoinFailed? && !step.JoinFailed? ==> r.0.failedPlayerId == IntoPlayerIdOrNone(step)
    ensures r.1 != NoEffect ==> !r.0.JoinFailed?
    ensures r.1.FetchJoinRound? ==> r.1.url == GameServer.JoinUrl(gameId, username)
  {
    match (step, msg)
    case (WantToJoinGame, JoinRound) =>
      (JoiningGame, FetchJoinRound(GameServer.JoinUrl(gameId, username)))
    case (JoiningGame, JoinRoundResponse(Ok(response))) =>
      (JoinedGameWebSocketPending(response.playerId),
       SendToWs(GameWsRequest.JoinRound(ConnectionInfo(gameId, response.playerId))))
    case (_, JoinRoundResponse(Err(err))) =>
      (FailFrom(step, "error joining the round: " + err), NoEffect)
    case (JoinedGameWebSocketPending(p), GameWsResponse(Connected(_))) =>
      (JoinedGameWithWebSocket(p), StartInterval(3000))
    case (_, GameWsResponse(ErrorOccurred)) =>
      (FailFrom(step, "Unknown error occurred while connecting."), NoEffect)
    case (_, GameWsResponse(FailedToConnect(reason))) =>
      (FailFrom(step, "Failed to connect: " + reason), NoEffect)
    case (_, GameWsResponse(_)) =>
      (step, NoEffect)
    case (JoinedGameWithWebSocket(p), SuccessfullyJoined) =>
      (WaitingRedirect, ChangeRoute(Routes.PlayGame(gameId, p)))
    case (_, _) =>
      (step, NoEffect)
  }

  /** How far along the join a step is; a failure is past everything. */
  function Rank(step: JoinStep): nat {
    match step
    case WantToJoinGame => 0
    case JoiningGame => 1
    case JoinedGameWebSocketPending(_) => 2
    case JoinedGameWithWebSocket(_) => 3
    case WaitingRedirect => 4
    case Failed => 5
    case JoinFailed(_, _) => 6
  }

  /** A transition never goes back; a transition that starts something moves
      exactly one step forward along the happy path, and every effect belongs
      to exactly one step of it. */
  lemma TransitionProgress(step: JoinStep, msg: Msg, gameId: string, username: string)
    ensures var (next, effect) := Transition(step, msg, gameId, username);
      Rank(next) >= Rank(step)
      && (!effect.NoEffect? ==> Rank(step) < 4 && Rank(next) == Rank(step) + 1)
      && (effect.FetchJoinRound? <==> step.WantToJoinGame? && msg.JoinRound?)
      && (effect.SendToWs? <==> step.JoiningGame? && msg.JoinRoundResponse? && msg.response.Ok?)
      && (effect.StartInterval? <==>
            step.JoinedGameWebSocketPending? && msg.GameWsResponse? && msg.wsResponse.Connected?)
      && (effect.ChangeRoute? <==> step.JoinedGameWithWebSocket? && msg.SuccessfullyJoined?)
  {
    var (next, effect) := Transition(step, msg, gameId, username);
    if msg.JoinRoundResponse? && msg.response.Err? {
      assert next.JoinFailed? && effect.NoEffect?;
    } else if msg.GameWsResponse? && (msg.wsResponse.ErrorOccurred? || msg.wsResponse.FailedToConnect?) {
      assert next.JoinFailed? && effect.NoEffect?;
    } else if step.WantToJoinGame? && msg.JoinRound? {
      assert next == JoiningGame && effect.FetchJoinRound?;
    } else if step.JoiningGame? && msg.JoinRoundResponse? {
      assert next.JoinedGameWebSocketPending? && effect.SendToWs?;
    } else if step.JoinedGameWebSocketPending? && msg.GameWsResponse? && msg.wsResponse.Connected? {
      assert next.JoinedGameWithWebSocket? && effect.StartInterval?;
    } else if step.JoinedGameWithWebSocket? && msg.SuccessfullyJoined? {
      assert next == WaitingRedirect && effect.ChangeRoute?;
    } else {
      assert next == step && effect.NoEffect?;
    }
  }

  /** The page never settles in `Failed` unless it started there, and once
      the join failed it stays failed. */
  lemma FailedNotEntered(step: JoinStep, msg: Msg, gameId: string, username: string)
    ensures Transition(step, msg, gameId, username).0.Failed? ==> step.Failed?
    ensures step.JoinFailed? ==> Transition(step, msg, gameId, username).0.JoinFailed?
  {
    var next := Transition(step, msg, gameId, username).0;
    if msg.JoinRoundResponse? && msg.response.Err? {
      assert next.JoinFailed?;
    } else if msg.GameWsResponse? && (msg.wsResponse.ErrorOccurred? || msg.wsResponse.FailedToConnect?) {
      assert next.JoinFailed?;
    } else if step.WantToJoinGame? && msg.JoinRound? {
      assert next == JoiningGame;
    } else if step.JoiningGame? && msg.JoinRoundResponse? {
      assert next == JoinedGameWebSocketPending(msg.response.value.playerId);
    } else if step.JoinedGameWebSocketPending? && msg.GameWsResponse? && msg.wsResponse.Connected? {
      assert next == JoinedGameWithWebSocket(step.playerId);
    } else if step.JoinedGameWithWebSocket? && msg.SuccessfullyJoined? {
      assert next == WaitingRedirect;
    } else {
      assert next == step;
    }
  }

  /** The player id the server gave is kept through every later step, failed
      or not, until the redirect. */
  lemma PlayerIdKept(step: JoinStep, msg: Msg, gameId: string, username: string)
    requires IntoPlayerIdOrNone(step).Some?
    ensures var next := Transition(step, msg, gameId, username).0;
      next.WaitingRedirect? || IntoPlayerIdOrNone(next) == IntoPlayerIdOrNone(step)
  {
    var next := Transition(step, msg, gameId, username).0;
    if msg.JoinRoundResponse? && msg.response.Err? {
      assert next == FailFrom(step, "error joining the round: " + msg.response.error);
    } else if msg.GameWsResponse? && (msg.wsResponse.ErrorOccurred? || msg.wsResponse.FailedToConnect?) {
      assert next.JoinFailed? && next.failedPlayerId == IntoPlayerIdOrNone(step);
    } else if step.JoinedGameWebSocketPending? && msg.GameWsResponse? && msg.wsResponse.Connected? {
      assert next == JoinedGameWithWebSocket(step.playerId);
    } else if step.JoinedGameWithWebSocket? && msg.SuccessfullyJoined? {
      assert next == WaitingRedirect;
    } else {
      assert next == step;
    }
  }

  /** The redirect goes to the game being joined, as the player the server
      named. */
  lemma RedirectTarget(step: JoinStep, msg: Msg, gameId: string, username: string)
    requires Transition(step, msg, gameId, username).1.ChangeRoute?
    ensures Transition(step, msg, gameId, username).1.route == Routes.PlayGame(gameId, step.playerId)
    ensures Routes.Display(Transition(step, msg, gameId, username).1.route) == "/game/play/" + gameId + "?as=" + step.playerId
  {
  }

  /** A server refusal is shown with the prefix twice: once from the service's
      error, once from the page. */
  lemma HttpErrorText(step: JoinStep, status: GameServer.StatusCode, body: Result<Json.Json, string>, gameId: string, username: string)
    requires !GameServer.IsSuccess(status)
    ensures var msg := JoinRoundResponse(GameServer.HandleJoinResponse(status, body));
      Transition(step, msg, gameId, username).0
        == JoinFailed(IntoPlayerIdOrNone(step),
                      GameServer.JoinErrorPrefix + GameServer.JoinErrorPrefix + GameServer.StatusText(status))
  {
    var text := GameServer.StatusText(status);
    assert GameServer.HandleJoinResponse(status, body) == Err(GameServer.JoinErrorPrefix + text);
    assert "error joining the round: " + (GameServer.JoinErrorPrefix + text)
        == GameServer.JoinErrorPrefix + GameServer.JoinErrorPrefix + text;
  }

  // ---------------------------------------------------------------------------
  // Runs
  // ---------------------------------------------------------------------------

  /** The step after a sequence of messages, and the effects started on the way. */
  function Run(step: JoinStep, msgs: seq<Msg>, gameId: string, username: string): (JoinStep, seq<Effect>)
    decreases |msgs|
  {
    if msgs == [] then (step, [])
    else
      var (next, effect) := Transition(step, msgs[0], gameId, username);
      var (last, effects) := Run(next, msgs[1..], gameId, username);
      (last, [effect] + effects)
  }

  function CountRouteChanges(effects: seq<Effect>): nat {
    if effects == [] then 0
    else (if effects[0].ChangeRoute? then 1 else 0) + CountRouteChanges(effects[1..])
  }

  function CountFetches(effects: seq<Effect>): nat {
    if effects == [] then 0
    else (if effects[0].FetchJoinRound? then 1 else 0) + CountFetches(effects[1..])
  }

  /** Whatever messages arrive, the page redirects at most once, and only
      from a step that has not yet passed the connected one. */
  lemma {:induction false} AtMostOneRedirect(step: JoinStep, msgs: seq<Msg>, gameId: string, username: string)
    ensures CountRouteChanges(Run(step, msgs, gameId, username).1) <= if Rank(step) <= 3 then 1 else 0
    decreases |msgs|
  {
    if msgs != [] {
      var (next, effect) := Transition(step, msgs[0], gameId, username);
      TransitionProgress(step, msgs[0], gameId, username);
      AtMostOneRedirect(next, msgs[1..], gameId, username);
    }
  }

  /** ... and asks the server to join at most once, only from the start. */
  lemma {:induction false} AtMostOneFetch(step: JoinStep, msgs: seq<Msg>, gameId: string, username: string)
    ensures CountFetches(Run(step, msgs, gameId, username).1) <= if step.WantToJoinGame? then 1 else 0
    decreases |msgs|
  {
    if msgs != [] {
      var (next, effect) := Transition(step, msgs[0], gameId, username);
      TransitionProgress(step, msgs[0], gameId, username);
      AtMostOneFetch(next, msgs[1..], gameId, username);
    }
  }

  // ---------------------------------------------------------------------------
  // The component
  // ---------------------------------------------------------------------------

  /** The task the page holds; replacing it drops (cancels) the previous one. */
  datatype CurrentTask = NoTask | Fetch(url: string) | Interval(millis: nat)

  class JoiningGamePage {
    var step: JoinStep
    var currentTask: CurrentTask
    const gameId: string
    const username: string

    /** `link.send_message(msg)`. */
    var queued: seq<Msg>
    /** `game_ws_mgr.send(request)`. */
    var wsRequests: seq<GameWsRequest>
    /** `RouteAgentDispatcher::send(ChangeRoute(route))`. */
    var routeChanges: seq<Routes.AppRoute>

    /** `create`: at the start, with no task, and `JoinRound` queued. */
    constructor (gameId: string, username: string)
      ensures step == WantToJoinGame && currentTask == NoTask
      ensures this.gameId == gameId && this.username == username
      ensures queued == [Msg.JoinRound] && wsRequests == [] && routeChanges == []
    {
      this.gameId, this.username := gameId, username;
      step, currentTask := WantToJoinGame, NoTask;
      queued, wsRequests, routeChanges := [Msg.JoinRound], [], [];
    }

    /** `change`: new properties are ignored. */
    method Change(gameId: string, username: string) returns (render: bool)
      ensures !render
    {
      render := false;
    }

    /** `update`: take the transition, start its effect, and re-render. */
    method Update(msg: Msg) returns (render: bool)
      modifies this`step, this`currentTask, this`wsRequests, this`routeChanges
      ensures render
      ensures var (next, effect) := Transition(old(step), msg, gameId, username);
        step == next
        && currentTask == (match effect
                           case FetchJoinRound(url) => Fetch(url)
                           case StartInterval(millis) => Interval(millis)
                           case _ => old(currentTask))
        && wsRequests == old(wsRequests) + (if effect.SendToWs? then [effect.request] else [])
        && routeChanges == old(routeChanges) + (if effect.ChangeRoute? then [effect.route] else [])
    {
      var next, effect := Transition(step, msg, gameId, username).0, Transition(step, msg, gameId, username).1;
      match effect {
        case NoEffect =>
        case FetchJoinRound(url) => currentTask := Fetch(url);
        case SendToWs(request) => wsRequests := wsRequests + [request];
        case StartInterval(millis) => currentTask := Interval(millis);
        case ChangeRoute(route) => routeChanges := routeChanges + [route];
      }
      step := next;
      render := true;
    }
  }
}
