/** `WebSocketDebugConsole`, the component that drives the WebSocket agent by
    hand and keeps a bounded, numbered history of what happened on the
    socket. The history is a `VecDeque` whose front is the newest line; each
    line carries an id taken from a `usize` counter that wraps around. The
    requests the console sends to the WebSocket agent and the messages it
    queues for itself are appended to outboxes; parsing the typed message
    is a parameter (the parser's result). */
module WsDbgConsole {
  import opened Wrappers
  import opened Json
  import opened GameWsApi
  import opened ChangeDetection

  /** `MAX_HISTORY_LEN`. */
  const MaxHistoryLen: nat := 500

  /** `usize` on the wasm32 target the client is built for. */
  const UsizeModulus: nat := 0x1_0000_0000

  /** `usize::wrapping_add(1)`. */
  function WrappingIncrement(id: nat): (r: nat)
    requires id < UsizeModulus
    ensures r < UsizeModulus
    ensures r == (id + 1) % UsizeModulus
    ensures r == 0 <==> id == UsizeModulus - 1
  {
    if id == UsizeModulus - 1 then 0 else id + 1
  }

  type Entry = (nat, string)

  /** The history after `push_in_history`: the oldest lines beyond
      `MaxHistoryLen - 1` dropped from the back, the new line at the front. */
  function Pushed(history: seq<Entry>, id: nat, line: string): seq<Entry> {
    [(id, line)] + history[..if |history| < MaxHistoryLen then |history| else MaxHistoryLen - 1]
  }

  /** The history never outgrows its bound, the newest line is the new one,
      and the lines kept are the newest of the old history, in order. */
  lemma PushedSpec(history: seq<Entry>, id: nat, line: string)
    requires |history| <= MaxHistoryLen
    ensures |Pushed(history, id, line)| <= MaxHistoryLen
    ensures |Pushed(history, id, line)| == if |history| < MaxHistoryLen then |history| + 1 else MaxHistoryLen
    ensures Pushed(history, id, line)[0] == (id, line)
    ensures forall i | 1 <= i < |Pushed(history, id, line)| :: Pushed(history, id, line)[i] == history[i - 1]
  {
  }

  /** The ids of a history, newest first, count down from `lastId` modulo the
      width of `usize`. */
  predicate IdsCountDown(history: seq<Entry>, lastId: nat) {
    forall i | 0 <= i < |history| :: history[i].0 == (lastId - i) % UsizeModulus
  }

  /** Ids counting down from a wrapped counter are still pairwise distinct,
      because the history is far shorter than the counter's period. */
  lemma IdsDistinct(history: seq<Entry>, lastId: nat)
    requires |history| <= MaxHistoryLen && IdsCountDown(history, lastId)
    ensures forall i, j | 0 <= i < j < |history| :: history[i].0 != history[j].0
  {
    forall i, j | 0 <= i < j < |history| ensures history[i].0 != history[j].0 {
      DistinctResidues(lastId - j, j - i);
    }
  }

  lemma DistinctResidues(a: int, d: int)
    requires 0 < d < UsizeModulus
    ensures (a + d) % UsizeModulus != a % UsizeModulus
  {
    var m := UsizeModulus;
    var q, r := a / m, a % m;
    assert a == q * m + r;
    if r + d < m {
      assert a + d == q * m + (r + d);
      assert (a + d) % m == r + d;
    } else {
      assert a + d == (q + 1) * m + (r + d - m);
      assert (a + d) % m == r + d - m;
    }
  }

  /** One step of the counter keeps the count-down of the older lines. */
  lemma ShiftedResidue(lastId: nat, i: nat)
    requires lastId < UsizeModulus
    ensures (WrappingIncrement(lastId) - (i + 1)) % UsizeModulus == (lastId - i) % UsizeModulus
  {
    var m := UsizeModulus;
    if lastId == m - 1 {
      assert WrappingIncrement(lastId) - (i + 1) == (lastId - i) - m;
    }
  }

  // ---------------------------------------------------------------------------
  // Rust's `{:?}` on a string
  // ---------------------------------------------------------------------------

  predicate IsHexDigit(c: char) {
    '0' <= c <= '9' || 'a' <= c <= 'f'
  }

  /** The value of one lower-case hex digit. */
  function HexDigitValue(c: char): (v: nat)
    requires IsHexDigit(c)
    ensures v < 16
  {
    if c <= '9' then c as int - '0' as int else c as int - 'a' as int + 10
  }

  /** The value a string of hex digits denotes, read most significant first. */
  function HexValue(s: string): nat
    requires forall k | 0 <= k < |s| :: IsHexDigit(s[k])
  {
    if s == [] then 0
    else
      assert IsHexDigit(s[|s| - 1]);
      HexValue(s[..|s| - 1]) * 16 + HexDigitValue(s[|s| - 1])
  }

  /** Lower-case hex digits without leading zeros, as `\u{..}` writes them:
      the shortest hex numeral whose value is n. */
  function HexNoPad(n: nat): (r: string)
    ensures |r| >= 1 && (forall k | 0 <= k < |r| :: IsHexDigit(r[k]))
    ensures HexValue(r) == n
    ensures |r| > 1 ==> r[0] != '0'
  {
    if n < 16 then
      assert HexDigitValue(HexDigit(n)) == n;
      [HexDigit(n)]
    else
      var prefix, last := HexNoPad(n / 16), HexDigit(n % 16);
      assert HexDigitValue(last) == n % 16;
      assert (prefix + [last])[..|prefix|] == prefix;
      prefix + [last]
  }

  /** `char::escape_debug` on the ASCII range, as Rust 1.61 and later write
      it: quote and backslash are escaped, the four short forms are used (NUL
      as `\0`; earlier toolchains wrote `\u{0}`), every other ASCII control
      character (and DEL) becomes `\u{..}`. An ASCII character is written as
      printable ASCII text. */
  function DebugEscapeChar(c: char): (r: string)
    ensures |r| >= 1
    ensures c as int < 0x80 ==> forall k | 0 <= k < |r| :: 0x20 <= r[k] as int < 0x7F
  {
    if c == '"' then "\\\""
    else if c == '\\' then "\\\\"
    else if c as int == 0 then "\\0"
    else if c == '\n' then "\\n"
    else if c == '\r' then "\\r"
    else if c == '\t' then "\\t"
    else if c as int < 0x20 || c as int == 0x7F then "\\u{" + HexNoPad(c as int) + "}"
    else [c]
  }

  function DebugEscape(s: string): string {
    if s == [] then [] else DebugEscapeChar(s[0]) + DebugEscape(s[1..])
  }

  /** `format!("{:?}", s)` for a `String`. */
  function DebugQuote(s: string): string {
    "\"" + DebugEscape(s) + "\""
  }

  /** A printable character other than the quote and the backslash is written
      as itself; every other one becomes an escape beginning with a backslash. */
  lemma DebugEscapeCharSpec(c: char)
    ensures (Plain(c) && c as int != 0x7F) <==> DebugEscapeChar(c) == [c]
    ensures !(Plain(c) && c as int != 0x7F) ==> |DebugEscapeChar(c)| >= 2 && DebugEscapeChar(c)[0] == '\\'
  {
  }

  /** On the characters neither escaping touches, Rust's debug quoting and
      JSON's string writer agree: both give the string between quotes. */
  lemma {:induction false} DebugEscapeAgreesWithJson(s: string)
    requires forall k | 0 <= k < |s| :: Plain(s[k]) && s[k] as int != 0x7F
    ensures DebugEscape(s) == Escape(s) == s
  {
    if s != [] {
      DebugEscapeCharSpec(s[0]);
      EscapeCharSpec(s[0]);
      DebugEscapeAgreesWithJson(s[1..]);
    }
  }

  lemma DebugQuoteAgreesWithJson(s: string)
    requires forall k | 0 <= k < |s| :: Plain(s[k]) && s[k] as int != 0x7F
    ensures DebugQuote(s) == Quote(s) == "\"" + s + "\""
  {
    DebugEscapeAgreesWithJson(s);
  }

  /** They differ on every character below U+0020 but the three both write
      alike: `{:?}` writes U+0001 as `\u{1}`, JSON as `\u0001`; NUL is `\0`
      against `\u0000`; backspace and form feed are `\u{8}` and `\u{c}`
      against `\b` and `\f`. */
  lemma DebugQuoteDiffersOnControl(c: char)
    requires c as int < 0x20 && c != '\n' && c != '\r' && c != '\t'
    ensures DebugEscapeChar(c) != EscapeChar(c)
  {
    if c as int >= 1 && c as int != 0x08 && c as int != 0x0C {
      assert EscapeChar(c)[2] == '0';
      assert DebugEscapeChar(c)[2] == '{';
    }
  }

  // ---------------------------------------------------------------------------
  // The history lines
  // ---------------------------------------------------------------------------

  /** The line a response from the WebSocket agent adds to the history; a
      status report adds none. */
  function ResponseLine(response: GameWsResponse): (r: Option<string>)
    ensures r.None? <==> response.WebSocketStatus?
    ensures response.Received? ==> r == Some("<- " + Serialize(response.data))
    ensures response.ReceivedError? ==> r == Some("Failed to decode received data: " + DebugQuote(response.error))
  {
    match response
    case Connecting(_) => Some("Connecting...")
    case Connected(_) => Some("Connected")
    case Closed => Some("Disconnected")
    case FailedToConnect(reason) => Some("Failed to connect: " + reason)
    case ErrorOccurred => Some("An unknown error occurred.")
    case Received(data) => Some("<- " + Serialize(data))
    case ReceivedError(error) => Some("Failed to decode received data: " + DebugQuote(error))
    case WebSocketStatus(_) => None
  }

  /** Distinct responses that carry no text of their own leave distinct lines,
      so the history tells the connection events apart. */
  lemma ConnectionLinesDistinct()
    ensures ResponseLine(Closed) != ResponseLine(ErrorOccurred)
    ensures forall info :: ResponseLine(Connecting(info)) != ResponseLine(GameWsResponse.Connected(info))
    ensures forall info :: ResponseLine(GameWsResponse.Connected(info)) != ResponseLine(Closed)
  {
  }

  /** The line of a received frame cannot be mistaken for the line of any
      other response: only it begins with `<`. */
  lemma ReceivedLineDistinguished(data: Json, other: GameWsResponse)
    requires !other.Received?
    ensures ResponseLine(Received(data)) != ResponseLine(other)
  {
    var line := ResponseLine(Received(data));
    assert line.value[0] == '<';
    match other
    case Connecting(_) => assert ResponseLine(other).value[0] == 'C';
    case Connected(_) => assert ResponseLine(other).value[0] == 'C';
    case Closed => assert ResponseLine(other).value[0] == 'D';
    case FailedToConnect(reason) => assert ResponseLine(other).value[0] == 'F';
    case ErrorOccurred => assert ResponseLine(other).value[0] == 'A';
    case ReceivedError(error) => assert ResponseLine(other).value[0] == 'F';
    case WebSocketStatus(_) =>
  }

  /** `json!({"type": "PING"})`. */
  const Ping: Json := Object([Member("type", Str("PING"))])

  datatype Command = Update | ConnectWebSocket | SendPing | SendMessage | CloseWebSocket

  datatype Event =
    | GameIdChanged(gameId: string)
    | PlayerIdChanged(playerId: string)
    | WsMessageChanged(wsMessage: string)
    | WebSocketMessage(response: GameWsResponse)

  datatype Msg = Command(command: Command) | Event(event: Event)

  /** The game and player fields a status fills in, if it names a connection. */
  function InfoOf(status: WebSocketStatus): (r: Option<ConnectionInfo>)
    ensures r.None? <==> status.NotConnected?
    ensures r.Some? ==> r.value == status.info
  {
    match status
    case NotConnected => None
    case Pending(info) => Some(info)
    case Connected(info) => Some(info)
  }

  class WebSocketDebugConsole {
    var wsStatus: WebSocketStatus
    var wsHistory: seq<Entry>
    var wsHistoryLastId: nat
    var gameId: string
    var playerId: string
    var wsMessage: string

    /** `ws_agent.send(request)`. */
    var wsRequests: seq<GameWsRequest>
    /** `link.send_message(command)`. */
    var queued: seq<Command>

    /** The history is bounded, the counter is a `usize`, and the ids count
        down from it. */
    predicate Valid()
      reads this
    {
      wsHistoryLastId < UsizeModulus
      && |wsHistory| <= MaxHistoryLen
      && IdsCountDown(wsHistory, wsHistoryLastId)
    }

    /** `create`: empty fields, an empty history with the counter at 0, and a
        status query queued. */
    constructor ()
      ensures Valid()
      ensures wsStatus == NotConnected && wsHistory == [] && wsHistoryLastId == 0
      ensures gameId == "" && playerId == "" && wsMessage == ""
      ensures wsRequests == [] && queued == [Command.Update]
    {
      wsStatus, wsHistory, wsHistoryLastId := NotConnected, [], 0;
      gameId, playerId, wsMessage := "", "", "";
      wsRequests, queued := [], [Command.Update];
    }

    /** `change`: queue a status query; no re-render. */
    method Change() returns (render: bool)
      modifies this`queued
      ensures queued == old(queued) + [Command.Update]
      ensures !render
    {
      queued := queued + [Command.Update];
      render := false;
    }

    /** `push_in_history`: pop from the back while the history is full, bump
        the counter, push the new line at the front. */
    method PushInHistory(line: string)
      requires Valid()
      modifies this`wsHistory, this`wsHistoryLastId
      ensures Valid()
      ensures wsHistoryLastId == WrappingIncrement(old(wsHistoryLastId))
      ensures wsHistory == Pushed(old(wsHistory), wsHistoryLastId, line)
    {
      ghost var history := wsHistory;
      while |wsHistory| >= MaxHistoryLen
        invariant |wsHistory| <= |history|
        invariant wsHistory == history[..|wsHistory|]
        invariant |history| < MaxHistoryLen ==> wsHistory == history
        invariant |history| >= MaxHistoryLen ==> |wsHistory| >= MaxHistoryLen - 1
        invariant wsHistoryLastId == old(wsHistoryLastId)
        decreases |wsHistory|
      {
        wsHistory := wsHistory[..|wsHistory| - 1];
      }
      wsHistoryLastId := WrappingIncrement(wsHistoryLastId);
      wsHistory := [(wsHistoryLastId, line)] + wsHistory;
      forall i | 1 <= i < |wsHistory|
        ensures wsHistory[i].0 == (wsHistoryLastId - i) % UsizeModulus
      {
        ShiftedResidue(old(wsHistoryLastId), i - 1);
      }
    }

    /** `change_status`: a status naming a connection copies its game and
        player into the fields; the status is stored; the result says whether
        it changed. */
    method ChangeStatus(status: WebSocketStatus) returns (changed: bool)
      modifies this`wsStatus, this`gameId, this`playerId
      ensures wsStatus == status
      ensures changed <==> old(wsStatus) != status
      ensures status.NotConnected? ==> gameId == old(gameId) && playerId == old(playerId)
      ensures !status.NotConnected? ==> gameId == status.info.gameId && playerId == status.info.playerId
    {
      match status {
        case NotConnected =>
        case Pending(info) =>
          playerId, gameId := info.playerId, info.gameId;
        case Connected(info) =>
          playerId, gameId := info.playerId, info.gameId;
      }
      wsStatus, changed := NeqAssign(wsStatus, status);
    }

    /** `send_on_ws`: log the outgoing JSON behind `-> ` and hand it to the
        WebSocket agent. */
    method SendOnWs(message: Json)
      requires Valid()
      modifies this`wsHistory, this`wsHistoryLastId, this`wsRequests
      ensures Valid()
      ensures wsHistoryLastId == WrappingIncrement(old(wsHistoryLastId))
      ensures wsHistory == Pushed(old(wsHistory), wsHistoryLastId, "-> " + Serialize(message))
      ensures wsRequests == old(wsRequests) + [Send(message)]
    {
      PushInHistory("-> " + Serialize(message));
      wsRequests := wsRequests + [Send(message)];
    }

    /** `update` on a command. `parsed` is what parsing the typed message
        gives: a JSON value or the parser's error text. */
    method UpdateCommand(command: Command, parsed: Result<Json, string>) returns (render: bool)
      requires Valid()
      modifies this`wsHistory, this`wsHistoryLastId, this`wsRequests
      ensures Valid()
      ensures render <==> command.SendPing? || command.SendMessage?
      ensures command.Update? ==> wsRequests == old(wsRequests) + [GetWebSocketStatus]
      ensures command.ConnectWebSocket? ==>
        wsRequests == old(wsRequests) + [JoinRound(ConnectionInfo(gameId, playerId))]
      ensures command.CloseWebSocket? ==> wsRequests == old(wsRequests) + [CloseSocket]
      ensures command.SendPing? ==> wsRequests == old(wsRequests) + [Send(Ping)]
      ensures command.SendMessage? && parsed.Ok? ==> wsRequests == old(wsRequests) + [Send(parsed.value)]
      ensures command.SendMessage? && parsed.Err? ==> wsRequests == old(wsRequests)
      ensures !(command.SendPing? || command.SendMessage?) ==>
        wsHistory == old(wsHistory) && wsHistoryLastId == old(wsHistoryLastId)
      ensures command.SendPing? || command.SendMessage? ==>
        wsHistoryLastId == WrappingIncrement(old(wsHistoryLastId))
      ensures command.SendPing? ==>
        wsHistory == Pushed(old(wsHistory), wsHistoryLastId, "-> " + Serialize(Ping))
      ensures command.SendMessage? && parsed.Ok? ==>
        wsHistory == Pushed(old(wsHistory), wsHistoryLastId, "-> " + Serialize(parsed.value))
      ensures command.SendMessage? && parsed.Err? ==>
        wsHistory == Pushed(old(wsHistory), wsHistoryLastId, "ERROR: Message is not correct JSON: " + parsed.error)
    {
      match command
      case Update =>
        wsRequests := wsRequests + [GetWebSocketStatus];
        render := false;
      case ConnectWebSocket =>
        wsRequests := wsRequests + [JoinRound(ConnectionInfo(gameId, playerId))];
        render := false;
      case SendPing =>
        SendOnWs(Ping);
        render := true;
      case SendMessage =>
        match parsed {
          case Ok(json) => SendOnWs(json);
          case Err(e) => PushInHistory("ERROR: Message is not correct JSON: " + e);
        }
        render := true;
      case CloseWebSocket =>
        wsRequests := wsRequests + [CloseSocket];
        render := false;
    }

    /** `update` on a response from the WebSocket agent: the status it implies
        is stored (with its game and player) and the line it implies is
        logged. Only a bare status report can leave the view as it was. */
    method OnWebSocketMessage(response: GameWsResponse) returns (render: bool)
      requires Valid()
      modifies this`wsStatus, this`gameId, this`playerId, this`wsHistory, this`wsHistoryLastId
      ensures Valid()
      ensures ImpliedStatus(response).Some? ==> wsStatus == ImpliedStatus(response).value
      ensures ImpliedStatus(response).None? ==> wsStatus == old(wsStatus)
      ensures ImpliedStatus(response).Some? && InfoOf(ImpliedStatus(response).value).Some? ==>
        var info := InfoOf(ImpliedStatus(response).value).value;
        gameId == info.gameId && playerId == info.playerId
      ensures ImpliedStatus(response).None? || InfoOf(ImpliedStatus(response).value).None? ==>
        gameId == old(gameId) && playerId == old(playerId)
      ensures ResponseLine(response).None? ==>
        wsHistory == old(wsHistory) && wsHistoryLastId == old(wsHistoryLastId)
      ensures ResponseLine(response).Some? ==>
        wsHistoryLastId == WrappingIncrement(old(wsHistoryLastId))
        && wsHistory == Pushed(old(wsHistory), wsHistoryLastId, ResponseLine(response).value)
      ensures render <==> !response.WebSocketStatus? || old(wsStatus) != response.status
    {
      match response
      case Connecting(info) =>
        var _ := ChangeStatus(Pending(info));
        PushInHistory("Connecting...");
        render := true;
      case Connected(info) =>
        var _ := ChangeStatus(WebSocketStatus.Connected(info));
        PushInHistory("Connected");
        render := true;
      case Closed =>
        var _ := ChangeStatus(NotConnected);
        PushInHistory("Disconnected");
        render := true;
      case FailedToConnect(reason) =>
        var _ := ChangeStatus(NotConnected);
        PushInHistory("Failed to connect: " + reason);
        render := true;
      case ErrorOccurred =>
        PushInHistory("An unknown error occurred.");
        var _ := ChangeStatus(NotConnected);
        render := true;
      case Received(data) =>
        PushInHistory("<- " + Serialize(data));
        render := true;
      case ReceivedError(error) =>
        PushInHistory("Failed to decode received data: " + DebugQuote(error));
        render := true;
      case WebSocketStatus(status) =>
        render := ChangeStatus(status);
    }

    /** `update` on an input event: the field is replaced, and the view
        re-renders only when its text changed. */
    method OnInput(event: Event) returns (render: bool)
      requires !event.WebSocketMessage?
      modifies this`gameId, this`playerId, this`wsMessage
      ensures event.GameIdChanged? ==>
        gameId == event.gameId && playerId == old(playerId) && wsMessage == old(wsMessage)
        && (render <==> old(gameId) != event.gameId)
      ensures event.PlayerIdChanged? ==>
        playerId == event.playerId && gameId == old(gameId) && wsMessage == old(wsMessage)
        && (render <==> old(playerId) != event.playerId)
      ensures event.WsMessageChanged? ==>
        wsMessage == event.wsMessage && gameId == old(gameId) && playerId == old(playerId)
        && (render <==> old(wsMessage) != event.wsMessage)
    {
      match event
      case GameIdChanged(value) => gameId, render := NeqAssign(gameId, value);
      case PlayerIdChanged(value) => playerId, render := NeqAssign(playerId, value);
      case WsMessageChanged(value) => wsMessage, render := NeqAssign(wsMessage, value);
    }

    /** `update`: dispatch on the message. */
    method Update(msg: Msg, parsed: Result<Json, string>) returns (render: bool)
      requires Valid()
      modifies this
      ensures Valid()
      ensures queued == old(queued)
      ensures msg.Command? ==>
        wsStatus == old(wsStatus) && gameId == old(gameId)
        && playerId == old(playerId) && wsMessage == old(wsMessage)
      ensures msg.Event? ==> wsRequests == old(wsRequests)
      ensures msg.Event? && !msg.event.WebSocketMessage? ==>
        wsHistory == old(wsHistory) && wsHistoryLastId == old(wsHistoryLastId) && wsStatus == old(wsStatus)
    {
      match msg
      case Command(command) =>
        render := UpdateCommand(command, parsed);
      case Event(event) =>
        if event.WebSocketMessage? {
          render := OnWebSocketMessage(event.response);
        } else {
          render := OnInput(event);
        }
    }
  }
}
