/** `App`, the application root: a text value kept in local storage and a
    raw WebSocket dialled to that value. After every handled message the
    state is written back to storage, as the JSON object `{"value": ...}`.
    Dialling is a parameter of `Update`; storage writes and frames sent are
    appended to outboxes. */
module App {
  import opened Wrappers
  import opened Json
  import opened WsConnection
  import Wire

  datatype State = State(value: string)

  datatype WsMsg =
    | Close
    | Closed
    | Connect
    | Connected
    | ErrorOccurred
    | Received(result: Result<Json, string>)
    | Send(data: Json)

  datatype Msg = Update(value: string) | WebSocket(action: WsMsg) | Ignore

  /** `update` either returns its `ShouldRender` or panics, which ends the
      application. */
  datatype Outcome = Rendered(render: bool) | Panicked

  /** `cards-client-rs.state`, the storage key. */
  const Key := "cards-client-rs.state"

  /** The stored form of the state. */
  function StateJson(s: State): Json {
    Object([Member("value", Str(s.value))])
  }

  /** The text written to storage is the value between quotes, escaped, in a
      one-member object. */
  lemma StoredText(s: State)
    ensures Serialize(StateJson(s)) == "{\"value\":" + Quote(s.value) + "}"
  {
    var q, key := Quote(s.value), "value";
    assert Quote(key) == "\"value\"" by { QuotePlain(key); }
    SerializeMembersCons(Member(key, Str(s.value)), []);
    assert "{" + (Quote(key) + ":" + q) + "}" == "{\"value\":" + q + "}";
  }

  /** The derived `Deserialize` of `State`: an object with one text member
      `value`; other members are ignored. */
  function DecodeState(j: Json): Wire.Decoded<State> {
    if !j.Object? then Err(Wire.InvalidType("struct State"))
    else
      var value :- Wire.StringField(j.members, "value");
      Ok(State(value))
  }

  /** What `create` starts from: the state read back from storage, or the
      default state when nothing was stored or the text is not a state. */
  function Restored(stored: Option<Json>): (s: State)
    ensures stored.Some? && DecodeState(stored.value).Ok? ==> s == DecodeState(stored.value).value
    ensures stored.None? || DecodeState(stored.value).Err? ==> s == State("")
  {
    match stored
    case None => State("")
    case Some(j) =>
      match DecodeState(j)
      case Ok(s) => s
      case Err(_) => State("")
  }

  /** A state written by `update` is the state the next `create` starts from. */
  lemma StoredStateRestored(s: State)
    ensures DecodeState(StateJson(s)) == Ok(s)
    ensures Restored(Some(StateJson(s))) == s
  {
    assert Find([Member("value", Str(s.value))], "value") == Present(Str(s.value));
  }

  class AppRoot {
    var state: State
    var ws: WebSocketConnection

    /** `storage.store(KEY, Json(&state))`: the key and the text written. */
    var stored: seq<(string, string)>
    /** The addresses passed to `WebSocketService::connect`. */
    var dialed: seq<string>
    /** `ws.send(Json(&data))` on the open socket. */
    var frames: seq<(Task, Json)>

    /** `create`, given what storage holds under the key, already parsed as
        JSON (`None` when there is nothing or it is not JSON): the state
        restored from it, and no socket. */
    constructor (storedState: Option<Json>)
      ensures state == Restored(storedState)
      ensures ws == NoConnection && stored == [] && dialed == [] && frames == []
    {
      state := Restored(storedState);
      ws, stored, dialed, frames := NoConnection, [], [], [];
    }

    /** `change`: there are no properties. */
    method Change() returns (render: bool)
      ensures !render
    {
      render := false;
    }

    /** `update`. `Ignore` does nothing; a failed dial panics; every other
        message is handled, the state stored, and the view re-rendered. */
    method Update(msg: Msg, connect: Result<Task, string>) returns (outcome: Outcome)
      modifies this
      ensures outcome == Panicked <==> msg == WebSocket(Connect) && connect.Err?
      ensures outcome.Rendered? ==> (outcome.render <==> !msg.Ignore?)
      ensures msg.Ignore? || outcome.Panicked? ==>
        state == old(state) && ws == old(ws) && stored == old(stored)
        && dialed == old(dialed) + (if outcome.Panicked? then [state.value] else []) && frames == old(frames)
      ensures outcome == Rendered(true) ==>
        stored == old(stored) + [(Key, Serialize(StateJson(state)))]
      ensures msg.Update? ==>
        state == State(msg.value) && ws == old(ws) && dialed == old(dialed) && frames == old(frames)
      ensures msg.WebSocket? ==> state == old(state)
      ensures msg.WebSocket? && outcome.Rendered? ==> match msg.action
        case Connect =>
          ws == Pending(connect.value) && dialed == old(dialed) + [state.value] && frames == old(frames)
        case Connected =>
          ws == AfterConnected(old(ws)) && dialed == old(dialed) && frames == old(frames)
        case Send(data) =>
          ws == old(ws) && dialed == old(dialed)
          && frames == old(frames) + (if IsConnected(old(ws)) then [(old(ws).task, data)] else [])
        case Received(_) =>
          ws == old(ws) && dialed == old(dialed) && frames == old(frames)
        case _ =>
          ws == NoConnection && dialed == old(dialed) && frames == old(frames)
    {
      match msg {
      case Update(value) =>
        state := State(value);
      case WebSocket(action) =>
        match action {
          case Connect =>
            dialed := dialed + [state.value];
            match connect {
              case Ok(task) => ws := Pending(task);
              case Err(_) => return Panicked;
            }
          case Connected =>
            ws := AfterConnected(ws);
          case Send(data) =>
            if ws.Connected? {
              frames := frames + [(ws.task, data)];
            }
          case Received(_) =>
          case Close =>
            ws := NoConnection;
          case Closed =>
            ws := NoConnection;
          case ErrorOccurred =>
            ws := NoConnection;
        }
      case Ignore =>
        return Rendered(false);
      }
      stored := stored + [(Key, Serialize(StateJson(state)))];
      outcome := Rendered(true);
    }
  }
}
