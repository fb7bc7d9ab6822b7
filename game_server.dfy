/** `GameServerService`, the client of the game server's HTTP API. Only
    `join_round` is live: it asks the server to add a player to a round and
    hands the callback either the decoded `JoinRoundResponse` or an error.
    The fetch itself is not modelled: the handler receives the response's
    status and its body (the text already parsed as JSON, or the reason it
    could not be). */
module GameServer {
  import opened Wrappers
  import opened Json
  import opened Wire

  /** `JoinRoundResponse`, whose fields travel under their camel-case names. */
  datatype JoinRoundResponse = JoinRoundResponse(
    id: string,
    playerId: string,
    gameId: string,
    status: string,
    createdOn: string,
    createdBy: string,
    minPlayers: nat,
    maxPlayers: nat,
    public: bool,
    players: seq<string>)

  const U32Modulus: nat := 0x1_0000_0000

  /** The player counts fit the `u32` fields. */
  predicate FitsU32(r: JoinRoundResponse) {
    r.minPlayers < U32Modulus && r.maxPlayers < U32Modulus
  }

  // ---------------------------------------------------------------------------
  // The request
  // ---------------------------------------------------------------------------

  /** The URL `join_round` fetches with `GET`. */
  function JoinUrl(gameId: string, username: string): (url: string)
    ensures |url| == 11 + |gameId| + 15 + |username|
    ensures url[..11] == "/api/round/"
    ensures url[11..11 + |gameId|] == gameId
    ensures url[11 + |gameId|..11 + |gameId| + 15] == "/join?username="
    ensures url[11 + |gameId| + 15..] == username
  {
    var url := "/api/round/" + gameId + "/join?username=" + username;
    assert url[11..11 + |gameId|] == gameId;
    url
  }

  /** In the URL the game id is followed by the first slash after the prefix. */
  lemma JoinUrlSlash(gameId: string, username: string)
    requires '/' !in gameId
    ensures forall k | 11 <= k <= 11 + |gameId| :: JoinUrl(gameId, username)[k] == '/' <==> k == 11 + |gameId|
  {
    var url := JoinUrl(gameId, username);
    forall k | 0 <= k < |gameId| ensures url[11 + k] == gameId[k] {
      assert url[11..11 + |gameId|][k] == url[11 + k];
    }
    assert url[11 + |gameId|..11 + |gameId| + 15][0] == url[11 + |gameId|];
  }

  /** A game id without a slash and a user name are read back from the URL:
      different joins fetch different URLs. */
  lemma JoinUrlInjective(g1: string, u1: string, g2: string, u2: string)
    requires '/' !in g1 && '/' !in g2
    requires JoinUrl(g1, u1) == JoinUrl(g2, u2)
    ensures g1 == g2 && u1 == u2
  {
    JoinUrlSlash(g1, u1);
    JoinUrlSlash(g2, u2);
    var n := 11 + if |g1| < |g2| then |g1| else |g2|;
    assert JoinUrl(g1, u1)[n] == JoinUrl(g2, u2)[n];
  }

  // ---------------------------------------------------------------------------
  // The response body
  // ---------------------------------------------------------------------------

  function DecodeU32(j: Json): (r: Decoded<nat>)
    ensures r.Ok? <==> j.Number? && 0 <= j.n < U32Modulus
    ensures r.Ok? ==> r.value == j.n
  {
    if j.Number? && 0 <= j.n < U32Modulus then Ok(j.n) else Err(InvalidType("u32"))
  }

  function DecodeBool(j: Json): (r: Decoded<bool>)
    ensures r.Ok? <==> j.Bool?
    ensures r.Ok? ==> r.value == j.b
  {
    if j.Bool? then Ok(j.b) else Err(InvalidType("a boolean"))
  }

  /** The six text fields of a `JoinRoundResponse`, in declaration order. */
  datatype Names = Names(id: string, playerId: string, gameId: string, status: string,
                         createdOn: string, createdBy: string)

  /** The four fields that describe the round's settings. */
  datatype Settings = Settings(minPlayers: nat, maxPlayers: nat, public: bool, players: seq<string>)

  function DecodeNames(ms: seq<Member>): (r: Decoded<Names>)
    ensures r.Ok? ==> Find(ms, "playerId") == Present(Str(r.value.playerId))
    ensures r.Ok? ==> Find(ms, "gameId") == Present(Str(r.value.gameId))
  {
    var id :- StringField(ms, "id");
    var playerId :- StringField(ms, "playerId");
    var gameId :- StringField(ms, "gameId");
    var status :- StringField(ms, "status");
    var createdOn :- StringField(ms, "createdOn");
    var createdBy :- StringField(ms, "createdBy");
    Ok(Names(id, playerId, gameId, status, createdOn, createdBy))
  }

  function DecodeSettings(ms: seq<Member>): (r: Decoded<Settings>)
    ensures r.Ok? ==> Find(ms, "public") == Present(Bool(r.value.public))
  {
    var minJson :- Field(ms, "minPlayers");
    var minPlayers :- DecodeU32(minJson);
    var maxJson :- Field(ms, "maxPlayers");
    var maxPlayers :- DecodeU32(maxJson);
    var publicJson :- Field(ms, "public");
    var public :- DecodeBool(publicJson);
    var players :- ArrayField(ms, "players", DecodeString);
    Ok(Settings(minPlayers, maxPlayers, public, players))
  }

  /** The derived `Deserialize` of `JoinRoundResponse`: an object with every
      camel-case field present once and of the right type; other members
      are ignored. */
  function DecodeJoinRoundResponse(j: Json): (r: Decoded<JoinRoundResponse>)
    ensures !j.Object? ==> r.Err?
    ensures r.Ok? ==> Find(j.members, "playerId") == Present(Str(r.value.playerId))
    ensures r.Ok? ==> Find(j.members, "gameId") == Present(Str(r.value.gameId))
    ensures r.Ok? ==> Find(j.members, "public") == Present(Bool(r.value.public))
  {
    if !j.Object? then Err(InvalidType("struct JoinRoundResponse"))
    else
      var n :- DecodeNames(j.members);
      var s :- DecodeSettings(j.members);
      Ok(JoinRoundResponse(n.id, n.playerId, n.gameId, n.status, n.createdOn, n.createdBy,
                           s.minPlayers, s.maxPlayers, s.public, s.players))
  }

  /** The object the game server sends for a response. */
  function EncodeJoinRoundResponse(r: JoinRoundResponse): Json {
    Object([
      Member("id", Str(r.id)),
      Member("playerId", Str(r.playerId)),
      Member("gameId", Str(r.gameId)),
      Member("status", Str(r.status)),
      Member("createdOn", Str(r.createdOn)),
      Member("createdBy", Str(r.createdBy)),
      Member("minPlayers", Number(r.minPlayers)),
      Member("maxPlayers", Number(r.maxPlayers)),
      Member("public", Bool(r.public)),
      Member("players", Array(EncodeStrings(r.players)))])
  }

  lemma EncodedKeysDistinct(r: JoinRoundResponse)
    ensures DistinctKeys(EncodeJoinRoundResponse(r).members)
  {
  }

  /** The text fields of a written response read back as written. */
  lemma DecodeNamesOfEncoded(r: JoinRoundResponse)
    ensures DecodeNames(EncodeJoinRoundResponse(r).members)
      == Ok(Names(r.id, r.playerId, r.gameId, r.status, r.createdOn, r.createdBy))
  {
    var ms := EncodeJoinRoundResponse(r).members;
    EncodedKeysDistinct(r);
    StringFieldOf(ms, 0); StringFieldOf(ms, 1); StringFieldOf(ms, 2);
    StringFieldOf(ms, 3); StringFieldOf(ms, 4); StringFieldOf(ms, 5);
  }

  /** The settings of a written response read back as written exactly when
      the player counts are `u32` numbers. */
  lemma DecodeSettingsOfEncoded(r: JoinRoundResponse)
    ensures DecodeSettings(EncodeJoinRoundResponse(r).members).Ok? <==> FitsU32(r)
    ensures FitsU32(r) ==>
      DecodeSettings(EncodeJoinRoundResponse(r).members) == Ok(Settings(r.minPlayers, r.maxPlayers, r.public, r.players))
  {
    var ms := EncodeJoinRoundResponse(r).members;
    EncodedKeysDistinct(r);
    FieldOf(ms, 6); FieldOf(ms, 7); FieldOf(ms, 8);
    StringsFieldOf(ms, 9, r.players);
  }

  /** A response the server writes is read back exactly when its player
      counts fit a `u32`. */
  lemma JoinRoundResponseRoundTrip(r: JoinRoundResponse)
    ensures DecodeJoinRoundResponse(EncodeJoinRoundResponse(r)).Ok? <==> FitsU32(r)
    ensures FitsU32(r) ==> DecodeJoinRoundResponse(EncodeJoinRoundResponse(r)) == Ok(r)
  {
    DecodeNamesOfEncoded(r);
    DecodeSettingsOfEncoded(r);
  }

  /** The fields are read under their camel-case names only: a body that
      names the player id as the Rust field does, `player_id`, has no
      `playerId` and is refused for want of it. */
  lemma SnakeCaseFieldRefused(id: string, playerId: string)
    ensures DecodeJoinRoundResponse(Object([Member("id", Str(id)), Member("player_id", Str(playerId))]))
      == Err(MissingField("playerId"))
  {
    var ms := [Member("id", Str(id)), Member("player_id", Str(playerId))];
    assert Find(ms, "id") == Present(Str(id));
    assert Find(ms, "playerId") == Absent;
  }

  // ---------------------------------------------------------------------------
  // The handler
  // ---------------------------------------------------------------------------

  /** An HTTP status: its code and, when it has one, its canonical reason. */
  datatype StatusCode = StatusCode(code: nat, reason: Option<string>)

  /** `StatusCode::is_success`. */
  predicate IsSuccess(s: StatusCode) {
    200 <= s.code <= 299
  }

  /** `Display` of a status: the code, a space, the reason (or a placeholder). */
  function StatusText(s: StatusCode): (r: string)
    ensures var n := NatToString(s.code);
      |r| > |n| && r[|n|] == ' '
      && (forall k | 0 <= k < |n| :: IsDigit(r[k])) && DecimalValue(r[..|n|]) == s.code
      && r[|n| + 1..] == s.reason.UnwrapOr("<unknown status code>")
  {
    var n, reason := NatToString(s.code), s.reason.UnwrapOr("<unknown status code>");
    assert (n + " " + reason)[..|n|] == n;
    assert (n + " " + reason)[|n| + 1..] == reason;
    n + " " + reason
  }

  /** The text of a decoding failure, in serde's words. */
  function FailureText(f: DecodeFailure): string {
    match f
    case InvalidType(expected) => "invalid type: expected " + expected
    case MissingField(field) => "missing field `" + field + "`"
    case DuplicateField(field) => "duplicate field `" + field + "`"
    case UnknownVariant(variant) => "unknown variant `" + variant + "`"
  }

  const JoinErrorPrefix := "error joining the round: "

  /** The `join_round` handler: on a success status, the body decoded as a
      `JoinRoundResponse` (or the reason it is not one); on any other status,
      an error naming the status, whatever the body. */
  function HandleJoinResponse(status: StatusCode, body: Result<Json, string>): (r: Result<JoinRoundResponse, string>)
    ensures !IsSuccess(status) ==> r == Err(JoinErrorPrefix + StatusText(status))
    ensures r.Ok? <==> IsSuccess(status) && body.Ok? && DecodeJoinRoundResponse(body.value).Ok?
    ensures r.Ok? ==> r.value == DecodeJoinRoundResponse(body.value).value
    ensures IsSuccess(status) && body.Err? ==> r == Err(body.error)
  {
    if !IsSuccess(status) then Err(JoinErrorPrefix + StatusText(status))
    else match body
      case Err(e) => Err(e)
      case Ok(j) =>
        match DecodeJoinRoundResponse(j)
        case Ok(response) => Ok(response)
        case Err(f) => Err(FailureText(f))
  }

  /** A successful join whose body the server wrote reaches the page as the
      server's response. */
  lemma JoinResponseDelivered(status: StatusCode, r: JoinRoundResponse)
    requires IsSuccess(status) && FitsU32(r)
    ensures HandleJoinResponse(status, Ok(EncodeJoinRoundResponse(r))) == Ok(r)
  {
    JoinRoundResponseRoundTrip(r);
  }
}
