/** The game protocol spoken on the socket once connected (src/wire/mod.rs):
    a closed set of messages with serde's internally tagged encoding, where a
    `"type"` member names the variant and the variant's fields sit beside it
    in the same object. `AwaitedAction`, `ComponentUpdate` and `Component` are
    tagged the same way. */
module Wire {
  import opened Wrappers
  import opened Json

  // ---------------------------------------------------------------------------
  // Messages
  // ---------------------------------------------------------------------------

  datatype Message =
    | Ping
    | Pong
    | Close
    | PlayerConnected(playerConnected: PlayerConnected)
    | StartGame
    | GameStarted
    | GameFinished(gameFinished: GameFinished)
    | Error(error: Error)
    | ActionAwaited(actionAwaited: ActionAwaited)
    | InterfaceUpdate(interfaceUpdate: InterfaceUpdate)
    | ComponentsUpdates(componentsUpdates: ComponentsUpdates)

  datatype PlayerConnected = PlayerConnected(message: string, username: string)

  datatype GameFinished = GameFinished(winners: seq<string>)

  datatype Error = Error(messages: seq<string>)

  datatype ActionAwaited = ActionAwaited(allOf: seq<AwaitedAction>)

  datatype AwaitedAction = OnClick(targetComponent: string)

  datatype InterfaceUpdate = InterfaceUpdate(components: seq<InterfaceComponent>)

  datatype InterfaceComponent = InterfaceComponent(id: ComponentId, position: ComponentPosition)

  /** A newtype struct around a string: on the wire it is the bare string. */
  datatype ComponentId = ComponentId(name: string)

  datatype ComponentPosition = Top | Bottom | Left | Right | Center

  /** The Rust field is `updates`; on the wire it is renamed `components`. */
  datatype ComponentsUpdates = ComponentsUpdates(updates: seq<ComponentUpdate>)

  datatype ComponentUpdate = Create(id: ComponentId, component: Component)

  datatype Component = Card(card: Card) | Hand(hand: Hand)

  datatype Card = Card(
    name: string,
    description: string,
    frontImage: Option<string>,
    backImage: Option<string>,
    state: CardState)

  datatype CardState = CardState(suit: string, value: string)

  datatype Hand = Hand(cards: seq<ComponentId>)

  // ---------------------------------------------------------------------------
  // Wire names
  // ---------------------------------------------------------------------------

  /** The variants of `Message`, without their contents. */
  datatype Variant =
    | PingVariant | PongVariant | CloseVariant | PlayerConnectedVariant | StartGameVariant
    | GameStartedVariant | GameFinishedVariant | ErrorVariant | ActionAwaitedVariant
    | InterfaceUpdateVariant | ComponentsUpdatesVariant

  function VariantOf(m: Message): Variant {
    match m
    case Ping => PingVariant
    case Pong => PongVariant
    case Close => CloseVariant
    case PlayerConnected(_) => PlayerConnectedVariant
    case StartGame => StartGameVariant
    case GameStarted => GameStartedVariant
    case GameFinished(_) => GameFinishedVariant
    case Error(_) => ErrorVariant
    case ActionAwaited(_) => ActionAwaitedVariant
    case InterfaceUpdate(_) => InterfaceUpdateVariant
    case ComponentsUpdates(_) => ComponentsUpdatesVariant
  }

  /** The name each variant of `Message` is given by its own `#[serde(rename = "...")]`. */
  function VariantName(v: Variant): string {
    match v
    case PingVariant => "PING"
    case PongVariant => "PONG"
    case CloseVariant => "CLOSE"
    case PlayerConnectedVariant => "PLAYER_CONNECTED"
    case StartGameVariant => "START_GAME"
    case GameStartedVariant => "GAME_STARTED"
    case GameFinishedVariant => "GAME_FINISHED"
    case ErrorVariant => "ERROR"
    case ActionAwaitedVariant => "ACTION_AWAITED"
    case InterfaceUpdateVariant => "INTERFACE_UPDATE"
    case ComponentsUpdatesVariant => "COMPONENTS_UPDATES"
  }

  /** The value of the `"type"` field of an encoded message. */
  function Tag(m: Message): string {
    VariantName(VariantOf(m))
  }

  /** The variant a tag names, if any. */
  function ParseVariant(tag: string): (r: Option<Variant>)
    ensures r.Some? ==> VariantName(r.value) == tag
  {
    match tag
    case "PING" => Some(PingVariant)
    case "PONG" => Some(PongVariant)
    case "CLOSE" => Some(CloseVariant)
    case "PLAYER_CONNECTED" => Some(PlayerConnectedVariant)
    case "START_GAME" => Some(StartGameVariant)
    case "GAME_STARTED" => Some(GameStartedVariant)
    case "GAME_FINISHED" => Some(GameFinishedVariant)
    case "ERROR" => Some(ErrorVariant)
    case "ACTION_AWAITED" => Some(ActionAwaitedVariant)
    case "INTERFACE_UPDATE" => Some(InterfaceUpdateVariant)
    case "COMPONENTS_UPDATES" => Some(ComponentsUpdatesVariant)
    case _ => None
  }

  /** `rename_all = "snake_case"` on a one-word variant name: lower case. */
  function PositionName(p: ComponentPosition): string {
    match p
    case Top => "top"
    case Bottom => "bottom"
    case Left => "left"
    case Right => "right"
    case Center => "center"
  }

  // ---------------------------------------------------------------------------
  // Encoding (the derived `Serialize`)
  // ---------------------------------------------------------------------------

  function EncodeStrings(xs: seq<string>): (r: seq<Json>)
    ensures |r| == |xs| && forall i | 0 <= i < |xs| :: r[i] == Str(xs[i])
  {
    seq(|xs|, i requires 0 <= i < |xs| => Str(xs[i]))
  }

  function EncodeComponentId(id: ComponentId): Json {
    Str(id.name)
  }

  function EncodeAwaitedAction(a: AwaitedAction): Json {
    Object([Member("type", Str("OnClick")), Member("target_component", Str(a.targetComponent))])
  }

  function EncodeInterfaceComponent(c: InterfaceComponent): Json {
    Object([Member("id", EncodeComponentId(c.id)), Member("position", Str(PositionName(c.position)))])
  }

  function EncodeOptionalString(o: Option<string>): Json {
    match o
    case None => Null
    case Some(s) => Str(s)
  }

  function EncodeCardState(s: CardState): Json {
    Object([Member("suit", Str(s.suit)), Member("value", Str(s.value))])
  }

  function EncodeComponent(c: Component): Json {
    match c
    case Card(card) =>
      Object([
        Member("type", Str("Card")),
        Member("name", Str(card.name)),
        Member("description", Str(card.description)),
        Member("front_image", EncodeOptionalString(card.frontImage)),
        Member("back_image", EncodeOptionalString(card.backImage)),
        Member("state", EncodeCardState(card.state))])
    case Hand(hand) =>
      Object([
        Member("type", Str("Hand")),
        Member("cards", Array(seq(|hand.cards|, i requires 0 <= i < |hand.cards| => EncodeComponentId(hand.cards[i]))))])
  }

  function EncodeComponentUpdate(u: ComponentUpdate): Json {
    Object([Member("type", Str("Create")), Member("id", EncodeComponentId(u.id)), Member("component", EncodeComponent(u.component))])
  }

  /** The members written after the tag: the variant's fields, in declaration order. */
  function Fields(m: Message): seq<Member> {
    match m
    case PlayerConnected(p) => [Member("message", Str(p.message)), Member("username", Str(p.username))]
    case GameFinished(g) => [Member("winners", Array(EncodeStrings(g.winners)))]
    case Error(e) => [Member("messages", Array(EncodeStrings(e.messages)))]
    case ActionAwaited(a) =>
      [Member("all_of", Array(seq(|a.allOf|, i requires 0 <= i < |a.allOf| => EncodeAwaitedAction(a.allOf[i]))))]
    case InterfaceUpdate(u) =>
      [Member("components", Array(seq(|u.components|, i requires 0 <= i < |u.components| => EncodeInterfaceComponent(u.components[i]))))]
    case ComponentsUpdates(c) =>
      [Member("components", Array(seq(|c.updates|, i requires 0 <= i < |c.updates| => EncodeComponentUpdate(c.updates[i]))))]
    case _ => []
  }

  /** Internally tagged: one object, the tag first, the fields beside it. */
  function Encode(m: Message): (j: Json)
    ensures j.Object? && |j.members| >= 1 && j.members[0] == Member("type", Str(Tag(m)))
    ensures j.members[1..] == Fields(m)
  {
    Object([Member("type", Str(Tag(m)))] + Fields(m))
  }

  // ---------------------------------------------------------------------------
  // Decoding (the derived `Deserialize`)
  // ---------------------------------------------------------------------------

  datatype DecodeFailure =
    | InvalidType(expected: string)
    | MissingField(field: string)
    | DuplicateField(field: string)
    | UnknownVariant(variant: string)

  type Decoded<T> = Result<T, DecodeFailure>

  function DecodeString(j: Json): (r: Decoded<string>)
    ensures r.Ok? <==> j.Str?
    ensures r.Ok? ==> r.value == j.s
  {
    if j.Str? then Ok(j.s) else Err(InvalidType("a string"))
  }

  /** A required field: missing and repeated fields are errors; other members
      of the object are ignored. */
  function Field(members: seq<Member>, name: string): (r: Decoded<Json>)
    ensures r.Ok? <==> Find(members, name).Present?
    ensures r.Ok? ==> r.value == Find(members, name).value
  {
    match Find(members, name)
    case Absent => Err(MissingField(name))
    case Duplicate => Err(DuplicateField(name))
    case Present(v) => Ok(v)
  }

  function StringField(members: seq<Member>, name: string): Decoded<string> {
    var j :- Field(members, name);
    DecodeString(j)
  }

  /** An `Option<String>` field: a missing field and `null` both read as `None`. */
  function OptionalStringField(members: seq<Member>, name: string): (r: Decoded<Option<string>>)
    ensures Find(members, name).Absent? ==> r == Ok(None)
  {
    match Find(members, name)
    case Absent => Ok(None)
    case Duplicate => Err(DuplicateField(name))
    case Present(Null) => Ok(None)
    case Present(v) => var s :- DecodeString(v); Ok(Some(s))
  }

  /** A `Vec<T>`: an array whose elements all decode, in order; the first
      element that fails decides the error. */
  function DecodeSeq<T>(items: seq<Json>, decode: Json -> Decoded<T>): (r: Decoded<seq<T>>)
    ensures r.Ok? ==> |r.value| == |items| && forall i | 0 <= i < |items| :: decode(items[i]) == Ok(r.value[i])
    ensures (forall i | 0 <= i < |items| :: decode(items[i]).Ok?) ==> r.Ok?
  {
    if |items| == 0 then Ok([])
    else
      var head :- decode(items[0]);
      var tail :- DecodeSeq(items[1..], decode);
      assert forall i | 1 <= i < |items| :: items[i] == items[1..][i - 1];
      Ok([head] + tail)
  }

  function ArrayField<T>(members: seq<Member>, name: string, decode: Json -> Decoded<T>): Decoded<seq<T>> {
    var j :- Field(members, name);
    if j.Array? then DecodeSeq(j.items, decode) else Err(InvalidType("a sequence"))
  }

  function DecodeComponentId(j: Json): Decoded<ComponentId> {
    var s :- DecodeString(j);
    Ok(ComponentId(s))
  }

  function DecodePosition(j: Json): (r: Decoded<ComponentPosition>)
    ensures r.Ok? ==> j == Str(PositionName(r.value))
  {
    var s :- DecodeString(j);
    if s == "top" then Ok(Top)
    else if s == "bottom" then Ok(Bottom)
    else if s == "left" then Ok(Left)
    else if s == "right" then Ok(Right)
    else if s == "center" then Ok(Center)
    else Err(UnknownVariant(s))
  }

  function DecodeAwaitedAction(j: Json): Decoded<AwaitedAction> {
    if !j.Object? then Err(InvalidType("internally tagged enum AwaitedAction"))
    else
      var tag :- StringField(j.members, "type");
      if tag == "OnClick" then
        var target :- StringField(j.members, "target_component");
        Ok(OnClick(target))
      else Err(UnknownVariant(tag))
  }

  function DecodeInterfaceComponent(j: Json): Decoded<InterfaceComponent> {
    if !j.Object? then Err(InvalidType("struct InterfaceComponent"))
    else
      var id :- Field(j.members, "id");
      var id :- DecodeComponentId(id);
      var position :- Field(j.members, "position");
      var position :- DecodePosition(position);
      Ok(InterfaceComponent(id, position))
  }

  function DecodeCardState(j: Json): Decoded<CardState> {
    if !j.Object? then Err(InvalidType("struct CardState"))
    else
      var suit :- StringField(j.members, "suit");
      var value :- StringField(j.members, "value");
      Ok(CardState(suit, value))
  }

  function DecodeCard(ms: seq<Member>): Decoded<Card> {
    var name :- StringField(ms, "name");
    var description :- StringField(ms, "description");
    var frontImage :- OptionalStringField(ms, "front_image");
    var backImage :- OptionalStringField(ms, "back_image");
    var state :- Field(ms, "state");
    var state :- DecodeCardState(state);
    Ok(Card.Card(name, description, frontImage, backImage, state))
  }

  function DecodeHand(ms: seq<Member>): Decoded<Hand> {
    var cards :- ArrayField(ms, "cards", DecodeComponentId);
    Ok(Hand.Hand(cards))
  }

  function DecodeComponent(j: Json): Decoded<Component> {
    if !j.Object? then Err(InvalidType("internally tagged enum Component"))
    else
      var tag :- StringField(j.members, "type");
      if tag == "Card" then
        var card :- DecodeCard(j.members);
        Ok(Component.Card(card))
      else if tag == "Hand" then
        var hand :- DecodeHand(j.members);
        Ok(Component.Hand(hand))
      else Err(UnknownVariant(tag))
  }

  function DecodeComponentUpdate(j: Json): Decoded<ComponentUpdate> {
    if !j.Object? then Err(InvalidType("internally tagged enum ComponentUpdate"))
    else
      var tag :- StringField(j.members, "type");
      if tag == "Create" then
        var id :- Field(j.members, "id");
        var id :- DecodeComponentId(id);
        var component :- Field(j.members, "component");
        var component :- DecodeComponent(component);
        Ok(Create(id, component))
      else Err(UnknownVariant(tag))
  }

  function DecodePlayerConnected(ms: seq<Member>): Decoded<PlayerConnected> {
    var message :- StringField(ms, "message");
    var username :- StringField(ms, "username");
    Ok(PlayerConnected.PlayerConnected(message, username))
  }

  function DecodeGameFinished(ms: seq<Member>): Decoded<GameFinished> {
    var winners :- ArrayField(ms, "winners", DecodeString);
    Ok(GameFinished.GameFinished(winners))
  }

  function DecodeErrorMessages(ms: seq<Member>): Decoded<Error> {
    var messages :- ArrayField(ms, "messages", DecodeString);
    Ok(Error.Error(messages))
  }

  function DecodeActionAwaited(ms: seq<Member>): Decoded<ActionAwaited> {
    var allOf :- ArrayField(ms, "all_of", DecodeAwaitedAction);
    Ok(ActionAwaited.ActionAwaited(allOf))
  }

  function DecodeInterfaceUpdate(ms: seq<Member>): Decoded<InterfaceUpdate> {
    var components :- ArrayField(ms, "components", DecodeInterfaceComponent);
    Ok(InterfaceUpdate.InterfaceUpdate(components))
  }

  /** The `updates` field is read from the member named `components`. */
  function DecodeComponentsUpdates(ms: seq<Member>): Decoded<ComponentsUpdates> {
    var updates :- ArrayField(ms, "components", DecodeComponentUpdate);
    Ok(ComponentsUpdates.ComponentsUpdates(updates))
  }

  /** Internally tagged: the `"type"` member is read first and must be a string;
      a known tag then selects which fields are required. */
  function Decode(j: Json): (r: Decoded<Message>)
    ensures !j.Object? ==> r.Err?
    ensures r.Ok? ==> Find(j.members, "type") == Present(Str(Tag(r.value)))
  {
    if !j.Object? then Err(InvalidType("internally tagged enum Message"))
    else
      var tag :- StringField(j.members, "type");
      DecodeVariant(tag, j.members)
  }

  // Each variant that carries a payload reads as a message of that variant.

  lemma DecodedAsPlayerConnected(v: Variant, ms: seq<Member>)
    requires v == PlayerConnectedVariant
    ensures DecodeContents(v, ms).Ok? ==> VariantOf(DecodeContents(v, ms).value) == v
  {
  }

  lemma DecodedAsGameFinished(v: Variant, ms: seq<Member>)
    requires v == GameFinishedVariant
    ensures DecodeContents(v, ms).Ok? ==> VariantOf(DecodeContents(v, ms).value) == v
  {
  }

  lemma DecodedAsError(v: Variant, ms: seq<Member>)
    requires v == ErrorVariant
    ensures DecodeContents(v, ms).Ok? ==> VariantOf(DecodeContents(v, ms).value) == v
  {
  }

  lemma DecodedAsActionAwaited(v: Variant, ms: seq<Member>)
    requires v == ActionAwaitedVariant
    ensures DecodeContents(v, ms).Ok? ==> VariantOf(DecodeContents(v, ms).value) == v
  {
    var r := DecodeContents(ActionAwaitedVariant, ms);
    assert r.Ok? ==> r.value.ActionAwaited?;
  }

  lemma DecodedAsInterfaceUpdate(v: Variant, ms: seq<Member>)
    requires v == InterfaceUpdateVariant
    ensures DecodeContents(v, ms).Ok? ==> VariantOf(DecodeContents(v, ms).value) == v
  {
    var r := DecodeContents(InterfaceUpdateVariant, ms);
    assert r.Ok? ==> r.value.InterfaceUpdate?;
  }

  lemma DecodedAsComponentsUpdates(v: Variant, ms: seq<Member>)
    requires v == ComponentsUpdatesVariant
    ensures DecodeContents(v, ms).Ok? ==> VariantOf(DecodeContents(v, ms).value) == v
  {
    var r := DecodeContents(ComponentsUpdatesVariant, ms);
    assert r.Ok? ==> r.value.ComponentsUpdates?;
  }

  /** A message read as variant `v` is of variant `v`. */
  lemma DecodedVariant(v: Variant, ms: seq<Member>)
    ensures DecodeContents(v, ms).Ok? ==> VariantOf(DecodeContents(v, ms).value) == v
  {
    match v
    case PlayerConnectedVariant => DecodedAsPlayerConnected(v, ms);
    case GameFinishedVariant => DecodedAsGameFinished(v, ms);
    case ErrorVariant => DecodedAsError(v, ms);
    case ActionAwaitedVariant => DecodedAsActionAwaited(v, ms);
    case InterfaceUpdateVariant => DecodedAsInterfaceUpdate(v, ms);
    case ComponentsUpdatesVariant => DecodedAsComponentsUpdates(v, ms);
    case _ =>
  }


  /** The variant a tag names, built from the object's other members; an
      unknown tag is an error. */
  function DecodeVariant(tag: string, ms: seq<Member>): (r: Decoded<Message>)
    ensures r.Ok? ==> Tag(r.value) == tag
  {
    match ParseVariant(tag)
    case None => Err(UnknownVariant(tag))
    case Some(v) => DecodedVariant(v, ms); DecodeContents(v, ms)
  }

  /** The contents of a message of variant `v`, read from the fields after the tag. */
  function DecodeContents(v: Variant, ms: seq<Member>): Decoded<Message> {
    match v
    case PingVariant => Ok(Ping)
    case PongVariant => Ok(Pong)
    case CloseVariant => Ok(Close)
    case PlayerConnectedVariant => var p :- DecodePlayerConnected(ms); Ok(Message.PlayerConnected(p))
    case StartGameVariant => Ok(StartGame)
    case GameStartedVariant => Ok(GameStarted)
    case GameFinishedVariant => var g :- DecodeGameFinished(ms); Ok(Message.GameFinished(g))
    case ErrorVariant => var e :- DecodeErrorMessages(ms); Ok(Message.Error(e))
    case ActionAwaitedVariant => var a :- DecodeActionAwaited(ms); Ok(Message.ActionAwaited(a))
    case InterfaceUpdateVariant => var u :- DecodeInterfaceUpdate(ms); Ok(Message.InterfaceUpdate(u))
    case ComponentsUpdatesVariant => var c :- DecodeComponentsUpdates(ms); Ok(Message.ComponentsUpdates(c))
  }


  // ---------------------------------------------------------------------------
  // Round trip
  // ---------------------------------------------------------------------------

  predicate DistinctKeys(members: seq<Member>) {
    forall a, b | 0 <= a < b < |members| :: members[a].key != members[b].key
  }

  /** In an object whose keys are distinct, every member is found as written. */
  lemma FieldOf(members: seq<Member>, i: nat)
    requires i < |members| && DistinctKeys(members)
    ensures Field(members, members[i].key) == Ok(members[i].value)
  {
    var key := members[i].key;
    var r := Find(members, key);
    assert !r.Absent?;
    assert !r.Duplicate?;
    var k :| 0 <= k < |members| && members[k] == Member(key, r.value);
    assert k == i;
  }

  /** ... and a text member is read as its text. */
  lemma StringFieldOf(members: seq<Member>, i: nat)
    requires i < |members| && DistinctKeys(members) && members[i].value.Str?
    ensures StringField(members, members[i].key) == Ok(members[i].value.s)
  {
    FieldOf(members, i);
  }

  /** ... and an array of texts is read as those texts. */
  lemma StringsFieldOf(members: seq<Member>, i: nat, xs: seq<string>)
    requires i < |members| && DistinctKeys(members) && members[i].value == Array(EncodeStrings(xs))
    ensures ArrayField(members, members[i].key, DecodeString) == Ok(xs)
  {
    FieldOf(members, i);
    DecodeSeqOfDecoded(EncodeStrings(xs), xs, DecodeString);
  }

  /** Decoding an array gives back, in order, the values its elements decode to. */
  lemma {:induction false} DecodeSeqOfDecoded<T>(items: seq<Json>, xs: seq<T>, decode: Json -> Decoded<T>)
    requires |items| == |xs|
    requires forall i | 0 <= i < |xs| :: decode(items[i]) == Ok(xs[i])
    ensures DecodeSeq(items, decode) == Ok(xs)
  {
    if |xs| > 0 {
      DecodeSeqOfDecoded(items[1..], xs[1..], decode);
      assert [xs[0]] + xs[1..] == xs;
    }
  }

  lemma CardStateRoundTrip(s: CardState)
    ensures DecodeCardState(EncodeCardState(s)) == Ok(s)
  {
    var ms := EncodeCardState(s).members;
    FieldOf(ms, 0);
    FieldOf(ms, 1);
  }

  lemma CardRoundTrip(card: Card)
    ensures DecodeCard(EncodeComponent(Component.Card(card)).members) == Ok(card)
  {
    var ms := EncodeComponent(Component.Card(card)).members;
    assert DistinctKeys(ms);
    FieldOf(ms, 1);
    assert StringField(ms, "name") == Ok(card.name);
    FieldOf(ms, 2);
    assert StringField(ms, "description") == Ok(card.description);
    FieldOf(ms, 3);
    OptionalRoundTrip(ms, "front_image", card.frontImage);
    FieldOf(ms, 4);
    OptionalRoundTrip(ms, "back_image", card.backImage);
    FieldOf(ms, 5);
    CardStateRoundTrip(card.state);
    assert Field(ms, "state") == Ok(EncodeCardState(card.state));
  }

  /** An absent image is written as `null` and read back as `None`. */
  lemma OptionalRoundTrip(ms: seq<Member>, name: string, o: Option<string>)
    requires Field(ms, name) == Ok(EncodeOptionalString(o))
    ensures OptionalStringField(ms, name) == Ok(o)
  {
  }

  lemma HandRoundTrip(hand: Hand)
    ensures DecodeHand(EncodeComponent(Component.Hand(hand)).members) == Ok(hand)
  {
    var ms := EncodeComponent(Component.Hand(hand)).members;
    FieldOf(ms, 1);
    DecodeSeqOfDecoded(ms[1].value.items, hand.cards, DecodeComponentId);
  }

  lemma ComponentRoundTrip(c: Component)
    ensures DecodeComponent(EncodeComponent(c)) == Ok(c)
  {
    FieldOf(EncodeComponent(c).members, 0);
    match c
    case Card(card) => CardRoundTrip(card);
    case Hand(hand) => HandRoundTrip(hand);
  }

  lemma AwaitedActionRoundTrip(a: AwaitedAction)
    ensures DecodeAwaitedAction(EncodeAwaitedAction(a)) == Ok(a)
  {
    var ms := EncodeAwaitedAction(a).members;
    FieldOf(ms, 0);
    FieldOf(ms, 1);
  }

  lemma InterfaceComponentRoundTrip(c: InterfaceComponent)
    ensures DecodeInterfaceComponent(EncodeInterfaceComponent(c)) == Ok(c)
  {
    var ms := EncodeInterfaceComponent(c).members;
    FieldOf(ms, 0);
    FieldOf(ms, 1);
    assert DecodePosition(Str(PositionName(c.position))) == Ok(c.position);
  }

  lemma ComponentUpdateRoundTrip(u: ComponentUpdate)
    ensures DecodeComponentUpdate(EncodeComponentUpdate(u)) == Ok(u)
  {
    var ms := EncodeComponentUpdate(u).members;
    FieldOf(ms, 0);
    FieldOf(ms, 1);
    FieldOf(ms, 2);
    ComponentRoundTrip(u.component);
  }

  /** Every variant name is read back as that variant. */
  lemma VariantNameRoundTrip(v: Variant)
    ensures ParseVariant(VariantName(v)) == Some(v)
  {
    match v
    case PingVariant =>
    case PongVariant =>
    case CloseVariant =>
    case PlayerConnectedVariant =>
    case StartGameVariant =>
    case GameStartedVariant =>
    case GameFinishedVariant =>
    case ErrorVariant =>
    case ActionAwaitedVariant =>
    case InterfaceUpdateVariant =>
    case ComponentsUpdatesVariant =>
  }

  /** The variant of a message is recovered from its tag alone. */
  lemma TagRoundTrip(m: Message)
    ensures StringField(Encode(m).members, "type") == Ok(Tag(m))
    ensures Decode(Encode(m)) == DecodeContents(VariantOf(m), Encode(m).members)
  {
    VariantNameRoundTrip(VariantOf(m));
    var ms := Encode(m).members;
    assert DistinctKeys(ms) by {
      match m
      case PlayerConnected(_) =>
      case GameFinished(_) =>
      case Error(_) =>
      case ActionAwaited(_) =>
      case InterfaceUpdate(_) =>
      case ComponentsUpdates(_) =>
      case _ =>
    }
    FieldOf(ms, 0);
  }

  /** The fields written after the tag of each struct variant read back as
      that variant's contents. */
  lemma PlayerConnectedRoundTrip(p: PlayerConnected)
    ensures DecodePlayerConnected(Encode(Message.PlayerConnected(p)).members) == Ok(p)
  {
    var ms := Encode(Message.PlayerConnected(p)).members;
    StringFieldOf(ms, 1);
    StringFieldOf(ms, 2);
  }

  lemma GameFinishedRoundTrip(g: GameFinished)
    ensures DecodeGameFinished(Encode(Message.GameFinished(g)).members) == Ok(g)
  {
    var ms := Encode(Message.GameFinished(g)).members;
    StringsFieldOf(ms, 1, g.winners);
  }

  lemma ErrorRoundTrip(e: Error)
    ensures DecodeErrorMessages(Encode(Message.Error(e)).members) == Ok(e)
  {
    var ms := Encode(Message.Error(e)).members;
    StringsFieldOf(ms, 1, e.messages);
  }

  lemma ActionAwaitedRoundTrip(a: ActionAwaited)
    ensures DecodeActionAwaited(Encode(Message.ActionAwaited(a)).members) == Ok(a)
  {
    var ms := Encode(Message.ActionAwaited(a)).members;
    FieldOf(ms, 1);
    forall i | 0 <= i < |a.allOf| { AwaitedActionRoundTrip(a.allOf[i]); }
    DecodeSeqOfDecoded(ms[1].value.items, a.allOf, DecodeAwaitedAction);
  }

  lemma InterfaceUpdateRoundTrip(u: InterfaceUpdate)
    ensures DecodeInterfaceUpdate(Encode(Message.InterfaceUpdate(u)).members) == Ok(u)
  {
    var ms := Encode(Message.InterfaceUpdate(u)).members;
    FieldOf(ms, 1);
    forall i | 0 <= i < |u.components| { InterfaceComponentRoundTrip(u.components[i]); }
    DecodeSeqOfDecoded(ms[1].value.items, u.components, DecodeInterfaceComponent);
  }

  lemma ComponentsUpdatesRoundTrip(c: ComponentsUpdates)
    ensures DecodeComponentsUpdates(Encode(Message.ComponentsUpdates(c)).members) == Ok(c)
  {
    var ms := Encode(Message.ComponentsUpdates(c)).members;
    FieldOf(ms, 1);
    forall i | 0 <= i < |c.updates| { ComponentUpdateRoundTrip(c.updates[i]); }
    DecodeSeqOfDecoded(ms[1].value.items, c.updates, DecodeComponentUpdate);
  }

  /** Every message's contents are read back from its fields. */
  lemma ContentsRoundTrip(m: Message)
    ensures DecodeContents(VariantOf(m), Encode(m).members) == Ok(m)
  {
    var ms := Encode(m).members;
    match m {
      case PlayerConnected(p) => PlayerConnectedRoundTrip(p); ContentsFrom(PlayerConnectedVariant, ms, m);
      case GameFinished(g) => GameFinishedRoundTrip(g); ContentsFrom(GameFinishedVariant, ms, m);
      case Error(e) => ErrorRoundTrip(e); ContentsFrom(ErrorVariant, ms, m);
      case ActionAwaited(a) => ActionAwaitedRoundTrip(a); ContentsFrom(ActionAwaitedVariant, ms, m);
      case InterfaceUpdate(u) => InterfaceUpdateRoundTrip(u); ContentsFrom(InterfaceUpdateVariant, ms, m);
      case ComponentsUpdates(c) => ComponentsUpdatesRoundTrip(c); ContentsFrom(ComponentsUpdatesVariant, ms, m);
      case Ping => ContentsFrom(PingVariant, ms, m);
      case Pong => ContentsFrom(PongVariant, ms, m);
      case Close => ContentsFrom(CloseVariant, ms, m);
      case StartGame => ContentsFrom(StartGameVariant, ms, m);
      case GameStarted => ContentsFrom(GameStartedVariant, ms, m);
    }
  }

  /** The contents of a variant are the message its fields decode to. */
  lemma ContentsFrom(v: Variant, ms: seq<Member>, m: Message)
    requires VariantOf(m) == v
    requires m.PlayerConnected? ==> DecodePlayerConnected(ms) == Ok(m.playerConnected)
    requires m.GameFinished? ==> DecodeGameFinished(ms) == Ok(m.gameFinished)
    requires m.Error? ==> DecodeErrorMessages(ms) == Ok(m.error)
    requires m.ActionAwaited? ==> DecodeActionAwaited(ms) == Ok(m.actionAwaited)
    requires m.InterfaceUpdate? ==> DecodeInterfaceUpdate(ms) == Ok(m.interfaceUpdate)
    requires m.ComponentsUpdates? ==> DecodeComponentsUpdates(ms) == Ok(m.componentsUpdates)
    ensures DecodeContents(v, ms) == Ok(m)
  {
  }

  /** `decode(encode(m)) == m` for every message: the codec loses nothing. */
  lemma RoundTrip(m: Message)
    ensures Decode(Encode(m)) == Ok(m)
  {
    TagRoundTrip(m);
    ContentsRoundTrip(m);
  }

  /** Distinct messages have distinct encodings (a consequence of the round trip). */
  lemma EncodeInjective(m1: Message, m2: Message)
    requires Encode(m1) == Encode(m2)
    ensures m1 == m2
  {
    RoundTrip(m1);
    RoundTrip(m2);
  }
}
module WireVectors {
  import opened Wrappers
  import opened Json
  import opened Wire

  /** An object holding a plain tag alone is written with the tag between quotes. */
  lemma TagObjectText(tag: string)
    requires forall k | 0 <= k < |tag| :: Plain(tag[k])
    ensures Serialize(Object([Member("type", Str(tag))])) == "{\"type\":\"" + tag + "\"}"
  {
    SerializeSingleton("type", Str(tag));
    QuotePlain(tag);
    assert "{\"" + "type" + "\":" + ("\"" + tag + "\"") + "}" == "{\"type\":\"" + tag + "\"}";
  }

  /** A unit variant is written as an object holding its tag alone. */
  lemma UnitVariantText(m: Message)
    requires Fields(m) == []
    requires forall k | 0 <= k < |Tag(m)| :: Plain(Tag(m)[k])
    ensures Serialize(Encode(m)) == "{\"type\":\"" + Tag(m) + "\"}"
  {
    assert Encode(m) == Object([Member("type", Str(Tag(m)))]);
    TagObjectText(Tag(m));
  }

  lemma PingVector()
    ensures Serialize(Encode(Ping)) == "{\"type\":\"PING\"}"
  {
    UnitVariantText(Ping);
  }

  lemma CloseVector()
    ensures Serialize(Encode(Close)) == "{\"type\":\"CLOSE\"}"
  {
    UnitVariantText(Close);
  }

  predicate PlainText(s: string) {
    forall k | 0 <= k < |s| :: Plain(s[k])
  }

  /** A plain string is written between quotes. */
  lemma StrText(s: string)
    requires PlainText(s)
    ensures Serialize(Str(s)) == "\"" + s + "\""
  {
    QuotePlain(s);
  }

  /** A member whose key is plain is written as the key between quotes, a
      colon and the value. */
  lemma MemberText(key: string, value: Json)
    requires PlainText(key)
    ensures Quote(key) + ":" + Serialize(value) == "\"" + key + "\":" + Serialize(value)
  {
    QuotePlain(key);
  }

  lemma StrMemberText(key: string, s: string)
    requires PlainText(key) && PlainText(s)
    ensures Quote(key) + ":" + Serialize(Str(s)) == "\"" + key + "\":\"" + s + "\""
  {
    MemberText(key, Str(s));
    StrText(s);
  }

  /** A member followed by at least one more is written, a comma, then the rest. */
  lemma MembersText(m: Member, rest: seq<Member>, t: string, tr: string)
    requires rest != []
    requires Quote(m.key) + ":" + Serialize(m.value) == t
    requires SerializeMembers(rest) == tr
    ensures SerializeMembers([m] + rest) == t + "," + tr
  {
    SerializeMembersCons(m, rest);
  }

  /** The last member is written alone. */
  lemma LastMemberText(m: Member, t: string)
    requires Quote(m.key) + ":" + Serialize(m.value) == t
    ensures SerializeMembers([m]) == t
  {
  }

  lemma ObjectText(ms: seq<Member>, t: string)
    requires SerializeMembers(ms) == t
    ensures Serialize(Object(ms)) == "{" + t + "}"
  {
  }

  /** An object of three string members, each written as its key, a colon
      and its value, separated by commas. */
  lemma Object3StrText(k0: string, v0: string, k1: string, v1: string, k2: string, v2: string)
    requires PlainText(k0) && PlainText(v0) && PlainText(k1) && PlainText(v1) && PlainText(k2) && PlainText(v2)
    ensures Serialize(Object([Member(k0, Str(v0)), Member(k1, Str(v1)), Member(k2, Str(v2))]))
      == "{" + (("\"" + k0 + "\":\"" + v0 + "\"") + "," + (("\"" + k1 + "\":\"" + v1 + "\"") + "," + ("\"" + k2 + "\":\"" + v2 + "\""))) + "}"
  {
    var m0, m1, m2 := Member(k0, Str(v0)), Member(k1, Str(v1)), Member(k2, Str(v2));
    var t0, t1, t2 := "\"" + k0 + "\":\"" + v0 + "\"", "\"" + k1 + "\":\"" + v1 + "\"", "\"" + k2 + "\":\"" + v2 + "\"";
    StrMemberText(k0, v0);
    StrMemberText(k1, v1);
    StrMemberText(k2, v2);
    LastMemberText(m2, t2);
    MembersText(m1, [m2], t1, t2);
    assert [m1] + [m2] == [m1, m2];
    MembersText(m0, [m1, m2], t0, t1 + "," + t2);
    assert [m0] + [m1, m2] == [m0, m1, m2];
    ObjectText([m0, m1, m2], t0 + "," + (t1 + "," + t2));
  }

  /** An array of two plain strings. */
  lemma StrPairText(a: string, b: string)
    requires PlainText(a) && PlainText(b)
    ensures Serialize(Array([Str(a), Str(b)])) == "[" + (("\"" + a + "\"") + "," + ("\"" + b + "\"")) + "]"
  {
    StrText(a);
    StrText(b);
    SerializeItemsCons(Str(a), [Str(b)]);
    assert [Str(a)] + [Str(b)] == [Str(a), Str(b)];
  }

  /** An object of two members, the second holding an array of two strings. */
  lemma Object2StrPairText(k0: string, v0: string, k1: string, a: string, b: string)
    requires PlainText(k0) && PlainText(v0) && PlainText(k1) && PlainText(a) && PlainText(b)
    ensures Serialize(Object([Member(k0, Str(v0)), Member(k1, Array([Str(a), Str(b)]))]))
      == "{" + (("\"" + k0 + "\":\"" + v0 + "\"") + "," + (("\"" + k1 + "\":[") + ("\"" + a + "\",") + ("\"" + b + "\"]"))) + "}"
  {
    var m0, m1 := Member(k0, Str(v0)), Member(k1, Array([Str(a), Str(b)]));
    StrPairText(a, b);
    StrPairPieces(k1, a, b);
    var t0, t1 := "\"" + k0 + "\":\"" + v0 + "\"", ("\"" + k1 + "\":[") + ("\"" + a + "\",") + ("\"" + b + "\"]");
    StrMemberText(k0, v0);
    MemberText(k1, Array([Str(a), Str(b)]));
    LastMemberText(m1, t1);
    MembersText(m0, [m1], t0, t1);
    assert [m0] + [m1] == [m0, m1];
    ObjectText([m0, m1], t0 + "," + t1);
  }

  // The test vectors. The texts of each test message are parameters fixed by
  // the precondition.

  lemma PongVector()
    ensures Serialize(Encode(Pong)) == "{\"type\":\"PONG\"}"
  {
    UnitVariantText(Pong);
  }

  lemma StartGameVector()
    ensures Serialize(Encode(StartGame)) == "{\"type\":\"START_GAME\"}"
  {
    StartGameTag();
    assert Encode(StartGame) == Object([Member("type", Str("START_GAME"))]);
    TagObjectText("START_GAME");
  }

  lemma PlayerConnectedVector(message: string, username: string)
    requires message == "Say hello to Toto." && username == "Toto"
    ensures Serialize(Encode(Message.PlayerConnected(PlayerConnected.PlayerConnected(message, username))))
      == "{" + "\"type\":\"PLAYER_CONNECTED\"" + "," + "\"message\":\"Say hello to Toto.\"" + "," + "\"username\":\"Toto\"" + "}"
  {
    PlainNames();
    PlayerConnectedTag();
    PlayerConnectedMessage();
    PlayerConnectedUsername();
    assert Encode(Message.PlayerConnected(PlayerConnected.PlayerConnected(message, username)))
      == Object([Member("type", Str("PLAYER_CONNECTED")), Member("message", Str(message)), Member("username", Str(username))]);
    Object3StrText("type", "PLAYER_CONNECTED", "message", message, "username", username);
    Braced3("\"type\":\"PLAYER_CONNECTED\"", "\"message\":\"Say hello to Toto.\"", "\"username\":\"Toto\"");
  }

  lemma GameFinishedVector(w0: string, w1: string)
    requires w0 == "Toto" && w1 == "Tata"
    ensures Serialize(Encode(Message.GameFinished(GameFinished.GameFinished([w0, w1]))))
      == "{" + "\"type\":\"GAME_FINISHED\"" + "," + "\"winners\":[" + "\"Toto\"," + "\"Tata\"]" + "}"
  {
    PlainNames();
    GameFinishedTag();
    GameFinishedWinners();
    assert EncodeStrings([w0, w1]) == [Str(w0), Str(w1)];
    assert Encode(Message.GameFinished(GameFinished.GameFinished([w0, w1])))
      == Object([Member("type", Str("GAME_FINISHED")), Member("winners", Array([Str(w0), Str(w1)]))]);
    Object2StrPairText("type", "GAME_FINISHED", "winners", w0, w1);
    Braced2("\"type\":\"GAME_FINISHED\"", "\"winners\":[", "\"Toto\",", "\"Tata\"]");
  }

  lemma ErrorVector(e0: string, e1: string)
    requires e0 == "You are dumb." && e1 == "The cake is a lie."
    ensures Serialize(Encode(Message.Error(Error.Error([e0, e1]))))
      == "{" + "\"type\":\"ERROR\"" + "," + "\"messages\":[" + "\"You are dumb.\"," + "\"The cake is a lie.\"]" + "}"
  {
    PlainNames();
    ErrorTag();
    ErrorMessagesPlain();
    ErrorMessages();
    assert EncodeStrings([e0, e1]) == [Str(e0), Str(e1)];
    assert Encode(Message.Error(Error.Error([e0, e1])))
      == Object([Member("type", Str("ERROR")), Member("messages", Array([Str(e0), Str(e1)]))]);
    Object2StrPairText("type", "ERROR", "messages", e0, e1);
    Braced2("\"type\":\"ERROR\"", "\"messages\":[", "\"You are dumb.\",", "\"The cake is a lie.\"]");
  }

  // ---------------------------------------------------------------------------
  // The parts of a components update, for any plain texts
  // ---------------------------------------------------------------------------

  /** An element followed by at least one more is written, a comma, then the rest. */
  lemma ItemsText(j: Json, rest: seq<Json>, t: string, tr: string)
    requires rest != []
    requires Serialize(j) == t
    requires SerializeItems(rest) == tr
    ensures SerializeItems([j] + rest) == t + "," + tr
  {
    SerializeItemsCons(j, rest);
  }

  lemma LastItemText(j: Json, t: string)
    requires Serialize(j) == t
    ensures SerializeItems([j]) == t
  {
  }

  /** Two members. */
  lemma Object2Text(ms: seq<Member>, t0: string, t1: string)
    requires |ms| == 2
    requires Quote(ms[0].key) + ":" + Serialize(ms[0].value) == t0
    requires Quote(ms[1].key) + ":" + Serialize(ms[1].value) == t1
    ensures Serialize(Object(ms)) == "{" + (t0 + "," + t1) + "}"
  {
    LastMemberText(ms[1], t1);
    assert ms[1..] == [ms[1]];
    MembersText(ms[0], ms[1..], t0, t1);
    assert ms == [ms[0]] + ms[1..];
    ObjectText(ms, t0 + "," + t1);
  }

  /** Three members. */
  lemma Object3Text(ms: seq<Member>, t0: string, t1: string, t2: string)
    requires |ms| == 3
    requires Quote(ms[0].key) + ":" + Serialize(ms[0].value) == t0
    requires Quote(ms[1].key) + ":" + Serialize(ms[1].value) == t1
    requires Quote(ms[2].key) + ":" + Serialize(ms[2].value) == t2
    ensures Serialize(Object(ms)) == "{" + (t0 + "," + (t1 + "," + t2)) + "}"
  {
    LastMemberText(ms[2], t2);
    assert ms[2..] == [ms[2]];
    MembersText(ms[1], ms[2..], t1, t2);
    assert ms[1..] == [ms[1]] + ms[2..];
    MembersText(ms[0], ms[1..], t0, t1 + "," + t2);
    assert ms == [ms[0]] + ms[1..];
    ObjectText(ms, t0 + "," + (t1 + "," + t2));
  }

  /** Six members. */
  lemma Object6Text(ms: seq<Member>, t0: string, t1: string, t2: string, t3: string, t4: string, t5: string)
    requires |ms| == 6
    requires Quote(ms[0].key) + ":" + Serialize(ms[0].value) == t0
    requires Quote(ms[1].key) + ":" + Serialize(ms[1].value) == t1
    requires Quote(ms[2].key) + ":" + Serialize(ms[2].value) == t2
    requires Quote(ms[3].key) + ":" + Serialize(ms[3].value) == t3
    requires Quote(ms[4].key) + ":" + Serialize(ms[4].value) == t4
    requires Quote(ms[5].key) + ":" + Serialize(ms[5].value) == t5
    ensures Serialize(Object(ms))
      == "{" + (t0 + "," + (t1 + "," + (t2 + "," + (t3 + "," + (t4 + "," + t5))))) + "}"
  {
    LastMemberText(ms[5], t5);
    assert ms[5..] == [ms[5]];
    MembersText(ms[4], ms[5..], t4, t5);
    assert ms[4..] == [ms[4]] + ms[5..];
    MembersText(ms[3], ms[4..], t3, t4 + "," + t5);
    assert ms[3..] == [ms[3]] + ms[4..];
    MembersText(ms[2], ms[3..], t2, t3 + "," + (t4 + "," + t5));
    assert ms[2..] == [ms[2]] + ms[3..];
    MembersText(ms[1], ms[2..], t1, t2 + "," + (t3 + "," + (t4 + "," + t5)));
    assert ms[1..] == [ms[1]] + ms[2..];
    MembersText(ms[0], ms[1..], t0, t1 + "," + (t2 + "," + (t3 + "," + (t4 + "," + t5))));
    assert ms == [ms[0]] + ms[1..];
    ObjectText(ms, t0 + "," + (t1 + "," + (t2 + "," + (t3 + "," + (t4 + "," + t5)))));
  }

  /** Two string members: the keys fall in the literal runs between the values. */
  lemma Str2Shape(k0: string, v0: string, k1: string, v1: string)
    requires PlainText(k0) && PlainText(v0) && PlainText(k1) && PlainText(v1)
    ensures Serialize(Object([Member(k0, Str(v0)), Member(k1, Str(v1))]))
      == ("{\"" + k0 + "\":\"") + v0 + ("\",\"" + k1 + "\":\"") + v1 + "\"}"
  {
    var ms := [Member(k0, Str(v0)), Member(k1, Str(v1))];
    StrMemberText(k0, v0);
    StrMemberText(k1, v1);
    Object2Text(ms, "\"" + k0 + "\":\"" + v0 + "\"", "\"" + k1 + "\":\"" + v1 + "\"");
    Str2Pieces(k0, v0, k1, v1);
  }

  /** A tag and an array of three strings. */
  lemma HandShape(k0: string, v0: string, k1: string, a: string, b: string, c: string)
    requires PlainText(k0) && PlainText(v0) && PlainText(k1) && PlainText(a) && PlainText(b) && PlainText(c)
    ensures Serialize(Object([Member(k0, Str(v0)), Member(k1, Array([Str(a), Str(b), Str(c)]))]))
      == ("{\"" + k0 + "\":\"" + v0 + "\",\"" + k1 + "\":[\"") + a + "\",\"" + b + "\",\"" + c + "\"]}"
  {
    var ta, tb, tc := "\"" + a + "\"", "\"" + b + "\"", "\"" + c + "\"";
    StrText(a);
    StrText(b);
    StrText(c);
    LastItemText(Str(c), tc);
    ItemsText(Str(b), [Str(c)], tb, tc);
    assert [Str(b)] + [Str(c)] == [Str(b), Str(c)];
    ItemsText(Str(a), [Str(b), Str(c)], ta, tb + "," + tc);
    assert [Str(a)] + [Str(b), Str(c)] == [Str(a), Str(b), Str(c)];
    var items := "[" + (ta + "," + (tb + "," + tc)) + "]";
    assert Serialize(Array([Str(a), Str(b), Str(c)])) == items;
    StrMemberText(k0, v0);
    MemberText(k1, Array([Str(a), Str(b), Str(c)]));
    Object2Text([Member(k0, Str(v0)), Member(k1, Array([Str(a), Str(b), Str(c)]))],
                "\"" + k0 + "\":\"" + v0 + "\"", "\"" + k1 + "\":" + items);
    HandPieces(k0, v0, k1, a, b, c);
  }

  /** A tag, two strings, two nulls and a nested value: the shape of a card
      without images. */
  lemma CardShape(k0: string, v0: string, k1: string, v1: string, k2: string, v2: string,
                  k3: string, k4: string, k5: string, state: Json)
    requires PlainText(k0) && PlainText(v0) && PlainText(k1) && PlainText(v1) && PlainText(k2) && PlainText(v2)
    requires PlainText(k3) && PlainText(k4) && PlainText(k5)
    ensures Serialize(Object([Member(k0, Str(v0)), Member(k1, Str(v1)), Member(k2, Str(v2)),
                              Member(k3, Null), Member(k4, Null), Member(k5, state)]))
      == ("{\"" + k0 + "\":\"" + v0 + "\",\"" + k1 + "\":\"") + v1 + ("\",\"" + k2 + "\":\"") + v2
         + (("\",\"" + k3 + "\":null,\"") + (k4 + "\":null,\"" + k5 + "\":") + Serialize(state)) + "}"
  {
    var t0, t1, t2 := "\"" + k0 + "\":\"" + v0 + "\"", "\"" + k1 + "\":\"" + v1 + "\"", "\"" + k2 + "\":\"" + v2 + "\"";
    var t3, t4, t5 := "\"" + k3 + "\":" + "null", "\"" + k4 + "\":" + "null", "\"" + k5 + "\":" + Serialize(state);
    StrMemberText(k0, v0);
    StrMemberText(k1, v1);
    StrMemberText(k2, v2);
    MemberText(k3, Null);
    MemberText(k4, Null);
    MemberText(k5, state);
    Object6Text([Member(k0, Str(v0)), Member(k1, Str(v1)), Member(k2, Str(v2)),
                 Member(k3, Null), Member(k4, Null), Member(k5, state)], t0, t1, t2, t3, t4, t5);
    CardHeadPieces(k0, v0, k1, v1, k2, v2, t3 + "," + (t4 + "," + t5));
    CardTailPieces(k3, k4, k5, Serialize(state));
  }

  /** A tag, a string and a nested value: the shape of a `Create`. */
  lemma CreateShape(k0: string, v0: string, k1: string, v1: string, k2: string, component: Json)
    requires PlainText(k0) && PlainText(v0) && PlainText(k1) && PlainText(v1) && PlainText(k2)
    ensures Serialize(Object([Member(k0, Str(v0)), Member(k1, Str(v1)), Member(k2, component)]))
      == ("{\"" + k0 + "\":\"" + v0 + "\",\"" + k1 + "\":\"") + v1 + ("\",\"" + k2 + "\":") + Serialize(component) + "}"
  {
    var t0, t1, t2 := "\"" + k0 + "\":\"" + v0 + "\"", "\"" + k1 + "\":\"" + v1 + "\"", "\"" + k2 + "\":" + Serialize(component);
    StrMemberText(k0, v0);
    StrMemberText(k1, v1);
    MemberText(k2, component);
    Object3Text([Member(k0, Str(v0)), Member(k1, Str(v1)), Member(k2, component)], t0, t1, t2);
    CreatePieces(k0, v0, k1, v1, k2, Serialize(component));
  }

  /** A tag and an array of two nested values: the shape of the message. */
  lemma UpdatesShape(k0: string, v0: string, k1: string, u0: Json, u1: Json)
    requires PlainText(k0) && PlainText(v0) && PlainText(k1)
    ensures Serialize(Object([Member(k0, Str(v0)), Member(k1, Array([u0, u1]))]))
      == ("{\"" + k0 + "\":\"" + v0 + "\",\"" + k1 + "\":[") + Serialize(u0) + "," + Serialize(u1) + "]}"
  {
    LastItemText(u1, Serialize(u1));
    ItemsText(u0, [u1], Serialize(u0), Serialize(u1));
    assert [u0] + [u1] == [u0, u1];
    var items := "[" + (Serialize(u0) + "," + Serialize(u1)) + "]";
    assert Serialize(Array([u0, u1])) == items;
    StrMemberText(k0, v0);
    MemberText(k1, Array([u0, u1]));
    Object2Text([Member(k0, Str(v0)), Member(k1, Array([u0, u1]))], "\"" + k0 + "\":\"" + v0 + "\"", "\"" + k1 + "\":" + items);
    UpdatesPieces(k0, v0, k1, Serialize(u0), Serialize(u1));
  }

  /** `CardState { suit, value }` is written with its two fields in order. */
  lemma CardStateText(suit: string, value: string)
    requires PlainText(suit) && PlainText(value)
    ensures Serialize(EncodeCardState(CardState(suit, value)))
      == "{\"suit\":\"" + suit + "\",\"value\":\"" + value + "\"}"
  {
    ComponentNames();
    CardStateRuns();
    Str2Shape("suit", suit, "value", value);
  }

  /** A hand of three cards is written as its tag and the bare card ids. */
  lemma HandText(c0: string, c1: string, c2: string)
    requires PlainText(c0) && PlainText(c1) && PlainText(c2)
    ensures Serialize(EncodeComponent(Component.Hand(Hand.Hand([ComponentId(c0), ComponentId(c1), ComponentId(c2)]))))
      == "{\"type\":\"Hand\",\"cards\":[\"" + c0 + "\",\"" + c1 + "\",\"" + c2 + "\"]}"
  {
    ComponentNames();
    HandRun();
    var encoded := EncodeComponent(Component.Hand(Hand.Hand([ComponentId(c0), ComponentId(c1), ComponentId(c2)])));
    var items := encoded.members[1].value.items;
    assert |items| == 3 && items[0] == Str(c0) && items[1] == Str(c1) && items[2] == Str(c2);
    assert items == [Str(c0), Str(c1), Str(c2)];
    assert encoded == Object([Member("type", Str("Hand")), Member("cards", Array([Str(c0), Str(c1), Str(c2)]))]);
    HandShape("type", "Hand", "cards", c0, c1, c2);
  }

  /** A card without images is written with `null` in their place. */
  lemma CardText(name: string, description: string, state: CardState)
    requires PlainText(name) && PlainText(description)
    ensures Serialize(EncodeComponent(Component.Card(Card.Card(name, description, None, None, state))))
      == "{\"type\":\"Card\",\"name\":\"" + name + "\",\"description\":\"" + description
         + ("\",\"front_image\":null,\"" + "back_image\":null,\"state\":" + Serialize(EncodeCardState(state))) + "}"
  {
    ComponentNames();
    CardRuns();
    CardImagesRuns();
    CardShape("type", "Card", "name", name, "description", description, "front_image", "back_image", "state",
              EncodeCardState(state));
  }

  /** `Create { id, component }` is written as its tag, the bare id and the component. */
  lemma CreateText(id: string, component: Component)
    requires PlainText(id)
    ensures Serialize(EncodeComponentUpdate(Create(ComponentId(id), component)))
      == "{\"type\":\"Create\",\"id\":\"" + id + "\",\"component\":" + Serialize(EncodeComponent(component)) + "}"
  {
    ComponentNames();
    CreateRuns();
    CreateShape("type", "Create", "id", id, "component", EncodeComponent(component));
  }

  /** Two updates are written under `components`, in order. */
  lemma ComponentsUpdatesText(u0: ComponentUpdate, u1: ComponentUpdate)
    ensures Serialize(Encode(Message.ComponentsUpdates(ComponentsUpdates.ComponentsUpdates([u0, u1]))))
      == "{\"type\":\"COMPONENTS_UPDATES\",\"components\":[" + Serialize(EncodeComponentUpdate(u0)) + ","
         + Serialize(EncodeComponentUpdate(u1)) + "]}"
  {
    ComponentNames();
    UpdatesRuns();
    var m := Message.ComponentsUpdates(ComponentsUpdates.ComponentsUpdates([u0, u1]));
    assert Tag(m) == "COMPONENTS_UPDATES";
    var items := Fields(m)[0].value.items;
    assert |items| == 2 && items[0] == EncodeComponentUpdate(u0) && items[1] == EncodeComponentUpdate(u1);
    assert items == [EncodeComponentUpdate(u0), EncodeComponentUpdate(u1)];
    assert Encode(m) == Object([Member("type", Str("COMPONENTS_UPDATES")),
                                Member("components", Array([EncodeComponentUpdate(u0), EncodeComponentUpdate(u1)]))]);
    UpdatesShape("type", "COMPONENTS_UPDATES", "components", EncodeComponentUpdate(u0), EncodeComponentUpdate(u1));
  }

  /** The test's components update: a hand of three cards, then the card that
      is its last one, without images. */
  lemma ComponentsUpdatesVector(hand: string, c0: string, c1: string, c2: string,
                                name: string, description: string, suit: string, value: string)
    requires hand == "hand" && c0 == "773b57de804b4067a27b9650d077d470"
    requires c1 == "3a618ae83d664b43b1096738f559978a" && c2 == "bd5b40c1a4c342539dbc3165982ccf31"
    requires name == "H2" && description == "" && suit == "H" && value == "2"
    ensures Serialize(Encode(Message.ComponentsUpdates(ComponentsUpdates.ComponentsUpdates([
              Create(ComponentId(hand), Component.Hand(Hand.Hand([ComponentId(c0), ComponentId(c1), ComponentId(c2)]))),
              Create(ComponentId(c2), Component.Card(Card.Card(name, description, None, None, CardState(suit, value))))]))))
      == "{\"type\":\"COMPONENTS_UPDATES\",\"components\":["
         + ("{\"type\":\"Create\",\"id\":\"" + "hand" + "\",\"component\":"
            + ("{\"type\":\"Hand\",\"cards\":[\""
               + "773b57de804b4067a27b9650d077d470" + "\",\""
               + "3a618ae83d664b43b1096738f559978a" + "\",\""
               + "bd5b40c1a4c342539dbc3165982ccf31" + "\"]}")
            + "}")
         + ","
         + ("{\"type\":\"Create\",\"id\":\"" + "bd5b40c1a4c342539dbc3165982ccf31" + "\",\"component\":"
            + ("{\"type\":\"Card\",\"name\":\"" + "H2" + "\",\"description\":\"" + ""
               + ("\",\"front_image\":null,\"" + "back_image\":null,\"state\":"
                  + ("{\"suit\":\"" + "H" + "\",\"value\":\"" + "2" + "\"}"))
               + "}")
            + "}")
         + "]}"
  {
    ComponentsUpdatesPlain();
    ComponentIdsPlain();
    CardIdPlain();
    var handUpdate := Create(ComponentId(hand), Component.Hand(Hand.Hand([ComponentId(c0), ComponentId(c1), ComponentId(c2)])));
    var cardUpdate := Create(ComponentId(c2), Component.Card(Card.Card(name, description, None, None, CardState(suit, value))));
    HandText(c0, c1, c2);
    CreateText(hand, handUpdate.component);
    CardStateText(suit, value);
    CardText(name, description, CardState(suit, value));
    CreateText(c2, cardUpdate.component);
    ComponentsUpdatesText(handUpdate, cardUpdate);
  }

  // ---------------------------------------------------------------------------
  // Scaffolding for the exact texts above: each lemma below only joins
  // literal pieces into one literal or regroups a concatenation. They say
  // nothing about the writer; they keep each step small for the solver.
  // ---------------------------------------------------------------------------

  /** The same text, cut after the opening bracket and after each element. */
  lemma StrPairPieces(key: string, a: string, b: string)
    ensures "\"" + key + "\":" + ("[" + (("\"" + a + "\"") + "," + ("\"" + b + "\"")) + "]")
      == ("\"" + key + "\":[") + ("\"" + a + "\",") + ("\"" + b + "\"]")
  {
  }

  /** Pieces joined by commas, in braces. */
  lemma Braced2(t0: string, c0: string, c1: string, c2: string)
    ensures "{" + (t0 + "," + (c0 + c1 + c2)) + "}" == "{" + t0 + "," + c0 + c1 + c2 + "}"
  {
  }

  lemma Braced3(t0: string, t1: string, t2: string)
    ensures "{" + (t0 + "," + (t1 + "," + t2)) + "}" == "{" + t0 + "," + t1 + "," + t2 + "}"
  {
  }

  lemma PlainNames()
    ensures PlainText("type") && PlainText("message") && PlainText("username")
    ensures PlainText("winners") && PlainText("messages")
  {
  }

  lemma StartGameTag()
    ensures PlainText("START_GAME")
    ensures "{\"type\":\"" + "START_GAME" + "\"}" == "{\"type\":\"START_GAME\"}"
  {
  }

  lemma PlayerConnectedTag()
    ensures PlainText("PLAYER_CONNECTED")
    ensures "\"" + "type" + "\":\"" + "PLAYER_CONNECTED" + "\"" == "\"type\":\"PLAYER_CONNECTED\""
  {
  }

  lemma PlayerConnectedMessage()
    ensures PlainText("Say hello to Toto.")
    ensures "\"" + "message" + "\":\"" + "Say hello to Toto." + "\"" == "\"message\":\"Say hello to Toto.\""
  {
  }

  lemma PlayerConnectedUsername()
    ensures PlainText("Toto")
    ensures "\"" + "username" + "\":\"" + "Toto" + "\"" == "\"username\":\"Toto\""
  {
  }

  lemma GameFinishedTag()
    ensures PlainText("GAME_FINISHED")
    ensures "\"" + "type" + "\":\"" + "GAME_FINISHED" + "\"" == "\"type\":\"GAME_FINISHED\""
  {
  }

  lemma GameFinishedWinners()
    ensures PlainText("Toto") && PlainText("Tata")
    ensures "\"" + "winners" + "\":[" == "\"winners\":["
    ensures "\"" + "Toto" + "\"," == "\"Toto\","
    ensures "\"" + "Tata" + "\"]" == "\"Tata\"]"
  {
  }

  lemma ErrorTag()
    ensures PlainText("ERROR")
    ensures "\"" + "type" + "\":\"" + "ERROR" + "\"" == "\"type\":\"ERROR\""
  {
  }

  lemma ErrorMessagesPlain()
    ensures PlainText("You are dumb.") && PlainText("The cake is a lie.")
  {
  }

  lemma ErrorMessages()
    ensures "\"" + "messages" + "\":[" == "\"messages\":["
    ensures "\"" + "You are dumb." + "\"," == "\"You are dumb.\","
    ensures "\"" + "The cake is a lie." + "\"]" == "\"The cake is a lie.\"]"
  {
  }

  lemma Str2Pieces(k0: string, v0: string, k1: string, v1: string)
    ensures "{" + (("\"" + k0 + "\":\"" + v0 + "\"") + "," + ("\"" + k1 + "\":\"" + v1 + "\"")) + "}"
      == ("{\"" + k0 + "\":\"") + v0 + ("\",\"" + k1 + "\":\"") + v1 + "\"}"
  {
  }

  lemma HandPieces(k0: string, v0: string, k1: string, a: string, b: string, c: string)
    ensures "{" + (("\"" + k0 + "\":\"" + v0 + "\"") + "," + ("\"" + k1 + "\":"
                 + ("[" + (("\"" + a + "\"") + "," + (("\"" + b + "\"") + "," + ("\"" + c + "\""))) + "]"))) + "}"
      == ("{\"" + k0 + "\":\"" + v0 + "\",\"" + k1 + "\":[\"") + a + "\",\"" + b + "\",\"" + c + "\"]}"
  {
  }

  lemma CardHeadPieces(k0: string, v0: string, k1: string, v1: string, k2: string, v2: string, tail: string)
    ensures "{" + (("\"" + k0 + "\":\"" + v0 + "\"") + "," + (("\"" + k1 + "\":\"" + v1 + "\"") + ","
              + (("\"" + k2 + "\":\"" + v2 + "\"") + "," + tail))) + "}"
      == ("{\"" + k0 + "\":\"" + v0 + "\",\"" + k1 + "\":\"") + v1 + ("\",\"" + k2 + "\":\"") + v2
         + ("\"," + tail) + "}"
  {
  }

  lemma CardTailPieces(k3: string, k4: string, k5: string, st: string)
    ensures "\"," + (("\"" + k3 + "\":" + "null") + "," + (("\"" + k4 + "\":" + "null") + "," + ("\"" + k5 + "\":" + st)))
      == ("\",\"" + k3 + "\":null,\"") + (k4 + "\":null,\"" + k5 + "\":") + st
  {
  }

  lemma CreatePieces(k0: string, v0: string, k1: string, v1: string, k2: string, ct: string)
    ensures "{" + (("\"" + k0 + "\":\"" + v0 + "\"") + "," + (("\"" + k1 + "\":\"" + v1 + "\"") + "," + ("\"" + k2 + "\":" + ct))) + "}"
      == ("{\"" + k0 + "\":\"" + v0 + "\",\"" + k1 + "\":\"") + v1 + ("\",\"" + k2 + "\":") + ct + "}"
  {
  }

  lemma UpdatesPieces(k0: string, v0: string, k1: string, t0: string, t1: string)
    ensures "{" + (("\"" + k0 + "\":\"" + v0 + "\"") + "," + ("\"" + k1 + "\":" + ("[" + (t0 + "," + t1) + "]"))) + "}"
      == ("{\"" + k0 + "\":\"" + v0 + "\",\"" + k1 + "\":[") + t0 + "," + t1 + "]}"
  {
  }

  lemma ComponentNames()
    ensures PlainText("type") && PlainText("id") && PlainText("component") && PlainText("components")
    ensures PlainText("Hand") && PlainText("cards") && PlainText("Card") && PlainText("Create")
    ensures PlainText("name") && PlainText("description") && PlainText("front_image") && PlainText("back_image")
    ensures PlainText("state") && PlainText("suit") && PlainText("value") && PlainText("COMPONENTS_UPDATES")
  {
  }

  lemma CardStateRuns()
    ensures "{\"" + "suit" + "\":\"" == "{\"suit\":\""
    ensures "\",\"" + "value" + "\":\"" == "\",\"value\":\""
  {
  }

  lemma HandRun()
    ensures "{\"" + "type" + "\":\"" + "Hand" + "\",\"" + "cards" + "\":[\"" == "{\"type\":\"Hand\",\"cards\":[\""
  {
  }

  lemma CardRuns()
    ensures "{\"" + "type" + "\":\"" + "Card" + "\",\"" + "name" + "\":\"" == "{\"type\":\"Card\",\"name\":\""
    ensures "\",\"" + "description" + "\":\"" == "\",\"description\":\""
  {
  }

  lemma CardImagesRuns()
    ensures "\",\"" + "front_image" + "\":null,\"" == "\",\"front_image\":null,\""
    ensures "back_image" + "\":null,\"" + "state" + "\":" == "back_image\":null,\"state\":"
  {
  }

  lemma CreateRuns()
    ensures "{\"" + "type" + "\":\"" + "Create" + "\",\"" + "id" + "\":\"" == "{\"type\":\"Create\",\"id\":\""
    ensures "\",\"" + "component" + "\":" == "\",\"component\":"
  {
  }

  lemma UpdatesRuns()
    ensures "{\"" + "type" + "\":\"" + "COMPONENTS_UPDATES" == "{\"type\":\"COMPONENTS_UPDATES"
    ensures "{\"type\":\"COMPONENTS_UPDATES" + "\",\"" + "components" + "\":["
      == "{\"type\":\"COMPONENTS_UPDATES\",\"components\":["
  {
  }

  lemma ComponentsUpdatesPlain()
    ensures PlainText("hand") && PlainText("H2") && PlainText("") && PlainText("H") && PlainText("2")
  {
  }

  lemma ComponentIdsPlain()
    ensures PlainText("773b57de804b4067a27b9650d077d470")
    ensures PlainText("3a618ae83d664b43b1096738f559978a")
  {
  }

  lemma CardIdPlain()
    ensures PlainText("bd5b40c1a4c342539dbc3165982ccf31")
  {
  }
}
