/** JSON documents and the compact writer of serde_json (`serde_json::to_string`),
    which is what the wire codec and every `"{}"`-formatted `serde_json::Value`
    in the client produce. An object is a sequence of members, written in the
    order given: that is the order of a derived serializer, which writes a
    struct's fields in declaration order. A `serde_json::Value` object is a
    sorted map instead, with its keys in ascending order and no key twice;
    this type does not impose that, so a `Json` standing for a received
    `Value` may be one no `Value` can be. Numbers are integers only. */
module Json {

  datatype Json =
    | Null
    | Bool(b: bool)
    | Number(n: int)
    | Str(s: string)
    | Array(items: seq<Json>)
    | Object(members: seq<Member>)

  datatype Member = Member(key: string, value: Json)

  // ---------------------------------------------------------------------------
  // Looking a key up in an object, as a derived deserializer does
  // ---------------------------------------------------------------------------

  /** How a key occurs among an object's members: not at all, exactly once, or
      more than once (which a derived deserializer rejects as a duplicate field). */
  datatype Lookup = Absent | Present(value: Json) | Duplicate

  function Find(members: seq<Member>, key: string): (r: Lookup)
    ensures r.Absent? <==> forall i | 0 <= i < |members| :: members[i].key != key
    ensures r.Present? ==> exists i | 0 <= i < |members| :: members[i] == Member(key, r.value)
    ensures r.Duplicate? <==>
      exists i, j | 0 <= i < j < |members| :: members[i].key == key && members[j].key == key
  {
    if |members| == 0 then Absent
    else
      var rest := Find(members[1..], key);
      if members[0].key != key then
        assert forall i | 1 <= i < |members| :: members[i] == members[1..][i - 1];
        rest
      else if rest.Absent? then Present(members[0].value)
      else
        assert exists j | 1 <= j < |members| :: members[j].key == key by {
          var j :| 0 <= j < |members[1..]| && members[1..][j].key == key;
          assert members[j + 1].key == key;
        }
        Duplicate
  }

  // ---------------------------------------------------------------------------
  // The compact writer
  // ---------------------------------------------------------------------------

  function Serialize(j: Json): (r: string)
    decreases j
  {
    match j
    case Null => "null"
    case Bool(b) => if b then "true" else "false"
    case Number(n) => IntToString(n)
    case Str(s) => Quote(s)
    case Array(items) => "[" + SerializeItems(items) + "]"
    case Object(members) => "{" + SerializeMembers(members) + "}"
  }

  /** Array elements separated by commas, no whitespace. */
  function SerializeItems(items: seq<Json>): (r: string)
    decreases items
  {
    if |items| == 0 then ""
    else if |items| == 1 then Serialize(items[0])
    else Serialize(items[0]) + "," + SerializeItems(items[1..])
  }

  /** Object members `"key":value` separated by commas, no whitespace. */
  function SerializeMembers(members: seq<Member>): (r: string)
    decreases members
  {
    if |members| == 0 then ""
    else
      var first := Quote(members[0].key) + ":" + Serialize(members[0].value);
      if |members| == 1 then first else first + "," + SerializeMembers(members[1..])
  }

  /** A member followed by further members is written, then a comma, then the rest. */
  lemma SerializeMembersCons(m: Member, rest: seq<Member>)
    ensures SerializeMembers([m] + rest)
      == Quote(m.key) + ":" + Serialize(m.value) + (if rest == [] then "" else "," + SerializeMembers(rest))
  {
    assert ([m] + rest)[1..] == rest;
  }

  /** The same for the elements of an array. */
  lemma SerializeItemsCons(j: Json, rest: seq<Json>)
    ensures SerializeItems([j] + rest)
      == Serialize(j) + (if rest == [] then "" else "," + SerializeItems(rest))
  {
    assert ([j] + rest)[1..] == rest;
  }

  function Quote(s: string): string {
    "\"" + Escape(s) + "\""
  }

  /** The characters that appear raw inside a written string: everything from
      U+0020 on except the quote and the backslash. */
  predicate Plain(c: char) {
    c as int >= 0x20 && c != '"' && c != '\\'
  }

  /** serde_json's escaping: quote and backslash are backslash-escaped, the five
      characters below U+0020 with a short form use it, every other one
      becomes `\u00XX` with lower-case hex digits. */
  function EscapeChar(c: char): string {
    if c == '"' then "\\\""
    else if c == '\\' then "\\\\"
    else if c as int == 0x08 then "\\b"
    else if c as int == 0x0C then "\\f"
    else if c == '\n' then "\\n"
    else if c == '\r' then "\\r"
    else if c == '\t' then "\\t"
    else if c as int < 0x20 then "\\u00" + [HexDigit(c as int / 16), HexDigit(c as int % 16)]
    else [c]
  }

  function HexDigit(d: int): (c: char)
    requires 0 <= d < 16
    ensures '0' <= c <= '9' || 'a' <= c <= 'f'
  {
    "0123456789abcdef"[d]
  }

  function Escape(s: string): string {
    if s == [] then [] else EscapeChar(s[0]) + Escape(s[1..])
  }

  /** A character is written as itself exactly when it is plain, that is
      from U+0020 on and neither quote nor backslash; otherwise it becomes an
      escape sequence introduced by a backslash. Either way the output holds
      no character below U+0020 (DEL and U+0080 to U+009F are written raw). */
  lemma EscapeCharSpec(c: char)
    ensures Plain(c) <==> EscapeChar(c) == [c]
    ensures !Plain(c) ==> |EscapeChar(c)| >= 2 && EscapeChar(c)[0] == '\\'
    ensures forall k | 0 <= k < |EscapeChar(c)| :: EscapeChar(c)[k] as int >= 0x20
  {
  }

  /** Escaping never shortens a string, and its result holds no character
      below U+0020, so a written string never spans lines. */
  lemma {:induction false} EscapePrintable(s: string)
    ensures |Escape(s)| >= |s|
    ensures forall k | 0 <= k < |Escape(s)| :: Escape(s)[k] as int >= 0x20
  {
    if s != [] {
      EscapeCharSpec(s[0]);
      EscapePrintable(s[1..]);
      var head, tail := EscapeChar(s[0]), Escape(s[1..]);
      assert forall k | |head| <= k < |head| + |tail| :: (head + tail)[k] == tail[k - |head|];
    }
  }

  /** A string of plain characters is written unchanged. */
  lemma {:induction false} EscapePlain(s: string)
    requires forall k | 0 <= k < |s| :: Plain(s[k])
    ensures Escape(s) == s
  {
    if s != [] {
      EscapeCharSpec(s[0]);
      EscapePlain(s[1..]);
    }
  }

  /** ... and between quotes. */
  lemma QuotePlain(s: string)
    requires forall k | 0 <= k < |s| :: Plain(s[k])
    ensures Quote(s) == "\"" + s + "\""
  {
    EscapePlain(s);
  }

  /** An object of one member whose key is plain is written as the key
      between quotes, a colon and the value, in braces. */
  lemma SerializeSingleton(key: string, value: Json)
    requires forall k | 0 <= k < |key| :: Plain(key[k])
    ensures Serialize(Object([Member(key, value)])) == "{\"" + key + "\":" + Serialize(value) + "}"
  {
    QuotePlain(key);
  }

  /** Every written value begins with a brace, a bracket, a quote, a digit, a
      minus sign, or the first letter of `null`, `true` or `false`. */
  lemma SerializeFirst(j: Json)
    ensures |Serialize(j)| >= 1
    ensures Serialize(j)[0] in "{[\"-0123456789ntf"
  {
    match j
    case Number(n) =>
      var r := IntToString(n);
      if n >= 0 {
        assert IsDigit(r[0]);
      }
    case _ =>
  }

  // ---------------------------------------------------------------------------
  // Decimal numerals
  // ---------------------------------------------------------------------------

  predicate IsDigit(c: char) {
    '0' <= c <= '9'
  }

  /** The value a string of decimal digits denotes, read most significant first. */
  function DecimalValue(s: string): nat
    requires forall k | 0 <= k < |s| :: IsDigit(s[k])
  {
    if s == [] then 0
    else
      assert IsDigit(s[|s| - 1]);
      DecimalValue(s[..|s| - 1]) * 10 + (s[|s| - 1] as int - '0' as int)
  }

  /** `Display` of an unsigned integer: its shortest decimal numeral. */
  function NatToString(n: nat): (r: string)
    ensures |r| >= 1 && (forall k | 0 <= k < |r| :: IsDigit(r[k]))
    ensures DecimalValue(r) == n
    ensures |r| > 1 ==> r[0] != '0'
  {
    if n < 10 then ["0123456789"[n]]
    else
      var prefix, last := NatToString(n / 10), "0123456789"[n % 10];
      assert (prefix + [last])[..|prefix|] == prefix;
      prefix + [last]
  }

  function IntToString(i: int): (r: string)
    ensures |r| >= 1
    ensures i < 0 <==> r[0] == '-'
  {
    if i < 0 then "-" + NatToString(-i) else NatToString(i)
  }
}
