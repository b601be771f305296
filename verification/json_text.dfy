/**
 * `JSON.stringify` as the file transport uses it: compact output (no
 * whitespace), strings quoted with the escapes of section 7 of RFC 8259 in
 * the choice `JSON.stringify` makes (short escapes where they exist, `\u00xx`
 * with lower-case hex for the other control characters), members in
 * insertion order, and `undefined` properties left out. Numbers are
 * integers written in full, which is what `JSON.stringify` writes for safe
 * integers; member names are kept in insertion order, which is the order
 * JavaScript keeps for names that are not array indices.
 *
 * A decoder for this compact form is given beside it, and the two are proved
 * inverse: every record line reads back as the record it was made from. The
 * serialized text never contains a control character, so in particular no
 * line feed: each record is one line.
 */
module JsonText {
  import opened Common
  import opened Strings
  import opened LogInterfaces

  // ---------------------------------------------------------------------
  // Numbers
  // ---------------------------------------------------------------------

  function DigitChar(d: nat): (c: char)
    requires d < 10
    ensures IsDigit(c) && c as int - '0' as int == d
  {
    ('0' as int + d) as char
  }

  /** Decimal digits of `n`, most significant first, without leading zeros. */
  function NatToString(n: nat): (s: string)
    ensures |s| > 0 && AllDigits(s)
    decreases n
  {
    if n < 10 then [DigitChar(n)] else NatToString(n / 10) + [DigitChar(n % 10)]
  }

  /** The full decimal text of an integer, as `String(n)` writes a safe integer. */
  function IntToString(n: int): string {
    if n < 0 then "-" + NatToString(-n) else NatToString(n)
  }

  /** The value of a string of decimal digits. */
  function DigitsValue(s: string): nat
    requires AllDigits(s)
  {
    if |s| == 0 then 0 else DigitsValue(s[..|s| - 1]) * 10 + (s[|s| - 1] as int - '0' as int)
  }

  lemma {:induction false} DigitsValueOfNat(n: nat)
    ensures DigitsValue(NatToString(n)) == n
    decreases n
  {
    if n >= 10 {
      var s := NatToString(n);
      assert s[..|s| - 1] == NatToString(n / 10);
      DigitsValueOfNat(n / 10);
    }
  }

  // ---------------------------------------------------------------------
  // Strings
  // ---------------------------------------------------------------------

  function HexDigit(d: nat): char
    requires d < 16
  {
    if d < 10 then DigitChar(d) else ('a' as int + d - 10) as char
  }

  predicate IsHex(c: char) {
    ('0' <= c <= '9') || ('a' <= c <= 'f') || ('A' <= c <= 'F')
  }

  function HexValue(c: char): nat
    requires IsHex(c)
  {
    if '0' <= c <= '9' then c as int - '0' as int
    else if 'a' <= c <= 'f' then c as int - 'a' as int + 10
    else c as int - 'A' as int + 10
  }

  lemma {:induction false} HexDigitValue(d: nat)
    requires d < 16
    ensures IsHex(HexDigit(d)) && HexValue(HexDigit(d)) == d
  {
  }

  /** How `JSON.stringify` writes one character inside a string literal. */
  function EscapeChar(c: char): string {
    if c == '"' then "\\\""
    else if c == '\\' then "\\\\"
    else if c == '\U{8}' then "\\b"
    else if c == '\U{C}' then "\\f"
    else if c == '\n' then "\\n"
    else if c == '\r' then "\\r"
    else if c == '\t' then "\\t"
    else if c < ' ' then "\\u00" + [HexDigit(c as int / 16), HexDigit(c as int % 16)]
    else [c]
  }

  function Escape(s: string): string {
    if |s| == 0 then "" else EscapeChar(s[0]) + Escape(s[1..])
  }

  /** A string value as `JSON.stringify` writes it. */
  function Quote(s: string): string {
    "\"" + Escape(s) + "\""
  }

  /** No character below U+0020: no raw control character, so no line feed either. */
  predicate NoControl(s: string) {
    forall i :: 0 <= i < |s| ==> s[i] >= ' '
  }

  lemma {:induction false} NoControlConcat(a: string, b: string)
    requires NoControl(a) && NoControl(b)
    ensures NoControl(a + b)
  {
  }

  lemma {:induction false} EscapeNoControl(s: string)
    ensures NoControl(Escape(s))
  {
    if |s| > 0 {
      EscapeNoControl(s[1..]);
      NoControlConcat(EscapeChar(s[0]), Escape(s[1..]));
    }
  }

  /** The meaning of a two-character escape `\e`. */
  function ShortEscape(e: char): Option<char> {
    if e == '"' then Some('"')
    else if e == '\\' then Some('\\')
    else if e == '/' then Some('/')
    else if e == 'b' then Some('\U{8}')
    else if e == 'f' then Some('\U{C}')
    else if e == 'n' then Some('\n')
    else if e == 'r' then Some('\r')
    else if e == 't' then Some('\t')
    else None
  }

  function Prepend(c: char, r: Option<(string, string)>): Option<(string, string)> {
    match r
    case None => None
    case Some((s, rest)) => Some(([c] + s, rest))
  }

  /**
   * Reads the body of a string literal, up to and including its closing
   * quote: the decoded value and the text after the quote. Raw control
   * characters and unknown escapes are rejected; a `\u` escape naming a
   * surrogate is not decoded.
   */
  function UnescapeBody(t: string): (r: Option<(string, string)>)
    decreases |t|
    ensures r.Some? ==> |r.value.1| < |t|
  {
    if |t| == 0 then None
    else if t[0] == '"' then Some(("", t[1..]))
    else if t[0] == '\\' then
      if |t| < 2 then None
      else if t[1] == 'u' then
        if |t| < 6 || !(IsHex(t[2]) && IsHex(t[3]) && IsHex(t[4]) && IsHex(t[5])) then None
        else
          var code := HexValue(t[2]) * 4096 + HexValue(t[3]) * 256 + HexValue(t[4]) * 16 + HexValue(t[5]);
          if 0xD800 <= code < 0xE000 then None
          else Prepend(code as char, UnescapeBody(t[6..]))
      else
        match ShortEscape(t[1])
        case None => None
        case Some(c) => Prepend(c, UnescapeBody(t[2..]))
    else if t[0] < ' ' then None
    else Prepend(t[0], UnescapeBody(t[1..]))
  }

  lemma {:induction false} EscapeCharRoundTrip(c: char, rest: string)
    ensures UnescapeBody(EscapeChar(c) + rest) == Prepend(c, UnescapeBody(rest))
  {
    if c == '"' || c == '\\' || c == '\U{8}' || c == '\U{C}' || c == '\n' || c == '\r' || c == '\t' {
      ShortEscapeRoundTrip(c, rest);
    } else if c < ' ' {
      ControlEscapeRoundTrip(c, rest);
    } else {
      var t := EscapeChar(c) + rest;
      assert t[0] == c && t[1..] == rest;
    }
  }

  /** A character written as a two-character escape reads back as itself. */
  lemma {:induction false} ShortEscapeRoundTrip(c: char, rest: string)
    requires c == '"' || c == '\\' || c == '\U{8}' || c == '\U{C}' || c == '\n' || c == '\r' || c == '\t'
    ensures UnescapeBody(EscapeChar(c) + rest) == Prepend(c, UnescapeBody(rest))
  {
    var t := EscapeChar(c) + rest;
    assert |EscapeChar(c)| == 2 && t[0] == '\\' && t[1] != 'u';
    assert ShortEscape(t[1]) == Some(c);
    assert t[2..] == rest;
  }

  /** A control character written as `\u00XY` reads back as itself. */
  lemma {:induction false} ControlEscapeRoundTrip(c: char, rest: string)
    requires c < ' '
    requires !(c == '"' || c == '\\' || c == '\U{8}' || c == '\U{C}' || c == '\n' || c == '\r' || c == '\t')
    ensures UnescapeBody(EscapeChar(c) + rest) == Prepend(c, UnescapeBody(rest))
  {
    var hi, lo := c as int / 16, c as int % 16;
    HexDigitValue(hi);
    HexDigitValue(lo);
    var t := EscapeChar(c) + rest;
    assert EscapeChar(c) == "\\u00" + [HexDigit(hi), HexDigit(lo)];
    assert t[0] == '\\' && t[1] == 'u' && t[2] == '0' && t[3] == '0' && t[4] == HexDigit(hi) && t[5] == HexDigit(lo);
    assert HexValue(t[2]) * 4096 + HexValue(t[3]) * 256 + HexValue(t[4]) * 16 + HexValue(t[5]) == c as int;
    assert t[6..] == rest;
  }

  /** The decoder reads back exactly what the escaper wrote, and stops at the closing quote. */
  lemma {:induction false} EscapeRoundTrip(s: string, rest: string)
    ensures UnescapeBody(Escape(s) + "\"" + rest) == Some((s, rest))
  {
    if |s| == 0 {
      assert Escape(s) + "\"" + rest == "\"" + rest;
    } else {
      EscapeRoundTrip(s[1..], rest);
      assert Escape(s) + "\"" + rest == EscapeChar(s[0]) + (Escape(s[1..]) + "\"" + rest);
      EscapeCharRoundTrip(s[0], Escape(s[1..]) + "\"" + rest);
      assert [s[0]] + s[1..] == s;
    }
  }

  // ---------------------------------------------------------------------
  // Values
  // ---------------------------------------------------------------------

  /** `JSON.stringify(v)`. */
  function Serialize(v: Json): string
    decreases v, 1
  {
    match v
    case JNull => "null"
    case JBool(b) => if b then "true" else "false"
    case JNumber(n) => IntToString(n)
    case JString(s) => Quote(s)
    case JArray(items) => "[" + SerializeItems(items) + "]"
    case JObject(members) => "{" + SerializeMembers(members) + "}"
  }

  function SerializeItems(items: seq<Json>): string
    decreases items, 0
  {
    if |items| == 0 then ""
    else if |items| == 1 then Serialize(items[0])
    else Serialize(items[0]) + "," + SerializeItems(items[1..])
  }

  function SerializeMember(m: Member): string
    decreases m, 0
  {
    Quote(m.key) + ":" + Serialize(m.value)
  }

  function SerializeMembers(members: seq<Member>): string
    decreases members, 1
  {
    if |members| == 0 then ""
    else if |members| == 1 then SerializeMember(members[0])
    else SerializeMember(members[0]) + "," + SerializeMembers(members[1..])
  }

  lemma {:induction false} SerializeNoControl(v: Json)
    ensures NoControl(Serialize(v))
    decreases v, 1
  {
    match v
    case JNull =>
    case JBool(_) =>
    case JNumber(n) =>
    case JString(s) =>
      EscapeNoControl(s);
    case JArray(items) =>
      ItemsNoControl(items);
    case JObject(members) =>
      MembersNoControl(members);
  }

  lemma {:induction false} ItemsNoControl(items: seq<Json>)
    ensures NoControl(SerializeItems(items))
    decreases items, 0
  {
    if |items| > 0 {
      SerializeNoControl(items[0]);
      if |items| > 1 {
        ItemsNoControl(items[1..]);
      }
    }
  }

  lemma {:induction false} MembersNoControl(members: seq<Member>)
    ensures NoControl(SerializeMembers(members))
    decreases members, 1
  {
    if |members| > 0 {
      EscapeNoControl(members[0].key);
      SerializeNoControl(members[0].value);
      if |members| > 1 {
        MembersNoControl(members[1..]);
      }
    }
  }

  // ---------------------------------------------------------------------
  // Decoding the compact form
  // ---------------------------------------------------------------------

  /** Reads one value from the front of `t`: the value and the text after it. */
  function ParseValue(t: string): (r: Option<(Json, string)>)
    decreases |t|, 2
    ensures r.Some? ==> |r.value.1| < |t|
  {
    if |t| == 0 then None
    else if t[0] == 'n' then ParseLiteral(t, "null", JNull)
    else if t[0] == 't' then ParseLiteral(t, "true", JBool(true))
    else if t[0] == 'f' then ParseLiteral(t, "false", JBool(false))
    else if t[0] == '"' then ParseString(t)
    else if t[0] == '[' then ParseArray(t)
    else if t[0] == '{' then ParseObject(t)
    else ParseNumber(t)
  }

  function ParseLiteral(t: string, word: string, v: Json): (r: Option<(Json, string)>)
    requires |word| > 0
    ensures r.Some? ==> |r.value.1| < |t|
  {
    if |word| <= |t| && t[..|word|] == word then Some((v, t[|word|..])) else None
  }

  function ParseString(t: string): (r: Option<(Json, string)>)
    requires |t| > 0
    ensures r.Some? ==> |r.value.1| < |t|
  {
    match UnescapeBody(t[1..])
    case None => None
    case Some((s, rest)) => Some((JString(s), rest))
  }

  /** An optional minus sign followed by one or more digits. */
  function ParseNumber(t: string): (r: Option<(Json, string)>)
    requires |t| > 0
    ensures r.Some? ==> |r.value.1| < |t|
  {
    if t[0] == '-' then
      var k := LeadingDigits(t[1..]);
      if k == 0 then None else Some((JNumber(-(DigitsValue(t[1..][..k]) as int)), t[1..][k..]))
    else
      var k := LeadingDigits(t);
      if k == 0 then None else Some((JNumber(DigitsValue(t[..k])), t[k..]))
  }

  function ParseArray(t: string): (r: Option<(Json, string)>)
    requires |t| > 0
    decreases |t|, 1
    ensures r.Some? ==> |r.value.1| < |t|
  {
    if |t| > 1 && t[1] == ']' then Some((JArray([]), t[2..]))
    else
      match ParseItems(t[1..])
      case None => None
      case Some((items, rest)) =>
        if |rest| > 0 && rest[0] == ']' then Some((JArray(items), rest[1..])) else None
  }

  function ParseObject(t: string): (r: Option<(Json, string)>)
    requires |t| > 0
    decreases |t|, 1
    ensures r.Some? ==> |r.value.1| < |t|
  {
    if |t| > 1 && t[1] == '}' then Some((JObject([]), t[2..]))
    else
      match ParseMembers(t[1..])
      case None => None
      case Some((members, rest)) =>
        if |rest| > 0 && rest[0] == '}' then Some((JObject(members), rest[1..])) else None
  }

  /** Reads one or more comma-separated values. */
  function ParseItems(t: string): (r: Option<(seq<Json>, string)>)
    decreases |t|, 3
    ensures r.Some? ==> |r.value.1| < |t|
  {
    match ParseValue(t)
    case None => None
    case Some((v, rest)) =>
      if |rest| > 0 && rest[0] == ',' then
        match ParseItems(rest[1..])
        case None => None
        case Some((vs, rest2)) => Some(([v] + vs, rest2))
      else Some(([v], rest))
  }

  /** Reads one `"key":value` member. */
  function ParseMember(t: string): (r: Option<(Member, string)>)
    decreases |t|, 3
    ensures r.Some? ==> |r.value.1| < |t|
  {
    if |t| == 0 || t[0] != '"' then None
    else
      match UnescapeBody(t[1..])
      case None => None
      case Some((key, rest)) =>
        if |rest| == 0 || rest[0] != ':' then None
        else
          match ParseValue(rest[1..])
          case None => None
          case Some((v, rest2)) => Some((Member(key, v), rest2))
  }

  /** Reads one or more comma-separated members. */
  function ParseMembers(t: string): (r: Option<(seq<Member>, string)>)
    decreases |t|, 4
    ensures r.Some? ==> |r.value.1| < |t|
  {
    match ParseMember(t)
    case None => None
    case Some((m, rest)) =>
      if |rest| > 0 && rest[0] == ',' then
        match ParseMembers(rest[1..])
        case None => None
        case Some((ms, rest2)) => Some(([m] + ms, rest2))
      else Some(([m], rest))
  }

  /** What may follow a value in compact JSON: the end, a comma, or a closing bracket or brace. */
  predicate Delimits(rest: string) {
    rest == [] || rest[0] == ',' || rest[0] == ']' || rest[0] == '}'
  }

  /** What may follow the last element of a list. */
  predicate EndsList(rest: string) {
    rest == [] || rest[0] == ']' || rest[0] == '}'
  }

  /** Digits followed by a delimiter parse as the number they denote. */
  lemma {:induction false} DigitsParse(digits: string, rest: string)
    requires |digits| > 0 && AllDigits(digits) && Delimits(rest)
    ensures ParseNumber(digits + rest) == Some((JNumber(DigitsValue(digits)), rest))
  {
    var t := digits + rest;
    LeadingDigitsOf(digits, rest);
    assert t[0] == digits[0];
    assert t[..|digits|] == digits;
    assert t[|digits|..] == rest;
  }

  /** A minus sign, digits and a delimiter parse as the negated number. */
  lemma {:induction false} NegativeDigitsParse(digits: string, rest: string)
    requires |digits| > 0 && AllDigits(digits) && Delimits(rest)
    ensures ParseNumber("-" + digits + rest) == Some((JNumber(-(DigitsValue(digits) as int)), rest))
  {
    var t := "-" + digits + rest;
    assert t[1..] == digits + rest;
    LeadingDigitsOf(digits, rest);
    assert t[1..][..|digits|] == digits;
    assert t[1..][|digits|..] == rest;
  }

  /** A number's text, followed by a delimiter, reads back as the number. */
  lemma {:induction false} NumberTextRoundTrip(n: int, rest: string)
    requires Delimits(rest)
    ensures |IntToString(n) + rest| > 0
    ensures ParseNumber(IntToString(n) + rest) == Some((JNumber(n), rest))
  {
    if n < 0 {
      var m: nat := -n;
      var digits := NatToString(m);
      assert IntToString(n) == "-" + digits;
      DigitsValueOfNat(m);
      NegativeDigitsParse(digits, rest);
      assert -(DigitsValue(digits) as int) == n;
    } else {
      var m: nat := n;
      var digits := NatToString(m);
      assert IntToString(n) == digits;
      DigitsValueOfNat(m);
      DigitsParse(digits, rest);
    }
  }

  lemma {:induction false} NumberRoundTrip(n: int, rest: string)
    requires Delimits(rest)
    ensures ParseValue(IntToString(n) + rest) == Some((JNumber(n), rest))
  {
    var t := IntToString(n) + rest;
    NumberTextRoundTrip(n, rest);
    IntToStringStart(n);
    assert t[0] == IntToString(n)[0];
    assert ParseValue(t) == ParseNumber(t);
  }

  /** A number's text starts with a minus sign or a digit. */
  lemma {:induction false} IntToStringStart(n: int)
    ensures |IntToString(n)| > 0 && (IntToString(n)[0] == '-' || IsDigit(IntToString(n)[0]))
  {
    if n >= 0 {
      assert IsDigit(NatToString(n)[0]);
    }
  }

  lemma {:induction false} StringRoundTrip(s: string, rest: string)
    ensures ParseValue(Quote(s) + rest) == Some((JString(s), rest))
  {
    var t := Quote(s) + rest;
    assert t[0] == '"';
    assert t[1..] == Escape(s) + "\"" + rest;
    EscapeRoundTrip(s, rest);
    assert ParseString(t) == Some((JString(s), rest));
  }

  lemma {:induction false} LiteralRoundTrip(word: string, v: Json, rest: string)
    requires |word| > 0
    ensures ParseLiteral(word + rest, word, v) == Some((v, rest))
  {
    var t := word + rest;
    assert t[..|word|] == word;
    assert t[|word|..] == rest;
  }

  /** Decoding the serialization of any value gives the value back, and leaves what followed it. */
  lemma {:induction false} ValueRoundTrip(v: Json, rest: string)
    requires Delimits(rest)
    ensures ParseValue(Serialize(v) + rest) == Some((v, rest))
    decreases v, 1
  {
    match v
    case JNull =>
      LiteralRoundTrip("null", JNull, rest);
    case JBool(b) =>
      if b {
        LiteralRoundTrip("true", JBool(true), rest);
      } else {
        LiteralRoundTrip("false", JBool(false), rest);
      }
    case JNumber(n) =>
      NumberRoundTrip(n, rest);
    case JString(s) =>
      StringRoundTrip(s, rest);
    case JArray(items) =>
      ArrayRoundTrip(items, rest);
    case JObject(members) =>
      ObjectRoundTrip(members, rest);
  }

  lemma {:induction false} ArrayRoundTrip(items: seq<Json>, rest: string)
    requires Delimits(rest)
    ensures ParseValue(Serialize(JArray(items)) + rest) == Some((JArray(items), rest))
    decreases items, 1
  {
    var body := SerializeItems(items);
    var t := Serialize(JArray(items)) + rest;
    BracketRegroup("[", body, "]", rest);
    if |items| == 0 {
      assert body == "";
    } else {
      ItemsStartWithValue(items);
      ItemsRoundTrip(items, "]" + rest);
    }
    assert ParseValue(t) == ParseArray(t);
  }

  lemma {:induction false} ObjectRoundTrip(members: seq<Member>, rest: string)
    requires Delimits(rest)
    ensures ParseValue(Serialize(JObject(members)) + rest) == Some((JObject(members), rest))
    decreases members, 2
  {
    var body := SerializeMembers(members);
    var t := Serialize(JObject(members)) + rest;
    BracketRegroup("{", body, "}", rest);
    if |members| == 0 {
      assert body == "";
    } else {
      MembersStartWithQuote(members);
      MembersRoundTrip(members, "}" + rest);
    }
    assert ParseValue(t) == ParseObject(t);
  }

  /** `<open><body><close>` followed by `rest`, split where the parser splits it. */
  lemma {:induction false} BracketRegroup(open: string, body: string, close: string, rest: string)
    requires |open| == 1 && |close| == 1
    ensures var t := open + body + close + rest;
      t[0] == open[0] && t[1..] == body + (close + rest)
      && (body == [] ==> |t| > 1 && t[1] == close[0] && t[2..] == rest)
      && (body != [] ==> |t| > 1 && t[1] == body[0])
    ensures (close + rest)[0] == close[0] && (close + rest)[1..] == rest
  {
    var t := open + body + close + rest;
    assert t == open + (body + (close + rest));
  }

  /** A non-empty list of items never starts with `]`, so it is not mistaken for `[]`. */
  lemma {:induction false} ItemsStartWithValue(items: seq<Json>)
    requires |items| > 0
    ensures |SerializeItems(items)| > 0 && SerializeItems(items)[0] != ']'
  {
    var first := Serialize(items[0]);
    assert |first| > 0 && first[0] != ']' by {
      match items[0]
      case JNumber(n) =>
        if n >= 0 {
          assert IsDigit(NatToString(n)[0]);
        }
      case _ =>
    }
    if |items| > 1 {
      assert SerializeItems(items) == first + ("," + SerializeItems(items[1..]));
    }
  }

  /** A non-empty list of members starts with the quote of its first key, so it is not mistaken for `{}`. */
  lemma {:induction false} MembersStartWithQuote(members: seq<Member>)
    requires |members| > 0
    ensures |SerializeMembers(members)| > 0 && SerializeMembers(members)[0] == '"'
  {
    var first := SerializeMember(members[0]);
    assert first[0] == '"';
    if |members| > 1 {
      assert SerializeMembers(members) == first + ("," + SerializeMembers(members[1..]));
    }
  }

  lemma {:induction false} ItemsRoundTrip(items: seq<Json>, rest: string)
    requires |items| > 0 && EndsList(rest)
    ensures ParseItems(SerializeItems(items) + rest) == Some((items, rest))
    decreases items, 0
  {
    var t := SerializeItems(items) + rest;
    if |items| == 1 {
      assert t == Serialize(items[0]) + rest;
      ValueRoundTrip(items[0], rest);
      ParseItemsOne(t, items[0], rest);
      assert [items[0]] == items;
    } else {
      var tail := "," + (SerializeItems(items[1..]) + rest);
      assert SerializeItems(items) == Serialize(items[0]) + "," + SerializeItems(items[1..]);
      CommaRegroup(Serialize(items[0]), SerializeItems(items[1..]), rest);
      ValueRoundTrip(items[0], tail);
      ItemsRoundTrip(items[1..], rest);
      ParseItemsCons(t, items[0], tail, items[1..], rest);
      assert [items[0]] + items[1..] == items;
    }
  }

  /** A value not followed by a comma is a list of one. */
  lemma {:induction false} ParseItemsOne(t: string, v: Json, rest: string)
    requires ParseValue(t) == Some((v, rest)) && !(|rest| > 0 && rest[0] == ',')
    ensures ParseItems(t) == Some(([v], rest))
  {
  }

  /** A value, a comma and a list of values make a longer list. */
  lemma {:induction false} ParseItemsCons(t: string, v: Json, tail: string, vs: seq<Json>, rest: string)
    requires ParseValue(t) == Some((v, tail)) && |tail| > 0 && tail[0] == ','
    requires ParseItems(tail[1..]) == Some((vs, rest))
    ensures ParseItems(t) == Some(([v] + vs, rest))
  {
  }

  lemma {:induction false} MemberRoundTrip(m: Member, rest: string)
    requires Delimits(rest)
    ensures ParseMember(SerializeMember(m) + rest) == Some((m, rest))
    decreases m, 0
  {
    var t := SerializeMember(m) + rest;
    var after := ":" + (Serialize(m.value) + rest);
    MemberRegroup(Escape(m.key), Serialize(m.value), rest);
    EscapeRoundTrip(m.key, after);
    ValueRoundTrip(m.value, rest);
  }

  /** `"key":value` followed by `rest`, split where the decoder splits it. */
  lemma {:induction false} MemberRegroup(key: string, value: string, rest: string)
    ensures var t := "\"" + key + "\"" + ":" + value + rest;
      t[0] == '"' && t[1..] == key + "\"" + (":" + (value + rest))
    ensures (":" + (value + rest))[0] == ':' && (":" + (value + rest))[1..] == value + rest
  {
    var t := "\"" + key + "\"" + ":" + value + rest;
    assert t == "\"" + (key + "\"" + (":" + (value + rest)));
  }

  lemma {:induction false} MembersRoundTrip(members: seq<Member>, rest: string)
    requires |members| > 0 && EndsList(rest)
    ensures ParseMembers(SerializeMembers(members) + rest) == Some((members, rest))
    decreases members, 1
  {
    var t := SerializeMembers(members) + rest;
    if |members| == 1 {
      assert t == SerializeMember(members[0]) + rest;
      MemberRoundTrip(members[0], rest);
      ParseMembersOne(t, members[0], rest);
      assert [members[0]] == members;
    } else {
      var tail := "," + (SerializeMembers(members[1..]) + rest);
      assert SerializeMembers(members) == SerializeMember(members[0]) + "," + SerializeMembers(members[1..]);
      CommaRegroup(SerializeMember(members[0]), SerializeMembers(members[1..]), rest);
      MemberRoundTrip(members[0], tail);
      MembersRoundTrip(members[1..], rest);
      ParseMembersCons(t, members[0], tail, members[1..], rest);
      assert [members[0]] + members[1..] == members;
    }
  }

  /** `a,b` followed by `rest` is `a` followed by a comma and then `b` and `rest`. */
  lemma {:induction false} CommaRegroup(a: string, b: string, rest: string)
    ensures a + "," + b + rest == a + ("," + (b + rest))
    ensures ("," + (b + rest))[0] == ',' && ("," + (b + rest))[1..] == b + rest
  {
  }

  /** A member not followed by a comma is a list of one. */
  lemma {:induction false} ParseMembersOne(t: string, m: Member, rest: string)
    requires ParseMember(t) == Some((m, rest)) && !(|rest| > 0 && rest[0] == ',')
    ensures ParseMembers(t) == Some(([m], rest))
  {
  }

  /** A member, a comma and a list of members make a longer list. */
  lemma {:induction false} ParseMembersCons(t: string, m: Member, tail: string, ms: seq<Member>, rest: string)
    requires ParseMember(t) == Some((m, tail)) && |tail| > 0 && tail[0] == ','
    requires ParseMembers(tail[1..]) == Some((ms, rest))
    ensures ParseMembers(t) == Some(([m] + ms, rest))
  {
  }

  // ---------------------------------------------------------------------
  // Log records
  // ---------------------------------------------------------------------

  /**
   * The object `JSON.stringify` sees for a record: its properties in
   * declaration order, with an `undefined` meta or stack left out.
   */
  function RecordToJson(d: LogData): Json {
    JObject(
      [ Member("timestamp", JString(d.timestamp)),
        Member("level", JNumber(d.level.Ordinal())),
        Member("levelName", JString(d.levelName)),
        Member("message", JString(d.message)),
        Member("filePath", JString(d.filePath)) ]
      + (if d.meta.Some? then [Member("meta", d.meta.value)] else [])
      + (if d.stack.Some? then [Member("stack", JString(d.stack.value))] else []))
  }

  /** `JSON.stringify(data)` for a record. */
  function SerializeRecord(d: LogData): string {
    Serialize(RecordToJson(d))
  }

  /** Reads a record back from a JSON object of the shape `RecordToJson` produces. */
  function RecordFromJson(j: Json): Option<LogData> {
    if !j.JObject? || |j.members| < 5 then None
    else
      var ms := j.members;
      if ms[0].key != "timestamp" || !ms[0].value.JString?
        || ms[1].key != "level" || !ms[1].value.JNumber? || LevelOf(ms[1].value.n).None?
        || ms[2].key != "levelName" || !ms[2].value.JString?
        || ms[3].key != "message" || !ms[3].value.JString?
        || ms[4].key != "filePath" || !ms[4].value.JString?
      then None
      else
        var rest := ms[5..];
        var meta := if |rest| > 0 && rest[0].key == "meta" then Some(rest[0].value) else None;
        var rest2 := if meta.Some? then rest[1..] else rest;
        var stack := if |rest2| > 0 && rest2[0].key == "stack" && rest2[0].value.JString? then Some(rest2[0].value.s) else None;
        var rest3 := if stack.Some? then rest2[1..] else rest2;
        if rest3 != [] then None
        else Some(LogData(ms[0].value.s, LevelOf(ms[1].value.n).value, ms[2].value.s, ms[3].value.s, ms[4].value.s, meta, stack))
  }

  /** The JSON object of a record carries every field of the record, and nothing else. */
  lemma {:induction false} RecordJsonRoundTrip(d: LogData)
    ensures RecordFromJson(RecordToJson(d)) == Some(d)
  {
    var ms := RecordToJson(d).members;
    LevelOrder(d.level, d.level, d.level);
    if d.meta.Some? {
      assert ms[5] == Member("meta", d.meta.value);
    }
  }

  /**
   * One record is one line: its serialization has no line feed (nor any
   * other raw control character), and it parses back, entirely, to the
   * record it was made from.
   */
  lemma {:induction false} RecordLineRoundTrip(d: LogData)
    ensures NoControl(SerializeRecord(d)) && '\n' !in SerializeRecord(d)
    ensures ParseValue(SerializeRecord(d)) == Some((RecordToJson(d), ""))
    ensures RecordFromJson(ParseValue(SerializeRecord(d)).value.0) == Some(d)
  {
    SerializeNoControl(RecordToJson(d));
    var s := SerializeRecord(d);
    assert forall i | 0 <= i < |s| :: s[i] != '\n';
    ValueRoundTrip(RecordToJson(d), "");
    assert s + "" == s;
    RecordJsonRoundTrip(d);
  }
}
