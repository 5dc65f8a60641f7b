/**
 * JSON values as `c.req.json()` yields them and their serialization by
 * `JSON.stringify`. Numbers are integers here. An object's members are
 * written in the order of its member list; a JavaScript object would list
 * integer-like keys first, in ascending order, and it has no duplicate keys.
 */
module Json {
  import opened Wrappers
  import opened Numerals

  datatype Json =
    | JNull
    | JBool(b: bool)
    | JNum(n: int)
    | JStr(s: string)
    | JArr(items: seq<Json>)
    | JObj(members: seq<Member>)

  datatype Member = Member(key: string, value: Json)

  function HexDigit(d: nat): char
    requires d < 16
  {
    "0123456789abcdef"[d]
  }

  /** How `JSON.stringify` writes one character inside a string literal. */
  function EscapeChar(c: char): (r: string)
    ensures |r| >= 1
  {
    if c == '"' then "\\\""
    else if c == '\\' then "\\\\"
    else if c == '\U{8}' then "\\b"
    else if c == '\U{C}' then "\\f"
    else if c == '\n' then "\\n"
    else if c == '\r' then "\\r"
    else if c == '\t' then "\\t"
    else if c < ' ' then
      var v := c as int;
      "\\u00" + [HexDigit(v / 16), HexDigit(v % 16)]
    else [c]
  }

  predicate IsHex(c: char) {
    ('0' <= c <= '9') || ('a' <= c <= 'f') || ('A' <= c <= 'F')
  }

  function HexOf(c: char): (d: nat)
    requires IsHex(c)
    ensures d < 16
  {
    if '0' <= c <= '9' then c as int - '0' as int
    else if 'a' <= c <= 'f' then c as int - 'a' as int + 10
    else c as int - 'A' as int + 10
  }

  /** The character a two-character escape `\x` stands for in a JSON string literal. */
  function ShortEscape(x: char): Option<char> {
    if x == '"' then Some('"')
    else if x == '\\' then Some('\\')
    else if x == '/' then Some('/')
    else if x == 'b' then Some('\U{8}')
    else if x == 'f' then Some('\U{C}')
    else if x == 'n' then Some('\n')
    else if x == 'r' then Some('\r')
    else if x == 't' then Some('\t')
    else None
  }

  function Prepend(c: char, rest: Option<string>): Option<string> {
    if rest.None? then None else Some([c] + rest.value)
  }

  /**
   * The characters the body of a JSON string literal stands for, as
   * `JSON.parse` reads it (escapes `\uXXXX` above `\u00FF` are not needed
   * here); `None` for a malformed escape, and for a raw quote or control
   * character, which a string literal may not hold.
   */
  function Unescape(r: string): Option<string>
    decreases |r|
  {
    if r == [] then Some([])
    else if r[0] == '"' || r[0] < ' ' then None
    else if r[0] != '\\' then Prepend(r[0], Unescape(r[1..]))
    else if |r| < 2 then None
    else if r[1] == 'u' then
      if |r| >= 6 && r[2] == '0' && r[3] == '0' && IsHex(r[4]) && IsHex(r[5]) then
        Prepend((HexOf(r[4]) * 16 + HexOf(r[5])) as char, Unescape(r[6..]))
      else None
    else if ShortEscape(r[1]).Some? then Prepend(ShortEscape(r[1]).value, Unescape(r[2..]))
    else None
  }

  /** A raw quote or control character in a literal's body does not read back. */
  lemma UnescapeRejectsRaw(c: char, rest: string)
    requires c == '"' || c < ' '
    ensures Unescape([c] + rest) == None
  {
  }

  lemma HexRoundTrip(d: nat)
    requires d < 16
    ensures IsHex(HexDigit(d)) && HexOf(HexDigit(d)) == d
  {
  }

  /** A control character written as `\u00XY` reads back as itself. */
  lemma UnescapeControl(c: char, rest: string)
    requires c < ' '
    ensures Unescape("\\u00" + [HexDigit(c as int / 16), HexDigit(c as int % 16)] + rest) == Prepend(c, Unescape(rest))
  {
    var v := c as int;
    var r := "\\u00" + [HexDigit(v / 16), HexDigit(v % 16)] + rest;
    HexRoundTrip(v / 16);
    HexRoundTrip(v % 16);
    assert r[6..] == rest;
    assert (HexOf(r[4]) * 16 + HexOf(r[5])) as char == c;
  }

  /** A character with a two-character escape reads back as itself. */
  lemma UnescapeShort(c: char, rest: string)
    requires c in "\"\\\U{8}\U{C}\n\r\t"
    ensures Unescape(EscapeChar(c) + rest) == Prepend(c, Unescape(rest))
  {
    var r := EscapeChar(c) + rest;
    assert |EscapeChar(c)| == 2 && r[0] == '\\' && ShortEscape(r[1]) == Some(c);
    assert r[2..] == rest;
  }

  /** The escape of one character reads back as that character, whatever follows it. */
  lemma UnescapeChar(c: char, rest: string)
    ensures Unescape(EscapeChar(c) + rest) == Prepend(c, Unescape(rest))
  {
    var r := EscapeChar(c) + rest;
    if c < ' ' && c !in "\U{8}\U{C}\n\r\t" {
      UnescapeControl(c, rest);
    } else if c in "\"\\\U{8}\U{C}\n\r\t" {
      UnescapeShort(c, rest);
    } else {
      assert r[1..] == rest;
    }
  }

  /** `JSON.stringify`'s escaping of a string; the escaped text reads back as the string. */
  function Escape(s: string): (r: string)
    ensures |r| >= |s|
    ensures Unescape(r) == Some(s)
  {
    if s == [] then []
    else
      var rest := Escape(s[1..]);
      UnescapeChar(s[0], rest);
      assert s == [s[0]] + s[1..];
      EscapeChar(s[0]) + rest
  }

  /** A character `JSON.stringify` writes as it is. */
  predicate IsPlain(c: char) {
    c >= ' ' && c != '"' && c != '\\'
  }

  lemma {:induction false} EscapePlain(s: string)
    requires forall i :: 0 <= i < |s| ==> IsPlain(s[i])
    ensures Escape(s) == s
  {
    if s != [] {
      EscapePlain(s[1..]);
      assert s == [s[0]] + s[1..];
    }
  }

  function Quote(s: string): string {
    "\"" + Escape(s) + "\""
  }

  /** `JSON.stringify(j)`; never empty, so never the empty data of a keep-alive event. */
  function Stringify(j: Json): (r: string)
    ensures |r| >= 1
    decreases j
  {
    match j
    case JNull => "null"
    case JBool(b) => if b then "true" else "false"
    case JNum(n) => if n < 0 then "-" + Decimal(-n) else Decimal(n)
    case JStr(s) => Quote(s)
    case JArr(items) => "[" + Elements(items) + "]"
    case JObj(members) => "{" + Members(members) + "}"
  }

  /** The array elements, separated by commas. */
  function Elements(items: seq<Json>): string
    decreases items
  {
    if items == [] then ""
    else if |items| == 1 then Stringify(items[0])
    else Stringify(items[0]) + "," + Elements(items[1..])
  }

  /** The object members as `"key":value`, separated by commas. */
  function Members(members: seq<Member>): string
    decreases members
  {
    if members == [] then ""
    else
      var field := Quote(members[0].key) + ":" + Stringify(members[0].value);
      if |members| == 1 then field else field + "," + Members(members[1..])
  }

  /** A one-member object whose key needs no escaping is written `{"key":value}`. */
  lemma StringifyOneMember(key: string, value: Json)
    requires forall i :: 0 <= i < |key| ==> IsPlain(key[i])
    ensures Stringify(JObj([Member(key, value)])) == "{\"" + key + "\":" + Stringify(value) + "}"
  {
    EscapePlain(key);
    assert Quote(key) == "\"" + key + "\"";
  }
}
