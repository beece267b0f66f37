/** The part of Go's `encoding/json` the service relies on: `json.Marshal` of a struct whose
    fields are all strings (the error body and the token response), with Go's default string
    escaping, and a reader for such objects that serves as the marshaller's partner. */
module Json {
  import opened Wrappers
  import opened Encoding

  /** How `json.Marshal` writes one character inside a string literal: quote and backslash
      escaped, `\n` `\r` `\t` short forms, other control characters and the HTML-sensitive
      `<` `>` `&` as `\u00XX`, and U+2028/U+2029 as `\u2028`/`\u2029`. */
  function EscapeChar(c: char): string {
    if c == '"' then "\\\""
    else if c == '\\' then "\\\\"
    else if c == '\n' then "\\n"
    else if c == '\r' then "\\r"
    else if c == '\t' then "\\t"
    else if c < ' ' || c == '<' || c == '>' || c == '&' then
      "\\u00" + [HexDigit(c as int / 16), HexDigit(c as int % 16)]
    else if c == '\U{2028}' || c == '\U{2029}' then "\\u202" + [HexDigit(c as int % 16)]
    else [c]
  }

  function Escape(s: string): string {
    if s == [] then "" else EscapeChar(s[0]) + Escape(s[1..])
  }

  /** A JSON string literal as `json.Marshal` writes it. */
  function Quote(s: string): string {
    "\"" + Escape(s) + "\""
  }

  /** `json.Marshal` of a struct with string fields, in declaration order, no whitespace. */
  function Object(fields: seq<(string, string)>): string {
    if fields == [] then "{}" else "{" + Member(fields[0]) + MoreMembers(fields[1..]) + "}"
  }

  function Member(field: (string, string)): string {
    Quote(field.0) + ":" + Quote(field.1)
  }

  function MoreMembers(fields: seq<(string, string)>): string {
    if fields == [] then "" else "," + Member(fields[0]) + MoreMembers(fields[1..])
  }

  // ------------------------------------------------------------------
  // Reading back
  // ------------------------------------------------------------------

  function Prepend(c: char, r: Option<(string, string)>): Option<(string, string)> {
    match r
    case None => None
    case Some((d, rest)) => Some(([c] + d, rest))
  }

  /** Reads the rest of a string literal after its opening quote: the decoded text and what
      follows the closing quote. */
  function ParseStringBody(t: string): (r: Option<(string, string)>)
    ensures r.Some? ==> |r.value.1| < |t|
    decreases |t|
  {
    if t == [] then None
    else if t[0] == '"' then Some(("", t[1..]))
    else if t[0] == '\\' then
      if |t| < 2 then None
      else if t[1] == 'u' then
        if |t| < 6 || !IsHexDigit(t[2]) || !IsHexDigit(t[3]) || !IsHexDigit(t[4]) || !IsHexDigit(t[5]) then None
        else
          var v := HexValue(t[2]) * 4096 + HexValue(t[3]) * 256 + HexValue(t[4]) * 16 + HexValue(t[5]);
          if 0xD800 <= v < 0xE000 then None else Prepend(v as char, ParseStringBody(t[6..]))
      else if t[1] == '"' || t[1] == '\\' || t[1] == '/' then Prepend(t[1], ParseStringBody(t[2..]))
      else if t[1] == 'n' then Prepend('\n', ParseStringBody(t[2..]))
      else if t[1] == 'r' then Prepend('\r', ParseStringBody(t[2..]))
      else if t[1] == 't' then Prepend('\t', ParseStringBody(t[2..]))
      else if t[1] == 'b' then Prepend('\U{0008}', ParseStringBody(t[2..]))
      else if t[1] == 'f' then Prepend('\U{000C}', ParseStringBody(t[2..]))
      else None
    else if t[0] < ' ' then None
    else Prepend(t[0], ParseStringBody(t[1..]))
  }

  function ParseString(t: string): (r: Option<(string, string)>)
    ensures r.Some? ==> |r.value.1| < |t|
  {
    if t != [] && t[0] == '"' then ParseStringBody(t[1..]) else None
  }

  /** Reads `"key":"value"` and returns the pair and what follows. */
  function ParseMember(t: string): (r: Option<((string, string), string)>)
    ensures r.Some? ==> |r.value.1| < |t|
  {
    match ParseString(t)
    case None => None
    case Some((k, rest)) =>
      if rest == [] || rest[0] != ':' then None
      else match ParseString(rest[1..])
        case None => None
        case Some((v, rest')) => Some(((k, v), rest'))
  }

  /** Reads `,member` repetitions up to the closing brace, which must end the text. */
  function ParseMoreMembers(t: string): (r: Option<seq<(string, string)>>)
    decreases |t|
  {
    if t == "}" then Some([])
    else if t == [] || t[0] != ',' then None
    else match ParseMember(t[1..])
      case None => None
      case Some((f, rest)) =>
        match ParseMoreMembers(rest)
        case None => None
        case Some(fs) => Some([f] + fs)
  }

  /** Reads a JSON object whose members all have string values, as `Object` writes it. */
  function ParseObject(t: string): Option<seq<(string, string)>> {
    if t == "{}" then Some([])
    else if t == [] || t[0] != '{' then None
    else match ParseMember(t[1..])
      case None => None
      case Some((f, rest)) =>
        match ParseMoreMembers(rest)
        case None => None
        case Some(fs) => Some([f] + fs)
  }

  // ------------------------------------------------------------------
  // Round trips
  // ------------------------------------------------------------------

  lemma HexPair(d: int)
    requires 0 <= d < 256
    ensures HexValue(HexDigit(d / 16)) * 16 + HexValue(HexDigit(d % 16)) == d
  {
    HexDigitValue(d / 16);
    HexDigitValue(d % 16);
  }

  /** An escaped character reads back as that character, whatever follows it. */
  lemma EscapeCharRoundTrip(c: char, t: string)
    ensures ParseStringBody(EscapeChar(c) + t) == Prepend(c, ParseStringBody(t))
  {
    if c == '"' || c == '\\' || c == '\n' || c == '\r' || c == '\t' {
      EscapeShortRoundTrip(c, t);
    } else if c < ' ' || c == '<' || c == '>' || c == '&' {
      EscapeHexRoundTrip(c, t);
    } else if c == '\U{2028}' || c == '\U{2029}' {
      EscapeSeparatorRoundTrip(c, t);
    } else {
      assert (EscapeChar(c) + t)[1..] == t;
    }
  }

  lemma EscapeShortRoundTrip(c: char, t: string)
    requires c == '"' || c == '\\' || c == '\n' || c == '\r' || c == '\t'
    ensures ParseStringBody(EscapeChar(c) + t) == Prepend(c, ParseStringBody(t))
  {
    assert (EscapeChar(c) + t)[2..] == t;
  }

  lemma EscapeHexRoundTrip(c: char, t: string)
    requires c < ' ' || c == '<' || c == '>' || c == '&'
    requires c != '"' && c != '\\' && c != '\n' && c != '\r' && c != '\t'
    ensures ParseStringBody(EscapeChar(c) + t) == Prepend(c, ParseStringBody(t))
  {
    var e := EscapeChar(c) + t;
    HexPair(c as int);
    assert e[6..] == t;
    assert HexValue(e[2]) == 0 && HexValue(e[3]) == 0;
  }

  lemma EscapeSeparatorRoundTrip(c: char, t: string)
    requires c == '\U{2028}' || c == '\U{2029}'
    ensures ParseStringBody(EscapeChar(c) + t) == Prepend(c, ParseStringBody(t))
  {
    var e := EscapeChar(c) + t;
    HexDigitValue(c as int % 16);
    assert e[6..] == t;
    assert HexValue(e[2]) == 2 && HexValue(e[3]) == 0 && HexValue(e[4]) == 2;
  }

  /** An escaped text followed by a closing quote reads back as that text. */
  lemma {:induction false} EscapeRoundTrip(s: string, rest: string)
    ensures ParseStringBody(Escape(s) + "\"" + rest) == Some((s, rest))
  {
    if s == [] {
      assert Escape(s) + "\"" + rest == "\"" + rest;
    } else {
      EscapeRoundTrip(s[1..], rest);
      EscapeCharRoundTrip(s[0], Escape(s[1..]) + "\"" + rest);
      assert Escape(s) + "\"" + rest == EscapeChar(s[0]) + (Escape(s[1..]) + "\"" + rest);
      assert [s[0]] + s[1..] == s;
    }
  }

  lemma QuoteRoundTrip(s: string, rest: string)
    ensures ParseString(Quote(s) + rest) == Some((s, rest))
  {
    EscapeRoundTrip(s, rest);
    assert (Quote(s) + rest)[1..] == Escape(s) + "\"" + rest;
  }

  lemma MemberRoundTrip(f: (string, string), rest: string)
    ensures ParseMember(Member(f) + rest) == Some((f, rest))
  {
    QuoteRoundTrip(f.0, ":" + Quote(f.1) + rest);
    QuoteRoundTrip(f.1, rest);
    MemberFromParts(Quote(f.0), Quote(f.1), rest, f.0, f.1);
  }

  lemma MemberFromParts(q0: string, q1: string, rest: string, key: string, value: string)
    requires ParseString(q0 + (":" + q1 + rest)) == Some((key, ":" + q1 + rest))
    requires ParseString(q1 + rest) == Some((value, rest))
    ensures ParseMember(q0 + ":" + q1 + rest) == Some(((key, value), rest))
  {
    assert q0 + ":" + q1 + rest == q0 + (":" + q1 + rest);
    assert (":" + q1 + rest)[1..] == q1 + rest;
  }

  lemma {:induction false} MoreMembersRoundTrip(fields: seq<(string, string)>)
    ensures ParseMoreMembers(MoreMembers(fields) + "}") == Some(fields)
  {
    if fields != [] {
      var tail := MoreMembers(fields[1..]) + "}";
      MoreMembersRoundTrip(fields[1..]);
      MemberRoundTrip(fields[0], tail);
      var t := MoreMembers(fields) + "}";
      MoreMembersUnfold(fields);
      MoreMembersStep(t, fields[0], tail);
      assert [fields[0]] + fields[1..] == fields;
    }
  }

  lemma MoreMembersUnfold(fields: seq<(string, string)>)
    requires fields != []
    ensures MoreMembers(fields) + "}" == "," + (Member(fields[0]) + (MoreMembers(fields[1..]) + "}"))
  {
  }

  lemma MoreMembersStep(t: string, f: (string, string), tail: string)
    requires |t| > 1 && t[0] == ',' && ParseMember(t[1..]) == Some((f, tail))
    ensures ParseMoreMembers(t) ==
      match ParseMoreMembers(tail)
      case None => None
      case Some(fs) => Some([f] + fs)
  {
  }

  /** What `json.Marshal` writes for a struct of strings reads back as exactly its fields. */
  lemma ObjectRoundTrip(fields: seq<(string, string)>)
    ensures ParseObject(Object(fields)) == Some(fields)
  {
    if fields != [] {
      var tail := MoreMembers(fields[1..]) + "}";
      MoreMembersRoundTrip(fields[1..]);
      MemberRoundTrip(fields[0], tail);
      ObjectUnfold(fields);
      ObjectStep(Object(fields), fields[0], tail);
      assert [fields[0]] + fields[1..] == fields;
    }
  }

  lemma ObjectUnfold(fields: seq<(string, string)>)
    requires fields != []
    ensures Object(fields) == "{" + (Member(fields[0]) + (MoreMembers(fields[1..]) + "}"))
  {
  }

  lemma ObjectStep(t: string, f: (string, string), tail: string)
    requires |t| > 2 && t[0] == '{' && ParseMember(t[1..]) == Some((f, tail))
    ensures ParseObject(t) ==
      match ParseMoreMembers(tail)
      case None => None
      case Some(fs) => Some([f] + fs)
  {
  }
}
