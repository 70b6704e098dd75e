/**
 * The JSON text of a custom-field list: what the form's `JSON.stringify(customFields)`
 * produces and what the server's `JSON.parse` accepts, restricted to the JSON shape a
 * custom-field list takes (an array of objects whose members are strings, RFC 8259).
 */
module CustomFieldJson {
  import opened Wrappers

  /** One user-defined label/value pair of a profile. */
  datatype CustomField = CustomField(labelText: string, valueText: string)

  // ---------------------------------------------------------------------------
  // Serialisation (JSON.stringify)
  // ---------------------------------------------------------------------------

  /** A lower-case hexadecimal digit, as JSON.stringify writes in `\u00XX`. */
  function HexDigit(n: nat): (c: char)
    requires n < 16
    ensures HexValue(c) == Some(n)
  {
    if n < 10 then ('0' as int + n) as char else ('a' as int + n - 10) as char
  }

  /** How JSON.stringify writes one character inside a string literal. */
  function EscapeChar(c: char): string {
    if c == '"' then "\\\""
    else if c == '\\' then "\\\\"
    else if c == '\U{0008}' then "\\b"
    else if c == '\U{000C}' then "\\f"
    else if c == '\n' then "\\n"
    else if c == '\r' then "\\r"
    else if c == '\t' then "\\t"
    else if c < ' ' then "\\u00" + [HexDigit(c as int / 16), HexDigit(c as int % 16)]
    else [c]
  }

  function Escape(s: string): string {
    if s == [] then [] else EscapeChar(s[0]) + Escape(s[1..])
  }

  function Quote(s: string): string {
    "\"" + Escape(s) + "\""
  }

  // ---------------------------------------------------------------------------
  // Tokens
  // ---------------------------------------------------------------------------

  /** The JSON tokens a custom-field list is made of. */
  datatype Token = LBracket | RBracket | LBrace | RBrace | Colon | Comma | Str(text: string)

  function TokenText(t: Token): string {
    match t
    case LBracket => "["
    case RBracket => "]"
    case LBrace => "{"
    case RBrace => "}"
    case Colon => ":"
    case Comma => ","
    case Str(s) => Quote(s)
  }

  /** JSON.stringify puts no whitespace between tokens. */
  function Render(ts: seq<Token>): string {
    if ts == [] then "" else TokenText(ts[0]) + Render(ts[1..])
  }

  /** An entry's keys come in creation order: label, then value. */
  function FieldTokens(f: CustomField): seq<Token> {
    [LBrace, Str("label"), Colon, Str(f.labelText), Comma, Str("value"), Colon, Str(f.valueText), RBrace]
  }

  /** The entries after the first, each preceded by a comma. */
  function MoreTokens(fs: seq<CustomField>): seq<Token> {
    if fs == [] then [] else [Comma] + FieldTokens(fs[0]) + MoreTokens(fs[1..])
  }

  function ListTokens(fs: seq<CustomField>): seq<Token> {
    [LBracket] + (if fs == [] then [] else FieldTokens(fs[0]) + MoreTokens(fs[1..])) + [RBracket]
  }

  /** `JSON.stringify(customFields)` of a list of label/value objects. */
  function Stringify(fs: seq<CustomField>): string {
    Render(ListTokens(fs))
  }

  // ---------------------------------------------------------------------------
  // Lexing (the lexical grammar of JSON.parse)
  // ---------------------------------------------------------------------------

  /** Insignificant whitespace between JSON tokens. */
  predicate IsWs(c: char) {
    c == ' ' || c == '\t' || c == '\n' || c == '\r'
  }

  function HexValue(c: char): (r: Option<nat>)
    ensures r.Some? ==> r.value < 16
  {
    if '0' <= c <= '9' then Some(c as int - '0' as int)
    else if 'a' <= c <= 'f' then Some(c as int - 'a' as int + 10)
    else if 'A' <= c <= 'F' then Some(c as int - 'A' as int + 10)
    else None
  }

  /** The UTF-16 code unit named by four hexadecimal digits. */
  function CodeUnit(h: string): (r: Option<nat>)
    requires |h| == 4
    ensures r.Some? ==> r.value < 0x1_0000
  {
    match (HexValue(h[0]), HexValue(h[1]), HexValue(h[2]), HexValue(h[3]))
    case (Some(a), Some(b), Some(c), Some(d)) =>
      assert a * 16 + b < 256;
      assert (a * 16 + b) * 16 + c < 4096;
      Some(((a * 16 + b) * 16 + c) * 16 + d)
    case _ => None
  }

  /** The character a high and a low surrogate encode together. */
  function SurrogatePair(hi: nat, lo: nat): (c: char)
    requires 0xD800 <= hi < 0xDC00 && 0xDC00 <= lo < 0xE000
    ensures 0x1_0000 <= c as int < 0x11_0000
  {
    (0x1_0000 + (hi - 0xD800) * 0x400 + (lo - 0xDC00)) as char
  }

  /**
   * The character a `\u` escape stands for; `s` starts after the `u`. A high surrogate
   * must be followed by a `\u` escape of a low surrogate, and the two make one
   * character; an unpaired surrogate has no character of its own and is refused.
   */
  function UnicodeEscape(s: string): (r: Option<(char, string)>)
    ensures r.Some? ==> |r.value.1| < |s|
  {
    if |s| < 4 then None
    else match CodeUnit(s[..4])
      case None => None
      case Some(n) =>
        if 0xD800 <= n < 0xDC00 then
          if |s| >= 10 && s[4] == '\\' && s[5] == 'u' then
            match CodeUnit(s[6..10])
            case Some(m) => if 0xDC00 <= m < 0xE000 then Some((SurrogatePair(n, m), s[10..])) else None
            case None => None
          else None
        else if 0xDC00 <= n < 0xE000 then None
        else Some((n as char, s[4..]))
  }

  /** The character an escape sequence stands for; `s` starts after the backslash. */
  function Unescape(s: string): (r: Option<(char, string)>)
    ensures r.Some? ==> |r.value.1| < |s|
  {
    if s == [] then None
    else if s[0] == '"' then Some(('"', s[1..]))
    else if s[0] == '\\' then Some(('\\', s[1..]))
    else if s[0] == '/' then Some(('/', s[1..]))
    else if s[0] == 'b' then Some(('\U{0008}', s[1..]))
    else if s[0] == 'f' then Some(('\U{000C}', s[1..]))
    else if s[0] == 'n' then Some(('\n', s[1..]))
    else if s[0] == 'r' then Some(('\r', s[1..]))
    else if s[0] == 't' then Some(('\t', s[1..]))
    else if s[0] == 'u' then UnicodeEscape(s[1..])
    else None
  }

  function Prepend(c: char, r: Option<(string, string)>): Option<(string, string)> {
    match r
    case Some((t, rest)) => Some(([c] + t, rest))
    case None => None
  }

  /** The characters of a string literal up to its closing quote, and what follows it. */
  function ParseStringBody(s: string): (r: Option<(string, string)>)
    ensures r.Some? ==> |r.value.1| < |s|
    decreases |s|
  {
    if s == [] then None
    else if s[0] == '"' then Some(([], s[1..]))
    else if s[0] < ' ' then None
    else if s[0] == '\\' then
      match Unescape(s[1..])
      case Some((c, rest)) => Prepend(c, ParseStringBody(rest))
      case None => None
    else Prepend(s[0], ParseStringBody(s[1..]))
  }

  function PrependToken(t: Token, r: Option<seq<Token>>): Option<seq<Token>> {
    match r
    case Some(ts) => Some([t] + ts)
    case None => None
  }

  /** Splits a text into tokens, dropping the whitespace between them. */
  function Lex(s: string): Option<seq<Token>>
    decreases |s|
  {
    if s == [] then Some([])
    else if IsWs(s[0]) then Lex(s[1..])
    else if s[0] == '[' then PrependToken(LBracket, Lex(s[1..]))
    else if s[0] == ']' then PrependToken(RBracket, Lex(s[1..]))
    else if s[0] == '{' then PrependToken(LBrace, Lex(s[1..]))
    else if s[0] == '}' then PrependToken(RBrace, Lex(s[1..]))
    else if s[0] == ':' then PrependToken(Colon, Lex(s[1..]))
    else if s[0] == ',' then PrependToken(Comma, Lex(s[1..]))
    else if s[0] == '"' then
      match ParseStringBody(s[1..])
      case Some((text, rest)) => PrependToken(Str(text), Lex(rest))
      case None => None
    else None
  }

  // ---------------------------------------------------------------------------
  // Parsing the tokens
  // ---------------------------------------------------------------------------

  /** A member sets `label` or `value`; a later duplicate wins and other keys are ignored. */
  function SetMember(f: CustomField, key: string, v: string): CustomField {
    if key == "label" then f.(labelText := v) else if key == "value" then f.(valueText := v) else f
  }

  /** The `"key" : "value"` members of an object up to and including its closing brace. */
  function ParseMembers(ts: seq<Token>, f: CustomField): (r: Option<(CustomField, seq<Token>)>)
    ensures r.Some? ==> |r.value.1| < |ts|
    decreases |ts|
  {
    if |ts| >= 4 && ts[0].Str? && ts[1] == Colon && ts[2].Str? then
      var f' := SetMember(f, ts[0].text, ts[2].text);
      if ts[3] == Comma then ParseMembers(ts[4..], f')
      else if ts[3] == RBrace then Some((f', ts[4..]))
      else None
    else None
  }

  /** An object; a member it does not carry stays empty. */
  function ParseObject(ts: seq<Token>): (r: Option<(CustomField, seq<Token>)>)
    ensures r.Some? ==> |r.value.1| < |ts|
  {
    if |ts| >= 2 && ts[0] == LBrace && ts[1] == RBrace then Some((CustomField("", ""), ts[2..]))
    else if |ts| >= 1 && ts[0] == LBrace then ParseMembers(ts[1..], CustomField("", ""))
    else None
  }

  /** The objects of a non-empty array up to and including its closing bracket. */
  function ParseObjects(ts: seq<Token>, acc: seq<CustomField>): (r: Option<(seq<CustomField>, seq<Token>)>)
    ensures r.Some? ==> |r.value.1| < |ts|
    decreases |ts|
  {
    match ParseObject(ts)
    case None => None
    case Some((f, r1)) =>
      if |r1| >= 1 && r1[0] == Comma then ParseObjects(r1[1..], acc + [f])
      else if |r1| >= 1 && r1[0] == RBracket then Some((acc + [f], r1[1..]))
      else None
  }

  /** The tokens must form exactly one array of objects. */
  function ParseTokens(ts: seq<Token>): Option<seq<CustomField>> {
    if |ts| >= 2 && ts[0] == LBracket && ts[1] == RBracket then
      if |ts| == 2 then Some([]) else None
    else if |ts| >= 1 && ts[0] == LBracket then
      match ParseObjects(ts[1..], [])
      case Some((fs, rest)) => if rest == [] then Some(fs) else None
      case None => None
    else None
  }

  /** `JSON.parse` of a custom-field list; `None` is the parser's exception. */
  function Parse(text: string): Option<seq<CustomField>> {
    match Lex(text)
    case Some(ts) => ParseTokens(ts)
    case None => None
  }

  // ---------------------------------------------------------------------------
  // Round trip
  // ---------------------------------------------------------------------------

  lemma EscapeCharParses(c: char, tail: string)
    ensures ParseStringBody(EscapeChar(c) + tail) == Prepend(c, ParseStringBody(tail))
  {
    var e := EscapeChar(c);
    if c == '"' || c == '\\' || c == '\U{0008}' || c == '\U{000C}' || c == '\n' || c == '\r' || c == '\t' {
      assert (e + tail)[1..] == [e[1]] + tail;
    } else if c < ' ' {
      var n := c as int;
      var h := ['0', '0', HexDigit(n / 16), HexDigit(n % 16)];
      assert e == "\\u" + h;
      var u := (e + tail)[1..][1..];
      assert u[..4] == h && u[4..] == tail;
      assert ((0 * 16 + 0) * 16 + n / 16) * 16 + n % 16 == n;
      assert CodeUnit(h) == Some(n);
      assert UnicodeEscape(u) == Some((c, tail));
    } else {
      assert (e + tail)[1..] == tail;
    }
  }

  lemma {:induction false} EscapeParses(s: string, tail: string)
    ensures ParseStringBody(Escape(s) + "\"" + tail) == Some((s, tail))
  {
    if s == [] {
      assert Escape(s) + "\"" + tail == "\"" + tail;
    } else {
      var rest := Escape(s[1..]) + "\"" + tail;
      assert Escape(s) + "\"" + tail == EscapeChar(s[0]) + rest;
      EscapeCharParses(s[0], rest);
      EscapeParses(s[1..], tail);
      assert [s[0]] + s[1..] == s;
    }
  }

  lemma QuoteParses(s: string, tail: string)
    ensures ParseStringBody((Quote(s) + tail)[1..]) == Some((s, tail))
  {
    assert (Quote(s) + tail)[1..] == Escape(s) + "\"" + tail;
    EscapeParses(s, tail);
  }

  lemma LexToken(t: Token, rest: string)
    ensures Lex(TokenText(t) + rest) == PrependToken(t, Lex(rest))
  {
    var s := TokenText(t) + rest;
    if t.Str? {
      QuoteParses(t.text, rest);
    } else {
      assert s[1..] == rest;
    }
  }

  /** Lexing a rendered token sequence gives back the tokens. */
  lemma {:induction false} LexRender(ts: seq<Token>)
    ensures Lex(Render(ts)) == Some(ts)
  {
    if ts != [] {
      LexToken(ts[0], Render(ts[1..]));
      LexRender(ts[1..]);
      assert [ts[0]] + ts[1..] == ts;
    }
  }

  lemma LastFieldParses(f: CustomField, acc: seq<CustomField>, rest: seq<Token>)
    ensures ParseObjects(FieldTokens(f) + ([RBracket] + rest), acc) == Some((acc + [f], rest))
  {
    var ts := FieldTokens(f) + ([RBracket] + rest);
    assert ts[1..] == [Str("label"), Colon, Str(f.labelText), Comma, Str("value"), Colon, Str(f.valueText), RBrace, RBracket] + rest;
    assert ts[1..][4..] == [Str("value"), Colon, Str(f.valueText), RBrace, RBracket] + rest;
    assert ts[1..][4..][4..] == [RBracket] + rest;
    var f1 := CustomField(f.labelText, "");
    assert ParseMembers(ts[1..][4..], f1) == Some((f, [RBracket] + rest));
    assert ParseMembers(ts[1..], CustomField("", "")) == ParseMembers(ts[1..][4..], f1);
    assert ParseObject(ts) == Some((f, [RBracket] + rest));
    assert ([RBracket] + rest)[1..] == rest;
  }

  lemma NextFieldParses(f: CustomField, acc: seq<CustomField>, next: seq<Token>)
    ensures ParseObjects(FieldTokens(f) + ([Comma] + next), acc) == ParseObjects(next, acc + [f])
  {
    var ts := FieldTokens(f) + ([Comma] + next);
    assert ts[1..] == [Str("label"), Colon, Str(f.labelText), Comma, Str("value"), Colon, Str(f.valueText), RBrace, Comma] + next;
    assert ts[1..][4..] == [Str("value"), Colon, Str(f.valueText), RBrace, Comma] + next;
    assert ts[1..][4..][4..] == [Comma] + next;
    var f1 := CustomField(f.labelText, "");
    assert ParseMembers(ts[1..][4..], f1) == Some((f, [Comma] + next));
    assert ParseMembers(ts[1..], CustomField("", "")) == ParseMembers(ts[1..][4..], f1);
    assert ParseObject(ts) == Some((f, [Comma] + next));
    assert ([Comma] + next)[1..] == next;
  }

  lemma ConsSplit<T>(acc: seq<T>, xs: seq<T>)
    ensures xs == [] ==> acc + xs == acc
    ensures xs != [] ==> acc + [xs[0]] + xs[1..] == acc + xs
  {
    if xs != [] {
      assert [xs[0]] + xs[1..] == xs;
    }
  }

  lemma {:induction false} MoreTokensParse(f: CustomField, fs: seq<CustomField>, acc: seq<CustomField>, rest: seq<Token>)
    ensures ParseObjects(FieldTokens(f) + MoreTokens(fs) + ([RBracket] + rest), acc) == Some((acc + [f] + fs, rest))
    decreases |fs|
  {
    if fs == [] {
      assert FieldTokens(f) + MoreTokens(fs) + ([RBracket] + rest) == FieldTokens(f) + ([RBracket] + rest);
      LastFieldParses(f, acc, rest);
      ConsSplit(acc + [f], fs);
    } else {
      var next := FieldTokens(fs[0]) + MoreTokens(fs[1..]) + ([RBracket] + rest);
      assert FieldTokens(f) + MoreTokens(fs) + ([RBracket] + rest) == FieldTokens(f) + ([Comma] + next);
      NextFieldParses(f, acc, next);
      MoreTokensParse(fs[0], fs[1..], acc + [f], rest);
      ConsSplit(acc + [f], fs);
    }
  }

  lemma ParseListTokens(fs: seq<CustomField>)
    ensures ParseTokens(ListTokens(fs)) == Some(fs)
  {
    var ts := ListTokens(fs);
    if fs == [] {
      assert ts == [LBracket, RBracket];
    } else {
      var body := FieldTokens(fs[0]) + MoreTokens(fs[1..]) + ([RBracket] + []);
      assert [RBracket] + [] == [RBracket];
      assert ts[1..] == body;
      MoreTokensParse(fs[0], fs[1..], [], []);
      assert ParseObjects(body, []) == Some(([] + [fs[0]] + fs[1..], []));
      ConsSplit([], fs);
      assert [] + [fs[0]] + fs[1..] == fs;
      assert ts[0] == LBracket && ts[1] == LBrace;
      assert ParseObjects(ts[1..], []) == Some((fs, []));
    }
  }

  /** What the form sends parses back on the server to the same list, in the same order. */
  lemma ParseStringify(fs: seq<CustomField>)
    ensures Parse(Stringify(fs)) == Some(fs)
  {
    LexRender(ListTokens(fs));
    ParseListTokens(fs);
  }

  /** A character outside the Basic Multilingual Plane may arrive as an escaped surrogate pair. */
  lemma SurrogatePairParses()
    ensures ParseStringBody("\\ud83d\\ude00\"") == Some(("\U{1F600}", ""))
  {
    var s := "\\ud83d\\ude00\"";
    var u := s[1..][1..];
    assert u[..4] == "d83d" && u[6..10] == "de00" && u[4] == '\\' && u[5] == 'u';
    assert CodeUnit("d83d") == Some(0xD83D);
    assert CodeUnit("de00") == Some(0xDE00);
    assert UnicodeEscape(u) == Some(('\U{1F600}', u[10..]));
    assert u[10..] == "\"";
    assert Unescape(s[1..]) == Some(('\U{1F600}', "\""));
    assert ParseStringBody("\"") == Some(([], ""));
    assert s[0] == '\\' && s[0] >= ' ' && s[0] != '"';
    assert ParseStringBody(s) == Prepend('\U{1F600}', ParseStringBody("\""));
    assert ['\U{1F600}'] + [] == "\U{1F600}";
  }

  /** `s`, read after a `\u`, names a high surrogate and then a `\u` escape of a low one. */
  predicate HighLowEscape(s: string) {
    && |s| >= 10 && s[4] == '\\' && s[5] == 'u'
    && CodeUnit(s[..4]).Some? && 0xD800 <= CodeUnit(s[..4]).value < 0xDC00
    && CodeUnit(s[6..10]).Some? && 0xDC00 <= CodeUnit(s[6..10]).value < 0xE000
  }

  /** Inside a string literal, every escaped high/low pair is read as the one character it encodes. */
  lemma SurrogateEscapeParses(s: string)
    requires HighLowEscape(s)
    ensures ParseStringBody("\\u" + s)
      == Prepend(SurrogatePair(CodeUnit(s[..4]).value, CodeUnit(s[6..10]).value), ParseStringBody(s[10..]))
  {
    var t := "\\u" + s;
    assert t[0] == '\\' && t[1..][0] == 'u' && t[1..][1..] == s;
  }

  /** Every character outside the Basic Multilingual Plane has a surrogate pair that decodes to it. */
  lemma SurrogatePairInverts(c: char)
    requires c as int >= 0x1_0000
    ensures var v := c as int - 0x1_0000; SurrogatePair(0xD800 + v / 0x400, 0xDC00 + v % 0x400) == c
  {
  }

  /** Distinct pairs decode to distinct characters: the pair is recovered from its character. */
  lemma SurrogatePairDecodes(hi: nat, lo: nat)
    requires 0xD800 <= hi < 0xDC00 && 0xDC00 <= lo < 0xE000
    ensures var v := SurrogatePair(hi, lo) as int - 0x1_0000; 0xD800 + v / 0x400 == hi && 0xDC00 + v % 0x400 == lo
  {
  }

  /** A low surrogate escape with no high one before it has no character and makes the text malformed. */
  lemma LoneSurrogateRefused(s: string)
    requires |s| >= 4 && CodeUnit(s[..4]).Some? && 0xDC00 <= CodeUnit(s[..4]).value < 0xE000
    ensures UnicodeEscape(s) == None
    ensures ParseStringBody("\\u" + s) == None
  {
    var t := "\\u" + s;
    assert t[0] == '\\' && t[1..][0] == 'u' && t[1..][1..] == s;
  }

  /** So does a high surrogate escape that no low surrogate escape follows. */
  lemma UnpairedHighRefused(s: string)
    requires |s| >= 4 && CodeUnit(s[..4]).Some? && 0xD800 <= CodeUnit(s[..4]).value < 0xDC00
    requires !HighLowEscape(s)
    ensures UnicodeEscape(s) == None
    ensures ParseStringBody("\\u" + s) == None
  {
    var t := "\\u" + s;
    assert t[0] == '\\' && t[1..][0] == 'u' && t[1..][1..] == s;
  }

  /** An absent list and the empty array both parse to no entries. */
  lemma ParseEmptyArray()
    ensures Parse("[]") == Some([])
  {
    assert "[]" == Render([LBracket, RBracket]);
    LexRender([LBracket, RBracket]);
  }
}
