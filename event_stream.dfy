/**
 * The wire format of the chat route's reply: every event is one line
 * `data: <payload>` followed by a blank line, the event-stream format of
 * section 9.2 (Server-sent events) of the WHATWG HTML Living Standard, and
 * every content payload is `JSON.stringify({ content })`.
 *
 * The JSON string escaping of ECMAScript's `JSON.stringify` is written out
 * so that two facts can be proved: a payload never holds a line break (so an
 * event is exactly one `data:` line), and a reader gets back exactly the
 * content that was sent.
 */
module EventStream {
  import opened Wrappers
  import opened Text

  function HexDigit(d: nat): char
    requires d < 16
  {
    "0123456789abcdef"[d]
  }

  /**
   * How `JSON.stringify` writes one character inside a string literal:
   * the short escapes for backspace, tab, line feed, form feed, carriage
   * return, quotation mark and backslash, `\u00xx` (lower-case hex) for the
   * other control characters, and the character itself otherwise.
   */
  function EscapeChar(c: char): string
  {
    var n := c as int;
    if n == 0x08 then "\\b"
    else if n == 0x09 then "\\t"
    else if n == 0x0A then "\\n"
    else if n == 0x0C then "\\f"
    else if n == 0x0D then "\\r"
    else if c == '"' then "\\\""
    else if c == '\\' then "\\\\"
    else if n < 0x20 then "\\u00" + [HexDigit(n / 16), HexDigit(n % 16)]
    else [c]
  }

  /** A string that holds no line feed and no carriage return. */
  predicate SingleLine(s: string)
  {
    forall i :: 0 <= i < |s| ==> s[i] != '\n' && s[i] != '\r'
  }

  /** The escaped body of a JSON string literal: it never contains a line break. */
  function Escape(s: string): (e: string)
    ensures SingleLine(e)
  {
    if s == [] then "" else EscapeChar(s[0]) + Escape(s[1..])
  }

  /** `JSON.stringify({ content })`: `{"content":"…"}` with no whitespace. */
  function ContentJson(content: string): (j: string)
    ensures SingleLine(j)
  {
    "{\"content\":\"" + Escape(content) + "\"}"
  }

  // ---------------------------------------------------------------------------
  // The reading side: decoding a JSON string literal.

  function HexValue(c: char): Option<nat>
  {
    if '0' <= c <= '9' then Some(c as int - '0' as int)
    else if 'a' <= c <= 'f' then Some(c as int - 'a' as int + 10)
    else if 'A' <= c <= 'F' then Some(c as int - 'A' as int + 10)
    else None
  }

  function Prepend(c: char, rest: Option<string>): Option<string>
  {
    match rest
    case Some(s) => Some([c] + s)
    case None => None
  }

  /** The character a two-character escape `\d` stands for, if `d` starts one. */
  function ShortEscape(d: char): Option<char>
  {
    if d == '"' then Some('"')
    else if d == '\\' then Some('\\')
    else if d == '/' then Some('/')
    else if d == 'b' then Some(0x08 as char)
    else if d == 't' then Some(0x09 as char)
    else if d == 'n' then Some(0x0A as char)
    else if d == 'f' then Some(0x0C as char)
    else if d == 'r' then Some(0x0D as char)
    else None
  }

  /**
   * Decodes the body of a JSON string literal (RFC 8259, section 7); `None`
   * for a malformed body. Surrogate-pair escapes are refused.
   */
  function Unescape(e: string): Option<string>
    decreases |e|
  {
    if e == [] then Some("")
    else if e[0] == '\\' then
      if |e| < 2 then None
      else if ShortEscape(e[1]).Some? then Prepend(ShortEscape(e[1]).value, Unescape(e[2..]))
      else if e[1] == 'u' && |e| >= 6
              && HexValue(e[2]).Some? && HexValue(e[3]).Some?
              && HexValue(e[4]).Some? && HexValue(e[5]).Some? then
        var n := HexValue(e[2]).value * 4096 + HexValue(e[3]).value * 256
                 + HexValue(e[4]).value * 16 + HexValue(e[5]).value;
        if 0xD800 <= n < 0xE000 || n >= 0x10000 then None
        else Prepend(n as char, Unescape(e[6..]))
      else None
    else if e[0] == '"' || (e[0] as int) < 0x20 then None
    else Prepend(e[0], Unescape(e[1..]))
  }

  lemma HexRoundTrip(d: nat)
    requires d < 16
    ensures HexValue(HexDigit(d)) == Some(d)
  {
  }

  /** The characters `JSON.stringify` writes as a backslash and one letter. */
  predicate HasShortEscape(c: char)
  {
    var n := c as int;
    n == 0x08 || n == 0x09 || n == 0x0A || n == 0x0C || n == 0x0D || c == '"' || c == '\\'
  }

  lemma UnescapeShort(c: char, rest: string)
    requires HasShortEscape(c)
    ensures Unescape(EscapeChar(c) + rest) == Prepend(c, Unescape(rest))
  {
    var e := EscapeChar(c) + rest;
    assert |EscapeChar(c)| == 2 && EscapeChar(c)[0] == '\\';
    assert ShortEscape(e[1]) == Some(c);
    assert e[2..] == rest;
  }

  lemma UnescapeHex(c: char, rest: string)
    requires !HasShortEscape(c) && (c as int) < 0x20
    ensures Unescape(EscapeChar(c) + rest) == Prepend(c, Unescape(rest))
  {
    var n := c as int;
    var hi, lo := HexDigit(n / 16), HexDigit(n % 16);
    assert EscapeChar(c) == "\\u00" + [hi, lo];
    var e := EscapeChar(c) + rest;
    assert e[0] == '\\' && e[1] == 'u' && e[2] == '0' && e[3] == '0' && e[4] == hi && e[5] == lo;
    assert ShortEscape(e[1]).None?;
    HexRoundTrip(n / 16);
    HexRoundTrip(n % 16);
    assert e[6..] == rest;
  }

  /** Decoding an escaped character followed by more text decodes the character first. */
  lemma UnescapeEscapeChar(c: char, rest: string)
    ensures Unescape(EscapeChar(c) + rest) == Prepend(c, Unescape(rest))
  {
    if HasShortEscape(c) {
      UnescapeShort(c, rest);
    } else if (c as int) < 0x20 {
      UnescapeHex(c, rest);
    } else {
      assert (EscapeChar(c) + rest)[1..] == rest;
    }
  }

  /** Decoding undoes `JSON.stringify`'s escaping. */
  lemma {:induction false} UnescapeEscape(s: string)
    ensures Unescape(Escape(s)) == Some(s)
  {
    if s != [] {
      UnescapeEscapeChar(s[0], Escape(s[1..]));
      UnescapeEscape(s[1..]);
      assert [s[0]] + s[1..] == s;
    }
  }

  const ContentPrefix: string := "{\"content\":\""
  const ContentSuffix: string := "\"}"

  /** Reads the `content` field back out of a `{"content":"…"}` payload. */
  function ReadContent(payload: string): Option<string>
  {
    if |payload| >= |ContentPrefix| + |ContentSuffix|
       && StartsWith(payload, ContentPrefix) && EndsWith(payload, ContentSuffix)
    then Unescape(payload[|ContentPrefix|..|payload| - |ContentSuffix|])
    else None
  }

  /** Every content object the route writes reads back as the content it carries. */
  lemma ReadContentJson(content: string)
    ensures ReadContent(ContentJson(content)) == Some(content)
  {
    var j := ContentJson(content);
    assert j[|ContentPrefix|..|j| - |ContentSuffix|] == Escape(content);
    UnescapeEscape(content);
  }

  // ---------------------------------------------------------------------------
  // Events.

  /** One event: the line `data: <payload>` and the blank line that dispatches it. */
  function DataFrame(payload: string): string
  {
    "data: " + payload + "\n\n"
  }

  /** `'data: [DONE]\n\n'`, the sentinel that ends the route's stream. */
  const DoneFrame: string := DataFrame("[DONE]")

  /** One event per payload, in order. */
  function DataFrames(payloads: seq<string>): (frames: seq<string>)
    ensures |frames| == |payloads|
  {
    seq(|payloads|, i requires 0 <= i < |payloads| => DataFrame(payloads[i]))
  }

  /** Index of the first line break of `s`, or `|s|` when it has none. */
  function LineEnd(s: string): (n: nat)
    ensures n <= |s|
    ensures forall i :: 0 <= i < n ==> s[i] != '\n' && s[i] != '\r'
    ensures n < |s| ==> s[n] == '\n' || s[n] == '\r'
  {
    if s == [] || s[0] == '\n' || s[0] == '\r' then 0 else 1 + LineEnd(s[1..])
  }

  /**
   * Reads an event-stream body made only of `data: <value>` lines each
   * followed by a blank line, returning the values in order; `None` for any
   * other shape.
   */
  function ReadEvents(body: string): Option<seq<string>>
    decreases |body|
  {
    if body == [] then Some([])
    else if !StartsWith(body, "data: ") then None
    else
      var rest := body[6..];
      var n := LineEnd(rest);
      if n + 2 <= |rest| && rest[n] == '\n' && rest[n + 1] == '\n' then
        match ReadEvents(rest[n + 2..])
        case Some(vs) => Some([rest[..n]] + vs)
        case None => None
      else None
  }

  /** A single-line payload is read back from its event. */
  lemma ReadOneEvent(payload: string, more: string, vs: seq<string>)
    requires SingleLine(payload)
    requires ReadEvents(more) == Some(vs)
    ensures ReadEvents(DataFrame(payload) + more) == Some([payload] + vs)
  {
    var body := DataFrame(payload) + more;
    assert body[..6] == "data: ";
    var rest := body[6..];
    assert rest == payload + ("\n\n" + more);
    LineEndAt(payload, "\n\n" + more);
    var n := |payload|;
    assert rest[n] == '\n' && rest[n + 1] == '\n';
    assert rest[n + 2..] == more;
    assert rest[..n] == payload;
  }

  lemma LineEndAt(line: string, more: string)
    requires SingleLine(line)
    requires more != [] && more[0] == '\n'
    ensures LineEnd(line + more) == |line|
  {
    if line != [] {
      assert (line + more)[1..] == line[1..] + more;
      LineEndAt(line[1..], more);
    } else {
      assert line + more == more;
    }
  }

  /**
   * Round trip of the framing: the events written for single-line payloads
   * read back as exactly those payloads, in order.
   */
  lemma {:induction false} ReadDataFrames(payloads: seq<string>)
    requires forall i :: 0 <= i < |payloads| ==> SingleLine(payloads[i])
    ensures ReadEvents(Concat(DataFrames(payloads))) == Some(payloads)
  {
    if payloads != [] {
      var frames := DataFrames(payloads);
      assert frames[1..] == DataFrames(payloads[1..]);
      ReadDataFrames(payloads[1..]);
      ReadOneEvent(payloads[0], Concat(frames[1..]), payloads[1..]);
      assert [payloads[0]] + payloads[1..] == payloads;
    }
  }
}
