/**
 * The escapes of the CQ-code message format of OneBot v11. Plain text writes `&` as `&amp;`,
 * `[` as `&#91;` and `]` as `&#93;`; inside a CQ-code parameter `,` is also written `&#44;`.
 * The bot backend (src/core/backend.ts) decodes all four entities before storing a text.
 */
module CqCode {
  import opened JsText

  /** The escape of one character inside a CQ-code parameter. */
  function EscapeChar(c: char): string {
    if c == '&' then "&amp;"
    else if c == '[' then "&#91;"
    else if c == ']' then "&#93;"
    else if c == ',' then "&#44;"
    else [c]
  }

  /** A text as a CQ-code parameter carries it. */
  function Escape(s: string): (r: string)
    ensures '[' !in r && ']' !in r && ',' !in r
    ensures |r| >= |s|
  {
    if s == [] then [] else EscapeChar(s[0]) + Escape(s[1..])
  }

  /**
   * The decoding of src/core/backend.ts:169-170: four `replaceAll` passes, `&amp;` first.
   * A `&` produced by the first pass can start an entity for a later pass.
   */
  function DecodeAsWritten(s: string): string {
    ReplaceAll(ReplaceAll(ReplaceAll(ReplaceAll(s, "&amp;", "&"), "&#91;", "["), "&#93;", "]"), "&#44;", ",")
  }

  /** Decoding in one left-to-right pass: each entity is read once, from the text as received. */
  function Unescape(s: string): string
    decreases |s|
  {
    if "&amp;" <= s then "&" + Unescape(s[5..])
    else if "&#91;" <= s then "[" + Unescape(s[5..])
    else if "&#93;" <= s then "]" + Unescape(s[5..])
    else if "&#44;" <= s then "," + Unescape(s[5..])
    else if s == [] then []
    else [s[0]] + Unescape(s[1..])
  }

  /** The two decodings: the four passes of the bot backend, and the one pass it evidently intends. */
  datatype Decoding = FourPasses | OnePass

  function Decode(d: Decoding, s: string): string {
    match d
    case FourPasses => DecodeAsWritten(s)
    case OnePass => Unescape(s)
  }

  /** Decoding reads one escaped character back and goes on with the rest. */
  lemma UnescapeEscapeChar(c: char, rest: string)
    ensures Unescape(EscapeChar(c) + rest) == [c] + Unescape(rest)
  {
    var e := EscapeChar(c) + rest;
    if c == '&' {
      assert "&amp;" <= e && e[5..] == rest;
    } else if c == '[' {
      assert "&#91;" <= e && e[5..] == rest;
      assert !("&amp;" <= e) by { assert e[1] == '#'; }
    } else if c == ']' {
      assert "&#93;" <= e && e[5..] == rest;
      assert !("&amp;" <= e) by { assert e[1] == '#'; }
      assert !("&#91;" <= e) by { assert e[3] == '3'; }
    } else if c == ',' {
      assert "&#44;" <= e && e[5..] == rest;
      assert !("&amp;" <= e) by { assert e[1] == '#'; }
      assert !("&#91;" <= e) by { assert e[2] == '4'; }
      assert !("&#93;" <= e) by { assert e[2] == '4'; }
    } else {
      assert e[0] == c && e[1..] == rest;
    }
  }

  /** The one-pass decoding undoes the escaping: every text comes back as it was sent. */
  lemma {:induction false} UnescapeEscape(s: string)
    ensures Unescape(Escape(s)) == s
    decreases |s|
  {
    if s != [] {
      UnescapeEscape(s[1..]);
      UnescapeEscapeChar(s[0], Escape(s[1..]));
      assert s == [s[0]] + s[1..];
    }
  }

  /** The escape of one character of plain text: the comma stays as it is. */
  function EscapeTextChar(c: char): string {
    if c == ',' then [c] else EscapeChar(c)
  }

  /** A plain text as the message format carries it. */
  function EscapeText(s: string): (r: string)
    ensures '[' !in r && ']' !in r
    ensures |r| >= |s|
  {
    if s == [] then [] else EscapeTextChar(s[0]) + EscapeText(s[1..])
  }

  /** Decoding reads one escaped plain-text character back and goes on with the rest. */
  lemma UnescapeEscapeTextChar(c: char, rest: string)
    ensures Unescape(EscapeTextChar(c) + rest) == [c] + Unescape(rest)
  {
    if c == ',' {
      var e := EscapeTextChar(c) + rest;
      assert e[0] == c && e[1..] == rest;
    } else {
      UnescapeEscapeChar(c, rest);
    }
  }

  /** The one-pass decoding also undoes the plain-text escaping. */
  lemma {:induction false} UnescapeEscapeText(s: string)
    ensures Unescape(EscapeText(s)) == s
    decreases |s|
  {
    if s != [] {
      UnescapeEscapeText(s[1..]);
      UnescapeEscapeTextChar(s[0], EscapeText(s[1..]));
      assert s == [s[0]] + s[1..];
    }
  }

  /** A text without the first character of the pattern is left alone by `replaceAll`. */
  lemma {:induction false} ReplaceAllWithoutStart(s: string, pat: string, rep: string)
    requires pat != [] && pat[0] !in s
    ensures ReplaceAll(s, pat, rep) == s
    decreases |s|
  {
    if s != [] {
      ReplaceAllWithoutStart(s[1..], pat, rep);
      assert !(pat <= s) by { assert s[0] != pat[0]; }
    }
  }

  /** The escaped form of the text `&#91;`. */
  lemma EscapedEntityText()
    ensures Escape("&#91;") == "&amp;#91;"
  {
    assert Escape("&#91;") == "&amp;" + Escape("#91;");
    assert Escape("#91;") == "#" + Escape("91;");
    assert Escape("91;") == "9" + Escape("1;");
    assert Escape("1;") == "1" + Escape(";");
    assert Escape(";") == ";" + Escape("");
  }

  /**
   * The text `&#91;`, escaped as `&amp;#91;`, is decoded by the four passes to `[`; the
   * one-pass decoding gives the text back.
   */
  lemma DecodeAsWrittenCollapsesEntities()
    ensures Escape("&#91;") == "&amp;#91;"
    ensures DecodeAsWritten(Escape("&#91;")) == "["
    ensures Unescape(Escape("&#91;")) == "&#91;"
  {
    EscapedEntityText();
    var e := "&amp;#91;";
    assert "&amp;" <= e && e[5..] == "#91;";
    ReplaceAllWithoutStart("#91;", "&amp;", "&");
    assert ReplaceAll(e, "&amp;", "&") == "&#91;";
    assert "&#91;"[5..] == "";
    assert ReplaceAll("&#91;", "&#91;", "[") == "[";
    ReplaceAllWithoutStart("[", "&#93;", "]");
    ReplaceAllWithoutStart("[", "&#44;", ",");
    UnescapeEscape("&#91;");
  }
}
