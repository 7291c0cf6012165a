/** `json.dumps` with its default settings (separators `", "` and `": "`, non-ASCII
    characters escaped), and a decoder for the JSON arrays of strings it writes. */
module JsonText {
  import opened Wrappers
  import opened Numerals
  import opened Json
  import opened Utf8

  const BACKSPACE: char := 8 as char
  const FORM_FEED: char := 12 as char

  function Hex4(n: nat): (s: string)
    requires n < 0x10000
    ensures |s| == 4
  {
    Fixed(n, 16, 4)
  }

  /** How `dumps` writes one character inside a string literal: the quote, the
      backslash and five control characters get short escapes, the printable ASCII
      range stands for itself, any other character becomes `\uXXXX` (a surrogate
      pair beyond the Basic Multilingual Plane). */
  function EscapeChar(c: char): string
  {
    if c == '"' then "\\\""
    else if c == '\\' then "\\\\"
    else if c == '\n' then "\\n"
    else if c == '\r' then "\\r"
    else if c == '\t' then "\\t"
    else if c == BACKSPACE then "\\b"
    else if c == FORM_FEED then "\\f"
    else if ' ' <= c <= '~' then [c]
    else if c as int < 0x10000 then "\\u" + Hex4(c as int)
    else
      var n := c as int - 0x10000;
      "\\u" + Hex4(0xD800 + n / 0x400) + "\\u" + Hex4(0xDC00 + n % 0x400)
  }

  function Escape(s: string): string
  {
    if s == [] then [] else EscapeChar(s[0]) + Escape(s[1..])
  }

  /** Printable ASCII other than the quote and the backslash. */
  predicate IsPlain(s: string) {
    forall i :: 0 <= i < |s| ==> ' ' <= s[i] <= '~' && s[i] != '"' && s[i] != '\\'
  }

  /** A plain string is written as it is. */
  lemma {:induction false} EscapePlain(s: string)
    requires IsPlain(s)
    ensures Escape(s) == s
  {
    if s != [] {
      assert IsPlain(s[1..]) by {
        assert forall i :: 0 <= i < |s| - 1 ==> s[1..][i] == s[i + 1];
      }
      EscapePlain(s[1..]);
      assert [s[0]] + s[1..] == s;
    }
  }

  /** A string literal. */
  function Quote(s: string): string
  {
    "\"" + Escape(s) + "\""
  }

  function JoinWith(parts: seq<string>, sep: string): string
  {
    if parts == [] then []
    else if |parts| == 1 then parts[0]
    else parts[0] + sep + JoinWith(parts[1..], sep)
  }

  /** `json.dumps(v)`. */
  function Dumps(v: Value): string
    decreases v
  {
    match v
    case Null => "null"
    case Bool(b) => if b then "true" else "false"
    case Int(i) => IntToString(i)
    case Float(t) => t
    case Str(s) => Quote(s)
    case Arr(items) =>
      "[" + JoinWith(seq(|items|, k requires 0 <= k < |items| => Dumps(items[k])), ", ") + "]"
    case Obj(fields) =>
      "{" + JoinWith(seq(|fields|, k requires 0 <= k < |fields| =>
        Quote(fields[k].key) + ": " + Dumps(fields[k].value)), ", ") + "}"
  }

  // Reading back what dumps writes: a decoder for string literals (the escapes of
  // the JSON grammar, surrogate pairs combined) and for arrays of strings.

  /** Decodes one character of a string literal's body, escaped or not; a raw
      control character is rejected, as the strict decoder does. */
  function DecodeChar(s: string): (r: Option<(char, string)>)
    requires s != []
    ensures r.Some? ==> |r.value.1| < |s|
  {
    if s[0] != '\\' then
      if s[0] < ' ' then None else Some((s[0], s[1..]))
    else if |s| < 2 then None
    else
      var e := s[1];
      if e == '"' then Some(('"', s[2..]))
      else if e == '\\' then Some(('\\', s[2..]))
      else if e == '/' then Some(('/', s[2..]))
      else if e == 'b' then Some((BACKSPACE, s[2..]))
      else if e == 'f' then Some((FORM_FEED, s[2..]))
      else if e == 'n' then Some(('\n', s[2..]))
      else if e == 'r' then Some(('\r', s[2..]))
      else if e == 't' then Some(('\t', s[2..]))
      else if e == 'u' then DecodeUnicode(s[2..])
      else None
  }

  /** Decodes the four hex digits after `\u`, and a low surrogate escape after a high one. */
  function DecodeUnicode(s: string): (r: Option<(char, string)>)
    ensures r.Some? ==> |r.value.1| <= |s| - 4
  {
    if |s| < 4 then None
    else match ValueOf(s[..4], 16)
      case None => None
      case Some(high) =>
        ValueOfBelow(s[..4], 16);
        assert Pow(16, 4) == 0x10000;
        if 0xD800 <= high < 0xDC00 then
          if |s| >= 10 && s[4] == '\\' && s[5] == 'u' then
            match ValueOf(s[6..10], 16)
            case Some(low) =>
              if 0xDC00 <= low < 0xE000 then
                Some(((0x10000 + (high - 0xD800) * 0x400 + (low - 0xDC00)) as char, s[10..]))
              else None
            case None => None
          else None
        else if 0xDC00 <= high < 0xE000 then None
        else Some((high as char, s[4..]))
  }

  /** Decodes a string literal's body up to its closing quote; gives the string and
      what follows the quote. */
  function Unquote(s: string): (r: Option<(string, string)>)
    ensures r.Some? ==> |r.value.1| < |s|
    decreases |s|
  {
    if s == [] then None
    else if s[0] == '"' then Some(([], s[1..]))
    else match DecodeChar(s)
      case None => None
      case Some((c, rest)) =>
        match Unquote(rest)
        case None => None
        case Some((t, after)) => Some(([c] + t, after))
  }

  /** The string literals of an array, after its `[`, separated by `", "`, up to the closing `]`. */
  function DecodeItems(s: string): Option<seq<string>>
    decreases |s|
  {
    if s == [] || s[0] != '"' then None
    else match Unquote(s[1..])
      case None => None
      case Some((x, rest)) =>
        if rest == "]" then Some([x])
        else if |rest| >= 2 && rest[..2] == ", " then
          match DecodeItems(rest[2..])
          case None => None
          case Some(xs) => Some([x] + xs)
        else None
  }

  /** `json.loads(t)` for the text of a JSON array of strings, as `dumps` writes one. */
  function LoadStringArray(t: string): Option<seq<string>>
  {
    if t == "[]" then Some([])
    else if |t| >= 1 && t[0] == '[' then DecodeItems(t[1..])
    else None
  }

  function Strs(names: seq<string>): (vs: seq<Value>)
    ensures |vs| == |names|
    ensures forall k :: 0 <= k < |names| ==> vs[k] == Str(names[k])
  {
    seq(|names|, k requires 0 <= k < |names| => Str(names[k]))
  }

  lemma Hex4RoundTrip(n: nat)
    requires n < 0x10000
    ensures ValueOf(Hex4(n), 16) == Some(n)
  {
    assert Pow(16, 4) == 0x10000;
    FixedRoundTrip(n, 16, 4);
  }

  /** Decoding an escaped character gives the character back and leaves the rest alone. */
  lemma DecodeEscapeChar(c: char, rest: string)
    ensures DecodeChar(EscapeChar(c) + rest) == Some((c, rest))
  {
    if c == '"' || c == '\\' || c == '\n' || c == '\r' || c == '\t' || c == BACKSPACE || c == FORM_FEED {
      DecodeShortEscape(c, rest);
    } else if ' ' <= c <= '~' {
      assert (EscapeChar(c) + rest)[1..] == rest;
    } else if c as int < 0x10000 {
      DecodeBmpEscape(c, rest);
    } else {
      DecodeSurrogatePair(c, rest);
    }
  }

  lemma DecodeShortEscape(c: char, rest: string)
    requires c == '"' || c == '\\' || c == '\n' || c == '\r' || c == '\t' || c == BACKSPACE || c == FORM_FEED
    ensures DecodeChar(EscapeChar(c) + rest) == Some((c, rest))
  {
    assert |EscapeChar(c)| == 2;
    assert (EscapeChar(c) + rest)[2..] == rest;
  }

  lemma DecodeBmpEscape(c: char, rest: string)
    requires !(' ' <= c <= '~') && c as int < 0x10000
    requires c != '\n' && c != '\r' && c != '\t' && c != BACKSPACE && c != FORM_FEED
    ensures DecodeChar(EscapeChar(c) + rest) == Some((c, rest))
  {
    var h := Hex4(c as int);
    BmpEscapeShape(c);
    DecodeBmpText(h, rest);
    DecodeBmpValue(c, rest);
  }

  lemma DecodeBmpText(h: string, rest: string)
    ensures DecodeChar("\\u" + h + rest) == DecodeUnicode(h + rest)
  {
    assert ("\\u" + h + rest)[2..] == h + rest;
  }

  lemma BmpEscapeShape(c: char)
    requires !(' ' <= c <= '~') && c as int < 0x10000
    requires c != '\n' && c != '\r' && c != '\t' && c != BACKSPACE && c != FORM_FEED
    ensures EscapeChar(c) == "\\u" + Hex4(c as int)
  {
    assert c != '"' && c != '\\';
  }

  lemma DecodeBmpValue(c: char, rest: string)
    requires c as int < 0x10000
    ensures DecodeUnicode(Hex4(c as int) + rest) == Some((c, rest))
  {
    var h := Hex4(c as int);
    var u := h + rest;
    assert u[..4] == h && u[4..] == rest;
    Hex4RoundTrip(c as int);
  }

  lemma DecodeSurrogatePair(c: char, rest: string)
    requires c as int >= 0x10000
    ensures DecodeChar(EscapeChar(c) + rest) == Some((c, rest))
  {
    var n := c as int - 0x10000;
    var h1, h2 := Hex4(0xD800 + n / 0x400), Hex4(0xDC00 + n % 0x400);
    PairEscapeShape(c);
    DecodePairEscape(h1, h2, rest);
    DecodePairValue(c, rest);
  }

  lemma PairEscapeShape(c: char)
    requires c as int >= 0x10000
    ensures var n := c as int - 0x10000;
      EscapeChar(c) == "\\u" + Hex4(0xD800 + n / 0x400) + "\\u" + Hex4(0xDC00 + n % 0x400)
  {
    assert c != '"' && c != '\\' && c != '\n' && c != '\r' && c != '\t' && c != BACKSPACE && c != FORM_FEED;
    assert !(' ' <= c <= '~') && !(c as int < 0x10000);
  }

  lemma DecodePairEscape(h1: string, h2: string, rest: string)
    ensures DecodeChar("\\u" + h1 + "\\u" + h2 + rest) == DecodeUnicode(h1 + "\\u" + h2 + rest)
  {
    assert ("\\u" + h1 + "\\u" + h2 + rest)[2..] == h1 + "\\u" + h2 + rest;
  }

  /** The digits of a surrogate pair's two escapes decode to the character. */
  lemma DecodePairValue(c: char, rest: string)
    requires c as int >= 0x10000
    ensures var n := c as int - 0x10000;
      DecodeUnicode(Hex4(0xD800 + n / 0x400) + "\\u" + Hex4(0xDC00 + n % 0x400) + rest) == Some((c, rest))
  {
    var n := c as int - 0x10000;
    PairHalves(n);
    DecodePairDigits(0xD800 + n / 0x400, 0xDC00 + n % 0x400, rest);
  }

  /** The two halves of a surrogate pair are in their ranges and recombine to `n`. */
  lemma PairHalves(n: int)
    requires 0 <= n < 0x100000
    ensures var high, low := 0xD800 + n / 0x400, 0xDC00 + n % 0x400;
      && 0xD800 <= high < 0xDC00 && 0xDC00 <= low < 0xE000
      && (high - 0xD800) * 0x400 + (low - 0xDC00) == n
  {
  }

  lemma DecodePairDigits(high: nat, low: nat, rest: string)
    requires 0xD800 <= high < 0xDC00 && 0xDC00 <= low < 0xE000
    ensures DecodeUnicode(Hex4(high) + "\\u" + Hex4(low) + rest) ==
      Some(((0x10000 + (high - 0xD800) * 0x400 + (low - 0xDC00)) as char, rest))
  {
    var u := Hex4(high) + "\\u" + Hex4(low) + rest;
    assert u[..4] == Hex4(high) && u[4] == '\\' && u[5] == 'u';
    assert u[6..10] == Hex4(low) && u[10..] == rest;
    Hex4RoundTrip(high);
    Hex4RoundTrip(low);
  }

  /** A string literal's body decodes to the string it escapes. */
  lemma {:induction false} UnquoteEscape(s: string, rest: string)
    ensures Unquote(Escape(s) + "\"" + rest) == Some((s, rest))
    decreases |s|
  {
    if s == [] {
      assert Escape(s) + "\"" + rest == "\"" + rest;
    } else {
      var tail := Escape(s[1..]) + "\"" + rest;
      assert Escape(s) + "\"" + rest == EscapeChar(s[0]) + tail;
      DecodeEscapeChar(s[0], tail);
      EscapeCharHead(s[0]);
      UnquoteEscape(s[1..], rest);
      UnquoteStep(EscapeChar(s[0]), s[0], tail, s[1..], rest);
      assert [s[0]] + s[1..] == s;
    }
  }

  lemma EscapeCharHead(c: char)
    ensures EscapeChar(c) != [] && EscapeChar(c)[0] != '"'
  {
  }

  /** A character that decodes, followed by a body that does, gives the string with it in front. */
  lemma UnquoteStep(e: string, c: char, tail: string, t: string, after: string)
    requires e != [] && e[0] != '"'
    requires DecodeChar(e + tail) == Some((c, tail))
    requires Unquote(tail) == Some((t, after))
    ensures Unquote(e + tail) == Some(([c] + t, after))
  {
  }

  lemma {:induction false} DecodeItemsRoundTrip(names: seq<string>)
    requires names != []
    ensures DecodeItems(JoinWith(QuoteAll(names), ", ") + "]") == Some(names)
    decreases |names|
  {
    var q := QuoteAll(names);
    if |names| == 1 {
      assert JoinWith(q, ", ") == Quote(names[0]);
      DecodeLastItem(names[0]);
      assert [names[0]] == names;
    } else {
      var more := JoinWith(q[1..], ", ") + "]";
      assert q[1..] == QuoteAll(names[1..]);
      assert JoinWith(q, ", ") + "]" == Quote(names[0]) + (", " + more);
      DecodeItemsRoundTrip(names[1..]);
      DecodeNextItem(names[0], more);
      assert [names[0]] + names[1..] == names;
    }
  }

  lemma DecodeLastItem(x: string)
    ensures DecodeItems(Quote(x) + "]") == Some([x])
  {
    var t := Quote(x) + "]";
    assert t[1..] == Escape(x) + "\"" + "]";
    UnquoteEscape(x, "]");
  }

  lemma DecodeNextItem(x: string, more: string)
    requires DecodeItems(more).Some?
    ensures DecodeItems(Quote(x) + (", " + more)) == Some([x] + DecodeItems(more).value)
  {
    var tail := ", " + more;
    QuotedHead(x, tail);
    UnquoteEscape(x, tail);
    DecodeItemsCons(Quote(x) + tail, x, more);
  }

  /** A literal followed by `", "` and more items decodes to its string in front of them. */
  lemma DecodeItemsCons(s: string, x: string, more: string)
    requires s != [] && s[0] == '"' && Unquote(s[1..]) == Some((x, ", " + more))
    requires DecodeItems(more).Some?
    ensures DecodeItems(s) == Some([x] + DecodeItems(more).value)
  {
    var rest := ", " + more;
    assert rest[..2] == ", " && rest[2..] == more;
    assert rest != "]";
  }

  /** A quoted string followed by anything starts with a quote, then the escaped text. */
  lemma QuotedHead(x: string, tail: string)
    ensures (Quote(x) + tail)[0] == '"'
    ensures (Quote(x) + tail)[1..] == Escape(x) + "\"" + tail
  {
    QuoteShape(Escape(x), tail);
  }

  lemma QuoteShape(e: string, tail: string)
    ensures ("\"" + e + "\"" + tail)[0] == '"'
    ensures ("\"" + e + "\"" + tail)[1..] == e + "\"" + tail
  {
    assert "\"" + e + "\"" + tail == "\"" + (e + "\"" + tail);
  }

  function QuoteAll(names: seq<string>): (q: seq<string>)
    ensures |q| == |names|
    ensures forall k :: 0 <= k < |names| ==> q[k] == Quote(names[k])
  {
    seq(|names|, k requires 0 <= k < |names| => Quote(names[k]))
  }

  /** What `json.dumps` writes for a list of names reads back as that list. */
  lemma StringArrayRoundTrip(names: seq<string>)
    ensures LoadStringArray(Dumps(Arr(Strs(names)))) == Some(names)
  {
    var items := Strs(names);
    var parts := seq(|items|, k requires 0 <= k < |items| => Dumps(items[k]));
    assert parts == QuoteAll(names);
    var t := Dumps(Arr(items));
    assert t == "[" + JoinWith(QuoteAll(names), ", ") + "]";
    if names != [] {
      DecodeItemsRoundTrip(names);
      assert t[1..] == JoinWith(QuoteAll(names), ", ") + "]";
      assert t != "[]" by {
        assert t[1] == '"';
      }
    }
  }

  // dumps writes ASCII only, so its UTF-8 encoding is one byte per character.

  /** The float texts inside `v` are ASCII (as every text `repr` gives a float is). */
  predicate FloatsAscii(v: Value)
    decreases v
  {
    match v
    case Float(t) => IsAscii(t)
    case Arr(items) => forall k :: 0 <= k < |items| ==> FloatsAscii(items[k])
    case Obj(fields) => forall k :: 0 <= k < |fields| ==> FloatsAscii(fields[k].value)
    case _ => true
  }

  lemma ConcatAscii(a: string, b: string)
    requires IsAscii(a) && IsAscii(b)
    ensures IsAscii(a + b)
  {
    assert forall i :: |a| <= i < |a + b| ==> (a + b)[i] == b[i - |a|];
  }

  lemma UnicodeEscapeAscii(n: nat)
    requires n < 0x10000
    ensures IsAscii("\\u" + Hex4(n))
  {
    var h := Hex4(n);
    forall i | 0 <= i < |h| ensures h[i] as int < 0x80 {
      assert IsDigitIn(h[i], 16);
    }
    ConcatAscii("\\u", h);
  }

  lemma EscapeCharAscii(c: char)
    ensures IsAscii(EscapeChar(c))
  {
    if c == '"' || c == '\\' || c == '\n' || c == '\r' || c == '\t' || c == BACKSPACE || c == FORM_FEED {
      ShortEscapeAscii(c);
    } else if ' ' <= c <= '~' {
    } else if c as int < 0x10000 {
      UnicodeEscapeAscii(c as int);
    } else {
      PairEscapeAscii(c);
    }
  }

  lemma ShortEscapeAscii(c: char)
    requires c == '"' || c == '\\' || c == '\n' || c == '\r' || c == '\t' || c == BACKSPACE || c == FORM_FEED
    ensures IsAscii(EscapeChar(c))
  {
    var e := EscapeChar(c);
    assert |e| == 2 && e[0] == '\\';
  }

  lemma PairEscapeAscii(c: char)
    requires c as int >= 0x10000
    ensures IsAscii(EscapeChar(c))
  {
    var n := c as int - 0x10000;
    var high, low := 0xD800 + n / 0x400, 0xDC00 + n % 0x400;
    PairEscapeText(c);
    UnicodeEscapeAscii(high);
    UnicodeEscapeAscii(low);
    ConcatAscii("\\u" + Hex4(high), "\\u" + Hex4(low));
  }

  lemma PairEscapeText(c: char)
    requires c as int >= 0x10000
    ensures var n := c as int - 0x10000;
      EscapeChar(c) == ("\\u" + Hex4(0xD800 + n / 0x400)) + ("\\u" + Hex4(0xDC00 + n % 0x400))
  {
    assert c != '"' && c != '\\' && c != '\n' && c != '\r' && c != '\t' && c != BACKSPACE && c != FORM_FEED;
    assert !(' ' <= c <= '~') && !(c as int < 0x10000);
  }

  lemma {:induction false} EscapeAscii(s: string)
    ensures IsAscii(Escape(s))
  {
    if s != [] {
      EscapeCharAscii(s[0]);
      EscapeAscii(s[1..]);
      ConcatAscii(EscapeChar(s[0]), Escape(s[1..]));
    }
  }

  lemma QuoteAscii(s: string)
    ensures IsAscii(Quote(s))
  {
    EscapeAscii(s);
    ConcatAscii("\"", Escape(s));
    ConcatAscii("\"" + Escape(s), "\"");
  }

  lemma {:induction false} JoinAscii(parts: seq<string>, sep: string)
    requires IsAscii(sep) && forall k :: 0 <= k < |parts| ==> IsAscii(parts[k])
    ensures IsAscii(JoinWith(parts, sep))
  {
    if |parts| > 1 {
      JoinAscii(parts[1..], sep);
      ConcatAscii(parts[0], sep);
      ConcatAscii(parts[0] + sep, JoinWith(parts[1..], sep));
    }
  }

  lemma {:induction false} DumpsAscii(v: Value)
    requires FloatsAscii(v)
    ensures IsAscii(Dumps(v))
    decreases v
  {
    match v
    case Null =>
    case Bool(b) =>
    case Int(i) =>
      if i < 0 { ConcatAscii("-", Decimal(-i)); }
    case Float(t) =>
    case Str(s) => QuoteAscii(s);
    case Arr(items) =>
      var parts := seq(|items|, k requires 0 <= k < |items| => Dumps(items[k]));
      forall k | 0 <= k < |items| ensures IsAscii(parts[k]) {
        DumpsAscii(items[k]);
      }
      JoinAscii(parts, ", ");
      ConcatAscii("[", JoinWith(parts, ", "));
      ConcatAscii("[" + JoinWith(parts, ", "), "]");
    case Obj(fields) =>
      var parts := seq(|fields|, k requires 0 <= k < |fields| =>
        Quote(fields[k].key) + ": " + Dumps(fields[k].value));
      forall k | 0 <= k < |fields| ensures IsAscii(parts[k]) {
        DumpsAscii(fields[k].value);
        QuoteAscii(fields[k].key);
        ConcatAscii(Quote(fields[k].key), ": ");
        ConcatAscii(Quote(fields[k].key) + ": ", Dumps(fields[k].value));
      }
      JoinAscii(parts, ", ");
      ConcatAscii("{", JoinWith(parts, ", "));
      ConcatAscii("{" + JoinWith(parts, ", "), "}");
  }
}
