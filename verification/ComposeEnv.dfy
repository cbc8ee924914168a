/** The Compose dotenv value printer and parser of `scripts/compose_env.py`. */
module ComposeEnv {
  import opened Text

  // ---------- printing ----------

  /** `s.replace(c, r)` for a one-character pattern. */
  function ReplaceChar(s: string, c: char, r: string): string {
    if s == "" then ""
    else (if s[0] == c then r else [s[0]]) + ReplaceChar(s[1..], c, r)
  }

  /** Whether `\s+#` occurs anywhere in `s`. */
  predicate HasSpaceHash(s: string) {
    exists i :: 0 <= i < |s| - 1 && IsSpace(s[i]) && s[i + 1] == '#'
  }

  predicate IsQuote(c: char) { c == '\'' || c == '"' }

  predicate NeedsQuotes(value: string) {
    || value != Strip(value)
    || (value != "" && IsQuote(value[0]))
    || '$' in value
    || HasSpaceHash(value)
  }

  function Escaped(value: string): string {
    ReplaceChar(ReplaceChar(ReplaceChar(value, '\\', "\\\\"), '"', "\\\""), '$', "$$")
  }

  /** `compose_env_literal`. */
  function Literal(value: string): string {
    if NeedsQuotes(value) then "\"" + Escaped(value) + "\"" else value
  }

  // ---------- parsing, as functions ----------

  function Unescape(s: string): string {
    if s == "" then ""
    else if s[0] != '\\' then [s[0]] + Unescape(s[1..])
    else if |s| == 1 then "\\"
    else if s[1] == '"' || s[1] == '\\' then [s[1]] + Unescape(s[2..])
    else ['\\', s[1]] + Unescape(s[2..])
  }

  /** `s.replace("$$", "$")`: left to right, without overlap. */
  function CollapseDollars(s: string): string {
    if |s| < 2 then s
    else if s[0] == '$' && s[1] == '$' then "$" + CollapseDollars(s[2..])
    else [s[0]] + CollapseDollars(s[1..])
  }

  function Decode(s: string): string { CollapseDollars(Unescape(s)) }

  /** Index of the first unescaped `quote` from `i` on; the length when there is none. */
  function CloseAt(s: string, quote: char, i: nat, escaped: bool): (k: nat)
    requires i <= |s|
    ensures i <= k <= |s|
    decreases |s| - i
  {
    if i == |s| then i
    else if quote == '"' && escaped then CloseAt(s, quote, i + 1, false)
    else if quote == '"' && s[i] == '\\' then CloseAt(s, quote, i + 1, true)
    else if s[i] == quote then i
    else CloseAt(s, quote, i + 1, escaped)
  }

  predicate IsBlank(c: char) { c == ' ' || c == '\t' }

  /** Whether `[ \t]+#` matches at the start of `s`. */
  predicate BlankHash(s: string) {
    |s| >= 2 && IsBlank(s[0]) && (s[1] == '#' || BlankHash(s[1..]))
  }

  /** Start of the leftmost `[ \t]+#` from `i` on; the length when there is none. */
  function CommentAt(s: string, i: nat): (k: nat)
    requires i <= |s|
    ensures i <= k <= |s|
    decreases |s| - i
  {
    if i == |s| then i else if BlankHash(s[i..]) then i else CommentAt(s, i + 1)
  }

  lemma {:induction false} CommentAtIsLeftmost(s: string, i: nat, j: nat)
    requires i <= j < |s|
    ensures j < CommentAt(s, i) ==> !BlankHash(s[j..])
    ensures j == CommentAt(s, i) ==> BlankHash(s[j..])
    decreases |s| - i
  {
    if !BlankHash(s[i..]) && i < j { CommentAtIsLeftmost(s, i + 1, j); }
  }

  predicate OnlyComment(suffix: string) {
    var rest := LStrip(suffix);
    rest == "" || rest[0] == '#'
  }

  /** `compose_env_value`. */
  function Value(raw: string): string {
    var value := Strip(raw);
    if value != "" && IsQuote(value[0]) then QuotedValue(value) else PlainValue(value)
  }

  function QuotedValue(value: string): string
    requires value != ""
  {
    var k := CloseAt(value, value[0], 1, false);
    if k < |value| && OnlyComment(value[k + 1..]) then
      (if value[0] == '"' then Decode(value[1..k]) else value[1..k])
    else value
  }

  function PlainValue(value: string): string {
    var k := CommentAt(value, 0);
    if k < |value| then RStrip(value[..k]) else value
  }

  // ---------- parsing, as the loops of the source ----------

  /** What is left to decode when the scan stands before `rest`. */
  ghost function Pending(escaped: bool, rest: string): string {
    if escaped then "\\" + rest else rest
  }

  /** What one character of the scan appends. */
  ghost function Emitted(escaped: bool, c: char): string {
    if escaped then (if c == '"' || c == '\\' then [c] else ['\\', c])
    else if c == '\\' then ""
    else [c]
  }

  lemma PendingStep(escaped: bool, c: char, rest: string)
    ensures Unescape(Pending(escaped, [c] + rest))
         == Emitted(escaped, c) + Unescape(Pending(!escaped && c == '\\', rest))
  {
    var pending := Pending(escaped, [c] + rest);
    if escaped {
      assert pending[2..] == rest;
    } else if c == '\\' {
      assert pending == Pending(true, rest);
    } else {
      assert pending[1..] == rest;
    }
  }

  lemma DecodeStep(value: string, i: nat, before: string, flag: bool, after: string, flag': bool)
    requires i < |value|
    requires before + Unescape(Pending(flag, value[i..])) == Unescape(value)
    requires after == before + Emitted(flag, value[i]) && flag' == (!flag && value[i] == '\\')
    ensures after + Unescape(Pending(flag', value[i + 1..])) == Unescape(value)
  {
    var out, rest := Emitted(flag, value[i]), value[i + 1..];
    assert value[i..] == [value[i]] + rest;
    PendingStep(flag, value[i], rest);
    assert Unescape(Pending(flag, value[i..])) == out + Unescape(Pending(flag', rest));
    Regroup(before, out, Unescape(Pending(flag', rest)));
  }

  lemma Regroup(a: string, b: string, c: string)
    ensures a + (b + c) == a + b + c
  {
  }

  /** `_decode_double_quoted`: one pass with an `escaped` flag, then the dollar replacement. */
  method DecodeDoubleQuoted(value: string) returns (result: string)
    ensures result == Decode(value)
  {
    var decoded := "";
    var escaped := false;
    for i := 0 to |value|
      invariant decoded + Unescape(Pending(escaped, value[i..])) == Unescape(value)
    {
      var character := value[i];
      ghost var before, flag := decoded, escaped;
      if escaped {
        if character == '"' || character == '\\' {
          decoded := decoded + [character];
        } else {
          decoded := decoded + ['\\', character];
        }
        escaped := false;
      } else if character == '\\' {
        escaped := true;
      } else {
        decoded := decoded + [character];
      }
      DecodeStep(value, i, before, flag, decoded, escaped);
    }
    assert value[|value|..] == "";
    assert Unescape("\\") == "\\" && Unescape("") == "";
    if escaped {
      assert Pending(true, "") == "\\";
      decoded := decoded + "\\";
    } else {
      assert decoded + "" == decoded;
    }
    result := CollapseDollars(decoded);
  }

  /** `compose_env_value`: the index scan for the closing quote, then the two exits. */
  method ComposeEnvValue(raw: string) returns (result: string)
    ensures result == Value(raw)
  {
    var value := Strip(raw);
    if value != "" && IsQuote(value[0]) {
      var quote := value[0];
      var escaped := false;
      var index := 1;
      while index < |value|
        invariant 1 <= index <= |value|
        invariant CloseAt(value, quote, index, escaped) == CloseAt(value, quote, 1, false)
      {
        var character := value[index];
        if quote == '"' && escaped {
          escaped := false;
        } else if quote == '"' && character == '\\' {
          escaped := true;
        } else if character == quote {
          var suffix := LStrip(value[index + 1..]);
          if suffix == "" || suffix[0] == '#' {
            var quoted := value[1..index];
            if quote == '"' {
              result := DecodeDoubleQuoted(quoted);
            } else {
              result := quoted;
            }
            return;
          }
          break;
        }
        index := index + 1;
      }
      return value;
    }
    var comment := CommentAt(value, 0);
    if comment < |value| {
      value := RStrip(value[..comment]);
    }
    return value;
  }

  // ---------- the escape of one character ----------

  function EscapeChar(c: char): (e: string)
    ensures 1 <= |e| <= 2
  {
    if c == '\\' then "\\\\" else if c == '"' then "\\\"" else if c == '$' then "$$" else [c]
  }

  function EscapeAll(v: string): string {
    if v == "" then "" else EscapeChar(v[0]) + EscapeAll(v[1..])
  }

  lemma {:induction false} ReplaceCharAppend(s: string, t: string, c: char, r: string)
    ensures ReplaceChar(s + t, c, r) == ReplaceChar(s, c, r) + ReplaceChar(t, c, r)
  {
    if s == "" {
      assert s + t == t;
    } else {
      assert (s + t)[1..] == s[1..] + t;
      ReplaceCharAppend(s[1..], t, c, r);
    }
  }

  lemma {:induction false} ReplacePair(a: char, b: char, c: char, r: string)
    ensures ReplaceChar([a], c, r) == if a == c then r else [a]
    ensures ReplaceChar([a, b], c, r) == (if a == c then r else [a]) + (if b == c then r else [b])
  {
    assert [a, b][1..] == [b];
    assert [a][1..] == "";
    assert [b][1..] == "";
  }

  /** The three successive replacements act character by character: none rewrites another's output. */
  lemma {:induction false} EscapedIsEscapeAll(v: string)
    ensures Escaped(v) == EscapeAll(v)
  {
    if v != "" {
      var c := v[0];
      var rest := v[1..];
      EscapedIsEscapeAll(rest);
      var one := if c == '\\' then "\\\\" else [c];
      var two := if c == '"' then "\\\"" else one;
      assert ReplaceChar(v, '\\', "\\\\") == one + ReplaceChar(rest, '\\', "\\\\");
      ReplaceCharAppend(one, ReplaceChar(rest, '\\', "\\\\"), '"', "\\\"");
      ReplacePair(c, c, '"', "\\\"");
      assert ReplaceChar(one, '"', "\\\"") == two;
      ReplaceCharAppend(two, ReplaceChar(ReplaceChar(rest, '\\', "\\\\"), '"', "\\\""), '$', "$$");
      ReplacePair(c, c, '$', "$$");
      ReplacePair('\\', '"', '$', "$$");
      assert ReplaceChar(two, '$', "$$") == EscapeChar(c);
    }
  }

  // ---------- the quoted form ----------

  function DoubleDollars(v: string): string {
    if v == "" then "" else (if v[0] == '$' then "$$" else [v[0]]) + DoubleDollars(v[1..])
  }

  lemma {:induction false} UnescapeEscapeAll(v: string)
    ensures Unescape(EscapeAll(v)) == DoubleDollars(v)
  {
    if v != "" {
      UnescapeEscapeAll(v[1..]);
      var e := EscapeAll(v);
      var tail := EscapeAll(v[1..]);
      if v[0] == '\\' || v[0] == '"' {
        assert e[2..] == tail;
      } else if v[0] == '$' {
        assert e[1..] == "$" + tail;
        assert e[1..][1..] == tail;
        assert Unescape(e) == "$" + ("$" + Unescape(tail));
      } else {
        assert e[1..] == tail;
      }
    }
  }

  lemma {:induction false} CollapseDoubled(v: string)
    ensures CollapseDollars(DoubleDollars(v)) == v
  {
    if v != "" {
      CollapseDoubled(v[1..]);
      var d := DoubleDollars(v);
      var tail := DoubleDollars(v[1..]);
      if v[0] == '$' {
        assert d[2..] == tail;
      } else {
        assert d[1..] == tail;
        if |d| < 2 {
          assert tail == "";
        }
      }
    }
  }

  /** Escaping undone by the decoder, for every string. */
  lemma DecodeEscaped(v: string)
    ensures Decode(Escaped(v)) == v
  {
    EscapedIsEscapeAll(v);
    UnescapeEscapeAll(v);
    CollapseDoubled(v);
  }

  lemma CloseAtPassesChar(s: string, i: nat, c: char)
    requires i + |EscapeChar(c)| <= |s| && s[i..i + |EscapeChar(c)|] == EscapeChar(c)
    ensures CloseAt(s, '"', i, false) == CloseAt(s, '"', i + |EscapeChar(c)|, false)
  {
    var e := EscapeChar(c);
    assert s[i] == s[i..i + |e|][0];
    if |e| == 2 {
      assert s[i + 1] == s[i..i + |e|][1];
    }
  }

  /** The scan runs over a whole escaped text, whatever precedes and follows it, and stops behind it. */
  lemma {:induction false} CloseAtSkipsEscaped(s: string, i: nat, v: string)
    requires i + |EscapeAll(v)| < |s|
    requires s[i..i + |EscapeAll(v)|] == EscapeAll(v)
    requires s[i + |EscapeAll(v)|] == '"'
    ensures CloseAt(s, '"', i, false) == i + |EscapeAll(v)|
    decreases |v|
  {
    if v != "" {
      var e, n := EscapeChar(v[0]), |EscapeAll(v)|;
      assert s[i..i + |e|] == s[i..i + n][..|e|] == e;
      assert s[i + |e|..i + n] == s[i..i + n][|e|..] == EscapeAll(v[1..]);
      CloseAtSkipsEscaped(s, i + |e|, v[1..]);
      CloseAtPassesChar(s, i, v[0]);
    }
  }

  /** A body that closes where it ends is decoded, whatever comment follows. */
  lemma {:induction false} QuotedBody(e: string, suffix: string)
    requires OnlyComment(suffix)
    requires CloseAt("\"" + e + "\"" + suffix, '"', 1, false) == 1 + |e|
    ensures QuotedValue("\"" + e + "\"" + suffix) == Decode(e)
  {
    var s := "\"" + e + "\"" + suffix;
    assert s[1..1 + |e|] == e && s[2 + |e|..] == suffix;
  }

  lemma QuotedThenSuffix(v: string, suffix: string)
    requires OnlyComment(suffix)
    requires suffix != "" ==> !IsSpace(suffix[|suffix| - 1])
    ensures Value("\"" + Escaped(v) + "\"" + suffix) == v
  {
    var e := Escaped(v);
    var s := "\"" + e + "\"" + suffix;
    assert Strip(s) == s by {
      StripPadded("", s, "");
      assert "" + s + "" == s;
    }
    assert CloseAt(s, '"', 1, false) == 1 + |e| by {
      EscapedIsEscapeAll(v);
      assert s[1..1 + |e|] == e;
      CloseAtSkipsEscaped(s, 1, v);
    }
    QuotedBody(e, suffix);
    DecodeEscaped(v);
  }

  // ---------- the plain form ----------

  lemma {:induction false} BlankHashIsSpaceHash(s: string)
    requires BlankHash(s)
    ensures HasSpaceHash(s)
  {
    if s[1] == '#' {
      assert IsSpace(s[0]);
    } else {
      BlankHashIsSpaceHash(s[1..]);
      var i :| 0 <= i < |s[1..]| - 1 && IsSpace(s[1..][i]) && s[1..][i + 1] == '#';
      assert IsSpace(s[i + 1]) && s[i + 1 + 1] == '#';
    }
  }

  lemma SpaceHashInSuffix(v: string, k: nat)
    requires k <= |v| && HasSpaceHash(v[k..])
    ensures HasSpaceHash(v)
  {
    var t := v[k..];
    var i :| 0 <= i < |t| - 1 && IsSpace(t[i]) && t[i + 1] == '#';
    assert IsSpace(v[k + i]) && v[k + i + 1] == '#';
  }

  lemma {:induction false} NoCommentInPlain(v: string)
    requires !HasSpaceHash(v)
    ensures CommentAt(v, 0) == |v|
  {
    var k := CommentAt(v, 0);
    if k < |v| {
      CommentAtIsLeftmost(v, 0, k);
      BlankHashIsSpaceHash(v[k..]);
      SpaceHashInSuffix(v, k);
      assert false;
    }
  }

  lemma PlainEnds(v: string)
    requires v == Strip(v) && v != ""
    ensures !IsSpace(v[0]) && !IsSpace(v[|v| - 1])
  {
    LStripIsSuffix(v);
    RStripIsPrefix(LStrip(v));
  }

  /** The leftmost comment of `v + " #…"` starts right behind a plain `v`. */
  lemma {:induction false} CommentBehindPlain(v: string, tail: string)
    requires v == Strip(v) && v != "" && !HasSpaceHash(v)
    ensures CommentAt(v + " #" + tail, 0) == |v|
  {
    PlainEnds(v);
    var s := v + " #" + tail;
    var k := CommentAt(s, 0);
    assert s[|v|..] == " #" + tail;
    assert BlankHash(s[|v|..]);
    CommentAtIsLeftmost(s, 0, |v|);
    if k < |v| {
      CommentAtIsLeftmost(s, 0, k);
      assert s[k..] == v[k..] + (" #" + tail);
      PrefixBlankHash(v[k..], " #" + tail);
      BlankHashIsSpaceHash(v[k..]);
      SpaceHashInSuffix(v, k);
      assert false;
    }
  }

  /** A blank run that ends in `#` cannot cross a last character that is not a blank. */
  lemma {:induction false} PrefixBlankHash(v: string, t: string)
    requires v != "" && !IsSpace(v[|v| - 1]) && t != "" && t[0] != '#'
    ensures BlankHash(v + t) ==> BlankHash(v)
  {
    if |v| > 1 {
      assert (v + t)[1..] == v[1..] + t;
      PrefixBlankHash(v[1..], t);
    }
  }

  // ---------- main results ----------

  /** Reading back a printed literal gives the value, whatever white space surrounds it. */
  lemma RoundTripPadded(lead: string, v: string, trail: string)
    requires AllSpace(lead) && AllSpace(trail)
    ensures Value(lead + Literal(v) + trail) == v
  {
    var lit := Literal(v);
    if NeedsQuotes(v) {
      StripPadded(lead, lit, trail);
      StripPadded("", lit, "");
      assert "" + lit + "" == lit;
      assert lit + "" == lit;
      QuotedThenSuffix(v, "");
    } else {
      if v != "" { PlainEnds(v); }
      StripPadded(lead, v, trail);
      NoCommentInPlain(v);
      assert v[..|v|] == v;
    }
  }

  lemma RoundTrip(v: string)
    ensures Value(Literal(v)) == v
  {
    RoundTripPadded("", v, "");
    assert "" + Literal(v) + "" == Literal(v);
  }

  /** The printer is injective. */
  lemma LiteralInjective(v: string, w: string)
    requires Literal(v) == Literal(w)
    ensures v == w
  {
    RoundTrip(v);
    RoundTrip(w);
  }

  lemma HashIsNotDropped(text: string)
    requires text != "" && text[0] == '#'
    ensures PlainValue(text) != ""
  {
    var k := CommentAt(text, 0);
    CommentAtIsLeftmost(text, 0, 0);
    assert !BlankHash(text[0..]);
    if k < |text| {
      RStripIsPrefix(text[..k]);
      var r := RStrip(text[..k]);
      assert text[..k][0] == '#';
      assert r != "";
    }
  }

  /** What `strip` keeps of a comment, and what it drops. */
  lemma CommentText(comment: string) returns (text: string, pad: string)
    ensures "#" + comment == text + pad && AllSpace(pad)
    ensures text != "" && text[0] == '#' && !IsSpace(text[|text| - 1])
  {
    RStripIsPrefix("#" + comment);
    text := RStrip("#" + comment);
    pad := ("#" + comment)[|text|..];
    assert !IsSpace(("#" + comment)[0]);
    assert text[0] == (text + pad)[0];
  }

  lemma CommentRegroup(head: string, comment: string, text: string, pad: string)
    requires "#" + comment == text + pad
    ensures head + " #" + comment == "" + (head + (" " + text)) + pad
  {
    assert " #" == " " + "#";
    assert head + " #" + comment == head + (" " + ("#" + comment));
    assert head + (" " + (text + pad)) == (head + (" " + text)) + pad;
  }

  lemma CommentReplacesEmpty(comment: string)
    ensures Value(" #" + comment) != ""
  {
    var text, pad := CommentText(comment);
    assert " #" + comment == " " + ("#" + comment) == " " + text + pad;
    StripPadded(" ", text, pad);
    HashIsNotDropped(text);
  }

  lemma CommentAfterQuoted(v: string, comment: string)
    ensures Value("\"" + Escaped(v) + "\"" + " #" + comment) == v
  {
    var text, pad := CommentText(comment);
    var whole := "\"" + Escaped(v) + "\"" + (" " + text);
    assert whole[|whole| - 1] == text[|text| - 1];
    CommentRegroup("\"" + Escaped(v) + "\"", comment, text, pad);
    StripPadded("", whole, pad);
    StripPadded("", whole, "");
    assert "" + whole + "" == whole;
    LStripPadded(" ", text);
    QuotedThenSuffix(v, " " + text);
  }

  lemma CommentAfterPlain(v: string, comment: string)
    requires !NeedsQuotes(v) && v != ""
    ensures Value(v + " #" + comment) == v
  {
    PlainEnds(v);
    var text, pad := CommentText(comment);
    var whole := v + " #" + text[1..];
    assert text == "#" + text[1..];
    assert whole == v + (" " + text);
    assert whole[|whole| - 1] == text[|text| - 1];
    CommentRegroup(v, comment, text, pad);
    StripPadded("", whole, pad);
    CommentBehindPlain(v, text[1..]);
    assert whole[..|v|] == v;
    RStripPadded(v, "");
    assert v + "" == v;
  }

  /** A trailing `# comment` is dropped for every value but the empty one, which the comment replaces. */
  lemma CommentDroppedIff(v: string, comment: string)
    ensures Value(Literal(v) + " #" + comment) == v <==> v != ""
  {
    if v == "" {
      CommentReplacesEmpty(comment);
      assert Strip("") == "";
      assert Literal(v) + " #" + comment == " #" + comment;
    } else if NeedsQuotes(v) {
      CommentAfterQuoted(v, comment);
    } else {
      CommentAfterPlain(v, comment);
    }
  }
}
