/** The pieces of Python's `str` that the modelled scripts rely on. */
module Text {

  /** `str.isspace` on one character: the Unicode white space Python strips. */
  predicate IsSpace(c: char) {
    var n := c as int;
    || 0x09 <= n <= 0x0D
    || 0x1C <= n <= 0x20
    || n == 0x85 || n == 0xA0 || n == 0x1680
    || 0x2000 <= n <= 0x200A
    || n == 0x2028 || n == 0x2029 || n == 0x202F || n == 0x205F || n == 0x3000
  }

  ghost predicate AllSpace(s: string) {
    forall i | 0 <= i < |s| :: IsSpace(s[i])
  }

  function LStrip(s: string): string {
    if s != "" && IsSpace(s[0]) then LStrip(s[1..]) else s
  }

  function RStrip(s: string): string {
    if s != "" && IsSpace(s[|s| - 1]) then RStrip(s[..|s| - 1]) else s
  }

  lemma {:induction false} LStripIsSuffix(s: string)
    ensures var r := LStrip(s);
      |r| <= |s| && r == s[|s| - |r|..] && AllSpace(s[..|s| - |r|]) && (r != "" ==> !IsSpace(r[0]))
  {
    if s != "" && IsSpace(s[0]) {
      LStripIsSuffix(s[1..]);
      var r := LStrip(s[1..]);
      assert s[..|s| - |r|] == [s[0]] + s[1..][..|s[1..]| - |r|];
    }
  }

  lemma {:induction false} RStripIsPrefix(s: string)
    ensures var r := RStrip(s);
      r <= s && AllSpace(s[|r|..]) && (r != "" ==> !IsSpace(r[|r| - 1]))
  {
    if s != "" && IsSpace(s[|s| - 1]) {
      RStripIsPrefix(s[..|s| - 1]);
      var r := RStrip(s[..|s| - 1]);
      assert s[|r|..] == s[..|s| - 1][|r|..] + [s[|s| - 1]];
    }
  }

  function Strip(s: string): string {
    RStrip(LStrip(s))
  }

  lemma {:induction false} LStripPadded(pad: string, s: string)
    requires AllSpace(pad)
    requires s != "" ==> !IsSpace(s[0])
    ensures LStrip(pad + s) == s
  {
    if pad == "" {
      assert pad + s == s;
    } else {
      assert (pad + s)[1..] == pad[1..] + s;
      LStripPadded(pad[1..], s);
    }
  }

  lemma {:induction false} RStripPadded(s: string, pad: string)
    requires AllSpace(pad)
    requires s != "" ==> !IsSpace(s[|s| - 1])
    ensures RStrip(s + pad) == s
  {
    if pad == "" {
      assert s + pad == s;
    } else {
      assert (s + pad)[..|s + pad| - 1] == s + pad[..|pad| - 1];
      RStripPadded(s, pad[..|pad| - 1]);
    }
  }

  /** A string whose ends are not white space is what `strip` leaves of any padding of it. */
  lemma StripPadded(lead: string, s: string, trail: string)
    requires AllSpace(lead) && AllSpace(trail)
    requires s != "" ==> !IsSpace(s[0]) && !IsSpace(s[|s| - 1])
    ensures Strip(lead + s + trail) == s
  {
    if s == "" {
      assert lead + s + trail == (lead + trail) + "";
      LStripPadded(lead + trail, "");
    } else {
      assert lead + s + trail == lead + (s + trail);
      LStripPadded(lead, s + trail);
      RStripPadded(s, trail);
    }
  }
}
