/** Stripping blanks from the ends of a text, as Python's `str.strip` does. */
module Whitespace {
  predicate IsSpace(c: char) {
    var n := c as int;
    || 9 <= n <= 13 || 28 <= n <= 32 || n == 0x85 || n == 0xA0 || n == 0x1680
    || 0x2000 <= n <= 0x200A || n == 0x2028 || n == 0x2029 || n == 0x202F || n == 0x205F || n == 0x3000
  }

  function TrimRight(s: string): string {
    if s != "" && IsSpace(s[|s| - 1]) then TrimRight(s[..|s| - 1]) else s
  }

  function TrimLeft(s: string): string {
    if s != "" && IsSpace(s[0]) then TrimLeft(s[1..]) else s
  }

  function Strip(s: string): string {
    TrimLeft(TrimRight(s))
  }

  predicate Blank(s: string) {
    Strip(s) == ""
  }

  lemma {:induction false} TrimLeftEnds(s: string)
    ensures var t := TrimLeft(s);
      && (t == "" || !IsSpace(t[0]))
      && |t| <= |s| && t == s[|s| - |t|..]
  {
    if s != "" && IsSpace(s[0]) { TrimLeftEnds(s[1..]); }
  }

  lemma {:induction false} TrimRightEnds(s: string)
    ensures var t := TrimRight(s);
      && (t == "" || !IsSpace(t[|t| - 1]))
      && |t| <= |s| && t == s[..|t|]
  {
    if s != "" && IsSpace(s[|s| - 1]) { TrimRightEnds(s[..|s| - 1]); }
  }

  /** Strip takes all blanks off both ends and nothing else. */
  lemma StripIs(before: string, s: string, after: string)
    requires (forall c :: c in before + after ==> IsSpace(c)) && (s != "" ==> !IsSpace(s[0]) && !IsSpace(s[|s| - 1]))
    ensures Strip(before + s + after) == s
  {
    TrimRightOff(before + s, after);
    if s == "" {
      assert before + s == s + before;
      TrimRightOff(s, before);
    } else {
      assert TrimRight(before + s) == before + s;
      TrimLeftOff(before, s);
    }
  }

  lemma {:induction false} TrimRightOff(s: string, blanks: string)
    requires forall c :: c in blanks ==> IsSpace(c)
    ensures TrimRight(s + blanks) == TrimRight(s)
  {
    if blanks == "" {
      assert s + blanks == s;
    } else {
      assert (s + blanks)[..|s + blanks| - 1] == s + blanks[..|blanks| - 1];
      TrimRightOff(s, blanks[..|blanks| - 1]);
    }
  }

  lemma {:induction false} TrimLeftOff(blanks: string, s: string)
    requires forall c :: c in blanks ==> IsSpace(c)
    ensures TrimLeft(blanks + s) == TrimLeft(s)
  {
    if blanks == "" {
      assert blanks + s == s;
    } else {
      assert (blanks + s)[1..] == blanks[1..] + s;
      TrimLeftOff(blanks[1..], s);
    }
  }

  lemma StripIsStripped(s: string)
    ensures Strip(Strip(s)) == Strip(s)
  {
    TrimRightEnds(s);
    var t := TrimRight(s);
    TrimLeftEnds(t);
    var u := TrimLeft(t);
    if u != "" { assert u[|u| - 1] == t[|t| - 1]; }
  }
}
