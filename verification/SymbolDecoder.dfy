/**
 The length-prefixed identifiers of a mangled symbol (`_mangled_components` in
 lib/benchmark.py), over ASCII.
 */
module SymbolDecoder {
  import opened Common

  predicate Digit(c: char) {
    '0' <= c <= '9'
  }

  predicate Letter(c: char) {
    'A' <= c <= 'Z' || 'a' <= c <= 'z' || c == '_'
  }

  predicate Identifier(s: string) {
    s != "" && Letter(s[0]) && forall i :: 1 <= i < |s| ==> Letter(s[i]) || Digit(s[i])
  }

  /** How many digits `s` starts with. */
  function DigitRun(s: string): (k: nat)
    ensures k <= |s| && (forall i :: 0 <= i < k ==> Digit(s[i])) && (k < |s| ==> !Digit(s[k]))
  {
    if s != "" && Digit(s[0]) then 1 + DigitRun(s[1..]) else 0
  }

  predicate Digits(s: string) {
    forall i :: 0 <= i < |s| ==> Digit(s[i])
  }

  function Worth(c: char): nat
    requires Digit(c)
  {
    (c - '0') as nat
  }

  /** The number a run of digits spells. */
  function Value(s: string): nat
    requires Digits(s)
  {
    if s == "" then 0 else 10 * Value(s[..|s| - 1]) + Worth(s[|s| - 1])
  }

  /** What the scan makes of the front of `s`: a component, if there is one, and
      how far it goes on. */
  function Front(s: string): (r: (Option<string>, nat))
    requires s != ""
    ensures 0 < r.1 <= |s|
  {
    var k := DigitRun(s);
    if k == 0 then (None, 1) else Counted(s, k, Value(s[..k]))
  }

  /** `n` characters behind the first `k`, if they are an identifier. */
  function Counted(s: string, k: nat, n: nat): (r: (Option<string>, nat))
    requires 0 < k <= |s|
    ensures 0 < r.1 <= |s|
  {
    if k + n <= |s| && Identifier(s[k..k + n]) then (Some(s[k..k + n]), k + n) else (None, k)
  }

  function AsList(c: Option<string>): seq<string> {
    if c.Some? then [c.value] else []
  }

  /** The components of what is left of the symbol. */
  function Decoded(s: string): seq<string>
    decreases |s|
  {
    if s == "" then [] else AsList(Front(s).0) + Decoded(s[Front(s).1..])
  }

  lemma DecodedFront(s: string, c: Option<string>, n: nat, rest: string)
    requires s != "" && Front(s) == (c, n) && s[n..] == rest
    ensures Decoded(s) == AsList(c) + Decoded(rest)
  {
  }

  lemma Collected(comps: seq<string>, more: seq<string>, rest: seq<string>)
    ensures comps + (more + rest) == (comps + more) + rest
  {
  }

  /** One turn of the scan at `i`. */
  method ReadFront(fn: string, i: nat) returns (c: Option<string>, next: nat)
    requires i < |fn|
    ensures i < next <= |fn|
    ensures Decoded(fn[i..]) == AsList(c) + Decoded(fn[next..])
  {
    var n;
    c, n := FrontOf(fn[i..]);
    next := i + n;
    DecodedFront(fn[i..], c, n, fn[next..]);
  }

  /** The front of `s`, read off it. */
  method FrontOf(s: string) returns (c: Option<string>, n: nat)
    requires s != ""
    ensures (c, n) == Front(s)
  {
    var k := DigitRun(s);
    if k == 0 { return None, 1; }
    var length := Value(s[..k]);
    if k + length <= |s| && Identifier(s[k..k + length]) { return Some(s[k..k + length]), k + length; }
    return None, k;
  }

  /** `_mangled_components`. */
  method MangledComponents(fn: string) returns (comps: seq<string>)
    ensures comps == Decoded(fn)
  {
    comps := [];
    var i := 0;
    while i < |fn|
      invariant i <= |fn|
      invariant Decoded(fn) == comps + Decoded(fn[i..])
    {
      var c, next := ReadFront(fn, i);
      Collected(comps, AsList(c), Decoded(fn[next..]));
      comps := comps + AsList(c);
      i := next;
    }
  }

  // ------------------------------------------------------------ encoding

  function DigitOf(n: nat): (c: char)
    requires n < 10
    ensures Digit(c)
  {
    '0' + n as char
  }

  /** `n` in decimal. */
  function Decimal(n: nat): (s: string)
    ensures s != "" && Digits(s)
  {
    if n < 10 then [DigitOf(n)] else Decimal(n / 10) + [DigitOf(n % 10)]
  }

  lemma {:induction false} DecimalReadsBack(n: nat)
    ensures Value(Decimal(n)) == n
  {
    var s := Decimal(n);
    if n < 10 {
      assert s[..0] == "";
    } else {
      DecimalReadsBack(n / 10);
      assert s[..|s| - 1] == Decimal(n / 10);
    }
  }

  predicate DigitFree(s: string) {
    forall i :: 0 <= i < |s| ==> !Digit(s[i])
  }

  /** One identifier and the text in front of it. */
  datatype Part = Part(before: string, ident: string)

  function Encoded(parts: seq<Part>, tail: string): string {
    if parts == [] then tail
    else parts[0].before + (Decimal(|parts[0].ident|) + (parts[0].ident + Encoded(parts[1..], tail)))
  }

  function Idents(parts: seq<Part>): seq<string> {
    if parts == [] then [] else [parts[0].ident] + Idents(parts[1..])
  }

  lemma {:induction false} SkipDigitFree(a: string, b: string)
    requires DigitFree(a)
    ensures Decoded(a + b) == Decoded(b)
  {
    if a == "" {
      assert a + b == b;
    } else {
      Peel(a, b);
      SkipDigitFree(a[1..], b);
    }
  }

  lemma {:induction false} DigitRunEnds(digits: string, rest: string)
    requires Digits(digits) && DigitRun(rest) == 0
    ensures DigitRun(digits + rest) == |digits|
  {
    if digits == "" {
      assert digits + rest == rest;
    } else {
      assert (digits + rest)[1..] == digits[1..] + rest;
      DigitRunEnds(digits[1..], rest);
    }
  }

  lemma CountedIs(s: string, k: nat, ident: string)
    requires 0 < k && k + |ident| <= |s| && s[k..k + |ident|] == ident && Identifier(ident)
    ensures Counted(s, k, |ident|) == (Some(ident), k + |ident|)
  {
  }

  lemma FrontIs(s: string, k: nat, ident: string)
    requires 0 < k == DigitRun(s) && k + |ident| <= |s| && Value(s[..k]) == |ident|
    requires s[k..k + |ident|] == ident && Identifier(ident)
    ensures Front(s) == (Some(ident), k + |ident|)
  {
    CountedIs(s, k, ident);
  }

  lemma DecodeOne(ident: string, rest: string)
    requires Identifier(ident)
    ensures Decoded(Decimal(|ident|) + (ident + rest)) == [ident] + Decoded(rest)
  {
    var digits := Decimal(|ident|);
    DecimalReadsBack(|ident|);
    assert DigitRun(ident + rest) == 0 by { assert (ident + rest)[0] == ident[0]; }
    DigitRunEnds(digits, ident + rest);
    var s := digits + (ident + rest);
    FrontIs(s, |digits|, ident);
    DecodedFront(s, Some(ident), |digits| + |ident|, rest);
  }

  /** Decoding undoes encoding: identifiers printed with their lengths, with any
      digit-free text around them, come back as they were, in order. */
  lemma {:induction false} DecodingUndoesEncoding(parts: seq<Part>, tail: string)
    requires DigitFree(tail) && forall i :: 0 <= i < |parts| ==> DigitFree(parts[i].before) && Identifier(parts[i].ident)
    ensures Decoded(Encoded(parts, tail)) == Idents(parts)
  {
    if parts == [] {
      SkipDigitFree(tail, "");
      assert tail + "" == tail;
    } else {
      var rest := Encoded(parts[1..], tail);
      DecodingUndoesEncoding(parts[1..], tail);
      SkipDigitFree(parts[0].before, Decimal(|parts[0].ident|) + (parts[0].ident + rest));
      DecodeOne(parts[0].ident, rest);
    }
  }

  /** A character that is no digit starts nothing. */
  lemma NoCountInFront(s: string)
    requires s != "" && !('0' <= s[0] <= '9')
    ensures Decoded(s) == Decoded(s[1..])
  {
  }

  /** A run of digits counts the characters behind it: they come out if there are
      so many, at least one, and each a letter, a digit or an underscore.
      Otherwise the scan goes on right behind the digits. */
  lemma CountInFront(digits: string, rest: string)
    requires digits != "" && (forall i :: 0 <= i < |digits| ==> '0' <= digits[i] <= '9')
    requires rest != "" ==> !('0' <= rest[0] <= '9')
    ensures var n := Value(digits);
      Decoded(digits + rest) ==
        if 0 < n <= |rest| && forall c :: c in rest[..n] ==> Wordly(c)
        then [rest[..n]] + Decoded(rest[n..])
        else Decoded(rest)
  {
    DigitRunEnds(digits, rest);
    Behind(digits, rest);
    Counts(digits + rest, |digits|, rest, Value(digits));
    IdentifierIs(rest[..if Value(digits) <= |rest| then Value(digits) else 0]);
  }

  lemma Counts(s: string, k: nat, rest: string, n: nat)
    requires 0 < k <= |s| && s[k..] == rest && Front(s) == Counted(s, k, n)
    ensures Decoded(s) ==
      if n <= |rest| && Identifier(rest[..n]) then [rest[..n]] + Decoded(rest[n..]) else Decoded(rest)
  {
    if n <= |rest| { Slices(s, k, rest, n); }
    if n <= |rest| && Identifier(rest[..n]) {
      DecodedFront(s, Some(rest[..n]), k + n, rest[n..]);
    } else {
      DecodedFront(s, None, k, rest);
      assert [] + Decoded(rest) == Decoded(rest);
    }
  }

  lemma Slices(s: string, k: nat, rest: string, n: nat)
    requires k <= |s| && s[k..] == rest && n <= |rest|
    ensures s[k..k + n] == rest[..n] && s[k + n..] == rest[n..]
  {
  }

  lemma Behind(a: string, b: string)
    ensures (a + b)[..|a|] == a && (a + b)[|a|..] == b
    ensures forall n: nat :: n <= |b| ==> (a + b)[|a|..|a| + n] == b[..n] && (a + b)[|a| + n..] == b[n..]
  {
  }

  predicate Wordly(c: char) {
    c == '_' || 'A' <= c <= 'Z' || 'a' <= c <= 'z' || '0' <= c <= '9'
  }

  lemma IdentifierIs(s: string)
    requires s != "" ==> !('0' <= s[0] <= '9')
    ensures Identifier(s) <==> s != "" && forall c :: c in s ==> Wordly(c)
  {
    forall i | 0 <= i < |s| ensures Wordly(s[i]) <==> Letter(s[i]) || Digit(s[i]) {}
    if s != "" && forall c :: c in s ==> Wordly(c) {
      forall i | 0 <= i < |s| ensures Letter(s[i]) || Digit(s[i]) { assert s[i] in s; }
    }
  }

  /** Zeros in front of a count change nothing. */
  lemma {:induction false} LeadingZero(digits: string)
    requires Digits(digits)
    ensures Digits("0" + digits) && Value("0" + digits) == Value(digits)
  {
    if digits != "" {
      LeadingZero(digits[..|digits| - 1]);
      LastOfConcat("0", digits);
    }
  }

  /** Whatever the symbol, only identifiers come out. */
  lemma {:induction false} OnlyIdentifiers(s: string)
    ensures forall c :: c in Decoded(s) ==> Identifier(c)
    decreases |s|
  {
    if s != "" { OnlyIdentifiers(s[Front(s).1..]); }
  }
}
