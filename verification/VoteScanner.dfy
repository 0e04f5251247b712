/**
 The scanner that pulls a vote object out of a validator's prose
 (`_cmd_extract_vote_json` in lib/audit_helpers.py).  Whether a candidate span
 is a vote, possibly after its escapes are repaired, is a parameter.
 */
module VoteScanner {
  import opened Common

  type Accept = string -> Option<string>

  /** Where the brace counter stands. */
  datatype Count = Count(depth: int, inString: bool, escaped: bool)

  const START := Count(0, false, false)

  function Next(s: Count, c: char): Count {
    if s.inString then
      if s.escaped then s.(escaped := false)
      else if c == '\\' then s.(escaped := true)
      else if c == '"' then s.(inString := false)
      else s
    else if c == '"' then s.(inString := true)
    else if c == '{' then s.(depth := s.depth + 1)
    else if c == '}' then s.(depth := s.depth - 1)
    else s
  }

  /** The count after reading `text` from `i` up to but not including `j`. */
  function CountAt(text: string, i: nat, j: nat): Count
    requires j <= |text|
  {
    if j <= i then START else Next(CountAt(text, i, j - 1), text[j - 1])
  }

  /** The brace at `j` closes the last one open since `i`, outside any string. */
  predicate ClosesAt(text: string, i: nat, j: nat) {
    i <= j < |text| && text[j] == '}' && !CountAt(text, i, j).inString && CountAt(text, i, j).depth == 1
  }

  /** The braces opened at `i` first balance at `j`. */
  ghost predicate Spans(text: string, i: nat, j: nat) {
    i < |text| && text[i] == '{' && ClosesAt(text, i, j) && forall k: nat :: k < j ==> !ClosesAt(text, i, k)
  }

  lemma SpanIsUnique(text: string, i: nat, j: nat, k: nat)
    requires Spans(text, i, j) && Spans(text, i, k)
    ensures j == k
  {
    assert !(j < k) && !(k < j);
  }

  // ------------------------------------------------------------ what the counter counts

  function Join(pieces: seq<string>): string {
    if pieces == [] then "" else Join(pieces[..|pieces| - 1]) + pieces[|pieces| - 1]
  }

  ghost predicate Sits(text: string, i: nat, s: string) {
    i + |s| <= |text| && text[i..i + |s|] == s
  }

  /** One character of a string: anything but a quote or a backslash as it is, and
      anything at all behind a backslash. */
  predicate Piece(s: string) {
    (|s| == 1 && s[0] != '"' && s[0] != '\\') || (|s| == 2 && s[0] == '\\')
  }

  lemma Read(text: string, i: nat, j: nat, c: char)
    requires i <= j < |text| && text[j] == c
    ensures CountAt(text, i, j + 1) == Next(CountAt(text, i, j), c)
  {
  }

  lemma SitsInParts(text: string, i: nat, a: string, b: string)
    requires Sits(text, i, a + b)
    ensures Sits(text, i, a) && Sits(text, i + |a|, b)
    ensures forall k :: 0 <= k < |b| ==> text[i + |a| + k] == b[k]
  {
    var whole := text[i..i + |a| + |b|];
    assert whole == a + b;
    assert whole[..|a|] == a && whole[|a|..] == b;
    assert text[i..i + |a|] == whole[..|a|];
    assert text[i + |a|..i + |a| + |b|] == whole[|a|..];
    forall k | 0 <= k < |b| ensures text[i + |a| + k] == b[k] { assert b[k] == text[i + |a|..i + |a| + |b|][k]; }
  }

  lemma {:induction false} InsideAString(text: string, i: nat, j: nat, pieces: seq<string>, depth: int)
    requires i <= j && Sits(text, j, Join(pieces)) && CountAt(text, i, j) == Count(depth, true, false)
    requires forall k :: 0 <= k < |pieces| ==> Piece(pieces[k])
    ensures CountAt(text, i, j + |Join(pieces)|) == Count(depth, true, false)
  {
    if pieces != [] {
      var before, s := pieces[..|pieces| - 1], pieces[|pieces| - 1];
      var k := j + |Join(before)|;
      SitsInParts(text, j, Join(before), s);
      InsideAString(text, i, j, before, depth);
      assert text[k] == s[0] && (|s| == 2 ==> text[k + 1] == s[1]);
      Read(text, i, k, s[0]);
      if |s| == 2 { Read(text, i, k + 1, s[1]); }
    }
  }

  /** A string is one stretch from its quote to the next one that no backslash
      escapes: whatever stands between, braces, escaped quotes and escaped
      backslashes included, the depth is after it what it was before. */
  lemma StringsHideBraces(text: string, i: nat, j: nat, pieces: seq<string>, depth: int)
    requires i <= j && Sits(text, j, "\"" + Join(pieces)) && CountAt(text, i, j) == Count(depth, false, false)
    requires forall k :: 0 <= k < |pieces| ==> Piece(pieces[k])
    ensures var end := j + 1 + |Join(pieces)|;
      && CountAt(text, i, end) == Count(depth, true, false)
      && (end < |text| && text[end] == '"' ==> CountAt(text, i, end + 1) == Count(depth, false, false))
  {
    assert text[j] == '"';
    Read(text, i, j, '"');
    assert text[j + 1..j + 1 + |Join(pieces)|] == ("\"" + Join(pieces))[1..] == Join(pieces);
    InsideAString(text, i, j + 1, pieces, depth);
  }

  /** So a brace inside a string closes nothing. */
  lemma BraceInAStringClosesNothing(text: string, i: nat, j: nat, pieces: seq<string>, depth: int)
    requires i <= j && Sits(text, j, "\"" + Join(pieces)) && CountAt(text, i, j) == Count(depth, false, false)
    requires forall k :: 0 <= k < |pieces| ==> Piece(pieces[k])
    ensures !ClosesAt(text, i, j + 1 + |Join(pieces)|)
  {
    StringsHideBraces(text, i, j, pieces, depth);
  }

  /** Outside strings the depth is the braces opened less the braces closed. */
  lemma {:induction false} DepthCountsBraces(text: string, i: nat, j: nat, k: nat, depth: int)
    requires i <= j <= k <= |text| && CountAt(text, i, j) == Count(depth, false, false)
    requires forall l :: j <= l < k ==> text[l] != '"'
    ensures CountAt(text, i, k) ==
      Count(depth + Common.Count((c: char) => c == '{', text[j..k]) - Common.Count((c: char) => c == '}', text[j..k]), false, false)
  {
    if j < k {
      DepthCountsBraces(text, i, j, k - 1, depth);
      assert text[j..k][..k - 1 - j] == text[j..k - 1];
      Read(text, i, k - 1, text[k - 1]);
    }
  }

  // ------------------------------------------------------------ what the scanner looks at

  /** A brace the scanner starts from: one that no span tried before it covers. */
  ghost predicate Tried(text: string, i: nat)
    decreases i
  {
    && i < |text| && text[i] == '{'
    && forall k: nat, j: nat :: k < i && Tried(text, k) && Spans(text, k, j) ==> j < i
  }

  /** The scanner would emit `vote` at `i`. */
  ghost predicate Emits(text: string, accept: Accept, i: nat, j: nat, vote: string) {
    Tried(text, i) && Spans(text, i, j) && accept(text[i..j + 1]) == Some(vote)
  }

  ghost predicate NothingBefore(text: string, accept: Accept, i: nat) {
    forall k: nat, j: nat :: k < i && Tried(text, k) && Spans(text, k, j) ==> accept(text[k..j + 1]) == None
  }

  /** No span tried before `i` reaches `i`. */
  ghost predicate Clear(text: string, i: nat) {
    forall k: nat, j: nat :: k < i && Tried(text, k) && Spans(text, k, j) ==> j < i
  }

  /** Find where the braces opened at `i` balance. */
  method FindBalance(text: string, i: nat) returns (found: Option<nat>)
    requires i < |text| && text[i] == '{'
    ensures found.Some? ==> Spans(text, i, found.value)
    ensures found.None? ==> forall j: nat :: !ClosesAt(text, i, j)
  {
    var depth, j, inString, escaped := 0, i, false, false;
    while j < |text|
      invariant i <= j <= |text|
      invariant Count(depth, inString, escaped) == CountAt(text, i, j)
      invariant forall k: nat :: k < j ==> !ClosesAt(text, i, k)
    {
      var c := text[j];
      if inString {
        if escaped {
          escaped := false;
        } else if c == '\\' {
          escaped := true;
        } else if c == '"' {
          inString := false;
        }
      } else {
        if c == '"' {
          inString := true;
        } else if c == '{' {
          depth := depth + 1;
        } else if c == '}' {
          depth := depth - 1;
          if depth == 0 { return Some(j); }
        }
      }
      j := j + 1;
    }
    return None;
  }

  /** The whole scan. */
  method ExtractVote(text: string, accept: Accept) returns (vote: Option<string>)
    ensures vote.Some? ==> exists i: nat, j: nat :: Emits(text, accept, i, j, vote.value) && NothingBefore(text, accept, i)
    ensures vote.None? ==> NothingBefore(text, accept, |text|)
  {
    var i := 0;
    while i < |text|
      invariant i <= |text|
      invariant Clear(text, i) && NothingBefore(text, accept, i)
    {
      if text[i] != '{' {
        i := i + 1;
        continue;
      }
      assert Tried(text, i);
      var end := FindBalance(text, i);
      if end.Some? {
        var j := end.value;
        var parsed := accept(text[i..j + 1]);
        if parsed.Some? {
          assert Emits(text, accept, i, j, parsed.value);
          return parsed;
        }
        i := j + 1;
      } else {
        i := i + 1;
      }
    }
    return None;
  }

  /** There is at most one answer: the leftmost accepted span tried. */
  lemma OneAnswer(text: string, accept: Accept, i: nat, j: nat, v: string, k: nat, l: nat, w: string)
    requires Emits(text, accept, i, j, v) && NothingBefore(text, accept, i)
    requires Emits(text, accept, k, l, w) && NothingBefore(text, accept, k)
    ensures i == k && j == l && v == w
  {
    assert i == k;
    SpanIsUnique(text, i, j, l);
  }

  // ------------------------------------------------------------ what is always found

  predicate BraceFree(s: string) {
    forall k :: 0 <= k < |s| ==> s[k] != '{'
  }

  /** `s` is one object: it opens with a brace and ends where that first balances. */
  ghost predicate Balanced(s: string) {
    s != "" && Spans(s, 0, |s| - 1)
  }

  /** Text that cannot hide a vote: no brace at all, or one object that is not a vote. */
  ghost predicate Harmless(accept: Accept, s: string) {
    BraceFree(s) || (Balanced(s) && accept(s) == None)
  }

  lemma {:induction false} CountIsLocal(text: string, i: nat, s: string, k: nat)
    requires Sits(text, i, s) && k <= |s|
    ensures CountAt(text, i, i + k) == CountAt(s, 0, k)
  {
    if k > 0 {
      CountIsLocal(text, i, s, k - 1);
      assert text[i + k - 1] == s[k - 1];
    }
  }

  lemma SpanIsLocal(text: string, i: nat, s: string)
    requires Sits(text, i, s) && Balanced(s)
    ensures Spans(text, i, i + |s| - 1)
  {
    var n := |s| - 1;
    CountIsLocal(text, i, s, n);
    assert text[i] == s[0] && text[i + n] == s[n];
    forall k: nat | k < i + n ensures !ClosesAt(text, i, k) {
      if i <= k {
        CountIsLocal(text, i, s, k - i);
        assert text[k] == s[k - i] && !ClosesAt(s, 0, k - i);
      }
    }
  }

  lemma {:induction false} SkipPieces(text: string, accept: Accept, pieces: seq<string>)
    requires Join(pieces) <= text && forall k :: 0 <= k < |pieces| ==> Harmless(accept, pieces[k])
    ensures Clear(text, |Join(pieces)|) && NothingBefore(text, accept, |Join(pieces)|)
  {
    if pieces != [] {
      var before, s := pieces[..|pieces| - 1], pieces[|pieces| - 1];
      var i := |Join(before)|;
      SkipPieces(text, accept, before);
      assert Sits(text, i, s);
      if BraceFree(s) {
      } else {
        SpanIsLocal(text, i, s);
        assert Tried(text, i);
      }
    }
  }

  /** An accepted object is found, and nothing else is, when only brace-free text
      and whole objects that are not votes come before it, whatever follows. */
  lemma VoteIsFound(accept: Accept, pieces: seq<string>, obj: string, rest: string, vote: string)
    requires forall k :: 0 <= k < |pieces| ==> Harmless(accept, pieces[k])
    requires Balanced(obj) && accept(obj) == Some(vote)
    ensures var text := Join(pieces) + obj + rest;
      var i := |Join(pieces)|;
      Emits(text, accept, i, i + |obj| - 1, vote) && NothingBefore(text, accept, i)
  {
    var text := Join(pieces) + obj + rest;
    var i := |Join(pieces)|;
    assert Join(pieces) <= text;
    SkipPieces(text, accept, pieces);
    assert Sits(text, i, obj);
    SpanIsLocal(text, i, obj);
    assert Tried(text, i);
  }

  lemma JoinOneMore(pieces: seq<string>, s: string)
    ensures Join(pieces + [s]) == Join(pieces) + s
  {
    assert (pieces + [s])[..|pieces|] == pieces;
  }

  /** A vote that stands in the text and is never tried. */
  ghost predicate PassedOver(text: string, accept: Accept, i: nat, j: nat, vote: string) {
    Spans(text, i, j) && accept(text[i..j + 1]) == Some(vote) && !Tried(text, i)
  }

  lemma CoveredIsPassedOver(text: string, accept: Accept, i: nat, obj: string, vote: string)
    requires Sits(text, i, obj) && Balanced(obj) && accept(obj) == Some(vote) && !Tried(text, i)
    ensures PassedOver(text, accept, i, i + |obj| - 1, vote)
  {
    SpanIsLocal(text, i, obj);
    assert i + |obj| - 1 + 1 == i + |obj|;
  }

  /** A vote nested inside an object that is not one is passed over, whatever the
      object: it stands in the text as a span that would be accepted, and the
      scanner never tries it, so it finds nothing at all behind text without
      votes and before text without braces. */
  lemma NestedVoteIsMissed(
      text: string, accept: Accept, pieces: seq<string>, front: string, obj: string, back: string, rest: string, vote: string)
    requires text == Join(pieces) + (front + obj + back) + rest
    requires forall k :: 0 <= k < |pieces| ==> Harmless(accept, pieces[k])
    requires Balanced(obj) && accept(obj) == Some(vote) && front != ""
    requires Balanced(front + obj + back) && accept(front + obj + back) == None && BraceFree(rest)
    ensures PassedOver(text, accept, |Join(pieces)| + |front|, |Join(pieces)| + |front| + |obj| - 1, vote)
    ensures NothingBefore(text, accept, |text|)
  {
    var outer := front + obj + back;
    var i := |Join(pieces)| + |front|;
    InsideSits(text, Join(pieces), front, obj, back, rest);
    CoveredIsNotTried(text, accept, pieces, outer, rest, i);
    CoveredIsPassedOver(text, accept, i, obj, vote);
    NothingInHarmlessText(text, accept, pieces, outer, rest);
  }

  lemma InsideSits(text: string, before: string, front: string, obj: string, back: string, rest: string)
    requires text == before + (front + obj + back) + rest
    ensures Sits(text, |before| + |front|, obj)
  {
  }

  lemma NothingInHarmlessText(text: string, accept: Accept, pieces: seq<string>, outer: string, rest: string)
    requires forall k :: 0 <= k < |pieces| ==> Harmless(accept, pieces[k])
    requires Harmless(accept, outer) && Harmless(accept, rest) && text == Join(pieces) + outer + rest
    ensures NothingBefore(text, accept, |text|)
  {
    var all := pieces + [outer] + [rest];
    JoinOneMore(pieces, outer);
    JoinOneMore(pieces + [outer], rest);
    forall k | 0 <= k < |all| ensures Harmless(accept, all[k]) {
      if k < |pieces| { assert all[k] == pieces[k]; }
    }
    SkipPieces(text, accept, all);
  }

  lemma CoveredIsNotTried(text: string, accept: Accept, pieces: seq<string>, outer: string, rest: string, i: nat)
    requires text == Join(pieces) + outer + rest && forall k :: 0 <= k < |pieces| ==> Harmless(accept, pieces[k])
    requires Balanced(outer) && |Join(pieces)| < i < |Join(pieces)| + |outer|
    ensures !Tried(text, i)
  {
    var n := |Join(pieces)|;
    assert Join(pieces) <= text;
    SkipPieces(text, accept, pieces);
    assert Sits(text, n, outer);
    SpanIsLocal(text, n, outer);
    assert Tried(text, n);
  }

  /** Such an object: one vote in the braces of another. */
  lemma VoteInsideBracesIsMissed(accept: Accept)
    requires accept("{}") == Some("{}") && accept("{{}}") == None
    ensures NothingBefore("{{}}", accept, 4)
  {
    assert Balanced("{}") by {
      assert CountAt("{}", 0, 1) == Count(1, false, false);
    }
    assert Balanced("{{}}") by {
      assert CountAt("{{}}", 0, 1) == Count(1, false, false);
      assert CountAt("{{}}", 0, 2) == Count(2, false, false);
      assert CountAt("{{}}", 0, 3) == Count(1, false, false);
    }
    assert "{" + "{}" + "}" == "{{}}" && "" + "{{}}" + "" == "{{}}";
    NestedVoteIsMissed("{{}}", accept, [], "{", "{}", "}", "", "{}");
  }
}
