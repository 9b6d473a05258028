/**
 * The string operations the bots apply to user text: Python's `str.strip()`,
 * the `lower() in ["quit", "exit"]` test, `str.replace(token, "")`,
 * `str.split(sep)` and `sep.join(parts)`.
 */
module Text {
  import opened Wrappers

  /** Python's `str.isspace()` for one character: the characters `strip()` removes. */
  predicate IsSpace(c: char) {
    || ('\t' <= c <= '\r')
    || ('\U{1C}' <= c <= ' ')
    || c == '\U{85}' || c == '\U{A0}' || c == '\U{1680}'
    || ('\U{2000}' <= c <= '\U{200A}')
    || c == '\U{2028}' || c == '\U{2029}' || c == '\U{202F}' || c == '\U{205F}' || c == '\U{3000}'
  }

  predicate AllSpace(s: string) {
    forall i :: 0 <= i < |s| ==> IsSpace(s[i])
  }

  // ---------------------------------------------------------------------------
  // strip()
  // ---------------------------------------------------------------------------

  /** How many whitespace characters `s` starts with. */
  function LeadingSpaces(s: string): (n: nat)
    ensures n <= |s|
    ensures forall i :: 0 <= i < n ==> IsSpace(s[i])
    ensures n < |s| ==> !IsSpace(s[n])
  {
    if s == [] || !IsSpace(s[0]) then 0 else 1 + LeadingSpaces(s[1..])
  }

  /** The index at which the trailing run of whitespace of `s` begins. */
  function TrailingStart(s: string): (n: nat)
    ensures n <= |s|
    ensures forall i :: n <= i < |s| ==> IsSpace(s[i])
    ensures 0 < n ==> !IsSpace(s[n - 1])
  {
    if s == [] || !IsSpace(s[|s| - 1]) then |s| else TrailingStart(s[..|s| - 1])
  }

  /**
   * Python's `s.strip()`: the unique slice of `s` that neither starts nor ends
   * with whitespace and outside of which there is only whitespace.
   */
  function Strip(s: string): (r: string)
    ensures |r| <= |s|
    ensures r == [] <==> AllSpace(s)
    ensures r != [] ==> !IsSpace(r[0]) && !IsSpace(r[|r| - 1])
    ensures var i := LeadingSpaces(s);
      && i + |r| <= |s|
      && r == s[i..i + |r|]
      && (forall k :: i + |r| <= k < |s| ==> IsSpace(s[k]))
  {
    var front := LeadingSpaces(s);
    var tail := s[front..];
    var t := TrailingStart(tail);
    var r := tail[..t];
    assert r == s[front..front + t];
    assert tail != [] ==> t > 0 by {
      if tail != [] { assert !IsSpace(tail[0]); }
    }
    assert forall k :: front + t <= k < |s| ==> IsSpace(s[k]) by {
      forall k | front + t <= k < |s| ensures IsSpace(s[k]) {
        assert s[k] == tail[k - front];
      }
    }
    r
  }

  /** `not s.strip()`: the line holds nothing but whitespace (see `BlankMeansStripsToEmpty`). */
  predicate IsBlank(s: string) {
    AllSpace(s)
  }

  lemma BlankMeansStripsToEmpty(s: string)
    ensures IsBlank(s) <==> Strip(s) == []
  {
  }

  lemma {:induction false} StripIdempotent(s: string)
    ensures Strip(Strip(s)) == Strip(s)
  {
    var r := Strip(s);
    if r != [] {
      assert LeadingSpaces(r) == 0;
      var rr := Strip(r);
      assert rr == r[..|rr|];
    }
  }

  // ---------------------------------------------------------------------------
  // lower() in ["quit", "exit"]
  // ---------------------------------------------------------------------------

  function LowerChar(c: char): char {
    if 'A' <= c <= 'Z' then (c as int + 32) as char else c
  }

  /**
   * Lower-casing of ASCII letters. Python's `lower()` also maps other letters,
   * but none of them to a string equal to "quit" or "exit".
   */
  function Lower(s: string): (r: string)
    ensures |r| == |s|
    ensures forall i :: 0 <= i < |s| ==> r[i] == LowerChar(s[i])
  {
    seq(|s|, i requires 0 <= i < |s| => LowerChar(s[i]))
  }

  /** `user_input.lower() in ["quit", "exit"]`, checked against the raw (unstripped) line. */
  predicate IsQuitCommand(s: string) {
    Lower(s) == "quit" || Lower(s) == "exit"
  }

  /** `s` spells `word` with each letter in either case. */
  ghost predicate SpellsIgnoringCase(s: string, lower: string, upper: string)
    requires |lower| == |upper|
  {
    |s| == |lower| && forall i :: 0 <= i < |s| ==> s[i] == lower[i] || s[i] == upper[i]
  }

  /** The quit test accepts exactly the 16 case variants of each keyword, and nothing padded. */
  lemma QuitCommandCaseVariants(s: string)
    ensures IsQuitCommand(s) <==>
      SpellsIgnoringCase(s, "quit", "QUIT") || SpellsIgnoringCase(s, "exit", "EXIT")
  {
    if SpellsIgnoringCase(s, "quit", "QUIT") {
      assert Lower(s) == "quit";
    }
    if SpellsIgnoringCase(s, "exit", "EXIT") {
      assert Lower(s) == "exit";
    }
  }

  /** A quit command is never mistaken for a blank line. */
  lemma {:induction false} QuitCommandIsNotBlank(s: string)
    requires IsQuitCommand(s)
    ensures !IsBlank(s)
  {
    assert |s| == 4;
    assert !IsSpace(s[0]) by {
      assert LowerChar(s[0]) == 'q' || LowerChar(s[0]) == 'e';
    }
  }

  /**
   * The lines a console loop acts on: the non-blank lines typed before the
   * first quit command. Both the persona loops and the orchestrator loop use it.
   */
  function Submitted(inputs: seq<string>): (lines: seq<string>)
    ensures |lines| <= |inputs|
    decreases |inputs|
  {
    if inputs == [] || IsQuitCommand(inputs[0]) then []
    else if IsBlank(inputs[0]) then Submitted(inputs[1..])
    else [inputs[0]] + Submitted(inputs[1..])
  }

  // ---------------------------------------------------------------------------
  // replace(token, ""), split(sep), sep.join(parts)
  // ---------------------------------------------------------------------------

  /** `sub` starts at position `i` of `s`. */
  predicate OccursAt(s: string, sub: string, i: nat) {
    i + |sub| <= |s| && s[i..i + |sub|] == sub
  }

  /** `sub` does not occur anywhere in `s`. */
  ghost predicate Free(s: string, sub: string) {
    forall i: nat :: !OccursAt(s, sub, i)
  }

  /** The middle piece of a concatenation occurs right after the first piece. */
  lemma OccursInConcat(a: string, b: string, c: string)
    ensures OccursAt(a + b + c, b, |a|)
  {
    assert (a + b + c)[|a|..|a| + |b|] == b;
  }

  /**
   * Python's `s.replace(p, "")`: scan left to right and drop every
   * non-overlapping occurrence of `p`.
   */
  function RemoveAll(s: string, p: string): (r: string)
    requires |p| > 0
    ensures |r| <= |s|
    decreases |s|
  {
    if |s| < |p| then s
    else if s[..|p|] == p then RemoveAll(s[|p|..], p)
    else [s[0]] + RemoveAll(s[1..], p)
  }

  /** Python's `s.split(p)` for a non-empty separator. */
  function Split(s: string, p: string): (parts: seq<string>)
    requires |p| > 0
    ensures |parts| >= 1
    decreases |s|
  {
    if |s| < |p| then [s]
    else if s[..|p|] == p then [[]] + Split(s[|p|..], p)
    else
      var rest := Split(s[1..], p);
      [[s[0]] + rest[0]] + rest[1..]
  }

  /** Python's `sep.join(parts)`. */
  function Join(parts: seq<string>, sep: string): string {
    if |parts| == 0 then []
    else if |parts| == 1 then parts[0]
    else parts[0] + sep + Join(parts[1..], sep)
  }

  /** Python's `"".join(parts)`. */
  function Concat(parts: seq<string>): string {
    if parts == [] then [] else parts[0] + Concat(parts[1..])
  }

  lemma {:induction false} JoinExtendsHead(x: string, parts: seq<string>, sep: string)
    requires |parts| >= 1
    ensures Join([x + parts[0]] + parts[1..], sep) == x + Join(parts, sep)
  {
    var q := [x + parts[0]] + parts[1..];
    assert q[1..] == parts[1..];
  }

  /** Round trip: joining the pieces of a split with the separator gives the text back. */
  lemma {:induction false} SplitJoinRoundTrip(s: string, p: string)
    requires |p| > 0
    ensures Join(Split(s, p), p) == s
    decreases |s|
  {
    if |s| < |p| {
    } else if s[..|p|] == p {
      SplitJoinRoundTrip(s[|p|..], p);
      var parts := [[]] + Split(s[|p|..], p);
      assert parts[1..] == Split(s[|p|..], p);
      assert s == s[..|p|] + s[|p|..];
    } else {
      SplitJoinRoundTrip(s[1..], p);
      var rest := Split(s[1..], p);
      JoinExtendsHead([s[0]], rest, p);
      assert s == [s[0]] + s[1..];
    }
  }

  /** `s.replace(p, "")` is `"".join(s.split(p))`. */
  lemma {:induction false} RemoveAllIsConcatOfSplit(s: string, p: string)
    requires |p| > 0
    ensures RemoveAll(s, p) == Concat(Split(s, p))
    decreases |s|
  {
    if |s| < |p| {
      assert Concat([s]) == s + Concat([]);
    } else if s[..|p|] == p {
      RemoveAllIsConcatOfSplit(s[|p|..], p);
      var parts := [[]] + Split(s[|p|..], p);
      assert parts[1..] == Split(s[|p|..], p);
    } else {
      RemoveAllIsConcatOfSplit(s[1..], p);
      var rest := Split(s[1..], p);
      var parts := [[s[0]] + rest[0]] + rest[1..];
      assert parts[1..] == rest[1..];
      assert Concat(rest) == rest[0] + Concat(rest[1..]);
    }
  }

  /** The first piece of a split is a prefix of the text. */
  lemma {:induction false} SplitHeadIsPrefix(s: string, p: string)
    requires |p| > 0
    ensures var h := Split(s, p)[0]; |h| <= |s| && h == s[..|h|]
    decreases |s|
  {
    if |s| < |p| {
    } else if s[..|p|] == p {
    } else {
      SplitHeadIsPrefix(s[1..], p);
    }
  }

  /** No piece of `s.split(p)` contains `p`. */
  lemma {:induction false} SplitPiecesAreFree(s: string, p: string)
    requires |p| > 0
    ensures forall k :: 0 <= k < |Split(s, p)| ==> Free(Split(s, p)[k], p)
    decreases |s|
  {
    var parts := Split(s, p);
    if |s| < |p| {
      assert parts == [s];
      forall i: nat ensures !OccursAt(s, p, i) {}
    } else if s[..|p|] == p {
      SplitPiecesAreFree(s[|p|..], p);
      var rest := Split(s[|p|..], p);
      assert parts == [[]] + rest;
      forall k | 0 <= k < |parts| ensures Free(parts[k], p) {
        if k == 0 {
          forall i: nat ensures !OccursAt(parts[0], p, i) {}
        } else {
          assert parts[k] == rest[k - 1];
        }
      }
    } else {
      SplitPiecesAreFree(s[1..], p);
      SplitHeadIsPrefix(s[1..], p);
      var rest := Split(s[1..], p);
      var head := [s[0]] + rest[0];
      assert parts == [head] + rest[1..];
      assert head == s[..|head|];
      assert !OccursAt(head, p, 0) by {
        if |p| <= |head| {
          assert head[..|p|] == s[..|p|];
        }
      }
      ConsKeepsFree(s[0], rest[0], p);
      forall k | 0 <= k < |parts| ensures Free(parts[k], p) {
        if k > 0 {
          assert parts[k] == rest[k];
        }
      }
    }
  }

  /** Putting a character in front of a text free of `p` keeps it free, unless `p` now starts at 0. */
  lemma {:induction false} ConsKeepsFree(c: char, t: string, p: string)
    requires Free(t, p)
    requires !OccursAt([c] + t, p, 0)
    ensures Free([c] + t, p)
  {
    var h := [c] + t;
    forall i: nat ensures !OccursAt(h, p, i) {
      if 0 < i && i + |p| <= |h| {
        var j: nat := i - 1;
        assert h[i..i + |p|] == t[j..j + |p|];
        assert !OccursAt(t, p, j);
      }
    }
  }

  /** A text without the token is left as it is. */
  lemma {:induction false} RemoveAllOfFree(s: string, p: string)
    requires |p| > 0
    requires Free(s, p)
    ensures RemoveAll(s, p) == s
    decreases |s|
  {
    if |s| < |p| {
    } else {
      assert !OccursAt(s, p, 0);
      assert s[..|p|] != p;
      assert Free(s[1..], p) by {
        forall i: nat ensures !OccursAt(s[1..], p, i) {
          if i + |p| <= |s[1..]| {
            var j: nat := i + 1;
            assert !OccursAt(s, p, j);
            assert s[1..][i..i + |p|] == s[j..j + |p|];
          }
        }
      }
      RemoveAllOfFree(s[1..], p);
      assert s == [s[0]] + s[1..];
    }
  }

  /** `sep.join(parts)` ends with the last part. */
  lemma {:induction false} JoinEndsWithLast(parts: seq<string>, sep: string)
    requires |parts| >= 1
    ensures var j := Join(parts, sep); var l := parts[|parts| - 1];
      |l| <= |j| && j[|j| - |l|..] == l
  {
    if |parts| > 1 {
      JoinEndsWithLast(parts[1..], sep);
    }
  }

  /** How an f-string renders an optional string: Python's `None` prints as "None". */
  function Str(s: Option<string>): (r: string)
    ensures s.Some? ==> r == s.value
    ensures s.None? ==> r == "None"
  {
    match s
    case Some(v) => v
    case None => "None"
  }
}
