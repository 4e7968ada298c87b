/**
 * Python's `str.replace` and the `str.split` / `str.join` pair that describes it.
 *
 * `Replace` scans left to right and replaces non-overlapping occurrences, as
 * CPython does. Its partner is the decomposition of the subject at the same
 * occurrences: `Split` cuts the subject there and `Join` glues pieces back
 * with a separator, so that replacing is joining the pieces with the
 * replacement, and joining them with the pattern itself gives the subject back.
 */
module Strings {

  /** `pat` occurs in `s` starting at index `k`. */
  predicate MatchAt(s: string, pat: string, k: nat)
  {
    k + |pat| <= |s| && s[k..k + |pat|] == pat
  }

  /** `pat in s`. */
  predicate Occurs(s: string, pat: string)
  {
    exists k: nat | k <= |s| :: MatchAt(s, pat, k)
  }

  /** No occurrence of `pat` in `s` starts before index `n`. */
  predicate NoMatchBefore(s: string, pat: string, n: nat)
  {
    forall k: nat :: k < n ==> !MatchAt(s, pat, k)
  }

  /** `s.replace(pat, rep)` for a non-empty pattern. */
  function Replace(s: string, pat: string, rep: string): string
    requires |pat| > 0
    decreases |s|
  {
    if |s| < |pat| then s
    else if s[..|pat|] == pat then rep + Replace(s[|pat|..], pat, rep)
    else [s[0]] + Replace(s[1..], pat, rep)
  }

  /** `s.split(pat)` for a non-empty pattern: always at least one piece. */
  function Split(s: string, pat: string): (parts: seq<string>)
    requires |pat| > 0
    ensures |parts| >= 1
    decreases |s|
  {
    if |s| < |pat| then [s]
    else if s[..|pat|] == pat then [""] + Split(s[|pat|..], pat)
    else
      var rest := Split(s[1..], pat);
      [[s[0]] + rest[0]] + rest[1..]
  }

  /** `sep.join(parts)`. */
  function Join(parts: seq<string>, sep: string): string
    decreases |parts|
  {
    if |parts| == 0 then ""
    else if |parts| == 1 then parts[0]
    else parts[0] + sep + Join(parts[1..], sep)
  }

  /** Gluing a piece onto the front of the first piece glues it onto the front of the joined text. */
  lemma {:induction false} JoinPrepend(c: string, parts: seq<string>, sep: string)
    requires |parts| >= 1
    ensures Join([c + parts[0]] + parts[1..], sep) == c + Join(parts, sep)
  {
    var p := [c + parts[0]] + parts[1..];
    assert p[1..] == parts[1..];
    if |parts| > 1 {
      assert Join(p, sep) == (c + parts[0]) + sep + Join(parts[1..], sep);
    }
  }

  /** Replacing is joining the pieces between occurrences with the replacement. */
  lemma {:induction false} ReplaceIsJoinOfSplit(s: string, pat: string, rep: string)
    requires |pat| > 0
    ensures Replace(s, pat, rep) == Join(Split(s, pat), rep)
    decreases |s|
  {
    if |s| < |pat| {
    } else if s[..|pat|] == pat {
      ReplaceIsJoinOfSplit(s[|pat|..], pat, rep);
      var rest := Split(s[|pat|..], pat);
      assert ([""] + rest)[1..] == rest;
    } else {
      ReplaceIsJoinOfSplit(s[1..], pat, rep);
      var rest := Split(s[1..], pat);
      JoinPrepend([s[0]], rest, rep);
    }
  }

  /** Joining the pieces with the pattern itself restores the subject: nothing
      outside the occurrences is lost or changed. */
  lemma {:induction false} SplitJoinRoundTrip(s: string, pat: string)
    requires |pat| > 0
    ensures Join(Split(s, pat), pat) == s
    decreases |s|
  {
    if |s| < |pat| {
      assert Split(s, pat) == [s];
    } else if s[..|pat|] == pat {
      var rest := Split(s[|pat|..], pat);
      SplitJoinRoundTrip(s[|pat|..], pat);
      assert Split(s, pat) == [""] + rest;
      assert ([""] + rest)[1..] == rest;
      assert Join([""] + rest, pat) == "" + pat + s[|pat|..];
      assert "" + pat + s[|pat|..] == s;
    } else {
      var rest := Split(s[1..], pat);
      SplitJoinRoundTrip(s[1..], pat);
      assert Split(s, pat) == [[s[0]] + rest[0]] + rest[1..];
      JoinPrepend([s[0]], rest, pat);
      assert [s[0]] + s[1..] == s;
    }
  }

  /** A match inside a suffix is a match in the whole string, shifted. */
  lemma {:induction false} MatchShift(c: char, s: string, pat: string, k: nat)
    ensures MatchAt([c] + s, pat, k + 1) == MatchAt(s, pat, k)
  {
    if k + |pat| <= |s| {
      assert ([c] + s)[k + 1..k + 1 + |pat|] == s[k..k + |pat|];
    }
  }

  /** A match in a prefix is a match in the whole string. */
  lemma {:induction false} MatchInPrefix(x: string, y: string, pat: string, k: nat)
    requires MatchAt(x, pat, k)
    ensures MatchAt(x + y, pat, k)
  {
    assert (x + y)[k..k + |pat|] == x[k..k + |pat|];
  }

  /** With a non-empty pattern, "no match before the end" is "no match at all". */
  lemma {:induction false} NoMatchBeforeEnd(x: string, pat: string)
    requires |pat| > 0
    ensures NoMatchBefore(x, pat, |x|) <==> !Occurs(x, pat)
  {
    if NoMatchBefore(x, pat, |x|) {
      forall k: nat | k <= |x| ensures !MatchAt(x, pat, k) {
        if k < |x| { assert !MatchAt(x, pat, k); }
      }
    }
  }

  /** Putting a character in front of a string shifts its match-free prefix by one,
      provided no match starts at the new character. */
  lemma {:induction false} ConsNoMatch(c: char, t: string, pat: string, n: nat)
    requires NoMatchBefore(t, pat, n)
    requires !MatchAt([c] + t, pat, 0)
    ensures NoMatchBefore([c] + t, pat, n + 1)
  {
    forall k: nat | k < n + 1 ensures !MatchAt([c] + t, pat, k) {
      if k > 0 { MatchShift(c, t, pat, k - 1); }
    }
  }

  /** `parts` is a leftmost, non-overlapping decomposition at `pat`: in every
      piece but the last, no occurrence starts before the pattern that follows
      it, and the last piece holds no occurrence at all. */
  predicate Leftmost(parts: seq<string>, pat: string)
  {
    |parts| >= 1 &&
    (forall i :: 0 <= i < |parts| - 1 ==> NoMatchBefore(parts[i] + pat, pat, |parts[i]|)) &&
    !Occurs(parts[|parts| - 1], pat)
  }

  /** A clean piece in front of a leftmost decomposition keeps it leftmost. */
  lemma {:induction false} LeftmostCons(first: string, rest: seq<string>, pat: string)
    requires Leftmost(rest, pat) && NoMatchBefore(first + pat, pat, |first|)
    ensures Leftmost([first] + rest, pat)
  {
    var parts := [first] + rest;
    forall i | 1 <= i < |parts| - 1
      ensures NoMatchBefore(parts[i] + pat, pat, |parts[i]|)
    {
      assert parts[i] == rest[i - 1];
    }
    assert parts[|parts| - 1] == rest[|rest| - 1];
  }

  /** Dropping the first piece of a decomposition with several keeps it leftmost. */
  lemma {:induction false} LeftmostTail(parts: seq<string>, pat: string)
    requires Leftmost(parts, pat) && |parts| > 1
    ensures Leftmost(parts[1..], pat) && NoMatchBefore(parts[0] + pat, pat, |parts[0]|)
  {
    var rest := parts[1..];
    forall i | 0 <= i < |rest| - 1
      ensures NoMatchBefore(rest[i] + pat, pat, |rest[i]|)
    {
      assert rest[i] == parts[i + 1];
    }
    assert rest[|rest| - 1] == parts[|parts| - 1];
  }

  /** The pieces `Split` cuts are the leftmost decomposition, the one
      `str.replace` scans for. */
  lemma {:induction false} SplitIsLeftmost(s: string, pat: string)
    requires |pat| > 0
    ensures Leftmost(Split(s, pat), pat)
    decreases |s|
  {
    if |s| < |pat| {
      assert !MatchAt(s, pat, |s|);
    } else if s[..|pat|] == pat {
      SplitIsLeftmost(s[|pat|..], pat);
      LeftmostCons("", Split(s[|pat|..], pat), pat);
    } else {
      SplitIsLeftmost(s[1..], pat);
      var rest := Split(s[1..], pat);
      SplitJoinRoundTrip(s[1..], pat);
      assert s == [s[0]] + Join(rest, pat);
      assert !MatchAt(s, pat, 0);
      ConsFirstPiece(s[0], rest, pat);
    }
  }

  /** The step of `SplitIsLeftmost` where the subject does not start with the
      pattern: its first character joins the first piece. */
  lemma {:induction false} ConsFirstPiece(c: char, rest: seq<string>, pat: string)
    requires |pat| > 0 && Leftmost(rest, pat)
    requires !MatchAt([c] + Join(rest, pat), pat, 0)
    ensures Leftmost([[c] + rest[0]] + rest[1..], pat)
  {
    if |rest| > 1 {
      assert Join(rest, pat) == rest[0] + pat + Join(rest[1..], pat);
      LeftmostTail(rest, pat);
      NotMatchingFirstPiece(c, rest[0], pat, Join(rest[1..], pat));
      LeftmostCons([c] + rest[0], rest[1..], pat);
    } else {
      assert Join(rest, pat) == rest[0];
      NotMatchingLastPiece(c, rest[0], pat);
      assert [[c] + rest[0]] + rest[1..] == [[c] + rest[0]];
    }
  }

  /** A first piece that gained a character keeps its match-free prefix. */
  lemma {:induction false} NotMatchingFirstPiece(c: char, piece: string, pat: string, after: string)
    requires !MatchAt([c] + (piece + pat + after), pat, 0)
    requires NoMatchBefore(piece + pat, pat, |piece|)
    ensures NoMatchBefore(([c] + piece) + pat, pat, |piece| + 1)
  {
    var x := [c] + (piece + pat);
    assert [c] + (piece + pat + after) == x + after;
    if MatchAt(x, pat, 0) { MatchInPrefix(x, after, pat, 0); }
    ConsNoMatch(c, piece + pat, pat, |piece|);
    assert x == ([c] + piece) + pat;
  }

  /** A last piece that gained a character still holds no occurrence. */
  lemma {:induction false} NotMatchingLastPiece(c: char, piece: string, pat: string)
    requires |pat| > 0
    requires !MatchAt([c] + piece, pat, 0)
    requires !Occurs(piece, pat)
    ensures !Occurs([c] + piece, pat)
  {
    NoMatchBeforeEnd(piece, pat);
    ConsNoMatch(c, piece, pat, |piece|);
    NoMatchBeforeEnd([c] + piece, pat);
  }

  /** Text with no occurrence of the pattern comes back unchanged. */
  lemma {:induction false} ReplaceWithoutOccurrence(s: string, pat: string, rep: string)
    requires |pat| > 0
    requires !Occurs(s, pat)
    ensures Replace(s, pat, rep) == s
    decreases |s|
  {
    if |s| < |pat| {
    } else {
      assert !MatchAt(s, pat, 0);
      forall k: nat ensures !MatchAt(s[1..], pat, k) {
        MatchShift(s[0], s[1..], pat, k);
        assert [s[0]] + s[1..] == s;
      }
      ReplaceWithoutOccurrence(s[1..], pat, rep);
      assert s == [s[0]] + s[1..];
    }
  }
}
