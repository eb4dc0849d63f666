/** The handful of Python string operations the core relies on. */
module Text {
  import opened Common

  /** Index of the last occurrence of `c` in `s` (Python's `str.rfind`, with None for -1). */
  function LastIndexOf(s: string, c: char): (r: Option<nat>)
    ensures r.None? <==> c !in s
    ensures r.Some? ==> r.value < |s| && s[r.value] == c && c !in s[r.value + 1..]
  {
    if |s| == 0 then None
    else if s[|s| - 1] == c then Some(|s| - 1)
    else
      var r := LastIndexOf(s[..|s| - 1], c);
      assert s == s[..|s| - 1] + [s[|s| - 1]];
      assert r.Some? ==> s[r.value + 1..] == s[..|s| - 1][r.value + 1..] + [s[|s| - 1]];
      r
  }

  /** Python's `s.rsplit(sep, 1)` for a one-character separator: the whole string when `sep`
      does not occur, otherwise the text before and after its last occurrence. */
  function RSplitOnce(s: string, sep: char): (parts: seq<string>)
    ensures sep !in s ==> parts == [s]
    ensures sep in s ==> |parts| == 2 && s == parts[0] + [sep] + parts[1] && sep !in parts[1]
  {
    match LastIndexOf(s, sep)
    case None => [s]
    case Some(i) =>
      assert s == s[..i] + [sep] + s[i + 1..];
      [s[..i], s[i + 1..]]
  }

  /** Splitting at the last separator recovers the two sides of it. */
  lemma RSplitOnceJoin(before: string, sep: char, after: string)
    requires sep !in after
    ensures RSplitOnce(before + [sep] + after, sep) == [before, after]
  {
    var s := before + [sep] + after;
    var parts := RSplitOnce(s, sep);
    assert s[|before|] == sep;
    assert parts[0] == s[..|before|] == before;
    assert parts[1] == s[|before| + 1..] == after;
  }

  /** The last piece of `s.split(sep)`, that is, the text after the last `sep` (all of `s` if none). */
  function LastPiece(s: string, sep: char): (r: string)
    ensures sep !in r
    ensures sep !in s ==> r == s
    ensures sep in s ==> exists i :: 0 <= i < |s| && s[i] == sep && r == s[i + 1..]
  {
    var parts := RSplitOnce(s, sep);
    if sep in s then assert s[|parts[0]|] == sep && parts[1] == s[|parts[0]| + 1..]; parts[1]
    else parts[0]
  }

  /** The last piece of a string with a final `sep` is the text after it. */
  lemma LastPieceAfter(before: string, sep: char, after: string)
    requires sep !in after
    ensures LastPiece(before + [sep] + after, sep) == after
  {
    RSplitOnceJoin(before, sep, after);
    assert (before + [sep] + after)[|before|] == sep;
  }

  /** ASCII lower-casing of one character. */
  function LowerChar(c: char): char {
    if 'A' <= c <= 'Z' then (c as int - 'A' as int + 'a' as int) as char else c
  }

  /** Python's `str.lower()` restricted to ASCII letters, character by character. */
  function Lower(s: string): (r: string)
    ensures |r| == |s|
    ensures forall i :: 0 <= i < |s| ==> r[i] == LowerChar(s[i])
  {
    if |s| == 0 then [] else Lower(s[..|s| - 1]) + [LowerChar(s[|s| - 1])]
  }

  /** `pattern` occurs in `s` starting at index `i`. */
  predicate OccursAt(s: string, pattern: string, i: nat) {
    i + |pattern| <= |s| && s[i..i + |pattern|] == pattern
  }

  /** `pattern` occurs in `s` as a contiguous, case-sensitive substring. */
  predicate Contains(s: string, pattern: string) {
    exists i | 0 <= i <= |s| - |pattern| :: OccursAt(s, pattern, i)
  }

  /** The texts of `xs` written one after another. */
  function Join<T>(xs: seq<T>, text: T -> string): string {
    if xs == [] then "" else Join(xs[..|xs| - 1], text) + text(xs[|xs| - 1])
  }

  lemma JoinSnoc<T>(xs: seq<T>, x: T, text: T -> string)
    ensures Join(xs + [x], text) == Join(xs, text) + text(x)
  {
    assert (xs + [x])[..|xs|] == xs;
  }

  /** Writing two runs one after the other writes the concatenation of their texts. */
  lemma {:induction false} JoinAppend<T>(a: seq<T>, b: seq<T>, text: T -> string)
    ensures Join(a + b, text) == Join(a, text) + Join(b, text)
  {
    if b == [] {
      assert a + b == a;
    } else {
      var init, last := b[..|b| - 1], b[|b| - 1];
      JoinAppend(a, init, text);
      assert b == init + [last];
      assert a + b == (a + init) + [last];
      JoinSnoc(init, last, text);
      JoinSnoc(a + init, last, text);
      var x, y, z := Join(a, text), Join(init, text), text(last);
      assert (x + y) + z == x + (y + z);
    }
  }

  /** The ends of a three-part concatenation are its first and last parts. */
  lemma Ends<T>(x: seq<T>, y: seq<T>, z: seq<T>)
    ensures |x| + |z| <= |x + y + z|
    ensures (x + y + z)[..|x|] == x
    ensures (x + y + z)[|x + y + z| - |z|..] == z
  {
  }
}
