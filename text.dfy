/**
 * The string operations the source applies: ASCII `toLowerCase` and
 * `toUpperCase`, `startsWith`, `includes`, splitting at separator
 * characters and joining, and "the text after the last dot".
 * Strings are restricted to ASCII for case mapping: other characters
 * are left unchanged by both case maps.
 */
module Text {

  function LowerChar(c: char): char
  {
    if 'A' <= c <= 'Z' then (c as int + 32) as char else c
  }

  function UpperChar(c: char): char
  {
    if 'a' <= c <= 'z' then (c as int - 32) as char else c
  }

  /** `s.toLowerCase()` restricted to ASCII letters. */
  function Lower(s: string): (r: string)
    ensures |r| == |s|
    ensures forall i :: 0 <= i < |s| ==> r[i] == LowerChar(s[i])
  {
    seq(|s|, i requires 0 <= i < |s| => LowerChar(s[i]))
  }

  /** `s.toUpperCase()` restricted to ASCII letters. */
  function Upper(s: string): (r: string)
    ensures |r| == |s|
    ensures forall i :: 0 <= i < |s| ==> r[i] == UpperChar(s[i])
  {
    seq(|s|, i requires 0 <= i < |s| => UpperChar(s[i]))
  }

  lemma LowerConcat(s: string, t: string)
    ensures Lower(s + t) == Lower(s) + Lower(t)
  {
  }

  /** `s.startsWith(prefix)`. */
  predicate StartsWith(s: string, prefix: string)
  {
    |prefix| <= |s| && s[..|prefix|] == prefix
  }

  /** `s.includes(sub)`: `sub` occurs in `s` at some position. */
  predicate Contains(s: string, sub: string)
    decreases |s|
  {
    StartsWith(s, sub) || (|s| > 0 && Contains(s[1..], sub))
  }

  /** `Contains` is the positional definition of substring occurrence. */
  lemma {:induction false} ContainsAt(s: string, sub: string, i: nat)
    requires i + |sub| <= |s| && s[i..i + |sub|] == sub
    ensures Contains(s, sub)
    decreases i
  {
    if i > 0 {
      assert s[1..][i - 1..i - 1 + |sub|] == s[i..i + |sub|];
      ContainsAt(s[1..], sub, i - 1);
    }
  }

  /** Text appended after an occurrence does not remove it. */
  lemma {:induction false} ContainsAppend(s: string, t: string, sub: string)
    requires Contains(s, sub)
    ensures Contains(s + t, sub)
    decreases |s|
  {
    if StartsWith(s, sub) {
      assert (s + t)[..|sub|] == s[..|sub|];
    } else {
      ContainsAppend(s[1..], t, sub);
      assert (s + t)[1..] == s[1..] + t;
    }
  }

  /** Text put in front of an occurrence does not remove it either. */
  lemma {:induction false} ContainsPrepend(t: string, s: string, sub: string)
    requires Contains(s, sub)
    ensures Contains(t + s, sub)
    decreases |t|
  {
    if t != [] {
      ContainsPrepend(t[1..], s, sub);
      assert (t + s)[1..] == t[1..] + s;
      assert |t + s| > 0 && Contains((t + s)[1..], sub);
    } else {
      assert t + s == s;
    }
  }

  /**
   * `s.split('.').pop()`: the text after the last '.', or all of `s` when
   * it has no '.' (the array `split` returns is never empty, so `pop`
   * always yields a string).
   */
  function LastSegment(s: string): (r: string)
    ensures '.' !in r
    ensures |r| <= |s| && r == s[|s| - |r|..]
    ensures |r| < |s| ==> s[|s| - |r| - 1] == '.'
  {
    if s == [] then ""
    else if s[|s| - 1] == '.' then ""
    else LastSegment(s[..|s| - 1]) + [s[|s| - 1]]
  }

  /** A name without '.' is its own last segment. */
  lemma {:induction false} LastSegmentNoDot(s: string)
    ensures '.' !in s ==> LastSegment(s) == s
  {
    if s != [] && '.' !in s {
      var init := s[..|s| - 1];
      assert s[|s| - 1] in s;
      LastSegmentNoDot(init);
      assert init + [s[|s| - 1]] == s;
    }
  }

  /** Appending a segment after a '.' makes that segment the last one. */
  lemma {:induction false} LastSegmentAfterDot(prefix: string, ext: string)
    requires '.' !in ext
    ensures LastSegment(prefix + "." + ext) == ext
    decreases |ext|
  {
    var s := prefix + "." + ext;
    if ext != [] {
      var init := ext[..|ext| - 1];
      assert s[..|s| - 1] == prefix + "." + init;
      LastSegmentAfterDot(prefix, init);
      assert init + [ext[|ext| - 1]] == ext;
    }
  }

  /** `s.split(sep)` where `sep` matches single characters: the pieces between separators. */
  function SplitAt(s: string, isSep: char -> bool): (r: seq<string>)
    ensures |r| > 0
  {
    if s == [] then [""]
    else
      var rest := SplitAt(s[1..], isSep);
      if isSep(s[0]) then [""] + rest else [[s[0]] + rest[0]] + rest[1..]
  }

  /** `ws.join(sep)`. */
  function Join(ws: seq<string>, sep: string): string
  {
    if ws == [] then ""
    else if |ws| == 1 then ws[0]
    else ws[0] + sep + Join(ws[1..], sep)
  }
}
