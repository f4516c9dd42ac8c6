/**
 * The PHP string functions the migration helpers rely on, on byte strings
 * (one `char` per byte, as PHP's `strlen` counts them).
 */
module PhpStrings {

  /** `ltrim($s, $chars)`: drops the longest prefix made only of characters in `chars`. */
  function LTrim(s: string, chars: set<char>): string
    decreases |s|
  {
    if |s| > 0 && s[0] in chars then LTrim(s[1..], chars) else s
  }

  /** `rtrim($s, $chars)`: drops the longest suffix made only of characters in `chars`. */
  function RTrim(s: string, chars: set<char>): string
    decreases |s|
  {
    if |s| > 0 && s[|s| - 1] in chars then RTrim(s[..|s| - 1], chars) else s
  }

  /** `ltrim` keeps a suffix, everything it drops is in `chars`, and what it keeps does not start with one. */
  lemma {:induction false} LTrimDropsLongestPrefix(s: string, chars: set<char>)
    ensures var r := LTrim(s, chars);
      && |r| <= |s| && r == s[|s| - |r|..]
      && (forall j :: 0 <= j < |s| - |r| ==> s[j] in chars)
      && (r == [] || r[0] !in chars)
    decreases |s|
  {
    if |s| > 0 && s[0] in chars {
      LTrimDropsLongestPrefix(s[1..], chars);
      var r := LTrim(s, chars);
      assert r == LTrim(s[1..], chars);
      assert s[1..][|s| - 1 - |r|..] == s[|s| - |r|..];
      forall j | 1 <= j < |s| - |r|
        ensures s[j] in chars
      {
        assert s[1..][j - 1] == s[j];
      }
    }
  }

  /** `rtrim` keeps a prefix, everything it drops is in `chars`, and what it keeps does not end with one. */
  lemma {:induction false} RTrimDropsLongestSuffix(s: string, chars: set<char>)
    ensures var r := RTrim(s, chars);
      && |r| <= |s| && r == s[..|r|]
      && (forall j :: |r| <= j < |s| ==> s[j] in chars)
      && (r == [] || r[|r| - 1] !in chars)
    decreases |s|
  {
    if |s| > 0 && s[|s| - 1] in chars {
      var q := s[..|s| - 1];
      RTrimDropsLongestSuffix(q, chars);
      var r := RTrim(s, chars);
      assert r == RTrim(q, chars);
      assert q[..|r|] == s[..|r|];
      forall j | |r| <= j < |s| - 1
        ensures s[j] in chars
      {
        assert q[j] == s[j];
      }
    }
  }

  /** Trimming characters of `chars` off the front skips a prefix made of them. */
  lemma {:induction false} LTrimSkipsPrefix(p: string, s: string, chars: set<char>)
    requires forall j :: 0 <= j < |p| ==> p[j] in chars
    ensures LTrim(p + s, chars) == LTrim(s, chars)
    decreases |p|
  {
    if p != [] {
      assert (p + s)[0] == p[0];
      assert (p + s)[1..] == p[1..] + s;
      LTrimSkipsPrefix(p[1..], s, chars);
    } else {
      assert p + s == s;
    }
  }

  /** A string that does not start with a character of `chars` is its own `ltrim`. */
  lemma LTrimStops(s: string, chars: set<char>)
    requires s == [] || s[0] !in chars
    ensures LTrim(s, chars) == s
  {
  }

  /** A string that does not end with a character of `chars` is its own `rtrim`. */
  lemma RTrimStops(s: string, chars: set<char>)
    requires s == [] || s[|s| - 1] !in chars
    ensures RTrim(s, chars) == s
  {
  }

  /** Trimming characters of `chars` off the back skips a suffix made of them. */
  lemma {:induction false} RTrimSkipsSuffix(s: string, p: string, chars: set<char>)
    requires forall j :: 0 <= j < |p| ==> p[j] in chars
    ensures RTrim(s + p, chars) == RTrim(s, chars)
    decreases |p|
  {
    if p != [] {
      var q := p[..|p| - 1];
      assert (s + p)[|s + p| - 1] == p[|p| - 1];
      assert (s + p)[..|s + p| - 1] == s + q;
      RTrimSkipsSuffix(s, q, chars);
    } else {
      assert s + p == s;
    }
  }

  /**
   * `strtr($s, array_fill_keys($chars, ''))`: every character of `chars` is
   * replaced by the empty string, all other characters are kept in order.
   */
  function DeleteChars(s: string, chars: set<char>): (r: string)
    ensures |r| <= |s|
    ensures forall i :: 0 <= i < |r| ==> r[i] !in chars && r[i] in s
    decreases |s|
  {
    if s == [] then []
    else (if s[0] in chars then [] else [s[0]]) + DeleteChars(s[1..], chars)
  }

  /** Deleting characters distributes over concatenation. */
  lemma {:induction false} DeleteCharsAppend(a: string, b: string, chars: set<char>)
    ensures DeleteChars(a + b, chars) == DeleteChars(a, chars) + DeleteChars(b, chars)
    decreases |a|
  {
    if a != [] {
      assert (a + b)[0] == a[0];
      assert (a + b)[1..] == a[1..] + b;
      DeleteCharsAppend(a[1..], b, chars);
    } else {
      assert a + b == b;
    }
  }

  /** A string with none of the characters is left as it is. */
  lemma {:induction false} DeleteCharsKeepsClean(s: string, chars: set<char>)
    requires forall i :: 0 <= i < |s| ==> s[i] !in chars
    ensures DeleteChars(s, chars) == s
    decreases |s|
  {
    if s != [] {
      DeleteCharsKeepsClean(s[1..], chars);
    }
  }

  /** `implode($glue, $parts)`. */
  function Implode(glue: string, parts: seq<string>): string
    decreases |parts|
  {
    if |parts| == 0 then ""
    else if |parts| == 1 then parts[0]
    else parts[0] + glue + Implode(glue, parts[1..])
  }

  /** `explode($sep, $s)` for a one-character separator: never empty, no piece holds the separator. */
  function Explode(sep: char, s: string): (parts: seq<string>)
    ensures |parts| >= 1
    ensures forall k :: 0 <= k < |parts| ==> sep !in parts[k]
    decreases |s|
  {
    if s == [] then [[]]
    else
      var rest := Explode(sep, s[1..]);
      if s[0] == sep then [[]] + rest
      else [[s[0]] + rest[0]] + rest[1..]
  }

  /** Every occurrence of `c` in `s` replaced by `glue`. */
  function ReplaceChar(s: string, c: char, glue: string): (r: string)
    ensures forall i :: 0 <= i < |r| ==> r[i] in glue || (r[i] in s && r[i] != c)
    decreases |s|
  {
    if s == [] then []
    else (if s[0] == c then glue else [s[0]]) + ReplaceChar(s[1..], c, glue)
  }

  /** Exploding on `sep` and imploding with `glue` replaces each `sep` by `glue`. */
  lemma {:induction false} ImplodeExplodeReplaces(sep: char, glue: string, s: string)
    ensures Implode(glue, Explode(sep, s)) == ReplaceChar(s, sep, glue)
    decreases |s|
  {
    if s != [] {
      var rest := Explode(sep, s[1..]);
      ImplodeExplodeReplaces(sep, glue, s[1..]);
      if s[0] == sep {
        assert ([[]] + rest)[1..] == rest;
      } else {
        var parts := [[s[0]] + rest[0]] + rest[1..];
        assert parts[1..] == rest[1..];
        if |rest| > 1 {
          assert Implode(glue, rest) == rest[0] + glue + Implode(glue, rest[1..]);
        }
      }
    }
  }

  /** Exploding a string that starts with a separator-free piece `p`. */
  lemma {:induction false} ExplodeAfterPiece(sep: char, p: string, t: string)
    requires sep !in p
    ensures Explode(sep, p + t) == [p + Explode(sep, t)[0]] + Explode(sep, t)[1..]
    decreases |p|
  {
    if p != [] {
      assert (p + t)[0] == p[0];
      assert (p + t)[1..] == p[1..] + t;
      ExplodeAfterPiece(sep, p[1..], t);
      assert [p[0]] + (p[1..] + Explode(sep, t)[0]) == p + Explode(sep, t)[0];
    } else {
      var e := Explode(sep, t);
      assert p + t == t;
      assert p + e[0] == e[0];
      assert [e[0]] + e[1..] == e;
    }
  }

  /** Exploding undoes imploding with the separator, when no piece holds it. */
  lemma {:induction false} ExplodeImplode(sep: char, parts: seq<string>)
    requires |parts| >= 1
    requires forall k :: 0 <= k < |parts| ==> sep !in parts[k]
    ensures Explode(sep, Implode([sep], parts)) == parts
    decreases |parts|
  {
    if |parts| == 1 {
      ExplodeAfterPiece(sep, parts[0], []);
      assert parts[0] + [] == parts[0];
    } else {
      var t := [sep] + Implode([sep], parts[1..]);
      assert Implode([sep], parts) == parts[0] + t;
      ExplodeAfterPiece(sep, parts[0], t);
      assert t[1..] == Implode([sep], parts[1..]);
      ExplodeImplode(sep, parts[1..]);
      assert Explode(sep, t) == [[]] + parts[1..];
      assert parts[0] + [] == parts[0];
    }
  }

  /** `strtoupper` on one byte: ASCII letters only. */
  function ToUpperChar(c: char): char
  {
    if 'a' <= c <= 'z' then (c as int - 32) as char else c
  }

  /** `strtoupper($s)`: ASCII upper-casing, byte by byte. */
  function ToUpper(s: string): (r: string)
    ensures |r| == |s|
    ensures forall i :: 0 <= i < |s| ==> r[i] == ToUpperChar(s[i])
  {
    seq(|s|, i requires 0 <= i < |s| => ToUpperChar(s[i]))
  }

  /** Upper-casing twice is upper-casing once. */
  lemma ToUpperIdempotent(s: string)
    ensures ToUpper(ToUpper(s)) == ToUpper(s)
  {
    assert forall i :: 0 <= i < |s| ==> ToUpperChar(ToUpperChar(s[i])) == ToUpperChar(s[i]);
  }
}
