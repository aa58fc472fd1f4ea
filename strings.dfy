/** The Kotlin string operations the CSV code relies on: `split`,
    `joinToString`, `trim` and `contains`. Strings are Dafny strings:
    sequences of characters, each a Unicode scalar value. */
module Strings {

  /** `joinToString(sep)`: the parts with `sep` between neighbours. */
  function Join(parts: seq<string>, sep: char): string
  {
    if parts == [] then ""
    else if |parts| == 1 then parts[0]
    else Join(parts[..|parts| - 1], sep) + [sep] + parts[|parts| - 1]
  }

  /** `split(sep)` with a one-character delimiter: the maximal pieces between
      delimiters, empty pieces included, so there is always at least one. */
  function Split(s: string, sep: char): (r: seq<string>)
    ensures |r| >= 1
    ensures forall i :: 0 <= i < |r| ==> sep !in r[i]
  {
    if s == [] then [""]
    else
      var rest := Split(s[1..], sep);
      if s[0] == sep then [""] + rest
      else [[s[0]] + rest[0]] + rest[1..]
  }

  /** Joining on a prefix: `Join([a] + ps) == a + sep + Join(ps)` for non-empty ps. */
  lemma {:induction false} JoinCons(a: string, ps: seq<string>, sep: char)
    requires ps != []
    ensures Join([a] + ps, sep) == a + [sep] + Join(ps, sep)
  {
    if |ps| == 1 {
      assert ([a] + ps)[..1] == [a];
    } else {
      var init := ps[..|ps| - 1];
      JoinCons(a, init, sep);
      assert ([a] + ps)[..|ps|] == [a] + init;
    }
  }

  /** Splitting and joining back on the same delimiter is the identity. */
  lemma {:induction false} JoinSplit(s: string, sep: char)
    ensures Join(Split(s, sep), sep) == s
  {
    if s != [] {
      JoinSplit(s[1..], sep);
      if s[0] == sep {
        JoinSplitAtSep(s, sep);
      } else {
        JoinSplitAtOther(s, sep);
      }
    }
  }

  /** The step of JoinSplit when s starts with the delimiter. */
  lemma {:induction false} JoinSplitAtSep(s: string, sep: char)
    requires s != [] && s[0] == sep && Join(Split(s[1..], sep), sep) == s[1..]
    ensures Join(Split(s, sep), sep) == s
  {
    var rest := Split(s[1..], sep);
    assert s == [s[0]] + s[1..];
    JoinCons("", rest, sep);
    assert Join(Split(s, sep), sep) == [sep] + Join(rest, sep);
  }

  /** The step of JoinSplit when s starts with any other character. */
  lemma {:induction false} JoinSplitAtOther(s: string, sep: char)
    requires s != [] && s[0] != sep && Join(Split(s[1..], sep), sep) == s[1..]
    ensures Join(Split(s, sep), sep) == s
  {
    var rest := Split(s[1..], sep);
    assert Split(s, sep) == [[s[0]] + rest[0]] + rest[1..];
    JoinPrepend(s[0], rest, sep);
    assert s == [s[0]] + s[1..];
  }

  /** Prefixing the first part with c prefixes the joined text with c. */
  lemma {:induction false} JoinPrepend(c: char, parts: seq<string>, sep: char)
    requires |parts| >= 1
    ensures Join([[c] + parts[0]] + parts[1..], sep) == [c] + Join(parts, sep)
  {
    var first := [c] + parts[0];
    var others := parts[1..];
    if |parts| == 1 {
      assert [first] + others == [first];
    } else {
      assert parts == [parts[0]] + others;
      JoinCons(parts[0], others, sep);
      JoinCons(first, others, sep);
    }
  }

  /** The number of occurrences of c in s. */
  function Occurrences(s: string, c: char): nat
  {
    if s == [] then 0 else (if s[0] == c then 1 else 0) + Occurrences(s[1..], c)
  }

  /** `split` yields one more piece than there are delimiters. */
  lemma {:induction false} SplitCount(s: string, sep: char)
    ensures |Split(s, sep)| == Occurrences(s, sep) + 1
  {
    if s != [] {
      SplitCount(s[1..], sep);
    }
  }

  /** `Char.isWhitespace()`: the characters for which `Character.isWhitespace`
      or `Character.isSpaceChar` holds. */
  predicate IsWhitespace(c: char)
  {
    || ('\U{0009}' <= c <= '\U{000D}') || ('\U{001C}' <= c <= '\U{001F}') || c == '\U{0020}'
    || c == '\U{00A0}' || c == '\U{1680}' || ('\U{2000}' <= c <= '\U{200A}')
    || c == '\U{2028}' || c == '\U{2029}' || c == '\U{202F}' || c == '\U{205F}' || c == '\U{3000}'
  }

  /** The number of leading whitespace characters of s. */
  function LeadingWhitespace(s: string): (n: nat)
    ensures n <= |s|
    ensures forall i :: 0 <= i < n ==> IsWhitespace(s[i])
    ensures n < |s| ==> !IsWhitespace(s[n])
  {
    if s == [] || !IsWhitespace(s[0]) then 0 else 1 + LeadingWhitespace(s[1..])
  }

  /** The number of trailing whitespace characters of s. */
  function TrailingWhitespace(s: string): (n: nat)
    ensures n <= |s|
    ensures forall i :: |s| - n <= i < |s| ==> IsWhitespace(s[i])
    ensures n < |s| ==> !IsWhitespace(s[|s| - n - 1])
  {
    if s == [] || !IsWhitespace(s[|s| - 1]) then 0 else 1 + TrailingWhitespace(s[..|s| - 1])
  }

  /** `trim()`: s without its leading and trailing whitespace. The result is
      the slice of s between the first and the last non-whitespace character,
      so it neither starts nor ends with whitespace; an all-blank s trims to "". */
  function Trim(s: string): (r: string)
    ensures exists lo, hi ::
      && 0 <= lo <= hi <= |s| && r == s[lo..hi]
      && (forall i :: 0 <= i < lo ==> IsWhitespace(s[i]))
      && (forall i :: hi <= i < |s| ==> IsWhitespace(s[i]))
    ensures r != [] ==> !IsWhitespace(r[0]) && !IsWhitespace(r[|r| - 1])
    ensures (forall i :: 0 <= i < |s| ==> IsWhitespace(s[i])) ==> r == []
  {
    var lo := LeadingWhitespace(s);
    var t := s[lo..];
    var n := TrailingWhitespace(t);
    var hi := lo + |t| - n;
    var r := t[..|t| - n];
    assert r == s[lo..hi];
    assert forall i :: hi <= i < |s| ==> IsWhitespace(s[i]) by {
      forall i | hi <= i < |s|
        ensures IsWhitespace(s[i])
      {
        assert s[i] == t[i - lo];
      }
    }
    assert r != [] ==> r[|r| - 1] == t[|t| - n - 1];
    r
  }

  /** Trimming keeps only characters of s: a character absent from s is absent from `trim()`. */
  lemma {:induction false} TrimKeepsAbsent(s: string, c: char)
    requires c !in s
    ensures c !in Trim(s)
  {
    var r := Trim(s);
    var lo, hi :| 0 <= lo <= hi <= |s| && r == s[lo..hi];
    forall k | 0 <= k < |r|
      ensures r[k] != c
    {
      assert r[k] == s[lo + k];
    }
  }

  /** Trimming twice is trimming once. */
  lemma {:induction false} TrimIdempotent(s: string)
    ensures Trim(Trim(s)) == Trim(s)
  {
    var r := Trim(s);
    if r != [] {
      assert LeadingWhitespace(r) == 0;
      assert r[0..] == r;
      assert TrailingWhitespace(r) == 0;
      assert r[..|r|] == r;
    }
  }
}
