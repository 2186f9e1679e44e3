/**
 * String helpers the request encoders and the fake sender rely on:
 * joining and splitting on a separator (Go's strings.Join and
 * strings.Split) and trimming white space (Go's strings.TrimSpace).
 */
module Text {

  /** Every character is in the 7-bit ASCII range. */
  predicate IsAscii(s: string)
  {
    forall k :: 0 <= k < |s| ==> s[k] as int < 0x80
  }

  /** Go's unicode.IsSpace: the Unicode White_Space characters. */
  predicate IsSpace(c: char)
  {
    if c < '\U{85}' then '\t' <= c <= '\r' || c == ' '
    else
      c == '\U{85}' || c == '\U{A0}' || c == '\U{1680}' || ('\U{2000}' <= c <= '\U{200A}')
      || c == '\U{2028}' || c == '\U{2029}' || c == '\U{202F}' || c == '\U{205F}' || c == '\U{3000}'
  }

  /** The number of white-space characters at the start of s. */
  function LeadingSpaces(s: string): (n: nat)
    ensures n <= |s|
    ensures forall k :: 0 <= k < n ==> IsSpace(s[k])
    ensures n < |s| ==> !IsSpace(s[n])
  {
    if |s| > 0 && IsSpace(s[0]) then 1 + LeadingSpaces(s[1..]) else 0
  }

  /** The number of white-space characters at the end of s. */
  function TrailingSpaces(s: string): (n: nat)
    ensures n <= |s|
    ensures forall k :: |s| - n <= k < |s| ==> IsSpace(s[k])
    ensures n < |s| ==> !IsSpace(s[|s| - 1 - n])
  {
    if |s| > 0 && IsSpace(s[|s| - 1]) then 1 + TrailingSpaces(s[..|s| - 1]) else 0
  }

  /**
   * strings.TrimSpace: s with every leading and trailing white-space
   * character removed. The result is the one slice of s whose outside is
   * all white space and whose two ends are not.
   */
  function TrimSpace(s: string): (r: string)
    ensures |r| <= |s|
    ensures exists i :: TrimmedAt(s, r, i)
    ensures r != [] ==> !IsSpace(r[0]) && !IsSpace(r[|r| - 1])
  {
    var i := LeadingSpaces(s);
    var t := s[i..];
    var j := TrailingSpaces(t);
    assert forall k :: i + |t[..|t| - j]| <= k < |s| ==> s[k] == t[k - i];
    assert TrimmedAt(s, t[..|t| - j], i);
    t[..|t| - j]
  }

  /** r is the slice of s starting at i, and everything around it is white space. */
  predicate TrimmedAt(s: string, r: string, i: int)
  {
    0 <= i <= |s| - |r| && r == s[i..i + |r|]
    && (forall k :: 0 <= k < i ==> IsSpace(s[k]))
    && (forall k :: i + |r| <= k < |s| ==> IsSpace(s[k]))
  }

  /** A string whose ends are not white space is left alone by TrimSpace. */
  lemma TrimSpaceOfTrimmed(s: string)
    requires s != [] ==> !IsSpace(s[0]) && !IsSpace(s[|s| - 1])
    ensures TrimSpace(s) == s
  {
  }

  /** Trailing white space is dropped by TrimSpace. */
  lemma {:induction false} TrimSpaceTrailing(s: string, w: string)
    requires s != [] ==> !IsSpace(s[0]) && !IsSpace(s[|s| - 1])
    requires forall k :: 0 <= k < |w| ==> IsSpace(w[k])
    ensures TrimSpace(s + w) == s
  {
    var x := s + w;
    if s == [] {
      assert x == w;
      AllSpaces(x);
      assert x[|x|..] == [];
    } else {
      assert x[0] == s[0];
      assert LeadingSpaces(x) == 0;
      assert x[0..] == x;
      TrailingOfSuffix(s, w);
      assert x[..|x| - |w|] == s;
    }
  }

  lemma {:induction false} AllSpaces(x: string)
    requires forall k :: 0 <= k < |x| ==> IsSpace(x[k])
    ensures LeadingSpaces(x) == |x|
  {
    if |x| > 0 {
      AllSpaces(x[1..]);
    }
  }

  lemma {:induction false} TrailingOfSuffix(s: string, w: string)
    requires s != [] && !IsSpace(s[|s| - 1])
    requires forall k :: 0 <= k < |w| ==> IsSpace(w[k])
    ensures TrailingSpaces(s + w) == |w|
  {
    if |w| > 0 {
      var x := s + w;
      assert x[..|x| - 1] == s + w[..|w| - 1];
      TrailingOfSuffix(s, w[..|w| - 1]);
    } else {
      assert s + w == s;
    }
  }

  /** strings.Join with a one-character separator. */
  function Join(parts: seq<string>, sep: char): string
  {
    if |parts| == 0 then ""
    else if |parts| == 1 then parts[0]
    else parts[0] + [sep] + Join(parts[1..], sep)
  }

  /**
   * strings.Split with a one-character separator: the pieces between the
   * separators, so there is always at least one piece.
   */
  function Split(s: string, sep: char): (r: seq<string>)
    ensures |r| >= 1
    ensures forall i :: 0 <= i < |r| ==> sep !in r[i]
  {
    if |s| == 0 then [""]
    else
      var rest := Split(s[1..], sep);
      if s[0] == sep then [""] + rest
      else [[s[0]] + rest[0]] + rest[1..]
  }

  /** The total length of parts plus one separator per part. */
  function Cost(parts: seq<string>): nat
  {
    if |parts| == 0 then 0 else |parts[0]| + 1 + Cost(parts[1..])
  }

  /** A joined string is one character shorter than its cost (or empty). */
  lemma {:induction false} JoinLength(parts: seq<string>, sep: char)
    ensures |Join(parts, sep)| + (if |parts| == 0 then 0 else 1) == Cost(parts)
  {
    if |parts| > 1 {
      JoinLength(parts[1..], sep);
    }
  }

  /** A join ends with the end of its last part. */
  lemma {:induction false} JoinLast(parts: seq<string>, sep: char)
    requires |parts| >= 1 && |parts[|parts| - 1]| >= 1
    ensures var j := Join(parts, sep); var last := parts[|parts| - 1];
      |j| >= 1 && j[|j| - 1] == last[|last| - 1]
  {
    if |parts| > 1 {
      JoinLast(parts[1..], sep);
    }
  }

  lemma {:induction false} CostAppend(a: seq<string>, b: seq<string>)
    ensures Cost(a + b) == Cost(a) + Cost(b)
  {
    if |a| > 0 {
      assert (a + b)[1..] == a[1..] + b;
      CostAppend(a[1..], b);
    } else {
      assert a + b == b;
    }
  }

  /** Splitting a separator-free prefix glued to t extends Split(t)'s first piece. */
  lemma {:induction false} SplitPrefix(p: string, t: string, sep: char)
    requires sep !in p
    ensures Split(p + t, sep) == [p + Split(t, sep)[0]] + Split(t, sep)[1..]
  {
    if |p| > 0 {
      assert (p + t)[1..] == p[1..] + t;
      SplitPrefix(p[1..], t, sep);
      assert [p[0]] + (p[1..] + Split(t, sep)[0]) == p + Split(t, sep)[0];
    } else {
      assert p + t == t;
      var r := Split(t, sep);
      assert p + r[0] == r[0];
      assert r == [r[0]] + r[1..];
    }
  }

  /** Split undoes Join when no part contains the separator. */
  lemma {:induction false} SplitJoin(parts: seq<string>, sep: char)
    requires |parts| >= 1
    requires forall i :: 0 <= i < |parts| ==> sep !in parts[i]
    ensures Split(Join(parts, sep), sep) == parts
  {
    if |parts| == 1 {
      SplitPrefix(parts[0], "", sep);
      assert parts[0] + "" == parts[0];
    } else {
      var rest := Join(parts[1..], sep);
      SplitJoin(parts[1..], sep);
      assert parts[0] + [sep] + rest == parts[0] + ([sep] + rest);
      SplitPrefix(parts[0], [sep] + rest, sep);
      assert ([sep] + rest)[1..] == rest;
      assert parts[0] + "" == parts[0];
    }
  }
}
