/** The small part of Python's `str` that the classification rules use:
    ASCII `lower()`, `strip()`, the substring test `in`, `endswith` and
    `split(sep)`. Strings are plain `seq<char>`. */
module Text {

  /** Python's `str.isspace()` restricted to ASCII: tab, line feed, vertical
      tab, form feed, carriage return, the four separator controls and space. */
  predicate IsSpace(c: char) {
    c == ' ' || '\t' <= c <= '\r' || '\U{1C}' <= c <= '\U{1F}'
  }

  predicate AllSpace(s: string) {
    forall i :: 0 <= i < |s| ==> IsSpace(s[i])
  }

  /** ASCII lower-casing of one character. */
  function LowerChar(c: char): char {
    if 'A' <= c <= 'Z' then (c as int - 'A' as int + 'a' as int) as char else c
  }

  /** `s.lower()` for ASCII text. */
  function Lower(s: string): string {
    seq(|s|, i requires 0 <= i < |s| => LowerChar(s[i]))
  }

  /** `t in s`: t occurs in s as a contiguous block (the empty string occurs everywhere). */
  predicate Contains(s: string, t: string) {
    exists i :: 0 <= i <= |s| && t <= s[i..]
  }

  /** `s.endswith(suffix)`. */
  predicate EndsWith(s: string, suffix: string) {
    |suffix| <= |s| && s[|s| - |suffix|..] == suffix
  }

  /** Leading whitespace removed (`s.lstrip()`). */
  function TrimStart(s: string): string
    decreases |s|
  {
    if |s| > 0 && IsSpace(s[0]) then TrimStart(s[1..]) else s
  }

  /** Trailing whitespace removed (`s.rstrip()`). */
  function TrimEnd(s: string): string
    decreases |s|
  {
    if |s| > 0 && IsSpace(s[|s| - 1]) then TrimEnd(s[..|s| - 1]) else s
  }

  /** `s.strip()`. */
  function Trim(s: string): string {
    TrimEnd(TrimStart(s))
  }

  /** lstrip() keeps a suffix of s, drops only whitespace, and stops at the
      first character that is not whitespace. */
  lemma {:induction false} TrimStartSpec(s: string)
    ensures |TrimStart(s)| <= |s| && TrimStart(s) == s[|s| - |TrimStart(s)|..]
    ensures AllSpace(s[..|s| - |TrimStart(s)|])
    ensures TrimStart(s) == [] || !IsSpace(TrimStart(s)[0])
    decreases |s|
  {
    if |s| > 0 && IsSpace(s[0]) {
      TrimStartSpec(s[1..]);
      var k := |s| - |TrimStart(s)|;
      assert s[..k] == [s[0]] + s[1..][..k - 1];
    }
  }

  /** rstrip() keeps a prefix of s, drops only whitespace, and stops at the
      last character that is not whitespace. */
  lemma {:induction false} TrimEndSpec(s: string)
    ensures |TrimEnd(s)| <= |s| && TrimEnd(s) == s[..|TrimEnd(s)|]
    ensures AllSpace(s[|TrimEnd(s)|..])
    ensures TrimEnd(s) == [] || !IsSpace(TrimEnd(s)[|TrimEnd(s)| - 1])
    decreases |s|
  {
    if |s| > 0 && IsSpace(s[|s| - 1]) {
      TrimEndSpec(s[..|s| - 1]);
      var k := |TrimEnd(s)|;
      assert s[k..] == s[..|s| - 1][k..] + [s[|s| - 1]];
    }
  }

  /** strip() keeps the block of s between the leading and the trailing
      whitespace: nothing but whitespace lies outside it, the block neither
      starts nor ends with whitespace, and it is empty exactly when s is all
      whitespace. */
  lemma TrimSpec(s: string)
    ensures exists i, j :: 0 <= i <= j <= |s| && Trim(s) == s[i..j] && AllSpace(s[..i]) && AllSpace(s[j..])
    ensures Trim(s) == [] || (!IsSpace(Trim(s)[0]) && !IsSpace(Trim(s)[|Trim(s)| - 1]))
    ensures Trim(s) == [] <==> AllSpace(s)
  {
    var t := TrimStart(s);
    var r := Trim(s);
    TrimStartSpec(s);
    TrimEndSpec(t);
    var i := |s| - |t|;
    assert r == s[i..i + |r|];
    assert s[i + |r|..] == t[|r|..];
    if r == [] {
      // lstrip() already consumed everything: had it stopped at a character,
      // that character would still head the rstrip()ped text
      assert t == [];
      forall k | 0 <= k < |s| ensures IsSpace(s[k]) {
        assert s[..i][k] == s[k];
      }
    } else {
      assert s[i] == r[0];
    }
  }

  /** `s.split(sep)`: the maximal separator-free blocks of s, in order; an
      empty s gives one empty block, and two adjacent separators an empty one. */
  function SplitOn(s: string, sep: char): (parts: seq<string>)
    ensures |parts| >= 1
    ensures parts[0] <= s
    ensures forall k :: 0 <= k < |parts| ==> sep !in parts[k]
    ensures Join(parts, sep) == s
    decreases |s|
  {
    if |s| == 0 then [""]
    else
      var rest := SplitOn(s[1..], sep);
      if s[0] == sep then
        assert s == [sep] + s[1..];
        [""] + rest
      else
        var parts := [[s[0]] + rest[0]] + rest[1..];
        assert |rest| > 1 ==> Join(rest, sep) == rest[0] + [sep] + Join(rest[1..], sep);
        assert parts[1..] == rest[1..];
        parts
  }

  /** `sep.join(parts)`, the inverse of SplitOn. */
  function Join(parts: seq<string>, sep: char): string
    requires |parts| >= 1
    decreases |parts|
  {
    if |parts| == 1 then parts[0] else parts[0] + [sep] + Join(parts[1..], sep)
  }

  // ---------------------------------------------------------------------
  // Facts about these helpers
  // ---------------------------------------------------------------------

  lemma ContainsPrefix(s: string, t: string)
    requires t <= s
    ensures Contains(s, t)
  {
    assert s[0..] == s;
  }

  /** An occurrence in a slice is an occurrence in the whole string. */
  lemma ContainsSlice(s: string, i: int, j: int, t: string)
    requires 0 <= i <= j <= |s| && Contains(s[i..j], t)
    ensures Contains(s, t)
  {
    var k :| 0 <= k <= j - i && t <= s[i..j][k..];
    assert s[i..j][k..] <= s[i + k..];
  }

  /** The text between a prefix and a suffix occurs in the concatenation. */
  lemma ContainsMiddle(a: string, t: string, b: string)
    ensures Contains(a + t + b, t)
  {
    assert t <= (a + t + b)[|a|..];
  }

  lemma ContainsAfter(a: string, b: string, t: string)
    requires Contains(b, t)
    ensures Contains(a + b, t)
  {
    var k :| 0 <= k <= |b| && t <= b[k..];
    assert b[k..] == (a + b)[|a| + k..];
  }

  lemma EndsWithContains(s: string, t: string)
    requires EndsWith(s, t)
    ensures Contains(s, t)
  {
    assert t <= s[|s| - |t|..];
  }

  /** Occurrence is transitive: a block of a block of s is a block of s. */
  lemma ContainsTransitive(s: string, u: string, t: string)
    requires Contains(s, u) && Contains(u, t)
    ensures Contains(s, t)
  {
    var m :| 0 <= m <= |s| && u <= s[m..];
    assert u == s[m..m + |u|];
    ContainsSlice(s, m, m + |u|, t);
  }

  lemma ContainsTrim(s: string, t: string)
    requires Contains(Trim(s), t)
    ensures Contains(s, t)
  {
    TrimSpec(s);
    var i, j :| 0 <= i <= j <= |s| && Trim(s) == s[i..j];
    ContainsSlice(s, i, j, t);
  }

  lemma LowerSlice(s: string, i: int, j: int)
    requires 0 <= i <= j <= |s|
    ensures Lower(s[i..j]) == Lower(s)[i..j]
  {
  }

  /** Trimming only removes characters: whatever the trimmed, lower-cased text
      contains, the lower-cased original contains too. */
  lemma ContainsLowerTrim(s: string, t: string)
    ensures Contains(Lower(Trim(s)), t) ==> Contains(Lower(s), t)
  {
    if Contains(Lower(Trim(s)), t) {
      TrimSpec(s);
      var i, j :| 0 <= i <= j <= |s| && Trim(s) == s[i..j];
      LowerSlice(s, i, j);
      ContainsSlice(Lower(s), i, j, t);
    }
  }

  /** Text with no whitespace at either end is its own trim. */
  lemma TrimNoEdgeSpace(s: string)
    requires s == [] || (!IsSpace(s[0]) && !IsSpace(s[|s| - 1]))
    ensures Trim(s) == s
  {
  }

  lemma TrimEmpty()
    ensures Trim("") == ""
  {
    TrimNoEdgeSpace("");
  }

  /** strip() is idempotent. */
  lemma TrimIdempotent(s: string)
    ensures Trim(Trim(s)) == Trim(s)
  {
    TrimSpec(s);
    TrimNoEdgeSpace(Trim(s));
  }

  /** A block of SplitOn's result occurs in the split text. */
  lemma {:induction false} JoinContainsPart(parts: seq<string>, sep: char, k: int)
    requires |parts| >= 1 && 0 <= k < |parts|
    ensures Contains(Join(parts, sep), parts[k])
    decreases |parts|
  {
    if |parts| == 1 {
      ContainsPrefix(parts[0], parts[0]);
    } else if k == 0 {
      ContainsPrefix(Join(parts, sep), parts[0]);
    } else {
      JoinContainsPart(parts[1..], sep, k - 1);
      assert Join(parts, sep) == (parts[0] + [sep]) + Join(parts[1..], sep);
      ContainsAfter(parts[0] + [sep], Join(parts[1..], sep), parts[k]);
    }
  }

  lemma SplitPartContained(s: string, sep: char, k: int)
    requires 0 <= k < |SplitOn(s, sep)|
    ensures Contains(s, SplitOn(s, sep)[k])
  {
    JoinContainsPart(SplitOn(s, sep), sep, k);
  }

  /** Text without the separator splits into itself alone. */
  lemma {:induction false} SplitNoSep(p: string, sep: char)
    requires sep !in p
    ensures SplitOn(p, sep) == [p]
    decreases |p|
  {
    if |p| > 0 {
      SplitNoSep(p[1..], sep);
      assert [p[0]] + p[1..] == p;
    }
  }

  /** Splitting peels off a leading separator-free block. */
  lemma {:induction false} SplitAfterBlock(p: string, sep: char, tail: string)
    requires sep !in p
    ensures SplitOn(p + [sep] + tail, sep) == [p] + SplitOn(tail, sep)
    decreases |p|
  {
    var s := p + [sep] + tail;
    if |p| == 0 {
      assert s[1..] == tail;
    } else {
      assert s[1..] == p[1..] + [sep] + tail;
      SplitAfterBlock(p[1..], sep, tail);
      assert [p[0]] + p[1..] == p;
    }
  }

  /** Split after join gives back the blocks, when none holds the separator. */
  lemma {:induction false} SplitJoin(parts: seq<string>, sep: char)
    requires |parts| >= 1
    requires forall k :: 0 <= k < |parts| ==> sep !in parts[k]
    ensures SplitOn(Join(parts, sep), sep) == parts
    decreases |parts|
  {
    if |parts| == 1 {
      SplitNoSep(parts[0], sep);
    } else {
      SplitJoin(parts[1..], sep);
      SplitAfterBlock(parts[0], sep, Join(parts[1..], sep));
      assert [parts[0]] + parts[1..] == parts;
    }
  }
}
