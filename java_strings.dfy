/**
 * The java.lang.String operations the core relies on, with Java's exact
 * semantics: trim() removes every character up to U+0020 from both ends, and
 * split(":") with no limit splits at every separator and then discards the
 * trailing empty segments (but returns the input itself when it holds no
 * separator at all).
 */
module JavaStrings {

  /** The characters String.trim() removes: every code point up to U+0020. */
  predicate IsWhitespace(c: char) {
    c <= ' '
  }

  predicate AllWhitespace(s: string) {
    forall i :: 0 <= i < |s| ==> IsWhitespace(s[i])
  }

  /** Neither end of `s` is a character trim() would remove. */
  predicate Trimmed(s: string) {
    s == [] || (!IsWhitespace(s[0]) && !IsWhitespace(s[|s| - 1]))
  }

  predicate StartsWith(s: string, c: char) {
    |s| > 0 && s[0] == c
  }

  predicate EndsWith(s: string, c: char) {
    |s| > 0 && s[|s| - 1] == c
  }

  /** `s` without its leading whitespace. */
  function TrimStart(s: string): (r: string)
    ensures |r| <= |s|
    ensures r != [] ==> !IsWhitespace(r[0])
    ensures forall i :: 0 <= i < |s| - |r| ==> IsWhitespace(s[i])
  {
    if s != [] && IsWhitespace(s[0]) then TrimStart(s[1..]) else s
  }

  /** `s` without its trailing whitespace. */
  function TrimEnd(s: string): (r: string)
    ensures |r| <= |s| && (r != [] ==> r[0] == s[0])
    ensures r != [] ==> !IsWhitespace(r[|r| - 1])
    ensures forall i :: |r| <= i < |s| ==> IsWhitespace(s[i])
  {
    if s != [] && IsWhitespace(s[|s| - 1]) then TrimEnd(s[..|s| - 1]) else s
  }

  /** String.trim(). */
  function Trim(s: string): (r: string)
    ensures Trimmed(r)
    ensures |r| <= |s|
  {
    TrimEnd(TrimStart(s))
  }

  /** trimStart keeps a suffix of its input. */
  lemma {:induction false} TrimStartIsSuffix(s: string)
    ensures TrimStart(s) == s[|s| - |TrimStart(s)|..]
    decreases |s|
  {
    if s != [] && IsWhitespace(s[0]) {
      TrimStartIsSuffix(s[1..]);
      assert s[1..][|s[1..]| - |TrimStart(s[1..])|..] == s[|s| - |TrimStart(s)|..];
    }
  }

  /** trimEnd keeps a prefix of its input. */
  lemma {:induction false} TrimEndIsPrefix(s: string)
    ensures TrimEnd(s) == s[..|TrimEnd(s)|]
    decreases |s|
  {
    if s != [] && IsWhitespace(s[|s| - 1]) {
      TrimEndIsPrefix(s[..|s| - 1]);
      assert s[..|s| - 1][..|TrimEnd(s)|] == s[..|TrimEnd(s)|];
    }
  }

  /** What trimStart skips is whitespace. */
  lemma TrimStartSkipsWhitespace(s: string)
    ensures AllWhitespace(s[..|s| - |TrimStart(s)|])
  {
    var head := s[..|s| - |TrimStart(s)|];
    forall i | 0 <= i < |head| ensures IsWhitespace(head[i]) {
      assert head[i] == s[i];
    }
  }

  /** What trimEnd drops is whitespace. */
  lemma TrimEndDropsWhitespace(t: string)
    ensures AllWhitespace(t[|TrimEnd(t)|..])
  {
    var n := |TrimEnd(t)|;
    var tail := t[n..];
    forall i | 0 <= i < |tail| ensures IsWhitespace(tail[i]) {
      assert tail[i] == t[n + i];
    }
  }

  /**
   * trim() keeps one contiguous piece of its input and removes only
   * whitespace before and after it.
   */
  lemma TrimIsInfix(s: string)
    ensures var k := |s| - |TrimStart(s)|;
      && k + |Trim(s)| <= |s|
      && Trim(s) == s[k..k + |Trim(s)|]
      && AllWhitespace(s[..k])
      && AllWhitespace(s[k + |Trim(s)|..])
  {
    var t := TrimStart(s);
    var r := TrimEnd(t);
    TrimStartIsSuffix(s);
    TrimEndIsPrefix(t);
    TrimStartSkipsWhitespace(s);
    TrimEndDropsWhitespace(t);
    PrefixOfSuffix(s, |s| - |t|, t, r);
  }

  /** A prefix r of the suffix of s from k is the slice of s from k, and what follows r in t follows it in s. */
  lemma PrefixOfSuffix(s: string, k: nat, t: string, r: string)
    requires k <= |s| && t == s[k..] && |r| <= |t| && r == t[..|r|]
    requires AllWhitespace(t[|r|..])
    ensures k + |r| <= |s| && r == s[k..k + |r|] && AllWhitespace(s[k + |r|..])
  {
    assert t[|r|..] == s[k + |r|..];
  }

  lemma {:induction false} TrimStartPadded(w: string, y: string)
    requires AllWhitespace(w)
    requires y == [] || !IsWhitespace(y[0])
    ensures TrimStart(w + y) == y
  {
    if w == [] {
      assert w + y == y;
    } else {
      assert (w + y)[1..] == w[1..] + y;
      TrimStartPadded(w[1..], y);
    }
  }

  lemma {:induction false} TrimEndPadded(y: string, w: string)
    requires AllWhitespace(w)
    requires y == [] || !IsWhitespace(y[|y| - 1])
    ensures TrimEnd(y + w) == y
  {
    if w == [] {
      assert y + w == y;
    } else {
      var w' := w[..|w| - 1];
      assert (y + w)[..|y + w| - 1] == y + w';
      TrimEndPadded(y, w');
    }
  }

  /** trim() removes exactly the whitespace padding around a trimmed string. */
  lemma TrimPadded(w1: string, x: string, w2: string)
    requires AllWhitespace(w1) && AllWhitespace(w2)
    requires Trimmed(x)
    ensures Trim(w1 + x + w2) == x
  {
    if x == [] {
      assert w1 + x + w2 == (w1 + w2) + [];
      assert AllWhitespace(w1 + w2);
      TrimStartPadded(w1 + w2, []);
    } else {
      assert w1 + x + w2 == w1 + (x + w2);
      TrimStartPadded(w1, x + w2);
      TrimEndPadded(x, w2);
    }
  }

  /** trim() leaves an already trimmed string alone. */
  lemma TrimOfTrimmed(x: string)
    requires Trimmed(x)
    ensures Trim(x) == x
  {
    TrimPadded([], x, []);
    assert [] + x + [] == x;
  }

  /**
   * Every segment of `s` between separators, including the empty ones: the
   * split before Java drops trailing empty strings.
   */
  function Segments(s: string, sep: char): (r: seq<string>)
    ensures |r| >= 1
    ensures forall i :: 0 <= i < |r| ==> sep !in r[i]
    ensures sep !in s ==> r == [s]
    decreases |s|
  {
    if s == [] then [[]]
    else
      var rest := Segments(s[1..], sep);
      if s[0] == sep then [[]] + rest
      else
        assert sep !in s ==> sep !in s[1..] && [s[0]] + s[1..] == s;
        [[s[0]] + rest[0]] + rest[1..]
  }

  /** A separator-free head splits off as the first segment. */
  lemma {:induction false} SegmentsCons(p: string, sep: char, rest: string)
    requires sep !in p
    ensures Segments(p + [sep] + rest, sep) == [p] + Segments(rest, sep)
    decreases |p|
  {
    var s := p + [sep] + rest;
    if p == [] {
      assert s[1..] == rest;
    } else {
      assert s[1..] == p[1..] + [sep] + rest;
      SegmentsCons(p[1..], sep, rest);
      assert [p[0]] + p[1..] == p;
    }
  }

  /** Drops the empty strings at the end of `parts`, as split() does. */
  function DropTrailingEmpty(parts: seq<string>): (r: seq<string>)
    ensures r <= parts
    ensures r == [] || r[|r| - 1] != []
    ensures forall i :: |r| <= i < |parts| ==> parts[i] == []
    decreases |parts|
  {
    if parts == [] then []
    else if parts[|parts| - 1] == [] then DropTrailingEmpty(parts[..|parts| - 1])
    else parts
  }

  /** String.split with a one-character, non-regex separator and no limit. */
  function Split(s: string, sep: char): (r: seq<string>)
    ensures r <= Segments(s, sep)
    ensures forall i :: |r| <= i < |Segments(s, sep)| ==> Segments(s, sep)[i] == []
    ensures sep in s ==> r == [] || r[|r| - 1] != []
  {
    if sep !in s then [s] else DropTrailingEmpty(Segments(s, sep))
  }

  /** Some segment at index `k` or later is non-empty. */
  predicate NonEmptyFrom(parts: seq<string>, k: nat) {
    exists i :: k <= i < |parts| && parts[i] != []
  }

  /**
   * What split() keeps: a prefix of the segments, long enough to reach
   * index `k` exactly when some segment at or after `k` is non-empty.
   */
  lemma SplitIsPrefixOfSegments(s: string, sep: char, k: nat)
    requires k >= 1
    ensures Split(s, sep) <= Segments(s, sep)
    ensures |Split(s, sep)| > k <==> NonEmptyFrom(Segments(s, sep), k)
  {
    var segs := Segments(s, sep);
    var r := Split(s, sep);
    if sep in s {
      if |r| > k {
        assert segs[|r| - 1] == r[|r| - 1];
      }
      if NonEmptyFrom(segs, k) {
        var i :| k <= i < |segs| && segs[i] != [];
        assert i < |r|;
      }
    }
  }
}
