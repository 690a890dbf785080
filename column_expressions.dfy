/**
 * ColumnIdentifiers: the family, qualifier and optional visibility of a cell,
 * and the parser of the compact column expression
 * `family:qualifier[:visibility]`, where the visibility may be wrapped in one
 * pair of square brackets.
 */
module ColumnExpressions {
  import opened Common
  import opened JavaStrings

  /** COLUMN_IDENT_SEPARATOR. */
  const Separator: char := ':'

  /** The three public fields; a null visibility is None. */
  datatype ColumnIdentifiers = ColumnIdentifiers(family: string, qualifier: string, visibility: Option<string>)

  predicate HasVisibilityExpression(ci: ColumnIdentifiers) {
    ci.visibility.Some?
  }

  /**
   * Trim, drop one leading `[` and one trailing `]` when both are present,
   * then trim again. The result never has whitespace at either end.
   */
  function StripBrackets(expression: string): (r: string)
    ensures Trimmed(r)
    ensures |r| <= |expression|
  {
    var cleaned := Trim(expression);
    var inner :=
      if StartsWith(cleaned, '[') && EndsWith(cleaned, ']')
      then cleaned[1..][..|cleaned| - 2]
      else cleaned;
    Trim(inner)
  }

  /**
   * The expression constructor: split on ':'; segment 0 is the family,
   * segment 1 the qualifier, and segment 2, when split() keeps it, the
   * bracket-stripped visibility. Indexing a split with fewer than two
   * segments throws.
   */
  function Parse(expression: string): (r: Result<ColumnIdentifiers>)
    ensures var segs := Segments(expression, Separator);
      && (r.Ok? <==> NonEmptyFrom(segs, 1))
      && (r.Err? ==> r.error == ArrayIndexOutOfBounds)
      && (r.Ok? ==>
            && r.value.family == segs[0]
            && r.value.qualifier == segs[1]
            && (HasVisibilityExpression(r.value) <==> NonEmptyFrom(segs, 2))
            && (HasVisibilityExpression(r.value) ==> r.value.visibility.value == StripBrackets(segs[2])))
  {
    var parts := Split(expression, Separator);
    SplitIsPrefixOfSegments(expression, Separator, 1);
    SplitIsPrefixOfSegments(expression, Separator, 2);
    if |parts| < 2 then Err(ArrayIndexOutOfBounds)
    else
      var visibility := if |parts| > 2 then Some(StripBrackets(parts[2])) else None;
      Ok(ColumnIdentifiers(parts[0], parts[1], visibility))
  }

  /** The (family, qualifier) constructor: no visibility. */
  function FromParts(family: string, qualifier: string): (r: ColumnIdentifiers)
    ensures r.family == family && r.qualifier == qualifier
    ensures !HasVisibilityExpression(r)
  {
    ColumnIdentifiers(family, qualifier, None)
  }

  /** The (family, qualifier, visibility) constructor: stores the visibility unstripped. */
  function FromPartsWithVisibility(family: string, qualifier: string, visibility: Option<string>): (r: ColumnIdentifiers)
    ensures r.family == family && r.qualifier == qualifier
    ensures HasVisibilityExpression(r) <==> visibility.Some?
    ensures visibility.Some? ==> r.visibility.value == visibility.value
  {
    ColumnIdentifiers(family, qualifier, visibility)
  }

  /* ----- Properties of the parser ----- */

  /** Parse read off the segments of the expression. */
  lemma ParseBySegments(s: string, f: string, q: string, vis: Option<string>)
    requires Segments(s, Separator)[0] == f
    requires NonEmptyFrom(Segments(s, Separator), 1) && Segments(s, Separator)[1] == q
    requires vis.Some? <==> NonEmptyFrom(Segments(s, Separator), 2)
    requires vis.Some? ==> vis.value == StripBrackets(Segments(s, Separator)[2])
    ensures Parse(s) == Ok(ColumnIdentifiers(f, q, vis))
  {
  }

  /** `f:q` parses to family f and qualifier q, verbatim, with no visibility. */
  lemma ParseFamilyAndQualifier(f: string, q: string)
    requires Separator !in f && Separator !in q && q != []
    ensures Parse(f + [Separator] + q) == Ok(ColumnIdentifiers(f, q, None))
  {
    var s := f + [Separator] + q;
    SegmentsCons(f, Separator, q);
    assert Segments(s, Separator) == [f, q];
    assert Segments(s, Separator)[1] != [];
    ParseBySegments(s, f, q, None);
  }

  /** `f:q:v` with a non-empty v carries the stripped visibility. */
  lemma ParseWithVisibility(f: string, q: string, v: string)
    requires Separator !in f && Separator !in q && Separator !in v && v != []
    ensures Parse(f + [Separator] + q + [Separator] + v) == Ok(ColumnIdentifiers(f, q, Some(StripBrackets(v))))
  {
    var tail := q + [Separator] + v;
    var s := f + [Separator] + tail;
    assert s == f + [Separator] + q + [Separator] + v;
    SegmentsCons(f, Separator, tail);
    SegmentsCons(q, Separator, v);
    var segs := Segments(s, Separator);
    assert segs == [f, q, v];
    assert segs[2] != [];
    ParseBySegments(s, f, q, Some(StripBrackets(v)));
  }

  /** Segments after the third are ignored. */
  lemma ParseIgnoresLaterSegments(f: string, q: string, v: string, rest: string)
    requires Separator !in f && Separator !in q && Separator !in v && v != []
    ensures Parse(f + [Separator] + (q + [Separator] + (v + [Separator] + rest)))
         == Ok(ColumnIdentifiers(f, q, Some(StripBrackets(v))))
  {
    var t2 := v + [Separator] + rest;
    var t1 := q + [Separator] + t2;
    var s := f + [Separator] + t1;
    SegmentsCons(f, Separator, t1);
    SegmentsCons(q, Separator, t2);
    SegmentsCons(v, Separator, rest);
    var segs := Segments(s, Separator);
    assert segs == [f, q, v] + Segments(rest, Separator);
    assert segs[2] == v;
    ParseBySegments(s, f, q, Some(StripBrackets(v)));
  }

  /** An expression without a separator throws. */
  lemma ParseWithoutSeparatorFails(s: string)
    requires Separator !in s
    ensures Parse(s) == Err(ArrayIndexOutOfBounds)
  {
  }

  /** split() drops the trailing empty segment, so `f:` throws. */
  lemma ParseEmptyQualifierFails(f: string)
    requires Separator !in f
    ensures Parse(f + [Separator]) == Err(ArrayIndexOutOfBounds)
  {
    SegmentsCons(f, Separator, []);
    assert f + [Separator] + [] == f + [Separator];
    assert Segments(f + [Separator], Separator) == [f, []];
  }

  /** An empty qualifier in the middle is kept: `f::v` parses with qualifier "". */
  lemma ParseEmptyQualifierWithVisibility(f: string, v: string)
    requires Separator !in f && Separator !in v && v != []
    ensures Parse(f + [Separator] + [Separator] + v) == Ok(ColumnIdentifiers(f, [], Some(StripBrackets(v))))
  {
    ParseWithVisibility(f, [], v);
    assert f + [Separator] + [] + [Separator] + v == f + [Separator] + [Separator] + v;
  }

  /** split() drops the trailing empty segment, so `f:q:` has no visibility. */
  lemma ParseTrailingSeparatorHasNoVisibility(f: string, q: string)
    requires Separator !in f && Separator !in q && q != []
    ensures Parse(f + [Separator] + q + [Separator]) == Ok(ColumnIdentifiers(f, q, None))
  {
    var tail := q + [Separator] + [];
    var s := f + [Separator] + tail;
    assert s == f + [Separator] + q + [Separator];
    SegmentsCons(f, Separator, tail);
    SegmentsCons(q, Separator, []);
    var segs := Segments(s, Separator);
    assert segs == [f, q, []];
    assert segs[1] != [];
    ParseBySegments(s, f, q, None);
  }

  /** Nothing forbids an empty family: `:q` parses with family "". */
  lemma ParseAcceptsEmptyFamily(q: string)
    requires Separator !in q && q != []
    ensures Parse([Separator] + q) == Ok(ColumnIdentifiers([], q, None))
  {
    ParseFamilyAndQualifier([], q);
    assert [] + [Separator] + q == [Separator] + q;
  }

  /* ----- Properties of StripBrackets ----- */

  /** When the trimmed input is `[v]`, the result is v trimmed. */
  lemma StripBracketsOfTrimmedBracketed(e: string, v: string)
    requires Trim(e) == "[" + v + "]"
    ensures StripBrackets(e) == Trim(v)
  {
    var b := "[" + v + "]";
    assert b[1..][..|b| - 2] == v;
  }

  /** One pair of outer brackets, with any padding around it, is removed. */
  lemma StripBracketsOfBracketed(w1: string, v: string, w2: string)
    requires AllWhitespace(w1) && AllWhitespace(w2)
    ensures StripBrackets(w1 + ("[" + v + "]") + w2) == Trim(v)
  {
    var b := "[" + v + "]";
    assert b[0] == '[' && b[|b| - 1] == ']';
    TrimPadded(w1, b, w2);
    StripBracketsOfTrimmedBracketed(w1 + b + w2, v);
  }

  /** A string not bracketed on both sides comes back trimmed and otherwise unchanged. */
  lemma StripBracketsOneSided(e: string)
    requires !(StartsWith(Trim(e), '[') && EndsWith(Trim(e), ']'))
    ensures StripBrackets(e) == Trim(e)
  {
    TrimOfTrimmed(Trim(e));
  }

  /** Stripping is not recursive: only the outermost pair goes. */
  lemma StripBracketsKeepsInnerPair(v: string)
    ensures StripBrackets("[[" + v + "]]") == "[" + v + "]"
  {
    var b := "[" + v + "]";
    assert b[0] == '[' && b[|b| - 1] == ']';
    TrimOfTrimmed("[" + b + "]");
    assert "[" + b + "]" == "[[" + v + "]]";
    StripBracketsOfTrimmedBracketed("[[" + v + "]]", b);
    TrimOfTrimmed(b);
  }

  /** Brackets around a trimmed string come off and leave it unchanged. */
  lemma StripBracketsOfWrapped(v: string)
    requires Trimmed(v)
    ensures StripBrackets("[" + v + "]") == v
  {
    StripBracketsOfBracketed([], v, []);
    assert [] + ("[" + v + "]") + [] == "[" + v + "]";
    TrimOfTrimmed(v);
  }

  /** stripBrackets("[public]") is "public". */
  lemma StripBracketsSimpleCase(e: string)
    requires e == "[public]"
    ensures StripBrackets(e) == "public"
  {
    var v := "public";
    StripBracketsOfWrapped(v);
    assert "[" + v + "]" == e;
  }

  /** A leading bracket alone, or a trailing bracket alone, is kept. */
  lemma StripBracketsKeepsOneSidedBrackets()
    ensures StripBrackets("[private|protected]&public") == "[private|protected]&public"
    ensures StripBrackets("public&[private|protected]") == "public&[private|protected]"
  {
    var e1 := "[private|protected]&public";
    TrimOfTrimmed(e1);
    StripBracketsOneSided(e1);
    var e2 := "public&[private|protected]";
    TrimOfTrimmed(e2);
    StripBracketsOneSided(e2);
  }

  /** `f:q:[v]` with a trimmed v carries v itself as the visibility. */
  lemma ParseBracketedVisibility(f: string, q: string, v: string)
    requires Separator !in f && Separator !in q && Separator !in v && Trimmed(v)
    ensures Parse(f + [Separator] + q + [Separator] + ("[" + v + "]")) == Ok(ColumnIdentifiers(f, q, Some(v)))
  {
    var b := "[" + v + "]";
    assert Separator !in b;
    ParseWithVisibility(f, q, b);
    StripBracketsOfWrapped(v);
  }
}
