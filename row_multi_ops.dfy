/**
 * RowMultiOps: the fluent for several puts and deletes on one row. Its typed
 * put overloads append one put each; its expression overloads parse
 * `family:qualifier[:visibility]` with the class nested inside RowMultiOps
 * (whose stripBrackets differs from the top-level one) and then call a typed
 * overload, chosen by Java's overload resolution.
 */
module RowMultiMutations {
  import opened Common
  import opened JavaStrings
  import opened Accumulo
  import opened ColumnExpressions
  import opened Conversions
  import opened RowMutations
  import opened ValueOperations

  /* ----- The nested ColumnIdentifiers ----- */

  /**
   * The nested stripBrackets: no trim first; a leading `[` goes on its own;
   * then, if the rest ends with `]`, its last TWO characters go (which
   * throws when only the `]` is left); finally a trim.
   */
  function NestedStripBrackets(expression: string): (r: Result<string>)
    ensures r.Err? <==> expression == "]" || expression == "[]"
    ensures r.Err? ==> r.error == StringIndexOutOfBounds
    ensures r.Ok? ==> Trimmed(r.value)
  {
    var cleaned := if StartsWith(expression, '[') then expression[1..] else expression;
    if EndsWith(cleaned, ']') then
      if |cleaned| < 2 then Err(StringIndexOutOfBounds) else Ok(Trim(cleaned[..|cleaned| - 2]))
    else
      Ok(Trim(cleaned))
  }

  /** Around a non-empty v, the nested version also loses v's last character. */
  lemma NestedStripBracketsDropsOneMore(v: string)
    requires v != []
    ensures NestedStripBrackets("[" + v + "]") == Ok(Trim(v[..|v| - 1]))
  {
    var e := "[" + v + "]";
    assert e[1..] == v + "]";
    assert (v + "]")[..|v + "]"| - 2] == v[..|v| - 1];
  }

  /**
   * The two versions disagree on every bracketed expression with a trimmed,
   * non-empty inside: the top-level one gives the inside back, the nested
   * one a shorter string (so `[public]` becomes "publi").
   */
  lemma NestedStripBracketsDisagrees(v: string)
    requires v != [] && Trimmed(v)
    ensures StripBrackets("[" + v + "]") == v
    ensures NestedStripBrackets("[" + v + "]").Ok?
    ensures |NestedStripBrackets("[" + v + "]").value| < |v|
  {
    StripBracketsOfWrapped(v);
    NestedStripBracketsDropsOneMore(v);
  }

  /** A leading `[` without a trailing `]` goes on its own, and the rest is trimmed. */
  lemma NestedStripBracketsLeadingOnly(v: string)
    requires !EndsWith(v, ']')
    ensures NestedStripBrackets("[" + v) == Ok(Trim(v))
  {
    assert ("[" + v)[1..] == v;
  }

  /** A trailing `]` without a leading `[` takes the character before it along. */
  lemma NestedStripBracketsTrailingOnly(v: string)
    requires v != [] && v[0] != '['
    ensures NestedStripBrackets(v + "]") == Ok(Trim(v[..|v| - 1]))
  {
    var e := v + "]";
    assert e[0] == v[0];
    assert e[..|e| - 2] == v[..|v| - 1];
  }

  /**
   * Nothing is trimmed before the brackets are looked at: with padding
   * around `[v]` the nested version keeps the brackets, where the top-level
   * one removes them.
   */
  lemma NestedStripBracketsDoesNotTrimFirst(v: string)
    requires Trimmed(v)
    ensures NestedStripBrackets(" " + ("[" + v + "]") + " ") == Ok("[" + v + "]")
    ensures StripBrackets(" " + ("[" + v + "]") + " ") == v
  {
    var b := "[" + v + "]";
    var e := " " + b + " ";
    assert e[0] == ' ' && e[|e| - 1] == ' ';
    assert b[0] == '[' && b[|b| - 1] == ']';
    TrimPadded(" ", b, " ");
    StripBracketsOfBracketed(" ", v, " ");
    TrimOfTrimmed(v);
  }

  /**
   * The nested constructor: the same split and indexing as the top-level
   * parser, with the nested stripBrackets on the third segment, whose
   * exception it passes on.
   */
  function NestedParse(expression: string): (r: Result<ColumnIdentifiers>)
    ensures r.Err? ==> r.error == ArrayIndexOutOfBounds || r.error == StringIndexOutOfBounds
  {
    var parts := Split(expression, Separator);
    SplitIsPrefixOfSegments(expression, Separator, 2);
    if |parts| < 2 then Err(ArrayIndexOutOfBounds)
    else if |parts| > 2 then
      match NestedStripBrackets(parts[2])
      case Err(e) => Err(e)
      case Ok(v) => Ok(ColumnIdentifiers(parts[0], parts[1], Some(v)))
    else
      Ok(ColumnIdentifiers(parts[0], parts[1], None))
  }

  /**
   * The nested parser splits and indexes like the top-level one: it fails
   * the same way on too few segments, agrees on family, qualifier and
   * whether there is a visibility, and differs only in how the third
   * segment is stripped, which can throw.
   */
  lemma NestedParseAgreesWithParse(expression: string)
    ensures var r, p := NestedParse(expression), Parse(expression);
      && (p.Err? ==> r == Err(ArrayIndexOutOfBounds))
      && (p.Ok? && r.Err? ==> r.error == StringIndexOutOfBounds)
      && (p.Ok? && r.Ok? ==>
            && r.value.family == p.value.family
            && r.value.qualifier == p.value.qualifier
            && (HasVisibilityExpression(r.value) <==> HasVisibilityExpression(p.value)))
    ensures var r := NestedParse(expression);
      r.Ok? && HasVisibilityExpression(r.value) ==>
        NestedStripBrackets(Segments(expression, Separator)[2]) == Ok(r.value.visibility.value)
    ensures var r, p := NestedParse(expression), Parse(expression);
      p.Ok? ==>
        (r.Err? <==> HasVisibilityExpression(p.value) && NestedStripBrackets(Segments(expression, Separator)[2]).Err?)
  {
    SplitIsPrefixOfSegments(expression, Separator, 2);
  }

  /* ----- Puts by expression ----- */

  /** The payload types the put overloads take. */
  predicate PutPayload(v: JavaValue) {
    v.IntegerValue? || v.BooleanValue? || v.LongValue? || v.DoubleValue? || v.StringValue? || v.BytesValue?
  }

  /** A String is stored as text, a byte[] as it is, everything else through toByteArray. */
  function CellValueOf(codecs: Lexicoders, v: JavaValue): CellValue
    requires PutPayload(v)
  {
    match v
    case StringValue(s) => TextValue(s)
    case BytesValue(b) => RawValue(b)
    case _ => RawValue(ToByteArray(codecs, v))
  }

  /** What an expression put means: the value, under the expression's visibility if it has one. */
  function IntendedExprPutEntry(codecs: Lexicoders, ci: ColumnIdentifiers, v: JavaValue): ColumnUpdate
    requires PutPayload(v)
  {
    Put(ci.family, ci.qualifier, ci.visibility, None, CellValueOf(codecs, v))
  }

  /**
   * For a payload that goes through toByteArray, the intended expression put
   * is the put `column(expr).value(v)` of RowMutationOps appends for the same
   * identifiers.
   */
  lemma IntendedExprPutIsValuePut(codecs: Lexicoders, ci: ColumnIdentifiers, v: JavaValue)
    requires PutPayload(v) && !v.StringValue? && !v.BytesValue?
    ensures IntendedExprPutEntry(codecs, ci, v) == PutFor(ci, ToByteArray(codecs, v), 0)
  {
  }

  /**
   * The put an expression put appends, as the overloads resolve: put(expr,
   * String) with a visibility calls put(f, q, value, visibility) with the
   * last two swapped, and put(expr, long|int) with a visibility calls
   * put(f, q, String value, long timestamp). Every other case is the
   * intended put.
   */
  function ExprPutEntry(codecs: Lexicoders, ci: ColumnIdentifiers, v: JavaValue): (u: ColumnUpdate)
    requires PutPayload(v)
    ensures u.Put? && u.family == ci.family && u.qualifier == ci.qualifier
    ensures !HasVisibilityExpression(ci) || !(v.StringValue? || v.LongValue? || v.IntegerValue?) ==>
              u == IntendedExprPutEntry(codecs, ci, v)
  {
    if !HasVisibilityExpression(ci) then Put(ci.family, ci.qualifier, None, None, CellValueOf(codecs, v))
    else
      match v
      case StringValue(s) => Put(ci.family, ci.qualifier, Some(s), None, TextValue(ci.visibility.value))
      case LongValue(n) => Put(ci.family, ci.qualifier, None, Some(n), TextValue(ci.visibility.value))
      case IntegerValue(n) => Put(ci.family, ci.qualifier, None, Some(n), TextValue(ci.visibility.value))
      case _ => Put(ci.family, ci.qualifier, Some(ci.visibility.value), None, CellValueOf(codecs, v))
  }

  /**
   * put(expr, String) with a visibility stores the visibility text as the
   * value and uses the value as the visibility; it does what was meant only
   * when the two happen to be equal.
   */
  lemma ExprPutStringSwaps(codecs: Lexicoders, ci: ColumnIdentifiers, s: string)
    requires HasVisibilityExpression(ci)
    ensures ExprPutEntry(codecs, ci, StringValue(s)).value == TextValue(ci.visibility.value)
    ensures ExprPutEntry(codecs, ci, StringValue(s)).visibility == Some(s)
    ensures ExprPutEntry(codecs, ci, StringValue(s)) == IntendedExprPutEntry(codecs, ci, StringValue(s))
        <==> s == ci.visibility.value
  {
  }

  /**
   * put(expr, long) and put(expr, int) with a visibility store the
   * visibility text as the value, the number as the timestamp, and no
   * visibility at all: never what was meant.
   */
  lemma ExprPutNumberBecomesTimestamp(codecs: Lexicoders, ci: ColumnIdentifiers, v: JavaValue)
    requires HasVisibilityExpression(ci) && (v.LongValue? || v.IntegerValue?)
    ensures var u := ExprPutEntry(codecs, ci, v);
      && u.value == TextValue(ci.visibility.value)
      && u.timestamp == Some(if v.LongValue? then v.longValue else v.intValue)
      && u.visibility.None?
      && u != IntendedExprPutEntry(codecs, ci, v)
  {
  }

  class RowMultiOps {
    const rowKey: string
    const parent: MutationQueue
    const mutation: Mutation
    const codecs: Lexicoders

    /** A new instance owns a new, empty mutation of its row. */
    constructor (rowKey: string, parent: MutationQueue, codecs: Lexicoders)
      ensures this.rowKey == rowKey && this.parent == parent && this.codecs == codecs
      ensures fresh(mutation) && mutation.row == rowKey && mutation.updates == []
    {
      this.rowKey := rowKey;
      this.parent := parent;
      this.codecs := codecs;
      mutation := new Mutation(rowKey);
    }

    /** put(family, qualifier, value). */
    method PutColumn(family: string, qualifier: string, value: JavaValue) returns (self: RowMultiOps)
      requires PutPayload(value)
      modifies mutation
      ensures self == this
      ensures mutation.updates == old(mutation.updates) + [Put(family, qualifier, None, None, CellValueOf(codecs, value))]
    {
      mutation.Add(Put(family, qualifier, None, None, CellValueOf(codecs, value)));
      self := this;
    }

    /** put(family, qualifier, value, timestamp). */
    method PutColumnAt(family: string, qualifier: string, value: JavaValue, timestamp: Int64) returns (self: RowMultiOps)
      requires PutPayload(value)
      modifies mutation
      ensures self == this
      ensures mutation.updates
           == old(mutation.updates) + [Put(family, qualifier, None, Some(timestamp), CellValueOf(codecs, value))]
    {
      mutation.Add(Put(family, qualifier, None, Some(timestamp), CellValueOf(codecs, value)));
      self := this;
    }

    /** put(family, qualifier, value, visibilityExpression). */
    method PutColumnVisible(family: string, qualifier: string, value: JavaValue, visibility: string)
      returns (self: RowMultiOps)
      requires PutPayload(value)
      modifies mutation
      ensures self == this
      ensures mutation.updates
           == old(mutation.updates) + [Put(family, qualifier, Some(visibility), None, CellValueOf(codecs, value))]
    {
      mutation.Add(Put(family, qualifier, Some(visibility), None, CellValueOf(codecs, value)));
      self := this;
    }

    /** put(family, qualifier, value, visibilityExpression, timestamp). */
    method PutColumnVisibleAt(family: string, qualifier: string, value: JavaValue, visibility: string,
                              timestamp: Int64) returns (self: RowMultiOps)
      requires PutPayload(value)
      modifies mutation
      ensures self == this
      ensures mutation.updates
           == old(mutation.updates) + [Put(family, qualifier, Some(visibility), Some(timestamp), CellValueOf(codecs, value))]
    {
      mutation.Add(Put(family, qualifier, Some(visibility), Some(timestamp), CellValueOf(codecs, value)));
      self := this;
    }

    /*
     * put(columnExpression, value), one overload per value type: the nested
     * parse, then the typed overload the Java compiler picks for the
     * arguments of the call.
     */

    /** put(expr, String): with a visibility, the call resolves to put(f, q, value, visibility) with the last two swapped. */
    method PutExprString(columnExpression: string, value: string) returns (r: Result<RowMultiOps>)
      modifies mutation
      ensures NestedParse(columnExpression).Err? ==>
                r == Err(NestedParse(columnExpression).error) && mutation.updates == old(mutation.updates)
      ensures NestedParse(columnExpression).Ok? ==>
                && r == Ok(this)
                && mutation.updates
                   == old(mutation.updates) + [ExprPutEntry(codecs, NestedParse(columnExpression).value, StringValue(value))]
    {
      var parsed := NestedParse(columnExpression);
      if parsed.Err? {
        r := Err(parsed.error);
        return;
      }
      var ci := parsed.value;
      var self;
      if HasVisibilityExpression(ci) {
        self := PutColumnVisible(ci.family, ci.qualifier, StringValue(ci.visibility.value), value);
      } else {
        self := PutColumn(ci.family, ci.qualifier, StringValue(value));
      }
      r := Ok(self);
    }

    /** put(expr, long): with a visibility, the call resolves to put(f, q, String value, long timestamp). */
    method PutExprLong(columnExpression: string, value: Int64) returns (r: Result<RowMultiOps>)
      modifies mutation
      ensures NestedParse(columnExpression).Err? ==>
                r == Err(NestedParse(columnExpression).error) && mutation.updates == old(mutation.updates)
      ensures NestedParse(columnExpression).Ok? ==>
                && r == Ok(this)
                && mutation.updates
                   == old(mutation.updates) + [ExprPutEntry(codecs, NestedParse(columnExpression).value, LongValue(value))]
    {
      var parsed := NestedParse(columnExpression);
      if parsed.Err? {
        r := Err(parsed.error);
        return;
      }
      var ci := parsed.value;
      var self;
      if HasVisibilityExpression(ci) {
        self := PutColumnAt(ci.family, ci.qualifier, StringValue(ci.visibility.value), value);
      } else {
        self := PutColumn(ci.family, ci.qualifier, LongValue(value));
      }
      r := Ok(self);
    }

    /** put(expr, int): with a visibility, the int widens and the call resolves like put(expr, long). */
    method PutExprInt(columnExpression: string, value: Int32) returns (r: Result<RowMultiOps>)
      modifies mutation
      ensures NestedParse(columnExpression).Err? ==>
                r == Err(NestedParse(columnExpression).error) && mutation.updates == old(mutation.updates)
      ensures NestedParse(columnExpression).Ok? ==>
                && r == Ok(this)
                && mutation.updates
                   == old(mutation.updates) + [ExprPutEntry(codecs, NestedParse(columnExpression).value, IntegerValue(value))]
    {
      var parsed := NestedParse(columnExpression);
      if parsed.Err? {
        r := Err(parsed.error);
        return;
      }
      var ci := parsed.value;
      var self;
      if HasVisibilityExpression(ci) {
        self := PutColumnAt(ci.family, ci.qualifier, StringValue(ci.visibility.value), value);
      } else {
        self := PutColumn(ci.family, ci.qualifier, IntegerValue(value));
      }
      r := Ok(self);
    }

    /** put(expr, double): the visibility, when present, is passed as the visibility. */
    method PutExprDouble(columnExpression: string, value: Double) returns (r: Result<RowMultiOps>)
      modifies mutation
      ensures NestedParse(columnExpression).Err? ==>
                r == Err(NestedParse(columnExpression).error) && mutation.updates == old(mutation.updates)
      ensures NestedParse(columnExpression).Ok? ==>
                && r == Ok(this)
                && mutation.updates
                   == old(mutation.updates) + [ExprPutEntry(codecs, NestedParse(columnExpression).value, DoubleValue(value))]
    {
      var parsed := NestedParse(columnExpression);
      if parsed.Err? {
        r := Err(parsed.error);
        return;
      }
      var ci := parsed.value;
      var self;
      if HasVisibilityExpression(ci) {
        self := PutColumnVisible(ci.family, ci.qualifier, DoubleValue(value), ci.visibility.value);
      } else {
        self := PutColumn(ci.family, ci.qualifier, DoubleValue(value));
      }
      r := Ok(self);
    }

    /** put(expr, boolean): the visibility, when present, is passed as the visibility. */
    method PutExprBoolean(columnExpression: string, value: bool) returns (r: Result<RowMultiOps>)
      modifies mutation
      ensures NestedParse(columnExpression).Err? ==>
                r == Err(NestedParse(columnExpression).error) && mutation.updates == old(mutation.updates)
      ensures NestedParse(columnExpression).Ok? ==>
                && r == Ok(this)
                && mutation.updates
                   == old(mutation.updates) + [ExprPutEntry(codecs, NestedParse(columnExpression).value, BooleanValue(value))]
    {
      var parsed := NestedParse(columnExpression);
      if parsed.Err? {
        r := Err(parsed.error);
        return;
      }
      var ci := parsed.value;
      var self;
      if HasVisibilityExpression(ci) {
        self := PutColumnVisible(ci.family, ci.qualifier, BooleanValue(value), ci.visibility.value);
      } else {
        self := PutColumn(ci.family, ci.qualifier, BooleanValue(value));
      }
      r := Ok(self);
    }

    /** put(expr, byte[]): the visibility, when present, is passed as the visibility. */
    method PutExprBytes(columnExpression: string, value: Bytes) returns (r: Result<RowMultiOps>)
      modifies mutation
      ensures NestedParse(columnExpression).Err? ==>
                r == Err(NestedParse(columnExpression).error) && mutation.updates == old(mutation.updates)
      ensures NestedParse(columnExpression).Ok? ==>
                && r == Ok(this)
                && mutation.updates
                   == old(mutation.updates) + [ExprPutEntry(codecs, NestedParse(columnExpression).value, BytesValue(value))]
    {
      var parsed := NestedParse(columnExpression);
      if parsed.Err? {
        r := Err(parsed.error);
        return;
      }
      var ci := parsed.value;
      var self;
      if HasVisibilityExpression(ci) {
        self := PutColumnVisible(ci.family, ci.qualifier, BytesValue(value), ci.visibility.value);
      } else {
        self := PutColumn(ci.family, ci.qualifier, BytesValue(value));
      }
      r := Ok(self);
    }

    /*
     * The expression puts for String, long and int as their documentation
     * describes them: the value passed as the value and the expression's
     * visibility as the visibility, like the other three overloads.
     */

    /** put(expr, String) calling put(f, q, value, visibility) with its arguments in order. */
    method PutExprStringCorrected(columnExpression: string, value: string) returns (r: Result<RowMultiOps>)
      modifies mutation
      ensures NestedParse(columnExpression).Err? ==>
                r == Err(NestedParse(columnExpression).error) && mutation.updates == old(mutation.updates)
      ensures NestedParse(columnExpression).Ok? ==>
                && r == Ok(this)
                && mutation.updates
                   == old(mutation.updates) + [IntendedExprPutEntry(codecs, NestedParse(columnExpression).value, StringValue(value))]
    {
      var parsed := NestedParse(columnExpression);
      if parsed.Err? {
        r := Err(parsed.error);
        return;
      }
      var ci := parsed.value;
      var self;
      if HasVisibilityExpression(ci) {
        self := PutColumnVisible(ci.family, ci.qualifier, StringValue(value), ci.visibility.value);
      } else {
        self := PutColumn(ci.family, ci.qualifier, StringValue(value));
      }
      r := Ok(self);
    }

    /** put(expr, long) calling put(f, q, long value, visibility). */
    method PutExprLongCorrected(columnExpression: string, value: Int64) returns (r: Result<RowMultiOps>)
      modifies mutation
      ensures NestedParse(columnExpression).Err? ==>
                r == Err(NestedParse(columnExpression).error) && mutation.updates == old(mutation.updates)
      ensures NestedParse(columnExpression).Ok? ==>
                && r == Ok(this)
                && mutation.updates
                   == old(mutation.updates) + [IntendedExprPutEntry(codecs, NestedParse(columnExpression).value, LongValue(value))]
    {
      var parsed := NestedParse(columnExpression);
      if parsed.Err? {
        r := Err(parsed.error);
        return;
      }
      var ci := parsed.value;
      var self;
      if HasVisibilityExpression(ci) {
        self := PutColumnVisible(ci.family, ci.qualifier, LongValue(value), ci.visibility.value);
      } else {
        self := PutColumn(ci.family, ci.qualifier, LongValue(value));
      }
      r := Ok(self);
    }

    /** put(expr, int) calling put(f, q, int value, visibility). */
    method PutExprIntCorrected(columnExpression: string, value: Int32) returns (r: Result<RowMultiOps>)
      modifies mutation
      ensures NestedParse(columnExpression).Err? ==>
                r == Err(NestedParse(columnExpression).error) && mutation.updates == old(mutation.updates)
      ensures NestedParse(columnExpression).Ok? ==>
                && r == Ok(this)
                && mutation.updates
                   == old(mutation.updates) + [IntendedExprPutEntry(codecs, NestedParse(columnExpression).value, IntegerValue(value))]
    {
      var parsed := NestedParse(columnExpression);
      if parsed.Err? {
        r := Err(parsed.error);
        return;
      }
      var ci := parsed.value;
      var self;
      if HasVisibilityExpression(ci) {
        self := PutColumnVisible(ci.family, ci.qualifier, IntegerValue(value), ci.visibility.value);
      } else {
        self := PutColumn(ci.family, ci.qualifier, IntegerValue(value));
      }
      r := Ok(self);
    }

    /** delete(family, qualifier). */
    method DeleteColumn(family: string, qualifier: string) returns (self: RowMultiOps)
      modifies mutation
      ensures self == this && mutation.updates == old(mutation.updates) + [Delete(family, qualifier, None, None)]
    {
      mutation.Add(Delete(family, qualifier, None, None));
      self := this;
    }

    /** delete(family, qualifier, visibilityExpression). */
    method DeleteColumnVisible(family: string, qualifier: string, visibility: string) returns (self: RowMultiOps)
      modifies mutation
      ensures self == this
      ensures mutation.updates == old(mutation.updates) + [Delete(family, qualifier, Some(visibility), None)]
    {
      mutation.Add(Delete(family, qualifier, Some(visibility), None));
      self := this;
    }

    /** delete(family, qualifier, visibilityExpression, timestamp). */
    method DeleteColumnVisibleAt(family: string, qualifier: string, visibility: string, timestamp: Int64)
      returns (self: RowMultiOps)
      modifies mutation
      ensures self == this
      ensures mutation.updates == old(mutation.updates) + [Delete(family, qualifier, Some(visibility), Some(timestamp))]
    {
      mutation.Add(Delete(family, qualifier, Some(visibility), Some(timestamp)));
      self := this;
    }

    /** delete(columnExpression): the nested parse, then the 2- or 3-argument delete. */
    method DeleteExpr(columnExpression: string) returns (r: Result<RowMultiOps>)
      modifies mutation
      ensures NestedParse(columnExpression).Err? ==>
                r == Err(NestedParse(columnExpression).error) && mutation.updates == old(mutation.updates)
      ensures NestedParse(columnExpression).Ok? ==>
                && r == Ok(this)
                && mutation.updates == old(mutation.updates) + [ExprDeleteEntry(NestedParse(columnExpression).value)]
    {
      var parsed := NestedParse(columnExpression);
      if parsed.Err? {
        r := Err(parsed.error);
        return;
      }
      var ci := parsed.value;
      var self;
      if HasVisibilityExpression(ci) {
        self := DeleteColumnVisible(ci.family, ci.qualifier, ci.visibility.value);
      } else {
        self := DeleteColumn(ci.family, ci.qualifier);
      }
      r := Ok(self);
    }

    /** done(): the mutation is queued once with the parent, which is returned. */
    method Done() returns (p: MutationQueue)
      modifies parent
      ensures p == parent && parent.queued == old(parent.queued) + [mutation]
    {
      parent.QueueMutations(mutation);
      p := parent;
    }

    /** nextRow(r): done().withRow(r), a new fluent with a new mutation for row r under the same parent. */
    method NextRow(rowKey: string) returns (next: RowMultiOps)
      modifies parent
      ensures parent.queued == old(parent.queued) + [mutation]
      ensures fresh(next) && fresh(next.mutation) && next.rowKey == rowKey && next.parent == parent
      ensures next.codecs == codecs && next.mutation.row == rowKey && next.mutation.updates == []
    {
      var p := Done();
      next := new RowMultiOps(rowKey, p, codecs);
    }
  }
}
