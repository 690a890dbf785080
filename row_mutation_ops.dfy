/**
 * RowMutationOps: the fluent for one row. It owns the row's mutation; its
 * `column` calls hand out value setters bound to that mutation, its
 * `delete` and `deleteMany` calls append deletes, and `endRow` queues the
 * mutation with the parent.
 */
module RowMutations {
  import opened Common
  import opened Accumulo
  import opened ColumnExpressions
  import opened Conversions
  import opened ValueOperations

  /**
   * The delete deleteMany appends for one qualifier: the visibility exactly
   * when one is given, the timestamp exactly when it is not 0.
   */
  function DeleteEntry(family: string, visibility: Option<string>, timestamp: Int64, qualifier: string)
    : (u: ColumnUpdate)
    ensures u.Delete? && u.family == family && u.qualifier == qualifier && u.visibility == visibility
    ensures u.timestamp == if timestamp != 0 then Some(timestamp) else None
  {
    if visibility.Some? && timestamp != 0 then Delete(family, qualifier, Some(visibility.value), Some(timestamp))
    else if visibility.Some? then Delete(family, qualifier, Some(visibility.value), None)
    else if timestamp != 0 then Delete(family, qualifier, None, Some(timestamp))
    else Delete(family, qualifier, None, None)
  }

  /** The deletes of deleteMany: one per qualifier, in argument order. */
  function DeletesFor(family: string, visibility: Option<string>, timestamp: Int64, qualifiers: seq<string>)
    : (us: seq<ColumnUpdate>)
    ensures |us| == |qualifiers|
    ensures forall i :: 0 <= i < |us| ==> us[i] == DeleteEntry(family, visibility, timestamp, qualifiers[i])
    decreases |qualifiers|
  {
    if qualifiers == [] then []
    else
      DeletesFor(family, visibility, timestamp, qualifiers[..|qualifiers| - 1])
      + [DeleteEntry(family, visibility, timestamp, qualifiers[|qualifiers| - 1])]
  }

  /** One more qualifier adds its delete at the end. */
  lemma DeletesForStep(family: string, visibility: Option<string>, timestamp: Int64, qualifiers: seq<string>, i: nat)
    requires i < |qualifiers|
    ensures DeletesFor(family, visibility, timestamp, qualifiers[..i + 1])
         == DeletesFor(family, visibility, timestamp, qualifiers[..i])
            + [DeleteEntry(family, visibility, timestamp, qualifiers[i])]
  {
    assert qualifiers[..i + 1][..i] == qualifiers[..i];
  }

  /** Deleting two lists of qualifiers one after the other is deleting their concatenation. */
  lemma {:induction false} DeletesForAppend(family: string, visibility: Option<string>, timestamp: Int64,
                                            a: seq<string>, b: seq<string>)
    ensures DeletesFor(family, visibility, timestamp, a + b)
         == DeletesFor(family, visibility, timestamp, a) + DeletesFor(family, visibility, timestamp, b)
    decreases |b|
  {
    if b != [] {
      var b' := b[..|b| - 1];
      assert (a + b)[..|a + b| - 1] == a + b';
      assert (a + b)[|a + b| - 1] == b[|b| - 1];
      DeletesForAppend(family, visibility, timestamp, a, b');
    }
  }

  /**
   * The delete a parsed column expression asks for: with its visibility when
   * it has one, never with a timestamp.
   */
  function ExprDeleteEntry(ci: ColumnIdentifiers): (u: ColumnUpdate)
    ensures u == Delete(ci.family, ci.qualifier, ci.visibility, None)
  {
    if HasVisibilityExpression(ci) then Delete(ci.family, ci.qualifier, Some(ci.visibility.value), None)
    else Delete(ci.family, ci.qualifier, None, None)
  }

  class RowMutationOps {
    const rowKey: string
    const parent: MutationQueue
    const mutation: Mutation
    const codecs: Lexicoders

    /** A new instance owns a new, empty mutation of its row. */
    constructor (rowKey: string, parent: MutationQueue, codecs: Lexicoders)
      ensures this.rowKey == rowKey && this.parent == parent && this.codecs == codecs
      ensures fresh(mutation) && mutation.row == rowKey && mutation.updates == []
    {
      this.rowKey := rowKey;
      this.parent := parent;
      this.codecs := codecs;
      mutation := new Mutation(rowKey);
    }

    /** column(family, qualifier): a value setter on this row's mutation; nothing is appended yet. */
    method Column(family: string, qualifier: string) returns (ops: ValueOps<RowMutationOps>)
      ensures fresh(ops) && ops.columnIdentifiers == FromParts(family, qualifier)
      ensures ops.mutation == mutation && ops.parent == this && ops.codecs == codecs && ops.completed == []
    {
      ops := new ValueOps(FromParts(family, qualifier), mutation, this, codecs);
    }

    /** column(family, qualifier, visibility): the visibility is kept as given. */
    method ColumnVisible(family: string, qualifier: string, visibility: Option<string>)
      returns (ops: ValueOps<RowMutationOps>)
      ensures fresh(ops) && ops.columnIdentifiers == FromPartsWithVisibility(family, qualifier, visibility)
      ensures ops.mutation == mutation && ops.parent == this && ops.codecs == codecs && ops.completed == []
    {
      ops := new ValueOps(FromPartsWithVisibility(family, qualifier, visibility), mutation, this, codecs);
    }

    /** column(expression): the expression is parsed first, and a bad one throws. */
    method ColumnExpr(expression: string) returns (r: Result<ValueOps<RowMutationOps>>)
      ensures Parse(expression).Err? ==> r == Err(Parse(expression).error)
      ensures Parse(expression).Ok? ==>
                && r.Ok? && fresh(r.value) && r.value.columnIdentifiers == Parse(expression).value
                && r.value.mutation == mutation && r.value.parent == this && r.value.completed == []
    {
      var parsed := Parse(expression);
      if parsed.Err? {
        r := Err(parsed.error);
      } else {
        var ops := new ValueOps(parsed.value, mutation, this, codecs);
        r := Ok(ops);
      }
    }

    /** delete(family, qualifier). */
    method DeleteColumn(family: string, qualifier: string) returns (self: RowMutationOps)
      modifies mutation
      ensures self == this && mutation.updates == old(mutation.updates) + [Delete(family, qualifier, None, None)]
    {
      mutation.Add(Delete(family, qualifier, None, None));
      self := this;
    }

    /** delete(family, qualifier, visibility). */
    method DeleteColumnVisible(family: string, qualifier: string, visibility: string) returns (self: RowMutationOps)
      modifies mutation
      ensures self == this
      ensures mutation.updates == old(mutation.updates) + [Delete(family, qualifier, Some(visibility), None)]
    {
      mutation.Add(Delete(family, qualifier, Some(visibility), None));
      self := this;
    }

    /** delete(family, qualifier, visibility, timestamp): the timestamp is passed on even when it is 0. */
    method DeleteColumnVisibleAt(family: string, qualifier: string, visibility: string, timestamp: Int64)
      returns (self: RowMutationOps)
      modifies mutation
      ensures self == this
      ensures mutation.updates == old(mutation.updates) + [Delete(family, qualifier, Some(visibility), Some(timestamp))]
    {
      mutation.Add(Delete(family, qualifier, Some(visibility), Some(timestamp)));
      self := this;
    }

    /** delete(expression): a delete with the expression's visibility when it has one. */
    method DeleteExpr(expression: string) returns (r: Result<RowMutationOps>)
      modifies mutation
      ensures Parse(expression).Err? ==> r == Err(Parse(expression).error) && mutation.updates == old(mutation.updates)
      ensures Parse(expression).Ok? ==>
                r == Ok(this) && mutation.updates == old(mutation.updates) + [ExprDeleteEntry(Parse(expression).value)]
    {
      var parsed := Parse(expression);
      if parsed.Err? {
        r := Err(parsed.error);
      } else {
        var ci := parsed.value;
        var self;
        if HasVisibilityExpression(ci) {
          self := DeleteColumnVisible(ci.family, ci.qualifier, ci.visibility.value);
        } else {
          self := DeleteColumn(ci.family, ci.qualifier);
        }
        r := Ok(self);
      }
    }

    /**
     * deleteMany(family, visibility, timestamp, qualifiers...): one delete per
     * qualifier, in order, all of the same family; one of four loops runs,
     * chosen by whether the visibility is non-null and the timestamp non-zero.
     */
    method DeleteMany(columnFamily: string, visibility: Option<string>, timestamp: Int64, columnQualifiers: seq<string>)
      returns (self: RowMutationOps)
      modifies mutation
      ensures self == this
      ensures mutation.updates
           == old(mutation.updates) + DeletesFor(columnFamily, visibility, timestamp, columnQualifiers)
    {
      var qs := columnQualifiers;
      if visibility.Some? && timestamp != 0 {
        for i := 0 to |qs|
          invariant mutation.updates == old(mutation.updates) + DeletesFor(columnFamily, visibility, timestamp, qs[..i])
        {
          DeletesForStep(columnFamily, visibility, timestamp, qs, i);
          mutation.Add(Delete(columnFamily, qs[i], Some(visibility.value), Some(timestamp)));
        }
      } else if visibility.Some? {
        for i := 0 to |qs|
          invariant mutation.updates == old(mutation.updates) + DeletesFor(columnFamily, visibility, timestamp, qs[..i])
        {
          DeletesForStep(columnFamily, visibility, timestamp, qs, i);
          mutation.Add(Delete(columnFamily, qs[i], Some(visibility.value), None));
        }
      } else if timestamp != 0 {
        for i := 0 to |qs|
          invariant mutation.updates == old(mutation.updates) + DeletesFor(columnFamily, visibility, timestamp, qs[..i])
        {
          DeletesForStep(columnFamily, visibility, timestamp, qs, i);
          mutation.Add(Delete(columnFamily, qs[i], None, Some(timestamp)));
        }
      } else {
        for i := 0 to |qs|
          invariant mutation.updates == old(mutation.updates) + DeletesFor(columnFamily, visibility, timestamp, qs[..i])
        {
          DeletesForStep(columnFamily, visibility, timestamp, qs, i);
          mutation.Add(Delete(columnFamily, qs[i], None, None));
        }
      }
      assert qs[..|qs|] == qs;
      self := this;
    }

    /** deleteMany(family, qualifiers...): no visibility, timestamp 0. */
    method DeleteManyOf(columnFamily: string, columnQualifiers: seq<string>) returns (self: RowMutationOps)
      modifies mutation
      ensures self == this
      ensures mutation.updates == old(mutation.updates) + DeletesFor(columnFamily, None, 0, columnQualifiers)
    {
      self := DeleteMany(columnFamily, None, 0, columnQualifiers);
    }

    /** deleteMany(family, visibility, qualifiers...): timestamp 0. */
    method DeleteManyVisible(columnFamily: string, visibility: string, columnQualifiers: seq<string>)
      returns (self: RowMutationOps)
      modifies mutation
      ensures self == this
      ensures mutation.updates == old(mutation.updates) + DeletesFor(columnFamily, Some(visibility), 0, columnQualifiers)
    {
      self := DeleteMany(columnFamily, Some(visibility), 0, columnQualifiers);
    }

    /** deleteMany(family, timestamp, qualifiers...): no visibility. */
    method DeleteManyAt(columnFamily: string, timestamp: Int64, columnQualifiers: seq<string>)
      returns (self: RowMutationOps)
      modifies mutation
      ensures self == this
      ensures mutation.updates == old(mutation.updates) + DeletesFor(columnFamily, None, timestamp, columnQualifiers)
    {
      self := DeleteMany(columnFamily, None, timestamp, columnQualifiers);
    }

    /** endRow(): the mutation is queued once with the parent, which is returned. */
    method EndRow() returns (p: MutationQueue)
      modifies parent
      ensures p == parent && parent.queued == old(parent.queued) + [mutation]
    {
      parent.QueueMutations(mutation);
      p := parent;
    }
  }
}
