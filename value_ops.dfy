/**
 * ValueOps: the last step of a fluent put. It holds the column identifiers
 * and the mutation of the row in scope; `value(x[, timestamp])` encodes x and
 * appends one put, reports the mutation to the completion handler and hands
 * back the parent fluent.
 */
module ValueOperations {
  import opened Common
  import opened Accumulo
  import opened ColumnExpressions
  import opened Conversions

  /**
   * The put handleValue appends: family and qualifier from the identifiers,
   * the given bytes, the visibility exactly when the identifiers have one,
   * and the timestamp exactly when it is not 0.
   */
  function PutFor(ci: ColumnIdentifiers, value: Bytes, timestamp: Int64): (u: ColumnUpdate)
    ensures u.Put? && u.family == ci.family && u.qualifier == ci.qualifier && u.value == RawValue(value)
    ensures u.visibility == ci.visibility
    ensures u.timestamp == if timestamp != 0 then Some(timestamp) else None
  {
    if HasVisibilityExpression(ci) && timestamp != 0 then
      Put(ci.family, ci.qualifier, Some(ci.visibility.value), Some(timestamp), RawValue(value))
    else if HasVisibilityExpression(ci) then
      Put(ci.family, ci.qualifier, Some(ci.visibility.value), None, RawValue(value))
    else if timestamp != 0 then
      Put(ci.family, ci.qualifier, None, Some(timestamp), RawValue(value))
    else
      Put(ci.family, ci.qualifier, None, None, RawValue(value))
  }

  class ValueOps<T> {
    const columnIdentifiers: ColumnIdentifiers
    const mutation: Mutation
    const parent: T
    const codecs: Lexicoders
    /** The mutations handed to onComplete so far, in order. */
    ghost var completed: seq<Mutation>

    constructor (columnIdentifiers: ColumnIdentifiers, mutation: Mutation, parent: T, codecs: Lexicoders)
      ensures this.columnIdentifiers == columnIdentifiers && this.mutation == mutation
      ensures this.parent == parent && this.codecs == codecs && completed == []
    {
      this.columnIdentifiers := columnIdentifiers;
      this.mutation := mutation;
      this.parent := parent;
      this.codecs := codecs;
      completed := [];
    }

    /** value(x): the same as value(x, 0), so no timestamp. There is no byte[] overload. */
    method Value(value: JavaValue) returns (p: T)
      requires !value.BytesValue?
      modifies this, mutation
      ensures p == parent
      ensures mutation.updates == old(mutation.updates) + [PutFor(columnIdentifiers, ToByteArray(codecs, value), 0)]
      ensures completed == old(completed) + [mutation]
    {
      p := ValueAt(value, 0);
    }

    /** value(x, timestamp): toByteArray(x) goes to handleValue. */
    method ValueAt(value: JavaValue, timestamp: Int64) returns (p: T)
      requires !value.BytesValue?
      modifies this, mutation
      ensures p == parent
      ensures mutation.updates
           == old(mutation.updates) + [PutFor(columnIdentifiers, ToByteArray(codecs, value), timestamp)]
      ensures completed == old(completed) + [mutation]
    {
      p := HandleValue(ToByteArray(codecs, value), timestamp);
    }

    /**
     * handleValue: exactly one put is appended after the earlier updates,
     * onComplete sees this mutation once, and the parent is returned.
     */
    method HandleValue(value: Bytes, timestamp: Int64) returns (p: T)
      modifies this, mutation
      ensures p == parent
      ensures mutation.updates == old(mutation.updates) + [PutFor(columnIdentifiers, value, timestamp)]
      ensures completed == old(completed) + [mutation]
    {
      mutation.Add(PutFor(columnIdentifiers, value, timestamp));
      completed := completed + [mutation];
      p := parent;
    }
  }
}
