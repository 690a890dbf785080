/**
 * Abstract models of the Accumulo client types the core talks to: keys,
 * ranges, mutations, the writer that queues finished mutations and the
 * scanner that returns the entries of a range. Only what the core reads or
 * writes is kept; Accumulo's own behaviour (sorting, encoding, visibility
 * evaluation) is outside the model.
 */
module Accumulo {
  import opened Common

  /** A key or range component that may be null. */
  type Field = Option<string>

  /**
   * The timestamp a key carries when it is built without one. It is the
   * value RangeBuilder.score treats as "no timestamp" (Integer.MAX_VALUE).
   */
  const UnsetTimestamp: Int64 := IntMax

  /** org.apache.accumulo.core.data.Key, with absent components as None. */
  datatype Key = Key(row: Field, family: Field, qualifier: Field, visibility: Field, timestamp: Int64)

  /** The components Range.exact and Range.prefix take, in their order. */
  function KeyFields(k: Key): seq<Field> {
    [k.row, k.family, k.qualifier, k.visibility]
  }

  /**
   * org.apache.accumulo.core.data.Range, by the factory or constructor that
   * made it: `Range.exact(row, cf?, cq?, cv?, ts?)`, `Range.prefix(row, cf?,
   * cq?, cv?)`, the 4-argument (start, startInclusive, end, endInclusive)
   * constructor, the 6-argument constructor with the two infinite flags,
   * and the (startRow, endRow) constructor over whole rows.
   */
  datatype Range =
    | ExactRange(fields: seq<Field>, timestamp: Option<Int64>)
    | PrefixRange(fields: seq<Field>)
    | BoundedRange(start: Option<Key>, startInclusive: bool, end: Option<Key>, endInclusive: bool)
    | FlaggedRange(start: Option<Key>, end: Option<Key>, startInclusive: bool, endInclusive: bool,
                   infiniteStart: bool, infiniteEnd: bool)
    | RowRange(startRow: string, endRow: string)

  /** The range a fresh scanner covers: the whole table. */
  const WholeTable: Range := FlaggedRange(None, None, true, true, true, true)

  /**
   * The value of a put: a String handed to Mutation.put as text, or the
   * bytes of a Value.
   */
  datatype CellValue = TextValue(text: string) | RawValue(bytes: Bytes)

  /** One column update of a mutation: Mutation.put or Mutation.putDelete. */
  datatype ColumnUpdate =
    | Put(family: string, qualifier: string, visibility: Option<string>, timestamp: Option<Int64>, value: CellValue)
    | Delete(family: string, qualifier: string, visibility: Option<string>, timestamp: Option<Int64>)

  /** org.apache.accumulo.core.data.Mutation: a row and its updates, in order. */
  class Mutation {
    const row: string
    var updates: seq<ColumnUpdate>

    constructor (row: string)
      ensures this.row == row && updates == []
    {
      this.row := row;
      updates := [];
    }

    /** Every put and putDelete overload appends exactly one update. */
    method Add(u: ColumnUpdate)
      modifies this
      ensures updates == old(updates) + [u]
    {
      updates := updates + [u];
    }
  }

  /**
   * The parent MutationOps as far as its children see it: queueMutations
   * hands each finished mutation to the writer, which is modelled as the
   * sequence of mutations queued so far.
   */
  class MutationQueue {
    var queued: seq<Mutation>

    constructor ()
      ensures queued == []
    {
      queued := [];
    }

    method QueueMutations(m: Mutation)
      modifies this
      ensures queued == old(queued) + [m]
    {
      queued := queued + [m];
    }
  }

  /** One scanned cell. */
  datatype Entry = Entry(key: Key, value: Bytes)

  /**
   * org.apache.accumulo.core.client.Scanner: it holds the range last set,
   * and iterating it yields the table's entries in that range, which are
   * given as the function `lookup`.
   */
  class Scanner {
    var range: Range
    const lookup: Range -> seq<Entry>

    constructor (lookup: Range -> seq<Entry>)
      ensures range == WholeTable && this.lookup == lookup
    {
      range := WholeTable;
      this.lookup := lookup;
    }

    method SetRange(r: Range)
      modifies this
      ensures range == r
    {
      range := r;
    }

    /** What scanner.iterator() walks through. */
    function Iterator(): seq<Entry>
      reads this
    {
      lookup(range)
    }
  }
}
