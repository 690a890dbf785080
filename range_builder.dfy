/**
 * RangeBuilder: a fluent builder of Accumulo ranges. A prefix or exact range
 * is derived from the start key alone, by the same weighted score KeyBuilder
 * uses (capped at 13); otherwise the start and end keys with their flags go
 * to one of Range's two bounded constructors.
 */
module RangeBuilding {
  import opened Common
  import opened Accumulo
  import opened KeyBuilding

  /**
   * score(key): 1, 3 and 9 for a non-null family, qualifier and visibility,
   * 18 for a timestamp other than Integer.MAX_VALUE.
   */
  function Score(key: Key): (r: nat)
    ensures r <= 31
    ensures key.family.Some? <==> r % 3 == 1
    ensures key.qualifier.Some? <==> r / 3 % 3 == 1
    ensures key.visibility.Some? <==> r / 9 % 2 == 1
    ensures key.timestamp != IntMax <==> r >= 18
  {
    ScoreOf(key.family.Some?, key.qualifier.Some?, key.visibility.Some?, key.timestamp != IntMax)
  }

  /** Both constructPrefix and constructExact lower any score above 13 to 13. */
  function Capped(score: nat): nat {
    if score > 13 then 13 else score
  }

  /**
   * constructPrefix(): the prefix range over the row and the components the
   * capped score selects; the key's components are taken in order, so the
   * range's fields are always a prefix of them.
   */
  function ConstructPrefix(start: Key): (r: Range)
    ensures r.PrefixRange?
    ensures 1 <= |r.fields| <= 4 && r.fields == KeyFields(start)[..|r.fields|]
    ensures |r.fields| == 2 <==> Score(start) == 1
    ensures |r.fields| == 3 <==> Score(start) == 4
    ensures |r.fields| == 4 <==> Score(start) >= 13
  {
    match Capped(Score(start))
    case 1 => PrefixRange([start.row, start.family])
    case 4 => PrefixRange([start.row, start.family, start.qualifier])
    case 13 => PrefixRange([start.row, start.family, start.qualifier, start.visibility])
    case _ => PrefixRange([start.row])
  }

  /**
   * constructExact(): like constructPrefix, with an exact range. Its case for
   * score 31 follows the cap to 13, so no exact range it builds carries a
   * timestamp.
   */
  function ConstructExact(start: Key): (r: Range)
    ensures r.ExactRange? && r.timestamp.None?
    ensures 1 <= |r.fields| <= 4 && r.fields == KeyFields(start)[..|r.fields|]
    ensures |r.fields| == 2 <==> Score(start) == 1
    ensures |r.fields| == 3 <==> Score(start) == 4
    ensures |r.fields| == 4 <==> Score(start) >= 13
  {
    match Capped(Score(start))
    case 1 => ExactRange([start.row, start.family], None)
    case 4 => ExactRange([start.row, start.family, start.qualifier], None)
    case 13 => ExactRange([start.row, start.family, start.qualifier, start.visibility], None)
    case 31 => ExactRange([start.row, start.family, start.qualifier, start.visibility], Some(start.timestamp))
    case _ => ExactRange([start.row], None)
  }

  /**
   * constructExact as its case 31 evidently means it: a key with every
   * component, timestamp included, gives the five-part exact range; every
   * other key is handled as before.
   */
  function ConstructExactIntended(start: Key): (r: Range)
    ensures r.ExactRange?
    ensures Score(start) == 31 ==> r.fields == KeyFields(start) && r.timestamp == Some(start.timestamp)
    ensures Score(start) != 31 ==> r == ConstructExact(start)
  {
    if Score(start) == 31 then ExactRange(KeyFields(start), Some(start.timestamp))
    else ConstructExact(start)
  }

  /** A key whose every component is set loses its timestamp in constructExact. */
  lemma ExactDropsTimestampOfFullKey(row: string, cf: string, cq: string, cv: string, ts: Int64)
    requires ts != IntMax
    ensures var k := Key(Some(row), Some(cf), Some(cq), Some(cv), ts);
      && ConstructExact(k) == ExactRange([Some(row), Some(cf), Some(cq), Some(cv)], None)
      && ConstructExactIntended(k) == ExactRange([Some(row), Some(cf), Some(cq), Some(cv)], Some(ts))
  {
    var k := Key(Some(row), Some(cf), Some(cq), Some(cv), ts);
    assert Score(k) == 31;
    assert KeyFields(k) == [Some(row), Some(cf), Some(cq), Some(cv)];
  }

  /**
   * The score of a key KeyBuilder built, from setters called at most once and
   * a timestamp other than the sentinel, is the builder's configuration when
   * the shape is legal, and 0 when build fell back to the row-only key.
   */
  lemma ScoreOfBuiltKey(calls: seq<Setter>, row: Field, family: Field, qualifier: Field,
                        visibility: Field, timestamp: Int64)
    requires AtMostOnce(calls) && timestamp != IntMax
    requires family.Some? <==> FamilySetter in calls
    requires qualifier.Some? <==> ColumnSetter in calls
    requires visibility.Some? <==> VisibilitySetter in calls
    ensures var k := KeyFor(Configuration(calls), row, family, qualifier, visibility, timestamp);
      Score(k) == if LegalShape(family.Some?, qualifier.Some?, visibility.Some?, TimestampSetter in calls)
                  then Configuration(calls) else 0
  {
    BuildOfDistinctCalls(calls, row, family, qualifier, visibility, timestamp);
    ConfigurationOfDistinctCalls(calls);
  }

  /**
   * A key built from family, column and timestamp scores 22, which the cap
   * turns into 13: the exact range gets the null visibility as a fourth part.
   */
  lemma ExactOfKeyWithTimestampOnly(row: string, cf: string, cq: string, ts: Int64)
    requires ts != IntMax
    ensures ConstructExact(Key(Some(row), Some(cf), Some(cq), None, ts))
         == ExactRange([Some(row), Some(cf), Some(cq), None], None)
  {
    var k := Key(Some(row), Some(cf), Some(cq), None, ts);
    assert Score(k) == 22;
  }

  /** Every setting of a RangeBuilder, as one value. */
  datatype RangeSettings = RangeSettings(
    start: Option<Key>, end: Option<Key>,
    startKeyInclusive: bool, infiniteStartKey: bool, infiniteEndKey: bool, endKeyInclusive: bool,
    isPrefix: bool, isExact: bool)

  class RangeBuilder {
    var start: Option<Key>
    var end: Option<Key>
    var startKeyInclusive: bool
    var infiniteStartKey: bool
    var infiniteEndKey: bool
    var endKeyInclusive: bool
    var isPrefix: bool
    var isExact: bool

    function Settings(): RangeSettings
      reads this
    {
      RangeSettings(start, end, startKeyInclusive, infiniteStartKey, infiniteEndKey, endKeyInclusive,
                    isPrefix, isExact)
    }

    /** No keys; both sides inclusive, neither infinite; neither prefix nor exact. */
    constructor ()
      ensures Settings() == RangeSettings(None, None, true, false, false, true, false, false)
    {
      start, end := None, None;
      startKeyInclusive, infiniteStartKey, infiniteEndKey, endKeyInclusive := true, false, false, true;
      isPrefix, isExact := false, false;
    }

    method Start(key: Key) returns (self: RangeBuilder)
      modifies this
      ensures self == this && Settings() == old(Settings()).(start := Some(key))
    {
      start := Some(key);
      self := this;
    }

    method StartInclusive(key: Key, inclusive: bool) returns (self: RangeBuilder)
      modifies this
      ensures self == this
      ensures Settings() == old(Settings()).(start := Some(key), startKeyInclusive := inclusive)
    {
      start := Some(key);
      startKeyInclusive := inclusive;
      self := this;
    }

    method InfiniteStart() returns (self: RangeBuilder)
      modifies this
      ensures self == this && Settings() == old(Settings()).(infiniteStartKey := true)
    {
      infiniteStartKey := true;
      self := this;
    }

    method End(key: Key) returns (self: RangeBuilder)
      modifies this
      ensures self == this && Settings() == old(Settings()).(end := Some(key))
    {
      end := Some(key);
      self := this;
    }

    method EndInclusive(key: Key, inclusive: bool) returns (self: RangeBuilder)
      modifies this
      ensures self == this
      ensures Settings() == old(Settings()).(end := Some(key), endKeyInclusive := inclusive)
    {
      end := Some(key);
      endKeyInclusive := inclusive;
      self := this;
    }

    method InfiniteEnd() returns (self: RangeBuilder)
      modifies this
      ensures self == this && Settings() == old(Settings()).(infiniteEndKey := true)
    {
      infiniteEndKey := true;
      self := this;
    }

    method Exact() returns (self: RangeBuilder)
      modifies this
      ensures self == this && Settings() == old(Settings()).(isExact := true)
    {
      isExact := true;
      self := this;
    }

    method Prefix() returns (self: RangeBuilder)
      modifies this
      ensures self == this && Settings() == old(Settings()).(isPrefix := true)
    {
      isPrefix := true;
      self := this;
    }

    /**
     * build(): prefix wins over exact, and both read only the start key (a
     * null one throws inside score); otherwise a bounded range, built with
     * the infinite flags exactly when one of them is set.
     */
    method Build() returns (r: Result<Range>)
      ensures isPrefix ==> r == if start.None? then Err(NullPointer) else Ok(ConstructPrefix(start.value))
      ensures !isPrefix && isExact ==>
                r == if start.None? then Err(NullPointer) else Ok(ConstructExact(start.value))
      ensures !isPrefix && !isExact ==> r.Ok?
      ensures !isPrefix && !isExact && (infiniteStartKey || infiniteEndKey) ==>
                r.value == FlaggedRange(start, end, startKeyInclusive, endKeyInclusive,
                                        infiniteStartKey, infiniteEndKey)
      ensures !isPrefix && !isExact && !infiniteStartKey && !infiniteEndKey ==>
                r.value == BoundedRange(start, startKeyInclusive, end, endKeyInclusive)
    {
      if isPrefix {
        if start.None? {
          r := Err(NullPointer);
        } else {
          r := Ok(ConstructPrefix(start.value));
        }
      } else if isExact {
        if start.None? {
          r := Err(NullPointer);
        } else {
          r := Ok(ConstructExact(start.value));
        }
      } else if infiniteStartKey || infiniteEndKey {
        r := Ok(FlaggedRange(start, end, startKeyInclusive, endKeyInclusive, infiniteStartKey, infiniteEndKey));
      } else {
        r := Ok(BoundedRange(start, startKeyInclusive, end, endKeyInclusive));
      }
    }
  }

  /** The static RangeBuilder.exact(key): `new RangeBuilder().start(key).exact().build()`. */
  method ExactOf(key: Key) returns (r: Range)
    ensures r == ConstructExact(key)
  {
    var rb := new RangeBuilder();
    rb := rb.Start(key);
    rb := rb.Exact();
    var built := rb.Build();
    r := built.value;
  }

  /** The static RangeBuilder.prefix(key): `new RangeBuilder().start(key).prefix().build()`. */
  method PrefixOf(key: Key) returns (r: Range)
    ensures r == ConstructPrefix(key)
  {
    var rb := new RangeBuilder();
    rb := rb.Start(key);
    rb := rb.Prefix();
    var built := rb.Build();
    r := built.value;
  }

  /** Setting both prefix and exact builds the prefix range; the end key plays no part. */
  method PrefixWinsOverExact(key: Key, other: Key) returns (r: Result<Range>)
    ensures r == Ok(ConstructPrefix(key))
  {
    var rb := new RangeBuilder();
    rb := rb.Start(key);
    rb := rb.End(other);
    rb := rb.Exact();
    rb := rb.Prefix();
    r := rb.Build();
  }

  /** A default builder given two keys makes the inclusive 4-argument range. */
  method DefaultBounded(from: Key, to: Key) returns (r: Result<Range>)
    ensures r == Ok(BoundedRange(Some(from), true, Some(to), true))
  {
    var rb := new RangeBuilder();
    rb := rb.Start(from);
    rb := rb.End(to);
    r := rb.Build();
  }
}
