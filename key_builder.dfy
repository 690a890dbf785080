/**
 * KeyBuilder: a fluent builder whose setters record a component and add a
 * weight (family 1, column 3, visibility 9, timestamp 18; row nothing) to a
 * running `configuration`, and whose `build` picks the Key constructor from
 * that sum.
 */
module KeyBuilding {
  import opened Common
  import opened Accumulo

  /** The setters that add to `configuration`. */
  datatype Setter = FamilySetter | ColumnSetter | VisibilitySetter | TimestampSetter

  function Weight(s: Setter): nat {
    match s
    case FamilySetter => 1
    case ColumnSetter => 3
    case VisibilitySetter => 9
    case TimestampSetter => 18
  }

  /** The configuration reached by a sequence of setter calls. */
  function Configuration(calls: seq<Setter>): nat
    decreases |calls|
  {
    if calls == [] then 0 else Configuration(calls[..|calls| - 1]) + Weight(calls[|calls| - 1])
  }

  /** The sum of the weights of the components that are present. */
  function ScoreOf(family: bool, qualifier: bool, visibility: bool, timestamp: bool): nat {
    (if family then 1 else 0) + (if qualifier then 3 else 0)
    + (if visibility then 9 else 0) + (if timestamp then 18 else 0)
  }

  /** No setter occurs twice. */
  predicate AtMostOnce(calls: seq<Setter>) {
    forall i, j :: 0 <= i < j < |calls| ==> calls[i] != calls[j]
  }

  /** The shapes `build` keeps: a family, and a qualifier whenever there is a visibility or a timestamp. */
  predicate LegalShape(family: bool, qualifier: bool, visibility: bool, timestamp: bool) {
    family && (qualifier || (!visibility && !timestamp))
  }

  /* ----- The score ----- */

  /** configuration counts each setter call with its weight, whatever the order. */
  lemma {:induction false} ConfigurationCountsCalls(calls: seq<Setter>)
    ensures var m := multiset(calls);
      Configuration(calls)
      == m[FamilySetter] + 3 * m[ColumnSetter] + 9 * m[VisibilitySetter] + 18 * m[TimestampSetter]
    decreases |calls|
  {
    if calls != [] {
      var init := calls[..|calls| - 1];
      assert calls == init + [calls[|calls| - 1]];
      ConfigurationCountsCalls(init);
    }
  }

  /** Reordering the setter calls does not change the score. */
  lemma ConfigurationIgnoresOrder(a: seq<Setter>, b: seq<Setter>)
    requires multiset(a) == multiset(b)
    ensures Configuration(a) == Configuration(b)
  {
    ConfigurationCountsCalls(a);
    ConfigurationCountsCalls(b);
  }

  /** With each setter called at most once, the score is the weight of the set of setters called. */
  lemma {:induction false} ConfigurationOfDistinctCalls(calls: seq<Setter>)
    requires AtMostOnce(calls)
    ensures Configuration(calls)
         == ScoreOf(FamilySetter in calls, ColumnSetter in calls, VisibilitySetter in calls, TimestampSetter in calls)
    decreases |calls|
  {
    if calls != [] {
      var init, last := calls[..|calls| - 1], calls[|calls| - 1];
      assert calls == init + [last];
      assert last !in init by {
        forall i | 0 <= i < |init| ensures init[i] != last {
          assert calls[i] != calls[|calls| - 1];
        }
      }
      assert AtMostOnce(init) by {
        forall i, j | 0 <= i < j < |init| ensures init[i] != init[j] {
          assert calls[i] != calls[j];
        }
      }
      ConfigurationOfDistinctCalls(init);
    }
  }

  /** Different sets of components never share a score. */
  lemma ScoreOfInjective(f1: bool, c1: bool, v1: bool, t1: bool, f2: bool, c2: bool, v2: bool, t2: bool)
    requires ScoreOf(f1, c1, v1, t1) == ScoreOf(f2, c2, v2, t2)
    ensures f1 == f2 && c1 == c2 && v1 == v2 && t1 == t2
  {
  }

  /** Two call sequences without repeats that reach the same score called the same setters. */
  lemma DistinctCallsDetermineSetters(a: seq<Setter>, b: seq<Setter>)
    requires AtMostOnce(a) && AtMostOnce(b) && Configuration(a) == Configuration(b)
    ensures forall s: Setter :: s in a <==> s in b
  {
    ConfigurationOfDistinctCalls(a);
    ConfigurationOfDistinctCalls(b);
    ScoreOfInjective(FamilySetter in a, ColumnSetter in a, VisibilitySetter in a, TimestampSetter in a,
                     FamilySetter in b, ColumnSetter in b, VisibilitySetter in b, TimestampSetter in b);
    forall s: Setter ensures s in a <==> s in b {
      match s
      case FamilySetter =>
      case ColumnSetter =>
      case VisibilitySetter =>
      case TimestampSetter =>
    }
  }

  /** The five scores `build` has a case for are exactly the legal shapes. */
  lemma SwitchCasesAreLegalShapes(f: bool, c: bool, v: bool, t: bool)
    ensures ScoreOf(f, c, v, t) in {1, 4, 13, 22, 31} <==> LegalShape(f, c, v, t)
  {
  }

  /* ----- build ----- */

  /**
   * The key `build` returns for a configuration: the components of the
   * matching case, each one not taken left unset; any score other than the
   * five cases gives the row-only key.
   */
  function KeyFor(configuration: int, row: Field, family: Field, qualifier: Field, visibility: Field,
                  timestamp: Int64): (k: Key)
    ensures k.row == row
    ensures k.family == (if configuration in {1, 4, 13, 22, 31} then family else None)
    ensures k.qualifier == (if configuration in {4, 13, 22, 31} then qualifier else None)
    ensures k.visibility == (if configuration in {13, 31} then visibility else None)
    ensures k.timestamp == (if configuration in {22, 31} then timestamp else UnsetTimestamp)
  {
    match configuration
    case 1 => Key(row, family, None, None, UnsetTimestamp)
    case 4 => Key(row, family, qualifier, None, UnsetTimestamp)
    case 13 => Key(row, family, qualifier, visibility, UnsetTimestamp)
    case 22 => Key(row, family, qualifier, None, timestamp)
    case 31 => Key(row, family, qualifier, visibility, timestamp)
    case _ => Key(row, None, None, None, UnsetTimestamp)
  }

  /**
   * With each setter called at most once, `build` keeps every component that
   * was set when the shape is legal, and otherwise drops all but the row.
   */
  lemma BuildOfDistinctCalls(calls: seq<Setter>, row: Field, family: Field, qualifier: Field,
                             visibility: Field, timestamp: Int64)
    requires AtMostOnce(calls)
    requires family.Some? <==> FamilySetter in calls
    requires qualifier.Some? <==> ColumnSetter in calls
    requires visibility.Some? <==> VisibilitySetter in calls
    ensures var k := KeyFor(Configuration(calls), row, family, qualifier, visibility, timestamp);
      && (LegalShape(family.Some?, qualifier.Some?, visibility.Some?, TimestampSetter in calls) ==>
            && k == Key(row, family, qualifier, visibility, k.timestamp)
            && k.timestamp == (if TimestampSetter in calls then timestamp else UnsetTimestamp))
      && (!LegalShape(family.Some?, qualifier.Some?, visibility.Some?, TimestampSetter in calls) ==>
            k == Key(row, None, None, None, UnsetTimestamp))
  {
    ConfigurationOfDistinctCalls(calls);
    SwitchCasesAreLegalShapes(family.Some?, qualifier.Some?, visibility.Some?, TimestampSetter in calls);
  }

  /** org.apache.accumulo's Key built step by step. */
  class KeyBuilder {
    var rowId: Field
    var columnFamily: Field
    var columnQualifier: Field
    var columnVisibility: Field
    var timestamp: Int64
    var configuration: int
    /** The weighted setters called so far, in order. */
    ghost var calls: seq<Setter>

    /** configuration is the score of the calls made, and a component is set exactly when its setter ran. */
    ghost predicate Valid()
      reads this
    {
      && configuration == Configuration(calls)
      && (columnFamily.Some? <==> FamilySetter in calls)
      && (columnQualifier.Some? <==> ColumnSetter in calls)
      && (columnVisibility.Some? <==> VisibilitySetter in calls)
    }

    /** A fresh builder: every string null, timestamp 0, configuration 0. */
    constructor ()
      ensures Valid() && calls == []
      ensures rowId == None && columnFamily == None && columnQualifier == None && columnVisibility == None
      ensures timestamp == 0 && configuration == 0
    {
      rowId, columnFamily, columnQualifier, columnVisibility := None, None, None, None;
      timestamp, configuration := 0, 0;
      calls := [];
    }

    /** row() sets the row and leaves the score alone. */
    method Row(key: string) returns (self: KeyBuilder)
      requires Valid()
      modifies this
      ensures self == this && Valid()
      ensures rowId == Some(key) && configuration == old(configuration) && calls == old(calls)
      ensures columnFamily == old(columnFamily) && columnQualifier == old(columnQualifier)
      ensures columnVisibility == old(columnVisibility) && timestamp == old(timestamp)
    {
      rowId := Some(key);
      self := this;
    }

    method Family(family: string) returns (self: KeyBuilder)
      requires Valid()
      modifies this
      ensures self == this && Valid()
      ensures columnFamily == Some(family) && configuration == old(configuration) + 1
      ensures calls == old(calls) + [FamilySetter]
      ensures rowId == old(rowId) && columnQualifier == old(columnQualifier)
      ensures columnVisibility == old(columnVisibility) && timestamp == old(timestamp)
    {
      columnFamily := Some(family);
      configuration := configuration + 1;
      calls := calls + [FamilySetter];
      self := this;
    }

    method Column(column: string) returns (self: KeyBuilder)
      requires Valid()
      modifies this
      ensures self == this && Valid()
      ensures columnQualifier == Some(column) && configuration == old(configuration) + 3
      ensures calls == old(calls) + [ColumnSetter]
      ensures rowId == old(rowId) && columnFamily == old(columnFamily)
      ensures columnVisibility == old(columnVisibility) && timestamp == old(timestamp)
    {
      columnQualifier := Some(column);
      configuration := configuration + 3;
      calls := calls + [ColumnSetter];
      self := this;
    }

    method Visibility(visibility: string) returns (self: KeyBuilder)
      requires Valid()
      modifies this
      ensures self == this && Valid()
      ensures columnVisibility == Some(visibility) && configuration == old(configuration) + 9
      ensures calls == old(calls) + [VisibilitySetter]
      ensures rowId == old(rowId) && columnFamily == old(columnFamily)
      ensures columnQualifier == old(columnQualifier) && timestamp == old(timestamp)
    {
      columnVisibility := Some(visibility);
      configuration := configuration + 9;
      calls := calls + [VisibilitySetter];
      self := this;
    }

    method Timestamp(timestamp: Int64) returns (self: KeyBuilder)
      requires Valid()
      modifies this
      ensures self == this && Valid()
      ensures this.timestamp == timestamp && configuration == old(configuration) + 18
      ensures calls == old(calls) + [TimestampSetter]
      ensures rowId == old(rowId) && columnFamily == old(columnFamily)
      ensures columnQualifier == old(columnQualifier) && columnVisibility == old(columnVisibility)
    {
      this.timestamp := timestamp;
      configuration := configuration + 18;
      calls := calls + [TimestampSetter];
      self := this;
    }

    /** build() dispatches on the configuration; it changes nothing. */
    method Build() returns (k: Key)
      ensures k == KeyFor(configuration, rowId, columnFamily, columnQualifier, columnVisibility, timestamp)
    {
      if configuration == 1 {
        k := Key(rowId, columnFamily, None, None, UnsetTimestamp);
      } else if configuration == 4 {
        k := Key(rowId, columnFamily, columnQualifier, None, UnsetTimestamp);
      } else if configuration == 13 {
        k := Key(rowId, columnFamily, columnQualifier, columnVisibility, UnsetTimestamp);
      } else if configuration == 22 {
        k := Key(rowId, columnFamily, columnQualifier, None, timestamp);
      } else if configuration == 31 {
        k := Key(rowId, columnFamily, columnQualifier, columnVisibility, timestamp);
      } else {
        k := Key(rowId, None, None, None, UnsetTimestamp);
      }
    }
  }

  /* ----- Builder scenarios ----- */

  /** `new KeyBuilder().row(r).build()` is the row-only key. */
  method BuildRowOnly(r: string) returns (k: Key)
    ensures k == Key(Some(r), None, None, None, UnsetTimestamp)
  {
    var b := new KeyBuilder();
    b := b.Row(r);
    k := b.Build();
  }

  /** `row(r).family(f).build()` is the (row, family) key. */
  method BuildRowAndFamily(r: string, f: string) returns (k: Key)
    ensures k == Key(Some(r), Some(f), None, None, UnsetTimestamp)
  {
    var b := new KeyBuilder();
    b := b.Row(r);
    b := b.Family(f);
    k := b.Build();
  }

  /** Calling family twice scores 2, which has no case: only the row survives. */
  method BuildFamilyTwice(r: string, f1: string, f2: string) returns (k: Key)
    ensures k == Key(Some(r), None, None, None, UnsetTimestamp)
  {
    var b := new KeyBuilder();
    b := b.Row(r);
    b := b.Family(f1);
    b := b.Family(f2);
    k := b.Build();
  }

  /** A visibility without a qualifier scores 10: only the row survives. */
  method BuildVisibilityWithoutQualifier(r: string, f: string, v: string) returns (k: Key)
    ensures k == Key(Some(r), None, None, None, UnsetTimestamp)
  {
    var b := new KeyBuilder();
    b := b.Row(r);
    b := b.Family(f);
    b := b.Visibility(v);
    k := b.Build();
  }

  /** All four setters, in any order, give the full key. */
  method BuildEverythingBackwards(r: string, f: string, q: string, v: string, ts: Int64) returns (k: Key)
    ensures k == Key(Some(r), Some(f), Some(q), Some(v), ts)
  {
    var b := new KeyBuilder();
    b := b.Timestamp(ts);
    b := b.Visibility(v);
    b := b.Column(q);
    b := b.Family(f);
    b := b.Row(r);
    k := b.Build();
  }
}
