/**
 * Cirrus.flatten: joins the ZooKeeper host names for the connection string.
 * It appends every string followed by the separator to a StringBuilder and
 * then deletes what it takes to be the trailing separator.
 */
module CirrusUtilities {
  import opened Common

  /** The strings, each followed by the separator, in order: the builder after the loop. */
  function Terminated(strings: seq<string>, separator: string): string
    decreases |strings|
  {
    if strings == [] then []
    else Terminated(strings[..|strings| - 1], separator) + strings[|strings| - 1] + separator
  }

  /** The strings with the separator between each two of them. */
  function Join(strings: seq<string>, separator: string): string
    decreases |strings|
  {
    if strings == [] then []
    else if |strings| == 1 then strings[0]
    else Join(strings[..|strings| - 1], separator) + separator + strings[|strings| - 1]
  }

  /** The summed lengths of the strings. */
  function TotalLength(strings: seq<string>): nat
    decreases |strings|
  {
    if strings == [] then 0 else TotalLength(strings[..|strings| - 1]) + |strings[|strings| - 1]|
  }

  /** After n >= 1 strings, the builder holds their join and one more separator. */
  lemma {:induction false} TerminatedIsJoinAndSeparator(strings: seq<string>, separator: string)
    requires strings != []
    ensures Terminated(strings, separator) == Join(strings, separator) + separator
    decreases |strings|
  {
    var init := strings[..|strings| - 1];
    var last := strings[|strings| - 1];
    if |strings| > 1 {
      TerminatedIsJoinAndSeparator(init, separator);
      calc {
        Terminated(strings, separator);
        Terminated(init, separator) + last + separator;
        Join(init, separator) + separator + last + separator;
        Join(strings, separator) + separator;
      }
    } else {
      assert init == [];
      assert Terminated(strings, separator) == [] + last + separator;
    }
  }

  /** The builder's length: every string plus one separator per string. */
  lemma {:induction false} TerminatedLength(strings: seq<string>, separator: string)
    ensures |Terminated(strings, separator)| == TotalLength(strings) + |strings| * |separator|
    decreases |strings|
  {
    if strings != [] {
      TerminatedLength(strings[..|strings| - 1], separator);
    }
  }

  /**
   * StringBuilder.delete(start, end): an end past the length is taken as the
   * length; a negative start, or a start past that end, throws; otherwise the
   * characters from start up to the end go.
   */
  function StringBuilderDelete(s: string, start: int, end: int): (r: Result<string>)
    ensures var e := if end > |s| then |s| else end;
      && (r.Err? <==> start < 0 || start > e)
      && (r.Err? ==> r.error == StringIndexOutOfBounds)
      && (r.Ok? ==> |r.value| == |s| - (e - start) && r.value[..start] == s[..start] && r.value[start..] == s[e..])
  {
    var e := if end > |s| then |s| else end;
    if start < 0 || start > e then Err(StringIndexOutOfBounds) else Ok(s[..start] + s[e..])
  }

  /** The loop of flatten: each string and then the separator is appended. */
  method AppendAll(strings: seq<string>, separator: string) returns (sb: string)
    ensures sb == Terminated(strings, separator)
  {
    sb := [];
    for i := 0 to |strings|
      invariant sb == Terminated(strings[..i], separator)
    {
      assert strings[..i + 1][..i] == strings[..i];
      sb := sb + strings[i] + separator;
    }
    assert strings[..|strings|] == strings;
  }

  /**
   * flatten(strings, separator) as written: the delete ends one character
   * before the end, so the separator's last character stays. No strings, or
   * an empty separator, make the delete throw. With a one-character
   * separator such as "," nothing is removed at all (`FlattenKeepsOneCharacterSeparator`).
   */
  method Flatten(strings: seq<string>, separator: string) returns (r: Result<string>)
    ensures r.Err? <==> strings == [] || separator == []
    ensures r.Err? ==> r.error == StringIndexOutOfBounds
    ensures r.Ok? ==> r.value == Join(strings, separator) + [separator[|separator| - 1]]
  {
    var sb := AppendAll(strings, separator);
    if strings != [] {
      TerminatedIsJoinAndSeparator(strings, separator);
    }
    r := StringBuilderDelete(sb, |sb| - |separator|, |sb| - 1);
    if r.Ok? {
      assert strings != [] && separator != [];
      var j := Join(strings, separator);
      assert sb == j + separator;
      assert r.value == sb[..|j|] + sb[|sb| - 1..];
      assert sb[..|j|] == j;
    }
  }

  /**
   * What flatten returns is one character longer than the join: the length
   * of the builder less the separator's length plus one.
   */
  lemma FlattenedLength(strings: seq<string>, separator: string)
    requires strings != [] && separator != []
    ensures |Join(strings, separator) + [separator[|separator| - 1]]|
            == TotalLength(strings) + |strings| * |separator| - (|separator| - 1)
  {
    TerminatedLength(strings, separator);
    TerminatedIsJoinAndSeparator(strings, separator);
  }

  /** For a one-character separator what flatten returns is the whole builder: nothing is removed. */
  lemma FlattenKeepsOneCharacterSeparator(strings: seq<string>, c: char)
    requires strings != []
    ensures Join(strings, [c]) + [c] == Terminated(strings, [c])
  {
    TerminatedIsJoinAndSeparator(strings, [c]);
  }

  /**
   * flatten as its comment means it, with the delete running to the end: for
   * one string or more, the strings joined by the separator.
   */
  method FlattenCorrected(strings: seq<string>, separator: string) returns (r: Result<string>)
    ensures strings != [] ==> r == Ok(Join(strings, separator))
    ensures strings == [] ==> (r.Err? <==> separator != [])
  {
    var sb := AppendAll(strings, separator);
    TerminatedLength(strings, separator);
    if strings != [] {
      TerminatedIsJoinAndSeparator(strings, separator);
    }
    r := StringBuilderDelete(sb, |sb| - |separator|, |sb|);
    if strings != [] {
      assert |sb| == |Join(strings, separator)| + |separator|;
      assert r.value == sb[..|sb| - |separator|] + sb[|sb|..];
      assert sb[..|sb| - |separator|] == Join(strings, separator);
      assert sb[|sb|..] == [];
      assert r.value == Join(strings, separator);
    }
  }
}
