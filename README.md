# Accumulo-Fluent: column expressions, builders and mutation fluents

This project models the client-side core of Accumulo-Fluent, a fluent Java
interface over the Apache Accumulo client, and proves properties of that model.
It covers these parts:

- **Column identifiers** (`ColumnExpressions`, `JavaStrings`): parsing the
  compact column expression `family:qualifier[:visibility]`, with Java's
  `String.split(":")` and `String.trim()` modelled exactly on strings of
  Unicode characters, and the bracket stripping of the visibility.
- **KeyBuilder** (`KeyBuilding`): a fluent builder. Each setter adds a
  weight (1, 3, 9, 18) to a running configuration, and `build` picks the
  Key constructor from that sum.
- **RangeBuilder** (`RangeBuilding`): prefix and exact ranges derived from
  the start key by the same weighted score, capped at 13, and the two
  bounded Range constructors.
- **ConversionUtils** (`Conversions`): the byte conversions of cell values
  through lexicoders. The lexicoders are given as parameters. Booleans
  travel as ints, and `convert` decodes by class through a registry of
  eight classes.
- **ValueOps, RowMutationOps, RowMultiOps** (`ValueOperations`,
  `RowMutations`, `RowMultiMutations`): the fluents that append puts and
  deletes to a row's `Mutation` and queue it with the parent
  `MutationOps`. RowMultiOps parses expressions with its own nested
  `ColumnIdentifiers` class, and the model follows that.
- **ScanOps** (`ScanOperations`): how a cell, family or row read sets the
  scanner's range.
- **Cirrus.flatten** (`CirrusUtilities`): joins the ZooKeeper host names.

The Accumulo types the core touches (`Key`, `Range`, `Mutation`, `Scanner`,
and the writer behind `MutationOps.queueMutations`) are abstract. They are
modelled in module `Accumulo`:

- a Key or Range records only the components it was given;
- a Mutation is the ordered list of its column updates;
- a Scanner holds the range last set. What it yields for a range is a
  function fixed when it is made.

Java exceptions become the `Err` case of a `Result`: index out of bounds,
null pointer and unsupported data type.

Two behaviours of the code that a reader might not expect are modelled as
written:

- **The exact-range case 31 of RangeBuilder.constructExact.** The switch at
  RangeBuilder.java:157-169 has a `case 31` for a key with all five
  components, but the line before it (RangeBuilder.java:154) lowers every
  score above 13 to 13, so that case can never run. See
  `RangeBuilding.ConstructExact` and Findings.
- **Empty family or qualifier.** The parser at ColumnIdentifiers.java:33-44
  indexes the split segments without testing them for emptiness, so it
  accepts an empty family (`ParseAcceptsEmptyFamily`). An empty qualifier
  fails only when no non-empty segment follows it (`f:`, `f::`), because
  `split` drops trailing empty segments and index 1 is then out of bounds;
  `f::v` parses with the qualifier "" (`ParseEmptyQualifierWithVisibility`).

## Model

| member | source | states |
|---|---|---|
| JavaStrings.TrimStart | src/main/java/com/berico/accumulo/ColumnIdentifiers.java:110 | the result starts with a non-whitespace character, is no longer than the input, and every character skipped is one trim() removes |
| JavaStrings.TrimEnd | src/main/java/com/berico/accumulo/ColumnIdentifiers.java:118 | the result ends with a non-whitespace character, keeps the first character, and every character dropped from the end is whitespace |
| JavaStrings.Trim | src/main/java/com/berico/accumulo/ColumnIdentifiers.java:110 | String.trim(): the result has no whitespace at either end and is no longer than the input |
| JavaStrings.TrimStartIsSuffix | src/main/java/com/berico/accumulo/ColumnIdentifiers.java:110 | trimming the front keeps a suffix of the input |
| JavaStrings.TrimEndIsPrefix | src/main/java/com/berico/accumulo/ColumnIdentifiers.java:118 | trimming the end keeps a prefix of the input |
| JavaStrings.TrimIsInfix | src/main/java/com/berico/accumulo/ColumnIdentifiers.java:110 | trim() returns a contiguous piece of the input with only whitespace before and after it |
| JavaStrings.TrimStartSkipsWhitespace | src/main/java/com/berico/accumulo/ColumnIdentifiers.java:110 | everything the leading trim skips is whitespace |
| JavaStrings.TrimEndDropsWhitespace | src/main/java/com/berico/accumulo/ColumnIdentifiers.java:110 | everything the trailing trim drops is whitespace |
| JavaStrings.TrimStartPadded | src/main/java/com/berico/accumulo/ColumnIdentifiers.java:110 | leading whitespace in front of a string that starts with a non-whitespace character is exactly what goes |
| JavaStrings.TrimEndPadded | src/main/java/com/berico/accumulo/ColumnIdentifiers.java:118 | trailing whitespace after a string that ends with a non-whitespace character is exactly what goes |
| JavaStrings.TrimPadded | src/main/java/com/berico/accumulo/ColumnIdentifiers.java:110 | trim(w1 + x + w2) is trim(x) for any whitespace padding w1, w2 |
| JavaStrings.TrimOfTrimmed | src/main/java/com/berico/accumulo/ColumnIdentifiers.java:118 | trim() leaves a string that is already trimmed unchanged, so trimming twice is trimming once |
| JavaStrings.SegmentsCons | src/main/java/com/berico/accumulo/ColumnIdentifiers.java:35 | a separator-free head and a separator start a new segment before the segments of the rest |
| JavaStrings.Split | src/main/java/com/berico/accumulo/ColumnIdentifiers.java:35 | String.split(":"): the segments between separators with the trailing empty ones dropped, so the last one kept is non-empty whenever there is a separator; see also SplitIsPrefixOfSegments |
| JavaStrings.SplitIsPrefixOfSegments | src/main/java/com/berico/accumulo/ColumnIdentifiers.java:35-43 | split() returns the leading segments, and index i exists in it exactly when some segment from i on is non-empty |
| ColumnExpressions.StripBrackets | src/main/java/com/berico/accumulo/ColumnIdentifiers.java:108-119 | the result is trimmed at both ends and no longer than the input |
| ColumnExpressions.Parse | src/main/java/com/berico/accumulo/ColumnIdentifiers.java:33-44 | success exactly when split() keeps a second segment, ArrayIndexOutOfBounds otherwise; the family and qualifier are segments 0 and 1; a visibility is present exactly when split() keeps a third segment, and is then that segment bracket-stripped |
| ColumnExpressions.FromParts | src/main/java/com/berico/accumulo/ColumnIdentifiers.java:51-55 | the family and qualifier are kept and there is no visibility expression |
| ColumnExpressions.FromPartsWithVisibility | src/main/java/com/berico/accumulo/ColumnIdentifiers.java:63-77 | the family, qualifier and the visibility as given are kept; hasVisibilityExpression holds exactly when the visibility is non-null |
| ColumnExpressions.ParseBySegments | src/main/java/com/berico/accumulo/ColumnIdentifiers.java:33-44 | the parse result can be read off the segments of the expression |
| ColumnExpressions.ParseFamilyAndQualifier | src/test/java/com/berico/accumulo/ColumnIdentifiersTest.java:12-70 | `f:q` parses to family f and qualifier q verbatim, whatever dots, dashes, spaces or capitals they hold, with no visibility |
| ColumnExpressions.ParseWithVisibility | src/test/java/com/berico/accumulo/ColumnIdentifiersTest.java:76-118 | `f:q:v` with a non-empty v has the visibility stripBrackets(v) and so hasVisibilityExpression |
| ColumnExpressions.ParseIgnoresLaterSegments | src/main/java/com/berico/accumulo/ColumnIdentifiers.java:35-43 | segments after the third play no part |
| ColumnExpressions.ParseWithoutSeparatorFails | src/main/java/com/berico/accumulo/ColumnIdentifiers.java:35-38 | an expression without ':' throws ArrayIndexOutOfBounds |
| ColumnExpressions.ParseEmptyQualifierFails | src/main/java/com/berico/accumulo/ColumnIdentifiers.java:35-38 | `f:` throws, because split() drops the trailing empty segment |
| ColumnExpressions.ParseEmptyQualifierWithVisibility | src/main/java/com/berico/accumulo/ColumnIdentifiers.java:35-43 | `f::v` parses with the empty qualifier and the visibility stripBrackets(v), because split() keeps empty segments in the middle |
| ColumnExpressions.ParseTrailingSeparatorHasNoVisibility | src/main/java/com/berico/accumulo/ColumnIdentifiers.java:35-43 | `f:q:` has no visibility, because split() drops the trailing empty segment |
| ColumnExpressions.ParseAcceptsEmptyFamily | src/main/java/com/berico/accumulo/ColumnIdentifiers.java:35-37 | `:q` parses with the empty family |
| ColumnExpressions.StripBracketsOfTrimmedBracketed | src/main/java/com/berico/accumulo/ColumnIdentifiers.java:110-118 | when the trimmed input is `[v]`, the result is trim(v) |
| ColumnExpressions.StripBracketsOfBracketed | src/main/java/com/berico/accumulo/ColumnIdentifiers.java:108-119 | one outer pair of brackets, with any whitespace padding around it, is removed and the inside trimmed |
| ColumnExpressions.StripBracketsOneSided | src/main/java/com/berico/accumulo/ColumnIdentifiers.java:112-118 | an input not bracketed on both sides comes back trimmed and otherwise unchanged |
| ColumnExpressions.StripBracketsKeepsInnerPair | src/test/java/com/berico/accumulo/ColumnIdentifiersTest.java:134-139 | only the outermost pair goes: `[[v]]` becomes `[v]` |
| ColumnExpressions.StripBracketsOfWrapped | src/test/java/com/berico/accumulo/ColumnIdentifiersTest.java:122-139 | brackets around any trimmed string come off and give that string back, as for `[(public\|protected)&admin]` and `[public&[private\|protected]]` |
| ColumnExpressions.StripBracketsSimpleCase | src/test/java/com/berico/accumulo/ColumnIdentifiersTest.java:124-126 | `[public]` becomes `public` |
| ColumnExpressions.StripBracketsKeepsOneSidedBrackets | src/test/java/com/berico/accumulo/ColumnIdentifiersTest.java:142-154 | a string that only leads with, or only trails with, a bracket is unchanged |
| ColumnExpressions.ParseBracketedVisibility | src/test/java/com/berico/accumulo/ColumnIdentifiersTest.java:80-90 | `f:q:[v]` with a trimmed v carries v itself as the visibility |
| KeyBuilding.ConfigurationCountsCalls | src/main/java/com/berico/accumulo/KeyBuilder.java:24-58 | the configuration is 1, 3, 9 and 18 times the number of family, column, visibility and timestamp calls |
| KeyBuilding.ConfigurationIgnoresOrder | src/main/java/com/berico/accumulo/KeyBuilder.java:24-58 | two call sequences with the same calls in any order reach the same configuration |
| KeyBuilding.ConfigurationOfDistinctCalls | src/main/java/com/berico/accumulo/KeyBuilder.java:24-58 | with no setter called twice, the configuration is the weighted sum of the setters called |
| KeyBuilding.ScoreOfInjective | src/main/java/com/berico/accumulo/KeyBuilder.java:28-55 | different sets of components never share a score |
| KeyBuilding.DistinctCallsDetermineSetters | src/main/java/com/berico/accumulo/KeyBuilder.java:24-58 | two call sequences without repeats that reach the same configuration called the same setters |
| KeyBuilding.SwitchCasesAreLegalShapes | src/main/java/com/berico/accumulo/KeyBuilder.java:62-68 | the five scores build has a case for are exactly the shapes with a family, and with a qualifier whenever there is a visibility or a timestamp |
| KeyBuilding.KeyFor | src/main/java/com/berico/accumulo/KeyBuilder.java:60-70 | each component is in the key exactly when the configuration is a case that takes it; otherwise it is unset, and any other score gives the row-only key |
| KeyBuilding.BuildOfDistinctCalls | src/main/java/com/berico/accumulo/KeyBuilder.java:17-70 | with each setter called at most once, build keeps every component set when the shape is legal, and otherwise drops all but the row |
| KeyBuilding.KeyBuilder.constructor | src/main/java/com/berico/accumulo/KeyBuilder.java:7-15 | all strings null, timestamp 0, configuration 0 |
| KeyBuilding.KeyBuilder.Row | src/main/java/com/berico/accumulo/KeyBuilder.java:17-22 | sets the row, adds nothing to the configuration, changes nothing else, returns the builder |
| KeyBuilding.KeyBuilder.Family | src/main/java/com/berico/accumulo/KeyBuilder.java:24-31 | sets the family, adds 1, changes nothing else, returns the builder |
| KeyBuilding.KeyBuilder.Column | src/main/java/com/berico/accumulo/KeyBuilder.java:33-40 | sets the qualifier, adds 3, changes nothing else, returns the builder |
| KeyBuilding.KeyBuilder.Visibility | src/main/java/com/berico/accumulo/KeyBuilder.java:42-49 | sets the visibility, adds 9, changes nothing else, returns the builder |
| KeyBuilding.KeyBuilder.Timestamp | src/main/java/com/berico/accumulo/KeyBuilder.java:51-58 | sets the timestamp, adds 18, changes nothing else, returns the builder |
| KeyBuilding.KeyBuilder.Build | src/main/java/com/berico/accumulo/KeyBuilder.java:60-70 | the key of KeyFor for the current configuration and components |
| KeyBuilding.BuildRowOnly | src/main/java/com/berico/accumulo/KeyBuilder.java:17-22 | row(r).build() is the row-only key |
| KeyBuilding.BuildRowAndFamily | src/main/java/com/berico/accumulo/KeyBuilder.java:24-31 | row(r).family(f).build() is the (row, family) key |
| KeyBuilding.BuildFamilyTwice | src/main/java/com/berico/accumulo/KeyBuilder.java:28 | calling family twice scores 2, which has no case, so only the row survives |
| KeyBuilding.BuildVisibilityWithoutQualifier | src/main/java/com/berico/accumulo/KeyBuilder.java:62-68 | a visibility without a qualifier scores 10, so only the row survives |
| KeyBuilding.BuildEverythingBackwards | src/main/java/com/berico/accumulo/KeyBuilder.java:67 | all four setters called in reverse order give the full key |
| RangeBuilding.ConstructPrefix | src/main/java/com/berico/accumulo/RangeBuilder.java:125-143 | a prefix range over 1 to 4 leading key components: 2 exactly for score 1, 3 exactly for score 4, 4 exactly for a score of 13 or more |
| RangeBuilding.ConstructExact | src/main/java/com/berico/accumulo/RangeBuilder.java:149-170 | an exact range over 1 to 4 leading key components with the same counts as the prefix, and never a timestamp |
| RangeBuilding.ConstructExactIntended | src/main/java/com/berico/accumulo/RangeBuilder.java:165-166 | a full key (score 31) gives the five-part range with its timestamp; every other key is handled as before |
| RangeBuilding.ExactDropsTimestampOfFullKey | src/main/java/com/berico/accumulo/RangeBuilder.java:154 | a key with every component set loses its timestamp, where the intended version keeps it |
| RangeBuilding.Score | src/main/java/com/berico/accumulo/RangeBuilder.java:172-197 | at most 31, and the score tells which components are there: a family exactly when it is 1 mod 3, a qualifier exactly when its third is 1 mod 3, a visibility exactly when its ninth is odd, a timestamp other than Integer.MAX_VALUE exactly when it is 18 or more; see also ScoreOfBuiltKey and ConstructPrefix/ConstructExact |
| RangeBuilding.ScoreOfBuiltKey | src/main/java/com/berico/accumulo/RangeBuilder.java:172-197 | for a timestamp other than Integer.MAX_VALUE, the score of the key KeyBuilder builds is its configuration for a legal shape and 0 when build fell back to the row (a builder given timestamp(Integer.MAX_VALUE) is not covered: `score` does not add 18 for it) |
| RangeBuilding.ExactOfKeyWithTimestampOnly | src/main/java/com/berico/accumulo/RangeBuilder.java:151-163 | a key with family, column and timestamp scores 22, which the cap turns into 13, so the null visibility becomes a fourth part |
| RangeBuilding.RangeBuilder.constructor | src/main/java/com/berico/accumulo/RangeBuilder.java:8-18 | no keys; both ends inclusive, neither infinite; neither prefix nor exact |
| RangeBuilding.RangeBuilder.Start | src/main/java/com/berico/accumulo/RangeBuilder.java:20-25 | sets the start key only |
| RangeBuilding.RangeBuilder.StartInclusive | src/main/java/com/berico/accumulo/RangeBuilder.java:27-34 | sets the start key and its inclusiveness only |
| RangeBuilding.RangeBuilder.InfiniteStart | src/main/java/com/berico/accumulo/RangeBuilder.java:36-41 | sets the infinite-start flag only |
| RangeBuilding.RangeBuilder.End | src/main/java/com/berico/accumulo/RangeBuilder.java:43-48 | sets the end key only |
| RangeBuilding.RangeBuilder.EndInclusive | src/main/java/com/berico/accumulo/RangeBuilder.java:50-57 | sets the end key and its inclusiveness only |
| RangeBuilding.RangeBuilder.InfiniteEnd | src/main/java/com/berico/accumulo/RangeBuilder.java:59-64 | sets the infinite-end flag only |
| RangeBuilding.RangeBuilder.Exact | src/main/java/com/berico/accumulo/RangeBuilder.java:66-71 | sets the exact flag only |
| RangeBuilding.RangeBuilder.Prefix | src/main/java/com/berico/accumulo/RangeBuilder.java:73-78 | sets the prefix flag only |
| RangeBuilding.RangeBuilder.Build | src/main/java/com/berico/accumulo/RangeBuilder.java:94-119 | prefix wins over exact, both from the start key (a null start throws); otherwise the 6-argument range exactly when a side is infinite, else the 4-argument one |
| RangeBuilding.ExactOf | src/main/java/com/berico/accumulo/RangeBuilder.java:80-85 | the static exact(key) is constructExact of the key |
| RangeBuilding.PrefixOf | src/main/java/com/berico/accumulo/RangeBuilder.java:87-92 | the static prefix(key) is constructPrefix of the key |
| RangeBuilding.PrefixWinsOverExact | src/main/java/com/berico/accumulo/RangeBuilder.java:98-105 | with both flags set, the prefix range is built and the end key plays no part |
| RangeBuilding.DefaultBounded | src/main/java/com/berico/accumulo/RangeBuilder.java:112-115 | a default builder with two keys gives the inclusive 4-argument range |
| Conversions.Convert | src/main/java/com/berico/accumulo/ConversionUtils.java:72-83 | an unregistered class throws UnsupportedDataTypeException with the message naming it; a registered one yields a value of that class |
| Conversions.ToByteArray | src/main/java/com/berico/accumulo/ConversionUtils.java:90-165 | the toByteArray overloads: under a round-tripping lexicoder, the toX decoder of the value's type gives the value back; see also ConvertInvertsToByteArray and BooleanEncodesAsInt |
| Conversions.ToInt | src/main/java/com/berico/accumulo/ConversionUtils.java:222-225 | toInt: under a round-tripping int lexicoder, the bytes of an encoded int decode to that int; convert agrees (ConvertAgreesWithDecoders) |
| Conversions.ToLong | src/main/java/com/berico/accumulo/ConversionUtils.java:244-247 | as ToInt, for a long |
| Conversions.ToDouble | src/main/java/com/berico/accumulo/ConversionUtils.java:212-215 | as ToInt, for a double |
| Conversions.ToString | src/main/java/com/berico/accumulo/ConversionUtils.java:202-205 | as ToInt, for a String |
| Conversions.ToBigInteger | src/main/java/com/berico/accumulo/ConversionUtils.java:172-175 | as ToInt, for a BigInteger |
| Conversions.ToDate | src/main/java/com/berico/accumulo/ConversionUtils.java:182-185 | as ToInt, for a Date |
| Conversions.ToUuid | src/main/java/com/berico/accumulo/ConversionUtils.java:192-195 | as ToInt, for a UUID |
| Conversions.ToBoolean | src/main/java/com/berico/accumulo/ConversionUtils.java:232-237 | with a round-tripping int lexicoder, the bytes of any encoded int read as true exactly when that int is positive |
| Conversions.BooleanEncodesAsInt | src/main/java/com/berico/accumulo/ConversionUtils.java:160-165 | true is encoded as the int 1 and false as the int 0 |
| Conversions.BooleanRoundTrip | src/main/java/com/berico/accumulo/ConversionUtils.java:160-165 | toBoolean(toByteArray(b)) == b for both booleans |
| Conversions.RegistryClasses | src/main/java/com/berico/accumulo/ConversionUtils.java:51-62 | the registry holds exactly the eight classes, and not Boolean |
| Conversions.BooleanIsNotConvertible | src/main/java/com/berico/accumulo/ConversionUtils.java:74-77 | convert(bytes, Boolean.class) always throws |
| Conversions.ConvertAgreesWithDecoders | src/main/java/com/berico/accumulo/ConversionUtils.java:172-247 | convert uses the same lexicoder as the matching toX |
| Conversions.ConvertInvertsToByteArray | src/main/java/com/berico/accumulo/ConversionUtils.java:72-153 | convert(toByteArray(v), class of v) == v for every registered type whose lexicoder round-trips |
| ValueOperations.PutFor | src/main/java/com/berico/accumulo/ValueOps.java:119-143 | the put has the identifiers' family and qualifier and the given bytes, the visibility exactly when there is one, and the timestamp exactly when it is not 0 |
| ValueOperations.ValueOps.constructor | src/main/java/com/berico/accumulo/ValueOps.java:27-33 | keeps the identifiers, mutation and parent; nothing completed yet |
| ValueOperations.ValueOps.Value | src/main/java/com/berico/accumulo/ValueOps.java:37-112 | value(x) appends the put of toByteArray(x) without timestamp, completes once, returns the parent |
| ValueOperations.ValueOps.ValueAt | src/main/java/com/berico/accumulo/ValueOps.java:42-115 | value(x, ts) appends the put of toByteArray(x) at ts, completes once, returns the parent |
| ValueOperations.ValueOps.HandleValue | src/main/java/com/berico/accumulo/ValueOps.java:119-147 | exactly one put is appended after the earlier updates, onComplete sees the mutation once, the parent is returned |
| RowMutations.DeleteEntry | src/main/java/com/berico/accumulo/RowMutationOps.java:219-250 | a delete of the family and qualifier, with the visibility exactly when one is given and the timestamp exactly when it is not 0 |
| RowMutations.DeletesFor | src/main/java/com/berico/accumulo/RowMutationOps.java:213-253 | one delete per qualifier, in argument order |
| RowMutations.DeletesForStep | src/main/java/com/berico/accumulo/RowMutationOps.java:223-249 | one more loop iteration appends that qualifier's delete |
| RowMutations.DeletesForAppend | src/main/java/com/berico/accumulo/RowMutationOps.java:213-253 | deleting two lists one after the other is deleting their concatenation |
| RowMutations.ExprDeleteEntry | src/main/java/com/berico/accumulo/RowMutationOps.java:155-168 | the delete carries the expression's visibility when it has one and never a timestamp |
| RowMutations.RowMutationOps.constructor | src/main/java/com/berico/accumulo/RowMutationOps.java:38-44 | a new, empty mutation of the row |
| RowMutations.RowMutationOps.Column | src/main/java/com/berico/accumulo/RowMutationOps.java:55-60 | a value setter for (family, qualifier) on this row's mutation; nothing is appended |
| RowMutations.RowMutationOps.ColumnVisible | src/main/java/com/berico/accumulo/RowMutationOps.java:69-74 | a value setter with the visibility as given |
| RowMutations.RowMutationOps.ColumnExpr | src/main/java/com/berico/accumulo/RowMutationOps.java:81-87 | a bad expression throws; otherwise a value setter with the parsed identifiers |
| RowMutations.RowMutationOps.DeleteColumn | src/main/java/com/berico/accumulo/RowMutationOps.java:110-115 | appends one delete without visibility or timestamp |
| RowMutations.RowMutationOps.DeleteColumnVisible | src/main/java/com/berico/accumulo/RowMutationOps.java:124-131 | appends one delete with the visibility |
| RowMutations.RowMutationOps.DeleteColumnVisibleAt | src/main/java/com/berico/accumulo/RowMutationOps.java:141-148 | appends one delete with the visibility and the timestamp, even 0 |
| RowMutations.RowMutationOps.DeleteExpr | src/main/java/com/berico/accumulo/RowMutationOps.java:155-168 | a bad expression throws and appends nothing; otherwise the expression's delete is appended |
| RowMutations.RowMutationOps.DeleteMany | src/main/java/com/berico/accumulo/RowMutationOps.java:213-253 | appends exactly DeletesFor of the qualifiers after the earlier updates |
| RowMutations.RowMutationOps.DeleteManyOf | src/main/java/com/berico/accumulo/RowMutationOps.java:176-179 | no visibility, timestamp 0 |
| RowMutations.RowMutationOps.DeleteManyVisible | src/main/java/com/berico/accumulo/RowMutationOps.java:188-191 | the visibility, timestamp 0 |
| RowMutations.RowMutationOps.DeleteManyAt | src/main/java/com/berico/accumulo/RowMutationOps.java:200-203 | no visibility, the timestamp |
| RowMutations.RowMutationOps.EndRow | src/main/java/com/berico/accumulo/RowMutationOps.java:273-278 | the mutation is queued once with the parent, which is returned |
| RowMultiMutations.NestedStripBrackets | src/main/java/com/berico/accumulo/RowMultiOps.java:712-727 | throws StringIndexOutOfBounds exactly for `]` and `[]`; otherwise the result is trimmed |
| RowMultiMutations.NestedStripBracketsDropsOneMore | src/main/java/com/berico/accumulo/RowMultiOps.java:721-724 | for a non-empty v, `[v]` gives trim(v without its last character) |
| RowMultiMutations.NestedStripBracketsLeadingOnly | src/main/java/com/berico/accumulo/RowMultiOps.java:716-726 | a leading `[` with no trailing `]` is removed on its own and the rest trimmed |
| RowMultiMutations.NestedStripBracketsTrailingOnly | src/main/java/com/berico/accumulo/RowMultiOps.java:716-726 | a trailing `]` with no leading `[` is removed together with the character before it, and the rest trimmed |
| RowMultiMutations.NestedStripBracketsDoesNotTrimFirst | src/main/java/com/berico/accumulo/RowMultiOps.java:712-727 | `[v]` padded by a space on each side keeps its brackets in the nested version, while the top-level version gives v |
| RowMultiMutations.NestedStripBracketsDisagrees | src/main/java/com/berico/accumulo/RowMultiOps.java:712-727 | on `[v]` with a trimmed non-empty v the top-level version returns v and the nested one something shorter |
| RowMultiMutations.NestedParse | src/main/java/com/berico/accumulo/RowMultiOps.java:685-696 | it fails only with ArrayIndexOutOfBounds or StringIndexOutOfBounds |
| RowMultiMutations.NestedParseAgreesWithParse | src/main/java/com/berico/accumulo/RowMultiOps.java:685-696 | same failure on too few segments, same family, qualifier and presence of a visibility as the top-level parse; the visibility is the nested strip of segment 2, whose exception it passes on; where the top-level parse succeeds, the nested one fails exactly when there is a visibility segment and its nested strip throws |
| RowMultiMutations.ExprPutEntry | src/main/java/com/berico/accumulo/RowMultiOps.java:439-563 | a put of the expression's family and qualifier; it is the intended put whenever there is no visibility or the value is a double, boolean or byte[] |
| RowMultiMutations.IntendedExprPutIsValuePut | src/main/java/com/berico/accumulo/ValueOps.java:119-143 | the intended expression put of a value that goes through toByteArray is the put the value fluent appends for the same identifiers: the value under the expression's visibility, with no timestamp |
| RowMultiMutations.ExprPutStringSwaps | src/main/java/com/berico/accumulo/RowMultiOps.java:443-450 | with a visibility, put(expr, String) stores the visibility as the value and the value as the visibility, which is the intended put exactly when the two are equal |
| RowMultiMutations.ExprPutNumberBecomesTimestamp | src/main/java/com/berico/accumulo/RowMultiOps.java:465-494 | with a visibility, put(expr, long or int) stores the visibility as the value, the number as the timestamp and no visibility, which is never the intended put |
| RowMultiMutations.RowMultiOps.constructor | src/main/java/com/berico/accumulo/RowMultiOps.java:38-44 | a new, empty mutation of the row |
| RowMultiMutations.RowMultiOps.PutColumn | src/main/java/com/berico/accumulo/RowMultiOps.java:56-131 | appends one put of the value without visibility or timestamp |
| RowMultiMutations.RowMultiOps.PutColumnAt | src/main/java/com/berico/accumulo/RowMultiOps.java:141-221 | appends one put of the value at the timestamp |
| RowMultiMutations.RowMultiOps.PutColumnVisible | src/main/java/com/berico/accumulo/RowMultiOps.java:231-323 | appends one put of the value under the visibility |
| RowMultiMutations.RowMultiOps.PutColumnVisibleAt | src/main/java/com/berico/accumulo/RowMultiOps.java:334-431 | appends one put of the value under the visibility at the timestamp |
| RowMultiMutations.RowMultiOps.PutExprString | src/main/java/com/berico/accumulo/RowMultiOps.java:439-453 | a failed nested parse throws and appends nothing; otherwise exactly ExprPutEntry of the String is appended |
| RowMultiMutations.RowMultiOps.PutExprLong | src/main/java/com/berico/accumulo/RowMultiOps.java:461-475 | as PutExprString, for a long |
| RowMultiMutations.RowMultiOps.PutExprInt | src/main/java/com/berico/accumulo/RowMultiOps.java:483-497 | as PutExprString, for an int |
| RowMultiMutations.RowMultiOps.PutExprStringCorrected | src/main/java/com/berico/accumulo/RowMultiOps.java:439-453 | the corrected put(expr, String): a failed nested parse throws and appends nothing; otherwise exactly IntendedExprPutEntry of the String, the value under the expression's visibility |
| RowMultiMutations.RowMultiOps.PutExprLongCorrected | src/main/java/com/berico/accumulo/RowMultiOps.java:461-475 | as PutExprStringCorrected, for a long |
| RowMultiMutations.RowMultiOps.PutExprIntCorrected | src/main/java/com/berico/accumulo/RowMultiOps.java:483-497 | as PutExprStringCorrected, for an int |
| RowMultiMutations.RowMultiOps.PutExprDouble | src/main/java/com/berico/accumulo/RowMultiOps.java:505-519 | as PutExprString, for a double |
| RowMultiMutations.RowMultiOps.PutExprBoolean | src/main/java/com/berico/accumulo/RowMultiOps.java:527-541 | as PutExprString, for a boolean |
| RowMultiMutations.RowMultiOps.PutExprBytes | src/main/java/com/berico/accumulo/RowMultiOps.java:549-563 | as PutExprString, for a byte[] |
| RowMultiMutations.RowMultiOps.DeleteColumn | src/main/java/com/berico/accumulo/RowMultiOps.java:573-578 | appends one delete without visibility or timestamp |
| RowMultiMutations.RowMultiOps.DeleteColumnVisible | src/main/java/com/berico/accumulo/RowMultiOps.java:587-594 | appends one delete with the visibility |
| RowMultiMutations.RowMultiOps.DeleteColumnVisibleAt | src/main/java/com/berico/accumulo/RowMultiOps.java:604-611 | appends one delete with the visibility and the timestamp |
| RowMultiMutations.RowMultiOps.DeleteExpr | src/main/java/com/berico/accumulo/RowMultiOps.java:618-631 | a failed nested parse throws and appends nothing; otherwise the expression's delete is appended |
| RowMultiMutations.RowMultiOps.Done | src/main/java/com/berico/accumulo/RowMultiOps.java:651-656 | the mutation is queued once with the parent, which is returned |
| RowMultiMutations.RowMultiOps.NextRow | src/main/java/com/berico/accumulo/RowMultiOps.java:641-644 | the mutation is queued, and a new fluent with a new, empty mutation of the new row under the same parent is returned |
| ScanOperations.GetExactRange | src/main/java/com/berico/accumulo/ScanOps.java:161-182 | an exact range over row, family and qualifier, plus the visibility exactly when it is non-null; a timestamp exactly when there is a visibility and the timestamp is not 0 |
| ScanOperations.GetExactRangeAgreesWithRangeBuilder | src/main/java/com/berico/accumulo/ScanOps.java:161-182 | with timestamp 0 the cell range is RangeBuilder's exact range of the key of those components |
| ScanOperations.GetExactRangeAgreesWithIntendedExact | src/main/java/com/berico/accumulo/ScanOps.java:168-173 | with a visibility and a timestamp the cell range is the five-part exact range constructExact was meant to build |
| ScanOperations.ScanOps.constructor | src/main/java/com/berico/accumulo/ScanOps.java:21-25 | keeps the scanner |
| ScanOperations.ScanOps.GetRows | src/main/java/com/berico/accumulo/ScanOps.java:27-34 | the scanner is set to the rows from start to end and all they hold is returned |
| ScanOperations.ScanOps.Cell | src/main/java/com/berico/accumulo/ScanOps.java:103-122 | the scanner is set to the cell's exact range and the cell is the first entry, if any |
| ScanOperations.ScanOps.CellOf | src/main/java/com/berico/accumulo/ScanOps.java:45-49 | the three-part exact range |
| ScanOperations.ScanOps.CellVisible | src/main/java/com/berico/accumulo/ScanOps.java:59-64 | the four-part exact range without timestamp |
| ScanOperations.ScanOps.CellExprAt | src/main/java/com/berico/accumulo/ScanOps.java:85-92 | a bad expression throws before the scanner is touched; otherwise the cell of the parsed identifiers |
| ScanOperations.ScanOps.CellExpr | src/main/java/com/berico/accumulo/ScanOps.java:72-76 | as CellExprAt with timestamp 0 |
| ScanOperations.ScanOps.Family | src/main/java/com/berico/accumulo/ScanOps.java:126-133 | the KeyBuilder and RangeBuilder chain yields the exact (row, family) range |
| ScanOperations.ScanOps.Row | src/main/java/com/berico/accumulo/ScanOps.java:137-144 | the chain yields the exact row range |
| ScanOperations.ScanOps.RetrieveRow | src/main/java/com/berico/accumulo/ScanOps.java:146-151 | the scanner is set to the range and all of it is returned |
| CirrusUtilities.TerminatedIsJoinAndSeparator | src/main/java/com/berico/accumulo/Cirrus.java:148-153 | after one string or more, the builder holds the strings joined by the separator plus one more separator |
| CirrusUtilities.TerminatedLength | src/main/java/com/berico/accumulo/Cirrus.java:148-153 | the builder's length is the strings' lengths plus one separator per string |
| CirrusUtilities.StringBuilderDelete | src/main/java/com/berico/accumulo/Cirrus.java:156 | StringBuilder.delete: an end past the length is clamped; a negative start or a start past the end throws; otherwise exactly that span goes |
| CirrusUtilities.AppendAll | src/main/java/com/berico/accumulo/Cirrus.java:148-153 | the loop leaves each string followed by the separator, in order |
| CirrusUtilities.Flatten | src/main/java/com/berico/accumulo/Cirrus.java:146-159 | throws exactly for no strings or an empty separator; otherwise the join plus the separator's last character |
| CirrusUtilities.FlattenedLength | src/main/java/com/berico/accumulo/Cirrus.java:155-156 | flatten's result is the builder's length less the separator's length plus one |
| CirrusUtilities.FlattenKeepsOneCharacterSeparator | src/main/java/com/berico/accumulo/Cirrus.java:155-156 | for a one-character separator flatten's result is the whole builder: nothing is removed |
| CirrusUtilities.FlattenCorrected | src/main/java/com/berico/accumulo/Cirrus.java:155-156 | for one string or more, exactly the strings joined by the separator |
| Accumulo.Mutation.Add | src/main/java/com/berico/accumulo/RowMultiOps.java:58 | each put or putDelete appends exactly one update |
| Accumulo.MutationQueue.QueueMutations | src/main/java/com/berico/accumulo/MutationOps.java:121-124 | the mutation is queued once, after the earlier ones |
| Accumulo.Scanner.SetRange | src/main/java/com/berico/accumulo/ScanOps.java:109 | the scanner's range becomes the given range |

## Left out

- The Cirrus connection: the instance, ZooKeeper hosts, credentials and table administration (`table`, `createTable`, `tables`, `mutate`) need a live Accumulo. Only `flatten`, which builds the ZooKeeper connection string, is modelled.
- MutationOps' writer: the BatchWriter, its memory, timeout and thread configuration, the shutdown hook and the one-shot `put` are I/O. The writer is the sequence of queued mutations, and `withRow` is the RowMultiOps constructor.
- TableOps, FluentExtension and TableFluentExtension: table administration and extension plumbing are not part of this model.
- The lexicoders: their encodings are foreign code. They are parameters, and their round trip is a precondition (`RoundTrips`), never proved.
- The retrieval fluents: CellValueRetrievalOps, RowValueRetrievalOps, TypedIterator and CellValueRetrievalOpsIterator, and SimpleKey and App. ScanOps returns the scanned entries themselves rather than those wrappers.
- RowMutationOps.nextRow: it declares a RowMutationOps result but returns `withRow`'s RowMultiOps, so it describes no behaviour consistent with its type.
- ValueMutationOps, the type `column` returns, is not part of this model. It is modelled as ValueOps with the no-op completion handler.
- ValueOperations.ValueOps.HandleValue: the completion handler's effect is recorded only as the ghost list `completed`; what a handler then does is not modelled.
- Accumulo's real Key defaults: a missing component is empty Text, and the default timestamp is Long.MAX_VALUE. The model leaves missing components unset and uses Integer.MAX_VALUE, the value `score` tests for. With real Keys every component is non-null and the timestamp is never Integer.MAX_VALUE, so every key scores 31 and is capped to 13: ScanOps' row and family reads would scan exact(row, "", "", "") and exact(row, family, "", ""), and `RangeBuilding.ScoreOfBuiltKey` would not hold. Range.exact with a null Text throws, where the model records the missing part as none (`RangeBuilding.ExactOfKeyWithTimestampOnly`).
- Java strings are sequences of UTF-16 code units; the model's strings are sequences of Unicode characters. `split(":")` and `trim()` are unaffected, because neither half of a surrogate pair is `:` or at most a space. The nested stripBrackets' `substring(0, length() - 2)` differs next to a character outside the Basic Multilingual Plane: Java cuts that character in half, the model drops it whole.
- KeyBuilding.KeyBuilder: `configuration` is an unbounded integer. The Java int would overflow only after more than 10^8 setter calls.
- ColumnVisibility parsing and validation, and the Text/UTF-8 encoding of String values, belong to Accumulo. A String value is kept as text.
- Null arguments are modelled only where the code tests for null (the visibility). Other null strings are outside the model.
- Double values are kept by their bits; no floating point is modelled.
- Conversions.BooleanIsNotConvertible: states only that the call fails; the exact exception message follows from `Convert`'s contract.

## Findings

| source | as written | input that shows it | evidently intended | confidence | as-written member | corrected member |
|---|---|---|---|---|---|---|
| src/main/java/com/berico/accumulo/Cirrus.java:156 | `delete` stops one character before the end, so it removes the separator minus its last character; no strings or an empty separator throw | strings ["a", "b"], separator "," gives "a,b," | the strings joined by the separator, "a,b" | not executed | CirrusUtilities.Flatten | CirrusUtilities.FlattenCorrected |
| src/main/java/com/berico/accumulo/RowMultiOps.java:712-727 | the nested stripBrackets drops two characters when the expression ends with `]`, does not trim first, and throws on `]` and `[]` | `fam:qual:[public]` gets visibility "publi" | the top-level stripBrackets, which gives "public" | not executed | RowMultiMutations.NestedStripBracketsDisagrees | ColumnExpressions.StripBracketsOfWrapped |
| src/main/java/com/berico/accumulo/RowMultiOps.java:445-449 | put(expr, String) with a visibility passes the visibility as the value and the value as the visibility | put("f:q:public", "hello") stores "public" under visibility "hello" | the value "hello" under visibility "public" | not executed | RowMultiMutations.ExprPutStringSwaps | RowMultiMutations.RowMultiOps.PutExprStringCorrected |
| src/main/java/com/berico/accumulo/RowMultiOps.java:467-493 | put(expr, long) and put(expr, int) with a visibility resolve to put(f, q, String value, long timestamp) | put("f:q:public", 5L) stores "public" at timestamp 5 with no visibility | the value 5 under visibility "public" | not executed | RowMultiMutations.ExprPutNumberBecomesTimestamp | RowMultiMutations.RowMultiOps.PutExprLongCorrected |
| src/main/java/com/berico/accumulo/RangeBuilder.java:154 | the score is capped at 13 before the switch, so case 31 never runs and a full key's timestamp is lost | exact(key) of a key with row, family, qualifier, visibility and timestamp 5 gives a range with no timestamp | the five-part exact range with timestamp 5 | not executed | RangeBuilding.ExactDropsTimestampOfFullKey | RangeBuilding.ConstructExactIntended |
