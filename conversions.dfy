/**
 * ConversionUtils: the static byte conversions of cell values. Each Java type
 * has a lexicoder (a foreign encode/decode pair, given here as a parameter);
 * booleans travel as the ints 1 and 0; `convert` decodes by class through a
 * registry filled once with eight classes.
 */
module Conversions {
  import opened Common

  /** An org.apache.accumulo.typo lexicoder: its encode and decode functions. */
  datatype Lexicoder<!T> = Lexicoder(encode: T -> Bytes, decode: Bytes -> T)

  /** Decoding undoes encoding. Assumed of each lexicoder, never proved: its code is not part of this model. */
  ghost predicate RoundTrips<T(!new)>(lex: Lexicoder<T>) {
    forall x: T :: lex.decode(lex.encode(x)) == x
  }

  /** java.lang.Double, by its IEEE 754 bits; no floating point is modelled. */
  datatype Double = Double(bits: bv64)

  /** java.util.Date, by its milliseconds since the epoch. */
  datatype Date = Date(millis: Int64)

  /** java.util.UUID, by its two halves. */
  datatype Uuid = Uuid(mostSignificant: Int64, leastSignificant: Int64)

  /** The eight static lexicoder instances. */
  datatype Lexicoders = Lexicoders(
    intLex: Lexicoder<Int32>, doubleLex: Lexicoder<Double>, longLex: Lexicoder<Int64>,
    stringLex: Lexicoder<string>, bigintLex: Lexicoder<int>, dateLex: Lexicoder<Date>,
    uuidLex: Lexicoder<Uuid>, bytesLex: Lexicoder<Bytes>)

  /** A Java value of one of the types the conversions handle. */
  datatype JavaValue =
    | IntegerValue(intValue: Int32)
    | DoubleValue(doubleValue: Double)
    | LongValue(longValue: Int64)
    | StringValue(stringValue: string)
    | BigIntegerValue(bigIntegerValue: int)
    | DateValue(dateValue: Date)
    | UuidValue(uuidValue: Uuid)
    | BytesValue(bytesValue: Bytes)
    | BooleanValue(booleanValue: bool)

  /** A java.lang.Class, by its canonical name. */
  datatype JavaClass = JavaClass(canonicalName: string)

  const IntegerClass := JavaClass("java.lang.Integer")
  const DoubleClass := JavaClass("java.lang.Double")
  const LongClass := JavaClass("java.lang.Long")
  const StringClass := JavaClass("java.lang.String")
  const BigIntegerClass := JavaClass("java.math.BigInteger")
  const DateClass := JavaClass("java.util.Date")
  const UuidClass := JavaClass("java.util.UUID")
  const ByteArrayClass := JavaClass("byte[]")
  const BooleanClass := JavaClass("java.lang.Boolean")

  /** The class of a value. */
  function ClassOf(v: JavaValue): JavaClass {
    match v
    case IntegerValue(_) => IntegerClass
    case DoubleValue(_) => DoubleClass
    case LongValue(_) => LongClass
    case StringValue(_) => StringClass
    case BigIntegerValue(_) => BigIntegerClass
    case DateValue(_) => DateClass
    case UuidValue(_) => UuidClass
    case BytesValue(_) => ByteArrayClass
    case BooleanValue(_) => BooleanClass
  }

  /** Which of the static lexicoders a registry entry holds. */
  datatype LexicoderKind =
    | IntegerLexicoder | DoubleLexicoder | LongLexicoder | StringLexicoder
    | BigIntegerLexicoder | DateLexicoder | UuidLexicoder | BytesLexicoder

  /** lexicoderRegistry as the static initialiser leaves it. */
  const Registry: map<JavaClass, LexicoderKind> := map[
    IntegerClass := IntegerLexicoder,
    DoubleClass := DoubleLexicoder,
    LongClass := LongLexicoder,
    StringClass := StringLexicoder,
    BigIntegerClass := BigIntegerLexicoder,
    DateClass := DateLexicoder,
    UuidClass := UuidLexicoder,
    ByteArrayClass := BytesLexicoder]

  /** lexicoder.decode(bytes) for the registry entry `kind`. */
  function Decode(codecs: Lexicoders, kind: LexicoderKind, bytes: Bytes): JavaValue {
    match kind
    case IntegerLexicoder => IntegerValue(codecs.intLex.decode(bytes))
    case DoubleLexicoder => DoubleValue(codecs.doubleLex.decode(bytes))
    case LongLexicoder => LongValue(codecs.longLex.decode(bytes))
    case StringLexicoder => StringValue(codecs.stringLex.decode(bytes))
    case BigIntegerLexicoder => BigIntegerValue(codecs.bigintLex.decode(bytes))
    case DateLexicoder => DateValue(codecs.dateLex.decode(bytes))
    case UuidLexicoder => UuidValue(codecs.uuidLex.decode(bytes))
    case BytesLexicoder => BytesValue(codecs.bytesLex.decode(bytes))
  }

  /**
   * convert(bytes, clazz): an unregistered class throws
   * UnsupportedDataTypeException naming it; a registered one is decoded by
   * its lexicoder into a value of that very class.
   */
  function Convert(codecs: Lexicoders, bytes: Bytes, clazz: JavaClass): (r: Result<JavaValue>)
    ensures r.Err? <==> clazz !in Registry
    ensures r.Err? ==> r.error == UnsupportedDataType(clazz.canonicalName + " is not a supported conversion type.")
    ensures r.Ok? ==> ClassOf(r.value) == clazz
  {
    if clazz !in Registry then
      Err(UnsupportedDataType(clazz.canonicalName + " is not a supported conversion type."))
    else
      Ok(Decode(codecs, Registry[clazz], bytes))
  }

  /**
   * The toByteArray overloads; there is none for byte[]. Under a
   * round-tripping lexicoder the matching toX decoder gives the value back.
   */
  function ToByteArray(codecs: Lexicoders, v: JavaValue): (r: Bytes)
    requires !v.BytesValue?
    ensures CodecRoundTrips(codecs, v) ==>
              && (v.IntegerValue? ==> ToInt(codecs, r) == v.intValue)
              && (v.DoubleValue? ==> ToDouble(codecs, r) == v.doubleValue)
              && (v.LongValue? ==> ToLong(codecs, r) == v.longValue)
              && (v.StringValue? ==> ToString(codecs, r) == v.stringValue)
              && (v.BigIntegerValue? ==> ToBigInteger(codecs, r) == v.bigIntegerValue)
              && (v.DateValue? ==> ToDate(codecs, r) == v.dateValue)
              && (v.UuidValue? ==> ToUuid(codecs, r) == v.uuidValue)
  {
    match v
    case IntegerValue(i) => codecs.intLex.encode(i)
    case DoubleValue(d) => codecs.doubleLex.encode(d)
    case LongValue(l) => codecs.longLex.encode(l)
    case StringValue(s) => codecs.stringLex.encode(s)
    case BigIntegerValue(b) => codecs.bigintLex.encode(b)
    case DateValue(d) => codecs.dateLex.encode(d)
    case UuidValue(u) => codecs.uuidLex.encode(u)
    case BooleanValue(b) => codecs.intLex.encode(if b then 1 else 0)
  }

  function ToInt(codecs: Lexicoders, bytes: Bytes): (r: Int32)
    ensures RoundTrips(codecs.intLex) ==> forall i: Int32 :: bytes == codecs.intLex.encode(i) ==> r == i
  {
    codecs.intLex.decode(bytes)
  }

  function ToLong(codecs: Lexicoders, bytes: Bytes): (r: Int64)
    ensures RoundTrips(codecs.longLex) ==> forall l: Int64 :: bytes == codecs.longLex.encode(l) ==> r == l
  {
    codecs.longLex.decode(bytes)
  }

  function ToDouble(codecs: Lexicoders, bytes: Bytes): (r: Double)
    ensures RoundTrips(codecs.doubleLex) ==> forall d: Double :: bytes == codecs.doubleLex.encode(d) ==> r == d
  {
    codecs.doubleLex.decode(bytes)
  }

  function ToString(codecs: Lexicoders, bytes: Bytes): (r: string)
    ensures RoundTrips(codecs.stringLex) ==> forall s: string :: bytes == codecs.stringLex.encode(s) ==> r == s
  {
    codecs.stringLex.decode(bytes)
  }

  function ToBigInteger(codecs: Lexicoders, bytes: Bytes): (r: int)
    ensures RoundTrips(codecs.bigintLex) ==> forall b: int :: bytes == codecs.bigintLex.encode(b) ==> r == b
  {
    codecs.bigintLex.decode(bytes)
  }

  function ToDate(codecs: Lexicoders, bytes: Bytes): (r: Date)
    ensures RoundTrips(codecs.dateLex) ==> forall d: Date :: bytes == codecs.dateLex.encode(d) ==> r == d
  {
    codecs.dateLex.decode(bytes)
  }

  function ToUuid(codecs: Lexicoders, bytes: Bytes): (r: Uuid)
    ensures RoundTrips(codecs.uuidLex) ==> forall u: Uuid :: bytes == codecs.uuidLex.encode(u) ==> r == u
  {
    codecs.uuidLex.decode(bytes)
  }

  /**
   * toBoolean: the bytes decoded as an int, true exactly when that int is
   * positive. With a round-tripping int lexicoder, the bytes of any encoded
   * int read as true exactly when that int is positive.
   */
  function ToBoolean(codecs: Lexicoders, bytes: Bytes): (r: bool)
    ensures RoundTrips(codecs.intLex) ==>
              forall i: Int32 :: bytes == codecs.intLex.encode(i) ==> (r <==> i > 0)
  {
    var value := ToInt(codecs, bytes);
    if value > 0 then true else false
  }

  /** The lexicoder that encodes `v` round-trips. */
  ghost predicate CodecRoundTrips(codecs: Lexicoders, v: JavaValue) {
    match v
    case IntegerValue(_) => RoundTrips(codecs.intLex)
    case DoubleValue(_) => RoundTrips(codecs.doubleLex)
    case LongValue(_) => RoundTrips(codecs.longLex)
    case StringValue(_) => RoundTrips(codecs.stringLex)
    case BigIntegerValue(_) => RoundTrips(codecs.bigintLex)
    case DateValue(_) => RoundTrips(codecs.dateLex)
    case UuidValue(_) => RoundTrips(codecs.uuidLex)
    case BytesValue(_) => RoundTrips(codecs.bytesLex)
    case BooleanValue(_) => RoundTrips(codecs.intLex)
  }

  /* ----- Properties ----- */

  /** toByteArray(true) is toByteArray(1) and toByteArray(false) is toByteArray(0). */
  lemma BooleanEncodesAsInt(codecs: Lexicoders, b: bool)
    ensures ToByteArray(codecs, BooleanValue(b)) == ToByteArray(codecs, IntegerValue(if b then 1 else 0))
  {
  }

  /** With a round-tripping int lexicoder both booleans survive toByteArray then toBoolean. */
  lemma BooleanRoundTrip(codecs: Lexicoders, b: bool)
    requires RoundTrips(codecs.intLex)
    ensures ToBoolean(codecs, ToByteArray(codecs, BooleanValue(b))) == b
  {
    var i: Int32 := if b then 1 else 0;
    assert codecs.intLex.decode(codecs.intLex.encode(i)) == i;
  }

  /** The registry holds exactly the eight classes, so Boolean is not among them. */
  lemma RegistryClasses()
    ensures Registry.Keys == {IntegerClass, DoubleClass, LongClass, StringClass, BigIntegerClass,
                              DateClass, UuidClass, ByteArrayClass}
    ensures BooleanClass !in Registry
  {
  }

  /** convert(bytes, Boolean.class) always throws, although toByteArray(boolean) exists. */
  lemma BooleanIsNotConvertible(codecs: Lexicoders, bytes: Bytes)
    ensures Convert(codecs, bytes, BooleanClass).Err?
  {
    RegistryClasses();
  }

  /** convert uses the same lexicoder as the matching toX. */
  lemma ConvertAgreesWithDecoders(codecs: Lexicoders, bytes: Bytes)
    ensures Convert(codecs, bytes, IntegerClass) == Ok(IntegerValue(ToInt(codecs, bytes)))
    ensures Convert(codecs, bytes, DoubleClass) == Ok(DoubleValue(ToDouble(codecs, bytes)))
    ensures Convert(codecs, bytes, LongClass) == Ok(LongValue(ToLong(codecs, bytes)))
    ensures Convert(codecs, bytes, StringClass) == Ok(StringValue(ToString(codecs, bytes)))
    ensures Convert(codecs, bytes, BigIntegerClass) == Ok(BigIntegerValue(ToBigInteger(codecs, bytes)))
    ensures Convert(codecs, bytes, DateClass) == Ok(DateValue(ToDate(codecs, bytes)))
    ensures Convert(codecs, bytes, UuidClass) == Ok(UuidValue(ToUuid(codecs, bytes)))
  {
  }

  /** convert inverts toByteArray for every registered class whose lexicoder round-trips. */
  lemma ConvertInvertsToByteArray(codecs: Lexicoders, v: JavaValue)
    requires !v.BytesValue? && !v.BooleanValue? && CodecRoundTrips(codecs, v)
    ensures Convert(codecs, ToByteArray(codecs, v), ClassOf(v)) == Ok(v)
  {
    match v
    case IntegerValue(i) => assert codecs.intLex.decode(codecs.intLex.encode(i)) == i;
    case DoubleValue(d) => assert codecs.doubleLex.decode(codecs.doubleLex.encode(d)) == d;
    case LongValue(l) => assert codecs.longLex.decode(codecs.longLex.encode(l)) == l;
    case StringValue(s) => assert codecs.stringLex.decode(codecs.stringLex.encode(s)) == s;
    case BigIntegerValue(b) => assert codecs.bigintLex.decode(codecs.bigintLex.encode(b)) == b;
    case DateValue(d) => assert codecs.dateLex.decode(codecs.dateLex.encode(d)) == d;
    case UuidValue(u) => assert codecs.uuidLex.decode(codecs.uuidLex.encode(u)) == u;
  }
}
