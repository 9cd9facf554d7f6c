/** Values: what the bridge stores for a scalar, and what inspection reads back. */
module Values {
  import opened Options
  import opened Numbers
  import opened Types

  type Byte = b: int | 0 <= b < 256

  /** What is decided by the engine or the hardware and not by the bridge. */
  datatype Facts = Facts(
    decimalBits: nat -> nat,                      // storage width of a decimal of a given precision
    narrow: Word -> Word,                         // rounding to binary32, as binary64 bits
    uuid: seq<Byte> -> Option<seq<Byte>>,         // parsed and printed again; None: not a UUID
    json: seq<Byte> -> bool,                      // syntactically valid
    entryKey: string, entryValue: string)         // field names of a map entry

  datatype Content =
    | Null
    | Number(number: int)
    | Real(bits: Word)
    | Interval(months: int, days: int, micros: int)
    | Bytes(text: seq<Byte>)
    | Parts(parts: seq<Value>)

  datatype Value = Value(kind: LogicalType, content: Content)

  datatype ValueInfo = ValueInfo(
    isNull: bool, low: Word, high: Word, children: nat, months: int, days: int, binary: Word, bytes: seq<Byte>)

  const BLANK := ValueInfo(false, 0, 0, 0, 0, 0, 0, [])

  datatype Physical =
    | Boolean
    | SignedInt(width: nat)
    | UnsignedInt(width: nat)
    | Int128
    | Uint128
    | Float
    | Double
    | IntervalParts
    | Text
    | Uuid
    | Nested
    | Other

  function DecimalStorage(bits: nat): Physical {
    if bits == 128 then Int128 else if Width(bits) then SignedInt(bits) else Other
  }

  function PhysicalOf(f: Facts, t: LogicalType): Physical {
    match t
    case Scalar(tag) =>
      if tag == 22 then Boolean
      else if tag == 23 || 35 <= tag <= 39 then SignedInt(64)
      else if tag == 24 || tag == 34 then SignedInt(32)
      else if tag == 25 then SignedInt(16)
      else if tag == 26 then SignedInt(8)
      else if tag == 27 then UnsignedInt(64)
      else if tag == 28 then UnsignedInt(32)
      else if tag == 29 then UnsignedInt(16)
      else if tag == 30 then UnsignedInt(8)
      else if tag == 31 then Int128
      else if tag == 43 then Uint128
      else if tag == 32 then Double
      else if tag == 33 then Float
      else if tag == 40 then IntervalParts
      else if tag == 50 || tag == 51 || tag == 60 then Text
      else if tag == 59 then Uuid
      else Other
    case Decimal(precision, _) => DecimalStorage(f.decimalBits(precision))
    case List(_) => Nested
    case Array(_, _) => Nested
    case Map(_, _) => Nested
    case Struct(_) => Nested
    case Graph(_, _) => Nested
    case Hidden(_) => Other
  }

  /** A binary64 number that is neither infinite nor NaN: not all exponent bits are set. */
  predicate Finite(bits: Word) {
    (bits / 0x10_0000_0000_0000) % 0x800 != 0x7FF
  }

  // -------------------------------------------------------------------------------------------
  // Scalars in

  function StoreNumber(n: Option<int>): Option<Content> {
    match n
    case Some(number) => Some(Number(number))
    case None => None
  }

  predicate PrecisionOk(t: LogicalType, low: Word, high: Word) {
    t.Decimal? ==> Magnitude(low, high) < Pow10(t.precision)
  }

  /** The scalar branch of value construction; None is the invalid-argument error. */
  function MakeScalar(f: Facts, t: LogicalType, info: ValueInfo): Option<Content> {
    if !PrecisionOk(t, info.low, info.high) then None
    else match PhysicalOf(f, t)
      case Uuid =>
        (match f.uuid(info.bytes) case Some(text) => Some(Bytes(text)) case None => None)
      case Text => if t == Scalar(60) && !f.json(info.bytes) then None else Some(Bytes(info.bytes))
      case Boolean => if info.high != 0 || info.low > 1 then None else Some(Number(info.low))
      case SignedInt(width) => if Width(width) then StoreNumber(CheckSigned(width, info.low, info.high)) else None
      case UnsignedInt(width) => if Width(width) then StoreNumber(CheckUnsigned(width, info.low, info.high)) else None
      case Int128 => Some(Number(Signed(info.low, info.high)))
      case Uint128 => Some(Number(Unsigned(info.low, info.high)))
      case Float => if Finite(f.narrow(info.binary)) then Some(Real(f.narrow(info.binary))) else None
      case Double => if Finite(info.binary) then Some(Real(info.binary)) else None
      case IntervalParts =>
        (match SignedNumber(info.low, info.high)
         case Some(micros) => Some(Interval(info.months, info.days, micros))
         case None => None)
      case _ => None
  }

  // -------------------------------------------------------------------------------------------
  // Values out

  function InspectNumber(p: Physical, n: int): Option<ValueInfo> {
    match p
    case Boolean => Some(BLANK.(low := LowWord(n)))
    case UnsignedInt(_) => Some(BLANK.(low := LowWord(n)))
    case SignedInt(_) => Some(BLANK.(low := LowWord(n), high := HighWord(n)))
    case Int128 => Some(BLANK.(low := LowWord(n), high := LowWord(n / TWO64)))
    case Uint128 => Some(BLANK.(low := LowWord(n), high := LowWord(n / TWO64)))
    case _ => None
  }

  /** None is the unsupported-type error. */
  function InspectValue(f: Facts, v: Value): Option<ValueInfo> {
    if Inspect(v.kind).None? then None
    else match v.content
      case Null => Some(BLANK.(isNull := true))
      case Number(n) => InspectNumber(PhysicalOf(f, v.kind), n)
      case Real(bits) => Some(BLANK.(binary := bits))
      case Interval(months, days, micros) =>
        Some(BLANK.(low := LowWord(micros), high := HighWord(micros), months := months, days := days))
      case Bytes(text) => Some(BLANK.(bytes := text))
      case Parts(parts) => Some(BLANK.(children := |parts|))
  }

  // -------------------------------------------------------------------------------------------
  // Exactness

  /** The fields of a scalar that its type uses, as they come back. */
  function Kept(f: Facts, t: LogicalType, info: ValueInfo): ValueInfo {
    match PhysicalOf(f, t)
    case Uuid => (match f.uuid(info.bytes) case Some(text) => BLANK.(bytes := text) case None => BLANK)
    case Text => BLANK.(bytes := info.bytes)
    case Float => BLANK.(binary := f.narrow(info.binary))
    case Double => BLANK.(binary := info.binary)
    case IntervalParts => BLANK.(low := info.low, high := info.high, months := info.months, days := info.days)
    case _ => BLANK.(low := info.low, high := info.high)
  }

  lemma WideNumberRoundTrip(low: Word, high: Word)
    ensures LowWord(Signed(low, high)) == low && LowWord(Signed(low, high) / TWO64) == high
    ensures LowWord(Unsigned(low, high)) == low && LowWord(Unsigned(low, high) / TWO64) == high
  {
    assert Unsigned(low, high) / TWO64 == high;
    assert Signed(low, high) == (if high >= TWO63 then high - TWO64 else high) * TWO64 + low;
    assert Signed(low, high) / TWO64 == if high >= TWO63 then high - TWO64 else high;
  }

  /** Whatever scalar is accepted is read back unchanged. */
  lemma ScalarRoundTrip(f: Facts, t: LogicalType, info: ValueInfo)
    requires MakeScalar(f, t, info).Some? && Inspect(t).Some?
    ensures InspectValue(f, Value(t, MakeScalar(f, t, info).value)) == Some(Kept(f, t, info))
  {
    match PhysicalOf(f, t)
    case SignedInt(width) => SignedRoundTrip(width, info.low, info.high);
    case UnsignedInt(width) => UnsignedRoundTrip(width, info.low, info.high);
    case Int128 => WideNumberRoundTrip(info.low, info.high);
    case Uint128 => WideNumberRoundTrip(info.low, info.high);
    case IntervalParts => SignExtension(info.low, info.high);
    case _ =>
  }

  /** A decimal is accepted exactly when its coefficient is in range, if the engine's storage is wide enough. */
  lemma DecimalAcceptedIffInRange(f: Facts, precision: nat, scale: nat, info: ValueInfo)
    requires var bits := f.decimalBits(precision);
      (Width(bits) || bits == 128) && Pow10(precision) <= Half(bits)
    ensures var n := Signed(info.low, info.high);
      MakeScalar(f, Decimal(precision, scale), info) ==
      if Abs(n) < Pow10(precision) then Some(Number(n)) else None
  {
    MagnitudeIsAbsolute(info.low, info.high);
    var bits := f.decimalBits(precision);
    if bits != 128 {
      SignedAcceptedIffFits(bits, info.low, info.high);
    }
  }

  /** The range of each input type that holds an integer: boolean, integers, date and timestamps. */
  function IntegerRange(tag: nat): Option<(int, int)> {
    if tag == 22 then Some((0, 1))
    else if tag == 23 || (35 <= tag <= 39) then Some((-9223372036854775808, 9223372036854775807))
    else if tag == 24 || tag == 34 then Some((-2147483648, 2147483647))
    else if tag == 25 then Some((-32768, 32767))
    else if tag == 26 then Some((-128, 127))
    else if tag == 27 then Some((0, 18446744073709551615))
    else if tag == 28 then Some((0, 4294967295))
    else if tag == 29 then Some((0, 65535))
    else if tag == 30 then Some((0, 255))
    else if tag == 31 then
      Some((-170141183460469231731687303715884105728, 170141183460469231731687303715884105727))
    else if tag == 43 then Some((0, 340282366920938463463374607431768211455))
    else None
  }

  /** An integer is accepted exactly in these bounds, stored exactly, and read back unchanged. */
  predicate AcceptedExactly(f: Facts, t: LogicalType, info: ValueInfo, n: int, lowest: int, highest: int) {
    && MakeScalar(f, t, info) == (if lowest <= n <= highest then Some(Number(n)) else None)
    && (lowest <= n <= highest ==>
          InspectValue(f, Value(t, Number(n))) == Some(BLANK.(low := info.low, high := info.high)))
  }

  lemma SignedTypeAccepts(f: Facts, tag: nat, width: nat, info: ValueInfo)
    requires Width(width) && PhysicalOf(f, Scalar(tag)) == SignedInt(width)
    ensures AcceptedExactly(f, Scalar(tag), info, Signed(info.low, info.high), -Half(width), Half(width) - 1)
  {
    HalfIsPowerOfTwo(width);
    SignedAcceptedIffFits(width, info.low, info.high);
    if CheckSigned(width, info.low, info.high).Some? {
      SignedRoundTrip(width, info.low, info.high);
    }
  }

  lemma UnsignedTypeAccepts(f: Facts, tag: nat, width: nat, info: ValueInfo)
    requires Width(width) && PhysicalOf(f, Scalar(tag)) == UnsignedInt(width)
    ensures AcceptedExactly(f, Scalar(tag), info, Unsigned(info.low, info.high), 0, 2 * Half(width) - 1)
  {
    HalfIsPowerOfTwo(width);
    UnsignedAcceptedIffFits(width, info.low, info.high);
    if CheckUnsigned(width, info.low, info.high).Some? {
      UnsignedRoundTrip(width, info.low, info.high);
    }
  }

  lemma WideTypeAccepts(f: Facts, tag: nat, info: ValueInfo)
    requires var p := PhysicalOf(f, Scalar(tag)); p.Boolean? || p.Int128? || p.Uint128?
    ensures var p := PhysicalOf(f, Scalar(tag));
      if p.Boolean? then AcceptedExactly(f, Scalar(tag), info, Unsigned(info.low, info.high), 0, 1)
      else if p.Int128? then AcceptedExactly(f, Scalar(tag), info, Signed(info.low, info.high), -Half(128), Half(128) - 1)
      else AcceptedExactly(f, Scalar(tag), info, Unsigned(info.low, info.high), 0, 2 * Half(128) - 1)
  {
    WideNumberRoundTrip(info.low, info.high);
  }

  /** The bounds are those of the width the type is stored in. */
  lemma RangeIsStorage(f: Facts, tag: nat)
    requires IntegerRange(tag).Some?
    ensures var ((lowest, highest), p) := (IntegerRange(tag).value, PhysicalOf(f, Scalar(tag)));
      && (lowest < 0 <==> p.SignedInt? || p.Int128?)
      && (p.SignedInt? ==> Width(p.width) && lowest == -Half(p.width) && highest == Half(p.width) - 1)
      && (p.UnsignedInt? ==> Width(p.width) && lowest == 0 && highest == 2 * Half(p.width) - 1)
      && (p.Boolean? ==> lowest == 0 && highest == 1)
      && (p.Int128? ==> lowest == -Half(128) && highest == Half(128) - 1)
      && (p.Uint128? ==> lowest == 0 && highest == 2 * Half(128) - 1)
      && (p.SignedInt? || p.UnsignedInt? || p.Boolean? || p.Int128? || p.Uint128?)
  {
  }

  /** For each of them an integer is accepted exactly when it is in range, stored exactly and read back unchanged. */
  lemma IntegerAcceptedIffFits(f: Facts, tag: nat, info: ValueInfo)
    requires IntegerRange(tag).Some?
    ensures var (lowest, highest) := IntegerRange(tag).value;
      var n := if lowest < 0 then Signed(info.low, info.high) else Unsigned(info.low, info.high);
      AcceptedExactly(f, Scalar(tag), info, n, lowest, highest)
  {
    RangeIsStorage(f, tag);
    var p := PhysicalOf(f, Scalar(tag));
    if p.SignedInt? {
      SignedTypeAccepts(f, tag, p.width, info);
    } else if p.UnsignedInt? {
      UnsignedTypeAccepts(f, tag, p.width, info);
    } else {
      WideTypeAccepts(f, tag, info);
    }
  }

  /** The other input types, one by one; nothing else is accepted as a scalar. */
  lemma OtherScalarsAccepted(f: Facts, info: ValueInfo)
    ensures MakeScalar(f, Scalar(32), info) == if Finite(info.binary) then Some(Real(info.binary)) else None
    ensures MakeScalar(f, Scalar(33), info) ==
            if Finite(f.narrow(info.binary)) then Some(Real(f.narrow(info.binary))) else None
    ensures var micros := Signed(info.low, info.high);
      MakeScalar(f, Scalar(40), info) ==
      if -9223372036854775808 <= micros <= 9223372036854775807
      then Some(Interval(info.months, info.days, micros)) else None
    ensures MakeScalar(f, Scalar(50), info) == MakeScalar(f, Scalar(51), info) == Some(Bytes(info.bytes))
    ensures MakeScalar(f, Scalar(59), info) ==
            match f.uuid(info.bytes) case Some(text) => Some(Bytes(text)) case None => None
    ensures MakeScalar(f, Scalar(60), info) == if f.json(info.bytes) then Some(Bytes(info.bytes)) else None
    ensures forall tag :: IntegerRange(tag).None? && tag !in {32, 33, 40, 50, 51, 59, 60} ==>
              MakeScalar(f, Scalar(tag), info).None?
  {
    SignExtension(info.low, info.high);
  }

  /** Each of them is read back as the very fields it was made from. */
  lemma OtherScalarsReadBack(f: Facts, info: ValueInfo, content: Content)
    ensures MakeScalar(f, Scalar(32), info) == Some(content) ==>
              InspectValue(f, Value(Scalar(32), content)) == Some(BLANK.(binary := info.binary))
    ensures MakeScalar(f, Scalar(33), info) == Some(content) ==>
              InspectValue(f, Value(Scalar(33), content)) == Some(BLANK.(binary := f.narrow(info.binary)))
    ensures MakeScalar(f, Scalar(40), info) == Some(content) ==>
              InspectValue(f, Value(Scalar(40), content)) ==
              Some(BLANK.(low := info.low, high := info.high, months := info.months, days := info.days))
    ensures MakeScalar(f, Scalar(59), info) == Some(content) ==>
              f.uuid(info.bytes).Some? &&
              InspectValue(f, Value(Scalar(59), content)) == Some(BLANK.(bytes := f.uuid(info.bytes).value))
  {
    if MakeScalar(f, Scalar(40), info) == Some(content) {
      SignExtension(info.low, info.high);
    }
  }

  lemma TextReadBack(f: Facts, tag: nat, info: ValueInfo, content: Content)
    requires tag in {50, 51, 60} && MakeScalar(f, Scalar(tag), info) == Some(content)
    ensures InspectValue(f, Value(Scalar(tag), content)) == Some(BLANK.(bytes := info.bytes))
  {
  }

  /** A decimal is read back with the words of its coefficient. */
  lemma DecimalReadBack(f: Facts, precision: nat, scale: nat, info: ValueInfo, content: Content)
    requires MakeScalar(f, Decimal(precision, scale), info) == Some(content)
    ensures InspectValue(f, Value(Decimal(precision, scale), content)) ==
            Some(BLANK.(low := info.low, high := info.high))
  {
    ScalarRoundTrip(f, Decimal(precision, scale), info);
  }

  /** Finite numbers are those whose magnitude, as a binary64 pattern, lies below that of infinity. */
  lemma FiniteIsBelowInfinity(bits: Word)
    ensures Finite(bits) <==> bits % 0x8000_0000_0000_0000 < 0x7FF0_0000_0000_0000
  {
    var exponent := bits / 0x10_0000_0000_0000;
    assert bits % 0x8000_0000_0000_0000 == (exponent % 0x800) * 0x10_0000_0000_0000 + bits % 0x10_0000_0000_0000;
  }
}
