/** Configuration options for parsing and formatting numbers: the
    validators, the four builders, the validated records they produce and
    the predefined configurations. */
module Options {
  import opened Wrappers
  import opened Ascii
  import opened Features

  /** The rounding kinds of the parser. */
  datatype RoundingKind =
    | NearestTieEven
    | NearestTieAwayZero
    | TowardPositiveInfinity
    | TowardNegativeInfinity
    | TowardZero

  /** A number format. Only its digit separator matters to validation; the
      other flag bits are kept abstract. */
  datatype NumberFormat = NumberFormat(digitSeparator: byte, flags: nat)

  // Defaults. The standard format has no digit separator, stored as the
  // NUL byte; the exponent character, rounding kind and special spellings
  // are the process-wide defaults of a fresh process.
  const DEFAULT_FORMAT: NumberFormat := NumberFormat(0, 0)
  const DEFAULT_LOSSY: bool := false
  const DEFAULT_RADIX: byte := 10
  const DEFAULT_TRIM_FLOATS: bool := false
  const DEFAULT_EXPONENT_CHAR: byte := LOWER_E
  const DEFAULT_ROUNDING: RoundingKind := NearestTieEven
  const DEFAULT_NAN_STRING: seq<byte> := [0x4E, 0x61, 0x4E]   // "NaN"
  const DEFAULT_INF_STRING: seq<byte> := [0x69, 0x6E, 0x66]   // "inf"
  const DEFAULT_INFINITY_STRING: seq<byte> :=
    [0x69, 0x6E, 0x66, 0x69, 0x6E, 0x69, 0x74, 0x79]          // "infinity"

  // HELPERS

  /** The first byte exists and is 'N' or 'n': the one-byte prefix is
      one of the two spellings of the letter. */
  predicate StartsWithN(bytes: seq<byte>)
    ensures StartsWithN(bytes) <==> |bytes| > 0 && bytes[..1] in {[UPPER_N], [LOWER_N]}
  {
    assert |bytes| > 0 ==> bytes[..1] == [bytes[0]];
    |bytes| > 0 && (bytes[0] == UPPER_N || bytes[0] == LOWER_N)
  }

  /** The first byte exists and is 'I' or 'i': the one-byte prefix is
      one of the two spellings of the letter. */
  predicate StartsWithI(bytes: seq<byte>)
    ensures StartsWithI(bytes) <==> |bytes| > 0 && bytes[..1] in {[UPPER_I], [LOWER_I]}
  {
    assert |bytes| > 0 ==> bytes[..1] == [bytes[0]];
    |bytes| > 0 && (bytes[0] == UPPER_I || bytes[0] == LOWER_I)
  }

  /** The radices a build supports. */
  predicate RadixSupported(radix: nat, f: Features) {
    if f.radix then 2 <= radix <= 36 else radix == 10
  }

  /** The rounding kinds a build supports. */
  predicate RoundingSupported(rounding: RoundingKind, f: Features) {
    f.rounding || rounding == NearestTieEven
  }

  // VALIDATORS

  /** `to_radix`: the radix, widened, when the build supports it. */
  function ToRadix(radix: byte, f: Features): (r: Option<nat>)
    ensures r.Some? <==> RadixSupported(radix as nat, f)
    ensures r.Some? ==> r.value == radix as nat && r.value <= 36
  {
    var radix := radix as nat;
    if f.radix then
      if 2 <= radix <= 36 then Some(radix) else None
    else
      if radix == 10 then Some(radix) else None
  }

  /** `to_exponent_char`: the exponent character, unchanged, when it does
      not spell a digit of the radix. */
  function ToExponentChar(exponentChar: byte, radix: nat): (r: Option<byte>)
    requires radix <= 36
    ensures r.Some? <==> !IsDigitOf(exponentChar, radix)
    ensures r.Some? ==> r.value == exponentChar
  {
    ToDigitIsDigitOf(exponentChar, radix);
    match ToDigit(exponentChar, radix)
    case None => Some(exponentChar)
    case Some(_) => None
  }

  /** `to_format_integer`: the format, unchanged, when its digit separator
      does not spell a digit of the radix. */
  function ToFormatInteger(format: NumberFormat, radix: nat): (r: Option<NumberFormat>)
    requires radix <= 36
    ensures r.Some? <==> !IsDigitOf(format.digitSeparator, radix)
    ensures r.Some? ==> r.value == format
  {
    var digitSeparator := format.digitSeparator;
    ToDigitIsDigitOf(digitSeparator, radix);
    match ToDigit(digitSeparator, radix)
    case None => Some(format)
    case Some(_) => None
  }

  /** `to_format_float`: as `to_format_integer`, and the digit separator
      must also differ from the exponent character. */
  function ToFormatFloat(format: NumberFormat, radix: nat, exponentChar: byte): (r: Option<NumberFormat>)
    requires radix <= 36
    ensures r.Some? <==> !IsDigitOf(format.digitSeparator, radix) && format.digitSeparator != exponentChar
    ensures r.Some? ==> r.value == format
  {
    var digitSeparator := format.digitSeparator;
    ToDigitIsDigitOf(digitSeparator, radix);
    var notDigit := ToDigit(digitSeparator, radix).None?;
    if notDigit && digitSeparator != exponentChar then Some(format) else None
  }

  /** `to_rounding`: every kind with the `rounding` feature, only nearest
      with ties to even without it. */
  function ToRounding(rounding: RoundingKind, f: Features): (r: Option<RoundingKind>)
    ensures r.Some? <==> RoundingSupported(rounding, f)
    ensures r.Some? ==> r.value == rounding
  {
    if f.rounding then Some(rounding)
    else if rounding == NearestTieEven then Some(rounding)
    else None
  }

  /** `to_nan_string`: the spelling, unchanged, when it starts with 'N' or 'n'. */
  function ToNanString(nanString: seq<byte>): (r: Option<seq<byte>>)
    ensures r.Some? <==> |nanString| > 0 && (nanString[0] == UPPER_N || nanString[0] == LOWER_N)
    ensures r.Some? ==> r.value == nanString
  {
    if StartsWithN(nanString) then Some(nanString) else None
  }

  /** `to_inf_string`: the spelling, unchanged, when it starts with 'I' or 'i'. */
  function ToInfString(infString: seq<byte>): (r: Option<seq<byte>>)
    ensures r.Some? <==> |infString| > 0 && (infString[0] == UPPER_I || infString[0] == LOWER_I)
    ensures r.Some? ==> r.value == infString
  {
    if StartsWithI(infString) then Some(infString) else None
  }

  /** `to_infinity_string`: the long spelling, unchanged, when it is at
      least as long as the short one and starts with 'I' or 'i'. */
  function ToInfinityString(infinityString: seq<byte>, infString: seq<byte>): (r: Option<seq<byte>>)
    ensures r.Some? <==>
      |infinityString| >= |infString| && |infinityString| > 0 &&
      (infinityString[0] == UPPER_I || infinityString[0] == LOWER_I)
    ensures r.Some? ==> r.value == infinityString
  {
    var longer := |infinityString| >= |infString|;
    var startsWith := StartsWithI(infinityString);
    if longer && startsWith then Some(infinityString) else None
  }

  // PARSE INTEGER

  /** Options to customise parsing integers. */
  datatype ParseIntegerOptions = ParseIntegerOptions(radix: nat, format: NumberFormat) {

    /** The invariants `build` establishes. */
    ghost predicate Valid(f: Features) {
      && RadixSupported(radix, f)
      && !IsDigitOf(format.digitSeparator, radix)
    }

    /** The predefined decimal options. */
    static function Decimal(f: Features): (o: ParseIntegerOptions)
      ensures o.radix == 10 && o.format == DEFAULT_FORMAT && o.Valid(f)
    {
      ToDigitIsDigitOf(DEFAULT_FORMAT.digitSeparator, 10);
      ParseIntegerOptionsBuilder.New().Build(f).value
    }

    /** The predefined binary options, with the `radix` feature. */
    static function Binary(f: Features): (o: ParseIntegerOptions)
      requires f.radix
      ensures o.radix == 2 && o.format == DEFAULT_FORMAT && o.Valid(f)
    {
      ToDigitIsDigitOf(DEFAULT_FORMAT.digitSeparator, 2);
      ParseIntegerOptionsBuilder.New().WithRadix(2).Build(f).value
    }

    /** The predefined hexadecimal options, with the `radix` feature. */
    static function Hexadecimal(f: Features): (o: ParseIntegerOptions)
      requires f.radix
      ensures o.radix == 16 && o.format == DEFAULT_FORMAT && o.Valid(f)
    {
      ToDigitIsDigitOf(DEFAULT_FORMAT.digitSeparator, 16);
      ParseIntegerOptionsBuilder.New().WithRadix(16).Build(f).value
    }

    /** `Default` builds the same options as `decimal`. */
    static function Default(f: Features): (o: ParseIntegerOptions)
      ensures o == Decimal(f)
    {
      ToDigitIsDigitOf(DEFAULT_FORMAT.digitSeparator, 10);
      ParseIntegerOptionsBuilder.New().Build(f).value
    }
  }

  /** Builder for `ParseIntegerOptions`. */
  datatype ParseIntegerOptionsBuilder = ParseIntegerOptionsBuilder(radix: byte, format: NumberFormat) {

    /** A fresh builder holds the defaults. */
    static function New(): (b: ParseIntegerOptionsBuilder)
      ensures b.radix == DEFAULT_RADIX && b.format == DEFAULT_FORMAT
    {
      ParseIntegerOptionsBuilder(DEFAULT_RADIX, DEFAULT_FORMAT)
    }

    function WithRadix(radix: byte): (b: ParseIntegerOptionsBuilder)
      ensures b.radix == radix && b.format == format
    {
      this.(radix := radix)
    }

    function WithFormat(format: NumberFormat): (b: ParseIntegerOptionsBuilder)
      ensures b.radix == radix && b.format == format
    {
      this.(format := format)
    }

    /** The record `build` produces when every check passes. */
    function Candidate(): ParseIntegerOptions {
      ParseIntegerOptions(radix as nat, format)
    }

    /** Checks the radix, then the digit separator. */
    function Build(f: Features): (r: Option<ParseIntegerOptions>)
      ensures r.Some? <==> Candidate().Valid(f)
      ensures r.Some? ==> r.value == Candidate()
    {
      var radix :- ToRadix(this.radix, f);
      var format :- ToFormatInteger(this.format, radix);
      Some(ParseIntegerOptions(radix, format))
    }
  }

  // PARSE FLOAT

  /** Options to customise parsing floats. */
  datatype ParseFloatOptions = ParseFloatOptions(
    lossy: bool,
    exponentChar: byte,
    radix: nat,
    format: NumberFormat,
    rounding: RoundingKind,
    nanString: seq<byte>,
    infString: seq<byte>,
    infinityString: seq<byte>)
  {
    /** The invariants `build` establishes. `lossy` is not constrained. */
    ghost predicate Valid(f: Features) {
      && RadixSupported(radix, f)
      && !IsDigitOf(exponentChar, radix)
      && !IsDigitOf(format.digitSeparator, radix)
      && format.digitSeparator != exponentChar
      && RoundingSupported(rounding, f)
      && StartsWithN(nanString)
      && StartsWithI(infString)
      && |infinityString| >= |infString|
      && StartsWithI(infinityString)
    }

    /** The predefined decimal options. */
    static function Decimal(f: Features): (o: ParseFloatOptions)
      ensures o.radix == 10 && o.exponentChar == LOWER_E && o.Valid(f)
      ensures o == ParseFloatOptionsBuilder.New().Candidate()
    {
      ToDigitIsDigitOf(DEFAULT_FORMAT.digitSeparator, 10);
      ToDigitIsDigitOf(DEFAULT_EXPONENT_CHAR, 10);
      ParseFloatOptionsBuilder.New().Build(f).value
    }

    /** The predefined binary options, with the `radix` feature. */
    static function Binary(f: Features): (o: ParseFloatOptions)
      requires f.radix
      ensures o.radix == 2 && o.exponentChar == LOWER_E && o.Valid(f)
      ensures o == ParseFloatOptionsBuilder.New().WithRadix(2).Candidate()
    {
      ToDigitIsDigitOf(DEFAULT_FORMAT.digitSeparator, 2);
      ToDigitIsDigitOf(DEFAULT_EXPONENT_CHAR, 2);
      ParseFloatOptionsBuilder.New().WithRadix(2).Build(f).value
    }

    /** The predefined hexadecimal options, with the `radix` feature: 'e'
        is a hexadecimal digit, so the exponent character is 'p'. */
    static function Hexadecimal(f: Features): (o: ParseFloatOptions)
      requires f.radix
      ensures o.radix == 16 && o.exponentChar == LOWER_P && o.Valid(f)
      ensures o == ParseFloatOptionsBuilder.New().WithRadix(16).WithExponentChar(LOWER_P).Candidate()
    {
      ToDigitIsDigitOf(DEFAULT_FORMAT.digitSeparator, 16);
      ToDigitIsDigitOf(LOWER_P, 16);
      ParseFloatOptionsBuilder.New().WithRadix(16).WithExponentChar(LOWER_P).Build(f).value
    }

    /** `Default` builds the same options as `decimal`. */
    static function Default(f: Features): (o: ParseFloatOptions)
      ensures o == Decimal(f)
    {
      ToDigitIsDigitOf(DEFAULT_FORMAT.digitSeparator, 10);
      ToDigitIsDigitOf(DEFAULT_EXPONENT_CHAR, 10);
      ParseFloatOptionsBuilder.New().Build(f).value
    }
  }

  /** Builder for `ParseFloatOptions`. */
  datatype ParseFloatOptionsBuilder = ParseFloatOptionsBuilder(
    lossy: bool,
    exponentChar: byte,
    radix: byte,
    format: NumberFormat,
    rounding: RoundingKind,
    nanString: seq<byte>,
    infString: seq<byte>,
    infinityString: seq<byte>)
  {
    /** A fresh builder holds the defaults. */
    static function New(): (b: ParseFloatOptionsBuilder)
      ensures b.lossy == DEFAULT_LOSSY && b.exponentChar == DEFAULT_EXPONENT_CHAR
      ensures b.radix == DEFAULT_RADIX && b.format == DEFAULT_FORMAT
      ensures b.rounding == DEFAULT_ROUNDING && b.nanString == DEFAULT_NAN_STRING
      ensures b.infString == DEFAULT_INF_STRING && b.infinityString == DEFAULT_INFINITY_STRING
    {
      ParseFloatOptionsBuilder(
        DEFAULT_LOSSY, DEFAULT_EXPONENT_CHAR, DEFAULT_RADIX, DEFAULT_FORMAT,
        DEFAULT_ROUNDING, DEFAULT_NAN_STRING, DEFAULT_INF_STRING, DEFAULT_INFINITY_STRING)
    }

    function WithLossy(lossy: bool): (b: ParseFloatOptionsBuilder)
      ensures b.lossy == lossy
      ensures b.exponentChar == exponentChar && b.radix == radix && b.format == format
      ensures b.rounding == rounding && b.nanString == nanString
      ensures b.infString == infString && b.infinityString == infinityString
    {
      this.(lossy := lossy)
    }

    function WithExponentChar(exponentChar: byte): (b: ParseFloatOptionsBuilder)
      ensures b.exponentChar == exponentChar
      ensures b.lossy == lossy && b.radix == radix && b.format == format
      ensures b.rounding == rounding && b.nanString == nanString
      ensures b.infString == infString && b.infinityString == infinityString
    {
      this.(exponentChar := exponentChar)
    }

    function WithRadix(radix: byte): (b: ParseFloatOptionsBuilder)
      ensures b.radix == radix
      ensures b.lossy == lossy && b.exponentChar == exponentChar && b.format == format
      ensures b.rounding == rounding && b.nanString == nanString
      ensures b.infString == infString && b.infinityString == infinityString
    {
      this.(radix := radix)
    }

    function WithFormat(format: NumberFormat): (b: ParseFloatOptionsBuilder)
      ensures b.format == format
      ensures b.lossy == lossy && b.exponentChar == exponentChar && b.radix == radix
      ensures b.rounding == rounding && b.nanString == nanString
      ensures b.infString == infString && b.infinityString == infinityString
    {
      this.(format := format)
    }

    function WithRounding(rounding: RoundingKind): (b: ParseFloatOptionsBuilder)
      ensures b.rounding == rounding
      ensures b.lossy == lossy && b.exponentChar == exponentChar && b.radix == radix
      ensures b.format == format && b.nanString == nanString
      ensures b.infString == infString && b.infinityString == infinityString
    {
      this.(rounding := rounding)
    }

    function WithNanString(nanString: seq<byte>): (b: ParseFloatOptionsBuilder)
      ensures b.nanString == nanString
      ensures b.lossy == lossy && b.exponentChar == exponentChar && b.radix == radix
      ensures b.format == format && b.rounding == rounding
      ensures b.infString == infString && b.infinityString == infinityString
    {
      this.(nanString := nanString)
    }

    function WithInfString(infString: seq<byte>): (b: ParseFloatOptionsBuilder)
      ensures b.infString == infString
      ensures b.lossy == lossy && b.exponentChar == exponentChar && b.radix == radix
      ensures b.format == format && b.rounding == rounding
      ensures b.nanString == nanString && b.infinityString == infinityString
    {
      this.(infString := infString)
    }

    function WithInfinityString(infinityString: seq<byte>): (b: ParseFloatOptionsBuilder)
      ensures b.infinityString == infinityString
      ensures b.lossy == lossy && b.exponentChar == exponentChar && b.radix == radix
      ensures b.format == format && b.rounding == rounding
      ensures b.nanString == nanString && b.infString == infString
    {
      this.(infinityString := infinityString)
    }

    /** The record `build` produces when every check passes. */
    function Candidate(): ParseFloatOptions {
      ParseFloatOptions(lossy, exponentChar, radix as nat, format, rounding,
                        nanString, infString, infinityString)
    }

    /** Checks the radix, exponent character, format, rounding kind and the
        three spellings, in that order; `lossy` is copied unchecked. */
    function Build(f: Features): (r: Option<ParseFloatOptions>)
      ensures r.Some? <==> Candidate().Valid(f)
      ensures r.Some? ==> r.value == Candidate()
    {
      var radix :- ToRadix(this.radix, f);
      var exponentChar :- ToExponentChar(this.exponentChar, radix);
      var format :- ToFormatFloat(this.format, radix, exponentChar);
      var rounding :- ToRounding(this.rounding, f);
      var nanString :- ToNanString(this.nanString);
      var infString :- ToInfString(this.infString);
      var infinityString :- ToInfinityString(this.infinityString, infString);
      Some(ParseFloatOptions(lossy, exponentChar, radix, format, rounding,
                             nanString, infString, infinityString))
    }
  }

  // WRITE INTEGER

  /** Options to customise writing integers. */
  datatype WriteIntegerOptions = WriteIntegerOptions(radix: nat) {

    /** The invariant `build` establishes. */
    ghost predicate Valid(f: Features) {
      RadixSupported(radix, f)
    }

    /** The predefined decimal options. */
    static function Decimal(f: Features): (o: WriteIntegerOptions)
      ensures o.radix == 10 && o.Valid(f)
    {
      WriteIntegerOptionsBuilder.New().Build(f).value
    }

    /** The predefined binary options, with the `radix` feature. */
    static function Binary(f: Features): (o: WriteIntegerOptions)
      requires f.radix
      ensures o.radix == 2 && o.Valid(f)
    {
      WriteIntegerOptionsBuilder.New().WithRadix(2).Build(f).value
    }

    /** The predefined hexadecimal options, with the `radix` feature. */
    static function Hexadecimal(f: Features): (o: WriteIntegerOptions)
      requires f.radix
      ensures o.radix == 16 && o.Valid(f)
    {
      WriteIntegerOptionsBuilder.New().WithRadix(16).Build(f).value
    }

    /** `Default` builds the same options as `decimal`. */
    static function Default(f: Features): (o: WriteIntegerOptions)
      ensures o == Decimal(f)
    {
      WriteIntegerOptionsBuilder.New().Build(f).value
    }
  }

  /** Builder for `WriteIntegerOptions`. */
  datatype WriteIntegerOptionsBuilder = WriteIntegerOptionsBuilder(radix: byte) {

    /** A fresh builder holds the default radix. */
    static function New(): (b: WriteIntegerOptionsBuilder)
      ensures b.radix == DEFAULT_RADIX
    {
      WriteIntegerOptionsBuilder(DEFAULT_RADIX)
    }

    function WithRadix(radix: byte): (b: WriteIntegerOptionsBuilder)
      ensures b.radix == radix
    {
      this.(radix := radix)
    }

    /** Checks the radix only. */
    function Build(f: Features): (r: Option<WriteIntegerOptions>)
      ensures r.Some? <==> RadixSupported(radix as nat, f)
      ensures r.Some? ==> r.value == WriteIntegerOptions(radix as nat) && r.value.Valid(f)
    {
      var radix :- ToRadix(this.radix, f);
      Some(WriteIntegerOptions(radix))
    }
  }

  // WRITE FLOAT

  /** Options to customise writing floats. */
  datatype WriteFloatOptions = WriteFloatOptions(
    exponentChar: byte,
    radix: nat,
    trimFloats: bool,
    nanString: seq<byte>,
    infString: seq<byte>)
  {
    /** The invariants `build` establishes: no format, rounding or long
        infinity check, and `trimFloats` is not constrained. */
    ghost predicate Valid(f: Features) {
      && RadixSupported(radix, f)
      && !IsDigitOf(exponentChar, radix)
      && StartsWithN(nanString)
      && StartsWithI(infString)
    }

    /** The predefined decimal options. */
    static function Decimal(f: Features): (o: WriteFloatOptions)
      ensures o.radix == 10 && o.exponentChar == LOWER_E && !o.trimFloats && o.Valid(f)
      ensures o == WriteFloatOptionsBuilder.New().Candidate()
    {
      ToDigitIsDigitOf(DEFAULT_EXPONENT_CHAR, 10);
      WriteFloatOptionsBuilder.New().Build(f).value
    }

    /** The predefined binary options, with the `radix` feature. */
    static function Binary(f: Features): (o: WriteFloatOptions)
      requires f.radix
      ensures o.radix == 2 && o.exponentChar == LOWER_E && o.Valid(f)
      ensures o == WriteFloatOptionsBuilder.New().WithRadix(2).Candidate()
    {
      ToDigitIsDigitOf(DEFAULT_EXPONENT_CHAR, 2);
      WriteFloatOptionsBuilder.New().WithRadix(2).Build(f).value
    }

    /** The hexadecimal preset as the source writes it: it sets radix 2,
        so the options it returns are binary ones with exponent 'p'. */
    static function HexadecimalAsWritten(f: Features): (o: WriteFloatOptions)
      requires f.radix
      ensures o.radix == 2 && o.exponentChar == LOWER_P && o.Valid(f)
      ensures o == WriteFloatOptionsBuilder.New().WithRadix(2).WithExponentChar(LOWER_P).Candidate()
    {
      ToDigitIsDigitOf(LOWER_P, 2);
      WriteFloatOptionsBuilder.New().WithRadix(2).WithExponentChar(LOWER_P).Build(f).value
    }

    /** The hexadecimal preset as intended, with the `radix` feature:
        radix 16 and exponent 'p', as the parse-side preset has. */
    static function Hexadecimal(f: Features): (o: WriteFloatOptions)
      requires f.radix
      ensures o.radix == 16 && o.exponentChar == LOWER_P && o.Valid(f)
      ensures o == WriteFloatOptionsBuilder.New().WithRadix(16).WithExponentChar(LOWER_P).Candidate()
    {
      ToDigitIsDigitOf(LOWER_P, 16);
      WriteFloatOptionsBuilder.New().WithRadix(16).WithExponentChar(LOWER_P).Build(f).value
    }

    /** `Default` builds the same options as `decimal`. */
    static function Default(f: Features): (o: WriteFloatOptions)
      ensures o == Decimal(f)
    {
      ToDigitIsDigitOf(DEFAULT_EXPONENT_CHAR, 10);
      WriteFloatOptionsBuilder.New().Build(f).value
    }
  }

  /** Builder for `WriteFloatOptions`. */
  datatype WriteFloatOptionsBuilder = WriteFloatOptionsBuilder(
    exponentChar: byte,
    radix: byte,
    trimFloats: bool,
    nanString: seq<byte>,
    infString: seq<byte>)
  {
    /** A fresh builder holds the defaults. */
    static function New(): (b: WriteFloatOptionsBuilder)
      ensures b.exponentChar == DEFAULT_EXPONENT_CHAR && b.radix == DEFAULT_RADIX
      ensures b.trimFloats == DEFAULT_TRIM_FLOATS
      ensures b.nanString == DEFAULT_NAN_STRING && b.infString == DEFAULT_INF_STRING
    {
      WriteFloatOptionsBuilder(DEFAULT_EXPONENT_CHAR, DEFAULT_RADIX, DEFAULT_TRIM_FLOATS,
                               DEFAULT_NAN_STRING, DEFAULT_INF_STRING)
    }

    function WithExponentChar(exponentChar: byte): (b: WriteFloatOptionsBuilder)
      ensures b.exponentChar == exponentChar
      ensures b.radix == radix && b.trimFloats == trimFloats
      ensures b.nanString == nanString && b.infString == infString
    {
      this.(exponentChar := exponentChar)
    }

    function WithRadix(radix: byte): (b: WriteFloatOptionsBuilder)
      ensures b.radix == radix
      ensures b.exponentChar == exponentChar && b.trimFloats == trimFloats
      ensures b.nanString == nanString && b.infString == infString
    {
      this.(radix := radix)
    }

    function WithTrimFloats(trimFloats: bool): (b: WriteFloatOptionsBuilder)
      ensures b.trimFloats == trimFloats
      ensures b.exponentChar == exponentChar && b.radix == radix
      ensures b.nanString == nanString && b.infString == infString
    {
      this.(trimFloats := trimFloats)
    }

    function WithNanString(nanString: seq<byte>): (b: WriteFloatOptionsBuilder)
      ensures b.nanString == nanString
      ensures b.exponentChar == exponentChar && b.radix == radix
      ensures b.trimFloats == trimFloats && b.infString == infString
    {
      this.(nanString := nanString)
    }

    function WithInfString(infString: seq<byte>): (b: WriteFloatOptionsBuilder)
      ensures b.infString == infString
      ensures b.exponentChar == exponentChar && b.radix == radix
      ensures b.trimFloats == trimFloats && b.nanString == nanString
    {
      this.(infString := infString)
    }

    /** The record `build` produces when every check passes. */
    function Candidate(): WriteFloatOptions {
      WriteFloatOptions(exponentChar, radix as nat, trimFloats, nanString, infString)
    }

    /** Checks the radix, exponent character and the NaN and short infinity
        spellings; `trimFloats` is copied unchecked. */
    function Build(f: Features): (r: Option<WriteFloatOptions>)
      ensures r.Some? <==> Candidate().Valid(f)
      ensures r.Some? ==> r.value == Candidate()
    {
      var radix :- ToRadix(this.radix, f);
      var exponentChar :- ToExponentChar(this.exponentChar, radix);
      var nanString :- ToNanString(this.nanString);
      var infString :- ToInfString(this.infString);
      Some(WriteFloatOptions(exponentChar, radix, trimFloats, nanString, infString))
    }
  }

  // PROPERTIES

  /** The source's test vectors for `to_radix`, with and without the
      `radix` feature. */
  lemma ToRadixVectors(f: Features)
    ensures ToRadix(1, f) == None && ToRadix(37, f) == None
    ensures ToRadix(10, f) == Some(10)
    ensures f.radix ==> ToRadix(2, f) == Some(2) && ToRadix(36, f) == Some(36)
    ensures !f.radix ==> ToRadix(2, f) == None && ToRadix(36, f) == None
  {
  }

  /** The source's test vectors for `to_exponent_char`. */
  lemma ToExponentCharVectors()
    ensures ToExponentChar(0x32, 2) == Some(0x32)       // '2'
    ensures ToExponentChar(LOWER_E, 2) == Some(LOWER_E)
    ensures ToExponentChar(LOWER_P, 2) == Some(LOWER_P)
    ensures ToExponentChar(0x7A, 2) == Some(0x7A)       // 'z'
    ensures ToExponentChar(0x32, 10) == None
    ensures ToExponentChar(LOWER_E, 10) == Some(LOWER_E)
    ensures ToExponentChar(LOWER_P, 10) == Some(LOWER_P)
    ensures ToExponentChar(0x7A, 10) == Some(0x7A)
    ensures ToExponentChar(0x32, 16) == None
    ensures ToExponentChar(LOWER_E, 16) == None
    ensures ToExponentChar(LOWER_P, 16) == Some(LOWER_P)
    ensures ToExponentChar(0x7A, 16) == Some(0x7A)
    ensures ToExponentChar(0x32, 36) == None
    ensures ToExponentChar(LOWER_E, 36) == None
    ensures ToExponentChar(LOWER_P, 36) == None
    ensures ToExponentChar(0x7A, 36) == None
  {
  }

  /** The source's test vectors for both digit-separator checks, with
      separators '0', '2', 'e' and '_'. */
  lemma ToFormatVectors(flags: nat)
    ensures var f1, f2, f3, f4 := NumberFormat(0x30, flags), NumberFormat(0x32, flags),
                                  NumberFormat(LOWER_E, flags), NumberFormat(0x5F, flags);
      && ToFormatInteger(f1, 2) == None && ToFormatInteger(f2, 2) == Some(f2)
      && ToFormatInteger(f3, 2) == Some(f3) && ToFormatInteger(f4, 2) == Some(f4)
      && ToFormatInteger(f1, 10) == None && ToFormatInteger(f2, 10) == None
      && ToFormatInteger(f3, 10) == Some(f3) && ToFormatInteger(f4, 10) == Some(f4)
      && ToFormatInteger(f1, 16) == None && ToFormatInteger(f2, 16) == None
      && ToFormatInteger(f3, 16) == None && ToFormatInteger(f4, 16) == Some(f4)
      && ToFormatFloat(f1, 2, LOWER_E) == None && ToFormatFloat(f2, 2, LOWER_E) == Some(f2)
      && ToFormatFloat(f3, 2, LOWER_E) == None && ToFormatFloat(f4, 2, LOWER_E) == Some(f4)
      && ToFormatFloat(f1, 10, LOWER_E) == None && ToFormatFloat(f2, 10, LOWER_E) == None
      && ToFormatFloat(f3, 10, LOWER_E) == None && ToFormatFloat(f4, 10, LOWER_E) == Some(f4)
      && ToFormatFloat(f1, 16, LOWER_P) == None && ToFormatFloat(f2, 16, LOWER_P) == None
      && ToFormatFloat(f3, 16, LOWER_P) == None && ToFormatFloat(f4, 16, LOWER_P) == Some(f4)
  {
  }

  /** The source's test vectors for the three spelling checks. */
  lemma SpellingVectors()
    ensures ToNanString(DEFAULT_INF_STRING) == None
    ensures ToNanString([0x6E, 0x61, 0x6E]) == Some([0x6E, 0x61, 0x6E])           // "nan"
    ensures ToNanString([0x4E, 0x41, 0x4E]) == Some([0x4E, 0x41, 0x4E])           // "NAN"
    ensures ToInfString([0x6E, 0x61, 0x6E]) == None
    ensures ToInfString(DEFAULT_INF_STRING) == Some(DEFAULT_INF_STRING)
    ensures ToInfString([0x49, 0x4E, 0x46]) == Some([0x49, 0x4E, 0x46])           // "INF"
    ensures ToInfinityString([0x6E, 0x61, 0x6E], DEFAULT_INF_STRING) == None
    ensures ToInfinityString([0x69, 0x6E], DEFAULT_INF_STRING) == None             // "in"
    ensures ToInfinityString([0x49, 0x4E], DEFAULT_INF_STRING) == None             // "IN"
    ensures ToInfinityString([0x6E, 0x61], DEFAULT_INF_STRING) == None             // "na"
    ensures ToInfinityString(DEFAULT_INFINITY_STRING, DEFAULT_INF_STRING) == Some(DEFAULT_INFINITY_STRING)
    ensures var upper: seq<byte> := [0x49, 0x4E, 0x46, 0x49, 0x4E, 0x49, 0x54, 0x59]; // "INFINITY"
      ToInfinityString(upper, DEFAULT_INF_STRING) == Some(upper)
  {
  }

  /** Parse-integer options reject a separator that is a decimal digit
      ('0', '9') and accept 'A'. */
  lemma ParseIntegerSeparatorVectors(f: Features, flags: nat)
    ensures ParseIntegerOptionsBuilder.New().WithFormat(NumberFormat(0x30, flags)).Build(f).None?
    ensures ParseIntegerOptionsBuilder.New().WithFormat(NumberFormat(0x39, flags)).Build(f).None?
    ensures ParseIntegerOptionsBuilder.New().WithFormat(NumberFormat(0x41, flags)).Build(f).Some?
  {
    ToDigitIsDigitOf(0x30, 10);
    ToDigitIsDigitOf(0x39, 10);
    ToDigitIsDigitOf(0x41, 10);
  }

  /** Whatever else a parse-float builder holds, radix 37, an exponent
      character that spells a digit of the radix, or a long infinity
      spelling shorter than the short one makes `build` fail. */
  lemma ParseFloatRejections(b: ParseFloatOptionsBuilder, f: Features)
    ensures b.radix == 37 ==> b.Build(f).None?
    ensures b.radix <= 36 && ToDigit(b.exponentChar, b.radix as nat).Some? ==> b.Build(f).None?
    ensures |b.infinityString| < |b.infString| ==> b.Build(f).None?
  {
    if b.radix <= 36 {
      ToDigitIsDigitOf(b.exponentChar, b.radix as nat);
    }
  }

  /** The hexadecimal write-float preset as written differs from the
      binary preset only in its exponent character, and is not radix 16. */
  lemma WriteFloatHexadecimalIsBinary(f: Features)
    requires f.radix
    ensures WriteFloatOptions.HexadecimalAsWritten(f).radix != 16
    ensures WriteFloatOptions.HexadecimalAsWritten(f) ==
            WriteFloatOptions.Binary(f).(exponentChar := LOWER_P)
  {
  }
}
