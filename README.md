# lexical-core: option validation and the special-value path of float formatting

This project models two pieces of the lexical-core number conversion library
in Dafny and proves properties of them.

1. **Option validation** (`lexical-core/src/util/options.rs`). Four builders
   (`ParseIntegerOptionsBuilder`, `ParseFloatOptionsBuilder`,
   `WriteIntegerOptionsBuilder`, `WriteFloatOptionsBuilder`) collect raw
   fields through independent setters. A terminal `build` runs a fixed
   chain of validators (`to_radix`, `to_exponent_char`, `to_format_integer`
   or `to_format_float`, `to_rounding`, `to_nan_string`, `to_inf_string`,
   `to_infinity_string`) and returns `None` at the first failure. The model
   keeps the builders and records as datatypes, the setters as functional
   record updates, and `build` as the same `?` chain written with `:-`.
   Each record has a `Valid` predicate stating its invariants in terms of
   `IsDigitOf`, an existential over digit spellings defined independently
   of `to_digit`. Each `build` is proved to succeed exactly when the
   record holding the builder's fields is `Valid`, and then to return that
   record.
2. **The format path in front of the digit generators**
   (`lexical-core/src/ftoa/api.rs`). `filter_sign`, `filter_special`,
   `forward`, `ftoa` and `trim` decide what is written into the caller's
   buffer for zeros, signs, NaN and infinity, which generator runs, what
   length is reported and whether a trailing ".0" is dropped. The float is
   an abstract value: width, sign bit and a class (zero, NaN, infinite,
   finite non-zero). The digit generators are function-valued inputs
   bounded by the published maximum sizes. The writing operations are
   methods over an `array<byte>`. Each returns the position where the
   remainder of the buffer starts, which is the source's convention of
   returning the remainder slice. Each is proved against pure
   specification functions (`SpecialText`, `SignText`, `Trim`,
   `FormatText`), and the properties are proved as lemmas about those.

Files:
- `wrappers.dfy`: `Option`.
- `features.dfy`: the cargo features `radix`, `rounding` and `trim_floats` as a value.
- `ascii.dfy`: bytes, the ASCII constants, and Rust's `char::to_digit`.
- `options.dfy`: module `Options`.
- `ftoa.dfy`: module `Ftoa`.

Three behaviours of the code worth knowing:
- The long infinity spelling is checked only for length and for a leading 'I'/'i'. It is not compared letter by letter with the short spelling (`lexical-core/src/util/options.rs:134-143`).
- A NaN whose sign bit is set is written as '-' followed by the NaN spelling. `filter_sign` tests the sign bit before `filter_special` tests for NaN (`lexical-core/src/ftoa/api.rs:126-129`).
- The format path reads the global NaN and infinity spellings and the `trim_floats` feature. It does not read a `WriteFloatOptions` record.

## Model

| member | source | states |
|---|---|---|
| `Options.StartsWithN` | lexical-core/src/util/options.rs:25-33 | `starts_with_n`: the span's one-byte prefix is "N" or "n"; an empty span is rejected |
| `Options.StartsWithI` | lexical-core/src/util/options.rs:35-43 | `starts_with_i`: the span's one-byte prefix is "I" or "i"; an empty span is rejected |
| `Ascii.ToDigit` | lexical-core/src/util/options.rs:70 | `(c as char).to_digit(radix)`: a value is returned only below the radix, and the byte is then the lower- or upper-case spelling of that value |
| `Ascii.ToDigitOfSpelling` | lexical-core/src/util/options.rs:80 | reading back the spelling of digit `d` in either case gives `Some(d)` if `d < radix` and `None` otherwise |
| `Ascii.ToDigitIsDigitOf` | lexical-core/src/util/options.rs:69-74 | `to_digit` succeeds exactly on the bytes that spell some digit below the radix |
| `Options.ToRadix` | lexical-core/src/util/options.rs:45-65 | `Some(radix)` iff 2 ≤ radix ≤ 36 with the `radix` feature, iff radix = 10 without it |
| `Options.ToExponentChar` | lexical-core/src/util/options.rs:67-74 | `Some(c)`, unchanged, iff `c` does not spell a digit of the radix |
| `Options.ToFormatInteger` | lexical-core/src/util/options.rs:76-84 | the format, unchanged, iff its digit separator does not spell a digit of the radix |
| `Options.ToFormatFloat` | lexical-core/src/util/options.rs:86-95 | the format, unchanged, iff its separator is not a digit of the radix and differs from the exponent character |
| `Options.ToRounding` | lexical-core/src/util/options.rs:97-112 | always `Some` with the `rounding` feature; otherwise only for `NearestTieEven`; the kind is returned unchanged |
| `Options.ToNanString` | lexical-core/src/util/options.rs:114-121 | accepted, unchanged, iff non-empty with first byte 'N' or 'n' (`starts_with_n`, lines 25-33) |
| `Options.ToInfString` | lexical-core/src/util/options.rs:123-130 | accepted, unchanged, iff non-empty with first byte 'I' or 'i' (`starts_with_i`, lines 35-43) |
| `Options.ToInfinityString` | lexical-core/src/util/options.rs:132-143 | accepted, unchanged, iff at least as long as the short spelling and starting with 'I' or 'i' |
| `Options.ParseIntegerOptionsBuilder.New` | lexical-core/src/util/options.rs:156-162 | a fresh builder holds radix 10 and the standard format |
| `Options.ParseIntegerOptionsBuilder.WithRadix` | lexical-core/src/util/options.rs:164-169 | sets the radix; the format is unchanged |
| `Options.ParseIntegerOptionsBuilder.WithFormat` | lexical-core/src/util/options.rs:171-176 | sets the format; the radix is unchanged |
| `Options.ParseIntegerOptionsBuilder.Build` | lexical-core/src/util/options.rs:178-183 | `Some` iff the radix is supported and the separator is not a digit of it; then the record holds exactly the builder's fields |
| `Options.ParseIntegerOptions.Binary` | lexical-core/src/util/options.rs:218-226 | with the `radix` feature the build succeeds (the unwrap cannot panic), giving radix 2 and the standard format |
| `Options.ParseIntegerOptions.Decimal` | lexical-core/src/util/options.rs:228-234 | the build succeeds, giving radix 10 and the standard format |
| `Options.ParseIntegerOptions.Hexadecimal` | lexical-core/src/util/options.rs:236-244 | with the `radix` feature the build succeeds, giving radix 16 |
| `Options.ParseIntegerOptions.Default` | lexical-core/src/util/options.rs:261-268 | the same options as `decimal` |
| `Options.ParseFloatOptionsBuilder.New` | lexical-core/src/util/options.rs:288-300 | a fresh builder holds the defaults: not lossy, 'e', radix 10, standard format, nearest tie even, "NaN", "inf", "infinity" |
| `Options.ParseFloatOptionsBuilder.WithLossy` | lexical-core/src/util/options.rs:302-306 | sets `lossy`; the seven other fields are unchanged |
| `Options.ParseFloatOptionsBuilder.WithExponentChar` | lexical-core/src/util/options.rs:308-312 | sets the exponent character; the seven other fields are unchanged |
| `Options.ParseFloatOptionsBuilder.WithRadix` | lexical-core/src/util/options.rs:314-319 | sets the radix; the seven other fields are unchanged |
| `Options.ParseFloatOptionsBuilder.WithFormat` | lexical-core/src/util/options.rs:321-326 | sets the format; the seven other fields are unchanged |
| `Options.ParseFloatOptionsBuilder.WithRounding` | lexical-core/src/util/options.rs:328-333 | sets the rounding kind; the seven other fields are unchanged |
| `Options.ParseFloatOptionsBuilder.WithNanString` | lexical-core/src/util/options.rs:335-339 | sets the NaN spelling; the seven other fields are unchanged |
| `Options.ParseFloatOptionsBuilder.WithInfString` | lexical-core/src/util/options.rs:341-345 | sets the short infinity spelling; the seven other fields are unchanged |
| `Options.ParseFloatOptionsBuilder.WithInfinityString` | lexical-core/src/util/options.rs:347-351 | sets the long infinity spelling; the seven other fields are unchanged |
| `Options.ParseFloatOptionsBuilder.Build` | lexical-core/src/util/options.rs:353-372 | `Some` iff every check passes: radix, exponent character, separator (not a digit, not the exponent character), rounding, NaN, inf and infinity spellings; on success each field equals the builder's and `lossy` passes through unchecked |
| `Options.ParseFloatOptions.Binary` | lexical-core/src/util/options.rs:430-438 | with the `radix` feature the build succeeds, giving radix 2 with exponent 'e', and the whole record is the default builder's with radix 2 |
| `Options.ParseFloatOptions.Decimal` | lexical-core/src/util/options.rs:440-446 | the build succeeds, giving radix 10 with exponent 'e', and the whole record is the default builder's |
| `Options.ParseFloatOptions.Hexadecimal` | lexical-core/src/util/options.rs:448-457 | with the `radix` feature the build succeeds, giving radix 16 with exponent 'p', and the whole record is the default builder's with those two fields set |
| `Options.ParseFloatOptions.Default` | lexical-core/src/util/options.rs:510-517 | the same options as `decimal` |
| `Options.WriteIntegerOptionsBuilder.New` | lexical-core/src/util/options.rs:528-533 | a fresh builder holds radix 10 |
| `Options.WriteIntegerOptionsBuilder.WithRadix` | lexical-core/src/util/options.rs:535-540 | sets the radix |
| `Options.WriteIntegerOptionsBuilder.Build` | lexical-core/src/util/options.rs:542-546 | `Some` iff the radix is supported; nothing else is checked |
| `Options.WriteIntegerOptions.Binary` | lexical-core/src/util/options.rs:578-586 | with the `radix` feature the build succeeds, giving radix 2 |
| `Options.WriteIntegerOptions.Decimal` | lexical-core/src/util/options.rs:588-594 | the build succeeds, giving radix 10 |
| `Options.WriteIntegerOptions.Hexadecimal` | lexical-core/src/util/options.rs:596-604 | with the `radix` feature the build succeeds, giving radix 16 |
| `Options.WriteIntegerOptions.Default` | lexical-core/src/util/options.rs:615-622 | the same options as `decimal` |
| `Options.WriteFloatOptionsBuilder.New` | lexical-core/src/util/options.rs:638-647 | a fresh builder holds 'e', radix 10, no trimming, "NaN" and "inf" |
| `Options.WriteFloatOptionsBuilder.WithExponentChar` | lexical-core/src/util/options.rs:649-653 | sets the exponent character; the four other fields are unchanged |
| `Options.WriteFloatOptionsBuilder.WithRadix` | lexical-core/src/util/options.rs:655-660 | sets the radix; the four other fields are unchanged |
| `Options.WriteFloatOptionsBuilder.WithTrimFloats` | lexical-core/src/util/options.rs:662-666 | sets `trim_floats`; the four other fields are unchanged |
| `Options.WriteFloatOptionsBuilder.WithNanString` | lexical-core/src/util/options.rs:668-672 | sets the NaN spelling; the four other fields are unchanged |
| `Options.WriteFloatOptionsBuilder.WithInfString` | lexical-core/src/util/options.rs:674-678 | sets the short infinity spelling; the four other fields are unchanged |
| `Options.WriteFloatOptionsBuilder.Build` | lexical-core/src/util/options.rs:680-693 | `Some` iff the radix, exponent character, NaN and inf spellings pass; no format or long infinity check; `trim_floats` passes through |
| `Options.WriteFloatOptions.Binary` | lexical-core/src/util/options.rs:742-750 | with the `radix` feature the build succeeds, giving radix 2 with exponent 'e', and the whole record is the default builder's with radix 2 |
| `Options.WriteFloatOptions.HexadecimalAsWritten` | lexical-core/src/util/options.rs:760-769 | as written, the "hexadecimal" preset builds radix 2 with exponent 'p': the whole record is the default builder's with those two fields set |
| `Options.WriteFloatOptions.Hexadecimal` | lexical-core/src/util/options.rs:760-769 | the corrected preset builds radix 16 with exponent 'p': the whole record is the default builder's with those two fields set |
| `Options.WriteFloatOptions.Decimal` | lexical-core/src/util/options.rs:752-758 | the build succeeds, giving radix 10, exponent 'e', no trimming, and the whole record is the default builder's |
| `Options.WriteFloatOptions.Default` | lexical-core/src/util/options.rs:804-811 | the same options as `decimal` |
| `Options.ToRadixVectors` | lexical-core/src/util/options.rs:820-838 | the source's `to_radix` test vectors, with and without the `radix` feature |
| `Options.ToExponentCharVectors` | lexical-core/src/util/options.rs:840-861 | the source's `to_exponent_char` test vectors ('e' accepted at 10 and rejected at 16; 'p' rejected at 36) |
| `Options.ToFormatVectors` | lexical-core/src/util/options.rs:863-909 | the source's digit-separator test vectors for both format checks |
| `Options.SpellingVectors` | lexical-core/src/util/options.rs:911-933 | the source's NaN, inf and infinity spelling test vectors ("in" rejected against "inf", "INFINITY" accepted) |
| `Options.ParseIntegerSeparatorVectors` | lexical-core/src/util/options.rs:935-955 | a parse-integer build rejects separators '0' and '9' and accepts 'A' |
| `Options.ParseFloatRejections` | lexical-core/src/util/options.rs:353-361 | radix 37, an exponent character that is a digit of the radix, or a long infinity spelling shorter than the short one each make the build fail |
| `Options.WriteFloatHexadecimalIsBinary` | lexical-core/src/util/options.rs:742-769 | the as-written hexadecimal preset is not radix 16: it is the binary preset with exponent 'p' |
| `Ftoa.Float.Negate` | lexical-core/src/ftoa/api.rs:128 | `-value` flips the sign bit and keeps the width and class, NaN included |
| `Ftoa.SpecialText` | lexical-core/src/ftoa/api.rs:80-107 | `filter_special` for a non-negative value, by class: an untrimmed zero gives "0.0", a NaN the NaN spelling, an infinity the infinity spelling, a finite value the generator output |
| `Ftoa.SignText` | lexical-core/src/ftoa/api.rs:109-133 | `filter_sign`: a trimmed zero gives "0"; otherwise a set sign bit gives '-' followed by the output for the negated value, and a clear one the `filter_special` output |
| `Ftoa.EndsWithDotZero` | lexical-core/src/ftoa/api.rs:152 | `ends_with_slice(bytes, b".0")`: true exactly when the span is some span followed by ".0" |
| `Ftoa.FormatText` | lexical-core/src/ftoa/api.rs:166-182 | the `wrap!` output is a prefix of the `filter_sign` output, two bytes shorter iff `trim_floats` is on and that output ends in ".0"; a trimmed zero is "0" |
| `Ftoa.ForwardText` | lexical-core/src/ftoa/api.rs:61-78 | radix 10 goes to the decimal generator, any other radix to the radix generator; without the `radix` feature always decimal |
| `Ftoa.Trim` | lexical-core/src/ftoa/api.rs:145-162 | returns a prefix of the written span; it is two bytes shorter iff `trim_floats` is on and the span ends in ".0", otherwise it is the whole span |
| `Ftoa.SpecialTextFits` | lexical-core/src/ftoa/api.rs:80-107 | what `filter_special` writes fits, with a sign byte, in the published maximum size |
| `Ftoa.FormatTextFits` | lexical-core/src/ftoa/api.rs:188-193 | what `ftoa` writes, and the trimmed span, fit in `MAX_F32_SIZE` / `MAX_F64_SIZE` |
| `Ftoa.TrimmedZero` | lexical-core/src/ftoa/api.rs:116-122 | with `trim_floats`, any zero of either sign is written as exactly "0" (length 1) |
| `Ftoa.UntrimmedZero` | lexical-core/src/ftoa/api.rs:89-94 | without `trim_floats`, +0 gives "0.0" and -0 gives "-0.0" |
| `Ftoa.SpecialSpellings` | lexical-core/src/ftoa/api.rs:96-106 | a NaN writes exactly the NaN spelling and an infinity exactly the infinity spelling, after '-' when the sign bit is set |
| `Ftoa.TrimAfterSign` | lexical-core/src/ftoa/api.rs:147-162 | a leading '-' does not change what `trim` drops |
| `Ftoa.NegativeIsMinusThenNegated` | lexical-core/src/ftoa/api.rs:124-132 | except a trimmed zero, a negative value is written as '-' followed by the output for the negated value, so it is one byte longer |
| `Ftoa.FiniteDispatch` | lexical-core/src/ftoa/api.rs:100-105 | a positive finite non-zero value is written as exactly the selected generator's output |
| `Ftoa.CopyToDst` | lexical-core/src/ftoa/api.rs:99 | `copy_to_dst` writes the source bytes at the position, leaves the other bytes unchanged, and returns where the remainder starts |
| `Ftoa.FilterSpecial` | lexical-core/src/ftoa/api.rs:80-107 | writes `SpecialText` at the position and returns the end of what it wrote; the bytes before the position are unchanged |
| `Ftoa.FilterSign` | lexical-core/src/ftoa/api.rs:109-133 | writes `SignText` from the start of the buffer: "0" for a trimmed zero, else '-' and the negation for a set sign bit |
| `Ftoa.Ftoa` | lexical-core/src/ftoa/api.rs:135-143 | the returned count is the distance to the remainder, which is exactly the number of bytes written, at most the maximum size |
| `Ftoa.ToaImpl` | lexical-core/src/ftoa/api.rs:166-182 | `f32toa_impl` / `f64toa_impl`: the returned span `bytes[..n]` is the trimmed output |
| `Ftoa.ToaSlice` | lexical-core/src/ftoa/api.rs:191-193 | a buffer shorter than the maximum size panics and nothing is written; otherwise the returned span is the trimmed output |

## Findings

| source | as written | input that shows it | evidently intended | confidence | as-written member | corrected member |
|---|---|---|---|---|---|---|
| lexical-core/src/util/options.rs:763-769 | `WriteFloatOptions::hexadecimal` calls `.radix(2)` | any call with the `radix` feature: the options have radix 2 | radix 16, as in the parse presets at lines 236-244 and 448-457 | high; not executed | `Options.WriteFloatOptions.HexadecimalAsWritten` (lemma `Options.WriteFloatHexadecimalIsBinary`) | `Options.WriteFloatOptions.Hexadecimal` |

## Left out

- The digit generators (`float_decimal`, `double_decimal`, `float_radix`, `double_radix` and the Grisu/Ryu back ends) are floating-point algorithms outside the model. They are function-valued fields of `Ftoa.Env`, constrained only by the published maximum sizes (`Env.WellSized`): each output, with a sign byte, fits the maximum size of its width.
- `MAX_F32_SIZE` and `MAX_F64_SIZE` are parameters (`Env.maxF32Size`, `Env.maxF64Size`), because `config` is defined in a file outside the modelled ones.
- `NAN_STRING` and `INF_STRING` are global mutable statics read with `unsafe`. They are parameters (`Env.nanString`, `Env.infString`).
- `Env.WellSized`: it also assumes that each spelling, plus one sign byte, fits both `MAX_F32_SIZE` and `MAX_F64_SIZE`, and that both sizes are at least 4 (room for "-0.0"). The format path itself checks no spelling length: `copy_to_dst` of `NAN_STRING` or `INF_STRING` (`lexical-core/src/ftoa/api.rs:97-103`) writes whatever is stored. So `Ftoa.FilterSpecial`, `Ftoa.FilterSign`, `Ftoa.Ftoa`, `Ftoa.ToaImpl` and `Ftoa.ToaSlice` require a spelling short enough, and the model does not capture the out-of-bounds write of a longer one.
- The defaults read from `config` (`exponent_notation_char`, `get_float_rounding`, `get_nan_string`, `get_inf_string`, `get_infinity_string`) are assumed to be the standard values 'e', nearest tie even, "NaN", "inf" and "infinity". The model does not capture a process that changed them before building.
- `NumberFormat` is only its digit separator plus opaque flag bits. The standard format is assumed to have separator byte 0, meaning no separator. The separator placement rules of the parser are not modelled.
- `RoundingKind` is defined in a file outside the modelled ones. It is modelled with its five public variants.
- Setters gated by `cfg` features (`radix`, `format`, `rounding`) are modelled as always present. In a build without the feature they do not exist, and the field keeps its default.
- The getters of the option records are the datatype fields.
- `char::to_digit` panics for a radix above 36. `Ascii.ToDigit` requires radix ≤ 36; every caller passes a radix `to_radix` accepted.
- `debug_assert_radix!` on the format path is a precondition `2 <= radix <= 36`. Any radix check inside the slice macro, which is defined in a file outside the modelled ones, is left out.
- The range (FFI) API `generate_to_range_api!` is left out. The macro is defined in a file outside the modelled ones, and its only core behaviour is the capacity check that `Ftoa.ToaSlice` models.
- The slice macro `generate_to_slice_api!` is defined in a file outside the modelled ones too. `Ftoa.ToaSlice` models its documented contract: panic on a buffer below the maximum size, else the span written.
- Raw pointers (`distance`, `slice_from_span_mut`) are indices into the buffer. `f32toa_impl` and `f64toa_impl` are one method, with the width carried by the value.
- `Ftoa.FilterSpecial`, `Ftoa.FilterSign` and `Ftoa.Ftoa` say nothing about the buffer beyond the bytes they report as written, since a generator may use that space.
- Parsing, the round-trip and shortest-output properties, and the float test vectors are left out. They need the parser and float arithmetic, which are defined in files outside the modelled ones.
- `src/lib.rs` (high-level wrappers) and `tests/stress.rs` are not modelled.
