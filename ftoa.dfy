/** The format path in front of the digit generators: the sign and
    special-value filters, the dispatch on the radix, the trailing ".0"
    trim, and the capacity check of the slice API. The digit generators
    themselves are inputs to the model. */
module Ftoa {
  import opened Ascii
  import opened Features

  datatype Width = F32 | F64

  /** The class of a float's magnitude. `Finite` is non-zero; `bits`
      stands for its exponent and mantissa, which the model does not read. */
  datatype Class = Zero | NaN | Infinite | Finite(bits: nat)

  /** A float: its width, its sign bit and the class of its magnitude. */
  datatype Float = Float(width: Width, negative: bool, kind: Class) {

    predicate IsZero() {
      kind == Zero
    }

    /** Rust's `-value`: flips the sign bit, NaN and zero included. */
    function Negate(): (r: Float)
      ensures r.width == width && r.kind == kind && r.negative == !negative
    {
      this.(negative := !negative)
    }
  }

  /** What the format path reads besides the value: the features it was
      compiled with, the global NaN and infinity spellings, the published
      maximum output sizes, and the digit generators (`float_decimal` /
      `double_decimal` and `float_radix` / `double_radix`; the width of
      the value selects between the two of each pair). */
  datatype Env = Env(
    features: Features,
    nanString: seq<byte>,
    infString: seq<byte>,
    maxF32Size: nat,
    maxF64Size: nat,
    decimal: Float -> seq<byte>,
    radix: (Float, nat) -> seq<byte>)
  {
    /** `MAX_F32_SIZE` or `MAX_F64_SIZE`. */
    function MaxSize(width: Width): nat {
      match width
      case F32 => maxF32Size
      case F64 => maxF64Size
    }

    /** The published maximum sizes bound every output of the path plus a
        sign byte: "-0.0", the spellings, and every generator output. */
    ghost predicate WellSized() {
      && 4 <= maxF32Size && 4 <= maxF64Size
      && |nanString| + 1 <= maxF32Size && |nanString| + 1 <= maxF64Size
      && |infString| + 1 <= maxF32Size && |infString| + 1 <= maxF64Size
      && (forall v: Float :: |decimal(v)| + 1 <= MaxSize(v.width))
      && (forall v: Float, r: nat :: |radix(v, r)| + 1 <= MaxSize(v.width))
    }
  }

  const ZERO_POINT_ZERO: seq<byte> := [ZERO, DOT, ZERO]   // "0.0"
  const DOT_ZERO: seq<byte> := [DOT, ZERO]                // ".0"

  predicate RadixInRange(radix: nat) {
    2 <= radix <= 36
  }

  // SPECIFICATION FUNCTIONS

  /** `forward`: the bytes the selected generator writes for a positive,
      finite, non-zero value. */
  function ForwardText(env: Env, v: Float, radix: nat): (r: seq<byte>)
    requires RadixInRange(radix)
    requires !v.negative && v.kind.Finite?
    ensures !env.features.radix ==> r == env.decimal(v)
    ensures env.features.radix && radix == 10 ==> r == env.decimal(v)
    ensures env.features.radix && radix != 10 ==> r == env.radix(v, radix)
  {
    if !env.features.radix then env.decimal(v)
    else match radix
      case 10 => env.decimal(v)
      case _ => env.radix(v, radix)
  }

  /** `filter_special`: the bytes written for a non-negative value. Under
      `trim_floats` a zero never reaches it. */
  function SpecialText(env: Env, v: Float, radix: nat): (r: seq<byte>)
    requires RadixInRange(radix)
    requires !v.negative
    requires env.features.trimFloats ==> !v.IsZero()
    ensures v.IsZero() ==> r == ZERO_POINT_ZERO
    ensures v.kind.NaN? ==> r == env.nanString
    ensures v.kind.Infinite? ==> r == env.infString
    ensures v.kind.Finite? ==> r == ForwardText(env, v, radix)
  {
    if !env.features.trimFloats && v.IsZero() then ZERO_POINT_ZERO
    else if v.kind.NaN? then env.nanString
    else if v.kind.Infinite? then env.infString
    else ForwardText(env, v, radix)
  }

  /** `filter_sign`: the bytes `ftoa` writes for any value. */
  function SignText(env: Env, v: Float, radix: nat): (r: seq<byte>)
    requires RadixInRange(radix)
    ensures env.features.trimFloats && v.IsZero() ==> r == [ZERO]
    ensures !(env.features.trimFloats && v.IsZero()) && v.negative ==>
      |r| > 0 && r[0] == MINUS && r[1..] == SpecialText(env, v.Negate(), radix)
    ensures !(env.features.trimFloats && v.IsZero()) && !v.negative ==>
      r == SpecialText(env, v, radix)
  {
    if env.features.trimFloats && v.IsZero() then [ZERO]
    else if v.negative then [MINUS] + SpecialText(env, v.Negate(), radix)
    else SpecialText(env, v, radix)
  }

  /** The span is some span followed by ".0". */
  predicate EndsWithDotZero(s: seq<byte>)
    ensures EndsWithDotZero(s) <==> exists p: seq<byte> :: s == p + DOT_ZERO
  {
    assert |s| >= 2 ==> s == s[..|s| - 2] + s[|s| - 2..];
    |s| >= 2 && s[|s| - 2..] == DOT_ZERO
  }

  /** `trim`: a prefix of the written span, two bytes shorter exactly when
      `trim_floats` is on and the span ends in ".0". */
  function Trim(f: Features, s: seq<byte>): (r: seq<byte>)
    ensures |r| <= |s| && r == s[..|r|]
    ensures |r| == |s| - 2 <==> f.trimFloats && EndsWithDotZero(s)
    ensures |r| != |s| - 2 ==> r == s
  {
    if f.trimFloats && EndsWithDotZero(s) then s[..|s| - 2] else s
  }

  /** The span `f32toa_impl` / `f64toa_impl` return. */
  function FormatText(env: Env, v: Float, radix: nat): (r: seq<byte>)
    requires RadixInRange(radix)
    ensures |r| <= |SignText(env, v, radix)| && r == SignText(env, v, radix)[..|r|]
    ensures |r| == |SignText(env, v, radix)| - 2 <==>
      env.features.trimFloats && EndsWithDotZero(SignText(env, v, radix))
    ensures env.features.trimFloats && v.IsZero() ==> r == [ZERO]
  {
    Trim(env.features, SignText(env, v, radix))
  }

  // PROPERTIES

  /** What `filter_special` writes fits, with a sign byte, in the
      published maximum size. */
  lemma SpecialTextFits(env: Env, v: Float, radix: nat)
    requires env.WellSized() && RadixInRange(radix)
    requires !v.negative && (env.features.trimFloats ==> !v.IsZero())
    ensures |SpecialText(env, v, radix)| + 1 <= env.MaxSize(v.width)
  {
    if v.kind.Finite? {
      var _ := env.decimal(v);
      var _ := env.radix(v, radix);
    }
  }

  /** What `ftoa` writes, and what the slice API returns, fit in the
      published maximum size. */
  lemma FormatTextFits(env: Env, v: Float, radix: nat)
    requires env.WellSized() && RadixInRange(radix)
    ensures |FormatText(env, v, radix)| <= |SignText(env, v, radix)| <= env.MaxSize(v.width)
  {
    if !(env.features.trimFloats && v.IsZero()) {
      if v.negative {
        SpecialTextFits(env, v.Negate(), radix);
      } else {
        SpecialTextFits(env, v, radix);
      }
    }
  }

  /** With `trim_floats`, a zero of either sign is written as "0". */
  lemma TrimmedZero(env: Env, v: Float, radix: nat)
    requires RadixInRange(radix) && env.features.trimFloats && v.IsZero()
    ensures SignText(env, v, radix) == [ZERO]
    ensures FormatText(env, v, radix) == [ZERO]
  {
  }

  /** Without `trim_floats`, +0 is written as "0.0" and -0 as "-0.0". */
  lemma UntrimmedZero(env: Env, v: Float, radix: nat)
    requires RadixInRange(radix) && !env.features.trimFloats && v.IsZero()
    ensures FormatText(env, v, radix) ==
            if v.negative then [MINUS] + ZERO_POINT_ZERO else ZERO_POINT_ZERO
  {
  }

  /** A NaN is written as the NaN spelling and an infinity as the
      infinity spelling, after a '-' when the sign bit is set. */
  lemma SpecialSpellings(env: Env, v: Float, radix: nat)
    requires RadixInRange(radix) && (v.kind.NaN? || v.kind.Infinite?)
    ensures var sign := if v.negative then [MINUS] else [];
      SignText(env, v, radix) == sign + (if v.kind.NaN? then env.nanString else env.infString)
  {
  }

  /** A leading '-' never changes what `trim` drops. */
  lemma {:induction false} TrimAfterSign(f: Features, s: seq<byte>)
    ensures Trim(f, [MINUS] + s) == [MINUS] + Trim(f, s)
  {
    var t := [MINUS] + s;
    if |s| >= 2 {
      assert t[|t| - 2..] == s[|s| - 2..];
      if f.trimFloats && EndsWithDotZero(s) {
        assert t[..|t| - 2] == [MINUS] + s[..|s| - 2];
      }
    } else {
      assert !EndsWithDotZero(t) by {
        if |t| >= 2 { assert t[0] == MINUS != DOT; }
      }
    }
  }

  /** Sign symmetry: unless a trimmed zero, a negative value is written as
      '-' followed by what its negation is written as. */
  lemma NegativeIsMinusThenNegated(env: Env, v: Float, radix: nat)
    requires RadixInRange(radix) && v.negative
    requires !(env.features.trimFloats && v.IsZero())
    ensures SignText(env, v, radix) == [MINUS] + SignText(env, v.Negate(), radix)
    ensures FormatText(env, v, radix) == [MINUS] + FormatText(env, v.Negate(), radix)
    ensures |FormatText(env, v, radix)| == |FormatText(env, v.Negate(), radix)| + 1
  {
    TrimAfterSign(env.features, SignText(env, v.Negate(), radix));
  }

  /** Positive finite non-zero values go to the decimal generator for
      radix 10, and to the radix generator otherwise when the `radix`
      feature is on. */
  lemma FiniteDispatch(env: Env, v: Float, radix: nat)
    requires RadixInRange(radix) && !v.negative && v.kind.Finite?
    ensures SignText(env, v, radix) ==
            if env.features.radix && radix != 10 then env.radix(v, radix) else env.decimal(v)
  {
  }

  // BUFFER OPERATIONS

  /** `copy_to_dst`: writes `src` at `pos` and returns where the remainder
      of the buffer starts. */
  method CopyToDst(bytes: array<byte>, pos: nat, src: seq<byte>) returns (rest: nat)
    requires pos + |src| <= bytes.Length
    modifies bytes
    ensures rest == pos + |src|
    ensures bytes[pos..rest] == src
    ensures bytes[..pos] == old(bytes[..pos])
    ensures bytes[rest..] == old(bytes[rest..])
  {
    var i := 0;
    while i < |src|
      invariant 0 <= i <= |src|
      invariant forall k :: 0 <= k < i ==> bytes[pos + k] == src[k]
      invariant forall k :: 0 <= k < pos ==> bytes[k] == old(bytes[k])
      invariant forall k :: pos + i <= k < bytes.Length ==> bytes[k] == old(bytes[k])
    {
      bytes[pos + i] := src[i];
      i := i + 1;
    }
    rest := pos + |src|;
  }

  /** `filter_special`, writing into `bytes` from `pos`; the generator's
      output is written as `copy_to_dst` would. The bytes after the
      returned position are left unspecified, as a generator may use them. */
  method FilterSpecial(env: Env, v: Float, radix: nat, bytes: array<byte>, pos: nat) returns (rest: nat)
    requires env.WellSized() && RadixInRange(radix)
    requires !v.negative && (env.features.trimFloats ==> !v.IsZero())
    requires pos + env.MaxSize(v.width) <= bytes.Length + 1
    modifies bytes
    ensures rest == pos + |SpecialText(env, v, radix)|
    ensures bytes[pos..rest] == SpecialText(env, v, radix)
    ensures bytes[..pos] == old(bytes[..pos])
  {
    SpecialTextFits(env, v, radix);
    if !env.features.trimFloats && v.IsZero() {
      rest := CopyToDst(bytes, pos, ZERO_POINT_ZERO);
      return;
    }
    if v.kind.NaN? {
      rest := CopyToDst(bytes, pos, env.nanString);
    } else if v.kind.Infinite? {
      rest := CopyToDst(bytes, pos, env.infString);
    } else {
      rest := CopyToDst(bytes, pos, ForwardText(env, v, radix));
    }
  }

  /** `filter_sign`, writing into `bytes` from its start; returns where the
      remainder of the buffer starts. */
  method FilterSign(env: Env, v: Float, radix: nat, bytes: array<byte>) returns (rest: nat)
    requires env.WellSized() && RadixInRange(radix)
    requires env.MaxSize(v.width) <= bytes.Length
    modifies bytes
    ensures rest == |SignText(env, v, radix)|
    ensures bytes[..rest] == SignText(env, v, radix)
  {
    if env.features.trimFloats && v.IsZero() {
      bytes[0] := ZERO;
      rest := 1;
      return;
    }
    if v.negative {
      bytes[0] := MINUS;
      var value := v.Negate();
      rest := FilterSpecial(env, value, radix, bytes, 1);
      assert bytes[..rest] == bytes[..1] + bytes[1..rest];
    } else {
      rest := FilterSpecial(env, v, radix, bytes, 0);
    }
  }

  /** `ftoa`: the number of bytes written, the distance from the start of
      the buffer to the remainder `filter_sign` returns. */
  method Ftoa(env: Env, v: Float, radix: nat, bytes: array<byte>) returns (len: nat)
    requires env.WellSized() && RadixInRange(radix)
    requires env.MaxSize(v.width) <= bytes.Length
    modifies bytes
    ensures len == |SignText(env, v, radix)| <= env.MaxSize(v.width)
    ensures bytes[..len] == SignText(env, v, radix)
  {
    FormatTextFits(env, v, radix);
    var first := 0;
    var slc := FilterSign(env, v, radix, bytes);
    len := slc - first;
  }

  /** `f32toa_impl` / `f64toa_impl`: write, then trim; the returned span
      is `bytes[..n]`. */
  method ToaImpl(env: Env, v: Float, base: byte, bytes: array<byte>) returns (n: nat)
    requires env.WellSized() && RadixInRange(base as nat)
    requires env.MaxSize(v.width) <= bytes.Length
    modifies bytes
    ensures n <= env.MaxSize(v.width)
    ensures n == |FormatText(env, v, base as nat)|
    ensures bytes[..n] == FormatText(env, v, base as nat)
  {
    var len := Ftoa(env, v, base as nat, bytes);
    var span := Trim(env.features, bytes[..len]);
    n := |span|;
    assert bytes[..n] == bytes[..len][..n];
  }

  datatype SliceOutcome = Panicked | Written(len: nat)

  /** `f32toa_slice` / `f64toa_slice`: a buffer shorter than the published
      maximum size panics before anything is written. */
  method ToaSlice(env: Env, v: Float, base: byte, bytes: array<byte>) returns (out: SliceOutcome)
    requires env.WellSized() && RadixInRange(base as nat)
    modifies bytes
    ensures out.Panicked? <==> bytes.Length < env.MaxSize(v.width)
    ensures out.Panicked? ==> bytes[..] == old(bytes[..])
    ensures out.Written? ==> out.len <= env.MaxSize(v.width) <= bytes.Length
    ensures out.Written? ==> bytes[..out.len] == FormatText(env, v, base as nat)
  {
    if bytes.Length < env.MaxSize(v.width) {
      return Panicked;
    }
    var n := ToaImpl(env, v, base, bytes);
    out := Written(n);
  }
}
