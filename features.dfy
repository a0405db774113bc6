/** The cargo features that change the behaviour of the modelled code.
    In the source they are compile-time `cfg` switches; here they are a
    value passed to every operation whose behaviour depends on them. */
module Features {

  datatype Features = Features(
    radix: bool,       // `radix`: bases 2 to 36 instead of base 10 only
    rounding: bool,    // `rounding`: rounding kinds other than nearest, tie even
    trimFloats: bool   // `trim_floats`: "0" for zero and no trailing ".0"
  )
}
