/** The numeric primitives the calculator borrows from Python. Operands and
    results are modelled as mathematical reals; `+`, `-`, `*` and `/` are
    Dafny's exact real operations, while `float()`, `math.pow`, `math.sqrt`
    and `math.sin(math.radians(·))` are outside this model and arrive as
    the fields of a `MathLib` value that every operation takes as a
    parameter: nothing is assumed about them beyond their types. */
module Numbers {

  datatype Option<T> = None | Some(value: T)

  /** What `math.pow` does with a pair of operands: return a value, raise
      `ValueError` ("math domain error", e.g. a negative base with a
      fractional exponent), or raise `OverflowError` ("math range error",
      a result too large for a double). */
  datatype MathResult = Value(v: real) | DomainFault | RangeFault

  /** The library functions the calculator calls:
      `parse` is `float(str)`, `None` where it raises `ValueError`;
      `pow` is `math.pow`;
      `sqrt` is `math.sqrt`, only ever called on non-negative operands;
      `sinDeg` is `math.sin(math.radians(a))`. */
  datatype MathLib = MathLib(
    parse: string -> Option<real>,
    pow: (real, real) -> MathResult,
    sqrt: real -> real,
    sinDeg: real -> real)
}
