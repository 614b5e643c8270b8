/** Small shared vocabulary: optional values and the C++ integer widths used by the analysis classes. */
module Basics {

  datatype Option<+T> = None | Some(value: T)

  /** C++ `short` */
  type Int16 = x: int | -0x8000 <= x < 0x8000
  /** C++ `int` */
  type Int32 = x: int | -0x8000_0000 <= x < 0x8000_0000
  /** C++ `long int` on the 64-bit platforms the program targets */
  type Int64 = x: int | -0x8000_0000_0000_0000 <= x < 0x8000_0000_0000_0000

  function Abs(x: real): (r: real)
    ensures r >= 0.0 && (r == x || r == -x)
  {
    if x < 0.0 then -x else x
  }
}
