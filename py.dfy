/** The parts of Python's semantics the converter leans on: its exceptions,
    `int()` on a float, `round()`, and list indexing with negative indices. */
module Py {

  /** The exceptions the modelled code can raise. */
  datatype PyError =
    | ZeroDivisionError   // `/`, `//` or `%` by zero
    | IndexError          // list or array index out of range
    | ValueError          // negative buffer size, bad argument
    | StructError         // struct.pack of a value outside its field's range

  /** Either the value a Python function returns or the exception it raises. */
  datatype Result<+T> = Ok(value: T) | Err(error: PyError)

  datatype Option<+T> = None | Some(value: T)

  /** `int(x)` for a float `x`: truncation toward zero. */
  function Trunc(x: real): (r: int)
    ensures x >= 0.0 ==> r >= 0 && r as real <= x < r as real + 1.0
    ensures x < 0.0 ==> r <= 0 && r as real - 1.0 < x <= r as real
  {
    if x >= 0.0 then x.Floor else -((-x).Floor)
  }

  /** `round(x)` for a float: to the nearest integer, ties to the even one. */
  function RoundHalfEven(x: real): (r: int)
    ensures r as real - 0.5 <= x <= r as real + 0.5
    ensures (x - r as real == 0.5 || r as real - x == 0.5) ==> r % 2 == 0
  {
    var f := x.Floor;
    var d := x - f as real;
    if d < 0.5 then f
    else if d > 0.5 then f + 1
    else if f % 2 == 0 then f
    else f + 1
  }

  /** `round(x, 1)`: to one decimal place, ties to even. */
  function Round1(x: real): (r: real)
    ensures x - 0.05 <= r <= x + 0.05
    ensures (r * 10.0).Floor as real == r * 10.0
  {
    RoundHalfEven(x * 10.0) as real / 10.0
  }

  /** `s[i]` for a Python list: a negative `i` counts from the end; anything
      outside `-|s| <= i < |s|` raises IndexError. */
  function PyIndex<T>(s: seq<T>, i: int): (r: Result<T>)
    ensures r.Ok? <==> -|s| <= i < |s|
    ensures 0 <= i < |s| ==> r == Ok(s[i])
    ensures -|s| <= i < 0 ==> r == Ok(s[|s| + i])
  {
    if 0 <= i < |s| then Ok(s[i])
    else if -|s| <= i < 0 then Ok(s[|s| + i])
    else Err(IndexError)
  }

  function Min(a: int, b: int): int { if a <= b then a else b }

  function Max(a: int, b: int): int { if a >= b then a else b }

  function MaxR(a: real, b: real): real { if a >= b then a else b }
}
