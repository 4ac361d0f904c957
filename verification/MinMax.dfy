/** The smaller and the larger of two numbers: SQL's least and greatest, Python's min and max. */
module MinMax {
  function Min(a: int, b: int): int {
    if a < b then a else b
  }

  function Max(a: int, b: int): int {
    if a < b then b else a
  }
}
