/** The PostgreSQL column type the migrations use for numbers. */
module SqlTypes {
  /** `integer` is a signed 32-bit value. */
  const MinInteger: int := -0x8000_0000
  const MaxInteger: int := 0x7FFF_FFFF

  predicate IsInteger(n: int) { MinInteger <= n <= MaxInteger }
}
