/** The bounded chip arithmetic that every other module builds on. */
module Money {

  /** Largest value of an unsigned 128-bit integer. */
  const U128_MAX: nat := 0xFFFF_FFFF_FFFF_FFFF_FFFF_FFFF_FFFF_FFFF

  type Chips = n: nat | n <= U128_MAX

  datatype Option<+T> = None | Some(value: T)

  datatype Result<+T, +E> = Ok(value: T) | Err(error: E)

  datatype MoneyError = Overflow | Underflow

  function CheckedAdd(a: Chips, b: Chips): (r: Result<Chips, MoneyError>)
  {
    if a + b <= U128_MAX then Ok(a + b) else Err(Overflow)
  }

  function CheckedSub(a: Chips, b: Chips): (r: Result<Chips, MoneyError>)
  {
    if b <= a then Ok(a - b) else Err(Underflow)
  }

  function UnwrapOr(r: Result<Chips, MoneyError>, default: Chips): (c: Chips)
  {
    if r.Ok? then r.value else default
  }

  function Min(a: int, b: int): (r: int)
  {
    if a <= b then a else b
  }
}
