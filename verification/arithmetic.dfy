/**
 * Transaction arithmetic. Both Transaction classes define `+ - * /` identically on
 * the amount: the other operand is another transaction (its amount) or a number
 * converted with `Decimal(str(x))`; the result is a Decimal, here an exact real in
 * currency units.
 */
module Arithmetic {
  import opened Results

  /** The right-hand operand of an arithmetic operator. */
  datatype Operand = OfTransaction(amount: int) | Scalar(x: real)

  /** An amount in hundredths read as a Decimal in currency units. */
  function Units(cents: int): (r: real)
    ensures (r > 0.0 <==> cents > 0) && (r == 0.0 <==> cents == 0)
  {
    cents as real / 100.0
  }

  function OperandValue(o: Operand): real {
    match o
    case OfTransaction(a) => Units(a)
    case Scalar(x) => x
  }

  /** `t + other`, also `other + t` (`__radd__ = __add__`). */
  function Add(amount: int, other: Operand): (r: real)
    ensures r - OperandValue(other) == Units(amount)
  {
    Units(amount) + OperandValue(other)
  }

  /** `t - other`. */
  function Sub(amount: int, other: Operand): (r: real)
    ensures r + OperandValue(other) == Units(amount)
  {
    Units(amount) - OperandValue(other)
  }

  /** `x - t` for a number x (`__rsub__`). */
  function RSub(amount: int, x: real): (r: real)
    ensures r == -Sub(amount, Scalar(x))
  {
    x - Units(amount)
  }

  /** `t * other`, also `other * t` (`__rmul__ = __mul__`). */
  function Mul(amount: int, other: Operand): (r: real)
    ensures amount == 0 || OperandValue(other) == 0.0 <==> r == 0.0
  {
    Units(amount) * OperandValue(other)
  }

  /** `t / other`: ZeroDivisionError exactly when the divisor is zero. */
  function Div(amount: int, other: Operand): (r: Result<real>)
    ensures r.Err? <==> OperandValue(other) == 0.0
    ensures r.Err? ==> r.error == ZeroDivisionError
    ensures r.Ok? ==> r.value * OperandValue(other) == Units(amount)
  {
    var d := OperandValue(other);
    if d == 0.0 then Err(ZeroDivisionError) else Ok(Units(amount) / d)
  }

  /** `x / t` for a number x: ZeroDivisionError exactly when the amount is zero. */
  function RDiv(amount: int, x: real): (r: Result<real>)
    ensures r.Err? <==> amount == 0
    ensures r.Err? ==> r.error == ZeroDivisionError
    ensures r.Ok? ==> r.value * Units(amount) == x
  {
    if amount == 0 then Err(ZeroDivisionError) else Ok(x / Units(amount))
  }

  /** Between two transactions `+` and `*` commute, and `-` is antisymmetric. */
  lemma TransactionOperators(a: int, b: int)
    ensures Add(a, OfTransaction(b)) == Add(b, OfTransaction(a))
    ensures Mul(a, OfTransaction(b)) == Mul(b, OfTransaction(a))
    ensures Sub(a, OfTransaction(b)) == -Sub(b, OfTransaction(a))
    ensures Sub(a, OfTransaction(a)) == 0.0
  {
  }
}
