/** The arithmetic service of the calculator: addition, subtraction,
    multiplication and division of two operands. Division is the only
    partial operation: a divisor equal to zero raises ZeroDivisionError.

    Operands are Dafny `real`s. Python floats are IEEE-754 doubles; rounding,
    overflow, infinities, NaN and the sign of zero are not represented here. */
module Calculadora {

  /** What `dividir` does: return the quotient, or raise ZeroDivisionError. */
  datatype Division = Quotient(value: real) | ZeroDivisionError

  /** `sumar`: the sum is the number that, less either operand, gives the other. */
  function Sumar(a: real, b: real): (r: real)
    ensures r - b == a && r - a == b
  {
    a + b
  }

  /** `restar`: the difference is the number that, plus the subtrahend,
      gives back the minuend. */
  function Restar(a: real, b: real): (r: real)
    ensures r + b == a
  {
    a - b
  }

  /** `multiplicar`: the product is zero exactly when a factor is zero, and
      dividing it by one nonzero factor gives back the other. */
  function Multiplicar(a: real, b: real): (r: real)
    ensures r == 0.0 <==> (a == 0.0 || b == 0.0)
    ensures b != 0.0 ==> r / b == a
    ensures a != 0.0 ==> r / a == b
  {
    a * b
  }

  /** `dividir`: fails exactly when the divisor is zero (an exact test, not a
      tolerance); otherwise the quotient times the divisor gives the dividend. */
  function Dividir(a: real, b: real): (r: Division)
    ensures r.ZeroDivisionError? <==> b == 0.0
    ensures r.Quotient? ==> r.value * b == a
  {
    if b == 0.0 then ZeroDivisionError else Quotient(a / b)
  }

  /** Subtracting what was added gives back the first operand. */
  lemma RestarUndoesSumar(a: real, b: real)
    ensures Restar(Sumar(a, b), b) == a
  {
  }

  /** Adding back what was subtracted gives back the minuend. */
  lemma SumarUndoesRestar(a: real, b: real)
    ensures Sumar(Restar(a, b), b) == a
  {
  }

  /** Dividing a product by a nonzero factor succeeds and gives back the
      other factor. */
  lemma DividirUndoesMultiplicar(a: real, b: real)
    requires b != 0.0
    ensures Dividir(Multiplicar(a, b), b) == Quotient(a)
  {
  }

  /** A successful division is undone by multiplying by the divisor, and its
      quotient is the only number that is. */
  lemma MultiplicarUndoesDividir(a: real, b: real, q: real)
    ensures Dividir(a, b) == Quotient(q) <==> (b != 0.0 && Multiplicar(q, b) == a)
  {
  }

  /** The zero test is exact: every nonzero divisor, however small, yields
      the quotient (a corollary of the contract of `Dividir`), so there is no
      tolerance `t` below which a divisor is treated as zero: some positive
      divisor smaller than any such `t` still yields a quotient. */
  lemma NoZeroTolerance(a: real, t: real)
    requires t > 0.0
    ensures forall b: real :: b != 0.0 ==> Dividir(a, b) == Quotient(a / b)
    ensures exists b: real :: 0.0 < b < t && Dividir(a, b) == Quotient(a / b)
  {
    var b := t / 2.0;
    assert 0.0 < b < t && Dividir(a, b) == Quotient(a / b);
  }

  /** Addition, subtraction and multiplication are total: a zero second
      operand, which makes division fail, gives them an ordinary value. */
  lemma ZeroDivisorOnlyFailsDividir(a: real)
    ensures Dividir(a, 0.0) == ZeroDivisionError
    ensures Sumar(a, 0.0) == a && Restar(a, 0.0) == a && Multiplicar(a, 0.0) == 0.0
  {
  }
}
