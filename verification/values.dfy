/** Values held on the operand stack and in the local slots.
    The interpreter's values are the two primitive kinds of the methods it runs,
    `int` and `boolean`, carried as unbounded integers and booleans. In the
    arithmetic and the comparisons a boolean behaves as the integer 0 or 1. */
module Values {

  datatype Option<+T> = None | Some(value: T)

  datatype Value = IntV(i: int) | BoolV(b: bool)

  /** The integer a value stands for in arithmetic and comparisons. */
  function AsInt(v: Value): int
  {
    match v
    case IntV(i) => i
    case BoolV(b) => if b then 1 else 0
  }

  /** Integer division rounding toward negative infinity (the `//` operator of
      the interpreter's host language). Dafny's `/` is Euclidean: the two agree
      for a positive divisor and differ for a negative one with a remainder. */
  function FloorDiv(a: int, b: int): int
    requires b != 0
  {
    if b > 0 || a % b == 0 then a / b else a / b - 1
  }

  /** `q` is the quotient of `a` by `b` rounded down: the remainder `a - b * q`
      has the sign of `b` and is smaller than `b` in magnitude. */
  ghost predicate IsFloorQuotient(a: int, b: int, q: int)
  {
    (b > 0 ==> b * q <= a < b * q + b) &&
    (b < 0 ==> b * q + b < a <= b * q)
  }

  lemma FloorDivIsFloorQuotient(a: int, b: int)
    requires b != 0
    ensures IsFloorQuotient(a, b, FloorDiv(a, b))
  {
    var e, m := a / b, a % b;
    assert a == b * e + m && 0 <= m;
    if b < 0 {
      assert m < -b;
      if m != 0 {
        assert b * (e - 1) == b * e - b;
      }
    } else {
      assert m < b;
      assert b * e + b == b * (e + 1);
    }
  }

  /** There is only one floor quotient, so FloorDiv is the division the host
      language performs. */
  lemma FloorQuotientUnique(a: int, b: int, q: int)
    requires b != 0
    requires IsFloorQuotient(a, b, q)
    ensures q == FloorDiv(a, b)
  {
    var f := FloorDiv(a, b);
    FloorDivIsFloorQuotient(a, b);
    if q != f {
      var lo, hi := if q < f then q else f, if q < f then f else q;
      MulGap(b, lo, hi);
    }
  }

  /** Two quotients at least one apart put their products at least |b| apart. */
  lemma MulGap(b: int, lo: int, hi: int)
    requires b != 0 && lo < hi
    ensures b > 0 ==> b * hi >= b * lo + b
    ensures b < 0 ==> b * hi <= b * lo + b
  {
    var d := hi - lo - 1;
    assert b * hi == b * lo + b + b * d;
    if b > 0 {
      assert b * d >= 0;
    } else {
      assert b * d <= 0;
    }
  }

  /** Rounding is downward, not toward zero: -7 // 2 is -4 and 7 // -2 is -4. */
  lemma FloorDivRoundsDown()
    ensures FloorDiv(-7, 2) == -4 && FloorDiv(7, -2) == -4
    ensures FloorDiv(-7, -2) == 3 && FloorDiv(7, 2) == 3
    ensures FloorDiv(-8, 2) == -4 && FloorDiv(6, -3) == -2
  {
  }
}
