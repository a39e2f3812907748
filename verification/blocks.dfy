/** Integer arithmetic of the block layout: which block starts Python's range visits,
    where each draw window ends, and Python's floor division. */
module Blocks {

  /** Distance from a block start to the exclusive upper end of its draw window.
      The source writes this as a literal; it does not follow the block size. */
  const DrawWidth: int := 80

  /** The j-th value of range(0, stop, step). */
  function Start(step: int, j: int): int {
    j * step
  }

  /** Whether range(0, stop, step) still produces its j-th value: it runs while its
      value is below stop for a positive step and above stop for a negative one. */
  predicate Visits(stop: int, step: int, j: int) {
    if step > 0 then Start(step, j) < stop else Start(step, j) > stop
  }

  /** The number of values of range(0, stop, step) for a positive step. */
  function CountBelow(stop: int, step: int): (n: nat)
    requires step > 0
    ensures forall j: nat :: j < n <==> Start(step, j) < stop
    decreases stop
  {
    if stop <= 0 then 0
    else
      var rest := CountBelow(stop - step, step);
      assert forall j: int {:trigger Start(step, j)} :: Start(step, j) == Start(step, j - 1) + step;
      1 + rest
  }

  /** The number of block starts range(0, stop, step) visits (the step must be nonzero,
      as range raises otherwise). */
  function BlockCount(stop: int, step: int): (n: nat)
    requires step != 0
    ensures forall j: nat :: j < n <==> Visits(stop, step, j)
  {
    if step > 0 then CountBelow(stop, step)
    else
      assert forall j: int {:trigger Start(step, j)} :: Start(step, j) == -Start(-step, j);
      CountBelow(-stop, -step)
  }

  /** For a positive step and stop, the visited starts number ceil(stop / step). */
  lemma BlockCountIsCeiling(stop: int, step: int)
    requires step > 0 && stop > 0
    ensures BlockCount(stop, step) == (stop + step - 1) / step
  {
    var q := (stop + step - 1) / step;
    var rem := (stop + step - 1) % step;
    assert stop + step - 1 == q * step + rem && 0 <= rem < step;
    assert Start(step, q) == q * step;
    assert q * step >= stop;
    assert q >= 1;
    assert Start(step, q - 1) == q * step - step;
    assert Visits(stop, step, q - 1);
    assert !Visits(stop, step, q);
  }

  /** q is a // b in Python: the quotient rounded toward negative infinity. */
  predicate IsFloorQuotient(a: int, b: int, q: int) {
    if b > 0 then b * q <= a < b * q + b else b * q >= a > b * q + b
  }

  /** Python's floor division a // b. Dafny's `/` agrees with it for a positive divisor only. */
  function FloorDiv(a: int, b: int): (q: int)
    requires b != 0
    ensures IsFloorQuotient(a, b, q)
  {
    if b > 0 then a / b else (-a) / (-b)
  }

  /** A floor quotient is unique. */
  lemma FloorQuotientUnique(a: int, b: int, q1: int, q2: int)
    requires b != 0
    requires IsFloorQuotient(a, b, q1) && IsFloorQuotient(a, b, q2)
    ensures q1 == q2
  {
    if q1 < q2 {
      MulMonotone(q1 + 1, q2, if b > 0 then b else -b);
    } else if q2 < q1 {
      MulMonotone(q2 + 1, q1, if b > 0 then b else -b);
    }
  }

  /** Multiplying by a non-negative factor keeps order. */
  lemma MulMonotone(x: int, y: int, c: int)
    requires x <= y && c >= 0
    ensures x * c <= y * c
  {
    assert y * c - x * c == (y - x) * c;
  }
}
