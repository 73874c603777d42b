/** The progress percentages of the dashboard overview. */
module Dashboard {

  /** `calculatePercentage`: `part / whole * 100` rounded to the nearest
      integer with halves rounded up (`Math.round`), or 0 when the whole is
      not positive. The ratio is taken exactly, so the rounded value is
      floor((200 * part + whole) / (2 * whole)); floating-point division
      can land just below a half and round one lower. */
  function Percentage(part: int, whole: int): (r: int)
    ensures whole <= 0 ==> r == 0
    ensures whole > 0 ==> 2 * whole * r <= 200 * part + whole < 2 * whole * (r + 1)
  {
    if whole > 0 then (200 * part + whole) / (2 * whole) else 0
  }

  /** Five values: 1/3 and 2/3 round to 33 and 67, the halves 12.5 and
      0.5 round up to 13 and 1, and a zero whole gives 0. */
  lemma PercentageExamples()
    ensures Percentage(1, 3) == 33
    ensures Percentage(2, 3) == 67
    ensures Percentage(1, 8) == 13
    ensures Percentage(1, 200) == 1
    ensures Percentage(5, 0) == 0
  {
  }

  /** Everything done is 100 percent. */
  lemma WholeIsHundred(whole: int)
    requires whole > 0
    ensures Percentage(whole, whole) == 100
  {
    var r := Percentage(whole, whole);
    assert 2 * whole * r <= 201 * whole < 2 * whole * (r + 1);
    BoundByProduct(whole, r, 101);
    BoundByProduct(whole, 100, r + 1);
  }

  /** A part between nothing and the whole gives a percentage between 0
      and 100. */
  lemma PercentageInRange(part: int, whole: int)
    requires whole > 0 && 0 <= part <= whole
    ensures 0 <= Percentage(part, whole) <= 100
  {
    var r := Percentage(part, whole);
    assert 2 * whole * r <= 200 * whole + whole;
    BoundByProduct(whole, r, 101);
    assert 0 < whole <= 200 * part + whole < 2 * whole * (r + 1);
    BoundByProduct(whole, 0, r + 1);
  }

  /** For a fixed whole, more done never shows a smaller percentage. */
  lemma PercentageMonotone(p: int, q: int, whole: int)
    requires whole > 0 && p <= q
    ensures Percentage(p, whole) <= Percentage(q, whole)
  {
    var rp, rq := Percentage(p, whole), Percentage(q, whole);
    assert 2 * whole * rp <= 200 * p + whole <= 200 * q + whole < 2 * whole * (rq + 1);
    BoundByProduct(whole, rp, rq + 1);
  }

  /** Dividing a strict inequality between multiples of a positive
      number. */
  lemma BoundByProduct(w: int, a: int, b: int)
    requires w > 0 && 2 * w * a < 2 * w * b
    ensures a < b
  {
  }
}
