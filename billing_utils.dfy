/** billing/utils.py: the patient/HMO split of a charge. Amounts are in
    cents, so `quantize(Decimal("0.01"))` rounds to a whole number of cents. */
module BillingUtils {
  import Decimal

  /** The two halves of a split charge. */
  datatype Shares = Shares(patient: int, hmo: int)

  /** `split_amount`: an uninsured charge is all the patient's; otherwise the
      HMO pays `DEFAULT_HMO_COVERAGE` (0.80, written below as 80 / 100) of it
      rounded to the cent (half to even) and the patient the rest. */
  function SplitAmount(total: int, isHmo: bool): (r: Shares)
    ensures !isHmo ==> r == Shares(total, 0)
    ensures isHmo ==> Decimal.IsRoundHalfEven(total * 80, 100, r.hmo)
    ensures r.patient + r.hmo == total
  {
    if !isHmo then Shares(total, 0)
    else
      var h := Decimal.RoundHalfEven(total * 80, 100);
      Shares(total - h, h)
  }

  /** The HMO share of a whole number of cents is never a tie: it is strictly
      the nearest cent to 80% of the charge. */
  lemma SplitIsNearest(total: int)
    ensures var h := SplitAmount(total, true).hmo;
      -50 < 100 * h - 80 * total < 50
  {
    var h := SplitAmount(total, true).hmo;
    var e := 100 * h - 80 * total;
    assert -50 <= e <= 50;
    // e is a multiple of ten, and 50 / 10 is odd while 10 * h - 8 * total is even
    assert e == 10 * (10 * h - 8 * total);
    assert 10 * h - 8 * total == 2 * (5 * h - 4 * total);
    assert e != 50 && e != -50;
  }

  /** For a non-negative charge both shares are non-negative and neither
      exceeds the charge. */
  lemma SplitBounds(total: int, isHmo: bool)
    requires total >= 0
    ensures var r := SplitAmount(total, isHmo);
      0 <= r.hmo <= total && 0 <= r.patient <= total
  {
    if isHmo {
      SplitIsNearest(total);
      var h := SplitAmount(total, true).hmo;
      assert 100 * h < 80 * total + 50;
      assert 100 * h > 80 * total - 50;
      assert h >= 0;
      assert h <= total;
    }
  }

  /** A charge that is a multiple of five cents splits exactly: 80% of it is
      a whole number of cents. */
  lemma SplitExact(k: int)
    ensures SplitAmount(5 * k, true) == Shares(k, 4 * k)
  {
    Decimal.RoundExact(4 * k, 100);
    assert 5 * k * 80 == 4 * k * 100;
  }
}
