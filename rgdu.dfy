/** calculer_rgdu: the 2026 degressive general reduction of employer charges
    (RGDU). Below three times the annual minimum wage (SMIC) the employer
    charges are reduced by a coefficient of the gross; the coefficient falls
    from Tmin + Tdelta towards Tmin as the gross rises towards the threshold.

    The power `x ** 1.75` has no counterpart in Dafny's reals, so it is the
    parameter `pow175`; the lemmas that need it to be non-negative or
    non-decreasing say so. */
module Rgdu {
  import opened Wrappers
  import opened Money
  import opened Bareme

  /** The Tdelta of the workforce size: 0.3821 with the 0.50% housing fund
      (50 employees or more), 0.3781 otherwise. */
  function Tdelta(useFnal50: bool): (t: real)
    ensures useFnal50 ==> t == RgduTdeltaFnal50
    ensures !useFnal50 ==> t == RgduTdeltaFnal10
    ensures 0.0 < t < 1.0
  {
    if useFnal50 then RgduTdeltaFnal50 else RgduTdeltaFnal10
  }

  /** The largest coefficient, Tmin + Tdelta. */
  function Plafond(useFnal50: bool): real
  {
    RgduTmin + Tdelta(useFnal50)
  }

  /** The coefficient for a positive `ratio`: Tmin + Tdelta * (ratio / 2) ** 1.75,
      capped at Tmin + Tdelta, then rounded to four decimals. */
  function Coefficient(ratio: real, useFnal50: bool, pow175: real -> real): real
  {
    CoefficientDe(pow175(0.5 * ratio), useFnal50)
  }

  /** The coefficient for the power `p` of half the ratio. */
  function CoefficientDe(p: real, useFnal50: bool): real
  {
    Round4(Min(RgduTmin + Tdelta(useFnal50) * p, Plafond(useFnal50)))
  }

  /** A larger power never gives a smaller coefficient. */
  lemma CoefficientDeMonotone(p: real, q: real, useFnal50: bool)
    requires p <= q
    ensures CoefficientDe(p, useFnal50) <= CoefficientDe(q, useFnal50)
  {
    var t := Tdelta(useFnal50);
    ProduitMonotone(t, p, q);
    var mp := Min(RgduTmin + t * p, Plafond(useFnal50));
    var mq := Min(RgduTmin + t * q, Plafond(useFnal50));
    assert mp <= mq;
    Round4Monotone(mp, mq);
  }

  /** (3 * annual SMIC / annual gross) - 1, for a non-zero gross. */
  function Ratio(brutMensuel: real, smicMensuel: real): real
    requires brutMensuel != 0.0
  {
    RgduSeuilSmic * (smicMensuel * 12.0) / (brutMensuel * 12.0) - 1.0
  }

  /** The monthly reduction for the monthly gross `brutMensuel` and monthly
      SMIC `smicMensuel`. `None` is the division by a zero annual gross that
      the source performs, unguarded, when the gross is zero and the SMIC
      positive. */
  function CalculerRgdu(brutMensuel: real, smicMensuel: real, useFnal50: bool, pow175: real -> real): (r: Option<real>)
    ensures r.None? <==> brutMensuel == 0.0 && smicMensuel > 0.0
    ensures brutMensuel * 12.0 >= RgduSeuilSmic * (smicMensuel * 12.0) ==> r == Some(0.0)
  {
    if brutMensuel * 12.0 >= RgduSeuilSmic * (smicMensuel * 12.0) then Some(0.0)
    else if brutMensuel * 12.0 == 0.0 then None
    else
      var ratio := Ratio(brutMensuel, smicMensuel);
      if ratio <= 0.0 then Some(0.0)
      else Some(brutMensuel * Coefficient(ratio, useFnal50, pow175))
  }

  /** The rounding to four decimals never takes the coefficient above the
      cap, and, when the power is non-negative, never below Tmin. */
  lemma CoefficientEncadre(ratio: real, useFnal50: bool, pow175: real -> real)
    ensures Coefficient(ratio, useFnal50, pow175) <= Plafond(useFnal50)
    ensures pow175(0.5 * ratio) >= 0.0 ==> RgduTmin <= Coefficient(ratio, useFnal50, pow175)
  {
    var t := Tdelta(useFnal50);
    var m := Min(RgduTmin + t * pow175(0.5 * ratio), Plafond(useFnal50));
    assert IsFourDecimals(Plafond(useFnal50)) by {
      assert Plafond(useFnal50) * 10000.0 == if useFnal50 then 4021.0 else 3981.0;
      FloorOfInt(if useFnal50 then 4021 else 3981);
    }
    Round4OfFourDecimals(Plafond(useFnal50));
    Round4Monotone(m, Plafond(useFnal50));
    if pow175(0.5 * ratio) >= 0.0 {
      assert t * pow175(0.5 * ratio) >= 0.0;
      assert IsFourDecimals(RgduTmin) by {
        assert RgduTmin * 10000.0 == 200.0;
        FloorOfInt(200);
      }
      Round4OfFourDecimals(RgduTmin);
      Round4Monotone(RgduTmin, m);
    }
  }

  /** Below the threshold a positive gross always gives a positive ratio, so
      the power is only ever taken of a positive number. */
  lemma RatioPositif(brutMensuel: real, smicMensuel: real)
    requires brutMensuel > 0.0
    requires brutMensuel * 12.0 < RgduSeuilSmic * (smicMensuel * 12.0)
    ensures Ratio(brutMensuel, smicMensuel) > 0.0
  {
    var a := RgduSeuilSmic * (smicMensuel * 12.0);
    var b := brutMensuel * 12.0;
    var q := a / b;
    assert (q - 1.0) * b == a - b;
    PositifParProduit(q - 1.0, b);
  }

  lemma PositifParProduit(x: real, b: real)
    requires b > 0.0 && x * b > 0.0
    ensures x > 0.0
  {}

  /** The reduction of a positive gross below the threshold is the gross
      times a coefficient that lies between Tmin and Tmin + Tdelta. */
  lemma ReductionEncadree(brutMensuel: real, smicMensuel: real, useFnal50: bool, pow175: real -> real)
    requires forall x :: x > 0.0 ==> pow175(x) >= 0.0
    requires brutMensuel > 0.0
    requires brutMensuel * 12.0 < RgduSeuilSmic * (smicMensuel * 12.0)
    ensures CalculerRgdu(brutMensuel, smicMensuel, useFnal50, pow175)
            == Some(brutMensuel * Coefficient(Ratio(brutMensuel, smicMensuel), useFnal50, pow175))
    ensures RgduTmin <= Coefficient(Ratio(brutMensuel, smicMensuel), useFnal50, pow175) <= Plafond(useFnal50)
  {
    var ratio := Ratio(brutMensuel, smicMensuel);
    RatioPositif(brutMensuel, smicMensuel);
    assert 0.5 * ratio > 0.0;
    assert pow175(0.5 * ratio) >= 0.0;
    CoefficientEncadre(ratio, useFnal50, pow175);
  }

  lemma ProduitMonotone(b: real, x: real, y: real)
    requires b >= 0.0 && x <= y
    ensures b * x <= b * y
  {
    assert b * y - b * x == b * (y - x);
  }

  /** Whenever the reduction is defined and the SMIC is not negative, it is
      non-negative and, for a non-negative gross, at most Tmin + Tdelta times
      the gross. */
  lemma ReductionBornee(brutMensuel: real, smicMensuel: real, useFnal50: bool, pow175: real -> real)
    requires forall x :: x > 0.0 ==> pow175(x) >= 0.0
    requires smicMensuel >= 0.0
    ensures CalculerRgdu(brutMensuel, smicMensuel, useFnal50, pow175).Some? ==>
              CalculerRgdu(brutMensuel, smicMensuel, useFnal50, pow175).value >= 0.0
    ensures brutMensuel >= 0.0 && CalculerRgdu(brutMensuel, smicMensuel, useFnal50, pow175).Some? ==>
              CalculerRgdu(brutMensuel, smicMensuel, useFnal50, pow175).value <= brutMensuel * Plafond(useFnal50)
  {
    if brutMensuel > 0.0 && brutMensuel * 12.0 < RgduSeuilSmic * (smicMensuel * 12.0) {
      ReductionEncadree(brutMensuel, smicMensuel, useFnal50, pow175);
      var c := Coefficient(Ratio(brutMensuel, smicMensuel), useFnal50, pow175);
      ProduitMonotone(brutMensuel, 0.0, c);
      ProduitMonotone(brutMensuel, c, Plafond(useFnal50));
    } else if brutMensuel < 0.0 && brutMensuel * 12.0 < RgduSeuilSmic * (smicMensuel * 12.0) {
      var a := RgduSeuilSmic * (smicMensuel * 12.0);
      var b := brutMensuel * 12.0;
      var q := a / b;
      assert q * b == a;
      assert Ratio(brutMensuel, smicMensuel) <= 0.0;
      assert CalculerRgdu(brutMensuel, smicMensuel, useFnal50, pow175) == Some(0.0);
    }
  }

  /** The ratio falls as the gross rises. */
  lemma RatioDecroissant(a: real, b1: real, b2: real)
    requires a > 0.0 && 0.0 < b1 <= b2
    ensures a / b2 <= a / b1
  {
    var q1 := a / b1;
    var q2 := a / b2;
    assert q1 * b1 == a && q2 * b2 == a;
    if q2 > q1 {
      assert q2 * b2 >= q2 * b1;
      assert q2 * b1 > q1 * b1;
    }
  }

  /** Degressivity: for a non-decreasing power, a higher gross below the
      threshold never gets a higher coefficient. */
  lemma CoefficientDegressif(brut1: real, brut2: real, smicMensuel: real, useFnal50: bool, pow175: real -> real)
    requires forall x, y :: 0.0 < x <= y ==> pow175(x) <= pow175(y)
    requires 0.0 < brut1 <= brut2
    requires brut2 * 12.0 < RgduSeuilSmic * (smicMensuel * 12.0)
    ensures Coefficient(Ratio(brut2, smicMensuel), useFnal50, pow175)
            <= Coefficient(Ratio(brut1, smicMensuel), useFnal50, pow175)
  {
    var r1 := Ratio(brut1, smicMensuel);
    var r2 := Ratio(brut2, smicMensuel);
    RatioPositif(brut2, smicMensuel);
    RatioDecroissant(RgduSeuilSmic * (smicMensuel * 12.0), brut1 * 12.0, brut2 * 12.0);
    assert 0.0 < 0.5 * r2 <= 0.5 * r1;
    CoefficientCroissant(0.5 * r2, 0.5 * r1, useFnal50, pow175);
    assert 2.0 * (0.5 * r1) == r1 && 2.0 * (0.5 * r2) == r2;
  }

  /** The coefficient does not decrease with its ratio, for a non-decreasing power. */
  lemma CoefficientCroissant(x: real, y: real, useFnal50: bool, pow175: real -> real)
    requires forall x, y :: 0.0 < x <= y ==> pow175(x) <= pow175(y)
    requires 0.0 < x <= y
    ensures Coefficient(2.0 * x, useFnal50, pow175) <= Coefficient(2.0 * y, useFnal50, pow175)
  {
    assert 0.5 * (2.0 * x) == x && 0.5 * (2.0 * y) == y;
    assert pow175(x) <= pow175(y);
    CoefficientDeMonotone(pow175(x), pow175(y), useFnal50);
  }

  /** The reduction stops exactly at three times the SMIC. */
  lemma SeuilExact(smicMensuel: real, useFnal50: bool, pow175: real -> real)
    ensures CalculerRgdu(RgduSeuilSmic * smicMensuel, smicMensuel, useFnal50, pow175) == Some(0.0)
  {
    assert RgduSeuilSmic * smicMensuel * 12.0 == RgduSeuilSmic * (smicMensuel * 12.0);
  }

  /** A negative gross with a non-negative SMIC stays below the threshold
      but gives a ratio of at most -1, so the reduction is 0: the branch for a
      ratio that is not positive. */
  lemma BrutNegatif(brutMensuel: real, smicMensuel: real, useFnal50: bool, pow175: real -> real)
    requires brutMensuel < 0.0 && smicMensuel >= 0.0
    ensures brutMensuel * 12.0 < RgduSeuilSmic * (smicMensuel * 12.0)
    ensures Ratio(brutMensuel, smicMensuel) <= -1.0
    ensures CalculerRgdu(brutMensuel, smicMensuel, useFnal50, pow175) == Some(0.0)
  {
    var a := RgduSeuilSmic * (smicMensuel * 12.0);
    var b := brutMensuel * 12.0;
    var q := a / b;
    assert q * b == a;
  }
}
