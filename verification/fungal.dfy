/** Fungal disease risk: every humid, mild period adds 3 risk hours and a
    score weighted by how close its temperature is to the middle of the
    favourable band and by how humid it is; the total score is normalised to
    0..100 and mapped to a risk level. */
module Fungal {
  import opened Weather

  /** The normalisation constant: 40 periods (120 hours) at 3.5 points each. */
  const MaxPossibleScore: real := 140.0

  datatype RiskLevel = Low | Moderate | High | Severe

  datatype FungalAlert = FungalAlert(
    level: RiskLevel,
    score: real,            // normalised, 0..100 (the reply rounds it to 2 decimals)
    totalRiskHours: int,
    humidityThreshold: real,
    tempMin: real,
    tempMax: real)

  /** Humid enough and inside the temperature band, both bounds included. */
  predicate Favourable(p: Period, humThr: real, tMin: real, tMax: real) {
    p.humidity >= humThr && tMin <= p.temp <= tMax
  }

  /** Every favourable period can be scored: the band is not a single point and
      the humidity threshold is below 100 (otherwise a score divides by zero). */
  ghost predicate Scorable(ps: seq<Period>, humThr: real, tMin: real, tMax: real) {
    forall k :: 0 <= k < |ps| && Favourable(ps[k], humThr, tMin, tMax) ==> tMin < tMax && humThr < 100.0
  }

  function Abs(x: real): real {
    if x < 0.0 then -x else x
  }

  /** 1 at the middle of the band, falling linearly to 0 at its edges. */
  function TempFactor(temp: real, tMin: real, tMax: real): real
    requires tMin < tMax
  {
    1.0 - Abs(temp - (tMin + tMax) / 2.0) / ((tMax - tMin) / 2.0)
  }

  /** 0 at the humidity threshold, rising linearly to 1 at 100%. */
  function HumidityFactor(humidity: real, humThr: real): real
    requires humThr < 100.0
  {
    (humidity - humThr) / (100.0 - humThr)
  }

  /** The score of one favourable period. */
  function PeriodScore(p: Period, humThr: real, tMin: real, tMax: real): real
    requires tMin < tMax && humThr < 100.0
  {
    (1.0 + TempFactor(p.temp, tMin, tMax) + HumidityFactor(p.humidity, humThr)) * 1.5
  }

  /** Hours of favourable conditions: 3 per favourable period. */
  function RiskHours(ps: seq<Period>, humThr: real, tMin: real, tMax: real): (h: int)
    ensures h >= 0 && h % 3 == 0
    ensures h <= 3 * |ps|
  {
    if ps == [] then 0
    else
      var n := |ps| - 1;
      RiskHours(ps[..n], humThr, tMin, tMax) + (if Favourable(ps[n], humThr, tMin, tMax) then 3 else 0)
  }

  /** Sum of the scores of the favourable periods. */
  function RiskScore(ps: seq<Period>, humThr: real, tMin: real, tMax: real): real
    requires Scorable(ps, humThr, tMin, tMax)
  {
    if ps == [] then 0.0
    else
      var n := |ps| - 1;
      assert Scorable(ps[..n], humThr, tMin, tMax) by {
        forall k | 0 <= k < n ensures ps[..n][k] == ps[k] { }
      }
      RiskScore(ps[..n], humThr, tMin, tMax) +
      (if Favourable(ps[n], humThr, tMin, tMax) then PeriodScore(ps[n], humThr, tMin, tMax) else 0.0)
  }

  /** The score on the 0..100 scale, capped at 100. */
  function Normalize(score: real): (r: real)
    ensures r <= 100.0
    ensures score >= 0.0 ==> r >= 0.0
    ensures r == 100.0 || r == score / MaxPossibleScore * 100.0
    ensures score / MaxPossibleScore * 100.0 < 100.0 ==> r == score / MaxPossibleScore * 100.0
    ensures score / MaxPossibleScore * 100.0 >= 100.0 ==> r == 100.0
  {
    var s := score / MaxPossibleScore * 100.0;
    if s < 100.0 then s else 100.0
  }

  /** Risk level of a normalised score. */
  function LevelOf(normalized: real): RiskLevel {
    if normalized >= 75.0 then Severe
    else if normalized >= 50.0 then High
    else if normalized >= 25.0 then Moderate
    else Low
  }

  /** Position of a level in the order Low < Moderate < High < Severe. */
  function Rank(level: RiskLevel): nat {
    match level
    case Low => 0
    case Moderate => 1
    case High => 2
    case Severe => 3
  }

  /** The alert for a forecast. */
  function FungalOutcome(ps: seq<Period>, humThr: real, tMin: real, tMax: real): FungalAlert
    requires Scorable(ps, humThr, tMin, tMax)
  {
    var normalized := Normalize(RiskScore(ps, humThr, tMin, tMax));
    FungalAlert(LevelOf(normalized), normalized, RiskHours(ps, humThr, tMin, tMax), humThr, tMin, tMax)
  }

  /** Accumulates risk hours and score over the periods, then normalises and
      grades.  The minimum window is accepted but plays no part. */
  method FindFungalRisk(ps: seq<Period>, humThr: real, tMin: real, tMax: real, minWindowHours: real)
    returns (r: FungalAlert)
    requires Scorable(ps, humThr, tMin, tMax)
    ensures r == FungalOutcome(ps, humThr, tMin, tMax)
  {
    var totalRiskHours := 0;
    var riskScore := 0.0;
    var midpoint := (tMin + tMax) / 2.0;
    var tempRange := tMax - tMin;
    var i := 0;
    while i < |ps|
      invariant 0 <= i <= |ps|
      invariant Scorable(ps[..i], humThr, tMin, tMax)
      invariant totalRiskHours == RiskHours(ps[..i], humThr, tMin, tMax)
      invariant riskScore == RiskScore(ps[..i], humThr, tMin, tMax)
    {
      var humidity := ps[i].humidity;
      var temp := ps[i].temp;
      assert ps[..i + 1][..i] == ps[..i];
      if humidity >= humThr && tMin <= temp <= tMax {
        totalRiskHours := totalRiskHours + 3;
        var distance := Abs(temp - midpoint);
        var tempScoreFactor := 1.0 - distance / (tempRange / 2.0);
        var humidityScoreFactor := (humidity - humThr) / (100.0 - humThr);
        riskScore := riskScore + (1.0 + tempScoreFactor + humidityScoreFactor) * 1.5;
      }
      i := i + 1;
    }
    assert ps[..i] == ps;
    var normalized := Normalize(riskScore);
    r := FungalAlert(LevelOf(normalized), normalized, totalRiskHours, humThr, tMin, tMax);
  }

  // ---------------------------------------------------------------------
  // What the score means.

  /** The temperature factor lies in [0, 1] inside the band, is 1 exactly at
      the midpoint and 0 at either edge. */
  lemma TempFactorBounds(temp: real, tMin: real, tMax: real)
    requires tMin < tMax && tMin <= temp <= tMax
    ensures 0.0 <= TempFactor(temp, tMin, tMax) <= 1.0
    ensures TempFactor(temp, tMin, tMax) == 1.0 <==> temp == (tMin + tMax) / 2.0
    ensures temp == tMin || temp == tMax ==> TempFactor(temp, tMin, tMax) == 0.0
  {
    var half := (tMax - tMin) / 2.0;
    var d := Abs(temp - (tMin + tMax) / 2.0);
    assert d <= half;
    DivideBounds(d, half);
  }

  /** The temperature factor grows as the temperature approaches the midpoint. */
  lemma TempFactorPeaksAtMidpoint(t1: real, t2: real, tMin: real, tMax: real)
    requires tMin < tMax
    requires Abs(t1 - (tMin + tMax) / 2.0) <= Abs(t2 - (tMin + tMax) / 2.0)
    ensures TempFactor(t1, tMin, tMax) >= TempFactor(t2, tMin, tMax)
  {
    DivideMonotone(Abs(t1 - (tMin + tMax) / 2.0), Abs(t2 - (tMin + tMax) / 2.0), (tMax - tMin) / 2.0);
  }

  /** The humidity factor is 0 at the threshold, 1 at 100%, in [0, 1] between,
      and grows with humidity. */
  lemma HumidityFactorBounds(h1: real, h2: real, humThr: real)
    requires humThr < 100.0
    ensures HumidityFactor(humThr, humThr) == 0.0 && HumidityFactor(100.0, humThr) == 1.0
    ensures humThr <= h1 <= 100.0 ==> 0.0 <= HumidityFactor(h1, humThr) <= 1.0
    ensures h1 <= h2 ==> HumidityFactor(h1, humThr) <= HumidityFactor(h2, humThr)
  {
    if h1 <= h2 {
      DivideMonotone(h1 - humThr, h2 - humThr, 100.0 - humThr);
    }
    if humThr <= h1 <= 100.0 {
      DivideBounds(h1 - humThr, 100.0 - humThr);
    }
    DivideBounds(100.0 - humThr, 100.0 - humThr);
    DivideBounds(0.0, 100.0 - humThr);
  }

  /** A favourable period with humidity at most 100% scores between 1.5 and 4.5. */
  lemma PeriodScoreBounds(p: Period, humThr: real, tMin: real, tMax: real)
    requires tMin < tMax && humThr < 100.0
    requires Favourable(p, humThr, tMin, tMax) && p.humidity <= 100.0
    ensures 1.5 <= PeriodScore(p, humThr, tMin, tMax) <= 4.5
  {
    TempFactorBounds(p.temp, tMin, tMax);
    HumidityFactorBounds(p.humidity, p.humidity, humThr);
  }

  /** Humidity readings are percentages. */
  ghost predicate HumidityPercent(ps: seq<Period>) {
    forall k :: 0 <= k < |ps| ==> ps[k].humidity <= 100.0
  }

  /** The score earns between 0.5 and 1.5 points per risk hour. */
  lemma {:induction false} RiskScoreBounds(ps: seq<Period>, humThr: real, tMin: real, tMax: real)
    requires Scorable(ps, humThr, tMin, tMax) && HumidityPercent(ps)
    ensures 0.5 * RiskHours(ps, humThr, tMin, tMax) as real <= RiskScore(ps, humThr, tMin, tMax)
    ensures RiskScore(ps, humThr, tMin, tMax) <= 1.5 * RiskHours(ps, humThr, tMin, tMax) as real
  {
    if ps != [] {
      var n := |ps| - 1;
      assert forall k :: 0 <= k < n ==> ps[..n][k] == ps[k];
      RiskScoreBounds(ps[..n], humThr, tMin, tMax);
      if Favourable(ps[n], humThr, tMin, tMax) {
        PeriodScoreBounds(ps[n], humThr, tMin, tMax);
      }
    }
  }

  /** No favourable period: no risk hours, a zero score and a low risk. */
  lemma {:induction false} NoFavourablePeriodIsLow(ps: seq<Period>, humThr: real, tMin: real, tMax: real)
    requires forall k :: 0 <= k < |ps| ==> !Favourable(ps[k], humThr, tMin, tMax)
    ensures Scorable(ps, humThr, tMin, tMax)
    ensures RiskHours(ps, humThr, tMin, tMax) == 0 && RiskScore(ps, humThr, tMin, tMax) == 0.0
    ensures FungalOutcome(ps, humThr, tMin, tMax).level == Low
  {
    if ps != [] {
      var n := |ps| - 1;
      assert forall k :: 0 <= k < n ==> ps[..n][k] == ps[k];
      NoFavourablePeriodIsLow(ps[..n], humThr, tMin, tMax);
    }
  }

  /** The normalised score is in [0, 100] and grows with the raw score. */
  lemma NormalizeMonotone(s1: real, s2: real)
    requires 0.0 <= s1 <= s2
    ensures 0.0 <= Normalize(s1) <= Normalize(s2) <= 100.0
  {
  }

  /** A higher normalised score never gives a lower level. */
  lemma LevelMonotone(n1: real, n2: real)
    requires n1 <= n2
    ensures Rank(LevelOf(n1)) <= Rank(LevelOf(n2))
  {
  }

  /** Each level above Low needs at least another 24 hours of favourable
      conditions: Moderate 24, High 48, Severe 72. */
  lemma LevelNeedsRiskHours(ps: seq<Period>, humThr: real, tMin: real, tMax: real)
    requires Scorable(ps, humThr, tMin, tMax) && HumidityPercent(ps)
    ensures FungalOutcome(ps, humThr, tMin, tMax).totalRiskHours >=
            24 * Rank(FungalOutcome(ps, humThr, tMin, tMax).level)
  {
    RiskScoreBounds(ps, humThr, tMin, tMax);
    var h := RiskHours(ps, humThr, tMin, tMax);
    var s := RiskScore(ps, humThr, tMin, tMax);
    var rank := Rank(FungalOutcome(ps, humThr, tMin, tMax).level);
    // A normalised score of 25 * rank needs a raw score of 35 * rank.
    assert s >= 35.0 * rank as real;
    assert h as real * 1.5 >= 35.0 * rank as real;
    assert h % 3 == 0;
  }

  /** Enough favourable hours force a level: 70 hours at least Moderate,
      140 at least High, 210 Severe. */
  lemma RiskHoursForceLevel(ps: seq<Period>, humThr: real, tMin: real, tMax: real)
    requires Scorable(ps, humThr, tMin, tMax) && HumidityPercent(ps)
    ensures RiskHours(ps, humThr, tMin, tMax) >= 70 ==> Rank(FungalOutcome(ps, humThr, tMin, tMax).level) >= 1
    ensures RiskHours(ps, humThr, tMin, tMax) >= 140 ==> Rank(FungalOutcome(ps, humThr, tMin, tMax).level) >= 2
    ensures RiskHours(ps, humThr, tMin, tMax) >= 210 ==> FungalOutcome(ps, humThr, tMin, tMax).level == Severe
  {
    RiskScoreBounds(ps, humThr, tMin, tMax);
  }

  lemma DivideBounds(a: real, b: real)
    requires 0.0 <= a <= b && b > 0.0
    ensures 0.0 <= a / b <= 1.0
    ensures a / b == 1.0 <==> a == b
    ensures a / b == 0.0 <==> a == 0.0
  {
    assert a / b * b == a;
  }

  lemma DivideMonotone(a1: real, a2: real, b: real)
    requires b > 0.0 && a1 <= a2
    ensures a1 / b <= a2 / b
  {
    assert a1 / b * b == a1 && a2 / b * b == a2;
  }
}
