/**
  The risk banding of `xvs_score` (and `bs4_xvs_score`, which decides the same way
  and differs only in markup). A score is a probability-like number; scores that
  are missing or not numeric display as "No Data".
 */
module Xvs {
  import opened Wrappers

  const HighFrom: real := 0.667
  const MediumFrom: real := 0.334

  /**
    A value `is_numeric` accepts: a finite number (an integer, a float or a numeric
    string), or one of the float specials INF, -INF and NAN.
   */
  datatype Number = Finite(x: real) | PosInf | NegInf | NaN

  /** `$x * 100` on such a value. */
  function Times100(n: Number): (r: Number)
    ensures n.Finite? <==> r.Finite?
    ensures n.Finite? ==> r.x == n.x * 100.0
    ensures !n.Finite? ==> r == n
  {
    match n
    case Finite(x) => Finite(x * 100.0)
    case _ => n
  }

  /** `$x >= c` for a constant c: false for NAN, true for INF, false for -INF. */
  predicate AtLeast(n: Number, c: real) {
    match n
    case Finite(x) => x >= c
    case PosInf => true
    case NegInf => false
    case NaN => false
  }

  /** `$x < c` for a constant c: false for NAN, false for INF, true for -INF. */
  predicate Below(n: Number, c: real) {
    match n
    case Finite(x) => x < c
    case PosInf => false
    case NegInf => true
    case NaN => false
  }

  /**
    What the card shows: the score (None shows "No Data"), the percentage (None
    shows "-"), the CSS colour class and the risk label.
   */
  datatype ScoreCard = ScoreCard(score: Option<Number>, percent: Option<Number>, css: string, risk: string)

  /**
    `xvs_score`. `score` is None when the argument is unset or `is_numeric` rejects
    it. The last `else` of the band tests is reached by NAN, which fails every
    comparison.
   */
  function XvsScore(score: Option<Number>): (r: ScoreCard)
    ensures score.None? ==> r == ScoreCard(None, None, "info", "-")
    ensures score.Some? ==> r.score == score && r.percent == Some(Times100(score.value))
    ensures score.Some? ==> (r.risk == "HIGH" <==> AtLeast(score.value, HighFrom))
    ensures score.Some? ==> (r.risk == "MEDIUM" <==> !AtLeast(score.value, HighFrom) && AtLeast(score.value, MediumFrom))
    ensures score.Some? ==> (r.risk == "LOW" <==> Below(score.value, MediumFrom))
    ensures score == Some(NaN) ==> r.risk == "-" && r.css == "info"
    ensures r.risk == "HIGH" <==> r.css == "danger"
    ensures r.risk == "MEDIUM" <==> r.css == "warning"
    ensures r.risk == "LOW" <==> r.css == "success"
  {
    match score
    case None => ScoreCard(None, None, "info", "-")
    case Some(x) =>
      var band :=
        if AtLeast(x, 0.667) then ("danger", "HIGH")
        else if AtLeast(x, 0.334) then ("warning", "MEDIUM")
        else if Below(x, 0.334) then ("success", "LOW")
        else ("info", "-");
      ScoreCard(score, Some(Times100(x)), band.0, band.1)
  }

  /** Position of a risk label on the scale LOW < MEDIUM < HIGH ("-" below all). */
  function RiskRank(risk: string): int {
    if risk == "HIGH" then 3 else if risk == "MEDIUM" then 2 else if risk == "LOW" then 1 else 0
  }

  /**
    Every numeric score other than NAN lands in exactly one of the three bands; a
    missing score and NAN get "-".
   */
  lemma BandsPartition(score: Option<Number>)
    ensures score.Some? && score.value != NaN <==> XvsScore(score).risk in {"HIGH", "MEDIUM", "LOW"}
    ensures score.None? || score == Some(NaN) <==> XvsScore(score).risk == "-"
  {
  }

  /** The order of scores: -INF below every finite number, INF above; NAN is not ordered. */
  predicate NoGreater(a: Number, b: Number) {
    match (a, b)
    case (Finite(x), Finite(y)) => x <= y
    case (NegInf, _) => b != NaN
    case (_, PosInf) => a != NaN
    case _ => false
  }

  /** A higher score never gets a lower risk. */
  lemma RiskMonotone(a: Number, b: Number)
    requires NoGreater(a, b)
    ensures RiskRank(XvsScore(Some(a)).risk) <= RiskRank(XvsScore(Some(b)).risk)
  {
  }
}
