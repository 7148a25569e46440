/**
 * The rule-based financial commentary of js/ai-analyst.js: two guarded
 * ratios and a fixed decision tree that yields a risk level and two
 * sentences. Timers, the scanning animation and number formatting are
 * presentation and are not modelled.
 */
module AiAnalyst {
  import opened Wrappers

  /** `parseFloat(field) || 0`: a field that does not parse (`NaN`, here `None`) counts as zero. */
  function OrZero(parsed: Option<real>): (v: real)
    ensures parsed.None? ==> v == 0.0
    ensures parsed.Some? ==> v == parsed.value
  {
    if parsed.Some? then parsed.value else 0.0
  }

  const RefusalMessage: string := "Please input at least Revenue or Assets to analyze."

  const LowMarginSentence: string :=
    "PROFITABILITY WARNING: Net margin is critically low. Immediate OPEX audit recommended. "
  const HighMarginSentence: string :=
    "STRONG EFFICIENCY: Margins exceed industry averages. Logic suggests reinvestment in growth. "
  const StableMarginSentence: string := "STABLE OPERATIONS: Margins are healthy. "

  const LowRatioSentence: string :=
    "LIQUIDITY ALERT: Current assets insufficient to cover short-term debt. Cash flow injection required."
  const HighRatioSentence: string :=
    "CAPITAL INEFFICIENCY DETECTED: Excess liquidity found. Suggest deploying capital into higher-yield vehicles."
  const OptimalRatioSentence: string := "SOLVENCY OPTIMAL: Balance sheet structure is sound."

  /** What one click of the analyse button produces. */
  datatype Analysis =
    | Refused(alert: string)
    | Report(margin: real, currentRatio: real, risk: string, insight: string, display: string)

  /** Net margin in percent; zero when there is no positive revenue to divide by. */
  function Margin(rev: real, exp: real): (m: real)
    ensures rev > 0.0 ==> m * rev == (rev - exp) * 100.0
    ensures rev <= 0.0 ==> m == 0.0
  {
    if rev > 0.0 then ((rev - exp) / rev) * 100.0 else 0.0
  }

  /** Current ratio; zero when there are no positive liabilities to divide by. */
  function CurrentRatio(assets: real, liab: real): (ratio: real)
    ensures liab > 0.0 ==> ratio * liab == assets
    ensures liab <= 0.0 ==> ratio == 0.0
  {
    if liab > 0.0 then assets / liab else 0.0
  }

  /** The profitability sentence: a warning below 5%, praise above 20%, otherwise stable. */
  function MarginSentence(margin: real): (s: string)
    ensures s == LowMarginSentence <==> margin < 5.0
    ensures s == HighMarginSentence <==> margin > 20.0
    ensures s == StableMarginSentence <==> 5.0 <= margin <= 20.0
  {
    if margin < 5.0 then LowMarginSentence
    else if margin > 20.0 then HighMarginSentence
    else StableMarginSentence
  }

  /** The liquidity sentence: an alert below 1.0, idle capital above 2.0, otherwise optimal. */
  function RatioSentence(ratio: real): (s: string)
    ensures s == LowRatioSentence <==> ratio < 1.0
    ensures s == HighRatioSentence <==> ratio > 2.0
    ensures s == OptimalRatioSentence <==> 1.0 <= ratio <= 2.0
  {
    if ratio < 1.0 then LowRatioSentence
    else if ratio > 2.0 then HighRatioSentence
    else OptimalRatioSentence
  }

  /** The risk level starts LOW and either branch of the tree may raise it to HIGH. */
  function Risk(margin: real, ratio: real): (risk: string)
    ensures risk == "HIGH" || risk == "LOW"
    ensures risk == "HIGH" <==> margin < 5.0 || ratio < 1.0
  {
    var afterMargin := if margin < 5.0 then "HIGH" else "LOW";
    if ratio < 1.0 then "HIGH" else afterMargin
  }

  /** The text shown in the insight panel. */
  function Display(risk: string, insight: string): (text: string)
    ensures |text| == |risk| + |insight| + 18
    ensures text[..13] == "[RISK LEVEL: " && text[13..13 + |risk|] == risk
    ensures text[13 + |risk|..18 + |risk|] == "] // " && text[|text| - |insight|..] == insight
  {
    "[RISK LEVEL: " + risk + "] // " + insight
  }

  /** The click handler: refuse when both revenue and assets are zero, otherwise analyse. */
  function Analyze(rev: real, exp: real, assets: real, liab: real): (a: Analysis)
    ensures a.Refused? <==> rev == 0.0 && assets == 0.0
    ensures a.Refused? ==> a.alert == RefusalMessage
    ensures a.Report? ==>
      && a.margin == Margin(rev, exp)
      && a.currentRatio == CurrentRatio(assets, liab)
      && a.insight == MarginSentence(a.margin) + RatioSentence(a.currentRatio)
      && a.risk == Risk(a.margin, a.currentRatio)
      && a.display == Display(a.risk, a.insight)
  {
    if rev == 0.0 && assets == 0.0 then Refused(RefusalMessage)
    else
      var margin := Margin(rev, exp);
      var ratio := CurrentRatio(assets, liab);
      var insight := MarginSentence(margin) + RatioSentence(ratio);
      var risk := Risk(margin, ratio);
      Report(margin, ratio, risk, insight, Display(risk, insight))
  }

  /** The insight is one of the three margin sentences followed by one of the three liquidity sentences. */
  lemma InsightShape(rev: real, exp: real, assets: real, liab: real)
    requires rev != 0.0 || assets != 0.0
    ensures var a := Analyze(rev, exp, assets, liab);
      exists m, r ::
        && m in {LowMarginSentence, HighMarginSentence, StableMarginSentence}
        && r in {LowRatioSentence, HighRatioSentence, OptimalRatioSentence}
        && a.insight == m + r
  {
    var a := Analyze(rev, exp, assets, liab);
    var m, r := MarginSentence(a.margin), RatioSentence(a.currentRatio);
    assert a.insight == m + r;
  }

  /** With no positive liabilities the ratio reads zero, so the risk is always HIGH. */
  lemma NoLiabilitiesIsHighRisk(rev: real, exp: real, assets: real, liab: real)
    requires rev != 0.0 || assets != 0.0
    requires liab <= 0.0
    ensures Analyze(rev, exp, assets, liab).risk == "HIGH"
    ensures Analyze(rev, exp, assets, liab).insight[|Analyze(rev, exp, assets, liab).insight| - |LowRatioSentence|..]
      == LowRatioSentence
  {
    var a := Analyze(rev, exp, assets, liab);
    var m := MarginSentence(a.margin);
    assert a.insight == m + LowRatioSentence;
    assert a.insight[|m|..] == LowRatioSentence;
  }

  /** Without positive revenue the margin reads zero, so the margin sentence is the warning. */
  lemma NoRevenueIsLowMargin(exp: real, assets: real, liab: real)
    requires assets != 0.0
    ensures var a := Analyze(0.0, exp, assets, liab);
      a.risk == "HIGH" && a.insight[..|LowMarginSentence|] == LowMarginSentence
  {
    var a := Analyze(0.0, exp, assets, liab);
    assert a.insight == LowMarginSentence + RatioSentence(a.currentRatio);
  }
}
