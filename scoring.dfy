/** `AI_INSIGHTS.calculateScore` and `AI_INSIGHTS.predictRevenue`: the
    per-contact quality score and revenue forecast. */
module Scoring {

  import opened Text
  import opened Contacts

  /** Company words worth the higher company term of the score. */
  const CompanyKeywords: seq<string> := ["tech", "ai", "software", "digital", "innovation"]

  /** Email markers worth the higher domain term of the score. */
  const PremiumDomains: seq<string> := ["@company.com", "@corp.com", "@enterprise.com"]

  /** `words.some(w => s.includes(w))`. */
  predicate MentionsAny(s: string, words: seq<string>) {
    words != [] && (Contains(s, words[0]) || MentionsAny(s, words[1..]))
  }

  lemma {:induction false} MentionsAnyIff(s: string, words: seq<string>)
    ensures MentionsAny(s, words) <==> exists k :: 0 <= k < |words| && Contains(s, words[k])
  {
    if words != [] {
      MentionsAnyIff(s, words[1..]);
      if exists k :: 0 <= k < |words| - 1 && Contains(s, words[1..][k]) {
        var k :| 0 <= k < |words| - 1 && Contains(s, words[1..][k]);
        assert Contains(s, words[k + 1]);
      }
      if exists k :: 0 <= k < |words| && Contains(s, words[k]) {
        var k :| 0 <= k < |words| && Contains(s, words[k]);
        if k > 0 {
          assert Contains(s, words[1..][k - 1]);
        }
      }
    }
  }

  /** The revenue term `min(revenue / 1000, 40)` after rounding: one point per
      thousand, halves up, at most 40. */
  function RevenuePoints(revenue: nat): nat {
    var p := (revenue + 500) / 1000;
    if p < 40 then p else 40
  }

  /** 30 for a company naming a technology keyword, 15 for any other
      company, nothing without a company. */
  function CompanyPoints(c: Contact): nat {
    if !HasCompany(c) then 0
    else if MentionsAny(Lower(c.company), CompanyKeywords) then 30
    else 15
  }

  /** 20 for an email carrying a premium marker, 10 otherwise. */
  function DomainPoints(c: Contact): nat {
    if MentionsAny(c.email, PremiumDomains) then 20 else 10
  }

  /** 10 for a name longer than ten characters, 5 otherwise. */
  function NamePoints(c: Contact): nat {
    if |c.name| > 10 then 10 else 5
  }

  /** The score as the sum of its four integer terms. The source's cap at 100
      never binds: the terms add up to at most 40 + 30 + 20 + 10. */
  function Score(c: Contact): (s: nat)
    ensures 15 <= s <= 100
    ensures (c.revenue >= 39500 && MentionsAny(Lower(c.company), CompanyKeywords) && HasCompany(c)
             && MentionsAny(c.email, PremiumDomains) && |c.name| > 10) ==> s == 100
  {
    RevenuePoints(c.revenue) + CompanyPoints(c) + DomainPoints(c) + NamePoints(c)
  }

  /** `score > 70`, the engine's threshold for a high-value contact. */
  predicate IsHighScore(c: Contact) {
    Score(c) > 70
  }

  /** The company, domain and name terms give at most 60 points, so a score
      above 70 needs at least 11 revenue points: a revenue of 10500 or more. */
  lemma HighScoreNeedsRevenue(c: Contact)
    requires IsHighScore(c)
    ensures c.revenue >= 10500
  {
    assert CompanyPoints(c) + DomainPoints(c) + NamePoints(c) <= 60;
    assert RevenuePoints(c.revenue) >= 11;
  }

  function MinReal(a: real, b: real): real {
    if a <= b then a else b
  }

  /** `calculateScore` as written: a real-valued running score, rounded and
      capped once at the end. It equals the integer sum of the four terms. */
  method CalculateScore(c: Contact) returns (score: int)
    ensures score == Score(c)
  {
    var acc: real := 0.0;
    var revenueTerm := MinReal(c.revenue as real / 1000.0, 40.0);
    acc := acc + revenueTerm;
    if HasCompany(c) {
      var hasKeyword := MentionsAny(Lower(c.company), CompanyKeywords);
      acc := acc + if hasKeyword then 30.0 else 15.0;
    }
    var isPremium := MentionsAny(c.email, PremiumDomains);
    acc := acc + if isPremium then 20.0 else 10.0;
    acc := acc + if |c.name| > 10 then 10.0 else 5.0;
    var rest := CompanyPoints(c) + DomainPoints(c) + NamePoints(c);
    assert acc == revenueTerm + rest as real;
    RoundRevenueTerm(c.revenue, rest);
    var rounded := Round(acc);
    score := if rounded < 100 then rounded else 100;
  }

  /** Rounding the capped revenue term plus a whole number of points. */
  lemma RoundRevenueTerm(revenue: nat, k: nat)
    ensures Round(MinReal(revenue as real / 1000.0, 40.0) + k as real) == RevenuePoints(revenue) + k
  {
    var x := revenue as real / 1000.0;
    if x <= 40.0 {
      var q := RoundedMean(revenue, 1000);
      assert q == (revenue + 500) / 1000;
      assert Round(x) == q;
      RoundShift(x, k);
    } else {
      assert revenue > 40000;
      assert (revenue + 500) / 1000 >= 40;
      RoundShift(40.0, k);
    }
  }

  lemma RoundShift(x: real, k: int)
    ensures Round(x + k as real) == Round(x) + k
  {
  }

  /** The multiplicative factors of the forecast, in the order of the
      source's `factors` object (the last one is the revenue itself). */
  function CompanySizeFactor(c: Contact): real {
    if |c.company| > 10 then 1.5 else 1.0
  }

  function EmailDomainFactor(c: Contact): real {
    if Contains(c.email, "@gmail.com") then 0.8 else 1.2
  }

  function NameLengthFactor(c: Contact): real {
    if |c.name| > 15 then 1.3 else 1.0
  }

  /** `predictRevenue`: `round(revenue · 1.2 · m)` where m is the product of
      the four factor values, the revenue included. Nothing is forecast
      exactly when there is no revenue. */
  function PredictRevenue(c: Contact): (p: nat)
    ensures p == 0 <==> c.revenue == 0
  {
    var r := c.revenue as real;
    var base := r * 1.2;
    var multiplier := 1.0 * CompanySizeFactor(c) * EmailDomainFactor(c) * NameLengthFactor(c) * r;
    var f := CompanySizeFactor(c) * EmailDomainFactor(c) * NameLengthFactor(c);
    assert multiplier == f * r;
    assert 0.8 <= f;
    ProductAtLeast(r, f);
    Round(base * multiplier)
  }

  lemma ProductAtLeast(r: real, f: real)
    requires r >= 0.0 && f >= 0.8
    ensures r * 1.2 * (f * r) >= 0.0
    ensures r >= 1.0 ==> r * 1.2 * (f * r) >= 0.96
  {
    assert r * 1.2 * (f * r) == 1.2 * f * (r * r);
    if r >= 1.0 {
      assert r * r >= 1.0;
      assert 1.2 * f >= 0.96;
    }
  }

  /** The forecast grows with the square of the revenue: it lies between the
      rounded 0.96·r² (combined factors at their smallest) and the rounded
      2.808·r² (all at their largest). */
  lemma PredictionIsQuadratic(c: Contact)
    ensures var r := c.revenue as real;
      0.96 * r * r - 0.5 < PredictRevenue(c) as real <= 2.808 * r * r + 0.5
  {
    var r := c.revenue as real;
    var f := CompanySizeFactor(c) * EmailDomainFactor(c) * NameLengthFactor(c);
    var v := r * 1.2 * (1.0 * CompanySizeFactor(c) * EmailDomainFactor(c) * NameLengthFactor(c) * r);
    assert v == 1.2 * f * (r * r);
    assert 0.96 <= 1.2 * f <= 2.808;
    assert r * r >= 0.0;
    assert 0.96 * (r * r) <= v <= 2.808 * (r * r);
  }

  /** From a revenue of 2 on, the forecast exceeds the current revenue. */
  lemma PredictionExceedsRevenue(c: Contact)
    requires c.revenue >= 2
    ensures PredictRevenue(c) > c.revenue
  {
    PredictionIsQuadratic(c);
    SquareOutgrows(c.revenue as real, PredictRevenue(c) as real);
  }

  lemma SquareOutgrows(r: real, p: real)
    requires r >= 2.0 && p > 0.96 * r * r - 0.5
    ensures p > r
  {
    assert r * r - 2.0 * r == r * (r - 2.0);
    assert 0.96 * r * r == 0.96 * (r * r);
  }
}
