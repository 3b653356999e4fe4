/**
 * `getRecommendation`: the three-bucket sentiment summary of one country and
 * the recommendation derived from it by the 0.6 ratio thresholds. Both analyze
 * routes carry the same function.
 */
module Recommendation {

  /** `sentimentSummary`: how many articles landed in each bucket. */
  datatype Summary = Summary(positif: nat, netral: nat, negatif: nat)

  function Total(s: Summary): nat
  {
    s.positif + s.netral + s.negatif
  }

  /**
   * `getRecommendation`. The source compares `count / total >= 0.6` in
   * floating point; here the same test is the integer cross-multiplication
   * `5 * count >= 3 * total` (see GetRecommendationMatchesRatio).
   */
  function GetRecommendation(s: Summary): (r: string)
    ensures r == "POSITIF" || r == "NEGATIF" || r == "NETRAL"
  {
    var total := Total(s);
    if total == 0 then "NETRAL"
    else if 5 * s.positif >= 3 * total then "POSITIF"
    else if 5 * s.negatif >= 3 * total then "NEGATIF"
    else "NETRAL"
  }

  /** The recommendation as the source states it, with ratios over the reals. */
  ghost function RatioRecommendation(s: Summary): string
  {
    var total := Total(s);
    if total == 0 then "NETRAL"
    else if (s.positif as real) / (total as real) >= 0.6 then "POSITIF"
    else if (s.negatif as real) / (total as real) >= 0.6 then "NEGATIF"
    else "NETRAL"
  }

  /** `count / total >= 0.6` holds exactly when `5 * count >= 3 * total`. */
  lemma RatioAtLeastThreeFifths(count: nat, total: nat)
    requires total > 0
    ensures (count as real) / (total as real) >= 0.6 <==> 5 * count >= 3 * total
  {
    var c, t := count as real, total as real;
    var ratio := c / t;
    assert ratio * t == c;
    if ratio >= 0.6 {
      RealScaled(t, ratio, 0.6);
      assert 5.0 * c >= 3.0 * t;
    } else {
      RealScaled(t, 0.6, ratio);
      assert 5.0 * c < 3.0 * t;
    }
  }

  /** Multiplying by a positive real keeps the order. */
  lemma RealScaled(t: real, x: real, y: real)
    requires t > 0.0 && x >= y
    ensures x * t >= y * t
  {
    assert x * t - y * t == (x - y) * t;
  }

  /** The integer thresholds decide exactly as the ratio thresholds do. */
  lemma GetRecommendationMatchesRatio(s: Summary)
    ensures GetRecommendation(s) == RatioRecommendation(s)
  {
    if Total(s) > 0 {
      RatioAtLeastThreeFifths(s.positif, Total(s));
      RatioAtLeastThreeFifths(s.negatif, Total(s));
    }
  }

  function Scale(s: Summary, k: nat): Summary
  {
    Summary(k * s.positif, k * s.netral, k * s.negatif)
  }

  /** Multiplying both sides by a positive factor keeps a `>=` comparison. */
  lemma {:induction false} ScaledComparison(k: nat, a: nat, b: nat)
    requires k > 0
    ensures k * a >= k * b <==> a >= b
  {
    if k > 1 {
      ScaledComparison(k - 1, a, b);
      assert k * a == (k - 1) * a + a;
      assert k * b == (k - 1) * b + b;
    }
  }

  /** `c * (k * a) == k * (c * a)`, by induction on the factor `k`. */
  lemma {:induction false} ScaledProduct(k: nat, c: nat, a: nat)
    ensures c * (k * a) == k * (c * a)
  {
    if k > 0 {
      ScaledProduct(k - 1, c, a);
      assert k * a == (k - 1) * a + a;
      assert k * (c * a) == (k - 1) * (c * a) + c * a;
    }
  }

  /** `k * (a + b) == k * a + k * b`, by induction on `k`. */
  lemma {:induction false} Distribute(k: nat, a: nat, b: nat)
    ensures k * (a + b) == k * a + k * b
  {
    if k > 0 {
      Distribute(k - 1, a, b);
      assert k * (a + b) == (k - 1) * (a + b) + (a + b);
      assert k * a == (k - 1) * a + a;
      assert k * b == (k - 1) * b + b;
    }
  }

  /** The recommendation depends only on whether the total is empty and on the two threshold tests. */
  lemma SameTestsSameRecommendation(s: Summary, t: Summary)
    requires (Total(t) == 0) == (Total(s) == 0)
    requires (5 * t.positif >= 3 * Total(t)) == (5 * s.positif >= 3 * Total(s))
    requires (5 * t.negatif >= 3 * Total(t)) == (5 * s.negatif >= 3 * Total(s))
    ensures GetRecommendation(t) == GetRecommendation(s)
  {
  }

  /** Scaling multiplies the total by the same factor. */
  lemma ScaledTotal(s: Summary, k: nat)
    ensures Total(Scale(s, k)) == k * Total(s)
  {
    Distribute(k, s.positif, s.netral);
    Distribute(k, s.positif + s.netral, s.negatif);
  }

  /** A threshold test `5 * count >= 3 * total` is unchanged by scaling both sides. */
  lemma ScaledThreshold(k: nat, count: nat, total: nat)
    requires k > 0
    ensures (5 * (k * count) >= 3 * (k * total)) == (5 * count >= 3 * total)
  {
    ScaledProduct(k, 5, count);
    ScaledProduct(k, 3, total);
    ScaledComparison(k, 5 * count, 3 * total);
  }

  /** Only the proportions matter: scaling every bucket by the same factor keeps the recommendation. */
  lemma {:induction false} ScaleInvariant(s: Summary, k: nat)
    requires k > 0
    ensures GetRecommendation(Scale(s, k)) == GetRecommendation(s)
  {
    var t := Scale(s, k);
    ScaledTotal(s, k);
    ScaledComparison(k, Total(s), 1);
    ScaledThreshold(k, s.positif, Total(s));
    ScaledThreshold(k, s.negatif, Total(s));
    SameTestsSameRecommendation(s, t);
  }

  /**
   * The positive and negative thresholds never hold together, so checking
   * the positive one first only matters for the order in the code.
   */
  lemma ThresholdsExclusive(s: Summary)
    requires Total(s) > 0
    ensures !(5 * s.positif >= 3 * Total(s) && 5 * s.negatif >= 3 * Total(s))
  {
  }

  /** The boundary is inclusive: 6 positive out of 10 is POSITIF. */
  lemma BoundaryIsInclusive()
    ensures GetRecommendation(Summary(6, 0, 4)) == "POSITIF"
  {
  }

  /** Just under the boundary: 5 positive and 4 negative out of 10 is NETRAL. */
  lemma BelowBoundaryIsNeutral()
    ensures GetRecommendation(Summary(5, 1, 4)) == "NETRAL"
  {
  }
}
