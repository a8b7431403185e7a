/** Per-image counts and ratios derived from one matching. */
module Metrics {
  datatype ImageMetrics = ImageMetrics(tp: int, fp: int, fn: int, precision: real, recall: real)

  /**
   * tp = M, fp = P - M, fn = G - M; precision tp/(tp+fp) and recall
   * tp/(tp+fn), each 0 when its denominator is 0.
   */
  function ComputeMetrics(gtCount: nat, predCount: nat, matchCount: nat): (m: ImageMetrics)
    ensures m.tp == matchCount && m.tp + m.fp == predCount && m.tp + m.fn == gtCount
    ensures predCount == 0 ==> m.precision == 0.0
    ensures gtCount == 0 ==> m.recall == 0.0
    ensures predCount > 0 ==> m.precision * predCount as real == matchCount as real
    ensures gtCount > 0 ==> m.recall * gtCount as real == matchCount as real
  {
    var tp := matchCount;
    var fp := predCount - tp;
    var fn := gtCount - tp;
    var precision := if tp + fp > 0 then tp as real / (tp + fp) as real else 0.0;
    var recall := if tp + fn > 0 then tp as real / (tp + fn) as real else 0.0;
    ImageMetrics(tp, fp, fn, precision, recall)
  }

  /** Whether a metrics record has the shape a one-to-one matching produces. */
  predicate Sound(m: ImageMetrics) {
    m.fp >= 0 && m.fn >= 0 && 0.0 <= m.precision <= 1.0 && 0.0 <= m.recall <= 1.0
  }

  /**
   * With no more matches than ground truths or predictions: the counts are
   * non-negative, both ratios lie in [0, 1], a ratio is 1 exactly when every
   * box on its side is matched, and 0 exactly when nothing is matched.
   */
  lemma MetricsBounds(gtCount: nat, predCount: nat, matchCount: nat)
    requires matchCount <= gtCount && matchCount <= predCount
    ensures Sound(ComputeMetrics(gtCount, predCount, matchCount))
    ensures ComputeMetrics(gtCount, predCount, matchCount).precision == 1.0 <==> predCount > 0 && matchCount == predCount
    ensures ComputeMetrics(gtCount, predCount, matchCount).recall == 1.0 <==> gtCount > 0 && matchCount == gtCount
    ensures ComputeMetrics(gtCount, predCount, matchCount).precision == 0.0 <==> matchCount == 0
    ensures ComputeMetrics(gtCount, predCount, matchCount).recall == 0.0 <==> matchCount == 0
  {
    RatioBounds(matchCount, predCount);
    RatioBounds(matchCount, gtCount);
  }

  lemma RatioBounds(num: nat, den: nat)
    requires num <= den
    ensures var r := if den > 0 then num as real / den as real else 0.0;
            && 0.0 <= r <= 1.0
            && (r == 1.0 <==> den > 0 && num == den)
            && (r == 0.0 <==> num == 0)
  {
    if den > 0 {
      var r := num as real / den as real;
      assert r * den as real == num as real;
    }
  }
}
