/**
 * The greedy, ground-truth-first, one-to-one matcher: each ground-truth box,
 * in list order, takes the not-yet-used prediction with the highest IoU
 * (the first one scanned on ties) when that IoU strictly exceeds 0.5.
 */
module Matching {
  import opened Wrappers
  import opened Boxes

  const Threshold: real := 0.5

  /** A recorded pair (ground-truth index, prediction index). */
  datatype Match = Match(gt: int, pred: int)

  /** The running best of one scan: its IoU and prediction index (-1 for none yet). */
  datatype Candidate = Candidate(iou: real, pred: int)

  /**
   * The best unused prediction among preds[..n] for ground truth g, starting
   * from IoU 0 and index -1 and replacing the best only on a strictly larger
   * IoU. None when scoring some scanned pair divides by zero.
   */
  function Scan(score: (Box, Box) -> Option<real>, g: Box, preds: seq<Box>, used: set<int>, n: nat): (r: Option<Candidate>)
    requires n <= |preds|
    ensures r.Some? ==> r.value.iou >= 0.0 && -1 <= r.value.pred < n
    ensures r.Some? && r.value.pred == -1 ==> r.value.iou == 0.0
    ensures r.Some? && r.value.pred >= 0 ==> r.value.pred !in used && r.value.iou > 0.0
  {
    if n == 0 then Some(Candidate(0.0, -1))
    else
      match Scan(score, g, preds, used, n - 1)
      case None => None
      case Some(best) =>
        if n - 1 in used then Some(best)
        else
          match score(g, preds[n - 1])
          case None => None
          case Some(v) => if v > best.iou then Some(Candidate(v, n - 1)) else Some(best)
  }

  /**
   * A completed scan holds the first unused prediction of maximal IoU; its
   * IoU is 0 with index -1 only when no unused prediction scores above 0.
   */
  lemma {:induction false} ScanBest(score: (Box, Box) -> Option<real>, g: Box, preds: seq<Box>, used: set<int>, n: nat)
    requires n <= |preds| && Scan(score, g, preds, used, n).Some?
    ensures var c := Scan(score, g, preds, used, n).value;
            && (c.pred >= 0 ==> score(g, preds[c.pred]) == Some(c.iou))
            && (forall j :: 0 <= j < n && j !in used ==> score(g, preds[j]).Some? && score(g, preds[j]).value <= c.iou)
            && (forall j :: 0 <= j < c.pred && j !in used ==> score(g, preds[j]).value < c.iou)
  {
    if n > 0 {
      ScanBest(score, g, preds, used, n - 1);
    }
  }

  /** A scan raises exactly when some unused scanned prediction makes the IoU divide by zero. */
  lemma {:induction false} ScanFails(score: (Box, Box) -> Option<real>, g: Box, preds: seq<Box>, used: set<int>, n: nat)
    requires n <= |preds|
    ensures Scan(score, g, preds, used, n).None? <==> exists j :: 0 <= j < n && j !in used && score(g, preds[j]).None?
  {
    if n > 0 {
      ScanFails(score, g, preds, used, n - 1);
    }
  }

  /** The prediction indices already taken by a list of matches. */
  function UsedPreds(ms: seq<Match>): set<int> {
    set m | m in ms :: m.pred
  }

  /** The prediction indices taken by ground truths before index i. */
  function UsedBefore(ms: seq<Match>, i: int): set<int> {
    set m | m in ms && m.gt < i :: m.pred
  }

  /** Matches in the source's order, indices in range, ground truths increasing, predictions distinct. */
  predicate OneToOne(ms: seq<Match>, gtCount: nat, predCount: nat) {
    && (forall k :: 0 <= k < |ms| ==> 0 <= ms[k].gt < gtCount && 0 <= ms[k].pred < predCount)
    && (forall k, l :: 0 <= k < l < |ms| ==> ms[k].gt < ms[l].gt)
    && (forall k, l :: 0 <= k < l < |ms| ==> ms[k].pred != ms[l].pred)
  }

  /**
   * The matches after the first n ground truths have been processed; None when
   * some IoU computed on the way raises.
   */
  function Greedy(score: (Box, Box) -> Option<real>, gts: seq<Box>, preds: seq<Box>, n: nat): (r: Option<seq<Match>>)
    requires n <= |gts|
    ensures r.Some? ==> OneToOne(r.value, n, |preds|) && |r.value| <= n
  {
    if n == 0 then Some([])
    else
      match Greedy(score, gts, preds, n - 1)
      case None => None
      case Some(ms) =>
        match Scan(score, gts[n - 1], preds, UsedPreds(ms), |preds|)
        case None => None
        case Some(c) =>
          if c.iou > Threshold then
            AppendOneToOne(ms, Match(n - 1, c.pred), n, |preds|);
            Some(ms + [Match(n - 1, c.pred)])
          else Some(ms)
  }

  lemma AppendOneToOne(ms: seq<Match>, m: Match, n: nat, predCount: nat)
    requires n > 0 && OneToOne(ms, n - 1, predCount)
    requires m.gt == n - 1 && 0 <= m.pred < predCount && m.pred !in UsedPreds(ms)
    ensures OneToOne(ms + [m], n, predCount)
  {
    assert forall k :: 0 <= k < |ms| ==> ms[k] in ms && ms[k].pred in UsedPreds(ms);
  }

  lemma UsedBeforeAll(ms: seq<Match>, n: nat, predCount: nat)
    requires OneToOne(ms, n, predCount)
    ensures UsedBefore(ms, n) == UsedPreds(ms)
  {
  }

  lemma UsedBeforeUnchanged(ms: seq<Match>, extra: seq<Match>, n: nat, i: int)
    requires i <= n
    requires forall m :: m in extra ==> m.gt >= n
    ensures UsedBefore(ms + extra, i) == UsedBefore(ms, i)
  {
  }

  /**
   * Match m was the right choice for its ground truth given the predictions
   * `used` before it: unused, above the threshold, and the first unused
   * prediction of maximal IoU.
   */
  predicate BestChoice(score: (Box, Box) -> Option<real>, gts: seq<Box>, preds: seq<Box>, m: Match, used: set<int>)
    requires 0 <= m.gt < |gts| && 0 <= m.pred < |preds|
  {
    && m.pred !in used
    && score(gts[m.gt], preds[m.pred]).Some?
    && score(gts[m.gt], preds[m.pred]).value > Threshold
    && (forall j :: 0 <= j < |preds| && j !in used ==>
          score(gts[m.gt], preds[j]).Some? && score(gts[m.gt], preds[j]).value <= score(gts[m.gt], preds[m.pred]).value)
    && (forall j :: 0 <= j < m.pred && j !in used ==>
          score(gts[m.gt], preds[j]).value < score(gts[m.gt], preds[m.pred]).value)
  }

  /**
   * Every recorded match pairs a ground truth with the FIRST unused prediction
   * of maximal IoU (unused: not taken by an earlier ground truth), and that
   * IoU strictly exceeds the threshold.
   */
  lemma {:induction false} GreedyChoice(score: (Box, Box) -> Option<real>, gts: seq<Box>, preds: seq<Box>, n: nat, k: nat)
    requires n <= |gts| && Greedy(score, gts, preds, n).Some? && k < |Greedy(score, gts, preds, n).value|
    ensures var ms := Greedy(score, gts, preds, n).value;
            BestChoice(score, gts, preds, ms[k], UsedBefore(ms, ms[k].gt))
  {
    GreedyStep(score, gts, preds, n);
    var ms := Greedy(score, gts, preds, n).value;
    var prev := Greedy(score, gts, preds, n - 1).value;
    if k < |prev| {
      GreedyChoice(score, gts, preds, n - 1, k);
      ChoiceSurvivesStep(score, gts, preds, n, k);
    } else {
      ChoiceOfNewMatch(score, gts, preds, n);
    }
  }

  lemma ChoiceSurvivesStep(score: (Box, Box) -> Option<real>, gts: seq<Box>, preds: seq<Box>, n: nat, k: nat)
    requires 0 < n <= |gts| && Greedy(score, gts, preds, n).Some?
    requires Greedy(score, gts, preds, n - 1).Some? && k < |Greedy(score, gts, preds, n - 1).value|
    requires var prev := Greedy(score, gts, preds, n - 1).value;
      BestChoice(score, gts, preds, prev[k], UsedBefore(prev, prev[k].gt))
    ensures var ms := Greedy(score, gts, preds, n).value;
      k < |ms| && BestChoice(score, gts, preds, ms[k], UsedBefore(ms, ms[k].gt))
  {
    GreedyStep(score, gts, preds, n);
    var prev := Greedy(score, gts, preds, n - 1).value;
    var c := Scan(score, gts[n - 1], preds, UsedPreds(prev), |preds|).value;
    var extra := if c.iou > Threshold then [Match(n - 1, c.pred)] else [];
    UsedBeforeUnchanged(prev, extra, n - 1, prev[k].gt);
    assert (prev + extra)[k] == prev[k];
  }

  lemma ChoiceOfNewMatch(score: (Box, Box) -> Option<real>, gts: seq<Box>, preds: seq<Box>, n: nat)
    requires 0 < n <= |gts| && Greedy(score, gts, preds, n).Some? && Greedy(score, gts, preds, n - 1).Some?
    requires |Greedy(score, gts, preds, n - 1).value| < |Greedy(score, gts, preds, n).value|
    ensures var ms := Greedy(score, gts, preds, n).value;
      var k := |Greedy(score, gts, preds, n - 1).value|;
      BestChoice(score, gts, preds, ms[k], UsedBefore(ms, ms[k].gt))
  {
    GreedyStep(score, gts, preds, n);
    var prev := Greedy(score, gts, preds, n - 1).value;
    var c := Scan(score, gts[n - 1], preds, UsedPreds(prev), |preds|).value;
    var ms := prev + [Match(n - 1, c.pred)];
    assert ms[|prev|] == Match(n - 1, c.pred);
    UsedBeforeAll(prev, n - 1, |preds|);
    UsedBeforeUnchanged(prev, [Match(n - 1, c.pred)], n - 1, n - 1);
    ScanChoiceIsBest(score, gts, preds, n - 1, UsedPreds(prev), c);
  }

  lemma ScanChoiceIsBest(score: (Box, Box) -> Option<real>, gts: seq<Box>, preds: seq<Box>, i: nat, used: set<int>, c: Candidate)
    requires i < |gts| && Scan(score, gts[i], preds, used, |preds|) == Some(c) && c.iou > Threshold
    ensures 0 <= c.pred < |preds| && BestChoice(score, gts, preds, Match(i, c.pred), used)
  {
    ScanBest(score, gts[i], preds, used, |preds|);
  }

  /**
   * A ground truth left unmatched had no unused prediction (unused when its
   * turn came) with IoU above the threshold.
   */
  lemma {:induction false} GreedyUnmatched(score: (Box, Box) -> Option<real>, gts: seq<Box>, preds: seq<Box>, n: nat, i: nat)
    requires n <= |gts| && Greedy(score, gts, preds, n).Some? && i < n
    requires forall m :: m in Greedy(score, gts, preds, n).value ==> m.gt != i
    ensures var used := UsedBefore(Greedy(score, gts, preds, n).value, i);
            forall j :: 0 <= j < |preds| && j !in used ==>
              score(gts[i], preds[j]).Some? && score(gts[i], preds[j]).value <= Threshold
  {
    GreedyStep(score, gts, preds, n);
    var prev := Greedy(score, gts, preds, n - 1).value;
    if i < n - 1 {
      var c := Scan(score, gts[n - 1], preds, UsedPreds(prev), |preds|).value;
      UsedBeforeUnchanged(prev, if c.iou > Threshold then [Match(n - 1, c.pred)] else [], n - 1, i);
      GreedyUnmatched(score, gts, preds, n - 1, i);
    } else {
      UnmatchedAtTurn(score, gts, preds, n);
    }
  }

  /** One step of Greedy: the previous matches, extended by this ground truth's match if any. */
  lemma GreedyStep(score: (Box, Box) -> Option<real>, gts: seq<Box>, preds: seq<Box>, n: nat)
    requires 0 < n <= |gts| && Greedy(score, gts, preds, n).Some?
    ensures Greedy(score, gts, preds, n - 1).Some?
    ensures var prev := Greedy(score, gts, preds, n - 1).value;
            var c := Scan(score, gts[n - 1], preds, UsedPreds(prev), |preds|);
            && c.Some?
            && Greedy(score, gts, preds, n).value == prev + (if c.value.iou > Threshold then [Match(n - 1, c.value.pred)] else [])
  {
  }

  lemma UnmatchedAtTurn(score: (Box, Box) -> Option<real>, gts: seq<Box>, preds: seq<Box>, n: nat)
    requires 0 < n <= |gts| && Greedy(score, gts, preds, n).Some?
    requires forall m :: m in Greedy(score, gts, preds, n).value ==> m.gt != n - 1
    ensures var used := UsedBefore(Greedy(score, gts, preds, n).value, n - 1);
            forall j :: 0 <= j < |preds| && j !in used ==>
              score(gts[n - 1], preds[j]).Some? && score(gts[n - 1], preds[j]).value <= Threshold
  {
    GreedyStep(score, gts, preds, n);
    var ms := Greedy(score, gts, preds, n).value;
    var prev := Greedy(score, gts, preds, n - 1).value;
    var used := UsedPreds(prev);
    var c := Scan(score, gts[n - 1], preds, used, |preds|).value;
    assert c.iou <= Threshold;
    assert ms == prev;
    UsedBeforeAll(prev, n - 1, |preds|);
    ScanBest(score, gts[n - 1], preds, used, |preds|);
  }

  /** The index set {0, ..., count - 1}. */
  function Indices(count: nat): (r: set<int>)
    ensures forall j :: j in r <==> 0 <= j < count
    ensures |r| == count
  {
    if count == 0 then {} else Indices(count - 1) + {count - 1}
  }

  /** Distinct prediction indices drawn from a set b are at most |b| many. */
  lemma {:induction false} MatchesWithin(ms: seq<Match>, n: nat, predCount: nat, b: set<int>)
    requires OneToOne(ms, n, predCount) && UsedPreds(ms) <= b
    ensures |ms| <= |b|
  {
    if ms != [] {
      var init, last := ms[..|ms| - 1], ms[|ms| - 1];
      assert ms == init + [last];
      assert OneToOne(init, n, predCount);
      assert last.pred in b;
      assert forall k :: 0 <= k < |init| ==> init[k].pred != last.pred;
      assert UsedPreds(init) <= b - {last.pred};
      MatchesWithin(init, n, predCount, b - {last.pred});
    }
  }

  /** There are never more matches than ground truths or than predictions. */
  lemma GreedyCount(score: (Box, Box) -> Option<real>, gts: seq<Box>, preds: seq<Box>)
    requires Greedy(score, gts, preds, |gts|).Some?
    ensures |Greedy(score, gts, preds, |gts|).value| <= |gts|
    ensures |Greedy(score, gts, preds, |gts|).value| <= |preds|
  {
    var ms := Greedy(score, gts, preds, |gts|).value;
    MatchesWithin(ms, |gts|, |preds|, Indices(|preds|));
  }

  /** Once an IoU raises, every later stage raises too (the exception escapes the loops). */
  lemma {:induction false} GreedyFailurePersists(score: (Box, Box) -> Option<real>, gts: seq<Box>, preds: seq<Box>, i: nat, n: nat)
    requires i <= n <= |gts| && Greedy(score, gts, preds, i).None?
    ensures Greedy(score, gts, preds, n).None?
  {
    if n > i {
      GreedyFailurePersists(score, gts, preds, i, n - 1);
    }
  }

  /** Scan advanced by one prediction from the running best. */
  lemma ScanStep(score: (Box, Box) -> Option<real>, g: Box, preds: seq<Box>, used: set<int>, j: nat, best: Candidate)
    requires j < |preds| && Scan(score, g, preds, used, j) == Some(best)
    ensures Scan(score, g, preds, used, j + 1) ==
              if j in used then Some(best)
              else if score(g, preds[j]).None? then None
              else if score(g, preds[j]).value > best.iou then Some(Candidate(score(g, preds[j]).value, j))
              else Some(best)
  {
  }

  /** Greedy advanced by one ground truth whose completed scan is c. */
  lemma GreedyExtend(score: (Box, Box) -> Option<real>, gts: seq<Box>, preds: seq<Box>, i: nat,
                     matches: seq<Match>, c: Candidate)
    requires i < |gts| && Greedy(score, gts, preds, i) == Some(matches)
    requires Scan(score, gts[i], preds, UsedPreds(matches), |preds|) == Some(c)
    ensures Greedy(score, gts, preds, i + 1) ==
              Some(if c.iou > Threshold then matches + [Match(i, c.pred)] else matches)
  {
  }

  lemma UsedPredsAppend(ms: seq<Match>, m: Match)
    ensures UsedPreds(ms + [m]) == UsedPreds(ms) + {m.pred}
  {
  }

  /** The inner loop of the source: the best still-unused prediction for one ground truth. */
  method ScanPredictions(score: (Box, Box) -> Option<real>, g: Box, preds: seq<Box>, used: set<int>) returns (r: Option<Candidate>)
    ensures r == Scan(score, g, preds, used, |preds|)
  {
    var bestIou := 0.0;
    var bestPred := -1;
    var j := 0;
    while j < |preds|
      invariant 0 <= j <= |preds|
      invariant Scan(score, g, preds, used, j) == Some(Candidate(bestIou, bestPred))
    {
      ScanStep(score, g, preds, used, j, Candidate(bestIou, bestPred));
      if j !in used {
        var iou := score(g, preds[j]);
        if iou.None? {
          ScanFails(score, g, preds, used, |preds|);
          return None;
        }
        if iou.value > bestIou {
          bestIou, bestPred := iou.value, j;
        }
      }
      j := j + 1;
    }
    return Some(Candidate(bestIou, bestPred));
  }

  /** The matching loop of the source: nested scans over ground truths and predictions. */
  method GreedyMatch(score: (Box, Box) -> Option<real>, gts: seq<Box>, preds: seq<Box>) returns (r: Option<seq<Match>>)
    ensures r == Greedy(score, gts, preds, |gts|)
  {
    var matches: seq<Match> := [];
    var used: set<int> := {};
    var i := 0;
    while i < |gts|
      invariant 0 <= i <= |gts|
      invariant Greedy(score, gts, preds, i) == Some(matches)
      invariant used == UsedPreds(matches)
    {
      var best := ScanPredictions(score, gts[i], preds, used);
      if best.None? {
        GreedyFailurePersists(score, gts, preds, i + 1, |gts|);
        return None;
      }
      var bestIou, bestPred := best.value.iou, best.value.pred;
      GreedyExtend(score, gts, preds, i, matches, Candidate(bestIou, bestPred));
      if bestIou > Threshold {
        UsedPredsAppend(matches, Match(i, bestPred));
        matches := matches + [Match(i, bestPred)];
        used := used + {bestPred};
      }
      i := i + 1;
    }
    return Some(matches);
  }

  /**
   * Two ground truths at the same place and two detections scoring about 0.9
   * and 0.6 against both: the first ground truth takes the first-scanned
   * better detection, the second takes the remaining one, and no detection
   * is assigned twice.
   */
  lemma TwoOnTwoScenario()
    ensures Greedy(Iou, [Box(0.0, 0.0, 10.0, 10.0), Box(0.0, 0.0, 10.0, 10.0)],
                   [Box(0.0, 0.0, 10.0, 9.0), Box(0.0, 0.0, 10.0, 6.0)], 2)
      == Some([Match(0, 0), Match(1, 1)])
  {
    var g := Box(0.0, 0.0, 10.0, 10.0);
    var gts, preds := [g, g], [Box(0.0, 0.0, 10.0, 9.0), Box(0.0, 0.0, 10.0, 6.0)];
    TwoOnTwoScores();
    TwoOnTwoFirst();
    assert gts[1] == g && |preds| == 2;
    assert UsedPreds([Match(0, 0)]) == {0};
    assert Scan(Iou, g, preds, {0}, 0) == Some(Candidate(0.0, -1));
    assert Scan(Iou, g, preds, {0}, 1) == Some(Candidate(0.0, -1));
    assert Scan(Iou, g, preds, {0}, 2) == Some(Candidate(60.0 / (100.0 + Epsilon), 1));
    GreedyTakes(Iou, gts, preds, 2, [Match(0, 0)], Candidate(60.0 / (100.0 + Epsilon), 1));
    assert [Match(0, 0)] + [Match(1, 1)] == [Match(0, 0), Match(1, 1)];
  }

  lemma GreedyTakes(score: (Box, Box) -> Option<real>, gts: seq<Box>, preds: seq<Box>, n: nat, ms: seq<Match>, c: Candidate)
    requires 0 < n <= |gts| && Greedy(score, gts, preds, n - 1) == Some(ms)
    requires Scan(score, gts[n - 1], preds, UsedPreds(ms), |preds|) == Some(c) && c.iou > Threshold
    ensures Greedy(score, gts, preds, n) == Some(ms + [Match(n - 1, c.pred)])
  {
  }

  lemma TwoOnTwoScores()
    ensures Iou(Box(0.0, 0.0, 10.0, 10.0), Box(0.0, 0.0, 10.0, 9.0)) == Some(90.0 / (100.0 + Epsilon))
    ensures Iou(Box(0.0, 0.0, 10.0, 10.0), Box(0.0, 0.0, 10.0, 6.0)) == Some(60.0 / (100.0 + Epsilon))
    ensures Threshold < 60.0 / (100.0 + Epsilon) < 90.0 / (100.0 + Epsilon)
  {
    var g := Box(0.0, 0.0, 10.0, 10.0);
    var d0, d1 := Box(0.0, 0.0, 10.0, 9.0), Box(0.0, 0.0, 10.0, 6.0);
    assert Intersection(g, d0) == 90.0 && Area(g) == 100.0 && Area(d0) == 90.0;
    assert Intersection(g, d1) == 60.0 && Area(d1) == 60.0;
    assert 0.5 * (100.0 + Epsilon) < 60.0;
  }

  /** The first ground truth of the two-on-two scenario takes detection 0. */
  lemma TwoOnTwoFirst()
    ensures Greedy(Iou, [Box(0.0, 0.0, 10.0, 10.0), Box(0.0, 0.0, 10.0, 10.0)],
                   [Box(0.0, 0.0, 10.0, 9.0), Box(0.0, 0.0, 10.0, 6.0)], 1)
      == Some([Match(0, 0)])
  {
    var g := Box(0.0, 0.0, 10.0, 10.0);
    var gts, preds := [g, g], [Box(0.0, 0.0, 10.0, 9.0), Box(0.0, 0.0, 10.0, 6.0)];
    var v0 := 90.0 / (100.0 + Epsilon);
    TwoOnTwoScores();
    assert gts[0] == g && |preds| == 2;
    assert Greedy(Iou, gts, preds, 0) == Some([]);
    assert UsedPreds([]) == {};
    assert Scan(Iou, g, preds, {}, 0) == Some(Candidate(0.0, -1));
    assert Scan(Iou, g, preds, {}, 1) == Some(Candidate(v0, 0));
    assert Scan(Iou, g, preds, {}, 2) == Some(Candidate(v0, 0));
    assert [] + [Match(0, 0)] == [Match(0, 0)];
  }
}
