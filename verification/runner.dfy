/**
 * The batch evaluation run: images in fixed-size batches, one outcome per
 * image (skipped, failed, no predictions, evaluated), the precision/recall
 * accumulator, and the final means.
 */
module Runner {
  import opened Wrappers
  import opened Boxes
  import opened Labels
  import opened Matching
  import opened Metrics

  const BatchSize: nat := 5

  /** The label file next to an image: absent, unreadable, or its lines split into fields. */
  datatype LabelSource = NoLabelFile | UnreadableLabel | LabelLines(lines: seq<seq<Token>>)

  /** Pixel size of a decoded image. */
  datatype Dims = Dims(width: nat, height: nat)

  /** What the detection model does for one image: raises, or returns corner boxes. */
  datatype Inference = InferenceRaised | Detections(boxes: seq<Box>)

  /**
   * Everything the run learns from outside about one image: its label file,
   * the decoder's answer (None when it cannot read the image), and the model's answer.
   */
  datatype ImageRecord = ImageRecord(labelFile: LabelSource, decoded: Option<Dims>, inference: Inference)

  datatype SkipReason = MissingLabel | EmptyLabel | DecodeFailure
  datatype FailReason = LabelReadError | LabelValueError | InferenceError | IouZeroDivision

  datatype ImageResult =
    | Skipped(reason: SkipReason)
    | Failed(error: FailReason)
    | NoPredictions
    | Evaluated(metrics: ImageMetrics)

  /** Outcomes that append to the accumulator. */
  predicate Contributes(r: ImageResult) {
    r.NoPredictions? || r.Evaluated?
  }

  /** The ground-truth rows of an image whose label file exists, is readable and loads. */
  function LabelRows(rec: ImageRecord): Option<seq<Label>> {
    if rec.labelFile.LabelLines? then ParseLabels(rec.labelFile.lines) else None
  }

  /** The label file loads to at least one row. */
  predicate HasGroundTruth(rec: ImageRecord) {
    LabelRows(rec).Some? && LabelRows(rec).value != []
  }

  /** The ground-truth boxes in pixels of an image with ground truth that decodes. */
  function GroundTruthBoxes(rec: ImageRecord): seq<Box>
    requires HasGroundTruth(rec) && rec.decoded.Some?
  {
    YoloToXyxy(LabelRows(rec).value, rec.decoded.value.width, rec.decoded.value.height)
  }

  /** The image has ground truth, decodes, and the model returns at least one detection. */
  predicate ReachesMatcher(rec: ImageRecord) {
    HasGroundTruth(rec) && rec.decoded.Some? && rec.inference.Detections? && rec.inference.boxes != []
  }

  /**
   * The per-image pipeline: label lookup, label parsing, decoding,
   * conversion, inference, matching and metrics, with the source's skip
   * and exception paths.
   */
  function ProcessImage(rec: ImageRecord): (res: ImageResult)
    ensures rec.labelFile.NoLabelFile? ==> res == Skipped(MissingLabel)
    ensures res.Evaluated? ==> Sound(res.metrics) && res.metrics.tp + res.metrics.fp > 0 && res.metrics.tp + res.metrics.fn > 0
  {
    match rec.labelFile
    case NoLabelFile => Skipped(MissingLabel)
    case UnreadableLabel => Failed(LabelReadError)
    case LabelLines(lines) =>
      match ParseLabels(lines)
      case None => Failed(LabelValueError)
      case Some(rows) =>
        if rows == [] then Skipped(EmptyLabel)
        else
          match rec.decoded
          case None => Skipped(DecodeFailure)
          case Some(dims) =>
            var gts := YoloToXyxy(rows, dims.width, dims.height);
            match rec.inference
            case InferenceRaised => Failed(InferenceError)
            case Detections(preds) =>
              if preds == [] then NoPredictions
              else
                match Greedy(Iou, gts, preds, |gts|)
                case None => Failed(IouZeroDivision)
                case Some(ms) =>
                  GreedyCount(Iou, gts, preds);
                  MetricsBounds(|gts|, |preds|, |ms|);
                  Evaluated(ComputeMetrics(|gts|, |preds|, |ms|))
  }

  /**
   * Which outcome each image gets: the label checks come first, then the
   * decoder, then the model, and only an image with ground truth, pixels and
   * at least one detection reaches the matcher.
   */
  lemma ProcessImageOutcomes(rec: ImageRecord)
    ensures rec.labelFile.UnreadableLabel? ==> ProcessImage(rec) == Failed(LabelReadError)
    ensures ProcessImage(rec) == Failed(LabelValueError) <==>
      rec.labelFile.LabelLines? && exists i :: 0 <= i < |rec.labelFile.lines| && ParseLine(rec.labelFile.lines[i]).Malformed?
    ensures LabelRows(rec) == Some([]) ==> ProcessImage(rec) == Skipped(EmptyLabel)
    ensures HasGroundTruth(rec) && rec.decoded.None? ==> ProcessImage(rec) == Skipped(DecodeFailure)
    ensures HasGroundTruth(rec) && rec.decoded.Some? && rec.inference.InferenceRaised? ==> ProcessImage(rec) == Failed(InferenceError)
    ensures ProcessImage(rec) == NoPredictions <==> HasGroundTruth(rec) && rec.decoded.Some? && rec.inference == Detections([])
    ensures ReachesMatcher(rec) ==>
      (ProcessImage(rec) == Failed(IouZeroDivision) <==> Greedy(Iou, GroundTruthBoxes(rec), rec.inference.boxes, |GroundTruthBoxes(rec)|).None?)
    ensures ProcessImage(rec).Evaluated? ==>
      ReachesMatcher(rec) && Greedy(Iou, GroundTruthBoxes(rec), rec.inference.boxes, |GroundTruthBoxes(rec)|).Some?
  {
    if rec.labelFile.LabelLines? {
      ParseLabelsFails(rec.labelFile.lines);
    }
  }

  /** The body of the per-image try block, built from the loading and matching loops. */
  method EvaluateImage(rec: ImageRecord) returns (res: ImageResult)
    ensures res == ProcessImage(rec)
  {
    match rec.labelFile
    case NoLabelFile => return Skipped(MissingLabel);
    case UnreadableLabel => return Failed(LabelReadError);
    case LabelLines(lines) =>
      var rows := LoadLabels(lines);
      if rows.None? {
        return Failed(LabelValueError);
      }
      if rows.value == [] {
        return Skipped(EmptyLabel);
      }
      if rec.decoded.None? {
        return Skipped(DecodeFailure);
      }
      var gts := YoloToXyxy(rows.value, rec.decoded.value.width, rec.decoded.value.height);
      if rec.inference.InferenceRaised? {
        return Failed(InferenceError);
      }
      var preds := rec.inference.boxes;
      if |preds| == 0 {
        return NoPredictions;
      }
      var matches := GreedyMatch(Iou, gts, preds);
      if matches.None? {
        return Failed(IouZeroDivision);
      }
      return Evaluated(ComputeMetrics(|gts|, |preds|, |matches.value|));
  }

  function Results(images: seq<ImageRecord>): (rs: seq<ImageResult>)
    ensures |rs| == |images|
  {
    seq(|images|, i requires 0 <= i < |images| => ProcessImage(images[i]))
  }

  /** The accumulator: all_precisions, all_recalls and valid_images. */
  datatype Tally = Tally(precisions: seq<real>, recalls: seq<real>, valid: nat)

  /** Adds one image's outcome to the accumulator. */
  function Record(t: Tally, r: ImageResult): (t': Tally)
    ensures !Contributes(r) ==> t' == t
    ensures Contributes(r) ==>
      |t'.precisions| == |t.precisions| + 1 && t'.precisions[..|t.precisions|] == t.precisions &&
      |t'.recalls| == |t.recalls| + 1 && t'.recalls[..|t.recalls|] == t.recalls
    ensures r.NoPredictions? ==> t'.precisions[|t.precisions|] == 0.0 && t'.recalls[|t.recalls|] == 0.0
    ensures r.Evaluated? ==> t'.precisions[|t.precisions|] == r.metrics.precision && t'.recalls[|t.recalls|] == r.metrics.recall
    ensures t'.valid == t.valid + (if r.Evaluated? then 1 else 0)
  {
    match r
    case Evaluated(m) => Tally(t.precisions + [m.precision], t.recalls + [m.recall], t.valid + 1)
    case NoPredictions => Tally(t.precisions + [0.0], t.recalls + [0.0], t.valid)
    case _ => t
  }

  function ContributingCount(rs: seq<ImageResult>): nat {
    if rs == [] then 0
    else ContributingCount(rs[..|rs| - 1]) + (if Contributes(rs[|rs| - 1]) then 1 else 0)
  }

  function EvaluatedCount(rs: seq<ImageResult>): nat {
    if rs == [] then 0
    else EvaluatedCount(rs[..|rs| - 1]) + (if rs[|rs| - 1].Evaluated? then 1 else 0)
  }

  /**
   * The accumulator after a sequence of outcomes: one precision/recall pair
   * per evaluated or zero-prediction image, and valid_images counts only the
   * evaluated ones, so it never exceeds the number of pairs.
   */
  function TallyOf(rs: seq<ImageResult>): (t: Tally)
    ensures |t.precisions| == |t.recalls| == ContributingCount(rs)
    ensures t.valid == EvaluatedCount(rs) <= |t.precisions|
  {
    if rs == [] then Tally([], [], 0)
    else Record(TallyOf(rs[..|rs| - 1]), rs[|rs| - 1])
  }

  function Sum(s: seq<real>): real {
    if s == [] then 0.0 else Sum(s[..|s| - 1]) + s[|s| - 1]
  }

  /** The run's final report. */
  datatype Summary = Means(meanPrecision: real, meanRecall: real) | NoValidImages

  /**
   * Finalisation: when valid_images > 0, the means over ALL accumulated
   * pairs (zero-prediction images included); otherwise no means.
   */
  function Finalise(t: Tally): (s: Summary)
    requires |t.precisions| == |t.recalls| && t.valid <= |t.precisions|
    ensures s.Means? <==> t.valid > 0
    ensures s.Means? ==> s.meanPrecision * |t.precisions| as real == Sum(t.precisions)
    ensures s.Means? ==> s.meanRecall * |t.recalls| as real == Sum(t.recalls)
  {
    if t.valid > 0 then Means(Sum(t.precisions) / |t.precisions| as real, Sum(t.recalls) / |t.recalls| as real)
    else NoValidImages
  }

  /** How many images the loop reaches: all of them, or those before the interrupt. */
  function Processed(n: nat, interrupt: Option<nat>): (k: nat)
    ensures k <= n
  {
    match interrupt
    case None => n
    case Some(at) => if at < n then at else n
  }

  function MinNat(a: nat, b: nat): nat { if a <= b then a else b }

  lemma ResultsSnoc(images: seq<ImageRecord>, k: nat)
    requires k < |images|
    ensures Results(images[..k + 1]) == Results(images[..k]) + [ProcessImage(images[k])]
  {
  }

  lemma TallySnoc(rs: seq<ImageResult>, r: ImageResult)
    ensures TallyOf(rs + [r]) == Record(TallyOf(rs), r)
  {
    assert (rs + [r])[..|rs|] == rs;
  }

  /** One more image processed extends the accumulator by that image's outcome. */
  lemma RunStep(images: seq<ImageRecord>, k: nat, res: ImageResult)
    requires k < |images| && res == ProcessImage(images[k])
    ensures TallyOf(Results(images[..k + 1])) == Record(TallyOf(Results(images[..k])), res)
  {
    ResultsSnoc(images, k);
    TallySnoc(Results(images[..k]), res);
  }

  /** Consecutive slices of BatchSize images, the last one possibly shorter. */
  function Batches(s: seq<ImageRecord>): (bs: seq<seq<ImageRecord>>)
    ensures |bs| == (|s| + BatchSize - 1) / BatchSize
    decreases |s|
  {
    if |s| == 0 then []
    else if |s| <= BatchSize then [s]
    else [s[..BatchSize]] + Batches(s[BatchSize..])
  }

  function Flatten(bs: seq<seq<ImageRecord>>): seq<ImageRecord> {
    if bs == [] then [] else bs[0] + Flatten(bs[1..])
  }

  /** The batches cover every image exactly once, in order. */
  lemma {:induction false} BatchesCover(s: seq<ImageRecord>)
    ensures Flatten(Batches(s)) == s
    decreases |s|
  {
    if |s| > BatchSize {
      BatchesCover(s[BatchSize..]);
      assert s[..BatchSize] + s[BatchSize..] == s;
    }
  }

  /** Batch k is the slice starting at k * BatchSize, non-empty and at most BatchSize long. */
  lemma {:induction false} BatchShape(s: seq<ImageRecord>, k: nat)
    requires k < |Batches(s)|
    ensures k * BatchSize < |s|
    ensures Batches(s)[k] == s[k * BatchSize..MinNat(k * BatchSize + BatchSize, |s|)]
    ensures 0 < |Batches(s)[k]| <= BatchSize
    decreases |s|
  {
    if |s| > BatchSize && k > 0 {
      BatchShape(s[BatchSize..], k - 1);
      assert Batches(s)[k] == Batches(s[BatchSize..])[k - 1];
      var rest := s[BatchSize..];
      var lo := (k - 1) * BatchSize;
      var hi := MinNat(lo + BatchSize, |rest|);
      assert lo + BatchSize == k * BatchSize;
      assert hi + BatchSize == MinNat(k * BatchSize + BatchSize, |s|);
      assert rest[lo..hi] == s[lo + BatchSize..hi + BatchSize];
      assert rest[(k - 1) * BatchSize..MinNat((k - 1) * BatchSize + BatchSize, |rest|)]
          == s[k * BatchSize..MinNat(k * BatchSize + BatchSize, |s|)];
    }
  }

  /**
   * The slice the run takes at the start of batch k, `images[5k:5k + 5]`
   * with Python's clamping, is the k-th batch.
   */
  lemma BatchAt(s: seq<ImageRecord>, k: nat)
    requires BatchSize * k < |s|
    ensures k < |Batches(s)|
    ensures Batches(s)[k] == s[BatchSize * k..MinNat(BatchSize * k + BatchSize, |s|)]
  {
    assert k < (|s| + BatchSize - 1) / BatchSize;
    BatchShape(s, k);
  }

  /** A skipped or failed image leaves no trace in the accumulator, wherever it sits in the run. */
  lemma {:induction false} NonContributingIgnored(a: seq<ImageResult>, r: ImageResult, b: seq<ImageResult>)
    requires !Contributes(r)
    ensures TallyOf(a + [r] + b) == TallyOf(a + b)
    decreases |b|
  {
    if b == [] {
      assert a + [r] + b == a + [r];
      assert a + b == a;
      TallySnoc(a, r);
    } else {
      var b' := b[..|b| - 1];
      var x := b[|b| - 1];
      NonContributingIgnored(a, r, b');
      assert a + [r] + b == (a + [r] + b') + [x];
      assert a + b == (a + b') + [x];
      TallySnoc(a + [r] + b', x);
      TallySnoc(a + b', x);
    }
  }

  predicate InUnitInterval(s: seq<real>) {
    forall i :: 0 <= i < |s| ==> 0.0 <= s[i] <= 1.0
  }

  predicate AllSound(rs: seq<ImageResult>) {
    forall i :: 0 <= i < |rs| ==> (rs[i].Evaluated? ==> Sound(rs[i].metrics))
  }

  lemma ResultsSound(images: seq<ImageRecord>)
    ensures AllSound(Results(images))
  {
  }

  /** Every accumulated precision and recall lies in [0, 1]. */
  lemma {:induction false} TallyInUnitInterval(rs: seq<ImageResult>)
    requires AllSound(rs)
    ensures InUnitInterval(TallyOf(rs).precisions) && InUnitInterval(TallyOf(rs).recalls)
  {
    if rs != [] {
      TallyInUnitInterval(rs[..|rs| - 1]);
    }
  }

  lemma {:induction false} SumBounds(s: seq<real>)
    requires InUnitInterval(s)
    ensures 0.0 <= Sum(s) <= |s| as real
  {
    if s != [] {
      SumBounds(s[..|s| - 1]);
    }
  }

  /** The final means of any run lie in [0, 1]. */
  lemma MeansInUnitInterval(images: seq<ImageRecord>, interrupt: Option<nat>)
    ensures var s := Finalise(TallyOf(Results(images[..Processed(|images|, interrupt)])));
      s.Means? ==> 0.0 <= s.meanPrecision <= 1.0 && 0.0 <= s.meanRecall <= 1.0
  {
    var t := TallyOf(Results(images[..Processed(|images|, interrupt)]));
    ResultsSound(images[..Processed(|images|, interrupt)]);
    TallyInUnitInterval(Results(images[..Processed(|images|, interrupt)]));
    SumBounds(t.precisions);
    SumBounds(t.recalls);
    if t.valid > 0 {
      var n := |t.precisions| as real;
      DivBounds(Sum(t.precisions), n);
      DivBounds(Sum(t.recalls), n);
    }
  }

  lemma DivBounds(x: real, n: real)
    requires n > 0.0 && 0.0 <= x <= n
    ensures 0.0 <= x / n <= 1.0
  {
    assert x / n * n == x;
  }

  lemma {:induction false} NoEvaluatedCountsZero(rs: seq<ImageResult>)
    requires forall i :: 0 <= i < |rs| ==> !rs[i].Evaluated?
    ensures EvaluatedCount(rs) == 0
  {
    if rs != [] {
      NoEvaluatedCountsZero(rs[..|rs| - 1]);
    }
  }

  /**
   * A run in which no image reaches the metrics step reports no means, even
   * when zero-prediction images have put zeros in the accumulator.
   */
  lemma NoEvaluatedNoMeans(rs: seq<ImageResult>)
    requires forall i :: 0 <= i < |rs| ==> !rs[i].Evaluated?
    ensures Finalise(TallyOf(rs)) == NoValidImages
  {
    NoEvaluatedCountsZero(rs);
  }

  /**
   * A zero-prediction image does not count as valid, yet its zeros enter the
   * means: one perfect image and one image without predictions average to 0.5.
   */
  lemma ZeroPredictionsDiluteMeans()
    ensures Finalise(TallyOf([Evaluated(ImageMetrics(1, 0, 0, 1.0, 1.0)), NoPredictions])) == Means(0.5, 0.5)
    ensures TallyOf([Evaluated(ImageMetrics(1, 0, 0, 1.0, 1.0)), NoPredictions]).valid == 1
  {
    var rs := [Evaluated(ImageMetrics(1, 0, 0, 1.0, 1.0)), NoPredictions];
    assert rs[..1][..0] == [];
    assert rs[..1] == [Evaluated(ImageMetrics(1, 0, 0, 1.0, 1.0))];
    assert rs[..|rs| - 1] == rs[..1];
    var t := TallyOf(rs);
    assert t == Tally([1.0, 0.0], [1.0, 0.0], 1);
    assert [1.0, 0.0][..1] == [1.0];
    assert [1.0][..0] == [];
    assert Sum([1.0, 0.0]) == 1.0;
  }

  /**
   * An image whose label parses to rows, whose pixels decode and whose
   * detections are non-empty is evaluated on the greedy matches.
   */
  lemma EvaluatedPath(rec: ImageRecord, rows: seq<Label>, ms: seq<Match>)
    requires rec.labelFile.LabelLines? && ParseLabels(rec.labelFile.lines) == Some(rows) && rows != []
    requires rec.decoded.Some? && rec.inference.Detections? && rec.inference.boxes != []
    requires Greedy(Iou, YoloToXyxy(rows, rec.decoded.value.width, rec.decoded.value.height), rec.inference.boxes, |rows|) == Some(ms)
    ensures ProcessImage(rec) == Evaluated(ComputeMetrics(|rows|, |rec.inference.boxes|, |ms|))
  {
    var gts := YoloToXyxy(rows, rec.decoded.value.width, rec.decoded.value.height);
    assert |gts| == |rows|;
    assert Greedy(Iou, gts, rec.inference.boxes, |gts|) == Some(ms);
  }

  /** One ground-truth box (class 0, centre (0.5, 0.5), size 0.2 x 0.2) on a 100 x 100 image. */
  const ScenarioRow: Label := Label(0.0, 0.5, 0.5, 0.2, 0.2)
  const ScenarioLabel: LabelSource := LabelLines([[Number(0.0), Number(0.5), Number(0.5), Number(0.2), Number(0.2)]])
  const ScenarioGt: Box := Box(40.0, 40.0, 60.0, 60.0)

  /** The scenario's label file parses to its one row, which lands on (40, 40, 60, 60). */
  lemma ScenarioGroundTruth()
    ensures ParseLabels(ScenarioLabel.lines) == Some([ScenarioRow])
    ensures YoloToXyxy([ScenarioRow], 100, 100) == [ScenarioGt]
  {
    var lines := ScenarioLabel.lines;
    assert |lines| == 1 && lines[..|lines| - 1] == [];
    assert ParseLabels([]) == Some([]);
    assert ParseLine(lines[|lines| - 1]) == Row(ScenarioRow);
    assert [] + [ScenarioRow] == [ScenarioRow];
    assert ToCorners(ScenarioRow, 100, 100) == ScenarioGt;
  }

  /** Pushes a scenario through the pipeline once its ground truth and matches are known. */
  lemma ScenarioPipeline(preds: seq<Box>, ms: seq<Match>)
    requires preds != []
    requires Greedy(Iou, [ScenarioGt], preds, 1) == Some(ms)
    ensures ProcessImage(ImageRecord(ScenarioLabel, Some(Dims(100, 100)), Detections(preds)))
      == Evaluated(ComputeMetrics(1, |preds|, |ms|))
  {
    ScenarioGroundTruth();
    EvaluatedPath(ImageRecord(ScenarioLabel, Some(Dims(100, 100)), Detections(preds)), [ScenarioRow], ms);
  }

  /** A detection on top of the ground truth is a true positive. */
  lemma ScenarioExactHit()
    ensures ProcessImage(ImageRecord(ScenarioLabel, Some(Dims(100, 100)), Detections([ScenarioGt])))
      == Evaluated(ImageMetrics(1, 0, 0, 1.0, 1.0))
  {
    var gt := ScenarioGt;
    assert Area(gt) == 400.0;
    IouIdentical(gt);
    var v := Iou(gt, gt).value;
    assert v > Threshold;
    assert Greedy(Iou, [gt], [gt], 0) == Some([]);
    assert UsedPreds([]) == {};
    assert Scan(Iou, gt, [gt], {}, 0) == Some(Candidate(0.0, -1));
    assert Scan(Iou, gt, [gt], {}, 1) == Some(Candidate(v, 0));
    assert [gt][0] == gt && [] + [Match(0, 0)] == [Match(0, 0)];
    assert Greedy(Iou, [gt], [gt], 1) == Some([Match(0, 0)]);
    ScenarioPipeline([gt], [Match(0, 0)]);
  }

  /** A detection that misses the ground truth is one false positive and one false negative. */
  lemma ScenarioMiss()
    ensures ProcessImage(ImageRecord(ScenarioLabel, Some(Dims(100, 100)), Detections([Box(70.0, 70.0, 90.0, 90.0)])))
      == Evaluated(ImageMetrics(0, 1, 1, 0.0, 0.0))
  {
    var gt := ScenarioGt;
    var p := Box(70.0, 70.0, 90.0, 90.0);
    assert Intersection(gt, p) == 0.0;
    assert Iou(gt, p) == Some(0.0);
    assert Greedy(Iou, [gt], [p], 0) == Some([]);
    assert UsedPreds([]) == {};
    assert Scan(Iou, gt, [p], {}, 0) == Some(Candidate(0.0, -1));
    assert Scan(Iou, gt, [p], {}, 1) == Some(Candidate(0.0, -1));
    assert Greedy(Iou, [gt], [p], 1) == Some([]);
    ScenarioPipeline([p], []);
  }

  /** Evaluates one image and appends its outcome to the accumulator. */
  method EvaluateAndRecord(t: Tally, rec: ImageRecord) returns (t': Tally)
    ensures t' == Record(t, ProcessImage(rec))
  {
    var res := EvaluateImage(rec);
    match res {
      case Evaluated(m) =>
        t' := Tally(t.precisions + [m.precision], t.recalls + [m.recall], t.valid + 1);
      case NoPredictions =>
        t' := Tally(t.precisions + [0.0], t.recalls + [0.0], t.valid);
      case Skipped(_) =>
        t' := t;
      case Failed(_) =>
        t' := t;
    }
  }

  /** The accumulator after the first k images of the run. */
  function TallyUpTo(images: seq<ImageRecord>, k: nat): Tally
    requires k <= |images|
  {
    TallyOf(Results(images[..k]))
  }

  /** Evaluates image k of the run and extends the accumulator of the images before it. */
  method ProcessNext(images: seq<ImageRecord>, k: nat, t: Tally) returns (t': Tally)
    requires k < |images| && t == TallyUpTo(images, k)
    ensures t' == TallyUpTo(images, k + 1)
  {
    RunStep(images, k, ProcessImage(images[k]));
    t' := EvaluateAndRecord(t, images[k]);
  }

  /**
   * One batch: the images from `start` to `end` in order, stopping before
   * the image the interrupt arrives at.
   */
  method RunBatch(images: seq<ImageRecord>, start: nat, end: nat, interrupt: Option<nat>, t: Tally)
    returns (t': Tally, processed: nat, stopped: bool)
    requires start <= end <= |images|
    requires interrupt.None? || interrupt.value >= start
    requires t == TallyUpTo(images, start)
    ensures start <= processed <= end
    ensures stopped ==> interrupt == Some(processed)
    ensures !stopped ==> processed == end
    ensures interrupt.None? || interrupt.value >= processed
    ensures t' == TallyUpTo(images, processed)
  {
    t' := t;
    processed := start;
    while processed < end && interrupt != Some(processed)
      invariant start <= processed <= end
      invariant interrupt.None? || interrupt.value >= processed
      invariant t' == TallyUpTo(images, processed)
    {
      t' := ProcessNext(images, processed, t');
      processed := processed + 1;
    }
    stopped := processed < end;
  }

  /** Batch b of the run: the images of `Batches(images)[b]`, in order, up to the interrupt. */
  method NextBatch(images: seq<ImageRecord>, b: nat, interrupt: Option<nat>, t: Tally)
    returns (t': Tally, processed: nat, stopped: bool)
    requires BatchSize * b < |images|
    requires interrupt.None? || interrupt.value >= BatchSize * b
    requires t == TallyUpTo(images, BatchSize * b)
    ensures b < |Batches(images)|
    ensures BatchSize * b <= processed <= BatchSize * b + |Batches(images)[b]| <= |images|
    ensures !stopped ==> processed == BatchSize * b + |Batches(images)[b]| == MinNat(BatchSize * b + BatchSize, |images|)
    ensures stopped ==> interrupt == Some(processed)
    ensures interrupt.None? || interrupt.value >= processed
    ensures t' == TallyUpTo(images, processed)
  {
    BatchAt(images, b);
    t', processed, stopped := RunBatch(images, BatchSize * b, MinNat(BatchSize * b + BatchSize, |images|), interrupt, t);
  }

  /**
   * The run: batches of five images in order, each image evaluated in
   * isolation; an interrupt before image `at` (a KeyboardInterrupt) ends both
   * loops; finalisation always follows.
   */
  method Run(images: seq<ImageRecord>, interrupt: Option<nat>) returns (tally: Tally, summary: Summary)
    ensures tally == TallyOf(Results(images[..Processed(|images|, interrupt)]))
    ensures summary == Finalise(tally)
  {
    tally := Tally([], [], 0);
    var n := |images|;
    var batchStart := 0;
    var processed := 0;
    var stopped := false;
    var b: nat := 0;
    while batchStart < n && !stopped
      invariant processed <= n
      invariant !stopped ==> processed == MinNat(batchStart, n)
      invariant stopped ==> interrupt == Some(processed)
      invariant interrupt.None? || interrupt.value >= processed
      invariant tally == TallyUpTo(images, processed)
      invariant batchStart == BatchSize * b
      decreases n - batchStart, !stopped
    {
      tally, processed, stopped := NextBatch(images, b, interrupt, tally);
      batchStart := batchStart + BatchSize;
      b := b + 1;
    }
    summary := Finalise(tally);
  }
}
