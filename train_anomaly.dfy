/** The deterministic parts of the anomaly training script (app/models/train_anomaly.py):
    the in-place clipping of the synthetic metric columns to their valid ranges, the raw
    decision values of the 100-row reference sample, their minimum and maximum, the
    reference normalisation, and the metadata handed to the loader. The random draws and
    the fitting itself are not part of this model: the fitted pipeline is a parameter. */
module TrainAnomaly {
  import opened Numeric
  import opened Loader

  /** Rows drawn for each synthetic set, and how many of each go into the reference sample. */
  const NormalRows := 1800
  const AnomalousRows := 200
  const SampleRows := 50
  /** Columns: response_time, error_rate, cpu_usage, memory_usage. */
  const Columns := 4

  const ModelVersion := "anomaly-v1.0.0"

  /** X[:, from:to] = np.clip(X[:, from:to], lo, hi): the selected columns are clipped in
      place, every other cell keeps its value. */
  method ClipColumns(X: array2<real>, from: nat, to: nat, lo: real, hi: real)
    requires from <= to <= X.Length1
    modifies X
    ensures forall r, c :: 0 <= r < X.Length0 && 0 <= c < X.Length1 ==>
      X[r, c] == if from <= c < to then Clip(old(X[r, c]), lo, hi) else old(X[r, c])
  {
    var i := 0;
    while i < X.Length0
      invariant 0 <= i <= X.Length0
      invariant forall r, c :: 0 <= r < X.Length0 && 0 <= c < X.Length1 ==>
        X[r, c] == if r < i && from <= c < to then Clip(old(X[r, c]), lo, hi) else old(X[r, c])
    {
      var j := from;
      while j < to
        invariant from <= j <= to
        invariant forall r, c :: 0 <= r < X.Length0 && 0 <= c < X.Length1 ==>
          X[r, c] == if (r < i || (r == i && c < j)) && from <= c < to then Clip(old(X[r, c]), lo, hi) else old(X[r, c])
      {
        X[i, j] := Clip(X[i, j], lo, hi);
        j := j + 1;
      }
      i := i + 1;
    }
  }

  /** Every row's error rate lies in [0, 1] and its CPU and memory usage in [0, 100]. */
  ghost predicate InValidRanges(X: array2<real>)
    reads X
    requires X.Length1 == Columns
  {
    forall r :: 0 <= r < X.Length0 ==>
      0.0 <= X[r, 1] <= 1.0 && 0.0 <= X[r, 2] <= 100.0 && 0.0 <= X[r, 3] <= 100.0
  }

  /** The two clipping statements applied to one synthetic set: error_rate to [0, 1], then
      cpu_usage and memory_usage to [0, 100]. Response times are left as drawn, and values
      already in range are left as drawn. */
  method ClipToValidRanges(X: array2<real>)
    requires X.Length1 == Columns
    modifies X
    ensures InValidRanges(X)
    ensures forall r :: 0 <= r < X.Length0 ==>
      && X[r, 0] == old(X[r, 0])
      && X[r, 1] == Clip(old(X[r, 1]), 0.0, 1.0)
      && X[r, 2] == Clip(old(X[r, 2]), 0.0, 100.0)
      && X[r, 3] == Clip(old(X[r, 3]), 0.0, 100.0)
  {
    ClipColumns(X, 1, 2, 0.0, 1.0);
    ClipColumns(X, 2, 4, 0.0, 100.0);
  }

  /** Row r of a matrix. */
  function Row(X: array2<real>, r: nat): (row: seq<real>)
    reads X
    requires r < X.Length0
    ensures |row| == X.Length1 && forall c :: 0 <= c < X.Length1 ==> row[c] == X[r, c]
  {
    seq(X.Length1, c reads X requires 0 <= c < X.Length1 => X[r, c])
  }

  /** np.vstack([normal[:50], anomalous[:50]]): the first fifty rows of each set. */
  function ReferenceSample(normal: array2<real>, anomalous: array2<real>): (rows: seq<seq<real>>)
    reads normal, anomalous
    requires normal.Length0 >= SampleRows && anomalous.Length0 >= SampleRows
    ensures |rows| == 2 * SampleRows
    ensures forall k :: 0 <= k < SampleRows ==> rows[k] == Row(normal, k)
    ensures forall k :: SampleRows <= k < 2 * SampleRows ==> rows[k] == Row(anomalous, k - SampleRows)
  {
    seq(2 * SampleRows, k reads normal, anomalous requires 0 <= k < 2 * SampleRows =>
      if k < SampleRows then Row(normal, k) else Row(anomalous, k - SampleRows))
  }

  /** The isolation forest's raw decision value for each row, after the scaler. */
  function RawScores(p: AnomalyPipeline, rows: seq<seq<real>>): (raw: seq<real>)
    ensures |raw| == |rows| && forall k :: 0 <= k < |rows| ==> raw[k] == RawDecision(p, rows[k])
  {
    seq(|rows|, k requires 0 <= k < |rows| => RawDecision(p, rows[k]))
  }

  /** scores_raw.min(): the smallest value, which occurs in the sequence. */
  function SeqMin(xs: seq<real>): (m: real)
    requires xs != []
    ensures m in xs
    ensures forall k :: 0 <= k < |xs| ==> m <= xs[k]
  {
    if |xs| == 1 then xs[0]
    else
      var rest := SeqMin(xs[1..]);
      assert forall k :: 1 <= k < |xs| ==> xs[k] == xs[1..][k - 1];
      Min(xs[0], rest)
  }

  /** scores_raw.max(): the largest value, which occurs in the sequence. */
  function SeqMax(xs: seq<real>): (m: real)
    requires xs != []
    ensures m in xs
    ensures forall k :: 0 <= k < |xs| ==> xs[k] <= m
  {
    if |xs| == 1 then xs[0]
    else
      var rest := SeqMax(xs[1..]);
      assert forall k :: 1 <= k < |xs| ==> xs[k] == xs[1..][k - 1];
      Max(xs[0], rest)
  }

  /** The metadata saved beside the pipeline: the version and the observed range of raw
      values on the reference sample. The range is never inverted, so the loader's
      denominator is positive and every later score is defined. */
  function BuildMetadata(raw: seq<real>): (m: AnomalyMetadata)
    requires raw != []
    ensures m.modelVersion == ModelVersion
    ensures m.scoreRange.min in raw && m.scoreRange.max in raw
    ensures m.scoreRange.min <= m.scoreRange.max
    ensures Denominator(m.scoreRange) > 0.0
    ensures forall k :: 0 <= k < |raw| ==> m.scoreRange.min <= raw[k] <= m.scoreRange.max
  {
    var range := ScoreRange(SeqMin(raw), SeqMax(raw));
    DenominatorPositive(range);
    AnomalyMetadata(ModelVersion, range)
  }

  /** scores_norm = 1 - (raw - min) / (max - min + eps), element by element. */
  function ReferenceScores(raw: seq<real>, range: ScoreRange): (scores: seq<real>)
    requires Denominator(range) > 0.0
    ensures |scores| == |raw|
  {
    seq(|raw|, k requires 0 <= k < |raw| => 1.0 - (raw[k] - range.min) / Denominator(range))
  }

  /** The script's normalisation is the loader's, before the loader clips. */
  lemma ReferenceMatchesLoader(raw: seq<real>, range: ScoreRange, k: int)
    requires Denominator(range) > 0.0 && 0 <= k < |raw|
    ensures Normalise(raw[k], range).Success?
    ensures ReferenceScores(raw, range)[k] == Normalise(raw[k], range).value
  {
  }

  /** On the reference sample itself the normalised scores already lie in [0, 1], so the
      loader's clip does not change them there. */
  lemma ReferenceScoresInUnit(raw: seq<real>, k: int)
    requires raw != [] && 0 <= k < |raw|
    ensures var range := BuildMetadata(raw).scoreRange;
      && 0.0 <= ReferenceScores(raw, range)[k] <= 1.0
      && AnomalyScore(raw[k], range).value == ReferenceScores(raw, range)[k]
  {
    var range := BuildMetadata(raw).scoreRange;
    var d := Denominator(range);
    DivideMonotone(0.0, raw[k] - range.min, d);
    DivideMonotone(raw[k] - range.min, d, d);
    assert d / d == 1.0;
    ScoreUnclippedInRange(raw[k], range);
  }

  /** The sample with the smallest raw value (the most anomalous one) normalises to 1.0. */
  lemma MinimumScoresOne(raw: seq<real>, k: int)
    requires 0 <= k < |raw|
    requires forall j :: 0 <= j < |raw| ==> raw[k] <= raw[j]
    ensures ReferenceScores(raw, BuildMetadata(raw).scoreRange)[k] == 1.0
  {
    var range := BuildMetadata(raw).scoreRange;
    assert range.min == raw[k];
  }

  /** The training steps after data generation: clip both synthetic sets, take the first
      fifty rows of each as the reference sample, score it with the fitted pipeline, and
      record the observed range. */
  method BuildArtifactMetadata(normal: array2<real>, anomalous: array2<real>, fitted: AnomalyPipeline)
    returns (m: AnomalyMetadata)
    requires normal.Length0 == NormalRows && anomalous.Length0 == AnomalousRows
    requires normal.Length1 == Columns && anomalous.Length1 == Columns
    requires normal != anomalous
    modifies normal, anomalous
    ensures InValidRanges(normal) && InValidRanges(anomalous)
    ensures m == BuildMetadata(RawScores(fitted, ReferenceSample(normal, anomalous)))
    ensures m.modelVersion == ModelVersion && m.scoreRange.min <= m.scoreRange.max
  {
    ClipToValidRanges(normal);
    ClipToValidRanges(anomalous);
    var raw := RawScores(fitted, ReferenceSample(normal, anomalous));
    m := BuildMetadata(raw);
  }

  /** A registry holding the trained anomaly artifact scores every request. */
  lemma TrainedScoringSucceeds(loader: ModelLoader, raw: seq<real>,
                               responseTime: real, errorRate: real, cpuUsage: real, memoryUsage: real)
    requires raw != [] && loader.anomalyMeta == BuildMetadata(raw)
    ensures loader.PredictAnomaly(responseTime, errorRate, cpuUsage, memoryUsage).Success?
    ensures loader.PredictAnomaly(responseTime, errorRate, cpuUsage, memoryUsage).value.1 == ModelVersion
  {
  }
}
