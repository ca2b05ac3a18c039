/** GET /v1/metrics (app/routers/metrics.py): per-stream counts and averages over the two
    prediction tables. SQL COUNT over an empty table is 0 and AVG over it is NULL, which
    the handler turns into 0.0 before rounding. */
module Metrics {
  import opened Wrappers
  import opened Numeric
  import opened Records
  import opened Store

  datatype MetricsResponse = MetricsResponse(
    totalPredictions: int,
    fraudPredictions: int,
    anomalyPredictions: int,
    avgFraudLatencyMs: real,
    avgAnomalyLatencyMs: real,
    avgFraudProbability: real,
    avgAnomalyScore: real)

  /** The latency_ms column of fraud_predictions. */
  function FraudLatencies(t: seq<FraudPrediction>): (xs: seq<real>)
    ensures |xs| == |t| && forall i :: 0 <= i < |t| ==> xs[i] == t[i].row.latencyMs
  {
    seq(|t|, i requires 0 <= i < |t| => t[i].row.latencyMs)
  }

  /** The fraud_probability column of fraud_predictions. */
  function FraudProbabilities(t: seq<FraudPrediction>): (xs: seq<real>)
    ensures |xs| == |t| && forall i :: 0 <= i < |t| ==> xs[i] == t[i].row.fraudProbability
  {
    seq(|t|, i requires 0 <= i < |t| => t[i].row.fraudProbability)
  }

  /** The latency_ms column of anomaly_predictions. */
  function AnomalyLatencies(t: seq<AnomalyPrediction>): (xs: seq<real>)
    ensures |xs| == |t| && forall i :: 0 <= i < |t| ==> xs[i] == t[i].row.latencyMs
  {
    seq(|t|, i requires 0 <= i < |t| => t[i].row.latencyMs)
  }

  /** The anomaly_score column of anomaly_predictions. */
  function AnomalyScores(t: seq<AnomalyPrediction>): (xs: seq<real>)
    ensures |xs| == |t| && forall i :: 0 <= i < |t| ==> xs[i] == t[i].row.anomalyScore
  {
    seq(|t|, i requires 0 <= i < |t| => t[i].row.anomalyScore)
  }

  /** float(AVG(column) or 0.0): the column's mean, or 0.0 over no rows. */
  function AvgOrZero(xs: seq<real>): (a: real)
    ensures xs == [] ==> a == 0.0
    ensures xs != [] ==> a * |xs| as real == Sum(xs)
  {
    match Mean(xs)
    case None => 0.0
    case Some(m) => m
  }

  /** The metrics over the current contents of both tables. */
  function GetMetrics(t: Tables): (m: MetricsResponse)
    ensures m.fraudPredictions == |t.fraud| && m.anomalyPredictions == |t.anomaly|
    ensures m.totalPredictions == m.fraudPredictions + m.anomalyPredictions
    ensures t.fraud == [] ==> m.avgFraudLatencyMs == 0.0 && m.avgFraudProbability == 0.0
    ensures t.anomaly == [] ==> m.avgAnomalyLatencyMs == 0.0 && m.avgAnomalyScore == 0.0
    ensures t.fraud != [] ==>
      && m.avgFraudLatencyMs == Round3(Sum(FraudLatencies(t.fraud)) / |t.fraud| as real)
      && m.avgFraudProbability == Round4(Sum(FraudProbabilities(t.fraud)) / |t.fraud| as real)
    ensures t.anomaly != [] ==>
      && m.avgAnomalyLatencyMs == Round3(Sum(AnomalyLatencies(t.anomaly)) / |t.anomaly| as real)
      && m.avgAnomalyScore == Round4(Sum(AnomalyScores(t.anomaly)) / |t.anomaly| as real)
  {
    var fraudCount, anomalyCount := |t.fraud|, |t.anomaly|;
    RoundZero(1000);
    RoundZero(10000);
    MetricsResponse(
      fraudCount + anomalyCount,
      fraudCount,
      anomalyCount,
      Round3(AvgOrZero(FraudLatencies(t.fraud))),
      Round3(AvgOrZero(AnomalyLatencies(t.anomaly))),
      Round4(AvgOrZero(FraudProbabilities(t.fraud))),
      Round4(AvgOrZero(AnomalyScores(t.anomaly))))
  }

  /** Rounding 0.0 gives 0.0. */
  lemma RoundZero(scale: nat)
    requires scale >= 1
    ensures RoundTo(0.0, scale) == 0.0
  {
    assert ScaledRound(0.0, scale) == 0;
  }

  /** When every stored probability and score lies in [0, 1], so do the reported averages. */
  lemma AveragesInUnit(t: Tables)
    requires forall i :: 0 <= i < |t.fraud| ==> 0.0 <= t.fraud[i].row.fraudProbability <= 1.0
    requires forall i :: 0 <= i < |t.anomaly| ==> 0.0 <= t.anomaly[i].row.anomalyScore <= 1.0
    ensures 0.0 <= GetMetrics(t).avgFraudProbability <= 1.0
    ensures 0.0 <= GetMetrics(t).avgAnomalyScore <= 1.0
  {
    var probabilities, scores := FraudProbabilities(t.fraud), AnomalyScores(t.anomaly);
    if probabilities != [] {
      MeanUnit(probabilities);
      RoundToUnit(AvgOrZero(probabilities), 10000);
    }
    if scores != [] {
      MeanUnit(scores);
      RoundToUnit(AvgOrZero(scores), 10000);
    }
  }

  /** Latencies are never negative, so neither are their reported averages. */
  lemma LatencyAveragesNonNegative(t: Tables)
    requires forall i :: 0 <= i < |t.fraud| ==> 0.0 <= t.fraud[i].row.latencyMs
    requires forall i :: 0 <= i < |t.anomaly| ==> 0.0 <= t.anomaly[i].row.latencyMs
    ensures 0.0 <= GetMetrics(t).avgFraudLatencyMs
    ensures 0.0 <= GetMetrics(t).avgAnomalyLatencyMs
  {
    var fraud, anomaly := FraudLatencies(t.fraud), AnomalyLatencies(t.anomaly);
    SumNonNegative(fraud);
    SumNonNegative(anomaly);
    RoundToNonNegative(AvgOrZero(fraud), 1000);
    RoundToNonNegative(AvgOrZero(anomaly), 1000);
  }

  /** Committing one staged row raises the count of its own stream by one and the total
      by one, and leaves the other stream's count as it was. */
  lemma CountsAfterInsert(t: Tables, p: Pending, now: Timestamp)
    ensures GetMetrics(Insert(t, p, now)).totalPredictions == GetMetrics(t).totalPredictions + 1
    ensures p.NewFraud? ==>
      && GetMetrics(Insert(t, p, now)).fraudPredictions == GetMetrics(t).fraudPredictions + 1
      && GetMetrics(Insert(t, p, now)).anomalyPredictions == GetMetrics(t).anomalyPredictions
    ensures p.NewAnomaly? ==>
      && GetMetrics(Insert(t, p, now)).anomalyPredictions == GetMetrics(t).anomalyPredictions + 1
      && GetMetrics(Insert(t, p, now)).fraudPredictions == GetMetrics(t).fraudPredictions
  {
  }

  /** The fraud-probability column after a fraud row is appended is the old column plus the
      new row's probability, so its sum grows by exactly that probability. */
  lemma {:induction false} ProbabilitySumAfterInsert(t: Tables, row: FraudRow, now: Timestamp)
    ensures Sum(FraudProbabilities(Insert(t, NewFraud(row), now).fraud))
         == Sum(FraudProbabilities(t.fraud)) + row.fraudProbability
  {
    var u := Insert(t, NewFraud(row), now);
    assert FraudProbabilities(u.fraud) == FraudProbabilities(t.fraud) + [row.fraudProbability];
    SumAppend(FraudProbabilities(t.fraud), row.fraudProbability);
  }

  /** The anomaly-score column sum grows by exactly the new row's score. */
  lemma {:induction false} ScoreSumAfterInsert(t: Tables, row: AnomalyRow, now: Timestamp)
    ensures Sum(AnomalyScores(Insert(t, NewAnomaly(row), now).anomaly))
         == Sum(AnomalyScores(t.anomaly)) + row.anomalyScore
  {
    var u := Insert(t, NewAnomaly(row), now);
    assert AnomalyScores(u.anomaly) == AnomalyScores(t.anomaly) + [row.anomalyScore];
    SumAppend(AnomalyScores(t.anomaly), row.anomalyScore);
  }
}
