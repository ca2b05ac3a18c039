/** The metrics consistency scenario of tests/test_metrics.py: with the trained artifacts
    available and a reachable backend, one fraud prediction and one anomaly prediction are
    made, and the metrics read afterwards count at least one of each, with a total that is
    their sum. Reading the metrics twice in a row gives the same answer. The registry may
    already have been built from the same artifacts (the application's start-up warm-up
    does so), or it is built by the first request. */
module MetricsScenario {
  import opened Wrappers
  import opened Records
  import opened Store
  import opened Loader
  import opened Metrics
  import FraudSchema
  import AnomalySchema
  import FraudRouter
  import AnomalyRouter
  import TrainFraud
  import TrainAnomaly

  method OnePredictionOfEach(
    slot: LoaderSlot, session: Session,
    fraudPipeline: FraudPipeline, anomalyPipeline: AnomalyPipeline, referenceRaw: seq<real>,
    t0: real, t1: real, t2: real, t3: real, now1: Timestamp, now2: Timestamp)
    returns (m: MetricsResponse)
    requires referenceRaw != []
    requires slot.Valid()
    requires slot.instance != null ==>
      && slot.instance.fraudMeta == TrainFraud.Metadata()
      && slot.instance.anomalyMeta == TrainAnomaly.BuildMetadata(referenceRaw)
    requires session.db.Valid() && session.pending == []
    requires t0 <= t1 && t2 <= t3
    modifies slot, session, session.db
    ensures m == GetMetrics(session.db.Contents())
    ensures m.totalPredictions == m.fraudPredictions + m.anomalyPredictions
    ensures m.fraudPredictions >= 1 && m.anomalyPredictions >= 1
  {
    var fraudLoad := Some(FraudArtifact(fraudPipeline, TrainFraud.Metadata()));
    var anomalyLoad := Some(AnomalyArtifact(anomalyPipeline, TrainAnomaly.BuildMetadata(referenceRaw)));

    var fraudRequest := FraudSchema.FraudRequest(500.0, "grocery", "US", 10.0, "desktop");
    var fraud := FraudRouter.PredictFraud(slot, fraudLoad, anomalyLoad, session, fraudRequest, t0, t1, true, now1);
    assert fraud.Success?;

    var anomalyRequest := AnomalySchema.AnomalyRequest(150.0, 0.02, 35.0, 50.0);
    var anomaly := AnomalyRouter.PredictAnomaly(slot, fraudLoad, anomalyLoad, session, anomalyRequest, t2, t3, true, now2);
    assert anomaly.Success?;

    m := GetMetrics(session.db.Contents());
    var again := GetMetrics(session.db.Contents());
    assert again == m;
  }
}
