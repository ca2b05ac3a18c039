/** POST /v1/anomaly/predict (app/routers/anomaly.py): obtain the registry, time the
    scoring call, persist one anomaly_predictions row, and answer with the rounded score,
    the model version and the rounded latency. The two clock readings taken around the
    scoring call, the backend's reachability and its clock are parameters. */
module AnomalyRouter {
  import opened Wrappers
  import opened Numeric
  import opened Records
  import opened Store
  import opened Loader
  import opened AnomalySchema
  import opened Endpoint

  /** The registry's scoring call on a request's fields. */
  function Score(loader: ModelLoader, p: AnomalyRequest): Result<(real, string), LoaderError>
  {
    loader.PredictAnomaly(p.responseTime, p.errorRate, p.cpuUsage, p.memoryUsage)
  }

  /** The row persisted for a request: its four inputs verbatim, the unrounded score, the
      version and the latency. */
  function RowFor(p: AnomalyRequest, score: real, version: string, latencyMs: real): (row: AnomalyRow)
    ensures row.responseTime == p.responseTime && row.errorRate == p.errorRate
    ensures row.cpuUsage == p.cpuUsage && row.memoryUsage == p.memoryUsage
    ensures row.anomalyScore == score && row.modelVersion == version && row.latencyMs == latencyMs
  {
    AnomalyRow(p.responseTime, p.errorRate, p.cpuUsage, p.memoryUsage, score, version, latencyMs)
  }

  method PredictAnomaly(
    slot: LoaderSlot, fraudLoad: Option<FraudArtifact>, anomalyLoad: Option<AnomalyArtifact>,
    session: Session, payload: AnomalyRequest, t0: real, t1: real, reachable: bool, now: Timestamp)
    returns (r: Result<AnomalyResponse, RequestError>)
    requires ValidRequest(payload)
    requires slot.Valid() && session.db.Valid() && session.pending == []
    requires t0 <= t1
    modifies slot, session, session.db
    ensures slot.Valid() && session.db.Valid() && session.pending == []
    // the registry is built at most once, from the loaded artifacts
    ensures old(slot.instance) != null ==> slot.instance == old(slot.instance)
    ensures old(slot.instance) == null && fraudLoad.Some? && anomalyLoad.Some? ==>
      && slot.instance != null
      && slot.instance.fraudMeta == fraudLoad.value.metadata
      && slot.instance.anomalyMeta == anomalyLoad.value.metadata
    // the fraud stream is never touched
    ensures session.db.fraud == old(session.db.fraud)
    // a failed request persists nothing
    ensures r.Failure? ==> session.db.anomaly == old(session.db.anomaly)
    // success exactly when the registry is available, scoring succeeds and the commit is accepted
    ensures r.Success? <==>
      && slot.instance != null
      && Score(slot.instance, payload).Success?
      && reachable
      && (session.db.enforcesLengths ==> AnomalyRowFits(RowFor(payload,
            Score(slot.instance, payload).value.0, Score(slot.instance, payload).value.1, LatencyMs(t0, t1))))
    // a successful request appends exactly one row, and answers with the rounded values
    ensures r.Success? ==>
      var scored := Score(slot.instance, payload).value;
      var row := RowFor(payload, scored.0, scored.1, LatencyMs(t0, t1));
      && session.db.anomaly == old(session.db.anomaly) + [AnomalyPrediction(|old(session.db.anomaly)| + 1, row, now)]
      && r.value == AnomalyResponse(Round4(scored.0), scored.1, Round3(LatencyMs(t0, t1)))
      && 0.0 <= r.value.anomalyScore <= 1.0
      && r.value.latencyMs >= 0.0
  {
    var got := slot.GetModelLoader(fraudLoad, anomalyLoad);
    if got.Failure? {
      assert slot.instance == null;
      return Failure(ScoringFailed(got.error));
    }
    var loader := got.value;
    var scored := Score(loader, payload);
    if scored.Failure? {
      assert slot.instance == loader;
      return Failure(ScoringFailed(scored.error));
    }
    var (score, version) := scored.value;
    var latency := LatencyMs(t0, t1);
    var row := RowFor(payload, score, version, latency);
    session.Add(NewAnomaly(row));
    assert NewAnomaly(row) in session.pending;
    var ok := session.Commit(reachable, now);
    if !ok {
      return Failure(PersistenceError);
    }
    FlushSingle(old(session.db.Contents()), NewAnomaly(row), now);
    RoundToUnit(score, 10000);
    RoundToNonNegative(latency, 1000);
    var response := MakeResponse(Round4(score), version, Round3(latency));
    r := Success(response.value);
  }
}
