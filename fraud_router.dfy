/** POST /v1/fraud/predict (app/routers/fraud.py): obtain the registry, time the scoring
    call, persist one fraud_predictions row, and answer with the rounded probability, the
    model version and the rounded latency. The two clock readings taken around the
    scoring call, the backend's reachability and its clock are parameters. */
module FraudRouter {
  import opened Wrappers
  import opened Numeric
  import opened Records
  import opened Store
  import opened Loader
  import opened FraudSchema
  import opened Endpoint

  /** The registry's scoring call on a request's fields. */
  function Score(loader: ModelLoader, p: FraudRequest): Result<(real, string), LoaderError>
  {
    loader.PredictFraud(p.transactionAmount, p.merchantType, p.country, p.timeDelta, p.deviceType)
  }

  /** The row persisted for a request: its five inputs verbatim, the unrounded
      probability, the version and the latency. */
  function RowFor(p: FraudRequest, probability: real, version: string, latencyMs: real): (row: FraudRow)
    ensures row.transactionAmount == p.transactionAmount && row.merchantType == p.merchantType
    ensures row.country == p.country && row.timeDelta == p.timeDelta && row.deviceType == p.deviceType
    ensures row.fraudProbability == probability && row.modelVersion == version && row.latencyMs == latencyMs
  {
    FraudRow(p.transactionAmount, p.merchantType, p.country, p.timeDelta, p.deviceType,
      probability, version, latencyMs)
  }

  method PredictFraud(
    slot: LoaderSlot, fraudLoad: Option<FraudArtifact>, anomalyLoad: Option<AnomalyArtifact>,
    session: Session, payload: FraudRequest, t0: real, t1: real, reachable: bool, now: Timestamp)
    returns (r: Result<FraudResponse, RequestError>)
    requires ValidRequest(payload)
    requires slot.Valid() && session.db.Valid() && session.pending == []
    requires t0 <= t1
    modifies slot, session, session.db
    ensures slot.Valid() && session.db.Valid() && session.pending == []
    // the registry is built at most once, from the loaded artifacts
    ensures old(slot.instance) != null ==> slot.instance == old(slot.instance)
    ensures old(slot.instance) == null && fraudLoad.Some? && anomalyLoad.Some? ==>
      && slot.instance != null
      && slot.instance.fraudMeta == fraudLoad.value.metadata
      && slot.instance.anomalyMeta == anomalyLoad.value.metadata
    // the anomaly stream is never touched
    ensures session.db.anomaly == old(session.db.anomaly)
    // a failed request persists nothing
    ensures r.Failure? ==> session.db.fraud == old(session.db.fraud)
    // success exactly when the registry is available, scoring succeeds and the commit is accepted
    ensures r.Success? <==>
      && slot.instance != null
      && Score(slot.instance, payload).Success?
      && reachable
      && (session.db.enforcesLengths ==> FraudRowFits(RowFor(payload,
            Score(slot.instance, payload).value.0, Score(slot.instance, payload).value.1, LatencyMs(t0, t1))))
    // a successful request appends exactly one row, and answers with the rounded values
    ensures r.Success? ==>
      var scored := Score(slot.instance, payload).value;
      var row := RowFor(payload, scored.0, scored.1, LatencyMs(t0, t1));
      && session.db.fraud == old(session.db.fraud) + [FraudPrediction(|old(session.db.fraud)| + 1, row, now)]
      && r.value == FraudResponse(Round4(scored.0), scored.1, Round3(LatencyMs(t0, t1)))
      && 0.0 <= r.value.fraudProbability <= 1.0
      && r.value.latencyMs >= 0.0
  {
    var got := slot.GetModelLoader(fraudLoad, anomalyLoad);
    if got.Failure? {
      assert slot.instance == null;
      return Failure(ScoringFailed(got.error));
    }
    var loader := got.value;
    var scored := Score(loader, payload);
    if scored.Failure? {
      assert slot.instance == loader;
      return Failure(ScoringFailed(scored.error));
    }
    var (probability, version) := scored.value;
    var latency := LatencyMs(t0, t1);
    var row := RowFor(payload, probability, version, latency);
    session.Add(NewFraud(row));
    assert NewFraud(row) in session.pending;
    var ok := session.Commit(reachable, now);
    if !ok {
      return Failure(PersistenceError);
    }
    FlushSingle(old(session.db.Contents()), NewFraud(row), now);
    RoundToUnit(probability, 10000);
    RoundToNonNegative(latency, 1000);
    var response := MakeResponse(Round4(probability), version, Round3(latency));
    r := Success(response.value);
  }
}
