/** The persisted prediction records (app/db/models.py). Every input and output column
    is NOT NULL, so each is a plain (non-optional) field here. The id and created_at
    columns are filled in by the storage layer: callers build a row without them. */
module Records {

  /** Seconds since the epoch, as the storage clock reports them. */
  type Timestamp = real

  /** The values a caller supplies for a fraud_predictions row. */
  datatype FraudRow = FraudRow(
    transactionAmount: real,
    merchantType: string,
    country: string,
    timeDelta: real,
    deviceType: string,
    fraudProbability: real,
    modelVersion: string,
    latencyMs: real)

  /** A stored fraud_predictions row: integer primary key, the caller's values, and the
      creation time set by the column's server default. */
  datatype FraudPrediction = FraudPrediction(id: int, row: FraudRow, createdAt: Timestamp)

  /** The values a caller supplies for an anomaly_predictions row. */
  datatype AnomalyRow = AnomalyRow(
    responseTime: real,
    errorRate: real,
    cpuUsage: real,
    memoryUsage: real,
    anomalyScore: real,
    modelVersion: string,
    latencyMs: real)

  /** A stored anomaly_predictions row. */
  datatype AnomalyPrediction = AnomalyPrediction(id: int, row: AnomalyRow, createdAt: Timestamp)

  /** The declared VARCHAR lengths of the string columns. */
  const MerchantTypeLength := 100
  const CountryLength := 10
  const DeviceTypeLength := 50
  const ModelVersionLength := 50

  /** The string values fit their fraud_predictions columns. */
  predicate FraudRowFits(r: FraudRow)
  {
    && |r.merchantType| <= MerchantTypeLength
    && |r.country| <= CountryLength
    && |r.deviceType| <= DeviceTypeLength
    && |r.modelVersion| <= ModelVersionLength
  }

  /** The string values fit their anomaly_predictions columns. */
  predicate AnomalyRowFits(r: AnomalyRow)
  {
    |r.modelVersion| <= ModelVersionLength
  }

  /** Primary keys unique within one table. */
  predicate FraudIdsUnique(table: seq<FraudPrediction>)
  {
    forall i, j :: 0 <= i < j < |table| ==> table[i].id != table[j].id
  }

  predicate AnomalyIdsUnique(table: seq<AnomalyPrediction>)
  {
    forall i, j :: 0 <= i < j < |table| ==> table[i].id != table[j].id
  }
}
