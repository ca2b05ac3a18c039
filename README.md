# Risk-scoring platform: a verified model of its deterministic core

The platform serves two scikit-learn models behind a FastAPI application: a fraud
classifier for card transactions and an isolation-forest anomaly detector for service
metrics. Every prediction is logged in one of two append-only tables, and a metrics
endpoint aggregates the log. This project models in Dafny the rules that sit around the
two model calls, and proves properties of them:

- **Registry** (`loader.dfy`, module `Loader`):
  - categorical encoding with fallback 0;
  - the fixed fraud feature order;
  - normalising and clipping the isolation-forest value;
  - the lazily built singleton, as class `LoaderSlot`.
- **Prediction endpoints** (`fraud_router.dfy`, `anomaly_router.dfy`, `endpoint.dfy`): the
  methods that score a request, time the scoring call, stage and commit one row, and
  answer with rounded values.
- **Storage** (`records.dfy`, `store.dfy`):
  - the two record shapes and their column bounds;
  - a `Database` class holding both tables;
  - a `Session` class whose `Add` stages a row and whose `Commit` appends everything staged, or nothing.
- **Metrics** (`metrics.dfy`): the read-only aggregation that gives counts and averages,
  with 0.0 for an empty table.
- **Request validation** (`payload.dfy`, `fraud_schema.dfy`, `anomaly_schema.dfy`):
  - every field is required;
  - each field has a type and range constraints;
  - the error detail lists every failing field.
- **Settings** (`config.dfy`): the defaults and the `DATABASE_URL` resolver.
- **Training scripts** (`train_fraud.dfy`, `train_anomaly.dfy`):
  - the encoding tables and the synthetic fraud signal;
  - the in-place clipping of metric columns on a 2-D array;
  - the reference-sample score range handed to the loader.
- **Metrics scenario** (`metrics_scenario.dfy`): one prediction of each kind, then the
  metrics read back.

Modelling conventions:

- Floats are modelled as reals. The `1e-9` guard is the constant `Loader.Eps`.
- Python's `round(x, n)` is modelled as round-half-even at scale 10^n (`Numeric.RoundTo`).
- The fitted pipelines are function values:
  - the classifier's positive-class probability lies in [0, 1];
  - the scaler and the decision function are unconstrained.
- Python exceptions become `Result` failures: `KeyError`, `ZeroDivisionError`, a failed
  artifact load, and a refused commit.
- Several things are parameters:
  - the two clock readings around a scoring call;
  - the backend's reachability;
  - the storage clock;
  - the result of loading each artifact.

## Model

| member | source | states |
|---|---|---|
| `Numeric.Clip` | app/models/loader.py:75 | np.clip: the result lies in [lo, hi], equals x inside the range, and is lo below it and hi above it |
| `Numeric.ClipMonotone` | app/models/loader.py:75 | clipping preserves order |
| `Numeric.RoundTo` | app/routers/fraud.py:63-67 | round(x, n) lands on a multiple of 10^-n within half a unit of x |
| `Numeric.RoundToUnit` | app/routers/fraud.py:64 | rounding a value in [0, 1] stays in [0, 1], so the response schema accepts it |
| `Numeric.RoundToNonNegative` | app/routers/fraud.py:66 | rounding a non-negative latency stays non-negative |
| `Numeric.Mean` | app/routers/metrics.py:43-44 | SQL AVG: None exactly over no rows, otherwise the value times the row count is the column sum |
| `Numeric.SumAppend` | app/routers/metrics.py:43-44 | one more row adds its value to the column sum |
| `Numeric.SumUnitBounds` | app/routers/metrics.py:44 | a column of values in [0, 1] sums to between 0 and its length |
| `Numeric.SumNonNegative` | app/routers/metrics.py:43 | a column of non-negative values has a non-negative sum |
| `Numeric.MeanUnit` | app/routers/metrics.py:44 | the mean of values in [0, 1] lies in [0, 1] |
| `Config.EnvOf` | app/config.py:31 | the ENV the validator sees: the validated value when present, otherwise "development" |
| `Config.ResolveDatabaseUrl` | app/config.py:24-39 | fails exactly on a blank URL in production; blank elsewhere gives the SQLite URL; a non-blank URL passes through unchanged; the result is never blank |
| `Config.ResolveIdempotent` | app/config.py:31-39 | resolving an already resolved URL changes nothing, under any ENV |
| `Config.MakeSettings` | app/config.py:12-39 | settings keep the given or default ENV and always hold a non-blank URL; construction fails exactly when the URL is blank or unset and ENV is "production" |
| `Config.DefaultSettings` | app/config.py:12-22 | with nothing supplied: "development", "INFO", the SQLite URL and the two artifact paths |
| `Payload.FirstViolated` | app/schemas/anomaly.py:10-15 | finds a violated constraint exactly when some constraint fails, and it is the earliest one: every constraint declared before it holds |
| `Payload.NumberField` | app/schemas/fraud.py:8 | a required float field passes exactly when present, numeric and within all its constraints; absent means Missing |
| `Payload.StringField` | app/schemas/fraud.py:10 | a required string field passes exactly when present and a string; absent means Missing |
| `FraudSchema.Acceptable` | app/schemas/fraud.py:8-17 | a field passes when present with its declared type: transaction_amount > 0, time_delta >= 0, the three categories any string |
| `FraudSchema.CheckField` | app/schemas/fraud.py:8-17 | a field's check passes exactly when the field is acceptable; absent means Missing |
| `FraudSchema.Errors` | app/schemas/fraud.py:7-17 | the error detail names exactly the failing fields, each with its own reason |
| `FraudSchema.ParseRequest` | app/schemas/fraud.py:7-17 | a body is accepted exactly when all five fields are acceptable, giving a request with amount > 0 and time_delta >= 0 built from the body's values; otherwise the error detail is non-empty |
| `FraudSchema.NonPositiveAmountRejected` | app/schemas/fraud.py:8 | an amount <= 0 (such as -100) is rejected, and the error names transaction_amount |
| `FraudSchema.MissingFieldRejected` | app/schemas/fraud.py:8-17 | omitting any one field is rejected with Missing for that field |
| `FraudSchema.AnyCategoryAccepted` | app/schemas/fraud.py:10-17 | any strings are accepted for merchant_type, country and device_type |
| `FraudSchema.MakeResponse` | app/schemas/fraud.py:32-36 | a response is built exactly when the probability lies in [0, 1] |
| `AnomalySchema.Acceptable` | app/schemas/anomaly.py:8-15 | a field passes when present and numeric: response_time > 0, error_rate in [0, 1], cpu_usage and memory_usage in [0, 100] |
| `AnomalySchema.CheckField` | app/schemas/anomaly.py:8-15 | a field's check passes exactly when the field is acceptable; absent means Missing |
| `AnomalySchema.Errors` | app/schemas/anomaly.py:7-15 | the error detail names exactly the failing fields, each with its own reason |
| `AnomalySchema.ParseRequest` | app/schemas/anomaly.py:7-15 | a body is accepted exactly when all four fields are present and in range, giving a request built from the body's values; otherwise the error detail is non-empty |
| `AnomalySchema.ErrorRateAboveOneRejected` | app/schemas/anomaly.py:10 | an error_rate above 1 (such as 1.5) is rejected with the le=1 constraint named |
| `AnomalySchema.MissingFieldRejected` | app/schemas/anomaly.py:8-15 | omitting any one field is rejected with Missing for that field |
| `AnomalySchema.InRangeAccepted` | app/schemas/anomaly.py:8-15 | every in-range request is accepted and returned unchanged |
| `AnomalySchema.MakeResponse` | app/schemas/anomaly.py:29-33 | a response is built exactly when the score lies in [0, 1] |
| `Records.FraudRowFits` | app/db/models.py:22-29 | merchant_type at most 100, country at most 10, device_type and model_version at most 50 characters |
| `Records.AnomalyRowFits` | app/db/models.py:48 | model_version at most 50 characters |
| `Store.Numbered` | app/db/models.py:18 | each row's integer key is its 1-based position in its table |
| `Store.NumberedIdsUnique` | app/db/models.py:18 | ids that number the rows of an append-only table are unique |
| `Store.Insert` | app/db/models.py:15-51 | a row is appended to its own table with the next id and the commit time, and the other table is untouched |
| `Store.Flush` | app/db/models.py:15-51 | committing staged rows keeps the numbering, only appends, and adds one row per staged row |
| `Store.FlushSingle` | app/routers/fraud.py:56-57 | committing one staged row is inserting it |
| `Store.Session.Add` | app/routers/fraud.py:56 | staging a row appends it to the pending list and writes nothing |
| `Store.Session.Commit` | app/routers/fraud.py:57 | succeeds exactly when the backend is reachable and every string fits its column on a length-enforcing backend; then flushes all staged rows, otherwise leaves both tables unchanged; nothing stays staged |
| `Loader.RawDecision` | app/models/loader.py:66-69 | the raw value is the isolation forest's decision on the scaler's output |
| `Loader.Encode` | app/models/loader.py:45-47 | a known category gives its code; an unknown one gives 0 and never fails |
| `Loader.FraudFeatures` | app/models/loader.py:49-50 | the vector is exactly [amount, merchant_idx, country_idx, time_delta, device_idx] |
| `Loader.Denominator` | app/models/loader.py:74 | max - min + 1e-9, at least 1e-9 whenever min <= max |
| `Loader.DenominatorPositive` | app/models/loader.py:74 | with min <= max the denominator max - min + 1e-9 is positive |
| `Loader.Normalise` | app/models/loader.py:72-74 | the division fails exactly when the denominator is zero |
| `Loader.AnomalyScore` | app/models/loader.py:72-75 | the score is the clipped normalisation and lies in [0, 1] |
| `Loader.ScoreDefined` | app/models/loader.py:72-75 | with min <= max every raw value, even out of range, has a score in [0, 1] |
| `Loader.ScoreNonIncreasing` | app/models/loader.py:74-75 | a larger raw decision value never gives a higher score |
| `Loader.ScoreAtOrBelowMin` | app/models/loader.py:74-75 | raw <= min scores 1.0 |
| `Loader.ScoreAtOrAboveMaxEps` | app/models/loader.py:74-75 | raw >= max + 1e-9 scores 0.0 |
| `Loader.ScoreUnclippedInRange` | app/models/loader.py:74-75 | inside [min, max] the clip changes nothing |
| `Loader.ModelLoader.constructor` | app/models/loader.py:18-26 | the registry holds the two loaded pipelines and metadata |
| `Loader.ModelLoader.PredictFraud` | app/models/loader.py:35-52 | succeeds exactly when the three encoding tables exist; returns the classifier's probability of the encoded vector unchanged, in [0, 1], with the fraud model's version |
| `Loader.ModelLoader.PredictAnomaly` | app/models/loader.py:56-77 | succeeds exactly when the denominator is non-zero, always when min <= max; returns the clipped score of the raw decision value, in [0, 1], with the anomaly model's version |
| `Loader.LoaderSlot.GetModelLoader` | app/models/loader.py:84-89 | the first successful call constructs the registry once; every later call returns that same instance without constructing; a failed load leaves no instance |
| `Endpoint.LatencyMs` | app/routers/fraud.py:35-43 | the latency is the scoring call's duration in milliseconds, never negative |
| `FraudRouter.RowFor` | app/routers/fraud.py:46-55 | the row holds the five inputs verbatim and the unrounded probability, version and latency |
| `FraudRouter.PredictFraud` | app/routers/fraud.py:29-67 | succeeds exactly when the registry exists, scoring succeeds and the commit is accepted; then one row is appended to the fraud table and the response carries round(probability, 4) in [0, 1], the stored version and round(latency, 3); on failure nothing is stored; the anomaly table never changes |
| `AnomalyRouter.RowFor` | app/routers/anomaly.py:46-54 | the row holds the four inputs verbatim and the unrounded score, version and latency |
| `AnomalyRouter.PredictAnomaly` | app/routers/anomaly.py:30-66 | the same as the fraud endpoint, appending to the anomaly table with round(score, 4) in [0, 1]; the fraud table never changes |
| `Metrics.AvgOrZero` | app/routers/metrics.py:62-65 | 0.0 over no rows, otherwise the column sum divided by the row count |
| `Metrics.GetMetrics` | app/routers/metrics.py:39-66 | each count is its table's length and the total is their sum; empty tables report 0.0 averages; otherwise each average is round(sum / n) at 3 or 4 places |
| `Metrics.AveragesInUnit` | app/routers/metrics.py:64-65 | when stored probabilities and scores lie in [0, 1], so do their reported averages |
| `Metrics.LatencyAveragesNonNegative` | app/routers/metrics.py:62-63 | non-negative latencies give non-negative average latencies |
| `Metrics.CountsAfterInsert` | app/routers/metrics.py:54-56 | one committed prediction raises its own count and the total by one and leaves the other count unchanged |
| `Metrics.ProbabilitySumAfterInsert` | app/routers/metrics.py:44 | the fraud-probability column sum grows by exactly the new row's probability |
| `Metrics.ScoreSumAfterInsert` | app/routers/metrics.py:51 | the anomaly-score column sum grows by exactly the new row's score |
| `MetricsScenario.OnePredictionOfEach` | tests/test_metrics.py:26-39 | after one fraud and one anomaly prediction with the trained artifacts, both counts are at least 1 and the total is their sum |
| `TrainFraud.Enumerate` | app/models/train_fraud.py:30-32 | the table's keys are the listed values; each maps to a position holding it; a repeated value keeps its last position |
| `TrainFraud.EnumerateIsPosition` | app/models/train_fraud.py:30-32 | over a list without repeats each value maps to its own position, so codes are distinct and lie in [0, len) |
| `TrainFraud.ListsDistinct` | app/models/train_fraud.py:26-28 | the three category lists have no repeats |
| `TrainFraud.Encodings` | app/models/train_fraud.py:79-83 | the saved encodings have exactly the keys merchant_type, country and device_type that the loader reads |
| `TrainFraud.Metadata` | app/models/train_fraud.py:75-86 | the saved metadata has version "fraud-v1.0.0" and all three tables |
| `TrainFraud.FirstEntryIsFallback` | app/models/train_fraud.py:26-32 | "electronics", "US" and "mobile" encode as 0, the loader's fallback index |
| `TrainFraud.RiskyCountries` | app/models/train_fraud.py:27 | country_idx >= 4 selects exactly CN, NG and RU |
| `TrainFraud.FraudSignal` | app/models/train_fraud.py:41-46 | the synthetic signal lies in [0, 1], each risk factor lifts it by at least its weight, and it is 0 exactly when none applies |
| `TrainFraud.TrainingRow` | app/models/train_fraud.py:49-55 | one training row: amount, merchant index, country index, time_delta, device index |
| `TrainFraud.TrainingRowMatchesServing` | app/models/train_fraud.py:49-55 | the training columns are in the loader's feature order |
| `TrainFraud.TrainedScoringSucceeds` | app/models/train_fraud.py:79-83 | a registry holding the trained metadata scores every request, under version "fraud-v1.0.0" |
| `TrainFraud.UnknownMerchantScoredAsFirst` | app/models/loader.py:45 | an unseen merchant type is scored exactly as "electronics" |
| `TrainAnomaly.ClipColumns` | app/models/train_anomaly.py:40-43 | the selected columns are clipped in place and every other cell is unchanged |
| `TrainAnomaly.ClipToValidRanges` | app/models/train_anomaly.py:40-43 | after clipping, error_rate lies in [0, 1] and CPU and memory in [0, 100]; response_time is unchanged |
| `TrainAnomaly.Row` | app/models/train_anomaly.py:60 | a row of the matrix, cell by cell |
| `TrainAnomaly.ReferenceSample` | app/models/train_anomaly.py:60 | the reference sample is 100 rows: the first 50 normal rows, then the first 50 anomalous rows |
| `TrainAnomaly.RawScores` | app/models/train_anomaly.py:61-63 | one raw decision value per sample row, computed after the scaler |
| `TrainAnomaly.SeqMin` | app/models/train_anomaly.py:65 | the minimum occurs in the sample and bounds every value from below |
| `TrainAnomaly.SeqMax` | app/models/train_anomaly.py:65 | the maximum occurs in the sample and bounds every value from above |
| `TrainAnomaly.BuildMetadata` | app/models/train_anomaly.py:72-80 | the saved range is the sample's observed min and max, with min <= max, so the loader's denominator is positive |
| `TrainAnomaly.ReferenceScores` | app/models/train_anomaly.py:66 | scores_norm: one normalised score per raw value, 1 - (raw - min) / (max - min + 1e-9) |
| `TrainAnomaly.ReferenceMatchesLoader` | app/models/train_anomaly.py:66 | the script's normalisation is the loader's before clipping |
| `TrainAnomaly.ReferenceScoresInUnit` | app/models/train_anomaly.py:66 | on the reference sample the normalised scores already lie in [0, 1], so the loader's clip does not change them |
| `TrainAnomaly.MinimumScoresOne` | app/models/train_anomaly.py:66 | the sample with the smallest raw value normalises to exactly 1.0 |
| `TrainAnomaly.BuildArtifactMetadata` | app/models/train_anomaly.py:40-80 | clips both synthetic sets into range and returns the metadata of the reference sample's raw scores, with min <= max |
| `TrainAnomaly.TrainedScoringSucceeds` | app/models/train_anomaly.py:77 | a registry holding the trained anomaly metadata scores every request, under version "anomaly-v1.0.0" |

## Left out

- The fitted scikit-learn pipelines are foreign code. `predict_proba`, `StandardScaler.transform` and `decision_function` appear only as uninterpreted function values. The monotonicity tests in tests/test_fraud.py:52-70 and tests/test_anomaly.py:51-67 depend on trained weights, so they are not modelled.
- Random synthetic data (`np.random.*`), the noisy labels, the train/test split, fitting and the classification report are numerics over random draws. The training matrices and the fitted pipeline are parameters.
- `joblib.load` / `joblib.dump` and `os.makedirs` are file I/O. Each artifact load is an `Option` parameter: present or failed.
- `time.perf_counter` is a clock. The two readings around the scoring call are parameters with t0 <= t1, so `latency_ms > 0` in the tests cannot be shown.
- Floating-point arithmetic is modelled as exact real arithmetic. Representation error is not modelled.
- Non-finite floats are not modelled. Python's JSON parser accepts `Infinity` and `NaN`, and with pydantic's default `allow_inf_nan` an `Infinity` passes `gt=0` (app/schemas/fraud.py:8, app/schemas/anomaly.py:8) before the scikit-learn call raises. `Payload.Json` numbers are reals, so such a body cannot be expressed.
- `Numeric.RoundTo` rounds the exact value half-to-even. Python rounds the binary double, which can differ at ties such as 2.675.
- Pydantic's lax coercion is not modelled: numeric strings to floats, and booleans to numbers. Such values count as type errors here.
- Pydantic's exact error wording and error order are not modelled. Only the failing fields and their reasons are kept.
- pydantic-settings' reading of `.env` and environment variables, including case-insensitive names, is not modelled. Supplied values are `Option` parameters of `Config.MakeSettings`.
- The FastAPI application, CORS, the latency-header middleware, logging, the lifespan hook and the health endpoint (app/main.py) are web plumbing.
- The engine and session factory (app/db/session.py), `create_all` (app/db/init_db.py) and the test fixtures (tests/conftest.py) are database plumbing. A `Store.Session` is one request's session.
- The database's own behaviour is abstracted to append-only tables with no deletions.
- Store.Insert: assigns each row the id |table| + 1, its 1-based position. That holds on SQLite, where a refused commit uses up no key. On a sequence-backed backend such as PostgreSQL a refused INSERT still consumes a sequence value, so later ids can skip numbers. The source promises only a unique integer key (app/db/models.py:18, 38), and the model does not capture the skipped values.
- A refused commit stands for any commit error. The model distinguishes only two causes: the backend is unreachable, or a string is longer than its column on a backend that enforces lengths.
- Loading the anomaly artifact when the fraud artifact has already failed is not modelled. The constructor raises at the first failed load.
- Concurrency is not modelled. The singleton's check-then-set is not atomic in the source, and two concurrent first calls could both construct a registry; the model is sequential.
