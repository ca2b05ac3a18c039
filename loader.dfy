/** The model registry (app/models/loader.py): the two loaded artifacts, the two scoring
    operations over them, and the lazily created process-wide instance.

    The fitted scikit-learn pipelines are foreign code. They appear as function values:
    the fraud pipeline's positive-class probability (a value in [0, 1]), and the anomaly
    pipeline's scaler and isolation-forest decision function (unconstrained). */
module Loader {
  import opened Wrappers
  import opened Numeric

  /** The guard added to the normalisation denominator. */
  const Eps: real := 1e-9

  /** The fitted fraud pipeline: predict_proba(X)[0][1] for a one-row X. */
  datatype FraudPipeline = FraudPipeline(positiveProbability: seq<real> -> Probability)

  /** The fitted anomaly pipeline: its "scaler" step and its "iso" step's decision_function. */
  datatype AnomalyPipeline = AnomalyPipeline(scale: seq<real> -> seq<real>, decision: seq<real> -> real)

  /** The isolation forest's raw decision value for one standardised feature row. */
  function RawDecision(p: AnomalyPipeline, x: seq<real>): real
  {
    p.decision(p.scale(x))
  }

  /** Fraud metadata: the version string and, per categorical feature name, the table
      from category value to index. */
  datatype FraudMetadata = FraudMetadata(modelVersion: string, encodings: map<string, map<string, int>>)

  /** The raw-score range observed on the reference sample at training time. */
  datatype ScoreRange = ScoreRange(min: real, max: real)

  datatype AnomalyMetadata = AnomalyMetadata(modelVersion: string, scoreRange: ScoreRange)

  datatype FraudArtifact = FraudArtifact(pipeline: FraudPipeline, metadata: FraudMetadata)
  datatype AnomalyArtifact = AnomalyArtifact(pipeline: AnomalyPipeline, metadata: AnomalyMetadata)

  /** The exceptions the registry can raise: a missing encodings key, a zero normalisation
      denominator, or an artifact that could not be loaded (named by its path setting). */
  datatype LoaderError = KeyError(key: string) | ZeroDivisionError | ArtifactLoadError(setting: string)

  /** The three encodings keys the fraud scorer looks up, in lookup order. */
  const MerchantKey := "merchant_type"
  const CountryKey := "country"
  const DeviceKey := "device_type"

  /** table.get(value, 0): an unseen category falls back to index 0 and never fails. */
  function Encode(table: map<string, int>, value: string): (idx: int)
    ensures value in table ==> idx == table[value]
    ensures value !in table ==> idx == 0
  {
    if value in table then table[value] else 0
  }

  /** The one-row fraud feature vector, in the fixed column order. */
  function FraudFeatures(amount: real, merchantIdx: int, countryIdx: int, timeDelta: real, deviceIdx: int): (x: seq<real>)
    ensures |x| == 5
    ensures x[0] == amount && x[1] == merchantIdx as real && x[2] == countryIdx as real
    ensures x[3] == timeDelta && x[4] == deviceIdx as real
  {
    [amount, merchantIdx as real, countryIdx as real, timeDelta, deviceIdx as real]
  }

  /** The normalisation denominator max - min + eps. */
  function Denominator(range: ScoreRange): (d: real)
    ensures range.min <= range.max ==> d >= Eps
  {
    range.max - range.min + Eps
  }

  /** A range with min <= max has a positive denominator. */
  lemma DenominatorPositive(range: ScoreRange)
    requires range.min <= range.max
    ensures Denominator(range) > 0.0
  {
  }

  /** 1 - (raw - min) / (max - min + eps), before clipping. Division by zero raises. */
  function Normalise(raw: real, range: ScoreRange): (r: Result<real, LoaderError>)
    ensures r.Failure? <==> Denominator(range) == 0.0
    ensures r.Failure? ==> r.error == ZeroDivisionError
  {
    if Denominator(range) == 0.0 then Failure(ZeroDivisionError)
    else Success(1.0 - (raw - range.min) / Denominator(range))
  }

  /** The anomaly score: the normalised raw value clipped to [0, 1]. */
  function AnomalyScore(raw: real, range: ScoreRange): (r: Result<real, LoaderError>)
    ensures r.Failure? <==> Denominator(range) == 0.0
    ensures r.Success? ==> 0.0 <= r.value <= 1.0
    ensures r.Success? ==> r.value == Clip(Normalise(raw, range).value, 0.0, 1.0)
  {
    match Normalise(raw, range)
    case Failure(e) => Failure(e)
    case Success(s) => Success(Clip(s, 0.0, 1.0))
  }

  /** With min <= max, the score is defined for every raw value, in or out of the range. */
  lemma ScoreDefined(raw: real, range: ScoreRange)
    requires range.min <= range.max
    ensures AnomalyScore(raw, range).Success?
    ensures 0.0 <= AnomalyScore(raw, range).value <= 1.0
  {
    DenominatorPositive(range);
  }

  /** Dividing by a positive number preserves order. */
  lemma DivideMonotone(a: real, b: real, d: real)
    requires a <= b && d > 0.0
    ensures a / d <= b / d
  {
    assert b / d - a / d == (b - a) / d;
  }

  /** The score does not increase with raw: a more "normal" decision value never scores
      as more anomalous. */
  lemma ScoreNonIncreasing(raw1: real, raw2: real, range: ScoreRange)
    requires range.min <= range.max && raw1 <= raw2
    ensures AnomalyScore(raw2, range).value <= AnomalyScore(raw1, range).value
  {
    DenominatorPositive(range);
    DivideMonotone(raw1 - range.min, raw2 - range.min, Denominator(range));
    ClipMonotone(Normalise(raw2, range).value, Normalise(raw1, range).value, 0.0, 1.0);
  }

  /** A raw value at or below the reference minimum is fully anomalous. */
  lemma ScoreAtOrBelowMin(raw: real, range: ScoreRange)
    requires range.min <= range.max && raw <= range.min
    ensures AnomalyScore(raw, range).value == 1.0
  {
    DenominatorPositive(range);
    DivideMonotone(raw - range.min, 0.0, Denominator(range));
  }

  /** A raw value at or above max + eps is not anomalous at all. */
  lemma ScoreAtOrAboveMaxEps(raw: real, range: ScoreRange)
    requires range.min <= range.max && raw >= range.max + Eps
    ensures AnomalyScore(raw, range).value == 0.0
  {
    var d := Denominator(range);
    DenominatorPositive(range);
    DivideMonotone(d, raw - range.min, d);
    assert d / d == 1.0;
  }

  /** Inside [min, max] clipping changes nothing: the score is the normalised value. */
  lemma ScoreUnclippedInRange(raw: real, range: ScoreRange)
    requires range.min <= raw <= range.max
    ensures AnomalyScore(raw, range).value == Normalise(raw, range).value
  {
    var d := Denominator(range);
    DivideMonotone(0.0, raw - range.min, d);
    DivideMonotone(raw - range.min, d, d);
    assert d / d == 1.0;
  }

  class ModelLoader {
    const fraudPipeline: FraudPipeline
    const fraudMeta: FraudMetadata
    const anomalyPipeline: AnomalyPipeline
    const anomalyMeta: AnomalyMetadata

    /** Holds the two loaded artifacts; they are never changed afterwards. */
    constructor(fraud: FraudArtifact, anomaly: AnomalyArtifact)
      ensures fraudPipeline == fraud.pipeline && fraudMeta == fraud.metadata
      ensures anomalyPipeline == anomaly.pipeline && anomalyMeta == anomaly.metadata
    {
      fraudPipeline := fraud.pipeline;
      fraudMeta := fraud.metadata;
      anomalyPipeline := anomaly.pipeline;
      anomalyMeta := anomaly.metadata;
    }

    /** predict_fraud: encode the three categories (unseen -> 0), build the feature
        vector, and return the classifier's positive-class probability with the fraud
        model's version. Fails only when the metadata lacks one of the three tables. */
    function PredictFraud(amount: real, merchantType: string, country: string, timeDelta: real, deviceType: string):
      (r: Result<(real, string), LoaderError>)
      ensures r.Success? <==>
        MerchantKey in fraudMeta.encodings && CountryKey in fraudMeta.encodings && DeviceKey in fraudMeta.encodings
      ensures r.Success? ==> 0.0 <= r.value.0 <= 1.0 && r.value.1 == fraudMeta.modelVersion
      ensures r.Success? ==> r.value.0 == fraudPipeline.positiveProbability(FraudFeatures(amount,
        Encode(fraudMeta.encodings[MerchantKey], merchantType),
        Encode(fraudMeta.encodings[CountryKey], country),
        timeDelta,
        Encode(fraudMeta.encodings[DeviceKey], deviceType)))
    {
      var enc := fraudMeta.encodings;
      if MerchantKey !in enc then Failure(KeyError(MerchantKey))
      else if CountryKey !in enc then Failure(KeyError(CountryKey))
      else if DeviceKey !in enc then Failure(KeyError(DeviceKey))
      else
        var x := FraudFeatures(amount, Encode(enc[MerchantKey], merchantType), Encode(enc[CountryKey], country),
          timeDelta, Encode(enc[DeviceKey], deviceType));
        Success((fraudPipeline.positiveProbability(x) as real, fraudMeta.modelVersion))
    }

    /** predict_anomaly: standardise, take the raw decision value, normalise it against
        the training-time range and clip it, returning the score with the anomaly model's
        version. */
    function PredictAnomaly(responseTime: real, errorRate: real, cpuUsage: real, memoryUsage: real):
      (r: Result<(real, string), LoaderError>)
      ensures r.Success? <==> Denominator(anomalyMeta.scoreRange) != 0.0
      ensures anomalyMeta.scoreRange.min <= anomalyMeta.scoreRange.max ==> r.Success?
      ensures r.Success? ==> 0.0 <= r.value.0 <= 1.0 && r.value.1 == anomalyMeta.modelVersion
      ensures r.Success? ==> r.value.0 == AnomalyScore(
        RawDecision(anomalyPipeline, [responseTime, errorRate, cpuUsage, memoryUsage]), anomalyMeta.scoreRange).value
    {
      var raw := RawDecision(anomalyPipeline, [responseTime, errorRate, cpuUsage, memoryUsage]);
      match AnomalyScore(raw, anomalyMeta.scoreRange)
      case Failure(e) => Failure(e)
      case Success(score) => Success((score, anomalyMeta.modelVersion))
    }
  }

  /** The module-level singleton: no instance until the first call constructs one; every
      later call returns that same instance. The ghost counter records constructions. */
  class LoaderSlot {
    var instance: ModelLoader?
    ghost var constructions: nat

    ghost predicate Valid()
      reads this
    {
      constructions <= 1 && (instance == null <==> constructions == 0)
    }

    constructor()
      ensures Valid() && instance == null && constructions == 0
    {
      instance := null;
      constructions := 0;
    }

    /** get_model_loader. The artifact loads are its inputs (None: the file could not be
        loaded); they are consulted only while no instance exists. */
    method GetModelLoader(fraudLoad: Option<FraudArtifact>, anomalyLoad: Option<AnomalyArtifact>)
      returns (r: Result<ModelLoader, LoaderError>)
      requires Valid()
      modifies this
      ensures Valid()
      ensures old(instance) != null ==>
        r == Success(old(instance)) && instance == old(instance) && constructions == old(constructions)
      ensures old(instance) == null && fraudLoad.Some? && anomalyLoad.Some? ==>
        && r.Success? && fresh(r.value) && instance == r.value && constructions == 1
        && r.value.fraudMeta == fraudLoad.value.metadata && r.value.fraudPipeline == fraudLoad.value.pipeline
        && r.value.anomalyMeta == anomalyLoad.value.metadata && r.value.anomalyPipeline == anomalyLoad.value.pipeline
      ensures old(instance) == null && fraudLoad.None? ==>
        r == Failure(ArtifactLoadError("FRAUD_MODEL_PATH")) && instance == null && constructions == 0
      ensures old(instance) == null && fraudLoad.Some? && anomalyLoad.None? ==>
        r == Failure(ArtifactLoadError("ANOMALY_MODEL_PATH")) && instance == null && constructions == 0
      ensures r.Success? ==> instance == r.value
    {
      if instance == null {
        if fraudLoad.None? {
          return Failure(ArtifactLoadError("FRAUD_MODEL_PATH"));
        }
        if anomalyLoad.None? {
          return Failure(ArtifactLoadError("ANOMALY_MODEL_PATH"));
        }
        instance := new ModelLoader(fraudLoad.value, anomalyLoad.value);
        constructions := constructions + 1;
      }
      r := Success(instance);
    }
  }
}
