/** The deterministic parts of the fraud training script (app/models/train_fraud.py): the
    category lists and the encoding tables built from them, the synthetic fraud signal,
    the training feature columns, and the metadata saved beside the pipeline. The random
    draws, the label noise and the fitting itself are not part of this model. */
module TrainFraud {
  import opened Loader

  const MerchantTypes: seq<string> := ["electronics", "grocery", "travel", "clothing", "gaming"]
  const Countries: seq<string> := ["US", "UK", "DE", "FR", "CN", "NG", "RU"]
  const DeviceTypes: seq<string> := ["mobile", "desktop", "tablet"]

  const ModelVersion := "fraud-v1.0.0"

  /** No value occurs twice. */
  predicate Distinct(xs: seq<string>)
  {
    forall i, j :: 0 <= i < j < |xs| ==> xs[i] != xs[j]
  }

  /** {x: i for i, x in enumerate(xs)}: every listed value maps to a position holding it,
      and a value listed twice keeps its last position. */
  function Enumerate(xs: seq<string>): (enc: map<string, int>)
    ensures enc.Keys == set x | x in xs
    ensures forall k :: k in enc ==> 0 <= enc[k] < |xs| && xs[enc[k]] == k
    ensures forall i :: 0 <= i < |xs| ==> i <= enc[xs[i]]
  {
    if xs == [] then map[]
    else
      var n := |xs| - 1;
      var prefix := Enumerate(xs[..n]);
      assert forall x :: x in xs <==> x in xs[..n] || x == xs[n];
      prefix[xs[n] := n]
  }

  /** Over a list without repeats, each value is encoded as its own position, so the codes
      are distinct and lie in [0, |xs|). */
  lemma EnumerateIsPosition(xs: seq<string>, i: int)
    requires Distinct(xs) && 0 <= i < |xs|
    ensures xs[i] in Enumerate(xs) && Enumerate(xs)[xs[i]] == i
  {
  }

  lemma ListsDistinct()
    ensures Distinct(MerchantTypes) && Distinct(Countries) && Distinct(DeviceTypes)
  {
    assert MerchantTypes[0][0] == 'e' && MerchantTypes[1][0] == 'g' && MerchantTypes[2][0] == 't';
    assert MerchantTypes[3][0] == 'c' && MerchantTypes[4][0] == 'g' && MerchantTypes[1][1] != MerchantTypes[4][1];
    assert Countries[0][0] == 'U' && Countries[1][0] == 'U' && Countries[0][1] != Countries[1][1];
    assert Countries[2][0] == 'D' && Countries[3][0] == 'F' && Countries[4][0] == 'C';
    assert Countries[5][0] == 'N' && Countries[6][0] == 'R';
    assert DeviceTypes[0][0] == 'm' && DeviceTypes[1][0] == 'd' && DeviceTypes[2][0] == 't';
  }

  /** The three tables saved under "encodings", keyed by the names the loader looks up. */
  function Encodings(): (e: map<string, map<string, int>>)
    ensures e.Keys == {MerchantKey, CountryKey, DeviceKey}
  {
    map[MerchantKey := Enumerate(MerchantTypes), CountryKey := Enumerate(Countries),
        DeviceKey := Enumerate(DeviceTypes)]
  }

  /** The metadata the loader reads back: the version and the encodings. */
  function Metadata(): (m: FraudMetadata)
    ensures m.modelVersion == ModelVersion
    ensures MerchantKey in m.encodings && CountryKey in m.encodings && DeviceKey in m.encodings
  {
    FraudMetadata(ModelVersion, Encodings())
  }

  /** The first entry of each list is encoded as 0, the index the loader falls back to for
      a category it has not seen. */
  lemma FirstEntryIsFallback()
    ensures MerchantTypes[0] == "electronics" && Enumerate(MerchantTypes)[MerchantTypes[0]] == 0
    ensures Countries[0] == "US" && Enumerate(Countries)[Countries[0]] == 0
    ensures DeviceTypes[0] == "mobile" && Enumerate(DeviceTypes)[DeviceTypes[0]] == 0
  {
    ListsDistinct();
    EnumerateIsPosition(MerchantTypes, 0);
    EnumerateIsPosition(Countries, 0);
    EnumerateIsPosition(DeviceTypes, 0);
  }

  /** country_idx >= 4 picks out exactly the last three countries, CN, NG and RU. */
  lemma RiskyCountries(i: int)
    requires 0 <= i < |Countries|
    ensures Enumerate(Countries)[Countries[i]] >= 4 <==> Countries[i] in ["CN", "NG", "RU"]
  {
    ListsDistinct();
    EnumerateIsPosition(Countries, i);
    assert ["CN", "NG", "RU"] == Countries[4..];
    if i < 4 {
      forall j | 4 <= j < |Countries| ensures Countries[i] != Countries[j] {}
    }
  }

  /** An indicator as a float: 1.0 when the condition holds, else 0.0. */
  function Indicator(b: bool): real
  {
    if b then 1.0 else 0.0
  }

  /** The synthetic fraud signal of one sample: large amount 0.4, rapid repeat 0.3, risky
      country 0.2, gaming merchant 0.1. It lies in [0, 1] and each risk factor alone lifts
      it by its weight. */
  function FraudSignal(amount: real, merchantIdx: int, countryIdx: int, timeDelta: real): (s: real)
    ensures 0.0 <= s <= 1.0
    ensures amount > 1500.0 ==> s >= 0.4
    ensures timeDelta < 1.0 ==> s >= 0.3
    ensures countryIdx >= 4 ==> s >= 0.2
    ensures merchantIdx == 4 ==> s >= 0.1
    ensures s == 0.0 <==> amount <= 1500.0 && timeDelta >= 1.0 && countryIdx < 4 && merchantIdx != 4
  {
    Indicator(amount > 1500.0) * 0.4 + Indicator(timeDelta < 1.0) * 0.3
      + Indicator(countryIdx >= 4) * 0.2 + Indicator(merchantIdx == 4) * 0.1
  }

  /** One row of the training matrix, in the order of the column stack. */
  function TrainingRow(amount: real, merchantIdx: int, countryIdx: int, timeDelta: real, deviceIdx: int): seq<real>
  {
    [amount, merchantIdx as real, countryIdx as real, timeDelta, deviceIdx as real]
  }

  /** The training columns are in the same order as the vector the loader scores. */
  lemma TrainingRowMatchesServing(amount: real, merchantIdx: int, countryIdx: int, timeDelta: real, deviceIdx: int)
    ensures TrainingRow(amount, merchantIdx, countryIdx, timeDelta, deviceIdx)
         == FraudFeatures(amount, merchantIdx, countryIdx, timeDelta, deviceIdx)
  {
  }

  /** A registry holding the trained fraud artifact scores every request: the three tables
      it looks up are all present. */
  lemma TrainedScoringSucceeds(loader: ModelLoader, amount: real, merchantType: string, country: string,
                               timeDelta: real, deviceType: string)
    requires loader.fraudMeta == Metadata()
    ensures loader.PredictFraud(amount, merchantType, country, timeDelta, deviceType).Success?
    ensures loader.PredictFraud(amount, merchantType, country, timeDelta, deviceType).value.1 == ModelVersion
  {
  }

  /** An unseen merchant type is scored exactly as the first listed one, "electronics". */
  lemma UnknownMerchantScoredAsFirst(loader: ModelLoader, amount: real, merchantType: string, country: string,
                                     timeDelta: real, deviceType: string)
    requires loader.fraudMeta == Metadata()
    requires merchantType !in MerchantTypes
    ensures loader.PredictFraud(amount, merchantType, country, timeDelta, deviceType)
         == loader.PredictFraud(amount, "electronics", country, timeDelta, deviceType)
  {
    FirstEntryIsFallback();
    assert Encode(Enumerate(MerchantTypes), merchantType) == 0;
  }
}
