/** The fraud endpoint's request and response schemas (app/schemas/fraud.py). */
module FraudSchema {
  import opened Wrappers
  import opened Payload

  /** A validated fraud request. */
  datatype FraudRequest = FraudRequest(
    transactionAmount: real,
    merchantType: string,
    country: string,
    timeDelta: real,
    deviceType: string)

  /** The declared request fields. */
  datatype Field = TransactionAmount | MerchantType | Country | TimeDelta | DeviceType

  /** The fields in declaration order. */
  const Fields: seq<Field> := [TransactionAmount, MerchantType, Country, TimeDelta, DeviceType]

  /** A field's JSON name. */
  function Name(f: Field): string
  {
    match f
    case TransactionAmount => "transaction_amount"
    case MerchantType => "merchant_type"
    case Country => "country"
    case TimeDelta => "time_delta"
    case DeviceType => "device_type"
  }

  /** What every validated request satisfies: amount > 0 and time_delta >= 0. */
  predicate ValidRequest(r: FraudRequest)
  {
    r.transactionAmount > 0.0 && r.timeDelta >= 0.0
  }

  /** Whether the body's value for a declared field passes validation: present, of the
      declared type, and in range. The three category fields accept any string. */
  predicate Acceptable(body: Body, f: Field)
  {
    Name(f) in body &&
    match f
    case TransactionAmount => body[Name(f)].Number? && body[Name(f)].n > 0.0
    case TimeDelta => body[Name(f)].Number? && body[Name(f)].n >= 0.0
    case _ => body[Name(f)].Text?
  }

  /** Validation of one declared field: None when it passes, else the reason it fails. */
  function CheckField(body: Body, f: Field): (e: Option<ErrorKind>)
    ensures e.None? <==> Acceptable(body, f)
    ensures Name(f) !in body ==> e == Some(Missing)
  {
    SatisfiesSingle();
    match f
    case TransactionAmount => ErrorOf(NumberField(body, Name(f), [Gt(0.0)]))
    case TimeDelta => ErrorOf(NumberField(body, Name(f), [Ge(0.0)]))
    case _ => ErrorOf(StringField(body, Name(f)))
  }

  /** Every field is among the declared ones. */
  lemma AllFieldsDeclared()
    ensures forall f :: f in Fields
  {
    forall f: Field ensures f in Fields {
      assert Fields[FieldIndex(f)] == f;
    }
  }

  /** The position of a field in declaration order. */
  function FieldIndex(f: Field): (i: nat)
    ensures i < |Fields| && Fields[i] == f
  {
    match f
    case TransactionAmount => 0
    case MerchantType => 1
    case Country => 2
    case TimeDelta => 3
    case DeviceType => 4
  }

  /** The 422 error detail: each failing field with the reason it fails. */
  function Errors(body: Body): (errors: map<Field, ErrorKind>)
    ensures forall f :: f in errors <==> !Acceptable(body, f)
    ensures forall f :: f in errors ==> Some(errors[f]) == CheckField(body, f)
  {
    AllFieldsDeclared();
    map f | f in Fields && CheckField(body, f).Some? :: CheckField(body, f).value
  }

  /** FraudRequest validation of a JSON body: the request, or every failing field. */
  function ParseRequest(body: Body): (r: Result<FraudRequest, map<Field, ErrorKind>>)
    ensures r.Success? <==> forall f :: Acceptable(body, f)
    ensures r.Success? ==> ValidRequest(r.value)
    ensures r.Success? ==>
      && Acceptable(body, TransactionAmount) && Acceptable(body, MerchantType)
      && Acceptable(body, Country) && Acceptable(body, TimeDelta) && Acceptable(body, DeviceType)
      && r.value == FraudRequest(body["transaction_amount"].n, body["merchant_type"].s,
           body["country"].s, body["time_delta"].n, body["device_type"].s)
    ensures r.Failure? ==> r.error == Errors(body) && r.error != map[]
  {
    var errors := Errors(body);
    if errors == map[] then
      assert Acceptable(body, TransactionAmount) && Acceptable(body, MerchantType) && Acceptable(body, Country)
        && Acceptable(body, TimeDelta) && Acceptable(body, DeviceType);
      Success(FraudRequest(body["transaction_amount"].n, body["merchant_type"].s,
        body["country"].s, body["time_delta"].n, body["device_type"].s))
    else
      assert exists f :: f in errors;
      Failure(errors)
  }

  /** A negative amount such as -100 is rejected, and the error names transaction_amount. */
  lemma NonPositiveAmountRejected(body: Body, x: real)
    requires "transaction_amount" in body && body["transaction_amount"] == Number(x) && x <= 0.0
    ensures ParseRequest(body).Failure?
    ensures TransactionAmount in ParseRequest(body).error
  {
    assert !Acceptable(body, TransactionAmount);
  }

  /** Omitting any one declared field is rejected, and the error names that field. */
  lemma MissingFieldRejected(body: Body, f: Field)
    ensures ParseRequest(body - {Name(f)}).Failure?
    ensures ParseRequest(body - {Name(f)}).error[f] == Missing
  {
    assert !Acceptable(body - {Name(f)}, f);
  }

  /** Any strings are accepted for the category fields: there is no enumeration check. */
  lemma AnyCategoryAccepted(amount: real, merchant: string, country: string, delta: real, device: string)
    requires amount > 0.0 && delta >= 0.0
    ensures ParseRequest(map[
      "transaction_amount" := Number(amount), "merchant_type" := Text(merchant),
      "country" := Text(country), "time_delta" := Number(delta), "device_type" := Text(device)])
      == Success(FraudRequest(amount, merchant, country, delta, device))
  {
    var body := map[
      "transaction_amount" := Number(amount), "merchant_type" := Text(merchant),
      "country" := Text(country), "time_delta" := Number(delta), "device_type" := Text(device)];
    assert forall f :: Acceptable(body, f);
  }

  /** The response returned by the endpoint. */
  datatype FraudResponse = FraudResponse(fraudProbability: real, modelVersion: string, latencyMs: real)

  /** FraudResponse construction, which validates fraud_probability against [0, 1]. */
  function MakeResponse(probability: real, modelVersion: string, latencyMs: real): (r: Result<FraudResponse, ErrorKind>)
    ensures r.Success? <==> 0.0 <= probability <= 1.0
    ensures r.Success? ==> r.value == FraudResponse(probability, modelVersion, latencyMs)
  {
    match FirstViolated(probability, [Ge(0.0), Le(1.0)])
    case None =>
      assert Satisfies(probability, [Ge(0.0), Le(1.0)][0]) && Satisfies(probability, [Ge(0.0), Le(1.0)][1]);
      Success(FraudResponse(probability, modelVersion, latencyMs))
    case Some(c) => Failure(Violates(c))
  }
}
