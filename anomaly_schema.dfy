/** The anomaly endpoint's request and response schemas (app/schemas/anomaly.py). */
module AnomalySchema {
  import opened Wrappers
  import opened Payload

  /** A validated anomaly request. */
  datatype AnomalyRequest = AnomalyRequest(
    responseTime: real,
    errorRate: real,
    cpuUsage: real,
    memoryUsage: real)

  /** The declared request fields. */
  datatype Field = ResponseTime | ErrorRate | CpuUsage | MemoryUsage

  /** The fields in declaration order. */
  const Fields: seq<Field> := [ResponseTime, ErrorRate, CpuUsage, MemoryUsage]

  /** A field's JSON name. */
  function Name(f: Field): string
  {
    match f
    case ResponseTime => "response_time"
    case ErrorRate => "error_rate"
    case CpuUsage => "cpu_usage"
    case MemoryUsage => "memory_usage"
  }

  /** What every validated request satisfies: response_time > 0, error_rate in [0, 1],
      cpu_usage and memory_usage in [0, 100]. */
  predicate ValidRequest(r: AnomalyRequest)
  {
    && r.responseTime > 0.0
    && 0.0 <= r.errorRate <= 1.0
    && 0.0 <= r.cpuUsage <= 100.0
    && 0.0 <= r.memoryUsage <= 100.0
  }

  /** Whether the body's value for a declared field passes validation. */
  predicate Acceptable(body: Body, f: Field)
  {
    Name(f) in body && body[Name(f)].Number? &&
    var x := body[Name(f)].n;
    match f
    case ResponseTime => x > 0.0
    case ErrorRate => 0.0 <= x <= 1.0
    case _ => 0.0 <= x <= 100.0
  }

  /** Validation of one declared field: None when it passes, else the reason it fails. */
  function CheckField(body: Body, f: Field): (e: Option<ErrorKind>)
    ensures e.None? <==> Acceptable(body, f)
    ensures Name(f) !in body ==> e == Some(Missing)
  {
    SatisfiesSingle();
    SatisfiesPair();
    match f
    case ResponseTime => ErrorOf(NumberField(body, Name(f), [Gt(0.0)]))
    case ErrorRate => ErrorOf(NumberField(body, Name(f), [Ge(0.0), Le(1.0)]))
    case _ => ErrorOf(NumberField(body, Name(f), [Ge(0.0), Le(100.0)]))
  }

  /** The position of a field in declaration order. */
  function FieldIndex(f: Field): (i: nat)
    ensures i < |Fields| && Fields[i] == f
  {
    match f
    case ResponseTime => 0
    case ErrorRate => 1
    case CpuUsage => 2
    case MemoryUsage => 3
  }

  /** Every field is among the declared ones. */
  lemma AllFieldsDeclared()
    ensures forall f :: f in Fields
  {
    forall f: Field ensures f in Fields {
      assert Fields[FieldIndex(f)] == f;
    }
  }

  /** The 422 error detail: each failing field with the reason it fails. */
  function Errors(body: Body): (errors: map<Field, ErrorKind>)
    ensures forall f :: f in errors <==> !Acceptable(body, f)
    ensures forall f :: f in errors ==> Some(errors[f]) == CheckField(body, f)
  {
    AllFieldsDeclared();
    map f | f in Fields && CheckField(body, f).Some? :: CheckField(body, f).value
  }

  /** AnomalyRequest validation of a JSON body: the request, or every failing field. */
  function ParseRequest(body: Body): (r: Result<AnomalyRequest, map<Field, ErrorKind>>)
    ensures r.Success? <==> forall f :: Acceptable(body, f)
    ensures r.Success? ==> ValidRequest(r.value)
    ensures r.Success? ==>
      && Acceptable(body, ResponseTime) && Acceptable(body, ErrorRate)
      && Acceptable(body, CpuUsage) && Acceptable(body, MemoryUsage)
      && r.value == AnomalyRequest(body["response_time"].n, body["error_rate"].n,
           body["cpu_usage"].n, body["memory_usage"].n)
    ensures r.Failure? ==> r.error == Errors(body) && r.error != map[]
  {
    var errors := Errors(body);
    if errors == map[] then
      assert Acceptable(body, ResponseTime) && Acceptable(body, ErrorRate)
        && Acceptable(body, CpuUsage) && Acceptable(body, MemoryUsage);
      Success(AnomalyRequest(body["response_time"].n, body["error_rate"].n,
        body["cpu_usage"].n, body["memory_usage"].n))
    else
      assert exists f :: f in errors;
      Failure(errors)
  }

  /** An error rate above 1, such as 1.5, is rejected as violating its upper bound. */
  lemma ErrorRateAboveOneRejected(body: Body, x: real)
    requires "error_rate" in body && body["error_rate"] == Number(x) && x > 1.0
    ensures ParseRequest(body).Failure?
    ensures ParseRequest(body).error[ErrorRate] == Violates(Le(1.0))
  {
    assert !Acceptable(body, ErrorRate);
    SatisfiesPair();
  }

  /** Omitting any one declared field is rejected, and the error names that field. */
  lemma MissingFieldRejected(body: Body, f: Field)
    ensures ParseRequest(body - {Name(f)}).Failure?
    ensures ParseRequest(body - {Name(f)}).error[f] == Missing
  {
    assert !Acceptable(body - {Name(f)}, f);
  }

  /** Every in-range combination of the four metrics is accepted unchanged. */
  lemma InRangeAccepted(request: AnomalyRequest)
    requires ValidRequest(request)
    ensures ParseRequest(map[
      "response_time" := Number(request.responseTime), "error_rate" := Number(request.errorRate),
      "cpu_usage" := Number(request.cpuUsage), "memory_usage" := Number(request.memoryUsage)])
      == Success(request)
  {
    var body := map[
      "response_time" := Number(request.responseTime), "error_rate" := Number(request.errorRate),
      "cpu_usage" := Number(request.cpuUsage), "memory_usage" := Number(request.memoryUsage)];
    assert forall f :: Acceptable(body, f);
  }

  /** The response returned by the endpoint. */
  datatype AnomalyResponse = AnomalyResponse(anomalyScore: real, modelVersion: string, latencyMs: real)

  /** AnomalyResponse construction, which validates anomaly_score against [0, 1]. */
  function MakeResponse(score: real, modelVersion: string, latencyMs: real): (r: Result<AnomalyResponse, ErrorKind>)
    ensures r.Success? <==> 0.0 <= score <= 1.0
    ensures r.Success? ==> r.value == AnomalyResponse(score, modelVersion, latencyMs)
  {
    SatisfiesPair();
    match FirstViolated(score, [Ge(0.0), Le(1.0)])
    case None => Success(AnomalyResponse(score, modelVersion, latencyMs))
    case Some(c) => Failure(Violates(c))
  }
}
