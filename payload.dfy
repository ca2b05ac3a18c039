/** Request-body validation as the web framework performs it for a declared schema
    field: the field must be present, have the declared type, and satisfy each of its
    range constraints (gt, ge, le). The schemas report every failing field with its reason. */
module Payload {
  import opened Wrappers

  /** A JSON value as far as validation distinguishes it. 'Other' stands for null,
      booleans, arrays and objects. */
  datatype Json = Number(n: real) | Text(s: string) | Other

  /** A JSON object body: field name to value. Fields the schema does not declare are ignored. */
  type Body = map<string, Json>

  /** The numeric constraints of a schema field. */
  datatype Constraint = Gt(bound: real) | Ge(bound: real) | Le(bound: real)

  datatype ErrorKind = Missing | NotANumber | NotAString | Violates(constraint: Constraint)

  predicate Satisfies(x: real, c: Constraint)
  {
    match c
    case Gt(b) => x > b
    case Ge(b) => x >= b
    case Le(b) => x <= b
  }

  predicate SatisfiesAll(x: real, cs: seq<Constraint>)
  {
    forall i :: 0 <= i < |cs| ==> Satisfies(x, cs[i])
  }

  /** A single constraint is satisfied exactly when its one check holds. */
  lemma SatisfiesSingle()
    ensures forall x: real, c: Constraint :: SatisfiesAll(x, [c]) <==> Satisfies(x, c)
  {
    forall x: real, c: Constraint ensures SatisfiesAll(x, [c]) <==> Satisfies(x, c) {
      assert [c][0] == c;
    }
  }

  /** Two constraints are satisfied exactly when both checks hold. */
  lemma SatisfiesPair()
    ensures forall x: real, c: Constraint, d: Constraint ::
      SatisfiesAll(x, [c, d]) <==> Satisfies(x, c) && Satisfies(x, d)
  {
    forall x: real, c: Constraint, d: Constraint
      ensures SatisfiesAll(x, [c, d]) <==> Satisfies(x, c) && Satisfies(x, d)
    {
      assert [c, d][0] == c && [c, d][1] == d;
    }
  }

  /** The first constraint of cs that x violates, checked in declaration order. */
  function FirstViolated(x: real, cs: seq<Constraint>): (r: Option<Constraint>)
    ensures r.None? <==> SatisfiesAll(x, cs)
    ensures r.Some? ==> r.value in cs && !Satisfies(x, r.value)
    ensures r.Some? ==> exists i :: 0 <= i < |cs| && cs[i] == r.value && SatisfiesAll(x, cs[..i])
  {
    if cs == [] then None
    else if !Satisfies(x, cs[0]) then
      assert cs[..0] == [];
      Some(cs[0])
    else
      var rest := FirstViolated(x, cs[1..]);
      assert forall i :: 1 <= i < |cs| ==> cs[i] == cs[1..][i - 1];
      if rest.Some? then
        var j :| 0 <= j < |cs[1..]| && cs[1..][j] == rest.value && SatisfiesAll(x, cs[1..][..j]);
        var before, tail := cs[..j + 1], cs[1..][..j];
        assert forall k :: 1 <= k < j + 1 ==> before[k] == tail[k - 1];
        assert before[0] == cs[0];
        assert cs[j + 1] == rest.value && SatisfiesAll(x, cs[..j + 1]);
        rest
      else rest
  }

  /** A required float field with constraints. JSON integers are numbers too. */
  function NumberField(body: Body, name: string, cs: seq<Constraint>): (r: Result<real, ErrorKind>)
    ensures r.Success? <==> name in body && body[name].Number? && SatisfiesAll(body[name].n, cs)
    ensures r.Success? ==> r.value == body[name].n
    ensures name !in body ==> r == Failure(Missing)
  {
    if name !in body then Failure(Missing)
    else match body[name]
      case Number(x) =>
        (match FirstViolated(x, cs)
         case None => Success(x)
         case Some(c) => Failure(Violates(c)))
      case _ => Failure(NotANumber)
  }

  /** A required string field without constraints: any string is accepted. */
  function StringField(body: Body, name: string): (r: Result<string, ErrorKind>)
    ensures r.Success? <==> name in body && body[name].Text?
    ensures r.Success? ==> r.value == body[name].s
    ensures name !in body ==> r == Failure(Missing)
  {
    if name !in body then Failure(Missing)
    else match body[name]
      case Text(s) => Success(s)
      case _ => Failure(NotAString)
  }

  /** The error of a field check, if any. */
  function ErrorOf<T>(r: Result<T, ErrorKind>): (e: Option<ErrorKind>)
    ensures e.None? <==> r.Success?
    ensures e.Some? ==> e.value == r.error
  {
    match r
    case Success(_) => None
    case Failure(err) => Some(err)
  }
}
