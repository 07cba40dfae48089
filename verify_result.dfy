/** `verify_fixture_result`: decides whether a fixture's result passes, by
    error code when an error is expected and otherwise by comparing the
    normalised result with the expected value. */
module Verification {
  import opened JsonValue
  import opened Outcome
  import opened DeepEquality
  import opened Normalization
  import opened Fixtures

  /** The outcome of the check: it returns, or it raises. */
  datatype Verdict = Passed | Failed(exc: PyException)

  /** `expected.error` is a non-empty record: an error is expected. */
  predicate ExpectsError(ex: ExpectedOutput) {
    ex.error.Some? && ex.error.value != map[]
  }

  /** The decision, given the outcome of normalising the result, which is
      only looked at when no error is expected. */
  function Judge(fixture: ComplianceFixture, result: Json, normalized: Result<Json>): (r: Verdict)
    ensures fixture.expected.None? ==> r == Passed
    ensures r.Failed? ==> r.exc in {AttributeError, KeyError, AssertionError} || normalized == Raise(r.exc)
    ensures fixture.expected.Some? && !ExpectsError(fixture.expected.value) && normalized.Raise? ==>
              r == Failed(normalized.exc)
    ensures fixture.expected.Some? && !ExpectsError(fixture.expected.value) && !fixture.expected.value.structural ==>
              (r == Passed <==> normalized == Ok(fixture.expected.value.value))
  {
    if fixture.expected.None? then Passed
    else
      var ex := fixture.expected.value;
      if ExpectsError(ex) then
        var err := ex.error.value;
        if !result.Obj? then Failed(AttributeError)
        else if !PyEq(Get(result.fields, "kind"), Str("error")) then
          // the message reads the expected code before the assertion is raised
          if "code" in err then Failed(AssertionError) else Failed(KeyError)
        else if "code" !in err then Failed(KeyError)
        else if !PyEq(Get(result.fields, "code"), err["code"]) then Failed(AssertionError)
        else Passed
      else
        match normalized
        case Raise(e) => Failed(e)
        case Ok(n) =>
          var matches := if ex.structural then DeepEqual(n, ex.value, ex.tolerance) else n == ex.value;
          if matches then Passed else Failed(AssertionError)
  }

  /** `verify_fixture_result(fixture, result)` as the source has it. */
  function VerifyFixtureResult(fixture: ComplianceFixture, result: Json): (r: Verdict)
    ensures r.Failed? ==> r.exc in {AttributeError, KeyError, AssertionError}
    ensures fixture.expected.Some? && ExpectsError(fixture.expected.value) ==>
              r == VerifyFixtureResultIntended(fixture, result)
    ensures fixture.expected.Some? && !ExpectsError(fixture.expected.value) && !fixture.expected.value.structural ==>
              (r == Passed <==> Normalized(result) == Ok(fixture.expected.value.value))
  {
    Judge(fixture, result, Normalized(result))
  }

  /** The same check with the corrected normalisation. */
  function VerifyFixtureResultIntended(fixture: ComplianceFixture, result: Json): Verdict {
    Judge(fixture, result, Ok(NormalizedIntended(result)))
  }

  /** Without an expectation every result passes. */
  lemma NoExpectationPasses(fixture: ComplianceFixture, result: Json)
    requires fixture.expected.None?
    ensures VerifyFixtureResult(fixture, result) == Passed
    ensures VerifyFixtureResultIntended(fixture, result) == Passed
  {
  }

  /** With an error expectation the result passes exactly when it is an
      `error` node whose code equals the expected one; its value, the
      expected value and the comparison mode play no part. */
  lemma ErrorExpectation(fixture: ComplianceFixture, result: Json, n1: Result<Json>, n2: Result<Json>, other: ExpectedOutput)
    requires fixture.expected.Some? && ExpectsError(fixture.expected.value)
    requires other.error == fixture.expected.value.error
    ensures var err := fixture.expected.value.error.value;
            Judge(fixture, result, n1) == Passed <==>
              result.Obj? && Get(result.fields, "kind") == Str("error") &&
              "code" in err && PyEq(Get(result.fields, "code"), err["code"])
    ensures Judge(fixture, result, n1) == Judge(fixture.(expected := Some(other)), result, n2)
  {
  }

  /** In structural mode without an error expectation the result passes
      exactly when its normalisation succeeds and deep-equals the expected
      value; when the normalisation raises, that exception is the verdict. */
  lemma StructuralExpectation(fixture: ComplianceFixture, result: Json)
    requires fixture.expected.Some? && !ExpectsError(fixture.expected.value) && fixture.expected.value.structural
    ensures var ex := fixture.expected.value;
            VerifyFixtureResult(fixture, result) == Passed <==>
              Normalized(result).Ok? && DeepEqual(Normalized(result).value, ex.value, ex.tolerance)
    ensures Normalized(result).Raise? ==> VerifyFixtureResult(fixture, result) == Failed(AttributeError)
  {
  }

  /** A fixture expecting a scalar encoding and no error, in either mode and
      at any tolerance, checked against exactly that encoding. */
  lemma ScalarFixtureVerdicts(fixture: ComplianceFixture, kind: Json, x: Json)
    requires IsScalarKind(kind) && (x.Bool? || x.Int? || x.Float? || x.Str?)
    requires fixture.expected.Some? && fixture.expected.value.value == Tagged(kind, x)
    requires !ExpectsError(fixture.expected.value)
    ensures VerifyFixtureResult(fixture, Tagged(kind, x)) == Failed(AttributeError)
    ensures VerifyFixtureResultIntended(fixture, Tagged(kind, x)) == Passed
  {
    PyEqReflexive(x);
  }

  /** As written, every fixture of the registry fails against its own
      expected value, because normalising the result raises; with the
      corrected normalisation every one of them passes. */
  lemma RegistryVerdicts(i: nat)
    requires i < |ComplianceFixtures|
    ensures var f := ComplianceFixtures[i];
            VerifyFixtureResult(f, f.expected.value.value) == Failed(AttributeError) &&
            VerifyFixtureResultIntended(f, f.expected.value.value) == Passed
  {
    RegistryExpectations();
    var f := ComplianceFixtures[i];
    if i == 5 {
      var items := ListConcatExpected.fields["value"].items;
      IntListFixtureVerdicts(f, ListConcatExpected.fields["of"], items);
      assert ListConcatExpected == Obj(map["kind" := Str("list"), "of" := ListConcatExpected.fields["of"], "value" := Arr(items)]);
    } else {
      var v := f.expected.value.value;
      ScalarFixtureVerdicts(f, v.fields["kind"], v.fields["value"]);
    }
  }

  /** A fixture expecting a list of integer encodings that also names its
      element type under `of`, checked against exactly that list: the
      elements make the source's normalisation raise; the corrected one drops
      `of` and passes. */
  lemma IntListFixtureVerdicts(f: ComplianceFixture, of: Json, items: seq<Json>)
    requires |items| > 0
    requires forall i :: 0 <= i < |items| ==> items[i].Obj? && "value" in items[i].fields &&
                                              items[i].fields["value"].Int? &&
                                              items[i] == Tagged(Str("int"), items[i].fields["value"])
    requires f.expected == Some(ExpectedOutput(Obj(map["kind" := Str("list"), "of" := of, "value" := Arr(items)]), true, 0.0, None))
    ensures var v := Obj(map["kind" := Str("list"), "of" := of, "value" := Arr(items)]);
            VerifyFixtureResult(f, v) == Failed(AttributeError) && VerifyFixtureResultIntended(f, v) == Passed
  {
    var fields := map["kind" := Str("list"), "of" := of, "value" := Arr(items)];
    var v := Obj(fields);
    NormalizeScalarPayloadRaises(items[0].fields, fields, items, 0);
    assert !Normalize(items[0], AsWritten).Ok?;
    assert Normalized(v).Raise?;
    forall i | 0 <= i < |items| ensures NormalizedIntended(items[i]) == items[i] && DeepEqual(items[i], items[i], 0.0) {
      IntendedKeepsScalar(Str("int"), items[i].fields["value"]);
      DeepEqualReflexive(items[i], 0.0);
    }
    NormalizeListPayload(fields, items, Intended);
    var w := NormalizedIntended(v);
    assert w.fields["value"].items == items;
    assert w == Tagged(Str("list"), Arr(items));
    DeepEqualList(w.fields, fields, 0.0);
  }
}
