/** The fixture registry of the compliance suite, the lookups over it, and
    the choice of evaluator entry point for a fixture's layer. */
module Fixtures {
  import opened JsonValue
  import opened Outcome

  /** What a fixture's run must produce. `tolerance` is the float tolerance
      (0 by default); `error`, when a non-empty record, expects an error. */
  datatype ExpectedOutput = ExpectedOutput(
    value: Json,
    structural: bool,
    tolerance: real,
    error: Option<map<string, Json>>)

  datatype FixtureMetadata = FixtureMetadata(layer: string, category: string, description: string)

  datatype ComplianceFixture = ComplianceFixture(
    id: string,
    documentPath: string,
    inputsPath: Option<string>,
    expected: Option<ExpectedOutput>,
    metadata: Option<FixtureMetadata>)

  /** The expected value of the list concatenation fixture, which also
      carries the element type under `of`. */
  const ListConcatExpected: Json :=
    Obj(map["kind" := Str("list"),
            "of" := Obj(map["kind" := Str("int")]),
            "value" := Arr([Tagged(Str("int"), Int(1)), Tagged(Str("int"), Int(2)), Tagged(Str("int"), Int(3)), Tagged(Str("int"), Int(4))])])

  /** A registry entry: no inputs file, a structural expectation with the
      default tolerance and no error expectation. */
  function Fixture(id: string, path: string, value: Json, layer: string, category: string, description: string): ComplianceFixture {
    ComplianceFixture(id, path, None, Some(ExpectedOutput(value, true, 0.0, None)),
                      Some(FixtureMetadata(layer, category, description)))
  }

  /** The shared registry, in source order. */
  const ComplianceFixtures: seq<ComplianceFixture> := [
      Fixture("air-arithmetic-add",
              "examples/air/basics/arithmetic/arithmetic.air.json",
              Tagged(Str("int"), Int(42)), "AIR", "basics", "Arithmetic operations (add, sub, mul, div)"),
      Fixture("air-comparisons-lt",
              "examples/air/basics/comparisons/comparisons.air.json",
              Tagged(Str("bool"), Bool(true)), "AIR", "basics", "Comparison operations (eq, lt, gt, le, ge)"),
      Fixture("air-boolean-logic",
              "examples/air/basics/boolean-logic/boolean-logic.air.json",
              Tagged(Str("bool"), Bool(true)), "AIR", "basics", "Boolean operations (and, or, not)"),
      Fixture("air-list-length",
              "examples/air/data-structures/list-length/list-length.air.json",
              Tagged(Str("int"), Int(3)), "AIR", "data-structures", "List length operation"),
      Fixture("air-list-nth",
              "examples/air/data-structures/list-nth/list-nth.air.json",
              Tagged(Str("int"), Int(2)), "AIR", "data-structures", "List nth element access"),
      Fixture("air-list-concat",
              "examples/air/data-structures/list-concat/list-concat.air.json",
              ListConcatExpected, "AIR", "data-structures", "List concatenation"),
      Fixture("air-simple-if",
              "examples/air/control-flow/simple-if/simple-if.air.json",
              Tagged(Str("int"), Int(10)), "AIR", "control-flow", "Simple conditional expression"),
      Fixture("cir-identity-lambda",
              "examples/cir/basics/identity-lambda/identity-lambda.cir.json",
              Tagged(Str("int"), Int(42)), "CIR", "basics", "Identity lambda function"),
      Fixture("cir-closures",
              "examples/cir/basics/closures/closures.cir.json",
              Tagged(Str("int"), Int(15)), "CIR", "basics", "Closure capturing environment"),
      Fixture("cir-fix-factorial",
              "examples/cir/fixpoint/fix-factorial/fix-factorial.cir.json",
              Tagged(Str("int"), Int(120)), "CIR", "fixpoint", "Factorial via fixpoint combinator"),
      Fixture("eir-sequencing",
              "examples/eir/basics/sequencing/sequencing.eir.json",
              Tagged(Str("int"), Int(10)), "EIR", "basics", "Sequential execution"),
      Fixture("eir-assignment",
              "examples/eir/basics/assignment/assignment.eir.json",
              Tagged(Str("int"), Int(5)), "EIR", "basics", "Variable assignment"),
      Fixture("eir-while-loop",
              "examples/eir/loops/while-loop/while-loop.eir.json",
              Tagged(Str("int"), Int(10)), "EIR", "loops", "While loop iteration"),
      Fixture("lir-straight-line",
              "examples/lir/basics/straight-line/straight-line.lir.json",
              Tagged(Str("int"), Int(7)), "LIR", "basics", "Straight-line code execution"),
      Fixture("lir-conditional",
              "examples/lir/basics/conditional/conditional.lir.json",
              Tagged(Str("int"), Int(10)), "LIR", "basics", "Conditional branch execution"),
      Fixture("lir-factorial",
              "examples/lir/algorithms/factorial/factorial.lir.json",
              Tagged(Str("int"), Int(120)), "LIR", "algorithms", "Factorial algorithm")
  ]

  /** `f.metadata and f.metadata.layer == layer`. */
  predicate InLayer(f: ComplianceFixture, layer: string) {
    f.metadata.Some? && f.metadata.value.layer == layer
  }

  /** The fixtures of one layer, in order: each fixture of that layer is
      kept as often as it occurs, every other fixture is dropped. */
  function SelectByLayer(fixtures: seq<ComplianceFixture>, layer: string): (r: seq<ComplianceFixture>)
    ensures forall i :: 0 <= i < |r| ==> InLayer(r[i], layer)
  {
    if fixtures == [] then []
    else (if InLayer(fixtures[0], layer) then [fixtures[0]] else []) + SelectByLayer(fixtures[1..], layer)
  }

  /** Each fixture of the layer is kept as often as it occurs; every other
      fixture is dropped. */
  lemma {:induction false} SelectByLayerCounts(fixtures: seq<ComplianceFixture>, layer: string, f: ComplianceFixture)
    ensures multiset(SelectByLayer(fixtures, layer))[f] == if InLayer(f, layer) then multiset(fixtures)[f] else 0
  {
    if fixtures != [] {
      assert fixtures == [fixtures[0]] + fixtures[1..];
      SelectByLayerCounts(fixtures[1..], layer, f);
    }
  }

  /** A fixture is selected exactly when it is in the run and in the layer. */
  lemma SelectByLayerMembers(fixtures: seq<ComplianceFixture>, layer: string)
    ensures forall f :: f in SelectByLayer(fixtures, layer) <==> f in fixtures && InLayer(f, layer)
  {
    var r := SelectByLayer(fixtures, layer);
    forall f ensures f in r <==> f in fixtures && InLayer(f, layer) {
      SelectByLayerCounts(fixtures, layer, f);
      assert f in r <==> f in multiset(r);
      assert f in fixtures <==> f in multiset(fixtures);
    }
  }

  /** `get_fixtures_by_layer(layer)`. */
  function GetFixturesByLayer(layer: string): (r: seq<ComplianceFixture>)
    ensures forall f :: f in r <==> f in ComplianceFixtures && InLayer(f, layer)
  {
    SelectByLayerMembers(ComplianceFixtures, layer);
    SelectByLayer(ComplianceFixtures, layer)
  }

  /** `get_fixture_by_id(fixture_id)`: the first registry entry with that
      id, or none. */
  method GetFixtureById(fixtureId: string) returns (r: Option<ComplianceFixture>)
    ensures r.None? <==> forall i :: 0 <= i < |ComplianceFixtures| ==> ComplianceFixtures[i].id != fixtureId
    ensures r.Some? ==> exists i :: 0 <= i < |ComplianceFixtures| && ComplianceFixtures[i] == r.value &&
                                     r.value.id == fixtureId &&
                                     forall j :: 0 <= j < i ==> ComplianceFixtures[j].id != fixtureId
  {
    var i := 0;
    while i < |ComplianceFixtures|
      invariant 0 <= i <= |ComplianceFixtures|
      invariant forall j :: 0 <= j < i ==> ComplianceFixtures[j].id != fixtureId
    {
      if ComplianceFixtures[i].id == fixtureId {
        return Some(ComplianceFixtures[i]);
      }
      i := i + 1;
    }
    return None;
  }

  /** No two registry entries share an id, so the lookup by id finds the
      only entry that has it. */
  lemma RegistryIdsDistinct()
    ensures forall i, j :: 0 <= i < j < |ComplianceFixtures| ==> ComplianceFixtures[i].id != ComplianceFixtures[j].id
  {
  }

  /** Selecting from two runs of fixtures selects from each in turn. */
  lemma {:induction false} SelectByLayerAppend(a: seq<ComplianceFixture>, b: seq<ComplianceFixture>, layer: string)
    ensures SelectByLayer(a + b, layer) == SelectByLayer(a, layer) + SelectByLayer(b, layer)
  {
    if a == [] {
      assert a + b == b;
    } else {
      var head := if InLayer(a[0], layer) then [a[0]] else [];
      assert (a + b)[0] == a[0];
      assert (a + b)[1..] == a[1..] + b;
      SelectByLayerAppend(a[1..], b, layer);
      calc {
        SelectByLayer(a + b, layer);
        head + SelectByLayer(a[1..] + b, layer);
        head + (SelectByLayer(a[1..], layer) + SelectByLayer(b, layer));
        (head + SelectByLayer(a[1..], layer)) + SelectByLayer(b, layer);
        SelectByLayer(a, layer) + SelectByLayer(b, layer);
      }
    }
  }

  /** A run entirely of the layer is selected whole. */
  lemma {:induction false} SelectByLayerAll(run: seq<ComplianceFixture>, layer: string)
    requires forall i :: 0 <= i < |run| ==> InLayer(run[i], layer)
    ensures SelectByLayer(run, layer) == run
  {
    if run != [] {
      SelectByLayerAll(run[1..], layer);
      assert run == [run[0]] + run[1..];
    }
  }

  /** A run entirely outside the layer is dropped. */
  lemma {:induction false} SelectByLayerNone(run: seq<ComplianceFixture>, layer: string, other: string)
    requires forall i :: 0 <= i < |run| ==> InLayer(run[i], other)
    requires other != layer
    ensures SelectByLayer(run, layer) == []
  {
    if run != [] {
      SelectByLayerNone(run[1..], layer, other);
    }
  }

  /** The fixtures from index `lo` up to `hi` all belong to `layer`. */
  predicate RunInLayer(lo: nat, hi: nat, layer: string)
    requires lo <= hi <= |ComplianceFixtures|
  {
    forall i :: 0 <= i < hi - lo ==> InLayer(ComplianceFixtures[lo..hi][i], layer)
  }

  lemma RegistryRuns()
    ensures |ComplianceFixtures| == 16
    ensures RunInLayer(0, 7, "AIR") && RunInLayer(7, 10, "CIR")
    ensures RunInLayer(10, 13, "EIR") && RunInLayer(13, 16, "LIR")
  {
  }

  /** Each layer's fixtures in a run of fixtures split into the four
      layer blocks. */
  lemma SelectFromBlocks(air: seq<ComplianceFixture>, cir: seq<ComplianceFixture>,
                         eir: seq<ComplianceFixture>, lir: seq<ComplianceFixture>, l: string)
    requires forall i :: 0 <= i < |air| ==> InLayer(air[i], "AIR")
    requires forall i :: 0 <= i < |cir| ==> InLayer(cir[i], "CIR")
    requires forall i :: 0 <= i < |eir| ==> InLayer(eir[i], "EIR")
    requires forall i :: 0 <= i < |lir| ==> InLayer(lir[i], "LIR")
    ensures SelectByLayer(air + cir + eir + lir, l) ==
            if l == "AIR" then air else if l == "CIR" then cir else if l == "EIR" then eir
            else if l == "LIR" then lir else []
  {
    SelectByLayerAppend(air + cir + eir, lir, l);
    SelectByLayerAppend(air + cir, eir, l);
    SelectByLayerAppend(air, cir, l);
    if l == "AIR" {
      SelectByLayerAll(air, l);
      SelectByLayerNone(cir, l, "CIR");
      SelectByLayerNone(eir, l, "EIR");
      SelectByLayerNone(lir, l, "LIR");
    } else if l == "CIR" {
      SelectByLayerNone(air, l, "AIR");
      SelectByLayerAll(cir, l);
      SelectByLayerNone(eir, l, "EIR");
      SelectByLayerNone(lir, l, "LIR");
    } else if l == "EIR" {
      SelectByLayerNone(air, l, "AIR");
      SelectByLayerNone(cir, l, "CIR");
      SelectByLayerAll(eir, l);
      SelectByLayerNone(lir, l, "LIR");
    } else if l == "LIR" {
      SelectByLayerNone(air, l, "AIR");
      SelectByLayerNone(cir, l, "CIR");
      SelectByLayerNone(eir, l, "EIR");
      SelectByLayerAll(lir, l);
    } else {
      SelectByLayerNone(air, l, "AIR");
      SelectByLayerNone(cir, l, "CIR");
      SelectByLayerNone(eir, l, "EIR");
      SelectByLayerNone(lir, l, "LIR");
    }
  }

  /** The registry holds seven AIR, three CIR, three EIR and three LIR
      fixtures, in that order, and nothing else. */
  lemma RegistryLayers(l: string)
    ensures GetFixturesByLayer(l) ==
            if l == "AIR" then ComplianceFixtures[..7] else if l == "CIR" then ComplianceFixtures[7..10]
            else if l == "EIR" then ComplianceFixtures[10..13] else if l == "LIR" then ComplianceFixtures[13..]
            else []
  {
    RegistryRuns();
    var air, cir, eir, lir := ComplianceFixtures[..7], ComplianceFixtures[7..10],
                              ComplianceFixtures[10..13], ComplianceFixtures[13..];
    assert ComplianceFixtures == air + cir + eir + lir;
    SelectFromBlocks(air, cir, eir, lir, l);
  }

  /** A structural expectation of a scalar encoding with the default
      tolerance and no error expectation. */
  predicate ExpectsScalar(f: ComplianceFixture) {
    f.expected.Some? && f.expected.value.value.Obj? &&
    var v := f.expected.value.value;
    "kind" in v.fields && "value" in v.fields &&
    var kind, x := v.fields["kind"], v.fields["value"];
    ((kind == Str("int") && x.Int?) || (kind == Str("bool") && x.Bool?)) &&
    f.expected == Some(ExpectedOutput(Tagged(kind, x), true, 0.0, None))
  }

  /** The scalar expectations of the registry, a few entries at a time. */
  lemma RegistryScalars0To4()
    ensures |ComplianceFixtures| == 16
    ensures forall i :: 0 <= i < 5 ==> ExpectsScalar(ComplianceFixtures[i])
  {
  }

  lemma RegistryScalars6To9()
    ensures |ComplianceFixtures| == 16
    ensures forall i :: 6 <= i < 10 ==> ExpectsScalar(ComplianceFixtures[i])
  {
  }

  lemma RegistryScalars10To12()
    ensures |ComplianceFixtures| == 16
    ensures forall i :: 10 <= i < 13 ==> ExpectsScalar(ComplianceFixtures[i])
  {
  }

  lemma RegistryScalars13To15()
    ensures |ComplianceFixtures| == 16
    ensures forall i :: 13 <= i < 16 ==> ExpectsScalar(ComplianceFixtures[i])
  {
  }

  /** Every registry entry but the list concatenation expects a scalar; that
      one expects the concatenated list. */
  lemma RegistryExpectations()
    ensures |ComplianceFixtures| == 16
    ensures forall i :: 0 <= i < 16 && i != 5 ==> ExpectsScalar(ComplianceFixtures[i])
    ensures ComplianceFixtures[5].expected == Some(ExpectedOutput(ListConcatExpected, true, 0.0, None))
  {
    RegistryScalars0To4();
    RegistryScalars6To9();
    RegistryScalars10To12();
    RegistryScalars13To15();
  }

  /** The evaluator entry points a fixture can be routed to. */
  datatype EntryPoint = EvaluateAirCir | EvaluateEir | EvaluateLir | EvaluateLirAsync

  /** The layer a fixture runs in; a fixture without metadata runs as AIR. */
  function LayerOf(f: ComplianceFixture): (r: string)
    ensures f.metadata.Some? ==> InLayer(f, r)
    ensures f.metadata.None? ==> r == "AIR"
  {
    if f.metadata.Some? then f.metadata.value.layer else "AIR"
  }

  /** The routing step of `execute_fixture`. `hasFork` is the outcome of
      scanning the serialised document for a fork terminator. */
  function EntryPointFor(f: ComplianceFixture, hasFork: bool): (r: Result<EntryPoint>)
    ensures r.Raise? <==> LayerOf(f) !in {"AIR", "CIR", "EIR", "LIR"}
    ensures r.Raise? ==> r.exc == ValueError
    ensures r == Ok(EvaluateLirAsync) <==> LayerOf(f) == "LIR" && hasFork
    ensures r == Ok(EvaluateLir) <==> LayerOf(f) == "LIR" && !hasFork
    ensures r == Ok(EvaluateAirCir) <==> LayerOf(f) in {"AIR", "CIR"}
  {
    match LayerOf(f)
    case "AIR" => Ok(EvaluateAirCir)
    case "CIR" => Ok(EvaluateAirCir)
    case "EIR" => Ok(EvaluateEir)
    case "LIR" => if hasFork then Ok(EvaluateLirAsync) else Ok(EvaluateLir)
    case _ => Raise(ValueError)
  }

  /** Every registry fixture is routed to an entry point; only an LIR
      fixture whose document has a fork goes to the concurrent evaluator. */
  lemma RegistryRoutes(hasFork: bool)
    ensures forall f :: f in ComplianceFixtures ==> EntryPointFor(f, hasFork).Ok?
    ensures forall f :: f in ComplianceFixtures && EntryPointFor(f, hasFork) == Ok(EvaluateLirAsync) ==>
              f in GetFixturesByLayer("LIR") && hasFork
  {
  }
}
