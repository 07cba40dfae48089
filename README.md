# SPIRAL compliance harness — a Dafny model

SPIRAL evaluates programs written in a family of staged intermediate
representations (AIR, CIR, EIR, LIR). Every runtime value travels in one
tagged JSON encoding, e.g. `{"kind": "int", "value": 42}`. The Python
compliance suite runs a shared set of fixtures through the Python evaluators.
It then decides whether each result matches the expected value in that
encoding.

This project models the suite's own logic over the tagged encoding:

- `deep_equal`: structural equality that dispatches on the `kind` tag
  (module `DeepEquality`);
- `normalize_value`: removes closure environments and future task ids and
  rebuilds list- and record-valued nodes (module `Normalization`). It comes
  as a recursive method with the record loop of the source, and a function
  that specifies it;
- the fixture registry, `get_fixtures_by_layer`, `get_fixture_by_id`, and
  the layer-to-entry-point routing of `execute_fixture` (module `Fixtures`);
- `verify_fixture_result`, the pass/fail decision (module `Verification`).

Decoded JSON is the datatype `JsonValue.Json`. Python's `==` on decoded
values is `JsonValue.PyEq`: `True == 1 == 1.0`, and lists and dicts compare
element-wise. Comparing `json.dumps(..., sort_keys=True)` strings is
structural equality (`==`) of `Json` values, which tells `true` from `1`.
`d.get(k)` is `Get`, which reads a missing key as null, as Python does.
Exceptions the harness can raise are `Outcome.PyException`; a function that
can raise returns `Outcome.Result`.

## Model

| member | source | states |
|---|---|---|
| `JsonValue.PyEq` | src/pyspiral/test/compliance_test.py:70-71 | Python `==` on decoded values: on None and strings it is identity; otherwise it relates only numbers to numbers (bool, int and float alike), lists to lists and dicts to dicts |
| `DeepEquality.DeepEqualCoercesBool` | src/pyspiral/test/compliance_test.py:70-86 | Python equality, used for bare values and scalar `value` fields, equates `true` with `1` and `1` with `1.0` |
| `DeepEquality.DeepEqualSerialisedNoCoercion` | src/pyspiral/test/compliance_test.py:112-127 | the canonical serialisation used for set elements and unknown kinds tells `true` from `1`: the sets `[true]` and `[1]` differ, and so do two nodes of an unknown kind with those payloads |
| `DeepEquality.DeepEqual` | src/pyspiral/test/compliance_test.py:59-80 | with a null actual value the result is true exactly when the expected value is null; a non-null actual against a null expected is false; when either side is not a dict, the result is Python `==`; two dicts whose `kind` tags differ are unequal |
| `DeepEquality.DeepEqualList` | src/pyspiral/test/compliance_test.py:95-105 | for every list node whose tag does not clash with the expected one, a missing payload reads as the empty list; the result is false when either payload is not a list or the lengths differ, otherwise true exactly when every index pair is deep-equal; a list node without payload equals exactly the nodes whose payload is missing or empty |
| `DeepEquality.DeepEqualMalformedList` | src/pyspiral/test/compliance_test.py:96-99 | a list node whose `value` is present but not a list matches no expected value at any tolerance, itself included |
| `DeepEquality.DeepEqualSetPermutation` | src/pyspiral/test/compliance_test.py:107-117 | for every set node, permuting the actual elements never changes the result |
| `DeepEquality.SetCheckIsPermutation` | src/pyspiral/test/compliance_test.py:107-117 | when the expected elements have no repeats, the set check (equal lengths, every expected element present) holds exactly when the actual elements are a permutation of the expected ones |
| `DeepEquality.SetCheckOneSided` | src/pyspiral/test/compliance_test.py:112-117 | with repeated expected elements the check is one-sided: `[1,2]` matches expected `[1,1]`, but not the reverse |
| `DeepEquality.DeepEqualScalarIgnoresOtherKeys` | src/pyspiral/test/compliance_test.py:85-86 | `int`/`bool`/`string` nodes are equal exactly when their `value` fields are Python-equal; adding or changing any other key on either side changes nothing |
| `DeepEquality.DeepEqualErrorComparesCode` | src/pyspiral/test/compliance_test.py:122-123 | `error` nodes are equal exactly when their `code` fields are Python-equal; adding or changing any other key on either side changes nothing |
| `DeepEquality.DeepEqualUnknownKind` | src/pyspiral/test/compliance_test.py:125-127 | a node of any other kind (or with no kind) is equal exactly when the two values are structurally identical |
| `DeepEquality.DeepEqualReflexive` | src/pyspiral/test/compliance_test.py:59-127 | every value whose list and set nodes carry list payloads deep-equals itself, at any tolerance |
| `Normalization.Normalize` | src/pyspiral/test/compliance_test.py:130-171 | the only exception normalisation raises is AttributeError; under the corrected reading it never raises |
| `Normalization.NormalizeValue` | src/pyspiral/test/compliance_test.py:130-171 | the recursive procedure, with the loop that fills the normalised record, returns exactly the specified normal form or the exception |
| `Normalization.NormalizeClosure` | src/pyspiral/test/compliance_test.py:139-145 | a closure becomes exactly `{kind, params, body, env: "<env>"}`; ids and environment contents are dropped |
| `Normalization.NormalizeFuture` | src/pyspiral/test/compliance_test.py:148-153 | a future becomes exactly `{kind, of, status}` with `of` normalised, or raises when that does; task ids are dropped |
| `Normalization.NormalizeUnchanged` | src/pyspiral/test/compliance_test.py:135-171 | non-dicts come back unchanged, and so do dicts other than closures and futures whose `value` is missing or null |
| `Normalization.NormalizeListPayload` | src/pyspiral/test/compliance_test.py:156-161 | a list-valued node succeeds exactly when every element normalises; it then becomes `{kind, value}` with every element normalised, and other keys such as `of` are dropped |
| `Normalization.NormalizeRecordPayload` | src/pyspiral/test/compliance_test.py:162-169 | a record-valued node succeeds exactly when every field normalises; it then becomes `{kind, value}` with the same field names, each field normalised |
| `Normalization.NormalizeScalarPayloadRaises` | src/pyspiral/test/compliance_test.py:156-165 | as written, a node other than a closure or future whose `value` is a bool, number or string raises AttributeError, and so does every list-valued node that holds such a node at any position |
| `Normalization.NormalizeIdempotent` | src/pyspiral/test/compliance_test.py:130-171 | normalising an already normalised value gives it back unchanged, under either reading |
| `Normalization.IntendedAgreesWhereAsWrittenSucceeds` | src/pyspiral/test/compliance_test.py:155-171 | wherever the source's normalisation succeeds, the corrected one gives the same value |
| `Normalization.AsWrittenRaisesOnInt` | src/pyspiral/test/compliance_test.py:156-165 | as written, normalising `{"kind": "int", "value": 42}` raises |
| `Normalization.IntendedKeepsScalar` | src/pyspiral/test/compliance_test.py:155-171 | corrected: a scalar encoding comes back unchanged |
| `Fixtures.ComplianceFixtures` | src/pyspiral/test/compliance_test.py:179-428 | the shared registry, entry by entry: id, document path, no inputs file, a structural expectation with zero tolerance and no error expectation, and metadata (layer, category, description) |
| `Fixtures.RegistryRuns` | src/pyspiral/test/compliance_test.py:179-428 | the registry has 16 fixtures: 7 AIR, then 3 CIR, 3 EIR and 3 LIR |
| `Fixtures.RegistryIdsDistinct` | src/pyspiral/test/compliance_test.py:179-428 | no two registry fixtures share an id |
| `Fixtures.RegistryExpectations` | src/pyspiral/test/compliance_test.py:179-428 | every registry fixture expects, structurally and with zero tolerance, an int or bool encoding, except list concatenation, which expects a list of int encodings with an `of` key |
| `Fixtures.SelectByLayer` | src/pyspiral/test/compliance_test.py:459-461 | every selected fixture has metadata naming the requested layer |
| `Fixtures.SelectByLayerCounts` | src/pyspiral/test/compliance_test.py:459-461 | a fixture of the layer is kept as many times as it occurs; any other fixture is dropped |
| `Fixtures.SelectByLayerMembers` | src/pyspiral/test/compliance_test.py:459-461 | a fixture is selected exactly when it is in the input and has that layer |
| `Fixtures.SelectByLayerAppend` | src/pyspiral/test/compliance_test.py:459-461 | selection keeps order: selecting from two concatenated runs concatenates the selections |
| `Fixtures.GetFixturesByLayer` | src/pyspiral/test/compliance_test.py:459-461 | a fixture is returned exactly when it is in the registry and has the requested layer |
| `Fixtures.RegistryLayers` | src/pyspiral/test/compliance_test.py:459-461 | for the registry, each layer query returns exactly that layer's block, in registry order; an unknown layer returns nothing |
| `Fixtures.GetFixtureById` | src/pyspiral/test/compliance_test.py:464-469 | returns none exactly when no registry fixture has the id; otherwise the first registry fixture with that id |
| `Fixtures.LayerOf` | src/pyspiral/test/compliance_test.py:483 | the layer a fixture runs in is the layer its metadata names; without metadata it is AIR |
| `Fixtures.EntryPointFor` | src/pyspiral/test/compliance_test.py:483-514 | AIR and CIR go to the AIR/CIR evaluator and EIR to the EIR evaluator; LIR goes to the concurrent evaluator exactly when the document has a fork, and to the synchronous one otherwise; any other layer raises ValueError; a fixture without metadata runs as AIR |
| `Fixtures.RegistryRoutes` | src/pyspiral/test/compliance_test.py:483-514 | every registry fixture is routed without error; only LIR fixtures reach the concurrent evaluator |
| `Verification.Judge` | src/pyspiral/test/compliance_test.py:517-554 | the decision given the normalisation outcome: no expectation passes; the only exceptions are AttributeError, KeyError, AssertionError or the one normalisation raised; with no error expected, a raising normalisation is the verdict, and in string mode the result passes exactly when its normal form equals the expected value |
| `Verification.VerifyFixtureResult` | src/pyspiral/test/compliance_test.py:517-554 | `verify_fixture_result` raises only AttributeError, KeyError or AssertionError; when an error is expected the flaw in normalisation makes no difference; in string mode the result passes exactly when normalisation succeeds with the expected value |
| `Verification.NoExpectationPasses` | src/pyspiral/test/compliance_test.py:521-522 | with no expectation, every result passes |
| `Verification.ErrorExpectation` | src/pyspiral/test/compliance_test.py:526-532 | with a non-empty error expectation, a result passes exactly when it is a dict whose kind is `error` and whose code equals the expected code; the expected value, mode and normalisation play no part |
| `Verification.StructuralExpectation` | src/pyspiral/test/compliance_test.py:534-544 | in structural mode a result passes exactly when its normalisation succeeds and deep-equals the expected value at the fixture's tolerance; if normalisation raises, that AttributeError is the verdict |
| `Verification.ScalarFixtureVerdicts` | src/pyspiral/test/compliance_test.py:534-554 | a fixture expecting an `int`, `bool` or `string` encoding whose payload is a bool, int, float or string, with no error expected, in either mode and at any tolerance, given exactly that encoding, fails as written and passes when corrected |
| `Verification.IntListFixtureVerdicts` | src/pyspiral/test/compliance_test.py:534-544 | a structural, zero-tolerance fixture expecting a non-empty list of int encodings with an `of` key, given exactly that list, fails as written and passes when corrected |
| `Verification.RegistryVerdicts` | src/pyspiral/test/compliance_test.py:517-544 | as written, every registry fixture fails against its own expected value; with the corrected normalisation every one passes |

## Left out

- The four evaluators and the registries (`evaluate_air_cir`,
  `evaluate_eir`, `evaluate_lir`, `evaluate_lir_async`, `empty_registry`,
  `empty_defs`, `empty_effect_registry`) are not part of this model: their
  source is not available. `execute_fixture` is modelled only as the choice
  of entry point (`Fixtures.EntryPointFor`).
- Fixtures.EntryPointFor: the textual scan of the serialised document for
  `"kind": "fork"` is a boolean parameter. The evaluator call and its
  awaiting are not modelled.
- `load_fixture_document` and `load_fixture_inputs` are not modelled: they
  are file-system I/O.
- `run_all_fixtures` and `print_summary` are not modelled: they are asyncio
  scheduling, exception catching, printing and the process exit code.
- DeepEquality.DeepEqual: floats are exact reals. IEEE rounding in
  `abs(a - b)`, NaN, infinities, `-0.0`, and the rounding of large ints
  converted to float are not modelled.
- DeepEquality.DeepEqual: `json.dumps(..., sort_keys=True)` in the set and
  fallback branches is modelled as structural equality. Its exact text, and
  values JSON cannot hold, are not modelled.
- Verification.Judge: the non-structural branch compares `json.dumps` text
  without `sort_keys`. It is modelled as structural equality, so two records
  that differ only in key order pass in the model but fail in the source.
  Indentation and separators do not matter, since both sides use the same
  settings.
- Verification.Judge: AssertionError messages are not modelled; only the
  exception class is kept.
- Normalization.NormalizeValue: the record loop visits keys in an arbitrary
  order, not insertion order. The result does not depend on the order,
  because every failure is the same AttributeError.
- Fixtures.SelectByLayer: its own contract states only that every selected
  fixture is in the layer. Membership is stated by `SelectByLayerMembers`,
  multiplicity by `SelectByLayerCounts`, and order by `SelectByLayerAppend`
  and, for the registry, `RegistryLayers`.
- The registry is a constant; the ids, paths, categories and descriptions
  are copied as strings.
- SPIRAL's design treats a `set` value as de-duplicated and compares sets
  without regard to order. The harness code checks equal lengths plus
  one-sided inclusion, so it matches that design only when the expected
  elements are distinct. The model follows the code
  (`DeepEquality.SetCheckOneSided`, `DeepEquality.SetCheckIsPermutation`).

## Findings

| source | as written | input that shows it | evidently intended | confidence | as-written member | corrected member |
|---|---|---|---|---|---|---|
| src/pyspiral/test/compliance_test.py:156-165 | `isinstance(value["value"], object)` holds for every payload, so a node whose `value` is a bool, number or string reaches `.items()` and raises AttributeError. `verify_fixture_result` normalises every result first, so every registry fixture fails against its own expected value | `{"kind": "int", "value": 42}`, the correct result of fixture `air-arithmetic-add` | the guard should let only record payloads reach `.items()`; a scalar payload is returned unchanged | medium (whether the evaluators return plain dicts is outside this model), not executed | `Normalization.AsWrittenRaisesOnInt` | `Normalization.IntendedKeepsScalar` |

The two readings share one definition, `Normalization.Normalize`, which
takes a `Reading`: `AsWritten` or `Intended`. `Normalized` and
`NormalizeValue` follow the source. `NormalizedIntended` is the correction;
`Verification.VerifyFixtureResultIntended` uses it. `NormalizeIdempotent`
holds for both readings. `IntendedAgreesWhereAsWrittenSucceeds` shows the
correction changes nothing where the source succeeds.
`Verification.RegistryVerdicts` shows every registry fixture failing as
written and passing once corrected.
