/** `deep_equal`: structural equality of two tagged values, dispatching on the
    `kind` tag of the actual value. */
module DeepEquality {
  import opened JsonValue

  /** The kinds whose comparison looks at the `value` field only. */
  predicate IsScalarKind(kind: Json) {
    kind == Str("int") || kind == Str("bool") || kind == Str("string")
  }

  /** The kinds `deep_equal` has a branch for. */
  predicate IsKnownKind(kind: Json) {
    IsScalarKind(kind) || kind == Str("float") || kind == Str("list") ||
    kind == Str("set") || kind == Str("void") || kind == Str("error")
  }

  /** The number a `float` node contributes: its `value` when that is a
      number, 0 otherwise. */
  function FloatOperand(m: map<string, Json>): real {
    var v := Get(m, "value");
    if IsNumber(v) then NumValue(v) else 0.0
  }

  function Abs(x: real): real {
    if x < 0.0 then -x else x
  }

  /** Both objects carry a `kind` and the two tags differ. */
  predicate KindsClash(a: map<string, Json>, e: map<string, Json>) {
    "kind" in a && "kind" in e && !PyEq(a["kind"], e["kind"])
  }

  /** Every expected element occurs among the actual elements, compared by
      canonical serialisation, which is structural equality. */
  predicate Covers(actual: seq<Json>, expected: seq<Json>) {
    forall i :: 0 <= i < |expected| ==> expected[i] in actual
  }

  /** `deep_equal(actual, expected, tolerance)`. */
  predicate DeepEqual(actual: Json, expected: Json, tolerance: real)
    decreases actual
    ensures actual == Null ==> (DeepEqual(actual, expected, tolerance) <==> expected == Null)
    ensures actual != Null && expected == Null ==> !DeepEqual(actual, expected, tolerance)
    ensures actual.Obj? && expected.Obj? && KindsClash(actual.fields, expected.fields) ==>
              !DeepEqual(actual, expected, tolerance)
    ensures !actual.Obj? || !expected.Obj? ==>
              (DeepEqual(actual, expected, tolerance) <==> PyEq(actual, expected))
  {
    if actual == Null then expected == Null
    else if expected == Null then false
    else if !actual.Obj? || !expected.Obj? then PyEq(actual, expected)
    else
      var a, e := actual.fields, expected.fields;
      if KindsClash(a, e) then false
      else
        var kind := Get(a, "kind");
        if IsScalarKind(kind) then PyEq(Get(a, "value"), Get(e, "value"))
        else if kind == Str("float") then
          if tolerance > 0.0 then Abs(FloatOperand(a) - FloatOperand(e)) <= tolerance
          else FloatOperand(a) == FloatOperand(e)
        else if kind == Str("list") then
          var al, el := GetOr(a, "value", Arr([])), GetOr(e, "value", Arr([]));
          al.Arr? && el.Arr? && |al.items| == |el.items| &&
          forall i :: 0 <= i < |al.items| ==> DeepEqual(al.items[i], el.items[i], tolerance)
        else if kind == Str("set") then
          var al, el := GetOr(a, "value", Arr([])), GetOr(e, "value", Arr([]));
          al.Arr? && el.Arr? && |al.items| == |el.items| && Covers(al.items, el.items)
        else if kind == Str("void") then Get(e, "kind") == Str("void")
        else if kind == Str("error") then PyEq(Get(a, "code"), Get(e, "code"))
        else actual == expected
  }

  /** Lists: a missing payload reads as the empty list; the nodes are
      unequal when either payload is not a list or the lengths differ, and
      otherwise equal exactly when every index pair is. */
  lemma DeepEqualList(a: map<string, Json>, e: map<string, Json>, tolerance: real)
    requires Get(a, "kind") == Str("list") && !KindsClash(a, e)
    ensures var al, el := GetOr(a, "value", Arr([])), GetOr(e, "value", Arr([]));
            DeepEqual(Obj(a), Obj(e), tolerance) <==>
              al.Arr? && el.Arr? && |al.items| == |el.items| &&
              forall i :: 0 <= i < |al.items| ==> DeepEqual(al.items[i], el.items[i], tolerance)
    ensures "value" !in a ==> (DeepEqual(Obj(a), Obj(e), tolerance) <==> GetOr(e, "value", Arr([])) == Arr([]))
  {
  }

  /** Sets: the order of the actual elements never matters. */
  lemma DeepEqualSetPermutation(a: map<string, Json>, s: seq<Json>, t: seq<Json>, expected: Json, tolerance: real)
    requires Get(a, "kind") == Str("set")
    requires multiset(s) == multiset(t)
    ensures DeepEqual(Obj(a["value" := Arr(s)]), expected, tolerance) ==
            DeepEqual(Obj(a["value" := Arr(t)]), expected, tolerance)
  {
    assert |s| == |multiset(s)| == |multiset(t)| == |t|;
    forall x ensures x in s <==> x in t {
      assert x in s <==> x in multiset(s);
      assert x in t <==> x in multiset(t);
    }
  }

  /** The distinct elements of a sequence. */
  function Elements(s: seq<Json>): set<Json> {
    set x | x in s
  }

  predicate Distinct(s: seq<Json>) {
    forall i, j :: 0 <= i < j < |s| ==> s[i] != s[j]
  }

  lemma {:induction false} ElementsBound(s: seq<Json>)
    ensures |Elements(s)| <= |s|
    ensures Distinct(s) ==> |Elements(s)| == |s|
    ensures |Elements(s)| == |s| ==> Distinct(s)
  {
    if s != [] {
      var t := s[1..];
      ElementsBound(t);
      assert Elements(s) == Elements(t) + {s[0]};
      if s[0] in t {
        assert Elements(s) == Elements(t);
        var j :| 0 <= j < |t| && t[j] == s[0];
        assert s[0] == s[j + 1];
      } else {
        assert |Elements(s)| == |Elements(t)| + 1;
        if |Elements(s)| == |s| {
          assert Distinct(t);
          forall i, j | 0 <= i < j < |s| ensures s[i] != s[j] {
            if i > 0 { assert s[i] == t[i - 1] && s[j] == t[j - 1]; }
            else { assert s[j] == t[j - 1]; }
          }
        }
      }
      if Distinct(s) {
        assert Distinct(t) by {
          forall i, j | 0 <= i < j < |t| ensures t[i] != t[j] { assert t[i] == s[i + 1] && t[j] == s[j + 1]; }
        }
        assert s[0] !in t by {
          forall j | 0 <= j < |t| ensures t[j] != s[0] { assert t[j] == s[j + 1]; }
        }
      }
    }
  }

  /** In a sequence without repeats every element occurs once. */
  lemma {:induction false} DistinctMultiplicity(s: seq<Json>, x: Json)
    requires Distinct(s)
    ensures multiset(s)[x] == if x in s then 1 else 0
  {
    if s != [] {
      var t := s[1..];
      assert s == [s[0]] + t;
      assert Distinct(t) by {
        forall i, j | 0 <= i < j < |t| ensures t[i] != t[j] { assert t[i] == s[i + 1] && t[j] == s[j + 1]; }
      }
      assert s[0] !in t by {
        forall j | 0 <= j < |t| ensures t[j] != s[0] { assert t[j] == s[j + 1]; }
      }
      DistinctMultiplicity(t, x);
    }
  }

  /** When the expected elements have no repeats, the set comparison
      (equal lengths, every expected element present) accepts exactly the
      permutations of the expected elements. */
  lemma SetCheckIsPermutation(actual: seq<Json>, expected: seq<Json>)
    requires Distinct(expected)
    ensures (|actual| == |expected| && Covers(actual, expected)) <==>
            multiset(actual) == multiset(expected)
  {
    ElementsBound(actual);
    ElementsBound(expected);
    if |actual| == |expected| && Covers(actual, expected) {
      assert Elements(expected) <= Elements(actual) by {
        forall x | x in Elements(expected) ensures x in Elements(actual) {
          var i :| 0 <= i < |expected| && expected[i] == x;
        }
      }
      var extra := Elements(actual) - Elements(expected);
      assert Elements(actual) == Elements(expected) + extra;
      assert |Elements(actual)| == |Elements(expected)| + |extra|;
      assert extra == {};
      assert Elements(actual) == Elements(expected);
      assert Distinct(actual);
      forall x ensures multiset(actual)[x] == multiset(expected)[x] {
        assert x in actual <==> x in Elements(actual);
        assert x in expected <==> x in Elements(expected);
        DistinctMultiplicity(actual, x);
        DistinctMultiplicity(expected, x);
      }
    }
    if multiset(actual) == multiset(expected) {
      assert |actual| == |multiset(actual)| == |multiset(expected)| == |expected|;
      forall i | 0 <= i < |expected| ensures expected[i] in actual {
        assert expected[i] in multiset(expected);
      }
    }
  }

  /** Without that premise the comparison is one-sided: repeated expected
      elements let a different actual set through. */
  lemma SetCheckOneSided()
    ensures var a, b := Tagged(Str("set"), Arr([Int(1), Int(2)])), Tagged(Str("set"), Arr([Int(1), Int(1)]));
            DeepEqual(a, b, 0.0) && !DeepEqual(b, a, 0.0)
  {
    assert Covers([Int(1), Int(2)], [Int(1), Int(1)]);
    assert [Int(1), Int(2)][1] !in [Int(1), Int(1)];
    assert !Covers([Int(1), Int(1)], [Int(1), Int(2)]);
  }

  /** `int`, `bool` and `string` nodes compare their `value` fields only:
      any other key, on either side, is ignored. */
  lemma DeepEqualScalarIgnoresOtherKeys(a: map<string, Json>, e: map<string, Json>, k: string, x: Json, tolerance: real)
    requires IsScalarKind(Get(a, "kind")) && !KindsClash(a, e)
    requires k != "kind" && k != "value"
    ensures DeepEqual(Obj(a), Obj(e), tolerance) <==> PyEq(Get(a, "value"), Get(e, "value"))
    ensures DeepEqual(Obj(a[k := x]), Obj(e), tolerance) == DeepEqual(Obj(a), Obj(e), tolerance)
    ensures DeepEqual(Obj(a), Obj(e[k := x]), tolerance) == DeepEqual(Obj(a), Obj(e), tolerance)
  {
  }

  /** `error` nodes compare their `code` fields only. */
  lemma DeepEqualErrorComparesCode(a: map<string, Json>, e: map<string, Json>, k: string, x: Json, tolerance: real)
    requires Get(a, "kind") == Str("error") && !KindsClash(a, e)
    requires k != "kind" && k != "code"
    ensures DeepEqual(Obj(a), Obj(e), tolerance) <==> PyEq(Get(a, "code"), Get(e, "code"))
    ensures DeepEqual(Obj(a[k := x]), Obj(e), tolerance) == DeepEqual(Obj(a), Obj(e), tolerance)
    ensures DeepEqual(Obj(a), Obj(e[k := x]), tolerance) == DeepEqual(Obj(a), Obj(e), tolerance)
  {
  }

  /** Scalar `value` fields and bare values compare with Python equality,
      which equates `true` with `1` and `1` with `1.0`. */
  lemma DeepEqualCoercesBool()
    ensures DeepEqual(Tagged(Str("int"), Bool(true)), Tagged(Str("int"), Int(1)), 0.0)
    ensures DeepEqual(Bool(true), Int(1), 0.0) && DeepEqual(Int(1), Float(1.0), 0.0)
  {
  }

  /** Set elements and values of an unknown kind compare by canonical
      serialisation, which tells `true` from `1`. */
  lemma DeepEqualSerialisedNoCoercion()
    ensures !DeepEqual(Tagged(Str("set"), Arr([Bool(true)])), Tagged(Str("set"), Arr([Int(1)])), 0.0)
    ensures !DeepEqual(Tagged(Str("pair"), Bool(true)), Tagged(Str("pair"), Int(1)), 0.0)
  {
    assert [Int(1)][0] !in [Bool(true)];
    var p, q := Tagged(Str("pair"), Bool(true)), Tagged(Str("pair"), Int(1));
    assert p.fields["value"] != q.fields["value"];
    DeepEqualUnknownKind(p.fields, q.fields, 0.0);
  }

  /** A node of a kind `deep_equal` does not know falls back to comparing
      the canonical serialisations, i.e. structural equality. */
  lemma DeepEqualUnknownKind(a: map<string, Json>, e: map<string, Json>, tolerance: real)
    requires !IsKnownKind(Get(a, "kind")) && !KindsClash(a, e)
    ensures DeepEqual(Obj(a), Obj(e), tolerance) <==> a == e
  {
  }

  /** Every `list` and `set` node, at any depth, carries a list payload (or
      none). */
  predicate WellTagged(v: Json)
    decreases v
  {
    match v
    case Obj(a) =>
      ((Get(a, "kind") == Str("list") || Get(a, "kind") == Str("set")) ==> GetOr(a, "value", Arr([])).Arr?) &&
      forall k :: k in a ==> WellTagged(a[k])
    case Arr(s) => forall i :: 0 <= i < |s| ==> WellTagged(s[i])
    case _ => true
  }

  /** A list node whose payload is not a list matches nothing, itself
      included. */
  lemma DeepEqualMalformedList(a: map<string, Json>, expected: Json, tolerance: real)
    requires Get(a, "kind") == Str("list") && "value" in a && !a["value"].Arr?
    ensures !DeepEqual(Obj(a), expected, tolerance)
  {
  }

  /** Every well-tagged value matches itself, at any tolerance. */
  lemma {:induction false} DeepEqualReflexive(v: Json, tolerance: real)
    requires WellTagged(v)
    ensures DeepEqual(v, v, tolerance)
    decreases v
  {
    if !v.Obj? {
      PyEqReflexive(v);
    } else {
      var a := v.fields;
      if "kind" in a { PyEqReflexive(a["kind"]); }
      var kind := Get(a, "kind");
      if IsScalarKind(kind) {
        PyEqReflexive(Get(a, "value"));
      } else if kind == Str("list") {
        var l := GetOr(a, "value", Arr([]));
        assert "value" in a ==> WellTagged(a["value"]);
        if l.Arr? {
          forall i | 0 <= i < |l.items| ensures DeepEqual(l.items[i], l.items[i], tolerance) {
            DeepEqualReflexive(l.items[i], tolerance);
          }
        }
      } else if kind == Str("error") {
        PyEqReflexive(Get(a, "code"));
      }
    }
  }
}
