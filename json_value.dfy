/** Decoded JSON values as the compliance harness sees them, with Python's
    built-in equality on them.

    Every runtime value of the system is encoded as a tagged JSON object
    (`{"kind": "int", "value": 42}`); the harness works on the decoded form,
    which is a tree of Python None, bool, int, float, str, list and dict. */
module JsonValue {

  /** A decoded JSON value. Floats are modelled as exact reals. */
  datatype Json =
    | Null
    | Bool(b: bool)
    | Int(i: int)
    | Float(r: real)
    | Str(s: string)
    | Arr(items: seq<Json>)
    | Obj(fields: map<string, Json>)

  /** `d.get(k)`: a missing key reads as None, like a stored None. */
  function Get(m: map<string, Json>, k: string): (r: Json)
    ensures k !in m ==> r == Null
    ensures k in m ==> r == m[k]
  {
    if k in m then m[k] else Null
  }

  /** `d.get(k, default)`. */
  function GetOr(m: map<string, Json>, k: string, default: Json): (r: Json)
    ensures k !in m ==> r == default
    ensures k in m ==> r == m[k]
  {
    if k in m then m[k] else default
  }

  /** The tagged encoding `{"kind": kind, "value": payload}`. */
  function Tagged(kind: Json, payload: Json): Json {
    Obj(map["kind" := kind, "value" := payload])
  }

  /** `isinstance(v, (int, float))`; bool is a subclass of int in Python. */
  predicate IsNumber(v: Json) {
    v.Bool? || v.Int? || v.Float?
  }

  /** The numeric value Python arithmetic and comparison use for a number. */
  function NumValue(v: Json): real
    requires IsNumber(v)
  {
    match v
    case Bool(b) => if b then 1.0 else 0.0
    case Int(i) => i as real
    case Float(r) => r
  }

  /** Python's `==` on decoded JSON: numbers compare by value across bool,
      int and float; lists element-wise; dicts by key set and value. */
  predicate PyEq(a: Json, b: Json)
    decreases a
    ensures a.Null? || a.Str? ==> (PyEq(a, b) <==> a == b)
    ensures PyEq(a, b) ==> (IsNumber(a) <==> IsNumber(b)) && (a.Arr? <==> b.Arr?) && (a.Obj? <==> b.Obj?)
  {
    match a
    case Null => b.Null?
    case Str(x) => b.Str? && b.s == x
    case Arr(s) =>
      b.Arr? && |s| == |b.items| &&
      forall i :: 0 <= i < |s| ==> PyEq(s[i], b.items[i])
    case Obj(m) =>
      b.Obj? && m.Keys == b.fields.Keys &&
      forall k :: k in m ==> PyEq(m[k], b.fields[k])
    case _ => IsNumber(b) && NumValue(a) == NumValue(b)
  }

  /** Every value is Python-equal to itself. */
  lemma {:induction false} PyEqReflexive(a: Json)
    ensures PyEq(a, a)
    decreases a
  {
    match a
    case Arr(s) =>
      forall i | 0 <= i < |s| ensures PyEq(s[i], s[i]) { PyEqReflexive(s[i]); }
    case Obj(m) =>
      forall k | k in m ensures PyEq(m[k], m[k]) { PyEqReflexive(m[k]); }
    case _ =>
  }
}
