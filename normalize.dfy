/** `normalize_value`: strips implementation-specific parts of a result
    (closure environments and ids, future task ids) and rebuilds list- and
    record-valued nodes recursively, before a result is compared. */
module Normalization {
  import opened JsonValue
  import opened Outcome

  /** How a node whose `value` is a scalar (bool, int, float, string) is
      treated. As written, the guard in front of the `.items()` loop holds for
      every payload, so such a node reaches `.items()` and raises. The
      evident intent is to leave such a node as it is. */
  datatype Reading = AsWritten | Intended

  /** The normal form of a closure: parameters and body kept, the captured
      environment replaced by a placeholder, every other key dropped. */
  function ClosureOf(m: map<string, Json>): Json {
    Obj(map["kind" := Str("closure"), "params" := Get(m, "params"), "body" := Get(m, "body"), "env" := Str("<env>")])
  }

  /** The normal form of a future around an already normalised inner value. */
  function FutureOf(of: Json, status: Json): Json {
    Obj(map["kind" := Str("future"), "of" := of, "status" := status])
  }

  /** `normalize_value(v)` under the given reading of the scalar-payload case. */
  function Normalize(v: Json, reading: Reading): (r: Result<Json>)
    decreases v
    ensures r.Raise? ==> r.exc == AttributeError
    ensures reading == Intended ==> r.Ok?
  {
    if !v.Obj? then Ok(v)
    else
      var m := v.fields;
      var kind := Get(m, "kind");
      if kind == Str("closure") then Ok(ClosureOf(m))
      else if kind == Str("future") then
        var of := if "of" in m then Normalize(m["of"], reading) else Ok(Null);
        if of.Raise? then Raise(of.exc) else Ok(FutureOf(of.value, Get(m, "status")))
      else if "value" in m then
        match m["value"]
        case Arr(items) =>
          if forall i :: 0 <= i < |items| ==> Normalize(items[i], reading).Ok? then
            Ok(Tagged(kind, Arr(seq(|items|, i requires 0 <= i < |items| => Normalize(items[i], reading).value))))
          else Raise(AttributeError)
        case Null => Ok(v)
        case Obj(fs) =>
          if forall k :: k in fs ==> Normalize(fs[k], reading).Ok? then
            Ok(Tagged(kind, Obj(map k | k in fs :: Normalize(fs[k], reading).value)))
          else Raise(AttributeError)
        case _ =>
          if reading == AsWritten then Raise(AttributeError) else Ok(v)
      else Ok(v)
  }

  /** `normalize_value` as the source has it. */
  function Normalized(v: Json): Result<Json> {
    Normalize(v, AsWritten)
  }

  /** `normalize_value` with the scalar-payload case corrected. */
  function NormalizedIntended(v: Json): Json {
    Normalize(v, Intended).value
  }

  /** `normalize_value`, with the field-by-field loop of the record case. */
  method NormalizeValue(v: Json) returns (r: Result<Json>)
    ensures r == Normalized(v)
    decreases v
  {
    if !v.Obj? {
      return Ok(v);
    }
    var m := v.fields;
    var kind := Get(m, "kind");
    if kind == Str("closure") {
      return Ok(ClosureOf(m));
    }
    if kind == Str("future") {
      var of: Result<Json> := Ok(Null);
      if "of" in m {
        of := NormalizeValue(m["of"]);
      }
      if of.Raise? {
        return Raise(of.exc);
      }
      return Ok(FutureOf(of.value, Get(m, "status")));
    }
    if "value" in m {
      match m["value"]
      case Arr(items) =>
        var out: seq<Json> := [];
        var i := 0;
        while i < |items|
          invariant 0 <= i <= |items|
          invariant |out| == i
          invariant forall j :: 0 <= j < i ==> Normalized(items[j]) == Ok(out[j])
        {
          var n := NormalizeValue(items[i]);
          if n.Raise? {
            return n;
          }
          out := out + [n.value];
          i := i + 1;
        }
        NormalizeListPayload(m, items, AsWritten);
        var w := Normalized(v).value;
        assert w.fields["value"].items == out;
        assert w.fields == map["kind" := kind, "value" := Arr(out)];
        return Ok(Tagged(kind, Arr(out)));
      case Null =>
        return Ok(v);
      case Obj(fs) =>
        var normalized: map<string, Json> := map[];
        var todo := fs.Keys;
        while todo != {}
          invariant todo <= fs.Keys
          invariant normalized.Keys == fs.Keys - todo
          invariant forall k :: k in normalized ==> Normalized(fs[k]) == Ok(normalized[k])
          decreases todo
        {
          var k :| k in todo;
          var n := NormalizeValue(fs[k]);
          if n.Raise? {
            return n;
          }
          normalized := normalized[k := n.value];
          todo := todo - {k};
        }
        assert forall k :: k in fs ==> Normalized(fs[k]).Ok?;
        NormalizeRecordPayload(m, fs, AsWritten);
        var w := Normalized(v).value;
        assert w.fields["value"].fields == normalized;
        assert w.fields == map["kind" := kind, "value" := Obj(normalized)];
        return Ok(Tagged(kind, Obj(normalized)));
      case _ =>
        return Raise(AttributeError);
    }
    return Ok(v);
  }

  /** A closure keeps exactly its kind, parameters and body, with the
      environment replaced by a placeholder; any id is dropped. */
  lemma NormalizeClosure(m: map<string, Json>, reading: Reading)
    requires Get(m, "kind") == Str("closure")
    ensures Normalize(Obj(m), reading) == Ok(ClosureOf(m))
    ensures ClosureOf(m).fields.Keys == {"kind", "params", "body", "env"}
    ensures Get(ClosureOf(m).fields, "env") == Str("<env>")
  {
  }

  /** A future keeps its kind, its normalised inner value and its status;
      any task id is dropped. */
  lemma NormalizeFuture(m: map<string, Json>, reading: Reading)
    requires Get(m, "kind") == Str("future")
    ensures var of := Normalize(Get(m, "of"), reading);
            Normalize(Obj(m), reading) == if of.Raise? then Raise(AttributeError) else Ok(FutureOf(of.value, Get(m, "status")))
    ensures var of := Normalize(Get(m, "of"), reading);
            of.Ok? ==> FutureOf(of.value, Get(m, "status")).fields.Keys == {"kind", "of", "status"}
  {
  }

  /** Non-objects, objects without a `value` key and objects whose `value` is
      null come back unchanged (closures and futures aside). */
  lemma NormalizeUnchanged(v: Json, reading: Reading)
    requires !v.Obj? || (Get(v.fields, "kind") != Str("closure") && Get(v.fields, "kind") != Str("future") &&
                         Get(v.fields, "value") == Null)
    ensures Normalize(v, reading) == Ok(v)
  {
  }

  /** A list-valued node becomes `{kind, value}` with each element
      normalised: every other key, such as a list's `of`, is dropped. It
      fails exactly when some element fails. */
  lemma NormalizeListPayload(m: map<string, Json>, items: seq<Json>, reading: Reading)
    requires Get(m, "kind") != Str("closure") && Get(m, "kind") != Str("future")
    requires "value" in m && m["value"] == Arr(items)
    ensures Normalize(Obj(m), reading).Ok? <==> forall i :: 0 <= i < |items| ==> Normalize(items[i], reading).Ok?
    ensures Normalize(Obj(m), reading).Ok? ==>
            var w := Normalize(Obj(m), reading).value;
            w.Obj? && w.fields.Keys == {"kind", "value"} && w.fields["kind"] == Get(m, "kind") &&
            w.fields["value"].Arr? && |w.fields["value"].items| == |items| &&
            forall i :: 0 <= i < |items| ==> Normalize(items[i], reading) == Ok(w.fields["value"].items[i])
  {
  }

  /** A record-valued node becomes `{kind, value}` with each field of the
      record normalised. It fails exactly when some field fails. */
  lemma NormalizeRecordPayload(m: map<string, Json>, fs: map<string, Json>, reading: Reading)
    requires Get(m, "kind") != Str("closure") && Get(m, "kind") != Str("future")
    requires "value" in m && m["value"] == Obj(fs)
    ensures Normalize(Obj(m), reading).Ok? <==> forall k :: k in fs ==> Normalize(fs[k], reading).Ok?
    ensures Normalize(Obj(m), reading).Ok? ==>
            var w := Normalize(Obj(m), reading).value;
            w.Obj? && w.fields.Keys == {"kind", "value"} && w.fields["kind"] == Get(m, "kind") &&
            w.fields["value"].Obj? && w.fields["value"].fields.Keys == fs.Keys &&
            forall k :: k in fs ==> Normalize(fs[k], reading) == Ok(w.fields["value"].fields[k])
  {
  }

  /** As written, a node whose `value` is a bool, number or string (and that
      is not a closure or future) raises, and so does any list-valued node
      that holds it as an element. */
  lemma NormalizeScalarPayloadRaises(m: map<string, Json>, outer: map<string, Json>, items: seq<Json>, j: nat)
    requires Get(m, "kind") != Str("closure") && Get(m, "kind") != Str("future")
    requires "value" in m && (m["value"].Bool? || m["value"].Int? || m["value"].Float? || m["value"].Str?)
    requires Get(outer, "kind") != Str("closure") && Get(outer, "kind") != Str("future")
    requires "value" in outer && outer["value"] == Arr(items) && j < |items| && items[j] == Obj(m)
    ensures Normalized(Obj(m)) == Raise(AttributeError)
    ensures Normalized(Obj(outer)) == Raise(AttributeError)
  {
    assert !Normalize(items[j], AsWritten).Ok?;
  }

  /** Normalising a normalised value changes nothing, under either reading. */
  lemma {:induction false} NormalizeIdempotent(v: Json, reading: Reading)
    requires Normalize(v, reading).Ok?
    ensures Normalize(Normalize(v, reading).value, reading) == Normalize(v, reading)
    decreases v
  {
    var w := Normalize(v, reading).value;
    if v.Obj? {
      var m := v.fields;
      var kind := Get(m, "kind");
      if kind == Str("closure") {
      } else if kind == Str("future") {
        if "of" in m { NormalizeIdempotent(m["of"], reading); }
        assert Get(w.fields, "kind") == Str("future");
      } else if "value" in m {
        match m["value"]
        case Arr(items) =>
          var ns := w.fields["value"].items;
          forall i | 0 <= i < |ns| ensures Normalize(ns[i], reading) == Ok(ns[i]) {
            NormalizeIdempotent(items[i], reading);
          }
          assert seq(|ns|, i requires 0 <= i < |ns| => Normalize(ns[i], reading).value) == ns;
        case Null =>
        case Obj(fs) =>
          NormalizeRecordPayload(m, fs, reading);
          var nf := w.fields["value"].fields;
          forall k | k in nf ensures Normalize(nf[k], reading) == Ok(nf[k]) {
            NormalizeIdempotent(fs[k], reading);
          }
          NormalizeRecordPayload(w.fields, nf, reading);
          var w2 := Normalize(w, reading).value;
          assert w2.fields["value"].fields == nf;
          assert w2.fields == w.fields;
        case _ =>
      }
    }
  }

  /** Wherever the source's normalisation succeeds, the corrected one gives
      the same value. */
  lemma {:induction false} IntendedAgreesWhereAsWrittenSucceeds(v: Json)
    requires Normalized(v).Ok?
    ensures NormalizedIntended(v) == Normalized(v).value
    decreases v
  {
    if v.Obj? {
      var m := v.fields;
      var kind := Get(m, "kind");
      if kind == Str("closure") {
      } else if kind == Str("future") {
        if "of" in m { IntendedAgreesWhereAsWrittenSucceeds(m["of"]); }
      } else if "value" in m {
        match m["value"]
        case Arr(items) =>
          forall i | 0 <= i < |items| ensures Normalize(items[i], Intended) == Normalize(items[i], AsWritten) {
            IntendedAgreesWhereAsWrittenSucceeds(items[i]);
          }
          assert seq(|items|, i requires 0 <= i < |items| => Normalize(items[i], Intended).value) ==
                 seq(|items|, i requires 0 <= i < |items| => Normalize(items[i], AsWritten).value);
        case Null =>
        case Obj(fs) =>
          assert forall k :: k in fs ==> Normalize(fs[k], AsWritten).Ok?;
          forall k | k in fs ensures Normalize(fs[k], Intended) == Normalize(fs[k], AsWritten) {
            IntendedAgreesWhereAsWrittenSucceeds(fs[k]);
          }
          NormalizeRecordPayload(m, fs, AsWritten);
          NormalizeRecordPayload(m, fs, Intended);
          var a, b := Normalize(v, AsWritten).value, Normalize(v, Intended).value;
          assert a.fields["value"].fields == b.fields["value"].fields;
          assert a.fields == b.fields;
        case _ =>
      }
    }
  }

  /** The failing input: the encoding of the integer 42. */
  lemma AsWrittenRaisesOnInt()
    ensures Normalized(Tagged(Str("int"), Int(42))) == Raise(AttributeError)
  {
  }

  /** Corrected: the encoding of a scalar comes back unchanged. */
  lemma IntendedKeepsScalar(kind: Json, x: Json)
    requires kind != Str("closure") && kind != Str("future")
    requires x.Bool? || x.Int? || x.Float? || x.Str?
    ensures NormalizedIntended(Tagged(kind, x)) == Tagged(kind, x)
  {
  }
}
