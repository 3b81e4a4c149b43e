/** Parsed JSON as Python holds it, and Python's == on it. */
module JsonModel {
  datatype Json =
    | Null
    | Bool(b: bool)
    | Num(n: real)
    | Str(s: string)
    | Arr(items: seq<Json>)
    | Obj(fields: map<string, Json>)

  /** set(_iter_odata_ids(j)): every string-valued "@odata.id" anywhere in j. */
  function OdataIds(j: Json): set<string> {
    match j
    case Arr(items) => set i, x | 0 <= i < |items| && x in OdataIds(items[i]) :: x
    case Obj(fields) =>
      (if "@odata.id" in fields && fields["@odata.id"].Str? then {fields["@odata.id"].s} else {})
      + set k, x | k in fields && x in OdataIds(fields[k]) :: x
    case _ => {}
  }

  predicate Numeric(j: Json) { j.Bool? || j.Num? }

  function Value(j: Json): real
    requires Numeric(j)
  {
    if j.Num? then j.n else if j.b then 1.0 else 0.0
  }

  /** Python's ==: booleans are numbers to it, so True == 1. */
  predicate PyEq(a: Json, b: Json) {
    match (a, b)
    case (Null, Null) => true
    case (Str(x), Str(y)) => x == y
    case (Arr(x), Arr(y)) => |x| == |y| && forall i | 0 <= i < |x| :: PyEq(x[i], y[i])
    case (Obj(x), Obj(y)) => x.Keys == y.Keys && forall k | k in x :: PyEq(x[k], y[k])
    case _ => Numeric(a) && Numeric(b) && Value(a) == Value(b)
  }

  /** Booleans sit in the same places on both sides, as far as both sides go. */
  predicate SameBooleans(a: Json, b: Json) {
    match (a, b)
    case (Arr(x), Arr(y)) => forall i | 0 <= i < |x| && i < |y| :: SameBooleans(x[i], y[i])
    case (Obj(x), Obj(y)) => forall k | k in x && k in y :: SameBooleans(x[k], y[k])
    case _ => a.Bool? <==> b.Bool?
  }

  /** Python's == is JSON equality exactly when booleans sit in the same places. */
  lemma {:induction false} PyEqIsEqualUpToBooleans(a: Json, b: Json)
    ensures a == b <==> PyEq(a, b) && SameBooleans(a, b)
  {
    match (a, b)
    case (Arr(x), Arr(y)) =>
      forall i | 0 <= i < |x| && i < |y| ensures x[i] == y[i] <==> PyEq(x[i], y[i]) && SameBooleans(x[i], y[i]) {
        PyEqIsEqualUpToBooleans(x[i], y[i]);
      }
    case (Obj(x), Obj(y)) =>
      forall k | k in x && k in y ensures x[k] == y[k] <==> PyEq(x[k], y[k]) && SameBooleans(x[k], y[k]) {
        PyEqIsEqualUpToBooleans(x[k], y[k]);
      }
      assert x == y <==> x.Keys == y.Keys && forall k | k in x && k in y :: x[k] == y[k];
    case _ =>
  }

  /** A value is == to itself. */
  lemma {:induction false} PyEqReflexive(a: Json)
    ensures PyEq(a, a)
  {
    PyEqIsEqualUpToBooleans(a, a);
  }

  /** The difference is real: two payloads Python calls equal that are different JSON. */
  lemma PyEqConfusesTrueAndOne()
    ensures var a, b := Obj(map["Enabled" := Bool(true)]), Obj(map["Enabled" := Num(1.0)]); PyEq(a, b) && a != b
  {
    var a, b := map["Enabled" := Bool(true)], map["Enabled" := Num(1.0)];
    assert PyEq(a["Enabled"], b["Enabled"]) && a["Enabled"] != b["Enabled"];
  }

  /** bool(j). */
  predicate Truthy(j: Json) {
    match j
    case Null => false
    case Bool(b) => b
    case Num(n) => n != 0.0
    case Str(s) => s != ""
    case Arr(items) => items != []
    case Obj(fields) => fields != map[]
  }
}
