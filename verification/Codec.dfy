/**
  Row values, their SQL parameters, and the JSON form a spooled batch keeps them in
  (node_monitor/database/codec.py).
 */
module Codec {
  import opened Upsert

  /** A point in time: microseconds since the epoch if it has a zone, else a naive reading. */
  datatype Stamp = Aware(us: int) | Local(us: int)

  /** The Python values a record's row may hold. `NonFinite` is NaN or an infinity. */
  datatype Value =
    | Null
    | Bool(b: bool)
    | Int(i: int)
    | Real(r: real)
    | NonFinite
    | Str(s: string)
    | Time(t: Stamp)
    | List(xs: seq<Value>)
    | Tuple(xs: seq<Value>)
    | Dict(m: map<string, Value>)

  datatype Json =
    | JNull
    | JBool(b: bool)
    | JInt(i: int)
    | JReal(r: real)
    | JStr(s: string)
    | JArray(xs: seq<Json>)
    | JObject(m: map<string, Json>)

  /** A SQL parameter: containers are sent as jsonb. */
  datatype Sql = Plain(v: Value) | Jsonb(v: Value)

  const DT := "$dt"

  /** isoformat and fromisoformat; `parse` is None where fromisoformat raises. */
  datatype Iso = Iso(text: Stamp -> string, parse: string -> Option<Stamp>)

  ghost predicate RoundTrips(iso: Iso) {
    forall t :: iso.parse(iso.text(t)) == Some(t)
  }

  function Clean(v: Value): Value {
    match v
    case NonFinite => Null
    case List(xs) => List(seq(|xs|, i requires 0 <= i < |xs| => Clean(xs[i])))
    case Tuple(xs) => List(seq(|xs|, i requires 0 <= i < |xs| => Clean(xs[i])))
    case Dict(m) => Dict(map k | k in m :: Clean(m[k]))
    case _ => v
  }

  function ToDb(v: Value): Sql {
    if v.Dict? || v.List? || v.Tuple? then Jsonb(Clean(v)) else Plain(Clean(v))
  }

  function Encode(iso: Iso, v: Value): Json {
    match v
    case Null => JNull
    case Bool(b) => JBool(b)
    case Int(i) => JInt(i)
    case Real(r) => JReal(r)
    case NonFinite => JNull
    case Str(s) => JStr(s)
    case Time(t) => JObject(map[DT := JStr(iso.text(t))])
    case List(xs) => JArray(seq(|xs|, i requires 0 <= i < |xs| => Encode(iso, xs[i])))
    case Tuple(xs) => JArray(seq(|xs|, i requires 0 <= i < |xs| => Encode(iso, xs[i])))
    case Dict(m) => JObject(map k | k in m :: Encode(iso, m[k]))
  }

  predicate IsTagged(m: map<string, Json>) {
    m.Keys == {DT} && m[DT].JStr?
  }

  /** None where decoding raises: a tagged text that is no ISO time. */
  function Decode(iso: Iso, j: Json): Option<Value> {
    match j
    case JNull => Some(Null)
    case JBool(b) => Some(Bool(b))
    case JInt(i) => Some(Int(i))
    case JReal(r) => Some(Real(r))
    case JStr(s) => Some(Str(s))
    case JArray(xs) =>
      if forall i | 0 <= i < |xs| :: Decode(iso, xs[i]).Some?
      then Some(List(seq(|xs|, i requires 0 <= i < |xs| => Decode(iso, xs[i]).value)))
      else None
    case JObject(m) =>
      if IsTagged(m) then
        var t := iso.parse(m[DT].s);
        if t.Some? then Some(Time(t.value)) else None
      else if forall k | k in m :: Decode(iso, m[k]).Some?
      then Some(Dict(map k | k in m :: Decode(iso, m[k]).value))
      else None
  }

  /** No dict inside `v`, nor `v` itself, is exactly `{"$dt": <string>}`. */
  predicate Unambiguous(v: Value) {
    match v
    case List(xs) => forall i | 0 <= i < |xs| :: Unambiguous(xs[i])
    case Tuple(xs) => forall i | 0 <= i < |xs| :: Unambiguous(xs[i])
    case Dict(m) => !(m.Keys == {DT} && m[DT].Str?) && forall k | k in m :: Unambiguous(m[k])
    case _ => true
  }

  /** Decoding undoes encoding, up to non-finite floats and tuples, exactly for the values a
      caller can check beforehand: those without a dict that imitates a datetime. */
  lemma {:induction false} DecodeEncode(iso: Iso, v: Value)
    requires RoundTrips(iso)
    ensures Decode(iso, Encode(iso, v)) == Some(Clean(v)) <==> Unambiguous(v)
    decreases v, 1
  {
    match v
    case List(xs) => DecodeEncodeSeq(iso, v, xs);
    case Tuple(xs) => DecodeEncodeSeq(iso, v, xs);
    case Dict(m) =>
      var e := Encode(iso, v).m;
      forall k | k in m ensures Decode(iso, e[k]) == Some(Clean(m[k])) <==> Unambiguous(m[k]) {
        DecodeEncode(iso, m[k]);
      }
      assert e.Keys == m.Keys;
      if !IsTagged(e) {
        var d := Decode(iso, JObject(e));
        if d == Some(Clean(v)) {
          forall k | k in m ensures Unambiguous(m[k]) {
            assert d.value.m[k] == Decode(iso, e[k]).value == Clean(v).m[k];
          }
        }
        if Unambiguous(v) {
          assert d.value.m == Clean(v).m;
        }
      }
    case Time(t) =>
      assert map[DT := JStr(iso.text(t))].Keys == {DT};
    case _ =>
  }

  lemma {:induction false} DecodeEncodeSeq(iso: Iso, v: Value, xs: seq<Value>)
    requires RoundTrips(iso)
    requires v == List(xs) || v == Tuple(xs)
    ensures Decode(iso, Encode(iso, v)) == Some(Clean(v)) <==> Unambiguous(v)
    decreases v, 0
  {
    var e := Encode(iso, v).xs;
    forall i | 0 <= i < |xs| ensures Decode(iso, e[i]) == Some(Clean(xs[i])) <==> Unambiguous(xs[i]) {
      DecodeEncode(iso, xs[i]);
    }
    var d := Decode(iso, JArray(e));
    if d == Some(Clean(v)) {
      forall i | 0 <= i < |xs| ensures Unambiguous(xs[i]) {
        assert d.value.xs[i] == Decode(iso, e[i]).value == Clean(v).xs[i];
      }
    }
    if Unambiguous(v) {
      assert d.value.xs == Clean(v).xs;
    }
  }

  lemma {:induction false} CleanTwice(v: Value)
    ensures Clean(Clean(v)) == Clean(v)
  {
    match v
    case List(xs) =>
      forall i | 0 <= i < |xs| ensures Clean(Clean(xs[i])) == Clean(xs[i]) { CleanTwice(xs[i]); }
    case Tuple(xs) =>
      forall i | 0 <= i < |xs| ensures Clean(Clean(xs[i])) == Clean(xs[i]) { CleanTwice(xs[i]); }
    case Dict(m) =>
      forall k | k in m ensures Clean(Clean(m[k])) == Clean(m[k]) { CleanTwice(m[k]); }
    case _ =>
  }

  /** The condition is not idle: this row value changes meaning on the spool. */
  lemma {:induction false} TaggedTextIsMisread(iso: Iso)
    requires RoundTrips(iso)
    ensures var v := Dict(map[DT := Str(iso.text(Aware(0)))]);
            Decode(iso, Encode(iso, v)) == Some(Time(Aware(0))) && ToDb(Time(Aware(0))) != ToDb(v)
  {
    var v := Dict(map[DT := Str(iso.text(Aware(0)))]);
    assert v.m[DT] == Str(iso.text(Aware(0)));
    var e := Encode(iso, v).m;
    assert e.Keys == v.m.Keys == {DT};
    assert e[DT] == Encode(iso, v.m[DT]) == JStr(iso.text(Aware(0)));
  }
}
