/**
 * `flatten` of the chat backend (`gpt.ts`): the leaves of a parsed JSON value
 * in order, used to turn a model's JSON answer into a flat list of phrases.
 *
 * An object is the sequence of its key/value pairs in the order
 * `Object.values` lists them.
 */
module JsonFlatten {

  datatype Json =
    | JNull
    | JBool(b: bool)
    | JNumber(n: real)
    | JString(s: string)
    | JArray(items: seq<Json>)
    | JObject(fields: seq<(string, Json)>)

  /** A value that is neither an array nor an object (`null` included). */
  predicate IsScalar(v: Json) {
    !v.JArray? && !v.JObject?
  }

  predicate AllScalar(vs: seq<Json>) {
    forall i :: 0 <= i < |vs| ==> IsScalar(vs[i])
  }

  /** `Object.values`. */
  function Values(fields: seq<(string, Json)>): (vs: seq<Json>)
    ensures |vs| == |fields|
    ensures forall i :: 0 <= i < |fields| ==> vs[i] == fields[i].1
  {
    if fields == [] then [] else [fields[0].1] + Values(fields[1..])
  }

  /**
   * `flatten`: an array is the in-order concatenation of its flattened
   * elements, an object the flattening of its values, anything else itself.
   */
  function Flatten(v: Json): (r: seq<Json>)
    ensures AllScalar(r)
    decreases v, 1
  {
    match v
    case JArray(items) => FlattenAll(items)
    case JObject(fields) => FlattenFields(fields)
    case _ => [v]
  }

  /** `items.flatMap(flatten)`. */
  function FlattenAll(items: seq<Json>): (r: seq<Json>)
    ensures AllScalar(r)
    decreases items, 0
  {
    if items == [] then [] else Flatten(items[0]) + FlattenAll(items[1..])
  }

  /** The values of an object, flattened one after the other. */
  function FlattenFields(fields: seq<(string, Json)>): (r: seq<Json>)
    ensures AllScalar(r)
    decreases fields, 0
  {
    if fields == [] then []
    else
      var field := fields[0];
      assert field.1 < field;
      Flatten(field.1) + FlattenFields(fields[1..])
  }

  /** An object flattens as the array of its values does: `flatten(Object.values(value))`. */
  lemma {:induction false} FlattenObject(fields: seq<(string, Json)>)
    ensures Flatten(JObject(fields)) == Flatten(JArray(Values(fields)))
    decreases fields
  {
    if fields != [] {
      FlattenObject(fields[1..]);
      assert Values(fields)[1..] == Values(fields[1..]);
    }
  }

  /** `flatMap` distributes over concatenation of arrays. */
  lemma {:induction false} FlattenAllAppend(a: seq<Json>, b: seq<Json>)
    ensures FlattenAll(a + b) == FlattenAll(a) + FlattenAll(b)
    decreases a
  {
    if a != [] {
      assert (a + b)[0] == a[0];
      assert (a + b)[1..] == a[1..] + b;
      FlattenAllAppend(a[1..], b);
    } else {
      assert a + b == b;
    }
  }

  /** A list of scalars is its own flattening. */
  lemma {:induction false} FlattenAllScalars(vs: seq<Json>)
    requires AllScalar(vs)
    ensures FlattenAll(vs) == vs
    decreases vs
  {
    if vs != [] {
      FlattenAllScalars(vs[1..]);
    }
  }

  /** Flattening is idempotent: flattening the result again changes nothing. */
  lemma FlattenIdempotent(v: Json)
    ensures Flatten(JArray(Flatten(v))) == Flatten(v)
  {
    FlattenAllScalars(Flatten(v));
  }

  /** The scalars occurring anywhere inside `v`, at any depth. */
  predicate Occurs(x: Json, v: Json)
    decreases v
  {
    match v
    case JArray(items) => exists i :: 0 <= i < |items| && Occurs(x, items[i])
    case JObject(fields) => exists i :: 0 <= i < |fields| && Occurs(x, fields[i].1)
    case _ => x == v
  }

  /** The flattening holds exactly the scalars that occur in the value: none is lost and none is invented. */
  lemma {:induction false} FlattenHoldsLeaves(x: Json, v: Json)
    ensures x in Flatten(v) <==> Occurs(x, v)
    decreases v, 1
  {
    match v
    case JArray(items) => FlattenAllHoldsLeaves(x, items);
    case JObject(fields) => FlattenFieldsHoldsLeaves(x, fields);
    case _ =>
  }

  lemma {:induction false} FlattenAllHoldsLeaves(x: Json, items: seq<Json>)
    ensures x in FlattenAll(items) <==> exists i :: 0 <= i < |items| && Occurs(x, items[i])
    decreases items, 0
  {
    if items != [] {
      FlattenHoldsLeaves(x, items[0]);
      FlattenAllHoldsLeaves(x, items[1..]);
      if exists i :: 0 <= i < |items| && Occurs(x, items[i]) {
        var i :| 0 <= i < |items| && Occurs(x, items[i]);
        if i > 0 {
          assert items[1..][i - 1] == items[i];
        }
      }
      if exists i :: 0 <= i < |items[1..]| && Occurs(x, items[1..][i]) {
        var i :| 0 <= i < |items[1..]| && Occurs(x, items[1..][i]);
        assert items[i + 1] == items[1..][i];
      }
    }
  }

  lemma {:induction false} FlattenFieldsHoldsLeaves(x: Json, fields: seq<(string, Json)>)
    ensures x in FlattenFields(fields) <==> exists i :: 0 <= i < |fields| && Occurs(x, fields[i].1)
    decreases fields, 0
  {
    if fields != [] {
      var field := fields[0];
      assert field.1 < field;
      FlattenHoldsLeaves(x, field.1);
      FlattenFieldsHoldsLeaves(x, fields[1..]);
      if exists i :: 0 <= i < |fields| && Occurs(x, fields[i].1) {
        var i :| 0 <= i < |fields| && Occurs(x, fields[i].1);
        if i > 0 {
          assert fields[1..][i - 1] == fields[i];
        }
      }
      if exists i :: 0 <= i < |fields[1..]| && Occurs(x, fields[1..][i].1) {
        var i :| 0 <= i < |fields[1..]| && Occurs(x, fields[1..][i].1);
        assert fields[i + 1] == fields[1..][i];
      }
    }
  }
}
