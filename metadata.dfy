/**
 * Window metadata: a plain JavaScript object. Its own keys are kept in
 * insertion order, and JSON.stringify emits them in that order. Every
 * property here holds a JSON value (a property holding `undefined`, which
 * JSON.stringify omits, has no counterpart), so two metadata objects
 * serialise to the same text exactly when they have the same keys in the
 * same order and the same value under each key.
 */
module Metadata {

  /** The JSON text of one metadata value. */
  type Json = string

  /** A plain object: its keys in insertion order and the value under each key. */
  datatype Object = Object(keys: seq<string>, values: map<string, Json>) {
    /** No key is listed twice, and exactly the listed keys carry values. */
    ghost predicate Valid() {
      && (forall i, j :: 0 <= i < j < |keys| ==> keys[i] != keys[j])
      && (forall k :: k in values <==> k in keys)
    }
  }

  type MetaData = m: Object | m.Valid() witness Object([], map[])

  const Empty: MetaData := Object([], map[])

  /** Property assignment `m[k] = v`: a key already present keeps its place, a new key goes last. */
  function Put(m: MetaData, k: string, v: Json): MetaData {
    if k in m.values then Object(m.keys, m.values[k := v])
    else Object(m.keys + [k], m.values[k := v])
  }

  /** The keys of `ks` that are not in `seen`, in the order of `ks`. */
  function NewKeys(ks: seq<string>, seen: seq<string>): seq<string> {
    if ks == [] then [] else (if ks[0] in seen then [] else [ks[0]]) + NewKeys(ks[1..], seen)
  }

  lemma {:induction false} NewKeysSkip(ks: seq<string>, seen: seq<string>, x: string)
    requires x !in ks
    ensures NewKeys(ks, seen + [x]) == NewKeys(ks, seen)
  {
    if ks != [] {
      NewKeysSkip(ks[1..], seen, x);
    }
  }

  lemma {:induction false} NewKeysNone(ks: seq<string>, seen: seq<string>)
    requires forall i :: 0 <= i < |ks| ==> ks[i] in seen
    ensures NewKeys(ks, seen) == []
  {
    if ks != [] {
      NewKeysNone(ks[1..], seen);
    }
  }

  /**
   * Copies the properties `ks` of `top`, one after the other, into `acc`: the
   * loop that the spread operator performs over the keys of `top`.
   */
  function CopyKeys(acc: MetaData, top: MetaData, ks: seq<string>): (r: MetaData)
    requires forall i :: 0 <= i < |ks| ==> ks[i] in top.values
    requires forall i, j :: 0 <= i < j < |ks| ==> ks[i] != ks[j]
    ensures forall k :: k in r.values <==> k in acc.values || k in ks
    ensures forall k :: k in r.values ==> r.values[k] == if k in ks then top.values[k] else acc.values[k]
    ensures r.keys == acc.keys + NewKeys(ks, acc.keys)
    decreases |ks|
  {
    if ks == [] then acc
    else
      var k := ks[0];
      var next := Put(acc, k, top.values[k]);
      var r := CopyKeys(next, top, ks[1..]);
      assert forall j :: 0 <= j < |ks[1..]| ==> ks[1..][j] == ks[j + 1] != k;
      assert k in acc.values <==> k in acc.keys;
      CopyKeysOrder(acc.keys, next.keys, k, ks, r.keys);
      CopyKeysValues(acc, top, ks, r);
      r
  }

  /** The values after one property copy, as `CopyKeys` needs them. */
  lemma CopyKeysValues(acc: MetaData, top: MetaData, ks: seq<string>, r: MetaData)
    requires ks != [] && forall k :: k in ks ==> k in top.values
    requires forall k :: k in r.values <==> k in acc.values || k == ks[0] || k in ks[1..]
    requires forall k :: k in r.values ==>
      r.values[k] == if k in ks[1..] then top.values[k] else acc.values[ks[0] := top.values[ks[0]]][k]
    ensures forall k :: k in r.values <==> k in acc.values || k in ks
    ensures forall k :: k in r.values ==> r.values[k] == if k in ks then top.values[k] else acc.values[k]
  {
    assert forall k :: k in ks <==> k == ks[0] || k in ks[1..] by {
      assert ks == [ks[0]] + ks[1..];
    }
  }

  /** The key order after one property copy, as `CopyKeys` needs it. */
  lemma CopyKeysOrder(accKeys: seq<string>, nextKeys: seq<string>, k: string, ks: seq<string>, rkeys: seq<string>)
    requires ks != [] && k == ks[0] && k !in ks[1..]
    requires nextKeys == if k in accKeys then accKeys else accKeys + [k]
    requires rkeys == nextKeys + NewKeys(ks[1..], nextKeys)
    ensures rkeys == accKeys + NewKeys(ks, accKeys)
  {
    if k !in accKeys {
      NewKeysSkip(ks[1..], accKeys, k);
      assert (accKeys + [k]) + NewKeys(ks[1..], accKeys) == accKeys + ([k] + NewKeys(ks[1..], accKeys));
    }
  }

  /**
   * The object spread `{...base, ...top}`: every key of `top` takes `top`'s
   * value, every other key of `base` keeps its own, the keys of `base` keep
   * their order and the keys new in `top` follow in `top`'s order.
   */
  function Overlay(base: MetaData, top: MetaData): (r: MetaData)
    ensures r.values == base.values + top.values
    ensures r.keys == base.keys + NewKeys(top.keys, base.keys)
  {
    var r := CopyKeys(base, top, top.keys);
    CopiedAllKeys(base.values, top.values, top.keys, r.values);
    r
  }

  /** Copying every key of `top` one by one gives the map union. */
  lemma CopiedAllKeys(base: map<string, Json>, top: map<string, Json>, ks: seq<string>, r: map<string, Json>)
    requires forall k :: k in top <==> k in ks
    requires forall k :: k in r <==> k in base || k in ks
    requires forall k :: k in r ==> r[k] == if k in ks then top[k] else base[k]
    ensures r == base + top
  {
    forall k | k in r
      ensures k in base + top && r[k] == (base + top)[k]
    {
    }
    forall k | k in base + top
      ensures k in r
    {
    }
  }

  /** Every property of `top` already stands in `base` with the same value. */
  predicate Absorbed(base: MetaData, top: MetaData) {
    forall k :: k in top.values ==> k in base.values && base.values[k] == top.values[k]
  }

  /** Spreading `top` over `base` yields `base` itself exactly when `base` already holds all of `top`. */
  lemma SpreadIsIdentityIff(base: MetaData, top: MetaData)
    ensures Overlay(base, top) == base <==> Absorbed(base, top)
  {
    var r := Overlay(base, top);
    if Absorbed(base, top) {
      NewKeysNone(top.keys, base.keys);
      assert r.values == base.values;
    }
    if r == base {
      forall k | k in top.values
        ensures k in base.values && base.values[k] == top.values[k]
      {
        assert r.values[k] == top.values[k];
      }
    }
  }
}
