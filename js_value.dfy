/**
 * JavaScript values as the backend builds them before `c.json(...)` and as the
 * web clients receive them from `res.json()`. An object is the ordered list of
 * its own enumerable properties (insertion order); a property whose value is
 * `undefined` is still present, as in JavaScript.
 */
module JsValues {

  datatype JsValue =
    | Undefined
    | Null
    | Bool(b: bool)
    | Num(n: real)
    | BigInt(i: int)
    | Str(s: string)
    | Date(time: int)
    | Arr(items: seq<JsValue>)
    | Obj(fields: seq<(string, JsValue)>)

  type Fields = seq<(string, JsValue)>

  /** `Object.keys(o)`. */
  function Keys(f: Fields): (ks: seq<string>)
    ensures |ks| == |f|
    ensures forall i :: 0 <= i < |f| ==> ks[i] == f[i].0
  {
    if f == [] then [] else [f[0].0] + Keys(f[1..])
  }

  /** Every property name occurs once: true of every object JavaScript builds. */
  predicate DistinctKeys(f: Fields)
  {
    forall i, j :: 0 <= i < j < |f| ==> f[i].0 != f[j].0
  }

  /** `o[k]`: the property's value, `undefined` when there is none. */
  function Get(f: Fields, k: string): (v: JsValue)
    ensures k !in Keys(f) ==> v == Undefined
    ensures v != Undefined ==> exists i :: 0 <= i < |f| && f[i] == (k, v)
  {
    if f == [] then Undefined
    else if f[0].0 == k then f[0].1
    else
      var v := Get(f[1..], k);
      assert v != Undefined ==> exists i :: 0 <= i < |f[1..]| && f[1..][i] == (k, v);
      v
  }

  lemma GetAt(f: Fields, i: nat)
    requires DistinctKeys(f) && i < |f|
    ensures Get(f, f[i].0) == f[i].1
  {
    if i > 0 {
      GetAt(f[1..], i - 1);
    }
  }

  /** `o[k] = v`: replaces the value of an existing property in place, or appends a new one. */
  function Put(f: Fields, k: string, v: JsValue): (r: Fields)
    ensures |r| == |f| || |r| == |f| + 1
  {
    if f == [] then [(k, v)]
    else if f[0].0 == k then [(k, v)] + f[1..]
    else [f[0]] + Put(f[1..], k, v)
  }

  /** What each name reads on a two-property object. */
  lemma TwoFields(f: Fields, k: string)
    requires |f| == 2
    ensures Get(f, k) == if k == f[0].0 then f[0].1 else if k == f[1].0 then f[1].1 else Undefined
  {
    assert f[1..][1..] == [];
  }

  /** The keys of a three-property object, and what each name reads. */
  lemma ThreeFields(f: Fields, k: string)
    requires |f| == 3
    ensures Keys(f) == [f[0].0, f[1].0, f[2].0]
    ensures Get(f, k) == if k == f[0].0 then f[0].1 else if k == f[1].0 then f[1].1
                         else if k == f[2].0 then f[2].1 else Undefined
  {
    var t := f[1..];
    var u := t[1..];
    assert t[0] == f[1] && u[0] == f[2] && u[1..] == [];
    assert Get(u, k) == if k == f[2].0 then f[2].1 else Undefined;
    assert Get(t, k) == if k == f[1].0 then f[1].1 else Get(u, k);
  }

  /** What each name reads on a four-property object with distinct names. */
  lemma FourFields(f: Fields, k: string)
    requires |f| == 4
    ensures Get(f, k) == if k == f[0].0 then f[0].1 else if k == f[1].0 then f[1].1
                         else if k == f[2].0 then f[2].1 else if k == f[3].0 then f[3].1 else Undefined
  {
    ThreeFields(f[1..], k);
  }

  /** After `o[k] = v`, `o[k]` is `v` and every other property reads as before. */
  lemma {:induction false} PutGet(f: Fields, k: string, v: JsValue, j: string)
    ensures Get(Put(f, k, v), j) == if j == k then v else Get(f, j)
  {
    if f != [] && f[0].0 != k {
      PutGet(f[1..], k, v, j);
    }
  }

  /** Assignment keeps the property order and appends a new name at the end. */
  lemma {:induction false} PutKeys(f: Fields, k: string, v: JsValue)
    ensures Keys(Put(f, k, v)) == if k in Keys(f) then Keys(f) else Keys(f) + [k]
  {
    if f != [] && f[0].0 != k {
      PutKeys(f[1..], k, v);
      assert Keys(f) == [f[0].0] + Keys(f[1..]);
      assert Keys(Put(f, k, v)) == [f[0].0] + Keys(Put(f[1..], k, v));
    }
  }

  lemma PutDistinct(f: Fields, k: string, v: JsValue)
    requires DistinctKeys(f)
    ensures DistinctKeys(Put(f, k, v))
  {
    PutKeys(f, k, v);
    var r := Put(f, k, v);
    forall i, j | 0 <= i < j < |r| ensures r[i].0 != r[j].0 {
      assert Keys(r)[i] == r[i].0 && Keys(r)[j] == r[j].0;
    }
  }

  /** `{ ...base, ...extra }`: the properties of `extra` are assigned over a copy of `base`, in order. */
  function Spread(base: Fields, extra: Fields): (r: Fields)
    ensures DistinctKeys(base) ==> DistinctKeys(r)
    decreases |extra|
  {
    if extra == [] then base
    else
      var b2 := Put(base, extra[0].0, extra[0].1);
      assert DistinctKeys(base) ==> DistinctKeys(b2) by {
        if DistinctKeys(base) { PutDistinct(base, extra[0].0, extra[0].1); }
      }
      Spread(b2, extra[1..])
  }

  /** A spread object reads a property from `extra` when `extra` has it, and from `base` otherwise. */
  lemma {:induction false} GetSpread(base: Fields, extra: Fields, k: string)
    requires DistinctKeys(extra)
    ensures Get(Spread(base, extra), k) == if k in Keys(extra) then Get(extra, k) else Get(base, k)
    decreases |extra|
  {
    if extra != [] {
      var b2 := Put(base, extra[0].0, extra[0].1);
      assert DistinctKeys(extra[1..]);
      assert Keys(extra) == [extra[0].0] + Keys(extra[1..]);
      GetSpread(b2, extra[1..], k);
      PutGet(base, extra[0].0, extra[0].1, k);
      if k == extra[0].0 {
        assert k !in Keys(extra[1..]);
      }
    }
  }

  /** `const { [k]: _, ...rest } = o`: the other properties, in their order. */
  function Without(f: Fields, k: string): (r: Fields)
    ensures k !in Keys(r)
    ensures forall j :: j != k ==> Get(r, j) == Get(f, j)
    ensures |r| <= |f|
  {
    if f == [] then []
    else
      var rest := Without(f[1..], k);
      if f[0].0 == k then rest
      else
        var r := [f[0]] + rest;
        assert r[1..] == rest;
        assert Keys(r) == [f[0].0] + Keys(rest);
        r
  }
}
