/**
 * `transformBigInts` (apps/backend/src/utils/transform.ts): a helper that
 * turns every `bigint` into a number, so that `JSON.stringify` (which throws
 * on a `bigint`) accepts the value. Telegram ids are `bigint` columns; no
 * handler of the backend calls this helper, they convert `tgId` by hand.
 */
module Transform {
  import opened JsValues

  /** The value holds no `bigint` at any depth, so `JSON.stringify` accepts it. */
  predicate NoBigInt(v: JsValue)
  {
    match v
    case BigInt(_) => false
    case Arr(items) => forall i :: 0 <= i < |items| ==> NoBigInt(items[i])
    case Obj(f) => forall i :: 0 <= i < |f| ==> NoBigInt(f[i].1)
    case _ => true
  }

  /**
   * Replaces every `bigint` by the number with the same value, walking arrays
   * element by element and plain objects property by property; `null`,
   * `undefined`, dates and other primitives are returned as they are.
   */
  function TransformBigInts(v: JsValue): (r: JsValue)
    ensures NoBigInt(r)
    ensures v.Arr? ==> r.Arr? && |r.items| == |v.items|
    ensures v.Arr? ==> forall i :: 0 <= i < |v.items| ==> r.items[i] == TransformBigInts(v.items[i])
    ensures v.Obj? ==> r.Obj? && Keys(r.fields) == Keys(v.fields)
    ensures v.BigInt? ==> r == Num(v.i as real)
    ensures !v.BigInt? && !v.Arr? && !v.Obj? ==> r == v
  {
    match v
    case BigInt(i) => Num(i as real)
    case Arr(items) =>
      Arr(seq(|items|, i requires 0 <= i < |items| => TransformBigInts(items[i])))
    case Obj(f) =>
      var g := seq(|f|, i requires 0 <= i < |f| => (f[i].0, TransformBigInts(f[i].1)));
      assert forall i :: 0 <= i < |f| ==> Keys(g)[i] == Keys(f)[i];
      Obj(g)
    case _ => v
  }

  /** A value without bigints passes through unchanged. */
  lemma {:induction false} TransformOfPlain(v: JsValue)
    requires NoBigInt(v)
    ensures TransformBigInts(v) == v
  {
    match v
    case Arr(items) =>
      forall i | 0 <= i < |items| ensures TransformBigInts(items[i]) == items[i] {
        TransformOfPlain(items[i]);
      }
      assert TransformBigInts(v).items == items;
    case Obj(f) =>
      forall i | 0 <= i < |f| ensures TransformBigInts(f[i].1) == f[i].1 {
        TransformOfPlain(f[i].1);
      }
      assert TransformBigInts(v).fields == f;
    case _ =>
  }

  /** Transforming twice is transforming once. */
  lemma TransformIdempotent(v: JsValue)
    ensures TransformBigInts(TransformBigInts(v)) == TransformBigInts(v)
  {
    TransformOfPlain(TransformBigInts(v));
  }

  /** Property names and their order survive, and each value is the transformed original. */
  lemma TransformGet(f: Fields, k: string)
    requires DistinctKeys(f)
    ensures TransformBigInts(Obj(f)).Obj?
    ensures Get(TransformBigInts(Obj(f)).fields, k) ==
            if k in Keys(f) then TransformBigInts(Get(f, k)) else Undefined
  {
    var g := TransformBigInts(Obj(f)).fields;
    assert DistinctKeys(g) by {
      forall i, j | 0 <= i < j < |g| ensures g[i].0 != g[j].0 {
        assert Keys(g)[i] == Keys(f)[i] && Keys(g)[j] == Keys(f)[j];
      }
    }
    if k in Keys(f) {
      var i :| 0 <= i < |f| && Keys(f)[i] == k;
      GetAt(f, i);
      assert Keys(g)[i] == k;
      GetAt(g, i);
    } else {
      assert k !in Keys(g);
    }
  }
}
