/**
 * The JSON envelopes every backend handler answers with
 * (apps/backend/src/utils/responses.ts). An absent `extra` is the empty list.
 */
module Responses {
  import opened JsValues

  /** `successResponse(data, extra)`: `{ status: "success", data, ...extra }`. */
  function SuccessResponse(data: JsValue, extra: Fields): (r: Fields)
    ensures DistinctKeys(r)
  {
    Spread([("status", Str("success")), ("data", data)], extra)
  }

  /**
   * `errorResponse(message, stack, extra)`: `{ status: "error", message, stack, ...extra }`;
   * the `stack` property is present even when no stack was passed.
   */
  function ErrorResponse(message: string, stack: JsValue, extra: Fields): (r: Fields)
    ensures DistinctKeys(r)
  {
    Spread([("status", Str("error")), ("message", Str(message)), ("stack", stack)], extra)
  }

  /**
   * What a client reads from a success envelope: the `status` and `data` it was
   * built with, unless `extra` overrides them, and any other property from `extra`.
   */
  lemma SuccessResponseFields(data: JsValue, extra: Fields, k: string)
    requires DistinctKeys(extra)
    ensures k in Keys(extra) ==> Get(SuccessResponse(data, extra), k) == Get(extra, k)
    ensures k !in Keys(extra) && k == "status" ==> Get(SuccessResponse(data, extra), k) == Str("success")
    ensures k !in Keys(extra) && k == "data" ==> Get(SuccessResponse(data, extra), k) == data
    ensures k !in Keys(extra) && k != "status" && k != "data" ==> Get(SuccessResponse(data, extra), k) == Undefined
  {
    GetSpread([("status", Str("success")), ("data", data)], extra, k);
  }

  /** The same for an error envelope, whose fixed properties are `status`, `message` and `stack`. */
  lemma ErrorResponseFields(message: string, stack: JsValue, extra: Fields, k: string)
    requires DistinctKeys(extra)
    ensures k in Keys(extra) ==> Get(ErrorResponse(message, stack, extra), k) == Get(extra, k)
    ensures k !in Keys(extra) && k == "status" ==> Get(ErrorResponse(message, stack, extra), k) == Str("error")
    ensures k !in Keys(extra) && k == "message" ==> Get(ErrorResponse(message, stack, extra), k) == Str(message)
    ensures k !in Keys(extra) && k == "stack" ==> Get(ErrorResponse(message, stack, extra), k) == stack
    ensures k !in Keys(extra) && k != "status" && k != "message" && k != "stack" ==>
              Get(ErrorResponse(message, stack, extra), k) == Undefined
  {
    GetSpread([("status", Str("error")), ("message", Str(message)), ("stack", stack)], extra, k);
    assert |"status"| == 6 && |"message"| == 7 && |"stack"| == 5;
    GetOfThree("status", "message", "stack", Str("error"), Str(message), stack, k);
  }

  /** Reading a property of a three-property object with distinct names. */
  lemma GetOfThree(a: string, b: string, c: string, va: JsValue, vb: JsValue, vc: JsValue, k: string)
    requires a != b && a != c && b != c
    ensures Get([(a, va), (b, vb), (c, vc)], k)
            == if k == a then va else if k == b then vb else if k == c then vc else Undefined
  {
    var f := [(a, va), (b, vb), (c, vc)];
    var g, h := [(b, vb), (c, vc)], [(c, vc)];
    assert f[1..] == g && g[1..] == h && h[1..] == [];
    assert Get(h, k) == if k == c then vc else Undefined;
    assert Get(g, k) == if k == b then vb else Get(h, k);
  }
}
