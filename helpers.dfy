/**
 * The request-body helper of apps/backend/src/utils/helpers.ts. The photo
 * token helpers of the same file are in module PhotoToken.
 */
module Helpers {
  import opened Wrappers
  import opened JsValues

  /**
   * What the web framework answers when a handler throws outside its own
   * `try` (a failed zod `.parse` of the body): no error handler is installed,
   * so this is its default 500 answer.
   */
  const InternalServerError: string := "Internal Server Error"

  /**
   * `parseBody(c)`: the JSON body, or `{}` when the body is not valid JSON
   * (`None` stands for a body `c.req.json()` rejects).
   */
  function ParseBody(json: Option<JsValue>): (v: JsValue)
    ensures json.None? ==> v == Obj([])
    ensures json.Some? ==> v == json.value
  {
    if json.Some? then json.value else Obj([])
  }
}
