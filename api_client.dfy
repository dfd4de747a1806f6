/**
 * The `request` wrapper of the web client (apps/web/src/lib/http.ts) and of
 * the dashboard (apps/backend/src/dash/lib/http.ts; the two are the same
 * code apart from the request headers). However the HTTP exchange ends, the
 * caller gets one object with `status` and `ok`: the server's own envelope
 * when it sent one, or an error object whose `kind` says what went wrong.
 */
module ApiClient {
  import opened Wrappers
  import opened JsValues
  import opened JsText
  import ChannelHelpers

  const NotJson: string := "Response is not JSON"
  const ShapeNotSupported: string := "Response shape is not supported"
  const NetworkError: string := "Network error"

  /**
   * How the `ky` call ended: an answer with a 2xx status, an `HTTPError`
   * for any other status, or any other exception (no connection, timeout).
   * `body` is what `json()` gave, `None` when the body was not JSON.
   */
  datatype Exchange =
    | Answered(body: Option<JsValue>)
    | HttpFailed(statusCode: int, body: Option<JsValue>)
    | Failed

  /** `isApiShape`: a non-null object whose `status` is `"success"` or `"error"`. */
  function IsApiShape(v: JsValue): (b: bool)
    ensures b <==> v.Obj? && (Get(v.fields, "status") == Str("success") || Get(v.fields, "status") == Str("error"))
  {
    match v
    case Obj(f) => "status" in Keys(f) && (Get(f, "status") == Str("success") || Get(f, "status") == Str("error"))
    case _ => false
  }

  /** An api-shaped body reporting an error. */
  predicate IsApiError(body: Option<JsValue>)
  {
    body.Some? && IsApiShape(body.value) && Get(body.value.fields, "status") == Str("error")
  }

  /** The message of an HTTP failure without a usable body. */
  function RequestFailed(statusCode: int): string
  {
    "Request failed (" + IntToString(statusCode) + ")"
  }

  /** An error object built by the client itself. */
  function ClientError(kind: string, message: string): Fields
  {
    [("status", Str("error")), ("ok", Bool(false)), ("kind", Str(kind)), ("message", Str(message))]
  }

  /** The error object for an HTTP failure whose body is not an api-shaped error. */
  function HttpError(code: int): Fields
  {
    [("status", Str("error")), ("ok", Bool(false)), ("kind", Str("http")),
     ("statusCode", Num(code as real)), ("message", Str(RequestFailed(code)))]
  }

  /**
   * The object `request` resolves to. Whatever happens, its `status` is
   * `"success"` or `"error"`, and `ok` is true exactly for `"success"`.
   */
  function Request(x: Exchange): (r: Fields)
    ensures Get(r, "status") == Str("success") || Get(r, "status") == Str("error")
    ensures Get(r, "ok") == Bool(Get(r, "status") == Str("success"))
  {
    match x
    case Answered(None) =>
      ClientErrorReads("bad_response", NotJson);
      ClientError("bad_response", NotJson)
    case Answered(Some(json)) =>
      if !IsApiShape(json) then
        ClientErrorReads("bad_response", ShapeNotSupported);
        ClientError("bad_response", ShapeNotSupported)
      else
        var ok := Bool(Get(json.fields, "status") == Str("success"));
        SpreadOkReads(json.fields, ok, "ok");
        SpreadOkReads(json.fields, ok, "status");
        Spread(json.fields, [("ok", ok)])
    case HttpFailed(code, body) =>
      if IsApiError(body) then
        SpreadHttpReads(body.value.fields, code, "ok");
        SpreadHttpReads(body.value.fields, code, "status");
        Spread(body.value.fields, [("ok", Bool(false)), ("kind", Str("http")), ("statusCode", Num(code as real))])
      else
        HttpErrorReads(code);
        HttpError(code)
    case Failed =>
      ClientErrorReads("network", NetworkError);
      ClientError("network", NetworkError)
  }

  /** The properties of an error object the client builds itself. */
  lemma ClientErrorReads(kind: string, message: string)
    ensures var r := ClientError(kind, message);
            Get(r, "status") == Str("error") && Get(r, "ok") == Bool(false)
            && Get(r, "kind") == Str(kind) && Get(r, "message") == Str(message)
  {
    var r := ClientError(kind, message);
    assert DistinctKeys(r);
    GetAt(r, 0);
    GetAt(r, 1);
    GetAt(r, 2);
    GetAt(r, 3);
  }

  /** The properties of the error object for an HTTP failure without an api-shaped error body. */
  lemma HttpErrorReads(code: int)
    ensures var r := HttpError(code);
            Get(r, "status") == Str("error") && Get(r, "ok") == Bool(false) && Get(r, "kind") == Str("http")
            && Get(r, "statusCode") == Num(code as real) && Get(r, "message") == Str(RequestFailed(code))
  {
    var r := HttpError(code);
    assert DistinctKeys(r);
    GetAt(r, 0);
    GetAt(r, 1);
    GetAt(r, 2);
    GetAt(r, 3);
    GetAt(r, 4);
  }

  /** A body spread under `ok`: `ok` is the new value, everything else reads as in the body. */
  lemma SpreadOkReads(f: Fields, ok: JsValue, k: string)
    ensures Get(Spread(f, [("ok", ok)]), k) == if k == "ok" then ok else Get(f, k)
  {
    GetSpread(f, [("ok", ok)], k);
  }

  /** An api-shaped error body spread under the `http` properties. */
  lemma SpreadHttpReads(f: Fields, code: int, k: string)
    ensures var extra := [("ok", Bool(false)), ("kind", Str("http")), ("statusCode", Num(code as real))];
            Get(Spread(f, extra), k)
            == if k == "ok" then Bool(false) else if k == "kind" then Str("http")
               else if k == "statusCode" then Num(code as real) else Get(f, k)
  {
    var extra := [("ok", Bool(false)), ("kind", Str("http")), ("statusCode", Num(code as real))];
    assert DistinctKeys(extra);
    ThreeFields(extra, k);
    assert k in Keys(extra) <==> k == "ok" || k == "kind" || k == "statusCode";
    GetSpread(f, extra, k);
  }

  /** A 2xx answer that is not JSON, or JSON without the envelope, is a `bad_response`. */
  lemma BadResponse(x: Exchange)
    requires x.Answered? && (x.body.None? || !IsApiShape(x.body.value))
    ensures Get(Request(x), "ok") == Bool(false)
    ensures Get(Request(x), "kind") == Str("bad_response")
    ensures Get(Request(x), "message") == Str(if x.body.None? then NotJson else ShapeNotSupported)
  {
    ClientErrorReads("bad_response", if x.body.None? then NotJson else ShapeNotSupported);
  }

  /** A 2xx envelope is passed on with all its properties; only `ok` is added or overwritten. */
  lemma EnvelopePassedOn(x: Exchange, k: string)
    requires x.Answered? && x.body.Some? && IsApiShape(x.body.value)
    ensures k != "ok" ==> Get(Request(x), k) == Get(x.body.value.fields, k)
    ensures Keys(Request(x)) == if "ok" in Keys(x.body.value.fields) then Keys(x.body.value.fields)
                                else Keys(x.body.value.fields) + ["ok"]
  {
    var f := x.body.value.fields;
    var ok := Bool(Get(f, "status") == Str("success"));
    var r := Request(x);
    assert r == Spread(f, [("ok", ok)]);
    assert Spread(f, [("ok", ok)]) == Put(f, "ok", ok) by {
      assert Spread(f, [("ok", ok)]) == Spread(Put(f, "ok", ok), []);
    }
    SpreadOkReads(f, ok, k);
    PutKeys(f, "ok", ok);
  }

  /**
   * Any other HTTP status is kind `http` with that `statusCode`; the
   * server's own message is kept only when its body is an api-shaped error.
   */
  lemma HttpFailure(x: Exchange)
    requires x.HttpFailed?
    ensures Get(Request(x), "kind") == Str("http")
    ensures Get(Request(x), "statusCode") == Num(x.statusCode as real)
    ensures IsApiError(x.body) ==> Get(Request(x), "message") == Get(x.body.value.fields, "message")
    ensures !IsApiError(x.body) ==> Get(Request(x), "message") == Str(RequestFailed(x.statusCode))
  {
    if IsApiError(x.body) {
      SpreadHttpReads(x.body.value.fields, x.statusCode, "kind");
      SpreadHttpReads(x.body.value.fields, x.statusCode, "statusCode");
      SpreadHttpReads(x.body.value.fields, x.statusCode, "message");
    } else {
      HttpErrorReads(x.statusCode);
    }
  }

  /** Any other exception is kind `network` with the message "Network error". */
  lemma NetworkFailure(x: Exchange)
    requires x.Failed?
    ensures Get(Request(x), "ok") == Bool(false)
    ensures Get(Request(x), "kind") == Str("network")
    ensures Get(Request(x), "message") == Str(NetworkError)
  {
    ClientErrorReads("network", NetworkError);
  }

  // ---------------------------------------------------------------- channel photos

  const PhotoRoute: string := "channels/channel-photo/"

  /** `getChannelPhoto`: the photo route for the last `/`-segment of the channel's link. */
  function ChannelPhotoUrl(apiUrl: string, tgLink: string): (url: string)
    ensures |url| >= |apiUrl + PhotoRoute| && url[..|apiUrl + PhotoRoute|] == apiUrl + PhotoRoute
    ensures var seg := url[|apiUrl + PhotoRoute|..];
            '/' !in seg && |seg| <= |tgLink| && seg == tgLink[|tgLink| - |seg|..]
  {
    LastSegmentIsSuffix(tgLink, '/');
    var url := apiUrl + PhotoRoute + LastSegment(tgLink, '/');
    assert url[|apiUrl + PhotoRoute|..] == LastSegment(tgLink, '/');
    url
  }

  /** For a link the backend stored, the photo is asked for by the channel's username. */
  lemma PhotoOfStoredLink(apiUrl: string, username: string)
    requires '/' !in username
    ensures ChannelPhotoUrl(apiUrl, ChannelHelpers.TgLink(username)) == apiUrl + PhotoRoute + username
  {
    assert ChannelHelpers.TgLink(username) == "https://t.me" + "/" + username;
    LastSegmentAfterSeparator("https://t.me", '/', username);
  }
}
