/**
 * What both API handlers do with the request before looking at its
 * contents: the content-type test and the lenient body read.
 */
module Http {
  import opened Js
  import Text

  const JsonMediaType := "application/json"

  /** `(request.headers.get("content-type") || "").includes("application/json")`. */
  predicate JsonContent(contentType: Option<string>): (r: bool)
    ensures r ==> contentType.Some? && |contentType.value| >= |JsonMediaType|
    ensures contentType.Some? && JsonMediaType <= contentType.value ==> r
  {
    Text.Contains(contentType.GetOr(""), JsonMediaType)
  }

  /** An absent header is read as the empty string, which is not JSON. */
  lemma MissingHeaderIsNotJson()
    ensures !JsonContent(None)
  {
  }

  /** `await request.json().catch(() => null)`: a body that does not parse arrives as None and is read as null. */
  function BodyOrNull(body: Option<JsValue>): (v: JsValue)
    ensures body.None? ==> v == JNull
    ensures body.Some? ==> v == body.value
  {
    body.GetOr(JNull)
  }

  /** `response.ok`: a status in the range 200-299. */
  predicate Ok(status: int) {
    200 <= status <= 299
  }
}
