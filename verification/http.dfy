/**
 * The HTTP surface shared by the route handlers and the browser helper: JSON
 * bodies (objects with string fields), `NextResponse.json(body, { status })`,
 * and the browser's `File`.
 */
module Http {
  import opened StorageTypes

  /** A JSON object whose fields are strings. */
  type JsonObject = map<string, string>

  datatype HttpResponse = HttpResponse(status: int, body: JsonObject)

  /** `NextResponse.json({ error: message }, { status })`: the routes name the field `error`. */
  function ErrorResponse(status: int, message: string): HttpResponse {
    HttpResponse(status, map["error" := message])
  }

  /** `NextResponse.json({ url, key })`, status 200. */
  function ResultResponse(result: UploadFileResult): HttpResponse {
    HttpResponse(200, map["url" := result.url, "key" := result.key])
  }

  /** A browser `File`: `mimeType` is its `type` property, and its `size` is the length of its content. */
  datatype File = File(name: string, mimeType: string, content: Bytes) {
    function Size(): nat {
      |content|
    }
  }

  /** The decision a route handler takes before any storage call: answer
      directly, or delegate to the storage layer with the given call. */
  datatype RouteStep<C> = Respond(response: HttpResponse) | Delegate(call: C)

  /** The catch block shared by the three routes: a StorageError (or one of its
      subclasses) answers 500 with its own message, anything else 500 with the
      route's generic message. */
  function FailureResponse(e: Thrown, genericMessage: string): (resp: HttpResponse)
    ensures resp.status == 500 && resp.body.Keys == {"error"}
    ensures IsStorageError(e) ==> resp.body["error"] == e.message
    ensures !IsStorageError(e) ==> resp.body["error"] == genericMessage
  {
    if IsStorageError(e) then ErrorResponse(500, e.message) else ErrorResponse(500, genericMessage)
  }

  /** The answer a delegating route gives: the provider's result as it is, or
      the shared 500 mapping with the route's generic message. */
  function RespondWith(outcome: Completion<UploadFileResult>, genericMessage: string): (resp: HttpResponse)
    ensures outcome.Returned? ==> resp == HttpResponse(200, map["url" := outcome.value.url, "key" := outcome.value.key])
    ensures outcome.Threw? ==> resp == FailureResponse(outcome.error, genericMessage)
  {
    match outcome
    case Returned(r) => ResultResponse(r)
    case Threw(e) => FailureResponse(e, genericMessage)
  }
}
