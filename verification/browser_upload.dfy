/**
 * `uploadFileFromBrowser` (src/storage/index.ts): files under 10 MiB go through
 * the server's upload route; larger files ask for a pre-signed URL, PUT the
 * bytes straight to it, then ask for the file's URL.
 *
 * `fetch` is a parameter: a function from the request issued to what the
 * network answers (a response, or the error `fetch` rejects with). The method
 * returns, beside the outcome, the requests it issued in order.
 */
module BrowserUpload {
  import opened StorageTypes
  import opened Http

  const API_STORAGE_UPLOAD := "/api/storage/upload"
  const API_STORAGE_PRESIGNED_URL := "/api/storage/presigned-url"
  const API_STORAGE_FILE_URL := "/api/storage/file-url"

  /** 10 MiB: the smallest size sent through the pre-signed path. */
  const DIRECT_UPLOAD_LIMIT := 10 * 1024 * 1024

  const UPLOAD_FAILED := "Failed to upload file"
  const PRESIGN_FAILED := "Failed to get pre-signed URL"
  const DIRECT_PUT_FAILED := "Failed to upload file using pre-signed URL"
  const FILE_URL_FAILED := "Failed to get file URL"
  const UNKNOWN_FAILURE := "Unknown error occurred during file upload"

  datatype HttpMethod = Post | Put

  datatype RequestBody =
    | FormData(file: File, folder: string)
    | JsonBody(fields: JsonObject)
    | FileBody(file: File)

  /** A request: HTTP method, URL, the explicit Content-Type header if any, and body. */
  datatype Request = Request(verb: HttpMethod, target: string, contentType: Option<string>, body: RequestBody)

  /** What `response.json()` gives: the parsed object, or the error it throws. */
  datatype ResponseBody = Json(fields: JsonObject) | Unreadable(parseError: Thrown)

  datatype FetchResult = Response(ok: bool, body: ResponseBody) | NetworkFailure(error: Thrown)

  type Fetch = Request -> FetchResult

  /** `folder || ''` */
  function OrEmpty(folder: Option<string>): string {
    if IsSet(folder) then folder.value else ""
  }

  /** Step of the small-file path: a POST of the form with `file` and
      `folder || ''`, leaving the Content-Type to the browser. */
  function ProxyUploadRequest(file: File, folder: Option<string>): (req: Request)
    ensures req.verb == Post && req.target == API_STORAGE_UPLOAD && req.contentType.None?
    ensures req.body.FormData? && req.body.file == file
    ensures IsSet(folder) ==> req.body.folder == folder.value
    ensures !IsSet(folder) ==> req.body.folder == ""
  {
    Request(Post, API_STORAGE_UPLOAD, None, FormData(file, OrEmpty(folder)))
  }

  /** First step of the large-file path: a JSON POST of exactly the file's
      name, its type and `folder || ''`. */
  function PresignedUrlRequest(file: File, folder: Option<string>): (req: Request)
    ensures req.verb == Post && req.target == API_STORAGE_PRESIGNED_URL
    ensures req.contentType == Some("application/json")
    ensures req.body.JsonBody? && req.body.fields.Keys == {"filename", "contentType", "folder"}
    ensures req.body.fields["filename"] == file.name && req.body.fields["contentType"] == file.mimeType
    ensures IsSet(folder) ==> req.body.fields["folder"] == folder.value
    ensures !IsSet(folder) ==> req.body.fields["folder"] == ""
  {
    Request(Post, API_STORAGE_PRESIGNED_URL, Some("application/json"),
            JsonBody(map["filename" := file.name, "contentType" := file.mimeType, "folder" := OrEmpty(folder)]))
  }

  /** Second step: the bytes, PUT to the returned `url` (a missing `url`
      stringifies to "undefined"), with the file's type as Content-Type. */
  function DirectPutRequest(file: File, presigned: JsonObject): (req: Request)
    ensures req.verb == Put && req.contentType == Some(file.mimeType) && req.body == FileBody(file)
    ensures "url" in presigned ==> req.target == presigned["url"]
    ensures "url" !in presigned ==> req.target == "undefined"
  {
    Request(Put, if "url" in presigned then presigned["url"] else "undefined", Some(file.mimeType), FileBody(file))
  }

  /** Third step: a JSON POST of the returned `key`, which `JSON.stringify`
      leaves out when it is missing. */
  function FileUrlRequest(presigned: JsonObject): (req: Request)
    ensures req.verb == Post && req.target == API_STORAGE_FILE_URL
    ensures req.contentType == Some("application/json")
    ensures req.body.JsonBody? && req.body.fields.Keys <= {"key"}
    ensures "key" in req.body.fields <==> "key" in presigned
    ensures "key" in presigned ==> req.body.fields["key"] == presigned["key"]
  {
    Request(Post, API_STORAGE_FILE_URL, Some("application/json"),
            JsonBody(if "key" in presigned then map["key" := presigned["key"]] else map[]))
  }

  /** `error.message || fallback` on a parsed error body. */
  function ErrorBodyMessage(body: JsonObject, fallback: string): (m: string)
    ensures "message" in body && body["message"] != "" ==> m == body["message"]
    ensures !("message" in body && body["message"] != "") ==> m == fallback
    // with a non-empty fallback, the message of the thrown Error is never empty
    ensures fallback != "" ==> m != ""
  {
    if "message" in body && body["message"] != "" then body["message"] else fallback
  }

  /** A step that reads JSON: the parsed body when ok, else an Error with the
      body's `message` or the step's fallback; a rejected fetch or an unreadable
      body throws what they threw. */
  function ReadJson(result: FetchResult, fallback: string): (c: Completion<JsonObject>)
    // a step succeeds exactly on an ok response whose body parses, with that body
    ensures c.Returned? <==> result.Response? && result.ok && result.body.Json?
    ensures c.Returned? ==> c.value == result.body.fields
    // a parsed error body yields a plain Error with its `message` or the fallback
    ensures result.Response? && !result.ok && result.body.Json? ==>
      c == Threw(NewError(ErrorBodyMessage(result.body.fields, fallback)))
    // what fetch or the parser threw passes through unchanged
    ensures result.NetworkFailure? ==> c == Threw(result.error)
    ensures result.Response? && result.body.Unreadable? ==> c == Threw(result.body.parseError)
  {
    match result
    case NetworkFailure(e) => Threw(e)
    case Response(ok, Unreadable(e)) => Threw(e)
    case Response(ok, Json(fields)) => if ok then Returned(fields) else Threw(NewError(ErrorBodyMessage(fields, fallback)))
  }

  /** The PUT step: its body is never read, and a failure has a fixed message. */
  function CheckPut(result: FetchResult): (c: Completion<JsonObject>)
    ensures c.Returned? <==> result.Response? && result.ok
    // the answer's body, readable or not, plays no part
    ensures result.Response? && result.ok ==> c == Returned(map[])
    ensures result.Response? && !result.ok ==> c == Threw(NewError(DIRECT_PUT_FAILED))
    ensures result.NetworkFailure? ==> c == Threw(result.error)
  {
    match result
    case NetworkFailure(e) => Threw(e)
    case Response(ok, _) => if ok then Returned(map[]) else Threw(NewError(DIRECT_PUT_FAILED))
  }

  /** What step `i` of the flow chosen for `file` makes of its fetch result. */
  function StepResult(file: File, i: nat, result: FetchResult): Completion<JsonObject> {
    if file.Size() < DIRECT_UPLOAD_LIMIT then ReadJson(result, UPLOAD_FAILED)
    else if i == 0 then ReadJson(result, PRESIGN_FAILED)
    else if i == 1 then CheckPut(result)
    else ReadJson(result, FILE_URL_FAILED)
  }

  /** The final catch block: a new plain Error with the same message. */
  function Rethrown(e: Thrown): (t: Thrown)
    // the caller always gets a plain Error, never a StorageError or a bare value
    ensures IsError(t) && !IsStorageError(t) && Name(t) == "Error"
    ensures IsError(e) ==> t.message == e.message
    ensures !IsError(e) ==> t.message == UNKNOWN_FAILURE
    // re-throwing a re-thrown error changes nothing
    ensures NewError(MessageOr(t, UNKNOWN_FAILURE)) == t
  {
    NewError(MessageOr(e, UNKNOWN_FAILURE))
  }

  /** `uploadFileFromBrowser(file, folder)`. */
  method UploadFileFromBrowser(file: File, folder: Option<string>, fetch: Fetch)
    returns (r: Completion<JsonObject>, issued: seq<Request>)
    // one request on the small-file path, at most three on the pre-signed path
    ensures 1 <= |issued| <= (if file.Size() < DIRECT_UPLOAD_LIMIT then 1 else 3)
    // every request but the last succeeded: a failing step aborts the flow
    ensures forall i :: 0 <= i < |issued| - 1 ==> StepResult(file, i, fetch(issued[i])).Returned?
    // the requests, in order
    ensures issued[0] == if file.Size() < DIRECT_UPLOAD_LIMIT then ProxyUploadRequest(file, folder)
                         else PresignedUrlRequest(file, folder)
    ensures |issued| >= 2 ==> issued[1] == DirectPutRequest(file, StepResult(file, 0, fetch(issued[0])).value)
    ensures |issued| == 3 ==> issued[2] == FileUrlRequest(StepResult(file, 0, fetch(issued[0])).value)
    // the last step decides: its failure is re-thrown as a plain Error with the
    // same message; its success ends the flow and is the result
    ensures var last := StepResult(file, |issued| - 1, fetch(issued[|issued| - 1]));
      && (last.Threw? ==> r == Threw(Rethrown(last.error)))
      && (last.Returned? ==> r == last && |issued| == (if file.Size() < DIRECT_UPLOAD_LIMIT then 1 else 3))
  {
    if file.Size() < DIRECT_UPLOAD_LIMIT {
      var request := ProxyUploadRequest(file, folder);
      issued := [request];
      var uploaded := ReadJson(fetch(request), UPLOAD_FAILED);
      r := if uploaded.Threw? then Threw(Rethrown(uploaded.error)) else uploaded;
      return;
    }

    var presignRequest := PresignedUrlRequest(file, folder);
    issued := [presignRequest];
    var presigned := ReadJson(fetch(presignRequest), PRESIGN_FAILED);
    if presigned.Threw? {
      r := Threw(Rethrown(presigned.error));
      return;
    }

    var putRequest := DirectPutRequest(file, presigned.value);
    issued := issued + [putRequest];
    var put := CheckPut(fetch(putRequest));
    if put.Threw? {
      r := Threw(Rethrown(put.error));
      return;
    }

    var fileUrlRequest := FileUrlRequest(presigned.value);
    issued := issued + [fileUrlRequest];
    var fileUrl := ReadJson(fetch(fileUrlRequest), FILE_URL_FAILED);
    r := if fileUrl.Threw? then Threw(Rethrown(fileUrl.error)) else fileUrl;
  }

  /** The routes answer errors as `{ error }` while this helper reads
      `error.message`: a route's own message never reaches the caller, who sees
      the step's fallback instead. */
  lemma RouteErrorsSurfaceAsFallback(status: int, message: string, fallback: string)
    ensures ReadJson(Response(false, Json(ErrorResponse(status, message).body)), fallback) == Threw(NewError(fallback))
  {
  }
}
