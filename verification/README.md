# Storage layer of simple-app-template, modelled in Dafny

This project models the file-storage layer of a Next.js application template.

**`S3Provider`** stores uploads in an S3-compatible object store. It has three
operations:
- `uploadFile` puts the bytes under a key built from a fresh UUID and the original
  extension, then answers with a public or signed URL.
- `deleteFile` overwrites the object with an empty body.
- `getPresignedUploadUrl` signs a PUT for the same kind of key.

The provider builds its S3 client lazily, at most once, and only when a region is
configured. Every failure is mapped onto the error hierarchy
`StorageError ← {ConfigurationError, UploadError}`.

**The storage module** keeps one process-wide provider slot, filled on first use.
Three wrappers forward to the provider. A browser helper, `uploadFileFromBrowser`,
chooses by file size:
- under 10 MiB, one request to the upload route;
- otherwise up to three requests: a pre-signed URL, a direct PUT, then the file
  URL. A failing step ends the flow.

**Three HTTP route handlers** sit in front of the module. `upload` and
`presigned-url` validate their input and delegate to the module. `file-url`
rebuilds the URL of a stored key from the environment.

**The configuration** is read from `STORAGE_*` environment variables.

## How the model is built

- A thrown exception is a value. A call that may throw yields
  `Completion<T> = Returned(value) | Threw(error)`, and an `Error` instance carries
  its class and its message.
- The outside world enters as inputs:
  - the UUID that `randomUUID()` would draw;
  - the error a store `send` would throw (`sendFault`);
  - URL signing, as a `Signer` function from what is signed to a URL or an error;
  - the browser's `fetch`, as a function from a request to a response or a
    rejection;
  - the environment, as a map.
- The remote store is an `ObjectStore` object. Its `objects` map and `puts` log
  change in place when `send` succeeds.
- The provider and the storage module are classes. Their client slot and provider
  slot are fields that the methods update.
- Each provider operation is also described by a function over values: the
  `...Outcome` functions give what the call returns or throws, and the `...Put`
  functions give what it hands to the store. Each method is proved to agree with
  these functions, and the lemmas about the operations are stated over them.
- Each delegating route handler has two pure parts:
  - `Check...` is the validation chain. It either answers directly or gives the
    call it will make.
  - `Http.RespondWith`, shared by the two delegating routes, maps that call's
    outcome to the response.

  Its `Post` method runs both around the storage module. The `file-url` route
  calls no storage function and is a single `Post` method.

Observations recorded as lemmas:
- The routes answer errors as `{ error }`, but `uploadFileFromBrowser` reads
  `error.message`. A route's message therefore never reaches the browser caller;
  the caller sees the step's fallback (`RouteErrorsSurfaceAsFallback`).
- The `presigned-url` route renames the file with one UUID, and the provider
  renames it again with another. For a name without an extension, the first UUID
  becomes the key's extension (`PresignedKeyAfterDoubleRenaming`).
- The `upload` route refuses GIF images (`UploadRouteBounds`), while the
  `presigned-url` route accepts them (`CheckPresign` delegates exactly for the
  four listed types, GIF among them).
- `deleteFile` leaves the key in the bucket with an empty body
  (`DeleteKeepsTheKey`).

## Model

| member | source | states |
|---|---|---|
| StorageTypes.NewError | src/storage/index.ts:49-51 | `new Error(m)` is an Error but not a StorageError; its name is "Error" and its message is `m` |
| StorageTypes.NewStorageError | src/storage/types.ts:18-23 | a StorageError that is neither subclass, named "StorageError", carrying the message |
| StorageTypes.NewConfigurationError | src/storage/types.ts:25-30 | an instance of StorageError and of ConfigurationError, not of UploadError, named "ConfigurationError" |
| StorageTypes.NewUploadError | src/storage/types.ts:32-37 | an instance of StorageError and of UploadError, not of ConfigurationError, named "UploadError" |
| StorageTypes.SubclassesAreStorageErrors | src/storage/types.ts:18-37 | both subclasses pass `instanceof StorageError`, an error is of at most one subclass, and every StorageError is an Error with a name other than "Error" |
| StorageTypes.MessageOr | src/storage/provider/s3.ts:147-150 | an Error of any class contributes its own message; anything else thrown gives the fallback |
| StorageTypes.WrappingKeepsMessage | src/storage/index.ts:192-197 | wrapping a caught message in a new Error, StorageError or UploadError and reading it back gives the same message, so a message survives every catch block unchanged |
| StorageConfigLoader.LoadStorageConfig | src/storage/config/storage-config.ts:8-18 | region, keys and bucket are the variable's value or '' when unset; endpoint and publicUrl are copied verbatim or undefined; forcePathStyle is always defined and false exactly for the value 'false'; provider is 's3' |
| S3Sdk.S3Client.constructor | src/storage/provider/s3.ts:75 | the client keeps the options it was built from |
| S3Sdk.ObjectStore.Send | src/storage/provider/s3.ts:113-120 | a put stores the body and content type under (bucket, key) and is logged; a failing send throws its error and changes nothing |
| S3Sdk.PutNeverRemoves | src/storage/provider/s3.ts:173-178 | a put never removes an object, and a successful put's key is present afterwards |
| S3Naming.Split | src/storage/provider/s3.ts:83 | `split` always yields at least one part |
| S3Naming.SplitJoin | src/storage/provider/s3.ts:83 | joining the parts with the separator gives back the string, and no part holds the separator |
| S3Naming.SplitSingle | src/storage/provider/s3.ts:83 | a string splits into one part exactly when it holds no separator, and that part is the string |
| S3Naming.LastPartIsLastSegment | src/storage/provider/s3.ts:83 | the last part of `split('.')` is the longest dot-free suffix: it has no dot, ends the name, and is the whole name or follows a dot |
| S3Naming.Extension | src/storage/provider/s3.ts:83 | the extension taken by `split('.').pop()`, or '' for none, is the longest dot-free suffix of the filename |
| S3Naming.ExtensionAfterDot | src/storage/provider/s3.ts:83 | the extension of `prefix.ext` is `ext` when `ext` has no dot |
| S3Naming.ExtensionOfDotlessName | src/storage/provider/s3.ts:83 | a name without a dot is its own extension |
| S3Naming.UniqueFilename | src/storage/provider/s3.ts:82-86 | the new name starts with the UUID; it is the bare UUID when the extension is empty, and otherwise keeps the original's extension, so renaming twice keeps it |
| S3Naming.UniqueFilenameCases | src/storage/provider/s3.ts:82-86 | a dot-free name gives `uuid.name`; an empty name or a trailing dot gives the bare UUID; `prefix.ext` gives `uuid.ext` |
| S3Naming.DoubleRenamingOfExtensionlessName | src/storage/provider/s3.ts:82-86 | renaming an extension-less name twice gives `uuid2.uuid1` |
| S3Naming.ObjectKey | src/storage/provider/s3.ts:102 | the key ends with the unique filename, preceded by `folder/` when the folder is non-empty and by nothing otherwise |
| S3Naming.KeyShape | src/storage/provider/s3.ts:101-102 | every key is the folder prefix, then the UUID, then `.ext` for a non-empty extension |
| S3Naming.PhotoKey | src/storage/provider/s3.ts:101-102 | `photo.png` in folder `avatars` is keyed `avatars/<uuid>.png` |
| S3Naming.DistinctUuidsGiveDistinctKeys | src/storage/provider/s3.ts:101-102 | for the same folder and filename, different UUIDs give different keys |
| S3Naming.StripTrailingSlash | src/storage/provider/s3.ts:128 | `replace(/\/$/, '')` removes exactly one trailing slash if there is one, and changes nothing otherwise |
| S3Naming.PublicObjectUrl | src/storage/provider/s3.ts:126-128 | base and key are joined by one slash when the base has no trailing slash, and directly after its slash when it has one; a doubled trailing slash keeps one of its slashes |
| S3.ClientOptionsFor | src/storage/provider/s3.ts:54-73 | a ConfigurationError "Storage region is not configured" exactly when the region is empty; otherwise region and credentials come from the configuration; with an endpoint, forcePathStyle is on unless explicitly false; without one, neither option is set |
| S3.ObjectUrl | src/storage/provider/s3.ts:123-138 | with a public URL the result cannot fail and ends with `/key`; otherwise it is the signer's answer for a seven-day GET of exactly this bucket and key |
| S3.UploadFailure | src/storage/provider/s3.ts:141-153 | the catch block of uploadFile always yields a StorageError: a ConfigurationError unchanged, anything else an UploadError with its message or the fallback |
| S3.UploadFileOutcome | src/storage/provider/s3.ts:91-154 | uploadFile throws only StorageErrors, and succeeds only with region and bucket set and the put accepted, returning the derived key |
| S3.UploadFileSucceeds | src/storage/provider/s3.ts:91-140 | a successful upload put the bytes with the content type under `folder/uuid.ext`; it returns that key, with the public-URL join or the seven-day signed GET of the same key |
| S3.UploadFileConfigurationErrors | src/storage/provider/s3.ts:91-145 | a missing region or bucket throws its ConfigurationError unchanged, and nothing is put |
| S3.UploadFileFailures | src/storage/provider/s3.ts:141-153 | any other failure, of the send or of signing, becomes an UploadError with the original message (or the fixed fallback); uploadFile only throws StorageErrors |
| S3.UploadSignsOnlyAfterPut | src/storage/provider/s3.ts:113-138 | when no put is made or the put fails, the outcome does not depend on the signer |
| S3.DeleteFileOutcome | src/storage/provider/s3.ts:159-187 | deleteFile succeeds exactly when region and bucket are set and the put is accepted; whatever it throws is of class StorageError itself |
| S3.DeleteKeepsTheKey | src/storage/provider/s3.ts:159-178 | a successful delete leaves the key in the store with an empty body, and every other object is untouched |
| S3.DeleteFileFailures | src/storage/provider/s3.ts:179-186 | every deleteFile failure, configuration errors included, is a plain StorageError with the region, bucket or send message |
| S3.PresignedUploadOutcome | src/storage/provider/s3.ts:192-223 | whatever getPresignedUploadUrl throws is of class StorageError itself; it succeeds only with region and bucket set, returning the derived key |
| S3.PresignedUploadSucceeds | src/storage/provider/s3.ts:192-214 | a pre-signed upload URL is the signature of a PUT of the derived key with the content type, for the given expiry or 3600 s |
| S3.PresignedUploadFailures | src/storage/provider/s3.ts:215-222 | every getPresignedUploadUrl failure, configuration errors included, is a plain StorageError: the region or bucket message, or else the signer's own message (or the fixed fallback for a non-Error) |
| S3.UploadAndPresignAgreeOnKeys | src/storage/provider/s3.ts:204-205 | both operations derive the same key from the same folder, filename and UUID |
| S3.S3Provider.constructor | src/storage/provider/s3.ts:35-37 | a new provider holds its configuration and no client |
| S3.S3Provider.GetProviderName | src/storage/provider/s3.ts:42-44 | the name is "S3" |
| S3.S3Provider.GetS3Client | src/storage/provider/s3.ts:49-77 | a memoised client is returned as it is; otherwise a missing region throws and leaves the slot empty, or one fresh client is built from `ClientOptionsFor(config)` and kept; at most one client is ever built |
| S3.S3Provider.UploadFile | src/storage/provider/s3.ts:91-154 | the result is `UploadFileOutcome`; the store and its put log receive exactly `UploadPut` unless the send fails; afterwards the client slot is filled exactly when a region is configured, by the kept client or a fresh one |
| S3.S3Provider.DeleteFile | src/storage/provider/s3.ts:159-187 | the result is `DeleteFileOutcome`; the store and its put log receive exactly `DeletePut` unless the send fails; afterwards the client slot is filled exactly when a region is configured, by the kept client or a fresh one |
| S3.S3Provider.GetPresignedUploadUrl | src/storage/provider/s3.ts:192-223 | the result is `PresignedUploadOutcome` and the store is not touched; afterwards the client slot is filled exactly when a region is configured, by the kept client or a fresh one |
| Storage.UnsupportedProvider | src/storage/index.ts:49-51 | the error for another selector is a plain Error, not a StorageError, with message "Unsupported storage provider: " + selector |
| Storage.ShippedConfigurationReachesProvider | src/storage/index.ts:44-55 | under the configuration loaded from any environment the unsupported-provider branch is unreachable: uploadFile, deleteFile and getPresignedUploadUrl answer, and put, exactly what the provider's operations do |
| Storage.ShippedModuleProvides | src/storage/index.ts:33-55 | a storage module on the loaded configuration hands out a provider on that configuration at the first request, never the unsupported-provider error |
| Storage.StorageModule.constructor | src/storage/index.ts:21-26 | the module starts with the loaded configuration and an empty provider slot |
| Storage.StorageModule.InitializeStorageProvider | src/storage/index.ts:44-55 | a filled slot is returned unchanged; otherwise 's3' fills it with a fresh provider on the module's configuration, and any other selector throws and leaves it empty |
| Storage.StorageModule.GetStorageProvider | src/storage/index.ts:33-38 | the provider in the slot, or the result of initialisation |
| Storage.StorageModule.UploadFile | src/storage/index.ts:66-74 | the arguments reach the provider unchanged: the outcome, the store and the put log are those of the provider's uploadFile, or the unsupported-provider error with no change; afterwards the provider slot is filled exactly for 's3', with a fresh provider on first use, and its client slot exactly when a region is configured; a provider already held is kept, and so is the client it already holds |
| Storage.StorageModule.DeleteFile | src/storage/index.ts:82-85 | the key reaches the provider unchanged: the outcome, the store and the put log are those of the provider's deleteFile, or the unsupported-provider error with no change; the slots afterwards as for uploadFile |
| Storage.StorageModule.GetPresignedUploadUrl | src/storage/index.ts:96-109 | the arguments reach the provider, with the expiry defaulting to 3600 here; the slots afterwards as for uploadFile |
| Storage.GetStorageProviderTwice | src/storage/index.ts:33-38 | two calls in a row return the identical instance; the first fails only when the slot was empty and the selector is not 's3' |
| Http.FailureResponse | src/app/api/storage/upload/route.ts:45-56 | the catch blocks answer 500 with `{ error }`: a StorageError's own message, anything else the route's generic message |
| UploadRoute.CheckUpload | src/app/api/storage/upload/route.ts:5-41 | an unreadable form gives 500, a missing file 400, a file over 10 MiB 400, and a type outside jpeg/png/webp 400, in that order; storage is called exactly when all checks pass, with the file's bytes, name and type, and an empty folder dropped |
| Http.RespondWith | src/app/api/storage/upload/route.ts:44-56 | a delegating route answers 200 with exactly `{ url, key }` of the result, or fails through the shared 500 mapping with its own generic message |
| UploadRoute.UploadRouteBounds | src/app/api/storage/upload/route.ts:16-30 | exactly 10 MiB is accepted, one byte more is refused, and GIF is refused |
| UploadRoute.UploadRouteKey | src/app/api/storage/upload/route.ts:36-41 | a stored upload's key is `folder/uuid.ext`, or `uuid.ext` when the folder is absent or empty |
| UploadRoute.PhotoUploadScenario | src/app/api/storage/upload/route.ts:5-44 | a 2 KB `photo.png` for folder `avatars` passes the checks, and once stored its key is `avatars/<uuid>.png` |
| UploadRoute.Post | src/app/api/storage/upload/route.ts:5-57 | a refused request answers directly and leaves the store, its put log and both slots unchanged; otherwise the answer, the store and the put log are those of the module's uploadFile, and the slots are filled as after any storage call, keeping a provider and client already held, with a fresh provider on first use |
| PresignedUrlRoute.CheckPresign | src/app/api/storage/presigned-url/route.ts:6-43 | an unreadable body gives 500, a missing filename 400, a missing content type 400, and a type outside jpeg/png/gif/webp 400; the module is called exactly when all pass, with an already renamed filename and an empty folder dropped |
| PresignedUrlRoute.PresignedKeyAfterDoubleRenaming | src/app/api/storage/presigned-url/route.ts:35-43 | after both renamings a non-empty extension survives into the key on the provider's UUID; an extension-less name gets the route's UUID as extension |
| PresignedUrlRoute.Post | src/app/api/storage/presigned-url/route.ts:6-58 | a refused request answers directly and leaves both slots unchanged; otherwise the answer is the module's pre-signed result with the default expiry, and the slots are filled as after any storage call, keeping a provider and client already held, with a fresh provider on first use |
| FileUrlRoute.Post | src/app/api/storage/file-url/route.ts:6-79 | an unreadable body gives 500, a missing key 400, and a missing bucket or region 500; otherwise the URL is the one the provider's uploadFile would return for the same key under the configuration loaded from the same environment |
| BrowserUpload.UploadFileFromBrowser | src/storage/index.ts:119-199 | under 10 MiB exactly one request to the upload route, otherwise at most the three requests in order; every request but the last succeeded; the last step's failure is re-thrown as a plain Error with its message, and its success is the result |
| BrowserUpload.ProxyUploadRequest | src/storage/index.ts:126-133 | a small file is POSTed to the upload route as a form holding the file and the folder, or '' when the folder is absent or empty, with no explicit Content-Type |
| BrowserUpload.PresignedUrlRequest | src/storage/index.ts:145-155 | a JSON POST to the pre-signed-URL route with exactly the fields `filename` (the file's name), `contentType` (its type) and `folder` (or '') |
| BrowserUpload.DirectPutRequest | src/storage/index.ts:165-171 | the file's bytes are PUT to the returned `url` ("undefined" when it is missing) with the file's type as Content-Type |
| BrowserUpload.FileUrlRequest | src/storage/index.ts:178-184 | a JSON POST to the file-URL route whose only field is the returned `key`, left out when the answer had none |
| BrowserUpload.ReadJson | src/storage/index.ts:135-140 | a JSON step succeeds exactly on an ok response whose body parses, with that body; a parsed error body gives a plain Error with its `message` or the fallback; a rejected fetch or a parse error passes through |
| BrowserUpload.CheckPut | src/storage/index.ts:165-175 | the direct PUT succeeds exactly on an ok response, whatever its body, and otherwise fails with the fixed message or the fetch rejection |
| BrowserUpload.ErrorBodyMessage | src/storage/index.ts:136-137 | the body's non-empty `message`, else the fallback, so never empty when the fallback is not |
| BrowserUpload.Rethrown | src/storage/index.ts:192-197 | the caller always gets a plain Error, never a StorageError, carrying the caught Error's message or the fixed fallback; re-throwing it again changes nothing |
| BrowserUpload.RouteErrorsSurfaceAsFallback | src/storage/index.ts:135-138 | a route's `{ error }` answer surfaces to the caller as the step's fallback message |

## Left out

- Reading the upload payload: a `Blob` is converted to a `Buffer` before the put (`src/storage/provider/s3.ts:104-110`), and the route calls `arrayBuffer()`. The model's payload is already the byte sequence.
- Asynchrony: every `await` is modelled as an ordinary call. Two first calls that overlap on the lazily filled provider slot are not modelled.
- Logging (`console.log` / `console.error`) has no effect on results and is left out.
- AWS Signature Version 4 and the client's wire protocol: signing is an input function, and a store `send` either succeeds or throws a given error.
- `randomUUID()`: the UUID is an input, so the model does not capture that UUIDs are fresh. `DistinctUuidsGiveDistinctKeys` states what distinct UUIDs give.
- The `StorageProvider` interface (`src/storage/types.ts:70-92`) has one implementation, so `S3Provider` carries its four operations directly. The storage module's slot is typed by that class.
- JSON bodies are objects with string fields. A field of another type in a request or response body is not modelled, and neither is a non-string form field.
- The upload route's `config.api.bodyParser.sizeLimit` is a framework setting and is not modelled.
- `BrowserUpload.UploadFileFromBrowser`: a missing `url` in the pre-signed answer is modelled as a PUT to the target "undefined". The request then goes wherever the browser resolves that relative URL.
- `S3Sdk.ObjectStore.Send`: a failing send is modelled as writing nothing. A partial write on the remote side is not modelled.
- The defaulted constructor argument `config = storageConfig` of `S3Provider` is modelled as an explicit argument. `StorageModule` passes its own configuration.
