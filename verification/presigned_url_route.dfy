/**
 * `POST /api/storage/presigned-url` (src/app/api/storage/presigned-url/route.ts):
 * validates the JSON body, renames the file with a first UUID, and asks the
 * storage module for a pre-signed upload URL (which renames it again with a
 * second UUID).
 */
module PresignedUrlRoute {
  import opened StorageTypes
  import opened S3Sdk
  import opened S3Naming
  import opened S3
  import opened Http
  import opened Storage

  const ALLOWED_TYPES := ["image/jpeg", "image/png", "image/gif", "image/webp"]

  const FILENAME_REQUIRED := "Filename is required"
  const CONTENT_TYPE_REQUIRED := "Content type is required"
  const UNSUPPORTED_TYPE := "File type not supported"
  const GENERIC_FAILURE := "Something went wrong while generating pre-signed URL"

  /** The fields read from the JSON body; absent fields are None. */
  datatype PresignBody = PresignBody(filename: Option<string>, contentType: Option<string>, folder: Option<string>)

  /** `getPresignedUploadUrl(uniqueFilename, contentType, folder || undefined)` */
  datatype PresignCall = PresignCall(filename: string, contentType: string, folder: Option<string>)

  /** The validation chain and the pre-renaming with `uuid`. `body` is None when
      `request.json()` throws, which the catch block answers with the generic 500. */
  function CheckPresign(body: Option<PresignBody>, uuid: string): (step: RouteStep<PresignCall>)
    ensures body.None? ==> step == Respond(ErrorResponse(500, GENERIC_FAILURE))
    // the filename is checked before the content type, then the allowed types
    ensures body.Some? && !IsSet(body.value.filename) ==> step == Respond(ErrorResponse(400, FILENAME_REQUIRED))
    ensures body.Some? && IsSet(body.value.filename) && !IsSet(body.value.contentType) ==>
      step == Respond(ErrorResponse(400, CONTENT_TYPE_REQUIRED))
    ensures body.Some? && IsSet(body.value.filename) && IsSet(body.value.contentType)
            && body.value.contentType.value !in ALLOWED_TYPES ==>
      step == Respond(ErrorResponse(400, UNSUPPORTED_TYPE))
    ensures step.Delegate? <==>
      body.Some? && IsSet(body.value.filename) && IsSet(body.value.contentType)
      && body.value.contentType.value in ALLOWED_TYPES
    // the filename passed on is already a unique filename; an empty folder is dropped
    ensures step.Delegate? ==>
      && step.call.filename == UniqueFilename(body.value.filename.value, uuid)
      && step.call.contentType == body.value.contentType.value
      && (step.call.folder.Some? <==> IsSet(body.value.folder))
      && (step.call.folder.Some? ==> step.call.folder == body.value.folder)
  {
    if body.None? then Respond(ErrorResponse(500, GENERIC_FAILURE))
    else
      var b := body.value;
      if !IsSet(b.filename) then Respond(ErrorResponse(400, FILENAME_REQUIRED))
      else if !IsSet(b.contentType) then Respond(ErrorResponse(400, CONTENT_TYPE_REQUIRED))
      else if b.contentType.value !in ALLOWED_TYPES then Respond(ErrorResponse(400, UNSUPPORTED_TYPE))
      else
        var ext := Extension(b.filename.value);
        var uniqueFilename := uuid + (if ext != "" then "." + ext else "");
        Delegate(PresignCall(uniqueFilename, b.contentType.value, if IsSet(b.folder) then b.folder else None))
  }


  /** What the storage module returns for the delegated call. */
  function Delegated(config: StorageConfig, call: PresignCall, providerUuid: string, signer: Signer): Completion<UploadFileResult> {
    PresignedUploadVia(config, PresignedUploadUrlParams(call.filename, call.contentType, call.folder, Some(DEFAULT_UPLOAD_URL_EXPIRY)),
                       providerUuid, signer)
  }

  /** After the route's renaming and the provider's, a non-empty extension of the
      original filename survives into the final key, which is built on the
      provider's UUID; an extension-less name gets the route's (dot-free) UUID as
      its extension. */
  lemma PresignedKeyAfterDoubleRenaming(body: PresignBody, config: StorageConfig, routeUuid: string,
                                         providerUuid: string, signer: Signer)
    requires CheckPresign(Some(body), routeUuid).Delegate?
    requires Delegated(config, CheckPresign(Some(body), routeUuid).call, providerUuid, signer).Returned?
    ensures var key := Delegated(config, CheckPresign(Some(body), routeUuid).call, providerUuid, signer).value.key;
      var folder := if IsSet(body.folder) then body.folder else None;
      var ext := Extension(body.filename.value);
      && (ext != "" ==> key == ObjectKey(folder, providerUuid + "." + ext))
      && (ext == "" && routeUuid != "" && '.' !in routeUuid ==> key == ObjectKey(folder, providerUuid + "." + routeUuid))
  {
    var call := CheckPresign(Some(body), routeUuid).call;
    var f := body.filename.value;
    PresignedUploadSucceeds(config, PresignedUploadUrlParams(call.filename, call.contentType, call.folder, Some(DEFAULT_UPLOAD_URL_EXPIRY)),
                            providerUuid, signer);
    var renamed := UniqueFilename(f, routeUuid);
    assert call.filename == renamed;
    if Extension(f) != "" {
      assert Extension(renamed) == Extension(f);
      assert UniqueFilename(renamed, providerUuid) == providerUuid + "." + Extension(f);
    } else if routeUuid != "" && '.' !in routeUuid {
      DoubleRenamingOfExtensionlessName(f, routeUuid, providerUuid);
    }
  }

  /** `POST`: the storage module is reached only when every check passes, and
      with the pre-renamed filename and the default expiry. */
  method Post(storage: StorageModule, body: Option<PresignBody>, routeUuid: string, providerUuid: string, signer: Signer)
    returns (resp: HttpResponse)
    requires storage.Valid()
    modifies storage, storage.storageProvider
    ensures storage.Valid()
    // a refused request answers directly and leaves the slots as they were
    ensures CheckPresign(body, routeUuid).Respond? ==>
      && resp == CheckPresign(body, routeUuid).response
      && storage.storageProvider == old(storage.storageProvider)
      && (old(storage.storageProvider) != null ==> storage.storageProvider.s3Client == old(storage.storageProvider.s3Client))
    ensures CheckPresign(body, routeUuid).Delegate? ==>
      && resp == RespondWith(Delegated(storage.storageConfig, CheckPresign(body, routeUuid).call, providerUuid, signer), GENERIC_FAILURE)
      && storage.SlotsAfterFirstUse()
      && (old(storage.storageProvider) != null ==> storage.storageProvider == old(storage.storageProvider))
      && (old(storage.storageProvider) != null && old(storage.storageProvider.s3Client) != null ==>
            storage.storageProvider.s3Client == old(storage.storageProvider.s3Client))
      && (old(storage.storageProvider) == null && storage.storageProvider != null ==> fresh(storage.storageProvider))
  {
    var step := CheckPresign(body, routeUuid);
    if step.Respond? {
      return step.response;
    }
    var c := step.call;
    var outcome := storage.GetPresignedUploadUrl(c.filename, c.contentType, c.folder, None, providerUuid, signer);
    resp := RespondWith(outcome, GENERIC_FAILURE);
  }
}
