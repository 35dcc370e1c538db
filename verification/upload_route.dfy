/**
 * `POST /api/storage/upload` (src/app/api/storage/upload/route.ts): validates the
 * multipart form, then uploads through the storage module.
 *
 * `CheckUpload` is the validation chain up to the delegated call,
 * `Http.RespondWith` turns the call's outcome into the response, and `Post`
 * runs both around the storage module's `uploadFile`.
 */
module UploadRoute {
  import opened StorageTypes
  import opened S3Sdk
  import opened S3Naming
  import opened S3
  import opened Http
  import opened Storage

  /** 10 MiB: the largest accepted file. */
  const MAX_FILE_SIZE := 10 * 1024 * 1024
  const ALLOWED_TYPES := ["image/jpeg", "image/png", "image/webp"]

  const NO_FILE := "No file provided"
  const FILE_TOO_LARGE := "File size exceeds the 10MB limit"
  const UNSUPPORTED_TYPE := "File type not supported"
  const GENERIC_FAILURE := "Something went wrong while uploading the file"

  /** The parsed form: `file` and `folder` are null when the fields are absent. */
  datatype UploadForm = UploadForm(file: Option<File>, folder: Option<string>)

  /** `uploadFile(buffer, file.name, file.type, folder || undefined)` */
  datatype UploadCall = UploadCall(file: Bytes, filename: string, contentType: string, folder: Option<string>)

  /** The validation chain. `form` is None when `request.formData()` throws,
      which the catch block answers with the generic 500. */
  function CheckUpload(form: Option<UploadForm>): (step: RouteStep<UploadCall>)
    ensures form.None? ==> step == Respond(ErrorResponse(500, GENERIC_FAILURE))
    // a missing file is reported first, then the size, then the type
    ensures form.Some? && form.value.file.None? ==> step == Respond(ErrorResponse(400, NO_FILE))
    ensures form.Some? && form.value.file.Some? && form.value.file.value.Size() > MAX_FILE_SIZE ==>
      step == Respond(ErrorResponse(400, FILE_TOO_LARGE))
    ensures form.Some? && form.value.file.Some? && form.value.file.value.Size() <= MAX_FILE_SIZE
            && form.value.file.value.mimeType !in ALLOWED_TYPES ==>
      step == Respond(ErrorResponse(400, UNSUPPORTED_TYPE))
    // storage is reached only when all three checks pass
    ensures step.Delegate? <==>
      form.Some? && form.value.file.Some? && form.value.file.value.Size() <= MAX_FILE_SIZE
      && form.value.file.value.mimeType in ALLOWED_TYPES
    // with the file's bytes, name and type, and an empty folder dropped
    ensures step.Delegate? ==>
      var f := form.value.file.value;
      && step.call.file == f.content && step.call.filename == f.name && step.call.contentType == f.mimeType
      && (step.call.folder.Some? <==> IsSet(form.value.folder))
      && (step.call.folder.Some? ==> step.call.folder == form.value.folder)
  {
    if form.None? then Respond(ErrorResponse(500, GENERIC_FAILURE))
    else
      var file := form.value.file;
      if file.None? then Respond(ErrorResponse(400, NO_FILE))
      else if file.value.Size() > MAX_FILE_SIZE then Respond(ErrorResponse(400, FILE_TOO_LARGE))
      else if file.value.mimeType !in ALLOWED_TYPES then Respond(ErrorResponse(400, UNSUPPORTED_TYPE))
      else
        var folder := if IsSet(form.value.folder) then form.value.folder else None;
        Delegate(UploadCall(file.value.content, file.value.name, file.value.mimeType, folder))
  }


  /** Exactly 10 MiB is accepted; one byte more is not; GIF images are refused
      here although the pre-signed route accepts them. */
  lemma UploadRouteBounds(name: string, content: Bytes, folder: Option<string>)
    ensures |content| == MAX_FILE_SIZE ==>
      CheckUpload(Some(UploadForm(Some(File(name, "image/png", content)), folder))).Delegate?
    ensures |content| == MAX_FILE_SIZE + 1 ==>
      CheckUpload(Some(UploadForm(Some(File(name, "image/png", content)), folder))) == Respond(ErrorResponse(400, FILE_TOO_LARGE))
    ensures |content| <= MAX_FILE_SIZE ==>
      CheckUpload(Some(UploadForm(Some(File(name, "image/gif", content)), folder))) == Respond(ErrorResponse(400, UNSUPPORTED_TYPE))
  {
  }

  /** A delegated upload stores the file under `folder/uuid.ext`, or `uuid.ext`
      when the folder field is absent or empty: the folder never yields a bare
      leading slash. */
  lemma UploadRouteKey(form: UploadForm, config: StorageConfig, uuid: string, sendFault: Option<Thrown>, signer: Signer)
    requires CheckUpload(Some(form)).Delegate?
    requires var c := CheckUpload(Some(form)).call;
      UploadFileVia(config, UploadFileParams(c.file, c.filename, c.contentType, c.folder), uuid, sendFault, signer).Returned?
    ensures var c := CheckUpload(Some(form)).call;
      var r := UploadFileVia(config, UploadFileParams(c.file, c.filename, c.contentType, c.folder), uuid, sendFault, signer).value;
      && (IsSet(form.folder) ==> r.key == form.folder.value + "/" + UniqueFilename(form.file.value.name, uuid))
      && (!IsSet(form.folder) ==> r.key == UniqueFilename(form.file.value.name, uuid))
  {
    var c := CheckUpload(Some(form)).call;
    UploadFileSucceeds(config, UploadFileParams(c.file, c.filename, c.contentType, c.folder), uuid, sendFault, signer);
  }

  /** A 2 KB `photo.png` uploaded to folder `avatars` passes the checks and,
      once stored, has the key `avatars/<uuid>.png`. */
  lemma PhotoUploadScenario(content: Bytes, config: StorageConfig, uuid: string, sendFault: Option<Thrown>, signer: Signer)
    requires |content| == 2048
    requires UploadFileVia(config, UploadFileParams(content, "photo.png", "image/png", Some("avatars")), uuid, sendFault, signer).Returned?
    ensures CheckUpload(Some(UploadForm(Some(File("photo.png", "image/png", content)), Some("avatars"))))
         == Delegate(UploadCall(content, "photo.png", "image/png", Some("avatars")))
    ensures UploadFileVia(config, UploadFileParams(content, "photo.png", "image/png", Some("avatars")), uuid, sendFault, signer).value.key
         == "avatars/" + uuid + ".png"
  {
    var params := UploadFileParams(content, "photo.png", "image/png", Some("avatars"));
    assert UploadFileVia(config, params, uuid, sendFault, signer) == UploadFileOutcome(config, params, uuid, sendFault, signer);
    UploadFileSucceeds(config, params, uuid, sendFault, signer);
    PhotoKey(uuid);
    assert KeyFor(Some("avatars"), "photo.png", uuid) == "avatars/" + uuid + ".png";
  }


  /** `POST`: validation first; the storage module (and through it the store)
      is reached only when every check passes. */
  method Post(storage: StorageModule, form: Option<UploadForm>, uuid: string, store: ObjectStore,
              sendFault: Option<Thrown>, signer: Signer) returns (resp: HttpResponse)
    requires storage.Valid()
    modifies storage, storage.storageProvider, store
    ensures storage.Valid()
    // a refused request answers directly and touches neither the store nor the slots
    ensures CheckUpload(form).Respond? ==>
      && resp == CheckUpload(form).response && store.objects == old(store.objects) && store.puts == old(store.puts)
      && storage.storageProvider == old(storage.storageProvider)
      && (old(storage.storageProvider) != null ==> storage.storageProvider.s3Client == old(storage.storageProvider.s3Client))
    ensures CheckUpload(form).Delegate? ==>
      var c := CheckUpload(form).call;
      var params := UploadFileParams(c.file, c.filename, c.contentType, c.folder);
      && resp == RespondWith(UploadFileVia(storage.storageConfig, params, uuid, sendFault, signer), GENERIC_FAILURE)
      && store.objects == ObjectsAfter(old(store.objects), UploadPutVia(storage.storageConfig, params, uuid), sendFault)
      && store.puts == PutsAfter(old(store.puts), UploadPutVia(storage.storageConfig, params, uuid), sendFault)
      && storage.SlotsAfterFirstUse()
      && (old(storage.storageProvider) != null ==> storage.storageProvider == old(storage.storageProvider))
      && (old(storage.storageProvider) != null && old(storage.storageProvider.s3Client) != null ==>
            storage.storageProvider.s3Client == old(storage.storageProvider.s3Client))
      && (old(storage.storageProvider) == null && storage.storageProvider != null ==> fresh(storage.storageProvider))
  {
    var step := CheckUpload(form);
    if step.Respond? {
      return step.response;
    }
    var c := step.call;
    var outcome := storage.UploadFile(c.file, c.filename, c.contentType, c.folder, uuid, store, sendFault, signer);
    resp := RespondWith(outcome, GENERIC_FAILURE);
  }
}
