/**
 * The S3 provider (src/storage/provider/s3.ts): a configuration, a memoised
 * client slot, and the operations uploadFile, deleteFile and
 * getPresignedUploadUrl.
 *
 * Each operation is given as a function that says what the call produces (the
 * `...Outcome` functions, one try block followed by its catch block) and which
 * put it hands to the store (the `...Put` functions), and as a method of
 * `S3Provider` proved to match them while it updates the client slot and the
 * store. The UUID, the store's failures and the signer are inputs.
 */
module S3 {
  import opened StorageTypes
  import opened S3Sdk
  import opened S3Naming

  const REGION_NOT_CONFIGURED := "Storage region is not configured"
  const BUCKET_NOT_CONFIGURED := "Storage bucket name is not configured"
  const UNKNOWN_UPLOAD_ERROR := "Unknown error occurred during file upload"
  const UNKNOWN_DELETE_ERROR := "Unknown error occurred during file deletion"
  const UNKNOWN_PRESIGN_ERROR := "Unknown error occurred while generating presigned URL"

  /** Seven days, the lifetime of a signed retrieval URL. */
  const RETRIEVAL_URL_EXPIRY := 3600 * 24 * 7
  /** One hour, the default lifetime of a signed upload URL. */
  const DEFAULT_UPLOAD_URL_EXPIRY := 3600

  /** The client options `getS3Client` builds from a configuration, or the
      ConfigurationError it throws when the region is missing. */
  function ClientOptionsFor(config: StorageConfig): (r: Completion<ClientOptions>)
    ensures r.Threw? <==> config.region == ""
    ensures r.Threw? ==> r.error == NewConfigurationError(REGION_NOT_CONFIGURED)
    ensures r.Returned? ==>
      && r.value.region == config.region
      && r.value.accessKeyId == config.accessKeyId
      && r.value.secretAccessKey == config.secretAccessKey
    // with a custom endpoint, path-style addressing is on unless explicitly false;
    // without one, neither option is set
    ensures r.Returned? && IsSet(config.endpoint) ==>
      r.value.endpoint == config.endpoint && r.value.forcePathStyle == Some(config.forcePathStyle != Some(false))
    ensures r.Returned? && !IsSet(config.endpoint) ==>
      r.value.endpoint.None? && r.value.forcePathStyle.None?
  {
    if config.region == "" then Threw(NewConfigurationError(REGION_NOT_CONFIGURED))
    else if IsSet(config.endpoint) then
      Returned(ClientOptions(config.region, config.accessKeyId, config.secretAccessKey,
                             config.endpoint, Some(config.forcePathStyle != Some(false))))
    else
      Returned(ClientOptions(config.region, config.accessKeyId, config.secretAccessKey, None, None))
  }

  /** The key both uploadFile and getPresignedUploadUrl derive. */
  function KeyFor(folder: Option<string>, filename: string, uuid: string): string {
    ObjectKey(folder, UniqueFilename(filename, uuid))
  }

  /** The URL uploadFile returns for a stored key: the public-URL join when a
      public URL is configured, otherwise a seven-day signed GET. */
  function ObjectUrl(config: StorageConfig, client: ClientOptions, key: string, signer: Signer): (url: Completion<string>)
    // a public URL cannot fail, and names the key after one slash
    ensures IsSet(config.publicUrl) ==>
      url.Returned? && |url.value| > |key| && url.value[|url.value| - |key| - 1..] == "/" + key
    // otherwise the URL is the signer's for a seven-day GET of exactly this bucket and key
    ensures !IsSet(config.publicUrl) ==>
      url == signer(SignRequest(client, GetObject(config.bucketName, key), 604800))
  {
    if IsSet(config.publicUrl) then Returned(PublicObjectUrl(config.publicUrl.value, key))
    else signer(SignRequest(client, GetObject(config.bucketName, key), RETRIEVAL_URL_EXPIRY))
  }

  // ---------------------------------------------------------------- uploadFile

  /** The put uploadFile hands to the store, if it gets that far. */
  function UploadPut(config: StorageConfig, params: UploadFileParams, uuid: string): Option<PutObjectCommand> {
    if config.region == "" || config.bucketName == "" then None
    else Some(PutObjectCommand(config.bucketName, KeyFor(params.folder, params.filename, uuid),
                               params.file, Some(params.contentType)))
  }

  /** The try block of uploadFile: region check (inside getS3Client), bucket
      check, put, then URL resolution. */
  function UploadFileAttempt(config: StorageConfig, params: UploadFileParams, uuid: string,
                             sendFault: Option<Thrown>, signer: Signer): Completion<UploadFileResult>
  {
    match ClientOptionsFor(config)
    case Threw(e) => Threw(e)
    case Returned(client) =>
      if config.bucketName == "" then Threw(NewConfigurationError(BUCKET_NOT_CONFIGURED))
      else
        var key := KeyFor(params.folder, params.filename, uuid);
        if sendFault.Some? then Threw(sendFault.value)
        else
          match ObjectUrl(config, client, key, signer)
          case Threw(e) => Threw(e)
          case Returned(url) => Returned(UploadFileResult(url, key))
  }

  /** The catch block of uploadFile: a ConfigurationError is re-thrown as it is;
      anything else becomes an UploadError with the same message. */
  function UploadFailure(e: Thrown): (f: Thrown)
    ensures IsStorageError(f)
    ensures IsConfigurationError(e) ==> f == e
    ensures !IsConfigurationError(e) ==> IsUploadError(f) && f.message == MessageOr(e, UNKNOWN_UPLOAD_ERROR)
  {
    if IsConfigurationError(e) then e else NewUploadError(MessageOr(e, UNKNOWN_UPLOAD_ERROR))
  }

  /** `uploadFile`: the try block, then its catch block. It only ever throws
      StorageErrors, and it succeeds only with both settings present and the put
      accepted, returning the derived key. */
  function UploadFileOutcome(config: StorageConfig, params: UploadFileParams, uuid: string,
                             sendFault: Option<Thrown>, signer: Signer): (r: Completion<UploadFileResult>)
    ensures r.Threw? ==> IsStorageError(r.error)
    ensures r.Returned? ==>
      config.region != "" && config.bucketName != "" && sendFault.None?
      && r.value.key == KeyFor(params.folder, params.filename, uuid)
  {
    match UploadFileAttempt(config, params, uuid, sendFault, signer)
    case Returned(r) => Returned(r)
    case Threw(e) => Threw(UploadFailure(e))
  }

  /** A successful upload stored the bytes under the derived key with the given
      content type, and returns that key with the public-URL join or the signed
      seven-day GET of the same key. */
  lemma UploadFileSucceeds(config: StorageConfig, params: UploadFileParams, uuid: string,
                           sendFault: Option<Thrown>, signer: Signer)
    requires UploadFileOutcome(config, params, uuid, sendFault, signer).Returned?
    ensures var r := UploadFileOutcome(config, params, uuid, sendFault, signer).value;
      && r.key == KeyFor(params.folder, params.filename, uuid)
      && sendFault.None?
      && UploadPut(config, params, uuid) == Some(PutObjectCommand(config.bucketName, r.key, params.file, Some(params.contentType)))
      && (IsSet(config.publicUrl) ==> r.url == PublicObjectUrl(config.publicUrl.value, r.key))
      && (!IsSet(config.publicUrl) ==>
            signer(SignRequest(ClientOptionsFor(config).value, GetObject(config.bucketName, r.key), 604800)) == Returned(r.url))
  {
  }

  /** A missing region or bucket raises a ConfigurationError, propagated
      unchanged, and nothing is put. */
  lemma UploadFileConfigurationErrors(config: StorageConfig, params: UploadFileParams, uuid: string,
                                      sendFault: Option<Thrown>, signer: Signer)
    requires config.region == "" || config.bucketName == ""
    ensures UploadPut(config, params, uuid).None?
    ensures UploadFileOutcome(config, params, uuid, sendFault, signer) ==
      Threw(NewConfigurationError(if config.region == "" then REGION_NOT_CONFIGURED else BUCKET_NOT_CONFIGURED))
  {
  }

  /** Every other failure, of the store or of the signer, becomes an UploadError
      carrying the original message; so uploadFile only ever throws StorageErrors. */
  lemma UploadFileFailures(config: StorageConfig, params: UploadFileParams, uuid: string,
                           sendFault: Option<Thrown>, signer: Signer)
    requires config.region != "" && config.bucketName != ""
    requires UploadFileOutcome(config, params, uuid, sendFault, signer).Threw?
    ensures var e := UploadFileOutcome(config, params, uuid, sendFault, signer).error;
      var cause := if sendFault.Some? then sendFault.value
                   else signer(SignRequest(ClientOptionsFor(config).value,
                                           GetObject(config.bucketName, KeyFor(params.folder, params.filename, uuid)),
                                           RETRIEVAL_URL_EXPIRY)).error;
      && IsStorageError(e)
      && (!IsConfigurationError(cause) ==> e == NewUploadError(MessageOr(cause, UNKNOWN_UPLOAD_ERROR)))
      && (IsConfigurationError(cause) ==> e == cause)
      && (sendFault.None? ==> !IsSet(config.publicUrl))
  {
  }

  /** Nothing is signed before the object is stored: when the put is not made or
      fails, the outcome does not depend on the signer. */
  lemma UploadSignsOnlyAfterPut(config: StorageConfig, params: UploadFileParams, uuid: string,
                                sendFault: Option<Thrown>, signer1: Signer, signer2: Signer)
    requires UploadPut(config, params, uuid).None? || sendFault.Some?
    ensures UploadFileOutcome(config, params, uuid, sendFault, signer1) ==
            UploadFileOutcome(config, params, uuid, sendFault, signer2)
  {
  }

  // ---------------------------------------------------------------- deleteFile

  /** The put deleteFile hands to the store: an empty body at exactly the given key. */
  function DeletePut(config: StorageConfig, key: string): Option<PutObjectCommand> {
    if config.region == "" || config.bucketName == "" then None
    else Some(PutObjectCommand(config.bucketName, key, [], None))
  }

  /** deleteFile: every failure, ConfigurationError included, becomes a plain
      StorageError with the same message. */
  function DeleteFileOutcome(config: StorageConfig, key: string, sendFault: Option<Thrown>): (r: Completion<()>)
    ensures r.Returned? <==> config.region != "" && config.bucketName != "" && sendFault.None?
    ensures r.Threw? ==> r.error.ErrorInstance? && r.error.cls == StorageErrorClass
  {
    var attempt :=
      match ClientOptionsFor(config)
      case Threw(e) => Threw(e)
      case Returned(_) =>
        if config.bucketName == "" then Threw(NewConfigurationError(BUCKET_NOT_CONFIGURED))
        else if sendFault.Some? then Threw(sendFault.value)
        else Returned(());
    match attempt
    case Returned(u) => Returned(u)
    case Threw(e) => Threw(NewStorageError(MessageOr(e, UNKNOWN_DELETE_ERROR)))
  }

  /** "Deleting" overwrites the object with an empty body: afterwards the key is
      still in the store, holding no bytes, and no other object is touched. */
  lemma DeleteKeepsTheKey(config: StorageConfig, key: string, sendFault: Option<Thrown>,
                          objects: map<ObjectId, StoredObject>)
    requires DeleteFileOutcome(config, key, sendFault).Returned?
    ensures var after := ObjectsAfter(objects, DeletePut(config, key), sendFault);
      && ObjectId(config.bucketName, key) in after
      && after[ObjectId(config.bucketName, key)] == StoredObject([], None)
      && objects.Keys <= after.Keys
      && forall id :: id in objects && id != ObjectId(config.bucketName, key) ==> after[id] == objects[id]
  {
  }

  /** deleteFile never throws a ConfigurationError or an UploadError: whatever
      went wrong surfaces as a StorageError named StorageError with the message. */
  lemma DeleteFileFailures(config: StorageConfig, key: string, sendFault: Option<Thrown>)
    requires DeleteFileOutcome(config, key, sendFault).Threw?
    ensures var e := DeleteFileOutcome(config, key, sendFault).error;
      && IsStorageError(e) && !IsConfigurationError(e) && Name(e) == "StorageError"
      && (config.region == "" ==> e.message == REGION_NOT_CONFIGURED)
      && (config.region != "" && config.bucketName == "" ==> e.message == BUCKET_NOT_CONFIGURED)
      && (config.region != "" && config.bucketName != "" ==>
            sendFault.Some? && e.message == MessageOr(sendFault.value, UNKNOWN_DELETE_ERROR))
  {
  }

  // ---------------------------------------------------------------- getPresignedUploadUrl

  /** getPresignedUploadUrl: a signed PUT of the derived key with the content
      type, for `expiresIn` seconds (one hour by default); every failure becomes
      a plain StorageError with the same message. Nothing is stored. */
  function PresignedUploadOutcome(config: StorageConfig, params: PresignedUploadUrlParams, uuid: string,
                                  signer: Signer): (r: Completion<UploadFileResult>)
    ensures r.Threw? ==> r.error.ErrorInstance? && r.error.cls == StorageErrorClass
    ensures r.Returned? ==>
      config.region != "" && config.bucketName != "" && r.value.key == KeyFor(params.folder, params.filename, uuid)
  {
    var attempt :=
      match ClientOptionsFor(config)
      case Threw(e) => Threw(e)
      case Returned(client) =>
        if config.bucketName == "" then Threw(NewConfigurationError(BUCKET_NOT_CONFIGURED))
        else
          var key := KeyFor(params.folder, params.filename, uuid);
          var command := PutObject(config.bucketName, key, Some(params.contentType));
          match signer(SignRequest(client, command, params.expiresIn.GetOr(DEFAULT_UPLOAD_URL_EXPIRY)))
          case Threw(e) => Threw(e)
          case Returned(url) => Returned(UploadFileResult(url, key));
    match attempt
    case Returned(r) => Returned(r)
    case Threw(e) => Threw(NewStorageError(MessageOr(e, UNKNOWN_PRESIGN_ERROR)))
  }

  /** A pre-signed upload URL is the signer's URL for a PUT of the derived key,
      with the caller's expiry or 3600 seconds. */
  lemma PresignedUploadSucceeds(config: StorageConfig, params: PresignedUploadUrlParams, uuid: string, signer: Signer)
    requires PresignedUploadOutcome(config, params, uuid, signer).Returned?
    ensures var r := PresignedUploadOutcome(config, params, uuid, signer).value;
      && config.region != "" && config.bucketName != ""
      && r.key == KeyFor(params.folder, params.filename, uuid)
      && signer(SignRequest(ClientOptionsFor(config).value,
                            PutObject(config.bucketName, r.key, Some(params.contentType)),
                            if params.expiresIn.Some? then params.expiresIn.value else 3600)) == Returned(r.url)
  {
  }

  /** getPresignedUploadUrl wraps every failure, a ConfigurationError included,
      as a plain StorageError carrying the original message. */
  lemma PresignedUploadFailures(config: StorageConfig, params: PresignedUploadUrlParams, uuid: string, signer: Signer)
    requires PresignedUploadOutcome(config, params, uuid, signer).Threw?
    ensures var e := PresignedUploadOutcome(config, params, uuid, signer).error;
      && IsStorageError(e) && !IsConfigurationError(e) && Name(e) == "StorageError"
      && (config.region == "" ==> e.message == REGION_NOT_CONFIGURED)
      && (config.region != "" && config.bucketName == "" ==> e.message == BUCKET_NOT_CONFIGURED)
      && (config.region != "" && config.bucketName != "" ==>
            var signed := signer(SignRequest(ClientOptionsFor(config).value,
                                             PutObject(config.bucketName, KeyFor(params.folder, params.filename, uuid),
                                                       Some(params.contentType)),
                                             params.expiresIn.GetOr(DEFAULT_UPLOAD_URL_EXPIRY)));
            signed.Threw? && e.message == MessageOr(signed.error, UNKNOWN_PRESIGN_ERROR))
  {
  }

  /** uploadFile and getPresignedUploadUrl derive the same key from the same
      folder, filename and UUID. */
  lemma UploadAndPresignAgreeOnKeys(config: StorageConfig, file: Bytes, filename: string, contentType: string,
                                    folder: Option<string>, expiresIn: Option<int>, uuid: string,
                                    sendFault: Option<Thrown>, signer: Signer)
    requires UploadFileOutcome(config, UploadFileParams(file, filename, contentType, folder), uuid, sendFault, signer).Returned?
    requires PresignedUploadOutcome(config, PresignedUploadUrlParams(filename, contentType, folder, expiresIn), uuid, signer).Returned?
    ensures UploadFileOutcome(config, UploadFileParams(file, filename, contentType, folder), uuid, sendFault, signer).value.key
         == PresignedUploadOutcome(config, PresignedUploadUrlParams(filename, contentType, folder, expiresIn), uuid, signer).value.key
  {
  }

  // ---------------------------------------------------------------- the provider object

  class S3Provider {
    const config: StorageConfig
    /** The memoised client: null until the first successful construction. */
    var s3Client: S3Client?
    /** How many clients this provider has constructed. */
    ghost var clientConstructions: nat

    /** The client is built at most once, and only from this provider's
        configuration. */
    ghost predicate Valid()
      reads this
    {
      && clientConstructions <= 1
      && (s3Client == null <==> clientConstructions == 0)
      && (s3Client != null ==> ClientOptionsFor(config) == Returned(s3Client.options))
    }

    constructor (config: StorageConfig)
      ensures Valid()
      ensures this.config == config && s3Client == null
    {
      this.config := config;
      s3Client := null;
      clientConstructions := 0;
    }

    /** `getProviderName` */
    function GetProviderName(): (name: string)
      ensures name == "S3"
    {
      "S3"
    }

    /** `getS3Client`: returns the memoised client without looking at the
        configuration again; otherwise checks the region and builds the client
        from the configuration. A failed construction leaves the slot empty. */
    method GetS3Client() returns (r: Completion<S3Client>)
      requires Valid()
      modifies this
      ensures Valid()
      ensures old(s3Client) != null ==>
        r == Returned(old(s3Client)) && s3Client == old(s3Client) && clientConstructions == old(clientConstructions)
      ensures old(s3Client) == null && config.region == "" ==>
        r == Threw(NewConfigurationError(REGION_NOT_CONFIGURED)) && s3Client == null && clientConstructions == 0
      ensures old(s3Client) == null && config.region != "" ==>
        r.Returned? && fresh(r.value) && s3Client == r.value && clientConstructions == 1
      ensures r.Returned? ==> ClientOptionsFor(config) == Returned(r.value.options)
    {
      if s3Client != null {
        return Returned(s3Client);
      }
      if config.region == "" {
        return Threw(NewConfigurationError(REGION_NOT_CONFIGURED));
      }
      var options := ClientOptions(config.region, config.accessKeyId, config.secretAccessKey, None, None);
      if IsSet(config.endpoint) {
        options := options.(endpoint := config.endpoint, forcePathStyle := Some(config.forcePathStyle != Some(false)));
      }
      var client := new S3Client(options);
      s3Client := client;
      clientConstructions := clientConstructions + 1;
      r := Returned(client);
    }

    /** `uploadFile` */
    method UploadFile(params: UploadFileParams, uuid: string, store: ObjectStore,
                      sendFault: Option<Thrown>, signer: Signer) returns (r: Completion<UploadFileResult>)
      requires Valid()
      modifies this, store
      ensures Valid()
      ensures r == UploadFileOutcome(config, params, uuid, sendFault, signer)
      ensures store.objects == ObjectsAfter(old(store.objects), UploadPut(config, params, uuid), sendFault)
      ensures store.puts == PutsAfter(old(store.puts), UploadPut(config, params, uuid), sendFault)
      ensures old(s3Client) != null ==> s3Client == old(s3Client)
      ensures s3Client != null <==> config.region != ""
      ensures old(s3Client) == null && s3Client != null ==> fresh(s3Client)
    {
      var attempt: Completion<UploadFileResult>;
      var s3 := GetS3Client();
      if s3.Threw? {
        attempt := Threw(s3.error);
      } else if config.bucketName == "" {
        attempt := Threw(NewConfigurationError(BUCKET_NOT_CONFIGURED));
      } else {
        var uniqueFilename := UniqueFilename(params.filename, uuid);
        var key := ObjectKey(params.folder, uniqueFilename);
        var sent := store.Send(s3.value, PutObjectCommand(config.bucketName, key, params.file, Some(params.contentType)), sendFault);
        if sent.Threw? {
          attempt := Threw(sent.error);
        } else {
          var url: Completion<string>;
          if IsSet(config.publicUrl) {
            url := Returned(PublicObjectUrl(config.publicUrl.value, key));
          } else {
            url := signer(SignRequest(s3.value.options, GetObject(config.bucketName, key), RETRIEVAL_URL_EXPIRY));
          }
          attempt := if url.Threw? then Threw(url.error) else Returned(UploadFileResult(url.value, key));
        }
      }
      r := if attempt.Threw? then Threw(UploadFailure(attempt.error)) else attempt;
    }

    /** `deleteFile` */
    method DeleteFile(key: string, store: ObjectStore, sendFault: Option<Thrown>) returns (r: Completion<()>)
      requires Valid()
      modifies this, store
      ensures Valid()
      ensures r == DeleteFileOutcome(config, key, sendFault)
      ensures store.objects == ObjectsAfter(old(store.objects), DeletePut(config, key), sendFault)
      ensures store.puts == PutsAfter(old(store.puts), DeletePut(config, key), sendFault)
      ensures old(s3Client) != null ==> s3Client == old(s3Client)
      ensures s3Client != null <==> config.region != ""
      ensures old(s3Client) == null && s3Client != null ==> fresh(s3Client)
    {
      var attempt: Completion<()>;
      var s3 := GetS3Client();
      if s3.Threw? {
        attempt := Threw(s3.error);
      } else if config.bucketName == "" {
        attempt := Threw(NewConfigurationError(BUCKET_NOT_CONFIGURED));
      } else {
        attempt := store.Send(s3.value, PutObjectCommand(config.bucketName, key, [], None), sendFault);
      }
      r := if attempt.Threw? then Threw(NewStorageError(MessageOr(attempt.error, UNKNOWN_DELETE_ERROR))) else attempt;
    }

    /** `getPresignedUploadUrl` */
    method GetPresignedUploadUrl(params: PresignedUploadUrlParams, uuid: string, signer: Signer)
      returns (r: Completion<UploadFileResult>)
      requires Valid()
      modifies this
      ensures Valid()
      ensures r == PresignedUploadOutcome(config, params, uuid, signer)
      ensures old(s3Client) != null ==> s3Client == old(s3Client)
      ensures s3Client != null <==> config.region != ""
      ensures old(s3Client) == null && s3Client != null ==> fresh(s3Client)
    {
      var attempt: Completion<UploadFileResult>;
      var expiresIn := if params.expiresIn.Some? then params.expiresIn.value else DEFAULT_UPLOAD_URL_EXPIRY;
      var s3 := GetS3Client();
      if s3.Threw? {
        attempt := Threw(s3.error);
      } else if config.bucketName == "" {
        attempt := Threw(NewConfigurationError(BUCKET_NOT_CONFIGURED));
      } else {
        var uniqueFilename := UniqueFilename(params.filename, uuid);
        var key := ObjectKey(params.folder, uniqueFilename);
        var url := signer(SignRequest(s3.value.options, PutObject(config.bucketName, key, Some(params.contentType)), expiresIn));
        attempt := if url.Threw? then Threw(url.error) else Returned(UploadFileResult(url.value, key));
      }
      r := if attempt.Threw? then Threw(NewStorageError(MessageOr(attempt.error, UNKNOWN_PRESIGN_ERROR))) else attempt;
    }
  }
}
