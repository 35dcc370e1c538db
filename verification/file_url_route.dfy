/**
 * `POST /api/storage/file-url` (src/app/api/storage/file-url/route.ts): resolves a
 * stored key to a URL, reading the environment directly rather than through the
 * storage configuration.
 */
module FileUrlRoute {
  import opened StorageTypes
  import opened S3Sdk
  import opened S3Naming
  import opened S3
  import opened StorageConfigLoader
  import opened Http

  const KEY_REQUIRED := "File key is required"
  const CONFIGURATION_INCOMPLETE := "Storage configuration is incomplete"
  const GENERIC_FAILURE := "Something went wrong while getting the file URL"

  /** The field read from the JSON body; None when absent. */
  datatype FileUrlBody = FileUrlBody(key: Option<string>)

  /** `POST`. `body` is None when `request.json()` throws. On success the URL is
      exactly the one the provider's uploadFile returns for the same key under
      the configuration loaded from the same environment: the same public-URL
      join, or a signature for the same client options, bucket, key and expiry. */
  method Post(body: Option<FileUrlBody>, env: Env, signer: Signer) returns (resp: HttpResponse)
    ensures body.None? ==> resp == ErrorResponse(500, GENERIC_FAILURE)
    ensures body.Some? && !IsSet(body.value.key) ==> resp == ErrorResponse(400, KEY_REQUIRED)
    ensures body.Some? && IsSet(body.value.key)
            && (!IsSet(EnvLookup(env, BUCKET_NAME_VAR)) || !IsSet(EnvLookup(env, REGION_VAR))) ==>
      resp == ErrorResponse(500, CONFIGURATION_INCOMPLETE)
    ensures body.Some? && IsSet(body.value.key)
            && IsSet(EnvLookup(env, BUCKET_NAME_VAR)) && IsSet(EnvLookup(env, REGION_VAR)) ==>
      var config := LoadStorageConfig(env);
      var key := body.value.key.value;
      && ClientOptionsFor(config).Returned?
      && resp == match ObjectUrl(config, ClientOptionsFor(config).value, key, signer)
                 case Returned(url) => HttpResponse(200, map["url" := url, "key" := key])
                 case Threw(e) => FailureResponse(e, GENERIC_FAILURE)
  {
    if body.None? {
      return ErrorResponse(500, GENERIC_FAILURE);
    }
    var key := body.value.key;
    if !IsSet(key) {
      return ErrorResponse(400, KEY_REQUIRED);
    }
    var bucket := EnvLookup(env, BUCKET_NAME_VAR);
    var region := EnvLookup(env, REGION_VAR);
    var endpoint := EnvLookup(env, ENDPOINT_VAR);
    var publicUrl := EnvLookup(env, PUBLIC_URL_VAR);
    if !IsSet(bucket) || !IsSet(region) {
      return ErrorResponse(500, CONFIGURATION_INCOMPLETE);
    }
    var url: Completion<string>;
    if IsSet(publicUrl) {
      url := Returned(StripTrailingSlash(publicUrl.value) + "/" + key.value);
    } else {
      var clientOptions := ClientOptions(region.value, EnvOrEmpty(env, ACCESS_KEY_ID_VAR),
                                         EnvOrEmpty(env, SECRET_ACCESS_KEY_VAR), None, None);
      if IsSet(endpoint) {
        clientOptions := clientOptions.(endpoint := endpoint);
        if EnvLookup(env, FORCE_PATH_STYLE_VAR) == Some("false") {
          clientOptions := clientOptions.(forcePathStyle := Some(false));
        } else {
          clientOptions := clientOptions.(forcePathStyle := Some(true));
        }
      }
      url := signer(SignRequest(clientOptions, GetObject(bucket.value, key.value), 3600 * 24 * 7));
    }
    match url
    case Returned(u) =>
      resp := HttpResponse(200, map["url" := u, "key" := key.value]);
    case Threw(e) =>
      resp := FailureResponse(e, GENERIC_FAILURE);
  }
}
