/**
 * Loading the storage configuration from the process environment
 * (src/storage/config/storage-config.ts). The environment is a map from
 * variable names to values; a name absent from the map is unset.
 */
module StorageConfigLoader {
  import opened StorageTypes

  type Env = map<string, string>

  const REGION_VAR := "STORAGE_REGION"
  const ENDPOINT_VAR := "STORAGE_ENDPOINT"
  const ACCESS_KEY_ID_VAR := "STORAGE_ACCESS_KEY_ID"
  const SECRET_ACCESS_KEY_VAR := "STORAGE_SECRET_ACCESS_KEY"
  const BUCKET_NAME_VAR := "STORAGE_BUCKET_NAME"
  const PUBLIC_URL_VAR := "STORAGE_PUBLIC_URL"
  const FORCE_PATH_STYLE_VAR := "STORAGE_FORCE_PATH_STYLE"

  /** `process.env[name]` */
  function EnvLookup(env: Env, name: string): Option<string> {
    if name in env then Some(env[name]) else None
  }

  /** `process.env[name] || ''` */
  function EnvOrEmpty(env: Env, name: string): string {
    var v := EnvLookup(env, name);
    if IsSet(v) then v.value else ""
  }

  /** The `storageConfig` object literal, evaluated against `env`. */
  function LoadStorageConfig(env: Env): (c: StorageConfig)
    // the four mandatory strings are '' when unset and the variable's value otherwise
    ensures c.region == (if REGION_VAR in env then env[REGION_VAR] else "")
    ensures c.accessKeyId == (if ACCESS_KEY_ID_VAR in env then env[ACCESS_KEY_ID_VAR] else "")
    ensures c.secretAccessKey == (if SECRET_ACCESS_KEY_VAR in env then env[SECRET_ACCESS_KEY_VAR] else "")
    ensures c.bucketName == (if BUCKET_NAME_VAR in env then env[BUCKET_NAME_VAR] else "")
    // the two optional strings are copied verbatim and undefined when unset
    ensures c.endpoint.Some? <==> ENDPOINT_VAR in env
    ensures c.endpoint.Some? ==> c.endpoint.value == env[ENDPOINT_VAR]
    ensures c.publicUrl.Some? <==> PUBLIC_URL_VAR in env
    ensures c.publicUrl.Some? ==> c.publicUrl.value == env[PUBLIC_URL_VAR]
    // path-style addressing is always defined, and off only for the exact value 'false'
    ensures c.forcePathStyle.Some?
    ensures !c.forcePathStyle.value <==> FORCE_PATH_STYLE_VAR in env && env[FORCE_PATH_STYLE_VAR] == "false"
    // the provider selector is fixed
    ensures c.provider == "s3"
  {
    StorageConfig(
      region := EnvOrEmpty(env, REGION_VAR),
      endpoint := EnvLookup(env, ENDPOINT_VAR),
      accessKeyId := EnvOrEmpty(env, ACCESS_KEY_ID_VAR),
      secretAccessKey := EnvOrEmpty(env, SECRET_ACCESS_KEY_VAR),
      bucketName := EnvOrEmpty(env, BUCKET_NAME_VAR),
      publicUrl := EnvLookup(env, PUBLIC_URL_VAR),
      forcePathStyle := Some(EnvLookup(env, FORCE_PATH_STYLE_VAR) != Some("false")),
      provider := "s3")
  }
}
