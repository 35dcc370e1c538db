/**
 * The storage module's entry points (src/storage/index.ts): the process-wide
 * provider slot, its lazy initialisation, and the three functions that forward
 * to the provider. The module-level variable `storageProvider` and the
 * configuration it is built from are the fields of `StorageModule`.
 */
module Storage {
  import opened StorageTypes
  import opened S3Sdk
  import opened S3
  import opened StorageConfigLoader

  /** The Error thrown for a provider selector other than 's3'. */
  function UnsupportedProvider(provider: string): (e: Thrown)
    ensures IsError(e) && !IsStorageError(e)
    ensures e.message == "Unsupported storage provider: " + provider
  {
    NewError("Unsupported storage provider: " + provider)
  }

  /** What `uploadFile(file, filename, contentType, folder)` produces, whether or
      not the provider slot was filled before the call. */
  function UploadFileVia(config: StorageConfig, params: UploadFileParams, uuid: string,
                         sendFault: Option<Thrown>, signer: Signer): Completion<UploadFileResult>
  {
    if config.provider == "s3" then UploadFileOutcome(config, params, uuid, sendFault, signer)
    else Threw(UnsupportedProvider(config.provider))
  }

  /** The put that call hands to the store, if any. */
  function UploadPutVia(config: StorageConfig, params: UploadFileParams, uuid: string): Option<PutObjectCommand> {
    if config.provider == "s3" then UploadPut(config, params, uuid) else None
  }

  /** What `deleteFile(key)` produces. */
  function DeleteFileVia(config: StorageConfig, key: string, sendFault: Option<Thrown>): Completion<()> {
    if config.provider == "s3" then DeleteFileOutcome(config, key, sendFault)
    else Threw(UnsupportedProvider(config.provider))
  }

  /** The put that call hands to the store, if any. */
  function DeletePutVia(config: StorageConfig, key: string): Option<PutObjectCommand> {
    if config.provider == "s3" then DeletePut(config, key) else None
  }

  /** What `getPresignedUploadUrl(filename, contentType, folder, expiresIn)` produces. */
  function PresignedUploadVia(config: StorageConfig, params: PresignedUploadUrlParams, uuid: string,
                              signer: Signer): Completion<UploadFileResult>
  {
    if config.provider == "s3" then PresignedUploadOutcome(config, params, uuid, signer)
    else Threw(UnsupportedProvider(config.provider))
  }

  /** Under the configuration loaded from any environment the selector is
      's3', so the unsupported-provider branch is unreachable: each of the three
      wrappers answers exactly what the provider's operation answers. */
  lemma ShippedConfigurationReachesProvider(env: Env, params: UploadFileParams, presign: PresignedUploadUrlParams,
                                            key: string, uuid: string, sendFault: Option<Thrown>, signer: Signer)
    ensures var config := LoadStorageConfig(env);
      && UploadFileVia(config, params, uuid, sendFault, signer) == UploadFileOutcome(config, params, uuid, sendFault, signer)
      && UploadPutVia(config, params, uuid) == UploadPut(config, params, uuid)
      && DeleteFileVia(config, key, sendFault) == DeleteFileOutcome(config, key, sendFault)
      && DeletePutVia(config, key) == DeletePut(config, key)
      && PresignedUploadVia(config, presign, uuid, signer) == PresignedUploadOutcome(config, presign, uuid, signer)
  {
  }

  class StorageModule {
    /** `storageConfig`, read once when the module loads. */
    const storageConfig: StorageConfig
    /** `storageProvider`: null until the first successful initialisation. */
    var storageProvider: S3Provider?

    /** A provider in the slot was built from the module's configuration, whose
        selector is then 's3'. */
    ghost predicate Valid()
      reads this, storageProvider
    {
      storageProvider != null ==>
        && storageProvider.config == storageConfig
        && storageConfig.provider == "s3"
        && storageProvider.Valid()
    }

    /** After any operation: the provider slot is filled exactly when the
        selector is 's3', and the provider's client slot exactly when a region
        is configured. */
    ghost predicate SlotsAfterFirstUse()
      reads this, storageProvider
    {
      && (storageProvider != null <==> storageConfig.provider == "s3")
      && (storageProvider != null ==> (storageProvider.s3Client != null <==> storageConfig.region != ""))
    }

    constructor (storageConfig: StorageConfig)
      ensures Valid()
      ensures this.storageConfig == storageConfig && storageProvider == null
    {
      this.storageConfig := storageConfig;
      storageProvider := null;
    }

    /** `initializeStorageProvider`: fills the slot once, and only when the
        selector is 's3'; any other selector throws and leaves the slot empty. */
    method InitializeStorageProvider() returns (r: Completion<S3Provider>)
      requires Valid()
      modifies this
      ensures Valid()
      ensures old(storageProvider) != null ==>
        r == Returned(old(storageProvider)) && storageProvider == old(storageProvider)
      ensures old(storageProvider) == null && storageConfig.provider == "s3" ==>
        && r.Returned? && fresh(r.value) && storageProvider == r.value
        && r.value.config == storageConfig && r.value.s3Client == null
      ensures old(storageProvider) == null && storageConfig.provider != "s3" ==>
        r == Threw(UnsupportedProvider(storageConfig.provider)) && storageProvider == null
    {
      if storageProvider == null {
        if storageConfig.provider == "s3" {
          storageProvider := new S3Provider(storageConfig);
        } else {
          return Threw(UnsupportedProvider(storageConfig.provider));
        }
      }
      r := Returned(storageProvider);
    }

    /** `getStorageProvider`: the provider in the slot if there is one, else a
        fresh initialisation. Once a call has returned a provider, every later
        call returns that same instance. */
    method GetStorageProvider() returns (r: Completion<S3Provider>)
      requires Valid()
      modifies this
      ensures Valid()
      ensures old(storageProvider) != null ==>
        r == Returned(old(storageProvider)) && storageProvider == old(storageProvider)
      ensures old(storageProvider) == null && storageConfig.provider == "s3" ==>
        && r.Returned? && fresh(r.value) && storageProvider == r.value
        && r.value.config == storageConfig && r.value.s3Client == null
      ensures old(storageProvider) == null && storageConfig.provider != "s3" ==>
        r == Threw(UnsupportedProvider(storageConfig.provider)) && storageProvider == null
    {
      if storageProvider == null {
        r := InitializeStorageProvider();
        return;
      }
      r := Returned(storageProvider);
    }

    /** `uploadFile(file, filename, contentType, folder)`: forwards its arguments
        unchanged to the provider. */
    method UploadFile(file: Bytes, filename: string, contentType: string, folder: Option<string>,
                      uuid: string, store: ObjectStore, sendFault: Option<Thrown>, signer: Signer)
      returns (r: Completion<UploadFileResult>)
      requires Valid()
      modifies this, storageProvider, store
      ensures Valid()
      ensures r == UploadFileVia(storageConfig, UploadFileParams(file, filename, contentType, folder), uuid, sendFault, signer)
      ensures store.objects ==
        ObjectsAfter(old(store.objects), UploadPutVia(storageConfig, UploadFileParams(file, filename, contentType, folder), uuid), sendFault)
      ensures store.puts ==
        PutsAfter(old(store.puts), UploadPutVia(storageConfig, UploadFileParams(file, filename, contentType, folder), uuid), sendFault)
      ensures old(storageProvider) != null ==> storageProvider == old(storageProvider)
      ensures old(storageProvider) != null && old(storageProvider.s3Client) != null ==>
        storageProvider.s3Client == old(storageProvider.s3Client)
      ensures SlotsAfterFirstUse()
      ensures old(storageProvider) == null && storageProvider != null ==> fresh(storageProvider)
    {
      var provider := GetStorageProvider();
      if provider.Threw? {
        return Threw(provider.error);
      }
      r := provider.value.UploadFile(UploadFileParams(file, filename, contentType, folder), uuid, store, sendFault, signer);
    }

    /** `deleteFile(key)`: forwards the key unchanged to the provider. */
    method DeleteFile(key: string, store: ObjectStore, sendFault: Option<Thrown>) returns (r: Completion<()>)
      requires Valid()
      modifies this, storageProvider, store
      ensures Valid()
      ensures r == DeleteFileVia(storageConfig, key, sendFault)
      ensures store.objects == ObjectsAfter(old(store.objects), DeletePutVia(storageConfig, key), sendFault)
      ensures store.puts == PutsAfter(old(store.puts), DeletePutVia(storageConfig, key), sendFault)
      ensures old(storageProvider) != null ==> storageProvider == old(storageProvider)
      ensures old(storageProvider) != null && old(storageProvider.s3Client) != null ==>
        storageProvider.s3Client == old(storageProvider.s3Client)
      ensures SlotsAfterFirstUse()
      ensures old(storageProvider) == null && storageProvider != null ==> fresh(storageProvider)
    {
      var provider := GetStorageProvider();
      if provider.Threw? {
        return Threw(provider.error);
      }
      r := provider.value.DeleteFile(key, store, sendFault);
    }

    /** `getPresignedUploadUrl(filename, contentType, folder, expiresIn = 3600)`:
        forwards its arguments to the provider, with the expiry defaulted here. */
    method GetPresignedUploadUrl(filename: string, contentType: string, folder: Option<string>,
                                 expiresIn: Option<int>, uuid: string, signer: Signer)
      returns (r: Completion<UploadFileResult>)
      requires Valid()
      modifies this, storageProvider
      ensures Valid()
      ensures r == PresignedUploadVia(storageConfig,
        PresignedUploadUrlParams(filename, contentType, folder, Some(expiresIn.GetOr(DEFAULT_UPLOAD_URL_EXPIRY))), uuid, signer)
      ensures old(storageProvider) != null ==> storageProvider == old(storageProvider)
      ensures old(storageProvider) != null && old(storageProvider.s3Client) != null ==>
        storageProvider.s3Client == old(storageProvider.s3Client)
      ensures SlotsAfterFirstUse()
      ensures old(storageProvider) == null && storageProvider != null ==> fresh(storageProvider)
    {
      var provider := GetStorageProvider();
      if provider.Threw? {
        return Threw(provider.error);
      }
      var expiry := if expiresIn.Some? then expiresIn.value else DEFAULT_UPLOAD_URL_EXPIRY;
      r := provider.value.GetPresignedUploadUrl(PresignedUploadUrlParams(filename, contentType, folder, Some(expiry)), uuid, signer);
    }
  }

  /** Two calls of getStorageProvider in a row return the identical instance. */
  method GetStorageProviderTwice(storage: StorageModule) returns (first: Completion<S3Provider>, second: Completion<S3Provider>)
    requires storage.Valid()
    modifies storage
    ensures storage.Valid()
    ensures first.Returned? ==> second == first
    ensures first.Threw? <==> storage.storageConfig.provider != "s3" && old(storage.storageProvider) == null
  {
    first := storage.GetStorageProvider();
    second := storage.GetStorageProvider();
  }

  /** A storage module built on the configuration loaded from any environment
      hands out a provider on that configuration at the first request. */
  method ShippedModuleProvides(env: Env) returns (r: Completion<S3Provider>)
    ensures r.Returned? && r.value.config == LoadStorageConfig(env)
  {
    var storage := new StorageModule(LoadStorageConfig(env));
    r := storage.GetStorageProvider();
  }
}
