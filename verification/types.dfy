/**
 * The storage layer's shared types (src/storage/types.ts): the configuration
 * record, the parameter and result records of the provider operations, and the
 * error hierarchy StorageError <- {ConfigurationError, UploadError}.
 *
 * JavaScript exceptions are modelled as values: a call that may throw yields a
 * `Completion`, either the value it returns or the value it throws.
 */
module StorageTypes {

  datatype Option<+T> = None | Some(value: T) {
    /** `x ?? default` for a value that is either present or undefined. */
    function GetOr(default: T): T {
      if Some? then value else default
    }
  }

  /** The outcome of a call that may throw. */
  datatype Completion<+T> = Returned(value: T) | Threw(error: Thrown)

  /** Raw bytes (a Node `Buffer`). */
  type Bytes = seq<bv8>

  /** The classes an `Error` instance may have in this layer. `BaseError` is
      `Error` itself, as `new Error(...)` builds it; `OtherErrorClass` is any
      built-in or foreign subclass of it (TypeError, an SDK error, ...), none of
      which is a StorageError, with the `name` it sets. */
  datatype ErrorClass =
    | BaseError
    | OtherErrorClass(name: string)
    | StorageErrorClass
    | ConfigurationErrorClass
    | UploadErrorClass

  /** A thrown value: an `Error` instance with its class and message, or
      anything else JavaScript lets one throw. */
  datatype Thrown = ErrorInstance(cls: ErrorClass, message: string) | NonErrorValue

  /** `t instanceof Error` */
  predicate IsError(t: Thrown) {
    t.ErrorInstance?
  }

  /** `t instanceof StorageError`: true of the base class and both subclasses. */
  predicate IsStorageError(t: Thrown) {
    t.ErrorInstance? && t.cls in {StorageErrorClass, ConfigurationErrorClass, UploadErrorClass}
  }

  /** `t instanceof ConfigurationError` */
  predicate IsConfigurationError(t: Thrown) {
    t.ErrorInstance? && t.cls == ConfigurationErrorClass
  }

  /** `t instanceof UploadError` */
  predicate IsUploadError(t: Thrown) {
    t.ErrorInstance? && t.cls == UploadErrorClass
  }

  /** The `name` property each constructor sets. */
  function Name(t: Thrown): string
    requires t.ErrorInstance?
  {
    match t.cls
    case BaseError => "Error"
    case OtherErrorClass(name) => name
    case StorageErrorClass => "StorageError"
    case ConfigurationErrorClass => "ConfigurationError"
    case UploadErrorClass => "UploadError"
  }

  /** `t instanceof Error ? t.message : fallback`, the idiom every catch block
      uses: an Error's own message, whatever its class, and the fallback for
      anything else that was thrown. */
  function MessageOr(t: Thrown, fallback: string): (m: string)
    ensures IsError(t) ==> m == t.message
    ensures !IsError(t) ==> m == fallback
  {
    if t.ErrorInstance? then t.message else fallback
  }

  /** `new Error(message)` */
  function NewError(message: string): (e: Thrown)
    ensures IsError(e) && !IsStorageError(e)
    ensures Name(e) == "Error" && e.message == message
  {
    ErrorInstance(BaseError, message)
  }

  /** `new StorageError(message)` */
  function NewStorageError(message: string): (e: Thrown)
    ensures IsStorageError(e) && !IsConfigurationError(e) && !IsUploadError(e)
    ensures Name(e) == "StorageError" && e.message == message
  {
    ErrorInstance(StorageErrorClass, message)
  }

  /** `new ConfigurationError(message)`: a StorageError whose name is ConfigurationError. */
  function NewConfigurationError(message: string): (e: Thrown)
    ensures IsStorageError(e) && IsConfigurationError(e) && !IsUploadError(e)
    ensures Name(e) == "ConfigurationError" && e.message == message
  {
    ErrorInstance(ConfigurationErrorClass, message)
  }

  /** `new UploadError(message)`: a StorageError whose name is UploadError. */
  function NewUploadError(message: string): (e: Thrown)
    ensures IsStorageError(e) && IsUploadError(e) && !IsConfigurationError(e)
    ensures Name(e) == "UploadError" && e.message == message
  {
    ErrorInstance(UploadErrorClass, message)
  }

  /** Both subclasses satisfy `instanceof StorageError`, and an error is of at
      most one of the two subclasses. */
  lemma SubclassesAreStorageErrors(t: Thrown)
    ensures IsConfigurationError(t) ==> IsStorageError(t) && !IsUploadError(t)
    ensures IsUploadError(t) ==> IsStorageError(t) && !IsConfigurationError(t)
    ensures IsStorageError(t) ==> IsError(t) && Name(t) != "Error"
  {
  }

  /** A catch block that wraps what it caught in a new Error of any of the
      layer's classes keeps the message: wrapping the wrapper again, as the next
      catch block up does, changes nothing more, so a message travels unchanged
      through every layer and only a non-Error value is replaced by a fallback. */
  lemma WrappingKeepsMessage(t: Thrown, fallback1: string, fallback2: string)
    ensures MessageOr(NewError(MessageOr(t, fallback1)), fallback2) == MessageOr(t, fallback1)
    ensures MessageOr(NewStorageError(MessageOr(t, fallback1)), fallback2) == MessageOr(t, fallback1)
    ensures MessageOr(NewUploadError(MessageOr(t, fallback1)), fallback2) == MessageOr(t, fallback1)
    ensures IsError(t) ==> MessageOr(t, fallback1) == MessageOr(t, fallback2)
  {
  }

  /** JavaScript truthiness of an optional string: neither undefined nor empty. */
  predicate IsSet(o: Option<string>) {
    o.Some? && o.value != ""
  }

  /** `StorageConfig`: fields marked `?` in the source are `Option`s. */
  datatype StorageConfig = StorageConfig(
    region: string,
    endpoint: Option<string>,
    accessKeyId: string,
    secretAccessKey: string,
    bucketName: string,
    publicUrl: Option<string>,
    forcePathStyle: Option<bool>,
    provider: string)

  /** `UploadFileParams`; the payload is already a byte buffer (see README). */
  datatype UploadFileParams = UploadFileParams(
    file: Bytes,
    filename: string,
    contentType: string,
    folder: Option<string>)

  /** `UploadFileResult`: exactly a URL and a storage key. */
  datatype UploadFileResult = UploadFileResult(url: string, key: string)

  /** `PresignedUploadUrlParams`; `expiresIn` is in seconds. */
  datatype PresignedUploadUrlParams = PresignedUploadUrlParams(
    filename: string,
    contentType: string,
    folder: Option<string>,
    expiresIn: Option<int>)
}
