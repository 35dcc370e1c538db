/**
 * What the storage layer sees of the AWS SDK: the options a client is built
 * from, the client object, the object commands, request signing and the object
 * store that `send` writes to.
 *
 * Signing (AWS Signature Version 4) is not visible to the layer: a `Signer` is an
 * arbitrary function from what is signed to the URL it yields or the error it
 * throws. The remote store is an object whose state is a map from (bucket, key)
 * to the stored object, plus the log of the puts it has accepted.
 */
module S3Sdk {
  import opened StorageTypes

  /** The option object handed to `new S3Client(...)`. `endpoint` and
      `forcePathStyle` are absent unless a custom endpoint is configured. */
  datatype ClientOptions = ClientOptions(
    region: string,
    accessKeyId: string,
    secretAccessKey: string,
    endpoint: Option<string>,
    forcePathStyle: Option<bool>)

  /** An `S3Client`; only its identity and its options matter here. */
  class S3Client {
    const options: ClientOptions

    constructor (options: ClientOptions)
      ensures this.options == options
    {
      this.options := options;
    }
  }

  /** The command a URL is signed for. */
  datatype ObjectCommand =
    | GetObject(bucket: string, key: string)
    | PutObject(bucket: string, key: string, contentType: Option<string>)

  /** `getSignedUrl(client, command, { expiresIn })` */
  datatype SignRequest = SignRequest(client: ClientOptions, command: ObjectCommand, expiresIn: int)

  type Signer = SignRequest -> Completion<string>

  /** A `PutObjectCommand` with a body, as handed to `send`. */
  datatype PutObjectCommand = PutObjectCommand(
    bucket: string,
    key: string,
    body: Bytes,
    contentType: Option<string>)

  datatype ObjectId = ObjectId(bucket: string, key: string)

  datatype StoredObject = StoredObject(body: Bytes, contentType: Option<string>)

  /** The objects after a put that may not have happened (`put` is None) or may
      have failed (`fault` is the error `send` threw). */
  function ObjectsAfter(objects: map<ObjectId, StoredObject>, put: Option<PutObjectCommand>, fault: Option<Thrown>)
    : map<ObjectId, StoredObject>
  {
    if put.Some? && fault.None?
    then objects[ObjectId(put.value.bucket, put.value.key) := StoredObject(put.value.body, put.value.contentType)]
    else objects
  }

  /** The put log after the same. */
  function PutsAfter(puts: seq<PutObjectCommand>, put: Option<PutObjectCommand>, fault: Option<Thrown>)
    : seq<PutObjectCommand>
  {
    if put.Some? && fault.None? then puts + [put.value] else puts
  }

  /** A put never removes an object: every key present before is present after,
      and the put's own key is present after a successful put. */
  lemma PutNeverRemoves(objects: map<ObjectId, StoredObject>, put: Option<PutObjectCommand>, fault: Option<Thrown>)
    ensures objects.Keys <= ObjectsAfter(objects, put, fault).Keys
    ensures put.Some? && fault.None? ==> ObjectId(put.value.bucket, put.value.key) in ObjectsAfter(objects, put, fault)
  {
  }

  /** The remote object store. */
  class ObjectStore {
    var objects: map<ObjectId, StoredObject>
    var puts: seq<PutObjectCommand>

    constructor ()
      ensures objects == map[] && puts == []
    {
      objects := map[];
      puts := [];
    }

    /** `await client.send(new PutObjectCommand(cmd))`: stores the object, or
        throws `fault` and leaves the store as it was. */
    method Send(client: S3Client, cmd: PutObjectCommand, fault: Option<Thrown>) returns (r: Completion<()>)
      modifies this
      ensures r == if fault.Some? then Threw(fault.value) else Returned(())
      ensures objects == ObjectsAfter(old(objects), Some(cmd), fault)
      ensures puts == PutsAfter(old(puts), Some(cmd), fault)
    {
      if fault.Some? {
        return Threw(fault.value);
      }
      objects := objects[ObjectId(cmd.bucket, cmd.key) := StoredObject(cmd.body, cmd.contentType)];
      puts := puts + [cmd];
      r := Returned(());
    }
  }
}
