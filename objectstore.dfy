/**
 * The object store (S3) as the pipeline uses it: objects addressed by bucket and key, a
 * server-side copy named by a `bucket/key` copy source, and a delete.
 */
module ObjectStore {
  import opened Wrappers
  import opened Strings

  type Bytes = seq<bv8>

  datatype ObjectRef = ObjectRef(bucket: string, key: string)

  type Objects = map<ObjectRef, Bytes>

  const NoSuchKey := "NoSuchKey: The specified key does not exist."
  const InvalidCopySource := "InvalidArgument: Copy Source must mention the source bucket and key: sourcebucket/sourcekey"

  /** The `CopySource` parameter: bucket and key joined by a slash. */
  function CopySource(bucket: string, key: string): string
  {
    bucket + "/" + key
  }

  /** How the store reads a copy source: the bucket is everything before the first slash. */
  function ParseCopySource(source: string): (r: Option<ObjectRef>)
    ensures r.Some? <==> '/' in source
    ensures r.Some? ==> '/' !in r.value.bucket && CopySource(r.value.bucket, r.value.key) == source
  {
    var parts := Split(source, '/');
    JoinSplit(source, '/');
    if |parts| < 2 then None else Some(ObjectRef(parts[0], Join(parts[1..], '/')))
  }

  /** A copy source names the object it was built from (bucket names hold no slash). */
  lemma ParseCopySourceInverse(bucket: string, key: string)
    requires '/' !in bucket
    ensures ParseCopySource(CopySource(bucket, key)) == Some(ObjectRef(bucket, key))
  {
    SplitAtFirst(bucket, '/', key);
    var parts := Split(CopySource(bucket, key), '/');
    assert parts[1..] == Split(key, '/');
    JoinSplit(key, '/');
  }

  /** CopyObject into `dst` from `source`; `fault` is the reply of the service itself. */
  function Copied(objects: Objects, source: string, dst: ObjectRef, fault: Reply): (res: (Objects, Reply))
    ensures res.1.Reject? ==> res.0 == objects
    ensures res.1.Accept? <==>
      fault.Accept? && ParseCopySource(source).Some? && ParseCopySource(source).value in objects
    ensures res.1.Accept? ==> res.0 == objects[dst := objects[ParseCopySource(source).value]]
  {
    if fault.Reject? then (objects, fault)
    else
      match ParseCopySource(source)
      case None => (objects, Reject(InvalidCopySource))
      case Some(src) =>
        if src !in objects then (objects, Reject(NoSuchKey))
        else (objects[dst := objects[src]], Accept)
  }

  /** DeleteObject: removing a missing object succeeds too. */
  function Deleted(objects: Objects, target: ObjectRef, fault: Reply): (res: (Objects, Reply))
    ensures res.1 == fault
    ensures fault.Reject? ==> res.0 == objects
    ensures fault.Accept? ==> target !in res.0 && res.0 == objects - {target}
  {
    if fault.Reject? then (objects, fault) else (objects - {target}, Accept)
  }

  class Store {
    var objects: Objects

    constructor (objects: Objects)
      ensures this.objects == objects
    {
      this.objects := objects;
    }

    method CopyObject(bucket: string, copySource: string, key: string, fault: Reply) returns (r: Reply)
      modifies this
      ensures (objects, r) == Copied(old(objects), copySource, ObjectRef(bucket, key), fault)
    {
      if fault.Reject? {
        return fault;
      }
      var src := ParseCopySource(copySource);
      if src.None? {
        return Reject(InvalidCopySource);
      }
      if src.value !in objects {
        return Reject(NoSuchKey);
      }
      objects := objects[ObjectRef(bucket, key) := objects[src.value]];
      r := Accept;
    }

    method DeleteObject(bucket: string, key: string, fault: Reply) returns (r: Reply)
      modifies this
      ensures (objects, r) == Deleted(old(objects), ObjectRef(bucket, key), fault)
    {
      if fault.Reject? {
        return fault;
      }
      objects := objects - {ObjectRef(bucket, key)};
      r := Accept;
    }
  }
}
