/** Where the state inventory is kept between runs: an object in an S3
    bucket, with a file in the working directory as the fallback. The
    inventory is written as a JSON document; a document saved before any
    build holds `null`. */
module Store {
  import opened Wrappers

  /** The state inventory: resource ids under each canonical tag. */
  type Inventory = map<string, seq<string>>

  /** A saved JSON document: an inventory, or `null`. */
  type Document = Option<Inventory>

  /** Reading the local file fails when it does not exist. */
  datatype Fault = Missing(path: string)

  /** A bucket name is used only when it is a non-empty string. */
  predicate Truthy(bucket: Option<string>) {
    bucket.Some? && bucket.value != ""
  }

  /** The two slots as values: the objects in S3 by (bucket, key), the
      files on disk by path, and whether S3 answers requests at all. */
  datatype Shelf = Shelf(objects: map<(string, string), Document>, files: map<string, Document>, online: bool)

  /** `save_state`: upload when a bucket is set and S3 answers; otherwise
      (no bucket, or the upload raised) write the local file. */
  function Saved(s: Shelf, bucket: Option<string>, key: string, path: string, doc: Document): (t: Shelf)
    ensures t.online == s.online
    ensures Truthy(bucket) && s.online ==> t.files == s.files && (bucket.value, key) in t.objects
    ensures !(Truthy(bucket) && s.online) ==> t.objects == s.objects && path in t.files && t.files[path] == doc
    ensures forall o :: o in s.objects && !(Truthy(bucket) && o == (bucket.value, key)) ==> o in t.objects && t.objects[o] == s.objects[o]
    ensures forall p :: p in s.files && p != path ==> p in t.files && t.files[p] == s.files[p]
  {
    if Truthy(bucket) && s.online then s.(objects := s.objects[(bucket.value, key) := doc])
    else s.(files := s.files[path := doc])
  }

  /** `load_state`: read the object when a bucket is set and the read
      succeeds; on any failure (no bucket, S3 down, no such object) read
      the local file, which raises when it is missing. */
  function Loaded(s: Shelf, bucket: Option<string>, key: string, path: string): (r: Result<Document, Fault>)
    ensures r.Err? <==> !(Truthy(bucket) && s.online && (bucket.value, key) in s.objects) && path !in s.files
    ensures r.Err? ==> r.error == Missing(path)
    ensures !Truthy(bucket) && path in s.files ==> r == Ok(s.files[path])
  {
    if Truthy(bucket) && s.online && (bucket.value, key) in s.objects then Ok(s.objects[(bucket.value, key)])
    else if path in s.files then Ok(s.files[path])
    else Err(Missing(path))
  }

  /** Loading what was just saved gives it back, whether it went to S3
      or to the local file. */
  lemma LoadAfterSave(s: Shelf, bucket: Option<string>, key: string, path: string, doc: Document)
    ensures Loaded(Saved(s, bucket, key, path, doc), bucket, key, path) == Ok(doc)
  {
  }

  /** With S3 answering, the object wins over a stale local file. */
  lemma RemoteFirst(s: Shelf, bucket: Option<string>, key: string, path: string)
    requires Truthy(bucket) && s.online && (bucket.value, key) in s.objects
    ensures Loaded(s, bucket, key, path) == Ok(s.objects[(bucket.value, key)])
  {
  }

  /** A failed upload is not lost: the document lands in the local file
      and S3 is left as it was. */
  lemma FallbackOnFailure(s: Shelf, bucket: Option<string>, key: string, path: string, doc: Document)
    requires Truthy(bucket) && !s.online
    ensures Saved(s, bucket, key, path, doc).objects == s.objects
    ensures Saved(s, bucket, key, path, doc).files == s.files[path := doc]
  {
  }

  /** S3 and the disk, changed in place by uploads and writes. */
  class Storage {
    var objects: map<(string, string), Document>
    var files: map<string, Document>
    const online: bool

    constructor (objects: map<(string, string), Document>, files: map<string, Document>, online: bool)
      ensures this.objects == objects && this.files == files && this.online == online
    {
      this.objects := objects;
      this.files := files;
      this.online := online;
    }

    function Contents(): Shelf
      reads this
    {
      Shelf(objects, files, online)
    }

    /** `upload_file`: raises (here: reports `false`) when S3 is down. */
    method Upload(bucket: string, key: string, doc: Document) returns (ok: bool)
      modifies this`objects
      ensures ok == online
      ensures objects == if online then old(objects)[(bucket, key) := doc] else old(objects)
    {
      ok := online;
      if online {
        objects := objects[(bucket, key) := doc];
      }
    }

    /** `Object(bucket, key).get()`: nothing when S3 is down or there is
        no such object. */
    method Download(bucket: string, key: string) returns (doc: Option<Document>)
      ensures doc == if online && (bucket, key) in objects then Some(objects[(bucket, key)]) else None
    {
      if online && (bucket, key) in objects {
        doc := Some(objects[(bucket, key)]);
      } else {
        doc := None;
      }
    }

    /** `open(path, "w+")` and write. */
    method Write(path: string, doc: Document)
      modifies this`files
      ensures files == old(files)[path := doc]
    {
      files := files[path := doc];
    }

    /** `open(path, "r")` and read: nothing when the file is missing. */
    method Read(path: string) returns (doc: Option<Document>)
      ensures doc == if path in files then Some(files[path]) else None
    {
      if path in files {
        doc := Some(files[path]);
      } else {
        doc := None;
      }
    }
  }
}
