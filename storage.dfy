/** The object store behind uploads: file names are sanitised, keys are laid
    out as `bucket/[folder/]tenantId/timestamp-name`, public URLs are built from
    the configured endpoint, and uploaded files pass type and size gates. The
    store itself is a map from keys to the objects put there; the outcome of
    each remote call is a parameter. */
module Storage {
  import opened Common
  import opened Strings

  /** The characters `[a-zA-Z0-9.-]` that sanitisation keeps. */
  predicate IsSafeFilenameChar(c: char) {
    ('a' <= c <= 'z') || ('A' <= c <= 'Z') || ('0' <= c <= '9') || c == '.' || c == '-'
  }

  /** `originalname.replace(/[^a-zA-Z0-9.-]/g, '_')`: each character is kept
      or becomes `_`, so the length is kept and the result holds only
      `[a-zA-Z0-9._-]`. */
  function SanitizeFilename(s: string): (r: string)
    ensures |r| == |s|
    ensures forall i :: 0 <= i < |s| ==> r[i] == (if IsSafeFilenameChar(s[i]) then s[i] else '_')
    ensures forall i :: 0 <= i < |r| ==> IsSafeFilenameChar(r[i]) || r[i] == '_'
    ensures '/' !in r
  {
    if s == [] then []
    else [if IsSafeFilenameChar(s[0]) then s[0] else '_'] + SanitizeFilename(s[1..])
  }

  /** Sanitising twice changes nothing more. */
  lemma SanitizeIdempotent(s: string)
    ensures SanitizeFilename(SanitizeFilename(s)) == SanitizeFilename(s)
  {
    var r := SanitizeFilename(s);
    assert forall i :: 0 <= i < |r| ==> SanitizeFilename(r)[i] == r[i];
  }

  /** A name made only of safe characters comes through unchanged. */
  lemma SanitizeKeepsSafeNames(s: string)
    requires forall i :: 0 <= i < |s| ==> IsSafeFilenameChar(s[i])
    ensures SanitizeFilename(s) == s
  {
    assert forall i :: 0 <= i < |s| ==> SanitizeFilename(s)[i] == s[i];
  }

  /** The upload as the HTTP layer hands it over; the content is not part of
      this model. */
  datatype UploadedFile = UploadedFile(originalname: string, mimetype: string, size: nat)

  /** The environment variables the service reads. */
  datatype StorageEnv = StorageEnv(
    minioEndpoint: Option<string>,
    minioPort: Option<string>,
    minioUseSsl: Option<string>,
    minioBucketPrefix: Option<string>)

  /** `endpoint` is `host:port`. */
  datatype StorageConfig = StorageConfig(endpoint: string, useSsl: bool, bucketPrefix: string)

  /** The constructor's reading of the environment: each absent or empty
      value falls back to its default, and SSL is on only for the exact text
      `true`. */
  function ConfigFrom(env: StorageEnv): (cfg: StorageConfig)
    ensures var host := if Truthy(env.minioEndpoint) then env.minioEndpoint.value else "localhost";
            var port := if Truthy(env.minioPort) then env.minioPort.value else "9000";
            cfg.endpoint == host + ":" + port
    ensures cfg.useSsl <==> env.minioUseSsl == Some("true")
    ensures Truthy(env.minioBucketPrefix) ==> cfg.bucketPrefix == env.minioBucketPrefix.value
    ensures !Truthy(env.minioBucketPrefix) ==> cfg.bucketPrefix == "ila26"
  {
    StorageConfig(OrElse(env.minioEndpoint, "localhost") + ":" + OrElse(env.minioPort, "9000"),
                  env.minioUseSsl == Some("true"),
                  OrElse(env.minioBucketPrefix, "ila26"))
  }

  function Protocol(useSsl: bool): string {
    if useSsl then "https" else "http"
  }

  /** `getFileUrl`: the scheme is https exactly when SSL is on, and the URL
      ends with `/` followed by the key under the bucket prefix. */
  function FileUrl(cfg: StorageConfig, key: string): (url: string)
    ensures cfg.useSsl ==> "https://" <= url
    ensures !cfg.useSsl ==> "http://" <= url && !("https://" <= url)
    ensures var tail := "/" + cfg.bucketPrefix + "/" + key; |url| > |tail| && url[|url| - |tail|..] == tail
  {
    var url := Protocol(cfg.useSsl) + "://" + cfg.endpoint + "/" + cfg.bucketPrefix + "/" + key;
    assert url == Protocol(cfg.useSsl) + "://" + cfg.endpoint + ("/" + cfg.bucketPrefix + "/" + key);
    assert !cfg.useSsl ==> url[4] == ':';
    url
  }

  /** The file part of a key: `timestamp-sanitisedName`. */
  function StoredName(timestamp: nat, originalname: string): (name: string)
    ensures '/' !in name && |name| >= 2
  {
    NatToString(timestamp) + "-" + SanitizeFilename(originalname)
  }

  /** The key `uploadFile` writes to: a present, non-empty folder sits between
      bucket and tenant id. */
  function FileKey(bucket: string, folder: Option<string>, tenantId: string, timestamp: nat, originalname: string): (key: string)
    ensures Truthy(folder) ==> key == bucket + "/" + folder.value + "/" + tenantId + "/" + StoredName(timestamp, originalname)
    ensures !Truthy(folder) ==> key == bucket + "/" + tenantId + "/" + StoredName(timestamp, originalname)
    ensures LastSegment(key) == StoredName(timestamp, originalname)
  {
    var prefix := if Truthy(folder) then bucket + "/" + folder.value + "/" + tenantId else bucket + "/" + tenantId;
    LastSegmentOfJoin(prefix, StoredName(timestamp, originalname));
    prefix + "/" + StoredName(timestamp, originalname)
  }

  /** The public URL of an uploaded file ends in the file's stored name. */
  lemma FileUrlEndsWithStoredName(cfg: StorageConfig, bucket: string, folder: Option<string>, tenantId: string,
                                  timestamp: nat, originalname: string)
    ensures LastSegment(FileUrl(cfg, FileKey(bucket, folder, tenantId, timestamp, originalname)))
            == StoredName(timestamp, originalname)
  {
    var name := StoredName(timestamp, originalname);
    var prefix := if Truthy(folder) then bucket + "/" + folder.value + "/" + tenantId else bucket + "/" + tenantId;
    var key := FileKey(bucket, folder, tenantId, timestamp, originalname);
    assert key == prefix + "/" + name;
    var head := Protocol(cfg.useSsl) + "://" + cfg.endpoint + "/" + cfg.bucketPrefix + "/";
    assert FileUrl(cfg, key) == head + key;
    assert head + key == (head + prefix) + "/" + name;
    LastSegmentOfJoin(head + prefix, name);
  }

  /** Two uploads of the same file name at different times get different
      keys. */
  lemma FileKeysDifferByTimestamp(bucket: string, folder: Option<string>, tenantId: string, t1: nat, t2: nat, name: string)
    requires t1 != t2
    ensures FileKey(bucket, folder, tenantId, t1, name) != FileKey(bucket, folder, tenantId, t2, name)
  {
    var k1 := FileKey(bucket, folder, tenantId, t1, name);
    var k2 := FileKey(bucket, folder, tenantId, t2, name);
    if k1 == k2 {
      StoredNameInjective(t1, t2, name);
    }
  }

  lemma StoredNameInjective(t1: nat, t2: nat, name: string)
    requires StoredName(t1, name) == StoredName(t2, name)
    ensures t1 == t2
  {
    var s1 := NatToString(t1);
    var s2 := NatToString(t2);
    var n := "-" + SanitizeFilename(name);
    assert StoredName(t1, name) == s1 + n && StoredName(t2, name) == s2 + n;
    assert |s1| == |s2|;
    assert s1 == (s1 + n)[..|s1|];
    assert s2 == (s2 + n)[..|s2|];
    NatToStringInjective(t1, t2);
  }

  /** `validateFileType`: the mimetype is one of the allowed ones. */
  predicate ValidateFileType(file: UploadedFile, allowedTypes: seq<string>): (ok: bool)
    ensures ok <==> exists i :: 0 <= i < |allowedTypes| && allowedTypes[i] == file.mimetype
    ensures allowedTypes == [] ==> !ok
  {
    file.mimetype in allowedTypes
  }

  /** `validateFileSize`: the limit is inclusive, and only the size plays a
      part. */
  predicate ValidateFileSize(file: UploadedFile, maxSizeBytes: int): (ok: bool)
    ensures ok <==> file.size <= maxSizeBytes
    ensures maxSizeBytes < 0 ==> !ok
  {
    file.size <= maxSizeBytes
  }

  /** A file within a limit is within every larger one; one byte over the
      limit is refused. */
  lemma FileSizeGate(file: UploadedFile, max: int, larger: int)
    requires max <= larger
    ensures ValidateFileSize(file, max) ==> ValidateFileSize(file, larger)
    ensures max >= 0 ==> ValidateFileSize(file.(size := max), max) && !ValidateFileSize(file.(size := max + 1), max)
  {
  }

  /** What the store keeps under a key. */
  datatype StoredObject = StoredObject(tenantId: string, originalName: string, contentType: string, size: nat)

  /** What `uploadFile` answers. */
  datatype FileMetadata = FileMetadata(key: string, url: string, bucket: string, size: nat, contentType: string)

  class StorageService {
    const cfg: StorageConfig
    /** The bucket's content, by key. */
    var objects: map<string, StoredObject>

    constructor (env: StorageEnv, existing: map<string, StoredObject>)
      ensures cfg == ConfigFrom(env) && objects == existing
    {
      cfg := ConfigFrom(env);
      objects := existing;
    }

    /** `uploadFile`, with the clock reading and the outcome of the put as
        parameters: a failed put leaves the store as it was and reports 500
        with the store's message; otherwise the object sits under the new key
        and the answer describes it. */
    method UploadFile(file: UploadedFile, bucket: string, folder: Option<string>, tenantId: string,
                      timestamp: nat, putFailure: Option<string>) returns (r: Result<FileMetadata>)
      modifies this`objects
      ensures var key := FileKey(bucket, folder, tenantId, timestamp, file.originalname);
              && (putFailure.Some? ==>
                    r == Err(HttpError(INTERNAL_SERVER_ERROR, "Failed to upload file: " + putFailure.value))
                    && objects == old(objects))
              && (putFailure.None? ==>
                    r == Ok(FileMetadata(key, FileUrl(cfg, key), cfg.bucketPrefix, file.size, file.mimetype))
                    && objects == old(objects)[key := StoredObject(tenantId, file.originalname, file.mimetype, file.size)])
    {
      var key := FileKey(bucket, folder, tenantId, timestamp, file.originalname);
      if putFailure.Some? {
        return Err(HttpError(INTERNAL_SERVER_ERROR, "Failed to upload file: " + putFailure.value));
      }
      objects := objects[key := StoredObject(tenantId, file.originalname, file.mimetype, file.size)];
      var url := FileUrl(cfg, key);
      r := Ok(FileMetadata(key, url, cfg.bucketPrefix, file.size, file.mimetype));
    }

    /** `deleteFile`: a failed delete reports 500 and leaves the store as it
        was; otherwise nothing is left under the key (a missing key is not an
        error). */
    method DeleteFile(key: string, deleteFailure: Option<string>) returns (failure: Option<Failure>)
      modifies this`objects
      ensures deleteFailure.Some? ==>
                failure == Some(HttpError(INTERNAL_SERVER_ERROR, "Failed to delete file: " + deleteFailure.value))
                && objects == old(objects)
      ensures deleteFailure.None? ==> failure == None && objects == old(objects) - {key}
    {
      if deleteFailure.Some? {
        return Some(HttpError(INTERNAL_SERVER_ERROR, "Failed to delete file: " + deleteFailure.value));
      }
      objects := objects - {key};
      failure := None;
    }
  }
}
