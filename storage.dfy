/**
 * The Cloud Storage service: apps/api/app/services/storage.py.
 * The bucket is the `objects` map of a `StorageService`; what the storage
 * SDK does on each upload attempt, the clock reading and the uuid arrive
 * as parameters.
 */
module Storage {
  import opened Wrappers
  import opened Text
  import ResponseModels

  const SupportedImageFormats: set<string> := {"image/jpeg", "image/png", "image/webp"}
  const SupportedVideoFormats: set<string> := {"video/mp4"}
  const MaxRetries := 3
  const RetryDelay := 1

  /** The `extension_map` of `upload_image`. */
  function ImageExtension(contentType: string): (r: Option<string>)
    ensures r.Some? <==> contentType in SupportedImageFormats
  {
    if contentType == "image/jpeg" then Some("jpg")
    else if contentType == "image/png" then Some("png")
    else if contentType == "image/webp" then Some("webp")
    else None
  }

  /** The content type an extension stands for; the inverse of `ImageExtension`. */
  function ImageContentType(extension: string): Option<string> {
    if extension == "jpg" then Some("image/jpeg")
    else if extension == "png" then Some("image/png")
    else if extension == "webp" then Some("image/webp")
    else None
  }

  /** The extension map is a bijection between the supported types and jpg/png/webp. */
  lemma ExtensionRoundTrip(contentType: string, extension: string)
    ensures contentType in SupportedImageFormats ==> ImageContentType(ImageExtension(contentType).value) == Some(contentType)
    ensures ImageContentType(extension).Some? ==> ImageExtension(ImageContentType(extension).value) == Some(extension)
  {
  }

  /** A wall-clock reading, as `datetime.now()` gives it. */
  datatype DateTime = DateTime(year: nat, month: nat, day: nat, hour: nat, minute: nat, second: nat)

  predicate ValidDateTime(t: DateTime) {
    1000 <= t.year <= 9999 && 1 <= t.month <= 12 && 1 <= t.day <= 31
    && t.hour < 24 && t.minute < 60 && t.second < 60
  }

  /** `strftime("%Y%m%d_%H%M%S")`. */
  function Timestamp(t: DateTime): (r: string)
    ensures ValidDateTime(t) ==> |r| == 15 && AllDigits(r[..8]) && r[8] == '_' && AllDigits(r[9..])
  {
    var date := PadNat(t.year, 4) + PadNat(t.month, 2) + PadNat(t.day, 2);
    var time := PadNat(t.hour, 2) + PadNat(t.minute, 2) + PadNat(t.second, 2);
    if ValidDateTime(t) then
      PadNatExact(t.year, 4);
      PadNatExact(t.month, 2);
      PadNatExact(t.day, 2);
      PadNatExact(t.hour, 2);
      PadNatExact(t.minute, 2);
      PadNatExact(t.second, 2);
      AllDigitsAppend(PadNat(t.year, 4), PadNat(t.month, 2));
      AllDigitsAppend(PadNat(t.year, 4) + PadNat(t.month, 2), PadNat(t.day, 2));
      AllDigitsAppend(PadNat(t.hour, 2), PadNat(t.minute, 2));
      AllDigitsAppend(PadNat(t.hour, 2) + PadNat(t.minute, 2), PadNat(t.second, 2));
      var r := date + "_" + time;
      assert r[..8] == date && r[9..] == time;
      r
    else date + "_" + time
  }

  /** `str(uuid4())[:8]`: at most eight characters of the uuid text. */
  function ShortId(uuidText: string): (r: string)
    ensures |r| == if |uuidText| < 8 then |uuidText| else 8
    ensures r <= uuidText
  {
    if |uuidText| < 8 then uuidText else uuidText[..8]
  }

  /** `generate_unique_filename`: `{prefix}_{timestamp}_{8 chars}.{extension}`. */
  function UniqueFilename(prefix: string, extension: string, now: DateTime, uuidText: string): (r: string)
    ensures StartsWith(r, prefix + "_")
    ensures EndsWith(r, "." + extension)
    ensures ValidDateTime(now) && |uuidText| >= 8 ==> |r| == |prefix| + |extension| + 26
  {
    var head, tail := prefix + "_", "." + extension;
    var middle := Timestamp(now) + "_" + ShortId(uuidText);
    Framed(head, middle, tail);
    head + middle + tail
  }

  /** Two names made in the same second differ exactly when their short ids differ. */
  lemma UniqueFilenameIds(prefix: string, extension: string, now: DateTime, u1: string, u2: string)
    requires |u1| >= 8 && |u2| >= 8
    ensures UniqueFilename(prefix, extension, now, u1) == UniqueFilename(prefix, extension, now, u2)
            <==> u1[..8] == u2[..8]
  {
    var head, tail := prefix + "_", "." + extension;
    var stamp := Timestamp(now) + "_";
    MiddleCancel(stamp, u1[..8], u2[..8], []);
    assert stamp + u1[..8] + [] == stamp + u1[..8];
    assert stamp + u2[..8] + [] == stamp + u2[..8];
    MiddleCancel(head, stamp + u1[..8], stamp + u2[..8], tail);
  }

  /** The host serving public objects of Cloud Storage buckets. */
  const StorageHost := "storage.googleapis.com"

  /** `blob.public_url` for an object of the bucket: "https://storage.googleapis.com/<bucket>/<name>". */
  function BlobPublicUrl(bucketName: string, name: string): string {
    "https://" + StorageHost + "/" + bucketName + "/" + name
  }

  /** `get_public_url`: the bucket comes from the `STORAGE_BUCKET` variable, and an unset one prints as "None". */
  function GetPublicUrl(filename: string, bucketEnv: Option<string>): (r: string)
    ensures bucketEnv.Some? ==> r == BlobPublicUrl(bucketEnv.value, filename)
    ensures bucketEnv.None? ==> r == BlobPublicUrl("None", filename)
  {
    var bucketName := match bucketEnv case None => "None" case Some(b) => b;
    "https://" + StorageHost + "/" + bucketName + "/" + filename
  }

  /** The host part of a public URL is the storage host, and the path cannot hold "://" unless the object path does. */
  lemma PublicUrlRest(path: string)
    ensures TakeUntil(StorageHost + "/" + path, '/') == StorageHost
    ensures Contains(StorageHost + "/" + path, "://") ==> Contains(path, "://")
  {
    assert '/' !in StorageHost;
    TakeUntilJoined(StorageHost, '/', path);
    assert ':' !in StorageHost + "/";
    ContainsAfter(StorageHost + "/", path, "://");
  }

  /** Public URLs pass the style-URL validator unless the object path itself holds "://". */
  lemma PublicUrlIsWebUrl(bucketName: string, name: string)
    requires !Contains(bucketName + "/" + name, "://")
    ensures ResponseModels.IsWebUrl(BlobPublicUrl(bucketName, name))
  {
    var url := BlobPublicUrl(bucketName, name);
    var path := bucketName + "/" + name;
    var rest := StorageHost + "/" + path;
    assert url == "https://" + rest;
    PublicUrlRest(path);
    assert StorageHost[7] == '.';
    ResponseModels.HttpsUrl(rest);
  }

  /** What one upload attempt did: stored and published the object, or failed at either step. */
  datatype AttemptOutcome = Uploaded | UploadFailed(error: string) | PublishFailed(error: string)

  /** An object in the bucket. */
  datatype StoredBlob = StoredBlob(data: seq<byte>, contentType: string, isPublic: bool)

  /** The index of the first attempt among the first `n` that succeeded. */
  function FirstUpload(outcomes: seq<AttemptOutcome>, n: nat): (r: Option<nat>)
    requires n <= |outcomes|
    ensures r.Some? ==>
      r.value < n && outcomes[r.value] == Uploaded
      && forall j | 0 <= j < r.value :: outcomes[j] != Uploaded
    ensures r.None? ==> forall j | 0 <= j < n :: outcomes[j] != Uploaded
  {
    if n == 0 then None
    else match FirstUpload(outcomes, n - 1)
      case Some(k) => Some(k)
      case None => if outcomes[n - 1] == Uploaded then Some(n - 1) else None
  }

  /** Later attempts do not change which attempt succeeded first. */
  lemma {:induction false} FirstUploadExtends(outcomes: seq<AttemptOutcome>, n: nat, m: nat)
    requires n <= m <= |outcomes| && FirstUpload(outcomes, n).Some?
    ensures FirstUpload(outcomes, m) == FirstUpload(outcomes, n)
    decreases m - n
  {
    if m > n {
      FirstUploadExtends(outcomes, n, m - 1);
    }
  }

  /** Some attempt among the first `n` got the data into the bucket. */
  predicate AnyStored(outcomes: seq<AttemptOutcome>, n: nat)
    requires n <= |outcomes|
  {
    exists j | 0 <= j < n :: !outcomes[j].UploadFailed?
  }

  /** The backoff before attempt a + 1: `RETRY_DELAY * 2**a`. */
  function UploadBackoff(m: nat): (r: seq<nat>)
    ensures |r| == m
    ensures forall a | 0 <= a < m :: r[a] == RetryDelay * Pow2(a)
  {
    seq(m, a requires 0 <= a => RetryDelay * Pow2(a))
  }

  lemma UploadBackoffSnoc(m: nat)
    ensures UploadBackoff(m + 1) == UploadBackoff(m) + [RetryDelay * Pow2(m)]
  {
    var a, b := UploadBackoff(m + 1), UploadBackoff(m) + [RetryDelay * Pow2(m)];
    assert forall k | 0 <= k < m + 1 :: a[k] == b[k];
  }

  /** What `_upload_with_retry` returns: the public URL after the first success, else the third error. */
  function UploadResult(bucketName: string, filename: string, outcomes: seq<AttemptOutcome>): (r: Result<string, string>)
    requires |outcomes| >= MaxRetries
    ensures r.Ok? <==> exists j | 0 <= j < MaxRetries :: outcomes[j] == Uploaded
    ensures r.Ok? ==> r.value == BlobPublicUrl(bucketName, filename)
    ensures r.Err? ==> StartsWith(r.error, "Failed to upload after 3 attempts: ")
  {
    match FirstUpload(outcomes, MaxRetries)
    case Some(_) => Ok(BlobPublicUrl(bucketName, filename))
    case None => Err("Failed to upload after 3 attempts: " + outcomes[MaxRetries - 1].error)
  }

  /**
   * The bucket after `_upload_with_retry`: a success leaves a public object; an
   * attempt that stored the data but failed to publish it leaves a private one.
   */
  function UploadEffect(objects: map<string, StoredBlob>, filename: string, data: seq<byte>,
                        contentType: string, outcomes: seq<AttemptOutcome>): map<string, StoredBlob>
    requires |outcomes| >= MaxRetries
  {
    match FirstUpload(outcomes, MaxRetries)
    case Some(_) => objects[filename := StoredBlob(data, contentType, true)]
    case None =>
      if AnyStored(outcomes, MaxRetries) then objects[filename := StoredBlob(data, contentType, false)]
      else objects
  }

  /**
   * An upload touches no other object; a success leaves the data public under
   * the name, and a failure leaves it private exactly when some attempt got as
   * far as storing it.
   */
  lemma UploadEffectPublicIffOk(objects: map<string, StoredBlob>, filename: string, data: seq<byte>,
                                contentType: string, outcomes: seq<AttemptOutcome>, bucketName: string)
    requires |outcomes| >= MaxRetries
    ensures var after := UploadEffect(objects, filename, data, contentType, outcomes);
      (forall other | other != filename :: (other in after <==> other in objects)
                                           && (other in objects ==> after[other] == objects[other]))
      && (UploadResult(bucketName, filename, outcomes).Ok? ==>
            filename in after && after[filename] == StoredBlob(data, contentType, true))
      && (UploadResult(bucketName, filename, outcomes).Err? ==>
            after == if exists j | 0 <= j < MaxRetries :: outcomes[j].PublishFailed?
                     then objects[filename := StoredBlob(data, contentType, false)]
                     else objects)
  {
    match FirstUpload(outcomes, MaxRetries)
    case Some(k) =>
    case None =>
      if AnyStored(outcomes, MaxRetries) {
        var j :| 0 <= j < MaxRetries && !outcomes[j].UploadFailed?;
        assert outcomes[j].PublishFailed?;
      }
  }

  class StorageService {
    /** `settings.storage_bucket`, the bucket `get_bucket` opens. */
    const bucketName: string
    /** The bucket's objects by name. */
    var objects: map<string, StoredBlob>

    constructor(bucketName: string, objects: map<string, StoredBlob>)
      requires |bucketName| > 0
      ensures this.bucketName == bucketName && this.objects == objects
    {
      this.bucketName := bucketName;
      this.objects := objects;
    }

    /** `file_exists`. */
    function FileExists(filename: string): (r: bool)
      reads this
      ensures r <==> filename in objects
    {
      filename in objects
    }

    /**
     * `_upload_with_retry`: `outcomes[a]` is what attempt `a` did. The first
     * success returns the object's public URL; the third failure is reported
     * with its error.
     */
    method UploadWithRetry(data: seq<byte>, filename: string, contentType: string, outcomes: seq<AttemptOutcome>)
      returns (r: Result<string, string>, attempts: nat, sleeps: seq<nat>)
      requires |outcomes| >= MaxRetries
      modifies this
      ensures match FirstUpload(outcomes, MaxRetries)
        case Some(k) => r == Ok(BlobPublicUrl(bucketName, filename)) && attempts == k + 1
        case None =>
          r == Err("Failed to upload after 3 attempts: " + outcomes[MaxRetries - 1].error) && attempts == MaxRetries
      ensures sleeps == UploadBackoff(attempts - 1)
      ensures r == UploadResult(bucketName, filename, outcomes)
      ensures objects == UploadEffect(old(objects), filename, data, contentType, outcomes)
    {
      sleeps := [];
      attempts := 0;
      var attempt := 0;
      while attempt < MaxRetries
        invariant 0 <= attempt < MaxRetries && attempts == attempt
        invariant FirstUpload(outcomes, attempt).None?
        invariant sleeps == UploadBackoff(attempt)
        invariant objects == if AnyStored(outcomes, attempt)
                             then old(objects)[filename := StoredBlob(data, contentType, false)]
                             else old(objects)
      {
        attempts := attempts + 1;
        match outcomes[attempt] {
        case Uploaded =>
          objects := objects[filename := StoredBlob(data, contentType, true)];
          r := Ok(BlobPublicUrl(bucketName, filename));
          assert FirstUpload(outcomes, attempt + 1) == Some(attempt);
          FirstUploadExtends(outcomes, attempt + 1, MaxRetries);
          return;
        case UploadFailed(e) =>
          if attempt == MaxRetries - 1 {
            r := Err("Failed to upload after 3 attempts: " + e);
            return;
          }
        case PublishFailed(e) =>
          objects := objects[filename := StoredBlob(data, contentType, false)];
          assert !outcomes[attempt].UploadFailed?;
          if attempt == MaxRetries - 1 {
            r := Err("Failed to upload after 3 attempts: " + e);
            return;
          }
        }
        UploadBackoffSnoc(attempt);
        sleeps := sleeps + [RetryDelay * Pow2(attempt)];
        attempt := attempt + 1;
      }
      // the final `raise Exception("Unreachable code")` is indeed unreachable
      assert false;
    }

    /** `upload_image`: the whitelist is checked before any attempt. */
    method UploadImage(data: seq<byte>, contentType: string, now: DateTime, uuidText: string,
                       outcomes: seq<AttemptOutcome>)
      returns (r: Result<string, string>)
      requires |outcomes| >= MaxRetries
      modifies this
      ensures contentType !in SupportedImageFormats ==>
        r == Err("Unsupported image format: " + contentType) && objects == old(objects)
      ensures contentType in SupportedImageFormats ==>
        var name := UniqueFilename("image", ImageExtension(contentType).value, now, uuidText);
        r == UploadResult(bucketName, name, outcomes)
        && objects == UploadEffect(old(objects), name, data, contentType, outcomes)
    {
      if contentType !in SupportedImageFormats {
        return Err("Unsupported image format: " + contentType);
      }
      var extension := ImageExtension(contentType).value;
      var filename := UniqueFilename("image", extension, now, uuidText);
      var attempts, sleeps;
      r, attempts, sleeps := UploadWithRetry(data, filename, contentType, outcomes);
    }

    /** `upload_video`: only video/mp4, stored with extension mp4. */
    method UploadVideo(data: seq<byte>, contentType: string, now: DateTime, uuidText: string,
                       outcomes: seq<AttemptOutcome>)
      returns (r: Result<string, string>)
      requires |outcomes| >= MaxRetries
      modifies this
      ensures contentType !in SupportedVideoFormats ==>
        r == Err("Unsupported video format: " + contentType) && objects == old(objects)
      ensures contentType in SupportedVideoFormats ==>
        var name := UniqueFilename("video", "mp4", now, uuidText);
        r == UploadResult(bucketName, name, outcomes)
        && objects == UploadEffect(old(objects), name, data, contentType, outcomes)
    {
      if contentType !in SupportedVideoFormats {
        return Err("Unsupported video format: " + contentType);
      }
      var filename := UniqueFilename("video", "mp4", now, uuidText);
      var attempts, sleeps;
      r, attempts, sleeps := UploadWithRetry(data, filename, contentType, outcomes);
    }

    /**
     * `delete_file`: true when the object was removed; false, with the bucket
     * unchanged, when the SDK raised (`fault`) or the object does not exist.
     */
    method DeleteFile(filename: string, fault: Option<string>) returns (ok: bool)
      modifies this
      ensures ok <==> fault.None? && filename in old(objects)
      ensures objects == if ok then old(objects) - {filename} else old(objects)
    {
      if fault.Some? || filename !in objects {
        return false;
      }
      objects := objects - {filename};
      return true;
    }
  }

  /** Creating the storage client: an empty bucket setting is refused. */
  method NewStorageService(bucketName: string, objects: map<string, StoredBlob>) returns (r: Result<StorageService, string>)
    ensures r.Err? <==> bucketName == ""
    ensures r.Err? ==> r.error == "STORAGE_BUCKET environment variable is required"
    ensures r.Ok? ==> fresh(r.value) && r.value.bucketName == bucketName && r.value.objects == objects
  {
    if bucketName == "" {
      return Err("STORAGE_BUCKET environment variable is required");
    }
    var s := new StorageService(bucketName, objects);
    return Ok(s);
  }
}
