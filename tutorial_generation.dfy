/**
 * Tutorial assembly and progress tracking on the storage bucket
 * (apps/api/app/services/tutorial_generation.py).
 *
 * The bucket is a value: each JSON document the service reads back is a
 * record whose keys may be absent (Option fields), and media objects map
 * object names to their content. The AI calls, the image download, the
 * uuid and the clock are parameters.
 */
module TutorialGeneration {
  import opened Wrappers
  import opened Text
  import Storage
  import TutorialStructure
  import opened ResponseModels

  /** Decoded image content; the JPEG re-encoding is not modelled. */
  type Image = seq<byte>

  /** `tutorials/{id}/metadata.json`; every key is optional when read back. */
  datatype TutorialMetadata = TutorialMetadata(
    tutorialId: Option<string>, title: Option<string>, description: Option<string>,
    totalSteps: Option<int>, originalImageUrl: Option<string>, rawDescription: Option<string>,
    createdAt: Option<string>, status: Option<string>)

  /** `tutorials/{id}/step_{n}/metadata.json`. */
  datatype StepMetadata = StepMetadata(
    stepNumber: Option<int>, title: Option<string>, description: Option<string>,
    tools: Option<seq<string>>, createdAt: Option<string>)

  /** `tutorials/{id}/step_{n}/status.json`, written by the video worker. */
  datatype StatusDoc = StatusDoc(status: Option<string>, errorMessage: Option<string>)

  datatype Media = Jpeg(image: Image) | Mp4

  /** The objects of the storage bucket, by kind of document. */
  datatype Bucket = Bucket(
    metadata: map<string, TutorialMetadata>,
    stepMetadata: map<string, StepMetadata>,
    statuses: map<string, StatusDoc>,
    media: map<string, Media>)

  /** `d.get(key, default)` on a parsed document. */
  function ValueOr<T>(o: Option<T>, default: T): T {
    match o
    case Some(v) => v
    case None => default
  }

  // ---------------------------------------------------------------------
  // Storage paths

  function TutorialDir(id: string): string {
    "tutorials/" + id + "/"
  }

  function MetadataPath(id: string): string {
    TutorialDir(id) + "metadata.json"
  }

  function OriginalPath(id: string): string {
    TutorialDir(id) + "original.jpg"
  }

  /** `tutorials/{id}/step_{n}/{file}`. */
  function StepPath(id: string, n: int, file: string): string {
    TutorialDir(id) + "step_" + IntToString(n) + "/" + file
  }

  const ImageFile := "image.jpg"
  const VideoFile := "video.mp4"
  const StepMetadataFile := "metadata.json"
  const StatusFile := "status.json"

  lemma NoSlashInNumber(n: nat)
    ensures '/' !in IntToString(n)
  {
    var s := IntToString(n);
    forall i | 0 <= i < |s| ensures s[i] != '/' {
      assert IsDigit(s[i]);
    }
  }

  lemma StepPathParts(id: string, n: int, f: string)
    ensures StepPath(id, n, f) == (TutorialDir(id) + "step_") + (IntToString(n) + "/" + f)
  {
  }

  /** A step path names one step and one file: distinct steps or files never share an object. */
  lemma StepPathsDistinct(id: string, n: nat, m: nat, f: string, g: string)
    ensures StepPath(id, n, f) == StepPath(id, m, g) <==> n == m && f == g
  {
    if StepPath(id, n, f) == StepPath(id, m, g) {
      var head := TutorialDir(id) + "step_";
      StepPathParts(id, n, f);
      StepPathParts(id, m, g);
      NoSlashInNumber(n);
      NoSlashInNumber(m);
      JoinedInjective(head, IntToString(n), '/', f, IntToString(m), g);
      NatToStringInjective(n, m);
    }
  }

  /** The copy of the original image never shares a name with a step object. */
  lemma OriginalIsNoStepPath(id: string, n: int, f: string)
    ensures OriginalPath(id) != StepPath(id, n, f)
  {
    var k := |TutorialDir(id)|;
    assert OriginalPath(id)[k] == 'o';
    assert StepPath(id, n, f)[k] == 's';
  }

  // ---------------------------------------------------------------------
  // check_tutorial_status

  datatype StepStatus = Pending | Processing | Completed | Failed

  datatype StepStatusInfo = StepStatusInfo(
    stepNumber: int, status: StepStatus, videoUrl: Option<string>, errorMessage: Option<string>)

  datatype OverallStatus = AllCompleted | PartiallyCompleted | AllFailed | InProgress

  /** The overall status as the response spells it. */
  function OverallText(s: OverallStatus): string {
    match s
    case AllCompleted => "completed"
    case PartiallyCompleted => "partially_completed"
    case AllFailed => "failed"
    case InProgress => "processing"
  }

  datatype TutorialStatusResponse = TutorialStatusResponse(
    tutorialId: string, status: OverallStatus, progress: int,
    steps: seq<StepStatusInfo>, createdAt: string, updatedAt: string)

  function NotFound(id: string): string {
    "Tutorial " + id + " not found"
  }

  const StatusFailurePrefix := "Failed to check tutorial status: "

  /** The status of step `n`, read from the bucket. */
  function StepState(b: Bucket, id: string, bucketName: string, n: int): StepStatusInfo
  {
    var statusPath := StepPath(id, n, StatusFile);
    var videoPath := StepPath(id, n, VideoFile);
    var videoUrl := Storage.BlobPublicUrl(bucketName, videoPath);
    if statusPath in b.statuses then
      var doc := b.statuses[statusPath];
      if doc.status == Some("completed") then StepStatusInfo(n, Completed, Some(videoUrl), doc.errorMessage)
      else if doc.status == Some("failed") then StepStatusInfo(n, Failed, None, doc.errorMessage)
      else StepStatusInfo(n, Processing, None, doc.errorMessage)
    else if videoPath in b.media then StepStatusInfo(n, Completed, Some(videoUrl), None)
    else StepStatusInfo(n, Pending, None, None)
  }

  /** The per-step decision: the worker's status file wins; without one, an existing video means done. */
  lemma StepStateMeaning(b: Bucket, id: string, bucketName: string, n: int)
    ensures StepState(b, id, bucketName, n).stepNumber == n
    ensures StepState(b, id, bucketName, n).status == Completed <==>
      (if StepPath(id, n, StatusFile) in b.statuses
       then b.statuses[StepPath(id, n, StatusFile)].status == Some("completed")
       else StepPath(id, n, VideoFile) in b.media)
    ensures StepState(b, id, bucketName, n).videoUrl.Some? <==> StepState(b, id, bucketName, n).status == Completed
    ensures StepState(b, id, bucketName, n).videoUrl.Some? ==> StepState(b, id, bucketName, n).videoUrl.value == Storage.BlobPublicUrl(bucketName, StepPath(id, n, VideoFile))
    ensures StepState(b, id, bucketName, n).status == Pending <==> StepPath(id, n, StatusFile) !in b.statuses && StepPath(id, n, VideoFile) !in b.media
    ensures StepState(b, id, bucketName, n).errorMessage.Some? ==> StepPath(id, n, StatusFile) in b.statuses
  {
  }

  /** The states of steps 1..k, in order. */
  function StepStates(b: Bucket, id: string, bucketName: string, k: nat): (r: seq<StepStatusInfo>)
    ensures |r| == k
    ensures forall i | 0 <= i < k :: r[i] == StepState(b, id, bucketName, i + 1)
  {
    seq(k, i requires 0 <= i < k => StepState(b, id, bucketName, i + 1))
  }

  /** How many of `steps` are in state `s`. */
  function CountStatus(steps: seq<StepStatusInfo>, s: StepStatus): nat {
    if |steps| == 0 then 0
    else CountStatus(steps[..|steps| - 1], s) + (if steps[|steps| - 1].status == s then 1 else 0)
  }

  /** `int(completed / total * 100)`, or 0 without steps. */
  function Progress(completed: int, total: int): int {
    if total > 0 then completed * 100 / total else 0
  }

  /** The overall status, decided in the source's order. */
  function Overall(completed: int, failed: int, total: int): OverallStatus {
    if completed == total then AllCompleted
    else if failed > 0 && completed > 0 then PartiallyCompleted
    else if failed == total then AllFailed
    else InProgress
  }

  /** `range(1, total + 1)` has max(total, 0) elements. */
  function StepCount(total: int): nat {
    if total > 0 then total else 0
  }

  /** What `check_tutorial_status` returns or raises, `now` being the clock's reading. */
  function StatusOutcome(b: Bucket, id: string, bucketName: string, now: string)
    : Result<TutorialStatusResponse, string>
  {
    if MetadataPath(id) !in b.metadata then Err(StatusFailurePrefix + NotFound(id))
    else
      var meta := b.metadata[MetadataPath(id)];
      var total := ValueOr(meta.totalSteps, 0);
      var steps := StepStates(b, id, bucketName, StepCount(total));
      var completed := CountStatus(steps, Completed);
      var failed := CountStatus(steps, Failed);
      Ok(TutorialStatusResponse(id, Overall(completed, failed, total), Progress(completed, total),
                                steps, ValueOr(meta.createdAt, ""), now))
  }

  lemma StepStatesSnoc(b: Bucket, id: string, bucketName: string, k: nat)
    ensures StepStates(b, id, bucketName, k + 1) == StepStates(b, id, bucketName, k) + [StepState(b, id, bucketName, k + 1)]
    ensures StepStates(b, id, bucketName, k + 1)[..k] == StepStates(b, id, bucketName, k)
  {
  }

  /** `check_tutorial_status`: one pass over the steps, counting completed and failed ones. */
  method CheckTutorialStatus(b: Bucket, id: string, bucketName: string, now: string)
    returns (r: Result<TutorialStatusResponse, string>)
    ensures r == StatusOutcome(b, id, bucketName, now)
  {
    if MetadataPath(id) !in b.metadata {
      return Err(StatusFailurePrefix + NotFound(id));
    }
    var meta := b.metadata[MetadataPath(id)];
    var total := ValueOr(meta.totalSteps, 0);
    var steps: seq<StepStatusInfo> := [];
    var completed, failed := 0, 0;
    var n := 1;
    while n <= total
      invariant 1 <= n <= StepCount(total) + 1
      invariant steps == StepStates(b, id, bucketName, n - 1)
      invariant completed == CountStatus(steps, Completed)
      invariant failed == CountStatus(steps, Failed)
    {
      var info := StepState(b, id, bucketName, n);
      StepStatesSnoc(b, id, bucketName, n - 1);
      if info.status == Completed {
        completed := completed + 1;
      } else if info.status == Failed {
        failed := failed + 1;
      }
      steps := steps + [info];
      n := n + 1;
    }
    assert n - 1 == StepCount(total);
    var progress := Progress(completed, total);
    var overall := Overall(completed, failed, total);
    r := Ok(TutorialStatusResponse(id, overall, progress, steps, ValueOr(meta.createdAt, ""), now));
  }

  lemma {:induction false} CountsBounded(steps: seq<StepStatusInfo>)
    ensures CountStatus(steps, Completed) + CountStatus(steps, Failed) <= |steps|
  {
    if |steps| > 0 {
      CountsBounded(steps[..|steps| - 1]);
    }
  }

  /** Every step is in state `s` exactly when all of them are counted. */
  lemma {:induction false} CountAll(steps: seq<StepStatusInfo>, s: StepStatus)
    ensures CountStatus(steps, s) <= |steps|
    ensures CountStatus(steps, s) == |steps| <==> forall i | 0 <= i < |steps| :: steps[i].status == s
  {
    if |steps| > 0 {
      var init := steps[..|steps| - 1];
      CountAll(init, s);
      assert forall i | 0 <= i < |init| :: init[i] == steps[i];
    }
  }

  /** Some step is in state `s` exactly when the count is positive. */
  lemma {:induction false} CountSome(steps: seq<StepStatusInfo>, s: StepStatus)
    ensures CountStatus(steps, s) > 0 <==> exists i | 0 <= i < |steps| :: steps[i].status == s
  {
    if |steps| > 0 {
      var init := steps[..|steps| - 1];
      CountSome(init, s);
      assert forall i | 0 <= i < |init| :: init[i] == steps[i];
    }
  }

  /** A product with a positive factor is positive only when the other factor is. */
  lemma PositiveFactor(k: int, t: int)
    requires t > 0 && k * t > 0
    ensures k > 0
  {
  }

  /** A multiple of a positive number below that number is zero. */
  lemma SmallMultiple(k: int, t: int)
    requires t > 0 && 0 <= k * t < t
    ensures k == 0
  {
  }

  /** Progress lies in 0..100 and reaches 100 exactly when every step is complete. */
  lemma ProgressBounds(completed: int, total: int)
    requires 0 <= completed <= total || total <= 0 <= completed
    ensures 0 <= Progress(completed, total) <= 100
    ensures total == 0 ==> Progress(completed, total) == 0
    ensures total > 0 ==> (Progress(completed, total) == 100 <==> completed == total)
  {
    if total > 0 {
      var a := completed * 100;
      var q, r := a / total, a % total;
      assert a == q * total + r && 0 <= r < total;
      assert (q + 1) * total == q * total + total;
      PositiveFactor(q + 1, total);
      if completed < total {
        assert (100 - q) * total == 100 * total - q * total;
        PositiveFactor(100 - q, total);
      } else {
        assert (100 - q) * total == r;
        SmallMultiple(100 - q, total);
      }
    }
  }

  /** The overall status is read off the steps: all done, all failed, a mix of both, or still running. */
  lemma OverallMeaning(steps: seq<StepStatusInfo>)
    ensures var c, f := CountStatus(steps, Completed), CountStatus(steps, Failed);
      var o := Overall(c, f, |steps|);
      && (o == AllCompleted <==> forall i | 0 <= i < |steps| :: steps[i].status == Completed)
      && (o == AllFailed <==> |steps| > 0 && forall i | 0 <= i < |steps| :: steps[i].status == Failed)
      && (o == PartiallyCompleted <==>
            (exists i | 0 <= i < |steps| :: steps[i].status == Completed)
            && (exists i | 0 <= i < |steps| :: steps[i].status == Failed))
  {
    CountAll(steps, Completed);
    CountAll(steps, Failed);
    CountSome(steps, Completed);
    CountSome(steps, Failed);
    CountsBounded(steps);
  }

  /**
   * The status report: a missing tutorial is reported wrapped; otherwise one
   * entry per step numbered 1..N in order, counts within the total, and a
   * progress of 100 exactly when every step is complete.
   */
  lemma StatusReport(b: Bucket, id: string, bucketName: string, now: string)
    ensures var r := StatusOutcome(b, id, bucketName, now);
      && (r.Err? <==> MetadataPath(id) !in b.metadata)
      && (r.Err? ==> r.error == "Failed to check tutorial status: Tutorial " + id + " not found")
      && (r.Ok? ==>
            var total := ValueOr(b.metadata[MetadataPath(id)].totalSteps, 0);
            var steps := r.value.steps;
            && |steps| == StepCount(total)
            && (forall i | 0 <= i < |steps| :: steps[i].stepNumber == i + 1)
            && CountStatus(steps, Completed) + CountStatus(steps, Failed) <= |steps|
            && 0 <= r.value.progress <= 100
            && (total > 0 ==> (r.value.progress == 100 <==>
                                 forall i | 0 <= i < |steps| :: steps[i].status == Completed))
            && (total <= 0 ==> r.value.progress == 0))
  {
    var r := StatusOutcome(b, id, bucketName, now);
    if r.Ok? {
      var total := ValueOr(b.metadata[MetadataPath(id)].totalSteps, 0);
      var steps := StepStates(b, id, bucketName, StepCount(total));
      assert r.value.steps == steps;
      assert r.value.progress == Progress(CountStatus(steps, Completed), total);
      forall i | 0 <= i < |steps| ensures steps[i].stepNumber == i + 1 {
        StepStateMeaning(b, id, bucketName, i + 1);
      }
      CountsBounded(steps);
      CountAll(steps, Completed);
      ProgressBounds(CountStatus(steps, Completed), total);
    }
  }

  // ---------------------------------------------------------------------
  // get_tutorial

  /** A step before `TutorialStep` validates it; a URL is absent when its object is. */
  datatype StepDraft = StepDraft(
    stepNumber: int, title: string, description: string,
    imageUrl: Option<string>, videoUrl: Option<string>, tools: seq<string>)

  /** The public URL of an object, when the object exists. */
  function UrlIfStored(b: Bucket, bucketName: string, path: string): Option<string> {
    if path in b.media then Some(Storage.BlobPublicUrl(bucketName, path)) else None
  }

  function DefaultTitle(n: int): string {
    "Step " + IntToString(n)
  }

  /** Step `n` as `get_tutorial` reads it back: stored media and step metadata, with defaults. */
  function ReadStep(b: Bucket, id: string, bucketName: string, n: int): StepDraft {
    var imageUrl := UrlIfStored(b, bucketName, StepPath(id, n, ImageFile));
    var videoUrl := UrlIfStored(b, bucketName, StepPath(id, n, VideoFile));
    var metaPath := StepPath(id, n, StepMetadataFile);
    if metaPath in b.stepMetadata then
      var m := b.stepMetadata[metaPath];
      StepDraft(n, ValueOr(m.title, DefaultTitle(n)), ValueOr(m.description, ""),
                imageUrl, videoUrl, ValueOr(m.tools, []))
    else StepDraft(n, DefaultTitle(n), "", imageUrl, videoUrl, [])
  }

  /** Steps 1..k as read back, in order. */
  function ReadSteps(b: Bucket, id: string, bucketName: string, k: nat): (r: seq<StepDraft>)
    ensures |r| == k
    ensures forall i | 0 <= i < k :: r[i] == ReadStep(b, id, bucketName, i + 1)
  {
    seq(k, i requires 0 <= i < k => ReadStep(b, id, bucketName, i + 1))
  }

  /** The URLs a step reads back are those of its own objects, present exactly when the objects are. */
  lemma ReadStepMeaning(b: Bucket, id: string, bucketName: string, n: int)
    ensures var d := ReadStep(b, id, bucketName, n);
      && d.stepNumber == n
      && (d.imageUrl.Some? <==> StepPath(id, n, ImageFile) in b.media)
      && (d.imageUrl.Some? ==> d.imageUrl.value == Storage.BlobPublicUrl(bucketName, StepPath(id, n, ImageFile)))
      && (d.videoUrl.Some? <==> StepPath(id, n, VideoFile) in b.media)
      && (d.videoUrl.Some? ==> d.videoUrl.value == Storage.BlobPublicUrl(bucketName, StepPath(id, n, VideoFile)))
      && (StepPath(id, n, StepMetadataFile) !in b.stepMetadata ==>
            d.title == "Step " + IntToString(n) && d.description == "" && d.tools == [])
  {
  }

  /** Pydantic's message for a required `str` field given None. */
  const NotAString := "Input should be a valid string"

  /** `TutorialStep(...)` on a draft: an absent URL is not a string, and a present one must be http(s). */
  function StepOf(d: StepDraft): (r: Result<TutorialStep, string>)
    ensures r.Ok? <==> d.imageUrl.Some? && d.videoUrl.Some? && d.stepNumber > 0
                       && HasWebScheme(d.imageUrl.value) && HasWebScheme(d.videoUrl.value)
    ensures r.Ok? ==> r.value == TutorialStep(d.stepNumber, d.title, d.description,
                                              d.imageUrl.value, d.videoUrl.value, d.tools)
  {
    if d.imageUrl.None? || d.videoUrl.None? then Err(NotAString)
    else MakeTutorialStep(d.stepNumber, d.title, d.description, d.imageUrl.value, d.videoUrl.value, d.tools)
  }

  /** Validating the drafts in order; the first rejected one ends the loop with its error. */
  function StepsOf(ds: seq<StepDraft>): Result<seq<TutorialStep>, string> {
    if |ds| == 0 then Ok([])
    else
      match StepsOf(ds[..|ds| - 1])
      case Err(e) => Err(e)
      case Ok(steps) =>
        match StepOf(ds[|ds| - 1])
        case Err(e) => Err(e)
        case Ok(step) => Ok(steps + [step])
  }

  /** All drafts validate or the first failure's error is returned; validated steps keep their order. */
  lemma {:induction false} StepsOfMeaning(ds: seq<StepDraft>)
    ensures StepsOf(ds).Ok? <==> forall i | 0 <= i < |ds| :: StepOf(ds[i]).Ok?
    ensures StepsOf(ds).Ok? ==>
      |StepsOf(ds).value| == |ds| && forall i | 0 <= i < |ds| :: StepsOf(ds).value[i] == StepOf(ds[i]).value
    ensures StepsOf(ds).Err? ==>
      exists i | 0 <= i < |ds| :: StepOf(ds[i]) == Err(StepsOf(ds).error) && forall j | 0 <= j < i :: StepOf(ds[j]).Ok?
  {
    if |ds| > 0 {
      var init := ds[..|ds| - 1];
      StepsOfMeaning(init);
      assert forall i | 0 <= i < |init| :: init[i] == ds[i];
      if StepsOf(init).Err? {
        var i :| 0 <= i < |init| && StepOf(init[i]) == Err(StepsOf(init).error) && forall j | 0 <= j < i :: StepOf(init[j]).Ok?;
        assert StepOf(ds[i]) == Err(StepsOf(ds).error);
      }
    }
  }

  /** Once a prefix fails, later drafts are never looked at. */
  lemma {:induction false} StepsOfStops(ds: seq<StepDraft>, k: nat)
    requires k <= |ds| && StepsOf(ds[..k]).Err?
    ensures StepsOf(ds) == StepsOf(ds[..k])
    decreases |ds| - k
  {
    if k < |ds| {
      var init := ds[..|ds| - 1];
      assert init[..k] == ds[..k];
      StepsOfStops(init, k);
    } else {
      assert ds[..k] == ds;
    }
  }

  /** What `get_tutorial` returns or raises; a validation error passes through unwrapped. */
  function ReadOutcome(b: Bucket, id: string, bucketName: string): Result<TutorialResponse, string> {
    if MetadataPath(id) !in b.metadata then Err(NotFound(id))
    else
      var meta := b.metadata[MetadataPath(id)];
      var total := ValueOr(meta.totalSteps, 0);
      match StepsOf(ReadSteps(b, id, bucketName, StepCount(total)))
      case Err(e) => Err(e)
      case Ok(steps) =>
        MakeTutorialResponse(id, ValueOr(meta.title, "Tutorial"), ValueOr(meta.description, ""), total, steps)
  }

  /** `get_tutorial`: reads the steps back one by one, building each `TutorialStep` as it goes. */
  method GetTutorial(b: Bucket, id: string, bucketName: string) returns (r: Result<TutorialResponse, string>)
    ensures r == ReadOutcome(b, id, bucketName)
  {
    if MetadataPath(id) !in b.metadata {
      return Err(NotFound(id));
    }
    var meta := b.metadata[MetadataPath(id)];
    var total := ValueOr(meta.totalSteps, 0);
    ghost var drafts := ReadSteps(b, id, bucketName, StepCount(total));
    var steps: seq<TutorialStep> := [];
    var n := 1;
    while n <= total
      invariant 1 <= n <= StepCount(total) + 1
      invariant StepsOf(drafts[..n - 1]) == Ok(steps)
    {
      var step := StepOf(ReadStep(b, id, bucketName, n));
      assert drafts[..n][..n - 1] == drafts[..n - 1];
      if step.Err? {
        StepsOfStops(drafts, n);
        return Err(step.error);
      }
      steps := steps + [step.value];
      n := n + 1;
    }
    assert drafts[..n - 1] == drafts;
    r := MakeTutorialResponse(id, ValueOr(meta.title, "Tutorial"), ValueOr(meta.description, ""), total, steps);
  }

  lemma PublicUrlIsHttps(bucketName: string, path: string)
    ensures HasWebScheme(Storage.BlobPublicUrl(bucketName, path))
  {
    var v := Storage.BlobPublicUrl(bucketName, path);
    assert v == "https://" + (Storage.StorageHost + "/" + bucketName + "/" + path);
    assert v[..8] == "https://";
  }

  /**
   * `get_tutorial` succeeds exactly when the metadata exists, counts at least
   * one step, and every step has both its image and its video; it then holds
   * the steps 1..N with their own image URLs. A missing tutorial is reported
   * unwrapped.
   */
  lemma GetTutorialMeaning(b: Bucket, id: string, bucketName: string)
    ensures var r := ReadOutcome(b, id, bucketName);
      && (MetadataPath(id) !in b.metadata ==> r == Err("Tutorial " + id + " not found"))
      && (r.Ok? <==>
            MetadataPath(id) in b.metadata
            && var total := ValueOr(b.metadata[MetadataPath(id)].totalSteps, 0);
               && total > 0
               && forall n | 1 <= n <= total ::
                    StepPath(id, n, ImageFile) in b.media && StepPath(id, n, VideoFile) in b.media)
      && (r.Ok? ==>
            && ValidResponse(r.value)
            && forall i | 0 <= i < |r.value.steps| ::
                 r.value.steps[i].stepNumber == i + 1
                 && r.value.steps[i].imageUrl == Storage.BlobPublicUrl(bucketName, StepPath(id, i + 1, ImageFile))
                 && r.value.steps[i].videoUrl == Storage.BlobPublicUrl(bucketName, StepPath(id, i + 1, VideoFile)))
  {
    if MetadataPath(id) in b.metadata {
      var total := ValueOr(b.metadata[MetadataPath(id)].totalSteps, 0);
      var drafts := ReadSteps(b, id, bucketName, StepCount(total));
      StepsOfMeaning(drafts);
      forall i | 0 <= i < |drafts|
        ensures StepOf(drafts[i]).Ok? <==>
          StepPath(id, i + 1, ImageFile) in b.media && StepPath(id, i + 1, VideoFile) in b.media
        ensures StepOf(drafts[i]).Ok? ==>
          && StepOf(drafts[i]).value.stepNumber == i + 1
          && StepOf(drafts[i]).value.imageUrl == Storage.BlobPublicUrl(bucketName, StepPath(id, i + 1, ImageFile))
          && StepOf(drafts[i]).value.videoUrl == Storage.BlobPublicUrl(bucketName, StepPath(id, i + 1, VideoFile))
      {
        ReadStepValid(b, id, bucketName, i + 1);
      }
      if total > 0 && forall n | 1 <= n <= total ::
                        StepPath(id, n, ImageFile) in b.media && StepPath(id, n, VideoFile) in b.media {
        assert forall i | 0 <= i < |drafts| :: StepOf(drafts[i]).Ok?;
      }
      if ReadOutcome(b, id, bucketName).Ok? {
        forall n | 1 <= n <= total
          ensures StepPath(id, n, ImageFile) in b.media && StepPath(id, n, VideoFile) in b.media
        {
          assert StepOf(drafts[n - 1]).Ok?;
        }
        assert ReadOutcome(b, id, bucketName).value.steps == StepsOf(drafts).value;
      }
    }
  }

  /** A step read back validates exactly when both its image and its video exist. */
  lemma ReadStepValid(b: Bucket, id: string, bucketName: string, n: int)
    requires n >= 1
    ensures var step := StepOf(ReadStep(b, id, bucketName, n));
      && (step.Ok? <==> StepPath(id, n, ImageFile) in b.media && StepPath(id, n, VideoFile) in b.media)
      && (step.Ok? ==>
            && step.value.stepNumber == n
            && step.value.imageUrl == Storage.BlobPublicUrl(bucketName, StepPath(id, n, ImageFile))
            && step.value.videoUrl == Storage.BlobPublicUrl(bucketName, StepPath(id, n, VideoFile)))
  {
    ReadStepMeaning(b, id, bucketName, n);
    PublicUrlIsHttps(bucketName, StepPath(id, n, ImageFile));
    PublicUrlIsHttps(bucketName, StepPath(id, n, VideoFile));
  }

  // ---------------------------------------------------------------------
  // generate_tutorial

  /** The reply to the image download: an HTTP status with its body, or a transport or decoding failure. */
  datatype DownloadOutcome = Response(statusCode: int, body: Image) | FetchFailed(message: string)

  const DownloadPrefix := "Failed to download image: "

  /** `_download_image`: its own handler re-wraps the non-200 error, so that message carries the prefix twice. */
  function DownloadResult(d: DownloadOutcome): (r: Result<Image, string>)
    ensures r.Ok? <==> d.Response? && d.statusCode == 200
    ensures r.Ok? ==> r.value == d.body
    ensures r.Err? ==> StartsWith(r.error, DownloadPrefix)
  {
    match d
    case Response(code, body) =>
      if code != 200 then
        var e := DownloadPrefix + IntToString(code);
        Framed(DownloadPrefix, e, []);
        Err(DownloadPrefix + e)
      else Ok(body)
    case FetchFailed(m) =>
      Framed(DownloadPrefix, m, []);
      Err(DownloadPrefix + m)
  }

  const GenerationPrefix := "Tutorial generation failed: "

  /** `tutorial_{uuid4().hex[:8]}`. */
  function TutorialId(uuidHex: string): string
    requires |uuidHex| >= 8
  {
    "tutorial_" + uuidHex[..8]
  }

  /** The outcome of the image model for step `i + 1`; missing entries are failures. */
  function CompletionOf(completions: seq<Option<Image>>, i: nat): Option<Image> {
    if i < |completions| then completions[i] else None
  }

  /** The image after `k` steps: each step's completion image, or the previous image when generation failed. */
  function ChainImage(original: Image, completions: seq<Option<Image>>, k: nat): Image {
    if k == 0 then original
    else
      match CompletionOf(completions, k - 1)
      case Some(image) => image
      case None => ChainImage(original, completions, k - 1)
  }

  function StepImageUrl(bucketName: string, id: string, n: int): string {
    Storage.BlobPublicUrl(bucketName, StepPath(id, n, ImageFile))
  }

  /** The image URL step `n`'s video starts from: the previous step's image, or the original for step 1. */
  function PreviousImageUrl(bucketName: string, id: string, originalImageUrl: string, n: int): string {
    if n <= 1 then originalImageUrl else StepImageUrl(bucketName, id, n - 1)
  }

  /** The arguments of one dispatched video generation. */
  datatype VideoJob = VideoJob(imageUrl: string, instructionText: string, targetPath: string, stepNumber: int)

  /** The response step built for step `n`; its video does not exist yet. */
  function GeneratedDraft(bucketName: string, id: string, step: TutorialStructure.MakeupStep, n: int): StepDraft {
    StepDraft(n, step.title, step.description, Some(StepImageUrl(bucketName, id, n)), None, step.toolsNeeded)
  }

  function GeneratedDrafts(bucketName: string, id: string, steps: seq<TutorialStructure.MakeupStep>, k: nat)
    : (r: seq<StepDraft>)
    requires k <= |steps|
  {
    seq(k, i requires 0 <= i < k => GeneratedDraft(bucketName, id, steps[i], i + 1))
  }

  function VideoJobs(bucketName: string, id: string, originalImageUrl: string,
                     steps: seq<TutorialStructure.MakeupStep>, k: nat): (r: seq<VideoJob>)
    requires k <= |steps|
  {
    seq(k, i requires 0 <= i < k =>
      VideoJob(PreviousImageUrl(bucketName, id, originalImageUrl, i + 1),
               steps[i].description, StepPath(id, i + 1, VideoFile), i + 1))
  }

  lemma JobsAndDraftsSnoc(bucketName: string, id: string, originalImageUrl: string,
                         steps: seq<TutorialStructure.MakeupStep>, k: nat)
    requires k < |steps|
    ensures VideoJobs(bucketName, id, originalImageUrl, steps, k + 1)
            == VideoJobs(bucketName, id, originalImageUrl, steps, k)
               + [VideoJob(PreviousImageUrl(bucketName, id, originalImageUrl, k + 1),
                           steps[k].description, StepPath(id, k + 1, VideoFile), k + 1)]
    ensures GeneratedDrafts(bucketName, id, steps, k + 1)
            == GeneratedDrafts(bucketName, id, steps, k) + [GeneratedDraft(bucketName, id, steps[k], k + 1)]
  {
  }

  function StepMetadataOf(step: TutorialStructure.MakeupStep, n: int, now: string): StepMetadata {
    StepMetadata(Some(n), Some(step.title), Some(step.description), Some(step.toolsNeeded), Some(now))
  }

  /** The bucket once the first `k` steps' images and metadata are saved. */
  function SavedObjects(b: Bucket, id: string, steps: seq<TutorialStructure.MakeupStep>, original: Image,
                        completions: seq<Option<Image>>, now: string, k: nat): Bucket
    requires k <= |steps|
  {
    if k == 0 then b
    else
      var prev := SavedObjects(b, id, steps, original, completions, now, k - 1);
      prev.(media := prev.media[StepPath(id, k, ImageFile) := Jpeg(ChainImage(original, completions, k))],
            stepMetadata := prev.stepMetadata[StepPath(id, k, StepMetadataFile) := StepMetadataOf(steps[k - 1], k, now)])
  }

  function TutorialMetadataOf(id: string, p: TutorialStructure.MakeupProcedure, originalImageUrl: string,
                              rawDescription: string, now: string): TutorialMetadata {
    TutorialMetadata(Some(id), Some(p.title), Some(p.description), Some(|p.steps|),
                     Some(originalImageUrl), Some(rawDescription), Some(now), Some("processing"))
  }

  /** The bucket after a successful generation. */
  function GeneratedBucket(b: Bucket, id: string, p: TutorialStructure.MakeupProcedure, original: Image,
                           completions: seq<Option<Image>>, originalImageUrl: string,
                           rawDescription: string, now: string): Bucket
  {
    var withOriginal := b.(media := b.media[OriginalPath(id) := Jpeg(original)]);
    var saved := SavedObjects(withOriginal, id, p.steps, original, completions, now, |p.steps|);
    saved.(metadata := saved.metadata[MetadataPath(id) := TutorialMetadataOf(id, p, originalImageUrl, rawDescription, now)])
  }

  const SavePrefix := "Failed to save image to GCS: "

  /**
   * What each storage write of one generation raised, if it failed, in the
   * order they happen: saving the original, opening the bucket, each step's
   * image and metadata, and the tutorial metadata. Missing step entries
   * succeed.
   */
  datatype SaveOutcomes = SaveOutcomes(
    original: Option<string>, openBucket: Option<string>,
    stepImages: seq<Option<string>>, stepMetadata: seq<Option<string>>,
    tutorialMetadata: Option<string>)

  function ImageFault(saves: SaveOutcomes, i: nat): Option<string> {
    if i < |saves.stepImages| then saves.stepImages[i] else None
  }

  function MetadataFault(saves: SaveOutcomes, i: nat): Option<string> {
    if i < |saves.stepMetadata| then saves.stepMetadata[i] else None
  }

  /** One of step `i + 1`'s two writes fails. */
  predicate StepFails(saves: SaveOutcomes, i: nat) {
    ImageFault(saves, i).Some? || MetadataFault(saves, i).Some?
  }

  /** The first of the first `n` steps with a failed write. */
  function FirstFailedStep(saves: SaveOutcomes, n: nat): (r: Option<nat>)
    ensures r.Some? ==> r.value < n && StepFails(saves, r.value)
    ensures forall i | 0 <= i < n && (r.None? || i < r.value) :: !StepFails(saves, i)
  {
    if n == 0 then None
    else
      match FirstFailedStep(saves, n - 1)
      case Some(i) => Some(i)
      case None => if StepFails(saves, n - 1) then Some(n - 1) else None
  }

  lemma {:induction false} FirstFailedStepExtends(saves: SaveOutcomes, m: nat, n: nat)
    requires m <= n
    ensures FirstFailedStep(saves, m).Some? ==> FirstFailedStep(saves, n) == FirstFailedStep(saves, m)
    ensures FirstFailedStep(saves, n).None? ==> FirstFailedStep(saves, m).None?
  {
    if m < n {
      FirstFailedStepExtends(saves, m, n - 1);
    }
  }

  /** Opening the bucket and saving the original both succeed, so the step loop runs. */
  predicate LoopRuns(saves: SaveOutcomes) {
    saves.original.None? && saves.openBucket.None?
  }

  /**
   * The error of the first failed write that aborts a generation of `n`
   * steps: image saves go through `_save_image_to_gcs`, which re-wraps the
   * error; the others raise it as it is.
   */
  function SaveError(saves: SaveOutcomes, n: nat): Option<string> {
    if saves.original.Some? then Some(SavePrefix + saves.original.value)
    else if saves.openBucket.Some? then saves.openBucket
    else
      match FirstFailedStep(saves, n)
      case Some(i) => if ImageFault(saves, i).Some? then Some(SavePrefix + ImageFault(saves, i).value) else MetadataFault(saves, i)
      case None => None
  }

  /** How many steps have both their writes done. */
  function SavedSteps(saves: SaveOutcomes, n: nat): (r: nat)
    ensures r <= n
  {
    if !LoopRuns(saves) then 0
    else match FirstFailedStep(saves, n) case Some(i) => i case None => n
  }

  /** How many steps had their image saved, and so their video dispatched. */
  function StartedVideos(saves: SaveOutcomes, n: nat): (r: nat)
    ensures r <= n
  {
    if !LoopRuns(saves) then 0
    else
      match FirstFailedStep(saves, n)
      case Some(i) => if ImageFault(saves, i).Some? then i else i + 1
      case None => n
  }

  /** The bucket the step loop leaves: whole steps up to the first failed one, and its image when only its metadata failed. */
  function StepsBucket(b: Bucket, id: string, steps: seq<TutorialStructure.MakeupStep>, original: Image,
                       completions: seq<Option<Image>>, now: string, saves: SaveOutcomes): Bucket
  {
    match FirstFailedStep(saves, |steps|)
    case None => SavedObjects(b, id, steps, original, completions, now, |steps|)
    case Some(i) =>
      var saved := SavedObjects(b, id, steps, original, completions, now, i);
      if ImageFault(saves, i).Some? then saved
      else saved.(media := saved.media[StepPath(id, i + 1, ImageFile) := Jpeg(ChainImage(original, completions, i + 1))])
  }

  /**
   * The bucket after a generation whose structure and download succeeded:
   * every write before the first failure is done, and a failure of the
   * tutorial metadata's own write is swallowed.
   */
  function GenerationBucket(b: Bucket, id: string, p: TutorialStructure.MakeupProcedure, original: Image,
                            completions: seq<Option<Image>>, originalImageUrl: string,
                            rawDescription: string, now: string, saves: SaveOutcomes): Bucket
  {
    if saves.original.Some? then b
    else
      var withOriginal := b.(media := b.media[OriginalPath(id) := Jpeg(original)]);
      if saves.openBucket.Some? then withOriginal
      else
        var saved := StepsBucket(withOriginal, id, p.steps, original, completions, now, saves);
        if FirstFailedStep(saves, |p.steps|).Some? || saves.tutorialMetadata.Some? then saved
        else saved.(metadata := saved.metadata[MetadataPath(id) := TutorialMetadataOf(id, p, originalImageUrl, rawDescription, now)])
  }

  /** The jobs a failed step leaves: its video is dispatched only when its image was saved. */
  lemma FailedStepJobs(bucketName: string, id: string, originalImageUrl: string,
                       steps: seq<TutorialStructure.MakeupStep>, saves: SaveOutcomes, i: nat,
                       prior: seq<VideoJob>, before: seq<VideoJob>, after: seq<VideoJob>)
    requires LoopRuns(saves) && i < |steps|
    requires FirstFailedStep(saves, i).None? && StepFails(saves, i)
    requires before == prior + VideoJobs(bucketName, id, originalImageUrl, steps, i)
    requires ImageFault(saves, i).Some? ==> after == before
    requires ImageFault(saves, i).None? ==>
      after == before + [VideoJob(PreviousImageUrl(bucketName, id, originalImageUrl, i + 1), steps[i].description,
                                  StepPath(id, i + 1, VideoFile), i + 1)]
    ensures after == prior + VideoJobs(bucketName, id, originalImageUrl, steps, StartedVideos(saves, |steps|))
  {
    assert FirstFailedStep(saves, i + 1) == Some(i);
    FirstFailedStepExtends(saves, i + 1, |steps|);
    JobsAndDraftsSnoc(bucketName, id, originalImageUrl, steps, i);
  }

  /** Step `i + 1` fails after every earlier one succeeded: its error is the loop's, and it leaves the step loop's state. */
  lemma StepFailure(b: Bucket, id: string, steps: seq<TutorialStructure.MakeupStep>, original: Image,
                    completions: seq<Option<Image>>, now: string, saves: SaveOutcomes, i: nat)
    requires LoopRuns(saves) && i < |steps|
    requires FirstFailedStep(saves, i).None? && StepFails(saves, i)
    ensures FirstFailedStep(saves, |steps|) == Some(i)
    ensures SaveError(saves, |steps|)
            == if ImageFault(saves, i).Some? then Some(SavePrefix + ImageFault(saves, i).value) else MetadataFault(saves, i)
    ensures StartedVideos(saves, |steps|) == if ImageFault(saves, i).Some? then i else i + 1
    ensures var saved := SavedObjects(b, id, steps, original, completions, now, i);
      StepsBucket(b, id, steps, original, completions, now, saves)
      == if ImageFault(saves, i).Some? then saved
         else saved.(media := saved.media[StepPath(id, i + 1, ImageFile) := Jpeg(ChainImage(original, completions, i + 1))])
  {
    assert FirstFailedStep(saves, i + 1) == Some(i);
    FirstFailedStepExtends(saves, i + 1, |steps|);
  }

  /** The tutorial `generate_tutorial` returns, its steps still without videos. */
  datatype GeneratedTutorial = GeneratedTutorial(
    id: string, title: string, description: string, totalSteps: int, steps: seq<StepDraft>)

  /** What `generate_tutorial` returns or raises once its steps may carry an absent video URL. */
  function GenerateOutcome(output: TutorialStructure.StructuredOutput, download: DownloadOutcome,
                           saves: SaveOutcomes, uuidHex: string, bucketName: string)
    : Result<GeneratedTutorial, string>
    requires |uuidHex| >= 8
  {
    var structured := TutorialStructure.GenerateTutorialStructure(output);
    if structured.Err? then Err(GenerationPrefix + structured.error)
    else if DownloadResult(download).Err? then Err(GenerationPrefix + DownloadResult(download).error)
    else
      var p := structured.value;
      var id := TutorialId(uuidHex);
      match SaveError(saves, |p.steps|)
      case Some(e) => Err(GenerationPrefix + e)
      case None =>
        Ok(GeneratedTutorial(id, p.title, p.description, |p.steps|, GeneratedDrafts(bucketName, id, p.steps, |p.steps|)))
  }

  /** The steps saved before the first one is validated: the first, if there is one. */
  function StepsBeforeValidation(n: nat): nat {
    if n == 0 then 0 else 1
  }

  /**
   * What `generate_tutorial` does as written: each step is validated as a
   * `TutorialStep` with no video URL once its image and metadata are saved.
   */
  function WrittenOutcome(output: TutorialStructure.StructuredOutput, download: DownloadOutcome,
                          saves: SaveOutcomes, uuidHex: string, bucketName: string)
    : Result<TutorialResponse, string>
    requires |uuidHex| >= 8
  {
    var structured := TutorialStructure.GenerateTutorialStructure(output);
    if structured.Err? then Err(GenerationPrefix + structured.error)
    else if DownloadResult(download).Err? then Err(GenerationPrefix + DownloadResult(download).error)
    else
      var p := structured.value;
      var id := TutorialId(uuidHex);
      match SaveError(saves, StepsBeforeValidation(|p.steps|))
      case Some(e) => Err(GenerationPrefix + e)
      case None =>
        match StepsOf(GeneratedDrafts(bucketName, id, p.steps, |p.steps|))
        case Err(e) => Err(GenerationPrefix + e)
        case Ok(steps) =>
          match MakeTutorialResponse(id, p.title, p.description, |steps|, steps)
          case Err(e) => Err(GenerationPrefix + e)
          case Ok(t) => Ok(t)
  }

  /**
   * As written, `generate_tutorial` never returns: the first step's
   * `TutorialStep` rejects its absent video URL, and a procedure without
   * steps fails the `total_steps > 0` bound.
   */
  lemma WrittenGenerationAlwaysFails(output: TutorialStructure.StructuredOutput, download: DownloadOutcome,
                                     saves: SaveOutcomes, uuidHex: string, bucketName: string)
    requires |uuidHex| >= 8
    ensures WrittenOutcome(output, download, saves, uuidHex, bucketName).Err?
  {
    var structured := TutorialStructure.GenerateTutorialStructure(output);
    if structured.Ok? && DownloadResult(download).Ok? {
      var p := structured.value;
      WrittenStepsFail(TutorialId(uuidHex), p.title, p.description, bucketName, p.steps);
    }
  }

  /** Past the writes, the steps as written never make a tutorial: a first step has no video URL, and no step breaks the bound. */
  lemma WrittenStepsFail(id: string, title: string, description: string, bucketName: string,
                         steps: seq<TutorialStructure.MakeupStep>)
    ensures match StepsOf(GeneratedDrafts(bucketName, id, steps, |steps|))
      case Err(_) => true
      case Ok(made) => MakeTutorialResponse(id, title, description, |made|, made).Err?
  {
    var drafts := GeneratedDrafts(bucketName, id, steps, |steps|);
    StepsOfMeaning(drafts);
    if |steps| > 0 {
      assert StepOf(drafts[0]).Err?;
    }
  }

  /**
   * The bucket `generate_tutorial` leaves as written: it raises at the first
   * step's validation, so at most the original and the first step's image
   * and metadata are written, and the tutorial metadata never is.
   */
  function WrittenBucket(b: Bucket, id: string, p: TutorialStructure.MakeupProcedure, original: Image,
                         completions: seq<Option<Image>>, now: string, saves: SaveOutcomes): Bucket
  {
    if saves.original.Some? then b
    else
      var withOriginal := b.(media := b.media[OriginalPath(id) := Jpeg(original)]);
      if saves.openBucket.Some? then withOriginal
      else StepsBucket(withOriginal, id, p.steps[..StepsBeforeValidation(|p.steps|)], original, completions, now, saves)
  }

  /** The video jobs `generate_tutorial` dispatches as written: at most the first step's. */
  function WrittenJobs(bucketName: string, id: string, originalImageUrl: string,
                       p: TutorialStructure.MakeupProcedure, saves: SaveOutcomes): seq<VideoJob>
  {
    VideoJobs(bucketName, id, originalImageUrl, p.steps, StartedVideos(saves, StepsBeforeValidation(|p.steps|)))
  }

  /**
   * What the code as written leaves behind before it raises, for a procedure
   * with steps: no tutorial metadata, no image of a step after the first,
   * step 1's image and its video job (from the original URL) once the
   * original, the bucket and step 1's image are saved, and step 1's metadata
   * when its own write succeeds too.
   */
  lemma WrittenGenerationLeaves(b: Bucket, id: string, p: TutorialStructure.MakeupProcedure, original: Image,
                                completions: seq<Option<Image>>, bucketName: string, originalImageUrl: string,
                                now: string, saves: SaveOutcomes)
    requires |p.steps| >= 1
    ensures var after := WrittenBucket(b, id, p, original, completions, now, saves);
      && after.metadata == b.metadata && after.statuses == b.statuses
      && (saves.original.None? ==> OriginalPath(id) in after.media && after.media[OriginalPath(id)] == Jpeg(original))
      && (forall n | 2 <= n <= |p.steps| ::
            StepPath(id, n, ImageFile) in after.media <==> StepPath(id, n, ImageFile) in b.media)
      && (LoopRuns(saves) && ImageFault(saves, 0).None? ==>
            StepPath(id, 1, ImageFile) in after.media
            && after.media[StepPath(id, 1, ImageFile)] == Jpeg(ChainImage(original, completions, 1)))
      && (LoopRuns(saves) && !StepFails(saves, 0) ==>
            StepPath(id, 1, StepMetadataFile) in after.stepMetadata
            && after.stepMetadata[StepPath(id, 1, StepMetadataFile)] == StepMetadataOf(p.steps[0], 1, now))
    ensures var jobs := WrittenJobs(bucketName, id, originalImageUrl, p, saves);
      && (|jobs| == 1 <==> LoopRuns(saves) && ImageFault(saves, 0).None?)
      && |jobs| <= 1
      && (|jobs| == 1 ==> jobs[0] == VideoJob(originalImageUrl, p.steps[0].description, StepPath(id, 1, VideoFile), 1))
  {
    var first := p.steps[..1];
    assert StepsBeforeValidation(|p.steps|) == 1;
    forall n: nat ensures OriginalPath(id) != StepPath(id, n, ImageFile) {
      OriginalIsNoStepPath(id, n, ImageFile);
    }
    forall n | 2 <= n <= |p.steps| ensures StepPath(id, n, ImageFile) != StepPath(id, 1, ImageFile) {
      StepPathsDistinct(id, n, 1, ImageFile, ImageFile);
    }
    OriginalIsNoStepPath(id, 1, StepMetadataFile);
    if LoopRuns(saves) {
      var withOriginal := b.(media := b.media[OriginalPath(id) := Jpeg(original)]);
      var none := SavedObjects(withOriginal, id, first, original, completions, now, 0);
      assert none == withOriginal;
      assert FirstFailedStep(saves, 1) == if StepFails(saves, 0) then Some(0) else None;
    }
  }

  /**
   * The generated tutorial: steps numbered 1..N in the procedure's order with
   * its titles, descriptions and tools, total_steps = N, each image URL an
   * https URL of the step's own image object, and no video URL yet. It is
   * returned exactly when the structure, the download and every write but
   * the tutorial metadata's succeed; the first failed write's error is raised.
   */
  lemma GeneratedTutorialShape(output: TutorialStructure.StructuredOutput, download: DownloadOutcome,
                               saves: SaveOutcomes, uuidHex: string, bucketName: string)
    requires |uuidHex| >= 8
    ensures var r := GenerateOutcome(output, download, saves, uuidHex, bucketName);
      var structured := TutorialStructure.GenerateTutorialStructure(output);
      && (r.Ok? <==> && structured.Ok? && DownloadResult(download).Ok?
                     && saves.original.None? && saves.openBucket.None?
                     && forall i | 0 <= i < |structured.value.steps| :: !StepFails(saves, i))
      && (structured.Err? ==> r == Err("Tutorial generation failed: " + structured.error))
      && (r.Err? ==> StartsWith(r.error, GenerationPrefix))
      && (structured.Ok? && DownloadResult(download).Ok? ==>
            var n := |structured.value.steps|;
            && (saves.original.Some? ==> r == Err(GenerationPrefix + (SavePrefix + saves.original.value)))
            && (saves.original.None? && saves.openBucket.Some? ==> r == Err(GenerationPrefix + saves.openBucket.value))
            && (LoopRuns(saves) && FirstFailedStep(saves, n).Some? ==>
                  var i := FirstFailedStep(saves, n).value;
                  && (ImageFault(saves, i).Some? ==> r == Err(GenerationPrefix + (SavePrefix + ImageFault(saves, i).value)))
                  && (ImageFault(saves, i).None? ==> r == Err(GenerationPrefix + MetadataFault(saves, i).value))))
      && (r.Ok? ==>
            var p := structured.value;
            && r.value.id == "tutorial_" + uuidHex[..8]
            && r.value.totalSteps == |r.value.steps| == |p.steps|
            && TutorialStructure.ValidateProcedure(p)
            && forall i | 0 <= i < |p.steps| ::
                 var d := r.value.steps[i];
                 && d.stepNumber == i + 1
                 && d.title == p.steps[i].title && d.description == p.steps[i].description
                 && d.tools == p.steps[i].toolsNeeded
                 && d.imageUrl.Some? && HasWebScheme(d.imageUrl.value)
                 && EndsWith(d.imageUrl.value, StepPath(r.value.id, i + 1, ImageFile))
                 && d.videoUrl.None?)
  {
    var r := GenerateOutcome(output, download, saves, uuidHex, bucketName);
    var structured := TutorialStructure.GenerateTutorialStructure(output);
    if r.Err? {
      var e := if structured.Err? then structured.error
               else if DownloadResult(download).Err? then DownloadResult(download).error
               else SaveError(saves, |structured.value.steps|).value;
      assert r.error == GenerationPrefix + e;
      StartsWithAppend(GenerationPrefix, GenerationPrefix, e);
    }
    if r.Ok? {
      var p := structured.value;
      var id := TutorialId(uuidHex);
      GeneratedDraftsShape(bucketName, id, p.steps);
      assert r.value == GeneratedTutorial(id, p.title, p.description, |p.steps|, GeneratedDrafts(bucketName, id, p.steps, |p.steps|));
    }
  }

  /** The drafts of a generation: step i + 1 carries step i's texts and its own image's https URL, and no video yet. */
  lemma GeneratedDraftsShape(bucketName: string, id: string, steps: seq<TutorialStructure.MakeupStep>)
    ensures var drafts := GeneratedDrafts(bucketName, id, steps, |steps|);
      && |drafts| == |steps|
      && forall i | 0 <= i < |steps| ::
           && drafts[i].stepNumber == i + 1
           && drafts[i].title == steps[i].title && drafts[i].description == steps[i].description
           && drafts[i].tools == steps[i].toolsNeeded
           && drafts[i].imageUrl.Some? && HasWebScheme(drafts[i].imageUrl.value)
           && EndsWith(drafts[i].imageUrl.value, StepPath(id, i + 1, ImageFile))
           && drafts[i].videoUrl.None?
  {
    var drafts := GeneratedDrafts(bucketName, id, steps, |steps|);
    forall i | 0 <= i < |steps|
      ensures drafts[i] == GeneratedDraft(bucketName, id, steps[i], i + 1)
      ensures HasWebScheme(drafts[i].imageUrl.value)
      ensures EndsWith(drafts[i].imageUrl.value, StepPath(id, i + 1, ImageFile))
    {
      GeneratedImageUrl(bucketName, id, i + 1);
    }
  }

  lemma GeneratedImageUrl(bucketName: string, id: string, n: int)
    ensures HasWebScheme(StepImageUrl(bucketName, id, n))
    ensures EndsWith(StepImageUrl(bucketName, id, n), StepPath(id, n, ImageFile))
  {
    var path := StepPath(id, n, ImageFile);
    PublicUrlIsHttps(bucketName, path);
    Framed("https://" + Storage.StorageHost + "/" + bucketName + "/", path, []);
  }

  predicate Generated(completions: seq<Option<Image>>, i: nat) {
    CompletionOf(completions, i).Some?
  }

  /**
   * Step k's input image is the latest successful completion image before
   * it, or the original when every earlier generation failed.
   */
  lemma {:induction false} ChainLatest(original: Image, completions: seq<Option<Image>>, k: nat)
    ensures var image := ChainImage(original, completions, k);
      || (image == original && forall j | 0 <= j < k :: !Generated(completions, j))
      || exists j | 0 <= j < k ::
           && Generated(completions, j) && image == CompletionOf(completions, j).value
           && forall l | j < l < k :: !Generated(completions, l)
  {
    if k > 0 {
      ChainLatest(original, completions, k - 1);
      if !Generated(completions, k - 1) {
        var image := ChainImage(original, completions, k);
        if image == original && forall j | 0 <= j < k - 1 :: !Generated(completions, j) {
        } else {
          var j :| 0 <= j < k - 1 && Generated(completions, j) && image == CompletionOf(completions, j).value
                   && forall l | j < l < k - 1 :: !Generated(completions, l);
          assert forall l | j < l < k :: !Generated(completions, l);
        }
      }
    }
  }

  /** Saving the first `k` steps writes their images and step metadata. */
  lemma SavedStepObjects(b: Bucket, id: string, steps: seq<TutorialStructure.MakeupStep>,
                         original: Image, completions: seq<Option<Image>>, now: string, k: nat)
    requires k <= |steps|
    ensures var saved := SavedObjects(b, id, steps, original, completions, now, k);
      forall n | 1 <= n <= k ::
        && StepPath(id, n, ImageFile) in saved.media
        && saved.media[StepPath(id, n, ImageFile)] == Jpeg(ChainImage(original, completions, n))
        && StepPath(id, n, StepMetadataFile) in saved.stepMetadata
        && saved.stepMetadata[StepPath(id, n, StepMetadataFile)] == StepMetadataOf(steps[n - 1], n, now)
  {
    forall n | 1 <= n <= k
      ensures var saved := SavedObjects(b, id, steps, original, completions, now, k);
        && StepPath(id, n, ImageFile) in saved.media
        && saved.media[StepPath(id, n, ImageFile)] == Jpeg(ChainImage(original, completions, n))
        && StepPath(id, n, StepMetadataFile) in saved.stepMetadata
        && saved.stepMetadata[StepPath(id, n, StepMetadataFile)] == StepMetadataOf(steps[n - 1], n, now)
    {
      SavedStepImage(b, id, steps, original, completions, now, k, n);
      SavedStepMetadata(b, id, steps, original, completions, now, k, n);
    }
  }

  /** Step `n`'s image is written once step `n` is saved, and later steps do not overwrite it. */
  lemma {:induction false} SavedStepImage(b: Bucket, id: string, steps: seq<TutorialStructure.MakeupStep>,
                                          original: Image, completions: seq<Option<Image>>, now: string, k: nat, n: nat)
    requires 1 <= n <= k <= |steps|
    ensures var saved := SavedObjects(b, id, steps, original, completions, now, k);
      StepPath(id, n, ImageFile) in saved.media && saved.media[StepPath(id, n, ImageFile)] == Jpeg(ChainImage(original, completions, n))
  {
    var saved := SavedObjects(b, id, steps, original, completions, now, k);
    var prev := SavedObjects(b, id, steps, original, completions, now, k - 1);
    var path, written := StepPath(id, n, ImageFile), StepPath(id, k, ImageFile);
    assert saved.media == prev.media[written := Jpeg(ChainImage(original, completions, k))];
    if n < k {
      SavedStepImage(b, id, steps, original, completions, now, k - 1, n);
      StepPathsDistinct(id, n, k, ImageFile, ImageFile);
      KeptByUpdate(prev.media, written, Jpeg(ChainImage(original, completions, k)), path);
      assert saved.media[path] == Jpeg(ChainImage(original, completions, n));
    } else {
      assert path == written;
    }
  }

  /** Step `n`'s metadata is written once step `n` is saved, and later steps do not overwrite it. */
  lemma {:induction false} SavedStepMetadata(b: Bucket, id: string, steps: seq<TutorialStructure.MakeupStep>,
                                             original: Image, completions: seq<Option<Image>>, now: string, k: nat, n: nat)
    requires 1 <= n <= k <= |steps|
    ensures var saved := SavedObjects(b, id, steps, original, completions, now, k);
      StepPath(id, n, StepMetadataFile) in saved.stepMetadata
      && saved.stepMetadata[StepPath(id, n, StepMetadataFile)] == StepMetadataOf(steps[n - 1], n, now)
  {
    var saved := SavedObjects(b, id, steps, original, completions, now, k);
    var prev := SavedObjects(b, id, steps, original, completions, now, k - 1);
    var path, written := StepPath(id, n, StepMetadataFile), StepPath(id, k, StepMetadataFile);
    assert saved.stepMetadata == prev.stepMetadata[written := StepMetadataOf(steps[k - 1], k, now)];
    if n < k {
      SavedStepMetadata(b, id, steps, original, completions, now, k - 1, n);
      StepPathsDistinct(id, n, k, StepMetadataFile, StepMetadataFile);
      KeptByUpdate(prev.stepMetadata, written, StepMetadataOf(steps[k - 1], k, now), path);
      assert saved.stepMetadata[path] == StepMetadataOf(steps[n - 1], n, now);
    } else {
      assert path == written;
    }
  }

  /** Writing one key of a map leaves every other key's entry as it was. */
  lemma KeptByUpdate<V>(m: map<string, V>, key: string, v: V, other: string)
    requires other != key && other in m
    ensures other in m[key := v] && m[key := v][other] == m[other]
  {
  }

  /** Saving steps leaves the other documents, and every object but the step images, as they were. */
  lemma {:induction false} SavedObjectsKeep(b: Bucket, id: string, steps: seq<TutorialStructure.MakeupStep>,
                                            original: Image, completions: seq<Option<Image>>, now: string,
                                            k: nat, path: string)
    requires k <= |steps|
    ensures var saved := SavedObjects(b, id, steps, original, completions, now, k);
      && saved.metadata == b.metadata && saved.statuses == b.statuses
      && ((forall n | 1 <= n <= k :: path != StepPath(id, n, ImageFile)) ==>
            (path in saved.media <==> path in b.media) && (path in b.media ==> saved.media[path] == b.media[path]))
  {
    if k > 0 {
      var prev := SavedObjects(b, id, steps, original, completions, now, k - 1);
      var saved := SavedObjects(b, id, steps, original, completions, now, k);
      SavedObjectsKeep(b, id, steps, original, completions, now, k - 1, path);
      assert saved.metadata == prev.metadata && saved.statuses == prev.statuses;
      if forall n | 1 <= n <= k :: path != StepPath(id, n, ImageFile) {
        assert path != StepPath(id, k, ImageFile);
        assert saved.media == prev.media[StepPath(id, k, ImageFile) := Jpeg(ChainImage(original, completions, k))];
      }
    }
  }

  /**
   * What a generation writes under a fresh id: the metadata, the original,
   * each step's image and metadata; no video and no status file.
   */
  lemma GeneratedBucketFacts(b: Bucket, id: string, p: TutorialStructure.MakeupProcedure, original: Image,
                             completions: seq<Option<Image>>, originalImageUrl: string,
                             rawDescription: string, now: string)
    requires forall n: nat | n >= 1 :: StepPath(id, n, VideoFile) !in b.media
    ensures var after := GeneratedBucket(b, id, p, original, completions, originalImageUrl, rawDescription, now);
      && after.statuses == b.statuses
      && MetadataPath(id) in after.metadata
      && after.metadata[MetadataPath(id)] == TutorialMetadataOf(id, p, originalImageUrl, rawDescription, now)
      && (forall n: nat | n >= 1 :: StepPath(id, n, VideoFile) !in after.media)
      && forall n | 1 <= n <= |p.steps| ::
           && StepPath(id, n, ImageFile) in after.media
           && after.media[StepPath(id, n, ImageFile)] == Jpeg(ChainImage(original, completions, n))
           && StepPath(id, n, StepMetadataFile) in after.stepMetadata
           && after.stepMetadata[StepPath(id, n, StepMetadataFile)] == StepMetadataOf(p.steps[n - 1], n, now)
  {
    var withOriginal := b.(media := b.media[OriginalPath(id) := Jpeg(original)]);
    var saved := SavedObjects(withOriginal, id, p.steps, original, completions, now, |p.steps|);
    SavedStepObjects(withOriginal, id, p.steps, original, completions, now, |p.steps|);
    SavedObjectsKeep(withOriginal, id, p.steps, original, completions, now, |p.steps|, "");
    forall n: nat | n >= 1 ensures StepPath(id, n, VideoFile) !in saved.media {
      var video := StepPath(id, n, VideoFile);
      forall m | 1 <= m <= |p.steps| ensures video != StepPath(id, m, ImageFile) {
        StepPathsDistinct(id, n, m, VideoFile, ImageFile);
      }
      OriginalIsNoStepPath(id, n, VideoFile);
      SavedObjectsKeep(withOriginal, id, p.steps, original, completions, now, |p.steps|, video);
    }
  }

  /**
   * The video of step k+1 (k >= 1) is generated from the URL of step k's
   * image, and that object holds the image step k+1 was generated from.
   */
  lemma VideoStartsFromInputImage(b: Bucket, id: string, p: TutorialStructure.MakeupProcedure, original: Image,
                                  completions: seq<Option<Image>>, bucketName: string, originalImageUrl: string,
                                  rawDescription: string, now: string, k: nat)
    requires 1 <= k < |p.steps|
    requires forall n: nat | n >= 1 :: StepPath(id, n, VideoFile) !in b.media
    ensures var jobs := VideoJobs(bucketName, id, originalImageUrl, p.steps, |p.steps|);
      var after := GeneratedBucket(b, id, p, original, completions, originalImageUrl, rawDescription, now);
      && jobs[0].imageUrl == originalImageUrl
      && jobs[k].imageUrl == Storage.BlobPublicUrl(bucketName, StepPath(id, k, ImageFile))
      && StepPath(id, k, ImageFile) in after.media
      && after.media[StepPath(id, k, ImageFile)] == Jpeg(ChainImage(original, completions, k))
      && jobs[k].targetPath == StepPath(id, k + 1, VideoFile) && jobs[k].stepNumber == k + 1
  {
    GeneratedBucketFacts(b, id, p, original, completions, originalImageUrl, rawDescription, now);
  }

  /**
   * Reading a freshly generated tutorial back: every step reads as the
   * generated step and the metadata counts the steps, yet `get_tutorial`
   * fails while any step has no video.
   */
  lemma GenerateThenRead(b: Bucket, id: string, p: TutorialStructure.MakeupProcedure, original: Image,
                         completions: seq<Option<Image>>, bucketName: string,
                         originalImageUrl: string, rawDescription: string, now: string)
    requires forall n: nat | n >= 1 :: StepPath(id, n, VideoFile) !in b.media
    ensures var after := GeneratedBucket(b, id, p, original, completions, originalImageUrl, rawDescription, now);
      var drafts := GeneratedDrafts(bucketName, id, p.steps, |p.steps|);
      && MetadataPath(id) in after.metadata
      && ValueOr(after.metadata[MetadataPath(id)].totalSteps, 0) == |p.steps|
      && (forall n | 1 <= n <= |p.steps| :: ReadStep(after, id, bucketName, n) == drafts[n - 1])
      && (|p.steps| > 0 ==> ReadOutcome(after, id, bucketName).Err?)
  {
    var after := GeneratedBucket(b, id, p, original, completions, originalImageUrl, rawDescription, now);
    var drafts := GeneratedDrafts(bucketName, id, p.steps, |p.steps|);
    GeneratedBucketFacts(b, id, p, original, completions, originalImageUrl, rawDescription, now);
    assert after.metadata[MetadataPath(id)].totalSteps == Some(|p.steps|);
    forall n | 1 <= n <= |p.steps| ensures ReadStep(after, id, bucketName, n) == drafts[n - 1] {
      ReadGeneratedStep(after, id, bucketName, p.steps[n - 1], n, now);
    }
    if |p.steps| > 0 {
      GetTutorialMeaning(after, id, bucketName);
      assert StepPath(id, 1, VideoFile) !in after.media;
    }
  }

  /** A step written by a generation, with no video yet, reads back as its generated draft. */
  lemma ReadGeneratedStep(after: Bucket, id: string, bucketName: string, step: TutorialStructure.MakeupStep,
                          n: nat, now: string)
    requires n >= 1
    requires StepPath(id, n, ImageFile) in after.media && StepPath(id, n, VideoFile) !in after.media
    requires StepPath(id, n, StepMetadataFile) in after.stepMetadata
    requires after.stepMetadata[StepPath(id, n, StepMetadataFile)] == StepMetadataOf(step, n, now)
    ensures ReadStep(after, id, bucketName, n) == GeneratedDraft(bucketName, id, step, n)
  {
  }

  /** A tutorial without status files or videos reports every step PENDING and progress 0. */
  lemma NothingStartedIsPending(b: Bucket, id: string, bucketName: string, now: string)
    requires MetadataPath(id) in b.metadata
    requires forall n: nat | n >= 1 :: StepPath(id, n, VideoFile) !in b.media
    requires forall n: nat | n >= 1 :: StepPath(id, n, StatusFile) !in b.statuses
    ensures var total := ValueOr(b.metadata[MetadataPath(id)].totalSteps, 0);
      var status := StatusOutcome(b, id, bucketName, now);
      && status.Ok?
      && |status.value.steps| == StepCount(total)
      && (forall i | 0 <= i < |status.value.steps| :: status.value.steps[i].status == Pending)
      && status.value.progress == 0
      && status.value.status == (if total == 0 then AllCompleted else InProgress)
  {
    var meta := b.metadata[MetadataPath(id)];
    var total := ValueOr(meta.totalSteps, 0);
    var steps := StepStates(b, id, bucketName, StepCount(total));
    forall i | 0 <= i < |steps| ensures steps[i].status == Pending {
      var n: nat := i + 1;
      assert StepPath(id, n, VideoFile) !in b.media;
      assert StepPath(id, n, StatusFile) !in b.statuses;
      StepStateMeaning(b, id, bucketName, n);
    }
    CountSome(steps, Completed);
    CountSome(steps, Failed);
    var completed := CountStatus(steps, Completed);
    var failed := CountStatus(steps, Failed);
    assert completed == 0 && failed == 0;
    assert completed * 100 == 0;
    assert Progress(completed, total) == 0;
    assert Overall(completed, failed, total) == (if total == 0 then AllCompleted else InProgress);
    assert StatusOutcome(b, id, bucketName, now)
        == Ok(TutorialStatusResponse(id, Overall(completed, failed, total), Progress(completed, total),
                                     steps, ValueOr(meta.createdAt, ""), now));
  }

  /**
   * Right after generation, with no status file or video under the new id,
   * every step reports PENDING, progress is 0 and the tutorial is
   * "processing" (or "completed" when it has no steps).
   */
  lemma StatusAfterGenerate(b: Bucket, id: string, p: TutorialStructure.MakeupProcedure, original: Image,
                            completions: seq<Option<Image>>, bucketName: string,
                            originalImageUrl: string, rawDescription: string, now: string, later: string)
    requires forall n: nat | n >= 1 :: StepPath(id, n, VideoFile) !in b.media
    requires forall n: nat | n >= 1 :: StepPath(id, n, StatusFile) !in b.statuses
    ensures var after := GeneratedBucket(b, id, p, original, completions, originalImageUrl, rawDescription, now);
      var status := StatusOutcome(after, id, bucketName, later);
      && status.Ok?
      && |status.value.steps| == |p.steps|
      && (forall i | 0 <= i < |p.steps| :: status.value.steps[i].status == Pending)
      && status.value.progress == 0
      && status.value.status == (if |p.steps| == 0 then AllCompleted else InProgress)
  {
    var after := GeneratedBucket(b, id, p, original, completions, originalImageUrl, rawDescription, now);
    GeneratedBucketFacts(b, id, p, original, completions, originalImageUrl, rawDescription, now);
    NothingStartedIsPending(after, id, bucketName, later);
  }

  /** A generation whose writes all succeed leaves the bucket `GeneratedBucket` describes and dispatches every video. */
  lemma FaultFreeGeneration(b: Bucket, id: string, p: TutorialStructure.MakeupProcedure, original: Image,
                            completions: seq<Option<Image>>, originalImageUrl: string,
                            rawDescription: string, now: string, saves: SaveOutcomes)
    requires LoopRuns(saves) && saves.tutorialMetadata.None?
    requires forall i | 0 <= i < |p.steps| :: !StepFails(saves, i)
    ensures GenerationBucket(b, id, p, original, completions, originalImageUrl, rawDescription, now, saves)
            == GeneratedBucket(b, id, p, original, completions, originalImageUrl, rawDescription, now)
    ensures StartedVideos(saves, |p.steps|) == SavedSteps(saves, |p.steps|) == |p.steps|
  {
    assert FirstFailedStep(saves, |p.steps|).None?;
  }

  /**
   * A write that fails part-way through a generation: the tutorial metadata
   * is not written, the steps before the failed one keep their image and
   * metadata, the failed step keeps its image only when its metadata write
   * was the one to fail, no later step's image is written, and exactly the
   * steps whose image was saved had their video dispatched.
   */
  lemma SaveFailureKeepsEarlierSteps(b: Bucket, id: string, p: TutorialStructure.MakeupProcedure, original: Image,
                                     completions: seq<Option<Image>>, originalImageUrl: string,
                                     rawDescription: string, now: string, saves: SaveOutcomes)
    requires SaveError(saves, |p.steps|).Some?
    ensures var after := GenerationBucket(b, id, p, original, completions, originalImageUrl, rawDescription, now, saves);
      var saved := SavedSteps(saves, |p.steps|);
      var started := StartedVideos(saves, |p.steps|);
      && after.metadata == b.metadata && after.statuses == b.statuses
      && saved <= started <= saved + 1
      && (started == saved + 1 <==> LoopRuns(saves) && ImageFault(saves, saved).None?)
      && (forall n | 1 <= n <= saved ::
            && StepPath(id, n, StepMetadataFile) in after.stepMetadata
            && after.stepMetadata[StepPath(id, n, StepMetadataFile)] == StepMetadataOf(p.steps[n - 1], n, now))
      && (forall n | 1 <= n <= started ::
            && StepPath(id, n, ImageFile) in after.media
            && after.media[StepPath(id, n, ImageFile)] == Jpeg(ChainImage(original, completions, n)))
      && forall n | started < n <= |p.steps| ::
           StepPath(id, n, ImageFile) in after.media <==> StepPath(id, n, ImageFile) in b.media
  {
    forall n: nat ensures OriginalPath(id) != StepPath(id, n, ImageFile) {
      OriginalIsNoStepPath(id, n, ImageFile);
    }
    if LoopRuns(saves) {
      var withOriginal := b.(media := b.media[OriginalPath(id) := Jpeg(original)]);
      StoppedStepsBucket(withOriginal, id, p.steps, original, completions, now, saves);
      StoppedStepsImages(withOriginal, id, p.steps, original, completions, now, saves);
    }
  }

  /** The documents a step loop stopped by a failed write leaves: see `SaveFailureKeepsEarlierSteps`. */
  lemma StoppedStepsBucket(b: Bucket, id: string, steps: seq<TutorialStructure.MakeupStep>, original: Image,
                           completions: seq<Option<Image>>, now: string, saves: SaveOutcomes)
    requires LoopRuns(saves) && FirstFailedStep(saves, |steps|).Some?
    ensures var after := StepsBucket(b, id, steps, original, completions, now, saves);
      && after.metadata == b.metadata && after.statuses == b.statuses
      && forall n | 1 <= n <= SavedSteps(saves, |steps|) ::
           && StepPath(id, n, StepMetadataFile) in after.stepMetadata
           && after.stepMetadata[StepPath(id, n, StepMetadataFile)] == StepMetadataOf(steps[n - 1], n, now)
  {
    var i := FirstFailedStep(saves, |steps|).value;
    SavedObjectsKeep(b, id, steps, original, completions, now, i, "");
    SavedStepObjects(b, id, steps, original, completions, now, i);
  }

  /** The images a step loop stopped by a failed write leaves: see `SaveFailureKeepsEarlierSteps`. */
  lemma StoppedStepsImages(b: Bucket, id: string, steps: seq<TutorialStructure.MakeupStep>, original: Image,
                           completions: seq<Option<Image>>, now: string, saves: SaveOutcomes)
    requires LoopRuns(saves) && FirstFailedStep(saves, |steps|).Some?
    ensures var after := StepsBucket(b, id, steps, original, completions, now, saves);
      var started := StartedVideos(saves, |steps|);
      && (forall n | 1 <= n <= started ::
            && StepPath(id, n, ImageFile) in after.media
            && after.media[StepPath(id, n, ImageFile)] == Jpeg(ChainImage(original, completions, n)))
      && forall n | started < n <= |steps| ::
           StepPath(id, n, ImageFile) in after.media <==> StepPath(id, n, ImageFile) in b.media
  {
    var i := FirstFailedStep(saves, |steps|).value;
    var full := SavedObjects(b, id, steps, original, completions, now, i);
    var after := StepsBucket(b, id, steps, original, completions, now, saves);
    var started := StartedVideos(saves, |steps|);
    if ImageFault(saves, i).Some? {
      assert started == i && after == full;
    } else {
      assert started == i + 1;
      assert after == full.(media := full.media[StepPath(id, i + 1, ImageFile) := Jpeg(ChainImage(original, completions, i + 1))]);
    }
    StoppedImages(b, id, steps, original, completions, now, i, started, after);
  }

  /** The images left by saving `i` whole steps and, when `started` is `i + 1`, the image of step `i + 1`. */
  lemma StoppedImages(b: Bucket, id: string, steps: seq<TutorialStructure.MakeupStep>, original: Image,
                      completions: seq<Option<Image>>, now: string, i: nat, started: nat, after: Bucket)
    requires i < |steps|
    requires var full := SavedObjects(b, id, steps, original, completions, now, i);
      || (started == i && after == full)
      || (started == i + 1 && after == full.(media := full.media[StepPath(id, i + 1, ImageFile) := Jpeg(ChainImage(original, completions, i + 1))]))
    ensures forall n | 1 <= n <= started ::
              && StepPath(id, n, ImageFile) in after.media
              && after.media[StepPath(id, n, ImageFile)] == Jpeg(ChainImage(original, completions, n))
    ensures forall n | started < n <= |steps| ::
              StepPath(id, n, ImageFile) in after.media <==> StepPath(id, n, ImageFile) in b.media
  {
    SavedStepObjects(b, id, steps, original, completions, now, i);
    forall n | 1 <= n <= started
      ensures StepPath(id, n, ImageFile) in after.media
      ensures after.media[StepPath(id, n, ImageFile)] == Jpeg(ChainImage(original, completions, n))
    {
      StepPathsDistinct(id, n, i + 1, ImageFile, ImageFile);
    }
    forall n | started < n <= |steps|
      ensures StepPath(id, n, ImageFile) in after.media <==> StepPath(id, n, ImageFile) in b.media
    {
      StepUnwritten(b, id, steps, original, completions, now, i, n);
      StepPathsDistinct(id, n, i + 1, ImageFile, ImageFile);
    }
  }

  /** Saving the first `k` steps leaves step `n`'s image object, for a later `n`, as it was. */
  lemma StepUnwritten(b: Bucket, id: string, steps: seq<TutorialStructure.MakeupStep>, original: Image,
                      completions: seq<Option<Image>>, now: string, k: nat, n: nat)
    requires k < n && k <= |steps|
    ensures var saved := SavedObjects(b, id, steps, original, completions, now, k);
      && (StepPath(id, n, ImageFile) in saved.media <==> StepPath(id, n, ImageFile) in b.media)
      && (StepPath(id, n, ImageFile) in b.media ==> saved.media[StepPath(id, n, ImageFile)] == b.media[StepPath(id, n, ImageFile)])
  {
    var path := StepPath(id, n, ImageFile);
    forall m | 1 <= m <= k ensures path != StepPath(id, m, ImageFile) {
      StepPathsDistinct(id, n, m, ImageFile, ImageFile);
    }
    SavedObjectsKeep(b, id, steps, original, completions, now, k, path);
  }

  /**
   * A failure of the tutorial metadata's own write is swallowed: the
   * tutorial is returned and its step images are stored, yet under a new id
   * neither the status check nor `get_tutorial` finds it.
   */
  lemma MetadataFailureIsSilent(b: Bucket, id: string, p: TutorialStructure.MakeupProcedure, original: Image,
                                completions: seq<Option<Image>>, bucketName: string, originalImageUrl: string,
                                rawDescription: string, now: string, later: string, saves: SaveOutcomes)
    requires LoopRuns(saves) && saves.tutorialMetadata.Some?
    requires forall i | 0 <= i < |p.steps| :: !StepFails(saves, i)
    requires MetadataPath(id) !in b.metadata
    ensures var after := GenerationBucket(b, id, p, original, completions, originalImageUrl, rawDescription, now, saves);
      && SaveError(saves, |p.steps|).None?
      && StartedVideos(saves, |p.steps|) == |p.steps|
      && (forall n | 1 <= n <= |p.steps| :: StepPath(id, n, ImageFile) in after.media)
      && MetadataPath(id) !in after.metadata
      && StatusOutcome(after, id, bucketName, later) == Err(StatusFailurePrefix + NotFound(id))
      && ReadOutcome(after, id, bucketName) == Err(NotFound(id))
  {
    assert FirstFailedStep(saves, |p.steps|).None?;
    var withOriginal := b.(media := b.media[OriginalPath(id) := Jpeg(original)]);
    SavedObjectsKeep(withOriginal, id, p.steps, original, completions, now, |p.steps|, "");
    SavedStepObjects(withOriginal, id, p.steps, original, completions, now, |p.steps|);
  }

  // ---------------------------------------------------------------------
  // _generate_sample_steps

  const SampleBaseUrl := "https://" + Storage.StorageHost + "/ejan-demo-storage"

  const SampleTitles: seq<string> := [
    "スキンケアとベース準備", "ファンデーションの塗布", "アイメイクの完成",
    "チークとハイライト", "リップメイクと仕上げ"]

  const SampleDescriptions: seq<string> := [
    "清潔な肌に保湿剤とプライマーを塗布します",
    "肌のトーンに合わせたファンデーションを均一に塗ります",
    "アイシャドウ、アイライナー、マスカラを使用します",
    "頬骨にチークを、鼻筋と頬骨の上にハイライトを入れます",
    "リップライナーで輪郭を描き、リップスティックを塗ります"]

  const SampleTools: seq<seq<string>> := [
    ["保湿剤", "プライマー", "メイクスポンジ"],
    ["ファンデーション", "ビューティーブレンダー", "コンシーラー"],
    ["アイシャドウパレット", "アイライナー", "マスカラ", "アイブラシ"],
    ["チーク", "ハイライト", "ブラシ"],
    ["リップライナー", "リップスティック", "セッティングスプレー"]]

  /** Sample step `i + 1`, its media under the demo bucket. */
  function SampleStep(styleId: string, i: nat): TutorialStep
    requires i < 5
  {
    var folder := SampleBaseUrl + "/tutorials/" + styleId + "/step" + IntToString(i + 1);
    TutorialStep(i + 1, SampleTitles[i], SampleDescriptions[i], folder + ".png", folder + ".mp4", SampleTools[i])
  }

  /** A customization text that is set, non-empty and mentions "eye" in any case. */
  predicate EmphasisesEyes(customization: Option<string>) {
    customization.Some? && |customization.value| > 0 && Contains(Lower(customization.value), "eye")
  }

  /** `_generate_sample_steps`: five fixed steps; an eye-related customization is appended to step 3. */
  function SampleSteps(styleId: string, customization: Option<string>): seq<TutorialStep> {
    var steps := seq(5, i requires 0 <= i < 5 => SampleStep(styleId, i));
    if EmphasisesEyes(customization) then
      steps[2 := steps[2].(description := steps[2].description + " (" + customization.value + "を重視)")]
    else steps
  }

  /**
   * Five valid steps numbered 1..5; the customization changes nothing but
   * step 3's description, and that only when it mentions "eye".
   */
  lemma SampleStepsShape(styleId: string, customization: Option<string>)
    ensures var r, plain := SampleSteps(styleId, customization), SampleSteps(styleId, None);
      && |r| == 5
      && (forall i | 0 <= i < 5 :: r[i].stepNumber == i + 1 && ValidStep(r[i]))
      && (forall i | 0 <= i < 5 && i != 2 :: r[i] == plain[i])
      && r[2].(description := plain[2].description) == plain[2]
      && r[2].description == plain[2].description
                             + (if EmphasisesEyes(customization) then " (" + customization.value + "を重視)" else "")
  {
    forall i | 0 <= i < 5 ensures ValidStep(SampleStep(styleId, i)) {
      SampleStepValid(styleId, i);
    }
  }

  lemma SampleStepValid(styleId: string, i: nat)
    requires i < 5
    ensures ValidStep(SampleStep(styleId, i))
  {
    var https := "https://";
    assert StartsWith(https, https);
    StartsWithAppend(https, https, Storage.StorageHost);
    StartsWithAppend(https + Storage.StorageHost, https, "/ejan-demo-storage");
    var folder := SampleBaseUrl + "/tutorials/" + styleId + "/step" + IntToString(i + 1);
    StartsWithAppend(SampleBaseUrl, https, "/tutorials/");
    StartsWithAppend(SampleBaseUrl + "/tutorials/", https, styleId);
    StartsWithAppend(SampleBaseUrl + "/tutorials/" + styleId, https, "/step");
    StartsWithAppend(SampleBaseUrl + "/tutorials/" + styleId + "/step", https, IntToString(i + 1));
    StartsWithAppend(folder, https, ".png");
    StartsWithAppend(folder, https, ".mp4");
  }

  /** The service's storage bucket and the video generations it has dispatched. */
  class TutorialService {
    var bucket: Bucket
    var dispatched: seq<VideoJob>
    const bucketName: string

    constructor(bucketName: string, b: Bucket)
      ensures this.bucketName == bucketName && bucket == b && dispatched == []
    {
      this.bucketName := bucketName;
      bucket := b;
      dispatched := [];
    }

    /**
     * One iteration of the loop: step `i + 1` is generated, its image saved,
     * its video dispatched and its metadata saved, stopping at the first of
     * those writes to fail. The draft is the step's only when no error is
     * returned.
     */
    method SaveStep(ghost start: Bucket, id: string, procedureSteps: seq<TutorialStructure.MakeupStep>,
                    original: Image, completions: seq<Option<Image>>, originalImageUrl: string, now: string,
                    saves: SaveOutcomes, i: nat, previousImage: Image, previousImageUrl: string)
      returns (completion: Image, imageUrl: string, draft: StepDraft, error: Option<string>)
      requires i < |procedureSteps|
      requires bucket == SavedObjects(start, id, procedureSteps, original, completions, now, i)
      requires previousImage == ChainImage(original, completions, i)
      requires previousImageUrl == PreviousImageUrl(bucketName, id, originalImageUrl, i + 1)
      modifies this
      ensures completion == ChainImage(original, completions, i + 1)
      ensures ImageFault(saves, i).Some? ==>
        && error == Some(SavePrefix + ImageFault(saves, i).value)
        && bucket == old(bucket) && dispatched == old(dispatched)
      ensures ImageFault(saves, i).None? ==>
        && error == MetadataFault(saves, i)
        && dispatched == old(dispatched) + [VideoJob(previousImageUrl, procedureSteps[i].description,
                                                     StepPath(id, i + 1, VideoFile), i + 1)]
        && imageUrl == PreviousImageUrl(bucketName, id, originalImageUrl, i + 2)
        && (error.Some? ==> bucket == old(bucket).(media := old(bucket).media[StepPath(id, i + 1, ImageFile) := Jpeg(completion)]))
        && (error.None? ==> bucket == SavedObjects(start, id, procedureSteps, original, completions, now, i + 1))
        && (error.None? ==> draft == GeneratedDraft(bucketName, id, procedureSteps[i], i + 1))
    {
      var stepNumber := i + 1;
      var step := procedureSteps[i];
      completion := match CompletionOf(completions, i) case Some(image) => image case None => previousImage;
      imageUrl, draft := "", StepDraft(stepNumber, step.title, step.description, None, None, step.toolsNeeded);
      if ImageFault(saves, i).Some? {
        return completion, imageUrl, draft, Some(SavePrefix + ImageFault(saves, i).value);
      }
      var imagePath := StepPath(id, stepNumber, ImageFile);
      bucket := bucket.(media := bucket.media[imagePath := Jpeg(completion)]);
      imageUrl := Storage.BlobPublicUrl(bucketName, imagePath);
      dispatched := dispatched + [VideoJob(previousImageUrl, step.description, StepPath(id, stepNumber, VideoFile), stepNumber)];
      error := MetadataFault(saves, i);
      if error.Some? {
        return;
      }
      bucket := bucket.(stepMetadata := bucket.stepMetadata[StepPath(id, stepNumber, StepMetadataFile) :=
                                                            StepMetadataOf(step, stepNumber, now)]);
      draft := StepDraft(stepNumber, step.title, step.description, Some(imageUrl), None, step.toolsNeeded);
    }

    /**
     * The loop of `generate_tutorial` over the procedure's steps, in order,
     * once the original is saved and the bucket opened; it stops at the
     * first failed write, leaving the earlier steps written.
     */
    method RunSteps(id: string, procedureSteps: seq<TutorialStructure.MakeupStep>, original: Image,
                    completions: seq<Option<Image>>, originalImageUrl: string, now: string, saves: SaveOutcomes)
      returns (steps: seq<StepDraft>, error: Option<string>)
      requires LoopRuns(saves)
      modifies this
      ensures error == SaveError(saves, |procedureSteps|)
      ensures bucket == StepsBucket(old(bucket), id, procedureSteps, original, completions, now, saves)
      ensures dispatched == old(dispatched) + VideoJobs(bucketName, id, originalImageUrl, procedureSteps,
                                                        StartedVideos(saves, |procedureSteps|))
      ensures error.None? ==> steps == GeneratedDrafts(bucketName, id, procedureSteps, |procedureSteps|)
    {
      steps, error := [], None;
      var previousImage := original;
      var previousImageUrl := originalImageUrl;
      var i := 0;
      while i < |procedureSteps|
        invariant 0 <= i <= |procedureSteps|
        invariant FirstFailedStep(saves, i).None? && error.None?
        invariant bucket == SavedObjects(old(bucket), id, procedureSteps, original, completions, now, i)
        invariant dispatched == old(dispatched) + VideoJobs(bucketName, id, originalImageUrl, procedureSteps, i)
        invariant steps == GeneratedDrafts(bucketName, id, procedureSteps, i)
        invariant previousImage == ChainImage(original, completions, i)
        invariant previousImageUrl == PreviousImageUrl(bucketName, id, originalImageUrl, i + 1)
      {
        ghost var jobsBefore := dispatched;
        var completion, imageUrl, draft;
        completion, imageUrl, draft, error := SaveStep(old(bucket), id, procedureSteps, original, completions,
                                                       originalImageUrl, now, saves, i, previousImage, previousImageUrl);
        if error.Some? {
          StepFailure(old(bucket), id, procedureSteps, original, completions, now, saves, i);
          FailedStepJobs(bucketName, id, originalImageUrl, procedureSteps, saves, i, old(dispatched), jobsBefore, dispatched);
          return;
        }
        assert ImageFault(saves, i).None? && MetadataFault(saves, i).None?;
        assert bucket == SavedObjects(old(bucket), id, procedureSteps, original, completions, now, i + 1);
        JobsAndDraftsSnoc(bucketName, id, originalImageUrl, procedureSteps, i);
        assert FirstFailedStep(saves, i + 1).None?;
        steps := steps + [draft];
        previousImage := completion;
        previousImageUrl := imageUrl;
        i := i + 1;
      }
    }

    /**
     * `generate_tutorial`: each step's completion image is generated from the
     * previous step's image and saved, its video is dispatched from the
     * previous step's image URL, and its metadata is saved. `saves` says
     * which storage writes fail.
     */
    method GenerateTutorial(rawDescription: string, originalImageUrl: string,
                            output: TutorialStructure.StructuredOutput, download: DownloadOutcome,
                            completions: seq<Option<Image>>, saves: SaveOutcomes, uuidHex: string, now: string)
      returns (r: Result<GeneratedTutorial, string>)
      requires |uuidHex| >= 8
      modifies this
      ensures r == GenerateOutcome(output, download, saves, uuidHex, bucketName)
      ensures var structured := TutorialStructure.GenerateTutorialStructure(output);
        structured.Err? || DownloadResult(download).Err? ==> bucket == old(bucket) && dispatched == old(dispatched)
      ensures var structured := TutorialStructure.GenerateTutorialStructure(output);
        structured.Ok? && DownloadResult(download).Ok? ==>
          var p := structured.value;
          var id := TutorialId(uuidHex);
          && bucket == GenerationBucket(old(bucket), id, p, DownloadResult(download).value, completions,
                                        originalImageUrl, rawDescription, now, saves)
          && dispatched == old(dispatched) + VideoJobs(bucketName, id, originalImageUrl, p.steps,
                                                       StartedVideos(saves, |p.steps|))
    {
      var id := TutorialId(uuidHex);
      var structured := TutorialStructure.GenerateTutorialStructure(output);
      if structured.Err? {
        return Err(GenerationPrefix + structured.error);
      }
      var original := DownloadResult(download);
      if original.Err? {
        return Err(GenerationPrefix + original.error);
      }
      var p := structured.value;
      if saves.original.Some? {
        return Err(GenerationPrefix + (SavePrefix + saves.original.value));
      }
      bucket := bucket.(media := bucket.media[OriginalPath(id) := Jpeg(original.value)]);
      if saves.openBucket.Some? {
        return Err(GenerationPrefix + saves.openBucket.value);
      }
      var steps, error := RunSteps(id, p.steps, original.value, completions, originalImageUrl, now, saves);
      if error.Some? {
        return Err(GenerationPrefix + error.value);
      }
      if saves.tutorialMetadata.None? {
        bucket := bucket.(metadata := bucket.metadata[MetadataPath(id) :=
                                                      TutorialMetadataOf(id, p, originalImageUrl, rawDescription, now)]);
      }
      r := Ok(GeneratedTutorial(id, p.title, p.description, |steps|, steps));
    }
  }
}
