// The Cloud Function that turns one step image into a video: request
// checks, the long-running generation job polled every ten seconds with a
// 540-second budget, the upload under `videos/`, and the HTTP entry point
// that maps the outcome to a status code.

module VideoFunction {
  import opened Wrappers
  import opened Text
  import Storage

  /** A JSON object body: the text fields it carries and its `step_number`, if any. */
  datatype VideoRequest = VideoRequest(fields: map<string, string>, stepNumber: Option<int>)

  /**
   * What `request.get_json()` gave: the exception it raised (a malformed
   * body is refused with 400 Bad Request), no JSON, a JSON object, or some
   * other JSON value. Of another value only what the checks see is kept:
   * whether Python treats it as true, the required names `field in value`
   * finds in it (or the TypeError `in` raises), and the TypeError that
   * `value["image_url"]` raises.
   */
  datatype RequestBody =
    | Unreadable(error: string)
    | NoBody
    | Object(request: VideoRequest)
    | OtherValue(truthy: bool, members: Result<set<string>, string>, indexError: string)

  /** A body that Python treats as false: no JSON at all, an empty object, or a false value. */
  predicate NoJson(body: RequestBody) {
    || body.NoBody?
    || (body.Object? && |body.request.fields| == 0 && body.request.stepNumber.None?)
    || (body.OtherValue? && !body.truthy)
  }

  /** A body that reaches the field checks. */
  predicate Inspected(body: RequestBody) {
    !body.Unreadable? && !NoJson(body)
  }

  /** What `field in request_data` answers: the names present, or the exception it raises. */
  function Members(body: RequestBody): (r: Result<set<string>, string>)
    requires Inspected(body)
    ensures body.Object? ==> r == Ok(body.request.fields.Keys)
  {
    if body.Object? then Ok(body.request.fields.Keys) else body.members
  }

  /** What `requests.get(image_url)` gave: a response with a status code, or an exception. */
  datatype ImageFetch = FetchStatus(statusCode: int) | FetchRaised(message: string)

  /** One answer of `operations.get`: still running, done, or an exception. */
  datatype PollAnswer = Running | Done | PollRaised(message: string)

  /** The dictionary `generate_video` returns: status "success" with a URL and a duration, or "failed" with an error (and a duration when an exception was caught). */
  datatype VideoResult =
    | Success(videoUrl: string, duration: int)
    | Failure(error: string, raisedDuration: Option<int>)

  function StatusText(r: VideoResult): (s: string)
    ensures s == "success" <==> r.Success?
    ensures s == "success" || s == "failed"
  {
    if r.Success? then "success" else "failed"
  }

  const RequiredFields: seq<string> := ["image_url", "prompt"]
  const DefaultStepNumber := 1
  /** The polling budget and the pause between polls, in milliseconds. */
  const TimeoutMs := 540000
  const PollIntervalMs := 10000

  const NoJsonMessage := "No JSON data provided"
  const NoApiKeyMessage := "GOOGLE_API_KEY not configured"
  const NoBucketMessage := "STORAGE_BUCKET not configured"
  const TimeoutMessage := "Video generation timeout after 540 seconds"

  function MissingField(field: string): string {
    "Missing required field: " + field
  }

  function FetchFailed(imageUrl: string): string {
    "Failed to fetch image from " + imageUrl
  }

  /** The first required field the body lacks, in the order they are checked. */
  function FirstMissing(fields: set<string>, required: seq<string>): (r: Option<string>)
    ensures r.None? <==> forall i | 0 <= i < |required| :: required[i] in fields
    ensures r.Some? ==> exists i | 0 <= i < |required| ::
              r.value == required[i] && required[i] !in fields &&
              forall j | 0 <= j < i :: required[j] in fields
  {
    if |required| == 0 then None
    else if required[0] !in fields then
      assert required[0] !in fields;
      Some(required[0])
    else
      var rest := FirstMissing(fields, required[1..]);
      if rest.Some? then
        var i :| 0 <= i < |required[1..]| && rest.value == required[1..][i] && required[1..][i] !in fields &&
                  forall j | 0 <= j < i :: required[1..][j] in fields;
        assert forall j | 0 <= j < i + 1 :: required[j] in fields by {
          forall j | 0 <= j < i + 1 ensures required[j] in fields {
            if j > 0 { assert required[j] == required[1..][j - 1]; }
          }
        }
        rest
      else
        assert forall i | 0 <= i < |required| :: required[i] in fields by {
          forall i | 0 <= i < |required| ensures required[i] in fields {
            if i > 0 { assert required[i] == required[1..][i - 1]; }
          }
        }
        rest
  }

  /** An environment value Python treats as unset: absent or empty. */
  predicate Unset(v: Option<string>) {
    v.None? || v.value == ""
  }

  // ---------------------------------------------------------------------
  // Polling
  // ---------------------------------------------------------------------

  /**
   * The elapsed-time readings taken at each check of the loop, in
   * milliseconds since the request began. Each sleep of ten seconds moves
   * the clock forward by at least that much, and the readings run at least
   * until one is past the budget.
   */
  predicate Ticking(clock: seq<nat>) {
    && |clock| >= 1
    && (forall k | 0 <= k < |clock| - 1 :: Pause(clock, k) >= PollIntervalMs)
    && clock[|clock| - 1] > TimeoutMs
  }

  /** The time between the k-th check and the next. */
  function Pause(clock: seq<nat>, k: nat): int
    requires k + 1 < |clock|
  {
    clock[k + 1] as int - clock[k]
  }

  /** A check within the budget is followed by another, at least ten seconds later. */
  lemma NextCheck(clock: seq<nat>, k: nat)
    requires Ticking(clock) && k < |clock| && clock[k] <= TimeoutMs
    ensures k + 1 < |clock| && clock[k + 1] >= clock[k] + PollIntervalMs
  {
    assert Pause(clock, k) >= PollIntervalMs;
  }

  /** The answer of the k-th `operations.get`; past the oracle the job keeps running. */
  function AnswerAt(answers: seq<PollAnswer>, k: nat): PollAnswer {
    if k < |answers| then answers[k] else Running
  }

  datatype PollEnd = Finished(polls: nat) | TimedOut | PollError(message: string)

  /**
   * The polling loop from its k-th check on: a finished job leaves it, a
   * job past the budget times out, and otherwise the function sleeps and
   * asks again.
   */
  function Polling(done: bool, answers: seq<PollAnswer>, clock: seq<nat>, k: nat): PollEnd
    requires Ticking(clock) && k < |clock|
    decreases if done then 0 else TimeoutMs + 1 - clock[k]
  {
    if done then Finished(k)
    else if clock[k] > TimeoutMs then TimedOut
    else
      NextCheck(clock, k);
      match AnswerAt(answers, k)
      case PollRaised(m) => PollError(m)
      case Running => Polling(false, answers, clock, k + 1)
      case Done => Polling(true, answers, clock, k + 1)
  }

  /** With readings ten seconds apart, the k-th reading is at least 10k seconds. */
  lemma {:induction false} ClockGrows(clock: seq<nat>, k: nat)
    requires Ticking(clock) && k < |clock|
    ensures clock[k] >= PollIntervalMs * k
  {
    if k > 0 {
      ClockGrows(clock, k - 1);
      assert Pause(clock, k - 1) >= PollIntervalMs;
    }
  }

  /** An operation that is already done when it is created is never polled. */
  lemma DoneIsNotPolled(answers: seq<PollAnswer>, clock: seq<nat>)
    requires Ticking(clock)
    ensures Polling(true, answers, clock, 0) == Finished(0)
  {
  }

  /**
   * A job that finishes after n polls was answered "running" until the
   * last poll, which answered "done", and every check before it was within
   * the budget; a job already done at check k finishes there.
   */
  lemma {:induction false} FinishedMeaning(done: bool, answers: seq<PollAnswer>, clock: seq<nat>, k: nat)
    requires Ticking(clock) && k < |clock|
    ensures Polling(done, answers, clock, k).Finished? ==>
              var n := Polling(done, answers, clock, k).polls;
              && k <= n < |clock|
              && (n == k <==> done)
              && (forall j | k <= j < n :: clock[j] <= TimeoutMs)
              && (forall j | k <= j < n - 1 :: AnswerAt(answers, j) == Running)
              && (n > k ==> AnswerAt(answers, n - 1) == Done)
    decreases if done then 0 else TimeoutMs + 1 - clock[k]
  {
    if !done && clock[k] <= TimeoutMs {
      NextCheck(clock, k);
      var a := AnswerAt(answers, k);
      if a.Running? {
        FinishedMeaning(false, answers, clock, k + 1);
      } else if a.Done? {
        FinishedMeaning(true, answers, clock, k + 1);
      }
    }
  }

  /** From check k up to check n (excluded), every check was within the budget and every answer was "running". */
  predicate RanUntil(answers: seq<PollAnswer>, clock: seq<nat>, k: nat, n: nat) {
    && k <= n < |clock|
    && forall j | k <= j < n :: clock[j] <= TimeoutMs && AnswerAt(answers, j) == Running
  }

  /** A timeout comes at the first check past the budget, after answers that were all "running". */
  lemma {:induction false} TimedOutMeaning(done: bool, answers: seq<PollAnswer>, clock: seq<nat>, k: nat)
    requires Ticking(clock) && k < |clock|
    ensures Polling(done, answers, clock, k).TimedOut? ==>
              !done && exists n: nat :: RanUntil(answers, clock, k, n) && clock[n] > TimeoutMs
    decreases if done then 0 else TimeoutMs + 1 - clock[k]
  {
    if !done && clock[k] <= TimeoutMs && AnswerAt(answers, k).Running? {
      NextCheck(clock, k);
      TimedOutMeaning(false, answers, clock, k + 1);
      if Polling(false, answers, clock, k + 1).TimedOut? {
        var n: nat :| RanUntil(answers, clock, k + 1, n) && clock[n] > TimeoutMs;
        assert RanUntil(answers, clock, k, n);
      }
    } else if !done && clock[k] > TimeoutMs {
      assert RanUntil(answers, clock, k, k);
    } else if !done && AnswerAt(answers, k).Done? {
      NextCheck(clock, k);
      assert Polling(true, answers, clock, k + 1).Finished?;
    }
  }

  /** A poll that raises is the first answer that is not "running", at a check within the budget. */
  lemma {:induction false} RaisedMeaning(done: bool, answers: seq<PollAnswer>, clock: seq<nat>, k: nat)
    requires Ticking(clock) && k < |clock|
    ensures Polling(done, answers, clock, k).PollError? ==>
              !done && exists n: nat :: RanUntil(answers, clock, k, n) && clock[n] <= TimeoutMs && n < |answers| &&
                                  answers[n] == PollRaised(Polling(done, answers, clock, k).message)
    decreases if done then 0 else TimeoutMs + 1 - clock[k]
  {
    if !done && clock[k] <= TimeoutMs {
      NextCheck(clock, k);
      var a := AnswerAt(answers, k);
      if a.Running? {
        RaisedMeaning(false, answers, clock, k + 1);
        var e := Polling(false, answers, clock, k + 1);
        if e.PollError? {
          var n: nat :| RanUntil(answers, clock, k + 1, n) && clock[n] <= TimeoutMs && n < |answers| &&
                   answers[n] == PollRaised(e.message);
          assert RanUntil(answers, clock, k, n);
        }
      } else if a.PollRaised? {
        assert RanUntil(answers, clock, k, k);
      } else {
        assert Polling(true, answers, clock, k + 1).Finished?;
      }
    }
  }

  /** The loop asks at most 55 times: by then more than 540 seconds have passed. */
  lemma PollingBound(done: bool, answers: seq<PollAnswer>, clock: seq<nat>)
    requires Ticking(clock)
    ensures Polling(done, answers, clock, 0).Finished? ==> Polling(done, answers, clock, 0).polls <= 55
  {
    FinishedMeaning(done, answers, clock, 0);
    var e := Polling(done, answers, clock, 0);
    if e.Finished? && e.polls > 0 {
      var n := e.polls;
      assert clock[n - 1] <= TimeoutMs;
      ClockGrows(clock, n - 1);
    }
  }

  // ---------------------------------------------------------------------
  // The stored video
  // ---------------------------------------------------------------------

  /** The middle of a unique name: the epoch seconds, a '-', and the first eight characters of a UUID. */
  function Stamp(epochSeconds: int, uuidText: string): (r: string)
    requires |uuidText| >= 8
    ensures |r| == |IntToString(epochSeconds)| + 9
  {
    IntToString(epochSeconds) + "-" + uuidText[..8]
  }

  /** `generate_unique_filename`: `{prefix}-{epoch seconds}-{8 chars of a UUID}.{extension}`. */
  function UniqueFilename(prefix: string, extension: string, epochSeconds: int, uuidText: string): (r: string)
    requires |uuidText| >= 8
    ensures StartsWith(r, prefix + "-") && EndsWith(r, "." + extension)
  {
    Framed(prefix + "-", Stamp(epochSeconds, uuidText), "." + extension);
    prefix + "-" + Stamp(epochSeconds, uuidText) + "." + extension
  }

  /** Two names made in the same second differ exactly when the first eight characters of their UUIDs do. */
  lemma UniqueFilenameIds(prefix: string, extension: string, epochSeconds: int, u1: string, u2: string)
    requires |u1| >= 8 && |u2| >= 8
    ensures UniqueFilename(prefix, extension, epochSeconds, u1) == UniqueFilename(prefix, extension, epochSeconds, u2)
            <==> u1[..8] == u2[..8]
  {
    var seconds := IntToString(epochSeconds) + "-";
    MiddleCancel(seconds, u1[..8], u2[..8], []);
    assert seconds + u1[..8] + [] == Stamp(epochSeconds, u1);
    assert seconds + u2[..8] + [] == Stamp(epochSeconds, u2);
    assert UniqueFilename(prefix, extension, epochSeconds, u1) == (prefix + "-") + Stamp(epochSeconds, u1) + ("." + extension);
    assert UniqueFilename(prefix, extension, epochSeconds, u2) == (prefix + "-") + Stamp(epochSeconds, u2) + ("." + extension);
    MiddleCancel(prefix + "-", Stamp(epochSeconds, u1), Stamp(epochSeconds, u2), "." + extension);
  }

  const VideoDir := "videos/"
  const VideoPrefix := "video-step-"

  /** The object the video of a step is uploaded to: `videos/video-step-{n}-{seconds}-{id}.mp4`. */
  function VideoPath(stepNumber: int, epochSeconds: int, uuidText: string): string
    requires |uuidText| >= 8
  {
    VideoDir + UniqueFilename(VideoPrefix + IntToString(stepNumber), "mp4", epochSeconds, uuidText)
  }

  /** The path read back: the directory and prefix, the step number, a '-', then the stamp and ".mp4". */
  lemma VideoPathShape(stepNumber: int, epochSeconds: int, uuidText: string)
    requires |uuidText| >= 8
    ensures VideoPath(stepNumber, epochSeconds, uuidText) ==
            (VideoDir + VideoPrefix) + (IntToString(stepNumber) + ['-'] + (Stamp(epochSeconds, uuidText) + ".mp4"))
    ensures StartsWith(VideoPath(stepNumber, epochSeconds, uuidText), VideoDir + VideoPrefix)
    ensures EndsWith(VideoPath(stepNumber, epochSeconds, uuidText), ".mp4")
  {
    var h, n, s := VideoDir + VideoPrefix, IntToString(stepNumber), Stamp(epochSeconds, uuidText);
    assert "." + "mp4" == ".mp4";
    assert UniqueFilename(VideoPrefix + n, "mp4", epochSeconds, uuidText) == VideoPrefix + n + "-" + s + ".mp4";
    Regroup(VideoDir, VideoPrefix, n, "-", s, ".mp4");
    Framed(h, n + ['-'] + s, ".mp4");
  }

  lemma Regroup<T>(d: seq<T>, p: seq<T>, n: seq<T>, m: seq<T>, s: seq<T>, e: seq<T>)
    ensures d + (p + n + m + s + e) == (d + p) + (n + m + (s + e))
    ensures d + (p + n + m + s + e) == (d + p) + (n + m + s) + e
  {
  }

  /** Decimal digits hold no '-'. */
  lemma NoDashInNumber(n: nat)
    ensures '-' !in IntToString(n)
  {
    var s := IntToString(n);
    forall i | 0 <= i < |s| ensures s[i] != '-' {
      assert IsDigit(s[i]);
    }
  }

  /** Different steps never share a video object. */
  lemma VideoPathsOfStepsDiffer(n: nat, m: nat, t1: int, t2: int, u1: string, u2: string)
    requires |u1| >= 8 && |u2| >= 8
    requires n != m
    ensures VideoPath(n, t1, u1) != VideoPath(m, t2, u2)
  {
    VideoPathShape(n, t1, u1);
    VideoPathShape(m, t2, u2);
    if VideoPath(n, t1, u1) == VideoPath(m, t2, u2) {
      NoDashInNumber(n);
      NoDashInNumber(m);
      JoinedInjective(VideoDir + VideoPrefix, IntToString(n), '-', Stamp(t1, u1) + ".mp4",
                      IntToString(m), Stamp(t2, u2) + ".mp4");
      NatToStringInjective(n, m);
    }
  }

  // ---------------------------------------------------------------------
  // generate_video
  // ---------------------------------------------------------------------

  /**
   * What the outside world answers during one request: the environment,
   * the image fetch, the start of the job, the answers to each poll with
   * the clock readings at each check, the download of the finished video,
   * the upload, and the clock and UUID used for the name and the duration.
   */
  datatype World = World(
    apiKey: Option<string>,
    storageBucket: Option<string>,
    fetch: ImageFetch,
    startError: Option<string>,
    initiallyDone: bool,
    answers: seq<PollAnswer>,
    clock: seq<nat>,
    download: Result<seq<bv8>, string>,
    uploadError: Option<string>,
    epochSeconds: int,
    uuidText: string,
    endMs: nat)

  predicate ValidWorld(w: World) {
    Ticking(w.clock) && |w.uuidText| >= 8
  }

  /** The trace of one call: its result, whether a video job was started, how many polls were made, and the object written. */
  datatype VideoRun = VideoRun(result: VideoResult, started: bool, polls: nat, stored: Option<string>)

  /** The `except` branch: failed, with the exception's text and the elapsed whole seconds. */
  function Raised(message: string, w: World): VideoResult {
    Failure(message, Some(w.endMs / 1000))
  }

  /** `generate_video`, check by check, in the order the function runs them. */
  function VideoOutcome(body: RequestBody, w: World): VideoRun
    requires ValidWorld(w)
  {
    if body.Unreadable? then VideoRun(Raised(body.error, w), false, 0, None)
    else if NoJson(body) then VideoRun(Failure(NoJsonMessage, None), false, 0, None)
    else match Members(body)
      case Err(m) => VideoRun(Raised(m, w), false, 0, None)
      case Ok(keys) =>
      var missing := FirstMissing(keys, RequiredFields);
      if missing.Some? then VideoRun(Failure(MissingField(missing.value), None), false, 0, None)
      else if body.OtherValue? then VideoRun(Raised(body.indexError, w), false, 0, None)
      else
        var req := body.request;
        var imageUrl := req.fields["image_url"];
        var stepNumber := ValueOr(req.stepNumber, DefaultStepNumber);
        if Unset(w.apiKey) then VideoRun(Failure(NoApiKeyMessage, None), false, 0, None)
        else match w.fetch
          case FetchRaised(m) => VideoRun(Raised(m, w), false, 0, None)
          case FetchStatus(code) =>
            if code != 200 then VideoRun(Failure(FetchFailed(imageUrl), None), false, 0, None)
            else if w.startError.Some? then VideoRun(Raised(w.startError.value, w), false, 0, None)
            else match Polling(w.initiallyDone, w.answers, w.clock, 0)
              case TimedOut => VideoRun(Failure(TimeoutMessage, None), true, PollsBeforeTimeout(w), None)
              case PollError(m) => VideoRun(Raised(m, w), true, PollsBeforeError(w), None)
              case Finished(n) =>
                if w.download.Err? then VideoRun(Raised(w.download.error, w), true, n, None)
                else if Unset(w.storageBucket) then VideoRun(Failure(NoBucketMessage, None), true, n, None)
                else
                  var path := VideoPath(stepNumber, w.epochSeconds, w.uuidText);
                  if w.uploadError.Some? then VideoRun(Raised(w.uploadError.value, w), true, n, None)
                  else VideoRun(Success(Storage.BlobPublicUrl(w.storageBucket.value, path), w.endMs / 1000),
                                true, n, Some(path))
  }

  /** `ValueOr` as `dict.get(key, default)` on an optional field. */
  function ValueOr<T>(v: Option<T>, default: T): (r: T)
    ensures v.Some? ==> r == v.value
    ensures v.None? ==> r == default
  {
    if v.Some? then v.value else default
  }

  /** The number of polls made before the check that timed out. */
  function PollsBeforeTimeout(w: World): nat
    requires ValidWorld(w)
  {
    PollsUntilStop(w.initiallyDone, w.answers, w.clock, 0)
  }

  /** The number of polls made, counting the one that raised. */
  function PollsBeforeError(w: World): nat
    requires ValidWorld(w)
  {
    PollsUntilStop(w.initiallyDone, w.answers, w.clock, 0) + 1
  }

  /** The index of the check at which the loop stops without a finished job. */
  function PollsUntilStop(done: bool, answers: seq<PollAnswer>, clock: seq<nat>, k: nat): nat
    requires Ticking(clock) && k < |clock|
    decreases if done then 0 else TimeoutMs + 1 - clock[k]
  {
    if done || clock[k] > TimeoutMs then k
    else
      NextCheck(clock, k);
      match AnswerAt(answers, k)
      case PollRaised(_) => k
      case Running => PollsUntilStop(false, answers, clock, k + 1)
      case Done => PollsUntilStop(true, answers, clock, k + 1)
  }

  /**
   * `generate_video`: the checks, then the job polled in a loop that
   * sleeps ten seconds between polls, then the upload.
   */
  method GenerateVideo(body: RequestBody, w: World) returns (run: VideoRun)
    requires ValidWorld(w)
    ensures run == VideoOutcome(body, w)
  {
    if body.Unreadable? {
      return VideoRun(Raised(body.error, w), false, 0, None);
    }
    if NoJson(body) {
      return VideoRun(Failure(NoJsonMessage, None), false, 0, None);
    }
    var members := Members(body);
    if members.Err? {
      return VideoRun(Raised(members.error, w), false, 0, None);
    }
    var keys := members.value;
    var i := 0;
    while i < |RequiredFields|
      invariant 0 <= i <= |RequiredFields|
      invariant forall j | 0 <= j < i :: RequiredFields[j] in keys
    {
      if RequiredFields[i] !in keys {
        ghost var missing := FirstMissing(keys, RequiredFields);
        assert missing.Some? && missing.value == RequiredFields[i] by {
          var m :| 0 <= m < |RequiredFields| && missing.value == RequiredFields[m] && RequiredFields[m] !in keys &&
                   forall j | 0 <= j < m :: RequiredFields[j] in keys;
          assert m == i;
        }
        return VideoRun(Failure(MissingField(RequiredFields[i]), None), false, 0, None);
      }
      i := i + 1;
    }
    assert FirstMissing(keys, RequiredFields).None?;
    if body.OtherValue? {
      return VideoRun(Raised(body.indexError, w), false, 0, None);
    }
    var req := body.request;
    assert RequiredFields[0] in req.fields;
    var imageUrl := req.fields["image_url"];
    var stepNumber := if req.stepNumber.Some? then req.stepNumber.value else DefaultStepNumber;
    if Unset(w.apiKey) {
      return VideoRun(Failure(NoApiKeyMessage, None), false, 0, None);
    }
    if w.fetch.FetchRaised? {
      return VideoRun(Raised(w.fetch.message, w), false, 0, None);
    }
    if w.fetch.statusCode != 200 {
      return VideoRun(Failure(FetchFailed(imageUrl), None), false, 0, None);
    }
    if w.startError.Some? {
      return VideoRun(Raised(w.startError.value, w), false, 0, None);
    }
    var end := PollJob(w);
    match end {
      case TimedOut =>
        return VideoRun(Failure(TimeoutMessage, None), true, PollsBeforeTimeout(w), None);
      case PollError(m) =>
        return VideoRun(Raised(m, w), true, PollsBeforeError(w), None);
      case Finished(n) =>
        if w.download.Err? {
          return VideoRun(Raised(w.download.error, w), true, n, None);
        }
        if Unset(w.storageBucket) {
          return VideoRun(Failure(NoBucketMessage, None), true, n, None);
        }
        var path := VideoPath(stepNumber, w.epochSeconds, w.uuidText);
        if w.uploadError.Some? {
          return VideoRun(Raised(w.uploadError.value, w), true, n, None);
        }
        return VideoRun(Success(Storage.BlobPublicUrl(w.storageBucket.value, path), w.endMs / 1000), true, n, Some(path));
    }
  }

  /**
   * The polling loop: while the job is not done, give up once more than
   * 540 seconds have passed, else sleep and ask again.
   */
  method PollJob(w: World) returns (end: PollEnd)
    requires ValidWorld(w)
    ensures end == Polling(w.initiallyDone, w.answers, w.clock, 0)
  {
    var done := w.initiallyDone;
    var k := 0;
    while !done
      invariant k < |w.clock|
      invariant Polling(w.initiallyDone, w.answers, w.clock, 0) == Polling(done, w.answers, w.clock, k)
      decreases if done then 0 else TimeoutMs + 1 - w.clock[k]
    {
      if w.clock[k] > TimeoutMs {
        return TimedOut;
      }
      NextCheck(w.clock, k);
      var answer := AnswerAt(w.answers, k);
      if answer.PollRaised? {
        return PollError(answer.message);
      }
      done := answer.Done?;
      k := k + 1;
    }
    return Finished(k);
  }

  // ---------------------------------------------------------------------
  // Properties of generate_video
  // ---------------------------------------------------------------------

  /**
   * The request checks come first and in order: reading the body, its
   * truth value, then image_url, then prompt; a body that is not an object
   * but passes them raises when indexed. No job is started before all pass.
   */
  lemma RequestChecks(body: RequestBody, w: World)
    requires ValidWorld(w)
    ensures body.Unreadable? ==> VideoOutcome(body, w).result == Raised(body.error, w)
    ensures !body.Unreadable? && NoJson(body) ==> VideoOutcome(body, w).result == Failure(NoJsonMessage, None)
    ensures Inspected(body) && Members(body).Err? ==> VideoOutcome(body, w).result == Raised(Members(body).error, w)
    ensures Inspected(body) && Members(body).Ok? && "image_url" !in Members(body).value ==>
              VideoOutcome(body, w).result == Failure("Missing required field: image_url", None)
    ensures Inspected(body) && Members(body).Ok? && "image_url" in Members(body).value && "prompt" !in Members(body).value ==>
              VideoOutcome(body, w).result == Failure("Missing required field: prompt", None)
    ensures Inspected(body) && body.OtherValue? && Members(body).Ok?
            && "image_url" in Members(body).value && "prompt" in Members(body).value ==>
              VideoOutcome(body, w).result == Raised(body.indexError, w)
    ensures VideoOutcome(body, w).started ==>
              Inspected(body) && body.Object? && "image_url" in body.request.fields && "prompt" in body.request.fields
  {
    if Inspected(body) && Members(body).Ok? {
      var f := Members(body).value;
      var missing := FirstMissing(f, RequiredFields);
      if "image_url" !in f {
        assert missing.Some?;
        var i :| 0 <= i < 2 && missing.value == RequiredFields[i] && RequiredFields[i] !in f &&
                 forall j | 0 <= j < i :: RequiredFields[j] in f;
        assert i == 0;
      } else if "prompt" !in f {
        assert RequiredFields[1] !in f;
        var i :| 0 <= i < 2 && missing.value == RequiredFields[i] && RequiredFields[i] !in f &&
                 forall j | 0 <= j < i :: RequiredFields[j] in f;
        assert i == 1;
      } else {
        assert RequiredFields[0] in f && RequiredFields[1] in f;
      }
    }
  }

  /** A request that names no step is the first step. */
  lemma StepNumberDefault(req: VideoRequest, w: World)
    requires ValidWorld(w)
    requires "image_url" in req.fields && "prompt" in req.fields
    requires req.stepNumber.None?
    ensures VideoOutcome(Object(req), w).stored.Some? ==>
              VideoOutcome(Object(req), w).stored.value == VideoPath(1, w.epochSeconds, w.uuidText)
  {
    assert Inspected(Object(req));
    assert FirstMissing(req.fields.Keys, RequiredFields).None?;
  }

  /** No API key, or an image that cannot be fetched, fails before any video job is started. */
  lemma NoJobWithoutKeyOrImage(body: RequestBody, w: World)
    requires ValidWorld(w)
    requires Unset(w.apiKey) || (w.fetch.FetchStatus? && w.fetch.statusCode != 200) || w.fetch.FetchRaised?
    ensures VideoOutcome(body, w).result.Failure?
    ensures !VideoOutcome(body, w).started && VideoOutcome(body, w).polls == 0
  {
  }

  /** A job that is already done when it is created is never polled. */
  lemma DoneJobNotPolled(body: RequestBody, w: World)
    requires ValidWorld(w) && w.initiallyDone
    ensures VideoOutcome(body, w).polls == 0
  {
    DoneIsNotPolled(w.answers, w.clock);
  }

  /**
   * Success exactly when every step went through; a successful result
   * carries the public URL of the stored object and the whole seconds
   * elapsed, and the stored object lives under `videos/`.
   */
  lemma SuccessMeaning(body: RequestBody, w: World)
    requires ValidWorld(w)
    ensures var run := VideoOutcome(body, w);
            run.result.Success? <==>
              && body.Object? && !NoJson(body)
              && "image_url" in body.request.fields && "prompt" in body.request.fields
              && !Unset(w.apiKey) && w.fetch == FetchStatus(200) && w.startError.None?
              && Polling(w.initiallyDone, w.answers, w.clock, 0).Finished?
              && w.download.Ok? && !Unset(w.storageBucket) && w.uploadError.None?
    ensures var run := VideoOutcome(body, w);
            run.result.Success? ==>
              && run.started && run.stored.Some?
              && run.result.duration == w.endMs / 1000 >= 0
              && run.result.videoUrl == Storage.BlobPublicUrl(w.storageBucket.value, run.stored.value)
              && StartsWith(run.stored.value, VideoDir + VideoPrefix)
              && EndsWith(run.stored.value, ".mp4")
              && run.polls <= 55
  {
    RequestChecks(body, w);
    var run := VideoOutcome(body, w);
    if run.result.Success? {
      var req := body.request;
      VideoPathShape(ValueOr(req.stepNumber, DefaultStepNumber), w.epochSeconds, w.uuidText);
      PollingBound(w.initiallyDone, w.answers, w.clock);
    }
    if body.Object? && !NoJson(body) && "image_url" in body.request.fields && "prompt" in body.request.fields {
      assert RequiredFields[0] in body.request.fields.Keys && RequiredFields[1] in body.request.fields.Keys;
    }
  }

  /**
   * A failure carries a duration exactly when an exception was caught: its
   * text is then one the outside world raised. The checks that return
   * early (body, fields, key, fetch status, timeout, bucket) carry none.
   */
  lemma FailureDuration(body: RequestBody, w: World)
    requires ValidWorld(w)
    ensures var r := VideoOutcome(body, w).result;
            r.Failure? && r.raisedDuration.Some? ==>
              r.raisedDuration.value == w.endMs / 1000 && r.error in ExceptionTexts(body, w)
    ensures var r := VideoOutcome(body, w).result;
            r.Failure? && r.raisedDuration.None? ==>
              || r.error in {NoJsonMessage, NoApiKeyMessage, NoBucketMessage, TimeoutMessage}
              || StartsWith(r.error, MissingField(""))
              || StartsWith(r.error, FetchFailed(""))
  {
    RaisedMeaning(w.initiallyDone, w.answers, w.clock, 0);
    var r := VideoOutcome(body, w).result;
    if r.Failure? && r.raisedDuration.None? && Inspected(body) && Members(body).Ok? {
      var missing := FirstMissing(Members(body).value, RequiredFields);
      if missing.Some? {
        assert (MissingField("") + missing.value)[..|MissingField("")|] == MissingField("");
      } else if body.Object? && "image_url" in body.request.fields {
        var url := body.request.fields["image_url"];
        assert (FetchFailed("") + url)[..|FetchFailed("")|] == FetchFailed("");
      }
    }
  }

  /** The texts the body's and the world's exceptions could carry. */
  function ExceptionTexts(body: RequestBody, w: World): (s: set<string>)
    ensures body.Unreadable? ==> body.error in s
    ensures body.OtherValue? ==> body.indexError in s
    ensures w.startError.Some? ==> w.startError.value in s
    ensures w.uploadError.Some? ==> w.uploadError.value in s
    ensures forall j | 0 <= j < |w.answers| && w.answers[j].PollRaised? :: w.answers[j].message in s
  {
    (if body.Unreadable? then {body.error} else {}) +
    (if body.OtherValue? then {body.indexError} else {}) +
    (if body.OtherValue? && body.members.Err? then {body.members.error} else {}) +
    (if w.fetch.FetchRaised? then {w.fetch.message} else {}) +
    (if w.startError.Some? then {w.startError.value} else {}) +
    (set j | 0 <= j < |w.answers| && w.answers[j].PollRaised? :: w.answers[j].message) +
    (if w.download.Err? then {w.download.error} else {}) +
    (if w.uploadError.Some? then {w.uploadError.value} else {})
  }

  /**
   * The timeout failure comes exactly from a started job whose polling ran
   * past the budget: every check before was within it and every answer
   * was "running".
   */
  lemma TimeoutMeaning(body: RequestBody, w: World)
    requires ValidWorld(w)
    ensures VideoOutcome(body, w).result == Failure(TimeoutMessage, None) <==>
              VideoOutcome(body, w).started && Polling(w.initiallyDone, w.answers, w.clock, 0).TimedOut?
    ensures VideoOutcome(body, w).result == Failure(TimeoutMessage, None) ==>
              && !w.initiallyDone
              && exists n: nat :: RanUntil(w.answers, w.clock, 0, n) && w.clock[n] > TimeoutMs
  {
    TimedOutMeaning(w.initiallyDone, w.answers, w.clock, 0);
    assert TimeoutMessage[0] == 'V';
    forall x: string ensures MissingField(x) != TimeoutMessage && FetchFailed(x) != TimeoutMessage {
      assert MissingField(x)[0] == 'M';
      assert FetchFailed(x)[0] == 'F';
    }
  }

  // ---------------------------------------------------------------------
  // main
  // ---------------------------------------------------------------------

  /** The body of an HTTP reply: empty for a preflight, otherwise a JSON result. */
  datatype ReplyBody = EmptyBody | JsonBody(result: VideoResult)
  datatype Reply = Reply(body: ReplyBody, statusCode: int, headers: map<string, string>)

  /** The CORS headers every reply carries, the preflight's included. */
  const CorsHeaders: map<string, string> := map[
    "Access-Control-Allow-Origin" := "*",
    "Access-Control-Allow-Methods" := "GET, POST, OPTIONS",
    "Access-Control-Allow-Headers" := "Content-Type"]

  const OnlyPostMessage := "Only POST method allowed"

  /** `main`: the preflight, the method check, and the status of the result. */
  function HttpReply(httpMethod: string, body: RequestBody, w: World): (r: Reply)
    requires ValidWorld(w)
  {
    if httpMethod == "OPTIONS" then Reply(EmptyBody, 204, CorsHeaders)
    else if httpMethod != "POST" then Reply(JsonBody(Failure(OnlyPostMessage, None)), 405, CorsHeaders)
    else
      var result := VideoOutcome(body, w).result;
      Reply(JsonBody(result), if result.Success? then 200 else 500, CorsHeaders)
  }

  /** The status codes of `main`, and 200 exactly for a POST whose video was made. */
  lemma ReplyStatus(httpMethod: string, body: RequestBody, w: World)
    requires ValidWorld(w)
    ensures var r := HttpReply(httpMethod, body, w);
            && r.statusCode in {200, 204, 405, 500}
            && (r.statusCode == 204 <==> httpMethod == "OPTIONS")
            && (r.statusCode == 204 <==> r.body == EmptyBody)
            && (r.statusCode == 405 <==> httpMethod != "OPTIONS" && httpMethod != "POST")
            && (r.statusCode == 200 <==> httpMethod == "POST" && VideoOutcome(body, w).result.Success?)
            && (r.statusCode == 500 <==> httpMethod == "POST" && VideoOutcome(body, w).result.Failure?)
            && (r.body.JsonBody? ==> StatusText(r.body.result) == (if r.statusCode == 200 then "success" else "failed"))
            && r.headers["Access-Control-Allow-Origin"] == "*"
            && r.headers["Access-Control-Allow-Methods"] == "GET, POST, OPTIONS"
  {
  }
}
