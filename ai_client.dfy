/**
 * The Gemini client wrapper: apps/api/app/services/ai_client.py.
 * The SDK is an oracle: a call's outcome arrives as a value, and a response
 * is the candidates/content/parts tree the extractors walk.
 */
module AiClient {
  import opened Wrappers
  import opened Text

  const SupportedModels: seq<string> := [
    "gemini-2.5-flash",
    "gemini-2.5-flash-image-preview",
    "gemini-2.0-flash-lite",
    "veo-3.0-generate-001"
  ]

  /** `validate_model_name`: a non-empty name from the supported list. */
  function ValidateModelName(model: string): (r: bool)
    ensures r <==> model in SupportedModels
    ensures r ==> |model| > 0
  {
    if |model| == 0 then false else model in SupportedModels
  }

  datatype Client = Client(apiKey: string)

  /**
   * `AIClient.__init__`: the argument key, or the configured one when the
   * argument is absent or empty; `sdkError` is what `genai.Client` raised.
   */
  function InitClient(apiKey: Option<string>, settingsKey: string, sdkError: Option<string>): (r: Result<Client, string>)
    ensures r.Ok? ==> |r.value.apiKey| > 0 && sdkError.None?
    ensures r.Ok? ==> r.value.apiKey == (if apiKey.Some? && |apiKey.value| > 0 then apiKey.value else settingsKey)
    ensures (apiKey.None? || apiKey.value == "") && settingsKey == "" ==> r == Err("GOOGLE_API_KEY is not set")
    ensures ((apiKey.Some? && |apiKey.value| > 0) || |settingsKey| > 0) && sdkError.Some? ==>
      r == Err("Failed to initialize AI client: " + sdkError.value)
  {
    var key := if apiKey.Some? && |apiKey.value| > 0 then apiKey.value else settingsKey;
    if |key| == 0 then Err("GOOGLE_API_KEY is not set")
    else match sdkError
      case Some(e) => Err("Failed to initialize AI client: " + e)
      case None => Ok(Client(key))
  }

  /** An image handed to the model; its pixels are not interpreted here. */
  datatype Image = Image(bytes: seq<byte>)

  datatype ContentItem = PromptItem(text: string) | ImageItem(image: Image)

  /** The `contents` list `generate_content` sends: the prompt, then the image if any. */
  function ContentsFor(prompt: string, image: Option<Image>): (r: seq<ContentItem>)
    ensures |r| >= 1 && r[0] == PromptItem(prompt)
    ensures image.None? <==> |r| == 1
    ensures image.Some? ==> r == [PromptItem(prompt), ImageItem(image.value)]
  {
    if image.None? then [PromptItem(prompt)] else [PromptItem(prompt), ImageItem(image.value)]
  }

  /** `generate_content`: one SDK call; an SDK exception becomes "Failed to generate content: …". */
  function GenerateContent(sdk: Result<Response, string>): (r: Result<Response, string>)
    ensures r.Ok? <==> sdk.Ok?
    ensures r.Ok? ==> r.value == sdk.value
    ensures r.Err? ==> StartsWith(r.error, "Failed to generate content: ") && EndsWith(r.error, sdk.error)
  {
    match sdk
    case Ok(resp) => Ok(resp)
    case Err(e) => Err("Failed to generate content: " + e)
  }

  // ---------------------------------------------------------------- responses

  /** A response part: optional text and optional inline binary data. */
  datatype Part = Part(text: Option<string>, inlineData: Option<seq<byte>>)
  /** A candidate; `None` content is skipped by both extractors. */
  datatype Candidate = Candidate(content: Option<seq<Part>>)
  datatype Response = Response(candidates: seq<Candidate>)

  function PartsOf(c: Candidate): seq<Part> {
    match c.content
    case None => []
    case Some(parts) => parts
  }

  /** All parts of all candidates, in scanning order. */
  function AllParts(cs: seq<Candidate>): seq<Part> {
    if |cs| == 0 then [] else AllParts(cs[..|cs| - 1]) + PartsOf(cs[|cs| - 1])
  }

  lemma {:induction false} AllPartsAppend(xs: seq<Candidate>, ys: seq<Candidate>)
    ensures AllParts(xs + ys) == AllParts(xs) + AllParts(ys)
    decreases |ys|
  {
    if |ys| > 0 {
      var ys' := ys[..|ys| - 1];
      assert (xs + ys)[..|xs + ys| - 1] == xs + ys';
      AllPartsAppend(xs, ys');
    } else {
      assert xs + ys == xs;
    }
  }

  /** A part contributes its text when it has a non-empty one. */
  function TextOf(p: Part): seq<string> {
    if p.text.Some? && |p.text.value| > 0 then [p.text.value] else []
  }

  /** The texts the extractor collects from a run of parts, in order. */
  function PartTexts(parts: seq<Part>): seq<string> {
    if |parts| == 0 then [] else PartTexts(parts[..|parts| - 1]) + TextOf(parts[|parts| - 1])
  }

  /** At most one text per part, and none of them empty. */
  lemma {:induction false} PartTextsBounds(parts: seq<Part>)
    ensures |PartTexts(parts)| <= |parts|
    ensures forall k | 0 <= k < |PartTexts(parts)| :: |PartTexts(parts)[k]| > 0
  {
    if |parts| > 0 {
      PartTextsBounds(parts[..|parts| - 1]);
    }
  }

  /** The collected texts are exactly the non-empty texts of the parts. */
  lemma {:induction false} PartTextsMembers(parts: seq<Part>, t: string)
    ensures t in PartTexts(parts) <==> |t| > 0 && exists k | 0 <= k < |parts| :: parts[k].text == Some(t)
  {
    if |parts| > 0 {
      var init := parts[..|parts| - 1];
      PartTextsMembers(init, t);
      if exists k | 0 <= k < |parts| :: parts[k].text == Some(t) {
        var k :| 0 <= k < |parts| && parts[k].text == Some(t);
        if k < |parts| - 1 {
          assert init[k] == parts[k];
        }
      }
      forall k | 0 <= k < |init| ensures init[k] == parts[k] { }
    }
  }

  function ResponseTexts(response: Option<Response>): seq<string> {
    match response
    case None => []
    case Some(resp) => PartTexts(AllParts(resp.candidates))
  }

  lemma PartTextsSnoc(parts: seq<Part>, p: Part)
    ensures PartTexts(parts + [p]) == PartTexts(parts) + TextOf(p)
  {
    assert (parts + [p])[..|parts|] == parts;
  }

  lemma AllPartsSnoc(cs: seq<Candidate>, i: nat)
    requires i < |cs|
    ensures AllParts(cs[..i + 1]) == AllParts(cs[..i]) + PartsOf(cs[i])
  {
    assert cs[..i + 1][..i] == cs[..i];
  }

  lemma TextStep(seen: seq<Part>, parts: seq<Part>, j: nat)
    requires j < |parts|
    ensures PartTexts(seen + parts[..j + 1]) == PartTexts(seen + parts[..j]) + TextOf(parts[j])
  {
    PartTextsSnoc(seen + parts[..j], parts[j]);
    assert seen + parts[..j + 1] == seen + parts[..j] + [parts[j]];
  }

  /** The inner loop of `extract_text_from_response`: the non-empty texts of one candidate's parts, appended in order. */
  method CollectPartTexts(parts: seq<Part>, ghost seen: seq<Part>, textParts: seq<string>) returns (collected: seq<string>)
    requires textParts == PartTexts(seen)
    ensures collected == PartTexts(seen + parts)
  {
    collected := textParts;
    var j := 0;
    assert seen + parts[..0] == seen;
    while j < |parts|
      invariant 0 <= j <= |parts|
      invariant collected == PartTexts(seen + parts[..j])
    {
      TextStep(seen, parts, j);
      if parts[j].text.Some? && |parts[j].text.value| > 0 {
        collected := collected + [parts[j].text.value];
      }
      j := j + 1;
    }
    assert parts[..j] == parts;
  }

  /** `extract_text_from_response`: the collected texts joined with newlines. */
  method ExtractTextFromResponse(response: Option<Response>) returns (text: string)
    ensures text == Join(ResponseTexts(response), "\n")
  {
    var textParts: seq<string> := [];
    if response.Some? {
      var cs := response.value.candidates;
      var i := 0;
      while i < |cs|
        invariant 0 <= i <= |cs|
        invariant textParts == PartTexts(AllParts(cs[..i]))
      {
        ghost var seen := AllParts(cs[..i]);
        AllPartsSnoc(cs, i);
        if cs[i].content.Some? {
          textParts := CollectPartTexts(cs[i].content.value, seen, textParts);
        } else {
          assert seen + PartsOf(cs[i]) == seen;
        }
        i := i + 1;
      }
      assert cs[..i] == cs;
      assert textParts == ResponseTexts(response);
    }
    text := Join(textParts, "\n");
  }

  /** Joining non-empty pieces gives the empty text only for no pieces. */
  lemma JoinNonEmpty(pieces: seq<string>, sep: string)
    requires forall k | 0 <= k < |pieces| :: |pieces[k]| > 0
    ensures Join(pieces, sep) == [] <==> |pieces| == 0
  {
    if |pieces| >= 2 {
      assert |Join(pieces, sep)| >= |pieces[0]|;
    }
  }

  /** No text is collected exactly when no part contributes one. */
  lemma {:induction false} PartTextsEmpty(parts: seq<Part>)
    ensures |PartTexts(parts)| == 0 <==> forall k | 0 <= k < |parts| :: TextOf(parts[k]) == []
  {
    if |parts| > 0 {
      var init, last := parts[..|parts| - 1], parts[|parts| - 1];
      PartTextsEmpty(init);
      assert PartTexts(parts) == PartTexts(init) + TextOf(last);
      if |PartTexts(parts)| == 0 {
        forall k | 0 <= k < |parts| ensures TextOf(parts[k]) == [] {
          if k < |init| {
            assert parts[k] == init[k];
          }
        }
      }
      if forall k | 0 <= k < |parts| :: TextOf(parts[k]) == [] {
        forall k | 0 <= k < |init| ensures TextOf(init[k]) == [] {
          assert init[k] == parts[k];
        }
        assert TextOf(last) == [];
      }
    }
  }

  /** The extracted text is empty exactly when no part carries non-empty text. */
  lemma ExtractedTextEmpty(response: Option<Response>)
    ensures Join(ResponseTexts(response), "\n") == [] <==>
      (response.None? || var parts := AllParts(response.value.candidates);
                         forall k | 0 <= k < |parts| :: TextOf(parts[k]) == [])
  {
    if response.Some? {
      assert ResponseTexts(response) == PartTexts(AllParts(response.value.candidates));
      PartTextsBounds(AllParts(response.value.candidates));
    }
    JoinNonEmpty(ResponseTexts(response), "\n");
    if response.Some? {
      PartTextsEmpty(AllParts(response.value.candidates));
    }
  }

  /** The data of the first part that carries inline data. */
  function FirstImage(parts: seq<Part>): (r: Option<seq<byte>>)
    ensures r.Some? <==> exists k | 0 <= k < |parts| :: parts[k].inlineData.Some?
    ensures r.Some? ==> exists k | 0 <= k < |parts| ::
      parts[k].inlineData == r && forall j | 0 <= j < k :: parts[j].inlineData.None?
  {
    if |parts| == 0 then None
    else if parts[0].inlineData.Some? then parts[0].inlineData
    else
      var r := FirstImage(parts[1..]);
      assert forall k | 1 <= k < |parts| :: parts[k] == parts[1..][k - 1];
      if r.Some? then
        var k :| 0 <= k < |parts[1..]| && parts[1..][k].inlineData == r
          && forall j | 0 <= j < k :: parts[1..][j].inlineData.None?;
        assert parts[k + 1].inlineData == r;
        r
      else r
  }

  lemma {:induction false} FirstImageAppend(xs: seq<Part>, ys: seq<Part>)
    ensures FirstImage(xs + ys) == if FirstImage(xs).Some? then FirstImage(xs) else FirstImage(ys)
  {
    if |xs| > 0 {
      assert (xs + ys)[1..] == xs[1..] + ys;
      FirstImageAppend(xs[1..], ys);
    } else {
      assert xs + ys == ys;
    }
  }

  function ResponseImage(response: Option<Response>): Option<seq<byte>> {
    match response
    case None => None
    case Some(resp) => FirstImage(AllParts(resp.candidates))
  }

  /** Once the scan reaches a part with inline data, nothing after it matters. */
  lemma FoundImage(seen: seq<Part>, parts: seq<Part>, j: nat, rest: seq<Part>)
    requires j < |parts| && parts[j].inlineData.Some?
    requires FirstImage(seen + parts[..j]).None?
    ensures FirstImage(seen + parts + rest) == parts[j].inlineData
  {
    assert seen + parts + rest == (seen + parts[..j]) + (parts[j..] + rest);
    FirstImageAppend(seen + parts[..j], parts[j..] + rest);
    assert (parts[j..] + rest)[0] == parts[j];
  }

  /** The inner loop of `extract_image_from_response`: the first inline data among one candidate's parts. */
  method FindPartImage(parts: seq<Part>, ghost seen: seq<Part>) returns (found: Option<seq<byte>>)
    requires FirstImage(seen).None?
    ensures found == FirstImage(seen + parts)
  {
    var j := 0;
    assert seen + parts[..0] == seen;
    while j < |parts|
      invariant 0 <= j <= |parts|
      invariant FirstImage(seen + parts[..j]).None?
    {
      if parts[j].inlineData.Some? {
        FoundImage(seen, parts, j, []);
        assert seen + parts + [] == seen + parts;
        return parts[j].inlineData;
      }
      FirstImageAppend(seen + parts[..j], [parts[j]]);
      assert seen + parts[..j + 1] == seen + parts[..j] + [parts[j]];
      j := j + 1;
    }
    assert parts[..j] == parts;
    return None;
  }

  /** Inline data found among the first `i + 1` candidates is the response's first. */
  lemma FoundInCandidate(cs: seq<Candidate>, i: nat)
    requires i < |cs| && FirstImage(AllParts(cs[..i + 1])).Some?
    ensures FirstImage(AllParts(cs)) == FirstImage(AllParts(cs[..i + 1]))
  {
    var front, back := cs[..i + 1], cs[i + 1..];
    assert front + back == cs;
    AllPartsAppend(front, back);
    FirstImageAppend(AllParts(front), AllParts(back));
  }

  /** `extract_image_from_response`: scan candidates and parts, return the first inline data. */
  method ExtractImageFromResponse(response: Option<Response>) returns (data: Option<seq<byte>>)
    ensures data == ResponseImage(response)
  {
    if response.None? {
      return None;
    }
    var cs := response.value.candidates;
    var i := 0;
    while i < |cs|
      invariant 0 <= i <= |cs|
      invariant FirstImage(AllParts(cs[..i])).None?
    {
      ghost var seen := AllParts(cs[..i]);
      AllPartsSnoc(cs, i);
      if cs[i].content.Some? {
        var found := FindPartImage(cs[i].content.value, seen);
        if found.Some? {
          FoundInCandidate(cs, i);
          return found;
        }
      } else {
        assert seen + PartsOf(cs[i]) == seen;
      }
      i := i + 1;
    }
    assert cs[..i] == cs;
    return None;
  }

  // ---------------------------------------------------------------- retries

  /** The first successful outcome among the first `n`. */
  function FirstOk<T, E>(outcomes: seq<Result<T, E>>, n: nat): (r: Option<nat>)
    requires n <= |outcomes|
    ensures r.Some? ==> r.value < n && outcomes[r.value].Ok? && forall j | 0 <= j < r.value :: outcomes[j].Err?
    ensures r.None? ==> forall j | 0 <= j < n :: outcomes[j].Err?
  {
    if n == 0 then None
    else match FirstOk(outcomes, n - 1)
      case Some(k) => Some(k)
      case None => if outcomes[n - 1].Ok? then Some(n - 1) else None
  }

  /** The wait after failed attempt `a`: `delay * 2**a`. */
  function BackoffDelay(delay: real, a: nat): real {
    delay * Pow2(a) as real
  }

  /** Sleeps before retries 1..m of an exponential backoff starting at `delay`. */
  function Backoff(delay: real, m: nat): (r: seq<real>)
    ensures |r| == m
    ensures forall a | 0 <= a < m :: r[a] == BackoffDelay(delay, a)
  {
    seq(m, a requires 0 <= a => BackoffDelay(delay, a))
  }

  function Sum(xs: seq<real>): real {
    if |xs| == 0 then 0.0 else Sum(xs[..|xs| - 1]) + xs[|xs| - 1]
  }

  /** The backoff waits add up to delay·(2^m − 1). */
  lemma {:induction false} BackoffTotal(delay: real, m: nat)
    ensures Sum(Backoff(delay, m)) == delay * (Pow2(m) - 1) as real
  {
    if m > 0 {
      assert Backoff(delay, m)[..m - 1] == Backoff(delay, m - 1);
      BackoffTotal(delay, m - 1);
    }
  }

  lemma BackoffSnoc(delay: real, m: nat)
    ensures Backoff(delay, m + 1) == Backoff(delay, m) + [BackoffDelay(delay, m)]
  {
    var a, b := Backoff(delay, m + 1), Backoff(delay, m) + [BackoffDelay(delay, m)];
    assert forall k | 0 <= k < m + 1 :: a[k] == b[k];
  }

  /** The error text of the last failed call, or `None` when no call was made. */
  function LastErrorText(outcomes: seq<Result<Response, string>>, n: nat): string
    requires n <= |outcomes|
  {
    if n == 0 || outcomes[n - 1].Ok? then "None"
    else "Failed to generate content: " + outcomes[n - 1].error
  }

  /**
   * `generate_content_with_retry`: `outcomes[a]` is what the SDK does on
   * attempt `a`. Returns the first success; otherwise the summary error.
   */
  method GenerateContentWithRetry(outcomes: seq<Result<Response, string>>, maxRetries: int, delay: real)
    returns (r: Result<Response, string>, calls: nat, sleeps: seq<real>)
    requires maxRetries <= |outcomes|
    ensures var n := if maxRetries < 0 then 0 else maxRetries;
      match FirstOk(outcomes, n)
      case Some(k) => r == Ok(outcomes[k].value) && calls == k + 1
      case None =>
        r == Err("Failed after " + IntToString(maxRetries) + " retries: " + LastErrorText(outcomes, n))
        && calls == n
    ensures sleeps == Backoff(delay, if calls == 0 then 0 else calls - 1)
  {
    var n: nat := if maxRetries < 0 then 0 else maxRetries;
    var lastError: Option<string> := None;
    sleeps := [];
    calls := 0;
    var attempt := 0;
    while attempt < n
      invariant 0 <= attempt <= n && calls == attempt
      invariant FirstOk(outcomes, attempt).None?
      invariant lastError.None? <==> attempt == 0
      invariant attempt > 0 ==> lastError == Some("Failed to generate content: " + outcomes[attempt - 1].error)
      invariant sleeps == Backoff(delay, if attempt == n && n > 0 then n - 1 else attempt)
    {
      calls := calls + 1;
      match outcomes[attempt]
      case Ok(resp) =>
        r := Ok(resp);
        return;
      case Err(e) =>
        lastError := Some("Failed to generate content: " + e);
        if attempt < n - 1 {
          BackoffSnoc(delay, attempt);
          sleeps := sleeps + [BackoffDelay(delay, attempt)];
        }
      attempt := attempt + 1;
    }
    var lastText := match lastError case None => "None" case Some(e) => e;
    r := Err("Failed after " + IntToString(maxRetries) + " retries: " + lastText);
  }
}
