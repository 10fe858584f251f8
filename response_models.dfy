/**
 * Response validation: apps/api/app/models/response.py.
 * Field-type checks and the `gt`/`min_length` constraints are Pydantic's;
 * their messages are written with Pydantic's wording.
 */
module ResponseModels {
  import opened Wrappers
  import opened Text

  const InvalidUrlMessage := "Invalid URL format"

  predicate HasWebScheme(v: string) {
    StartsWith(v, "http://") || StartsWith(v, "https://")
  }

  /** The scheme of a URL accepted by `HasWebScheme`. */
  function SchemeOf(v: string): (s: string)
    requires HasWebScheme(v)
    ensures StartsWith(v, s + "://")
  {
    if StartsWith(v, "http://") then "http" else "https"
  }

  /**
   * Reference meaning of a well-formed style URL: an http(s) scheme, no
   * second "://", and a host part (up to the first "/") that is non-empty
   * and holds a dot.
   */
  predicate IsWebUrl(v: string) {
    HasWebScheme(v)
    && var rest := v[|SchemeOf(v)| + 3..];
       !Contains(rest, "://")
       && var domain := TakeUntil(rest, '/');
          |domain| > 0 && '.' in domain
  }

  /** An https URL whose rest has no "://" and whose host part is non-empty with a dot is well-formed. */
  lemma HttpsUrl(rest: string)
    requires !Contains(rest, "://")
    requires |TakeUntil(rest, '/')| > 0 && '.' in TakeUntil(rest, '/')
    ensures IsWebUrl("https://" + rest)
  {
    var v := "https://" + rest;
    assert v[..8] == "https://";
    assert v[4] != "http://"[4];
    assert SchemeOf(v) == "https";
    assert v[8..] == rest;
  }

  /** Splitting an http(s) URL on "://" yields the scheme, then the pieces of the rest. */
  lemma SchemeSplit(v: string)
    requires HasWebScheme(v)
    ensures SplitOn(v, "://") == [SchemeOf(v)] + SplitOn(v[|SchemeOf(v)| + 3..], "://")
  {
    var s := SchemeOf(v);
    assert v[..|s| + 3] == s + "://";
    assert v[|s|..|s| + 3] == v[..|s| + 3][|s|..];
    forall j | 0 <= j < |s|
      ensures !OccursAt(v, "://", j)
    {
      assert v[j] == (s + "://")[j] == s[j];
      assert v[j..j + 3][0] == v[j];
    }
    SplitOnAt(v, "://", |s|);
    assert v[..|s|] == v[..|s| + 3][..|s|];
  }

  /** The host part as the validator computes it: `rest.split("/")[0]`. */
  lemma DomainIsPrefix(rest: string)
    ensures (if '/' in rest then SplitOn(rest, "/")[0] else rest) == TakeUntil(rest, '/')
  {
    if '/' in rest {
      SplitFirstPiece(rest, '/');
    } else {
      var d := TakeUntil(rest, '/');
      assert |d| == |rest|;
    }
  }

  /** `GeneratedStyle.validate_url`: every rejection is reported as "Invalid URL format". */
  function ValidateUrl(v: string): (r: Result<string, string>)
    ensures r.Ok? <==> IsWebUrl(v)
    ensures r.Ok? ==> r.value == v
    ensures r.Err? ==> r.error == InvalidUrlMessage
  {
    if !HasWebScheme(v) then Err(InvalidUrlMessage)
    else
      var parts := SplitOn(v, "://");
      SchemeSplit(v);
      var restPieces := SplitOn(v[|SchemeOf(v)| + 3..], "://");
      assert |parts| == 2 <==> IndexOf(v[|SchemeOf(v)| + 3..], "://").None?;
      if |parts| != 2 then Err(InvalidUrlMessage)
      else if parts[0] != "http" && parts[0] != "https" then
        // "URL must use http or https protocol", re-raised as the generic message
        Err(InvalidUrlMessage)
      else
        var rest := parts[1];
        var domain := if '/' in rest then SplitOn(rest, "/")[0] else rest;
        DomainIsPrefix(rest);
        if |domain| == 0 || '.' !in domain then Err(InvalidUrlMessage)
        else Ok(v)
  }

  datatype GeneratedStyle = GeneratedStyle(id: string, title: string, description: string, imageUrl: string)

  /** Constructing a `GeneratedStyle`: only the image URL is checked. */
  function MakeGeneratedStyle(id: string, title: string, description: string, imageUrl: string)
    : (r: Result<GeneratedStyle, string>)
    ensures r.Ok? <==> IsWebUrl(imageUrl)
    ensures r.Ok? ==> r.value == GeneratedStyle(id, title, description, imageUrl)
    ensures r.Err? ==> r.error == InvalidUrlMessage
  {
    match ValidateUrl(imageUrl)
    case Err(e) => Err(e)
    case Ok(u) => Ok(GeneratedStyle(id, title, description, u))
  }

  /** `GenerateStylesResponse`: `min_length=1` rejects an empty list before the field validator runs. */
  function ValidateStyles(styles: seq<GeneratedStyle>): (r: Result<seq<GeneratedStyle>, string>)
    ensures r.Ok? <==> |styles| >= 1
    ensures r.Ok? ==> r.value == styles
  {
    if |styles| < 1 then Err("List should have at least 1 item after validation, not 0")
    else Ok(styles)
  }

  /** `TutorialStep.validate_urls`: the scheme test alone. */
  function ValidateStepUrl(v: string): (r: Result<string, string>)
    ensures r.Ok? <==> HasWebScheme(v)
    ensures r.Ok? ==> r.value == v
    ensures r.Err? ==> r.error == InvalidUrlMessage
  {
    if !HasWebScheme(v) then Err(InvalidUrlMessage) else Ok(v)
  }

  /** Every well-formed style URL passes the weaker step-URL check. */
  lemma StyleUrlIsStepUrl(v: string)
    ensures ValidateUrl(v).Ok? ==> ValidateStepUrl(v).Ok?
  {
  }

  datatype TutorialStep = TutorialStep(
    stepNumber: int, title: string, description: string,
    imageUrl: string, videoUrl: string, tools: seq<string>)

  predicate ValidStep(s: TutorialStep) {
    s.stepNumber > 0 && HasWebScheme(s.imageUrl) && HasWebScheme(s.videoUrl)
  }

  /** Constructing a `TutorialStep`: a positive number and two http(s) URLs. */
  function MakeTutorialStep(stepNumber: int, title: string, description: string,
                            imageUrl: string, videoUrl: string, tools: seq<string>)
    : (r: Result<TutorialStep, string>)
    ensures r.Ok? <==> ValidStep(TutorialStep(stepNumber, title, description, imageUrl, videoUrl, tools))
    ensures r.Ok? ==> r.value == TutorialStep(stepNumber, title, description, imageUrl, videoUrl, tools)
  {
    if stepNumber <= 0 then Err("Input should be greater than 0")
    else if ValidateStepUrl(imageUrl).Err? then Err(InvalidUrlMessage)
    else if ValidateStepUrl(videoUrl).Err? then Err(InvalidUrlMessage)
    else Ok(TutorialStep(stepNumber, title, description, imageUrl, videoUrl, tools))
  }

  datatype TutorialResponse = TutorialResponse(
    id: string, title: string, description: string, totalSteps: int, steps: seq<TutorialStep>)

  /** The invariant every constructed `TutorialResponse` satisfies. */
  predicate ValidResponse(t: TutorialResponse) {
    t.totalSteps > 0 && t.totalSteps == |t.steps|
  }

  /**
   * Constructing a `TutorialResponse`: the `gt=0` field check first, then the
   * model validator comparing `total_steps` with the number of steps.
   */
  function MakeTutorialResponse(id: string, title: string, description: string,
                                totalSteps: int, steps: seq<TutorialStep>)
    : (r: Result<TutorialResponse, string>)
    ensures r.Ok? <==> totalSteps > 0 && totalSteps == |steps|
    ensures r.Ok? ==> r.value == TutorialResponse(id, title, description, totalSteps, steps) && ValidResponse(r.value)
    ensures totalSteps > 0 && totalSteps != |steps| ==>
      r == Err("total_steps (" + IntToString(totalSteps) + ") must match the number of steps ("
               + IntToString(|steps|) + ")")
  {
    if totalSteps <= 0 then Err("Input should be greater than 0")
    else if totalSteps != |steps| then
      Err("total_steps (" + IntToString(totalSteps) + ") must match the number of steps ("
          + IntToString(|steps|) + ")")
    else Ok(TutorialResponse(id, title, description, totalSteps, steps))
  }

  /** A response with no steps can never be constructed. */
  lemma NoEmptyTutorial(id: string, title: string, description: string, totalSteps: int)
    ensures MakeTutorialResponse(id, title, description, totalSteps, []).Err?
  {
  }

  datatype ErrorResponse = ErrorResponse(error: string, message: string, details: Option<map<string, string>>)
}
