/**
 * The tutorial structure service: apps/api/app/services/tutorial_structure.py.
 * The structured-output call to the model is outside: the service receives
 * what it returned (a procedure object, a dictionary, or an exception).
 */
module TutorialStructure {
  import opened Wrappers
  import opened Text

  // ---------------------------------------------------------------- models

  datatype Tool = Tool(name: string, description: string)

  datatype MakeupStep = MakeupStep(
    stepNumber: int, title: string, description: string, durationSeconds: int, toolsNeeded: seq<string>)

  datatype MakeupProcedure = MakeupProcedure(
    title: string, description: string, totalDurationMinutes: int, difficultyLevel: string,
    steps: seq<MakeupStep>, requiredTools: seq<Tool>)

  /** A dictionary as the model returned it: every field may be missing. */
  datatype RawTool = RawTool(name: Option<string>, description: Option<string>)

  datatype RawStep = RawStep(
    stepNumber: Option<int>, title: Option<string>, description: Option<string>,
    durationSeconds: Option<int>, toolsNeeded: Option<seq<string>>)

  datatype RawProcedure = RawProcedure(
    title: Option<string>, description: Option<string>, totalDurationMinutes: Option<int>,
    difficultyLevel: Option<string>, steps: Option<seq<RawStep>>, requiredTools: Option<seq<RawTool>>)

  const DefaultDurationSeconds := 30
  const MinDurationSeconds := 10
  const DifficultyLevels: seq<string> := ["beginner", "intermediate", "advanced"]
  const DifficultyMessage := "Difficulty must be one of ['beginner', 'intermediate', 'advanced']"

  /** The field bounds of `MakeupStep`. */
  predicate WellFormedStep(s: MakeupStep) {
    s.stepNumber >= 1 && |s.title| >= 1 && s.durationSeconds >= MinDurationSeconds
  }

  /** The field bounds of `MakeupProcedure`, `MakeupStep` and `Tool` together. */
  predicate WellFormedProcedure(p: MakeupProcedure) {
    |p.title| >= 1 && p.totalDurationMinutes >= 1 && p.difficultyLevel in DifficultyLevels
    && |p.steps| >= 1 && (forall i | 0 <= i < |p.steps| :: WellFormedStep(p.steps[i]))
    && (forall i | 0 <= i < |p.requiredTools| :: |p.requiredTools[i].name| >= 1)
  }

  /** `Tool(**d)`: both fields required, the name non-empty. */
  function MakeTool(raw: RawTool): (r: Result<Tool, string>)
    ensures r.Ok? <==> raw.name.Some? && |raw.name.value| >= 1 && raw.description.Some?
    ensures r.Ok? ==> r.value == Tool(raw.name.value, raw.description.value)
  {
    if raw.name.None? || |raw.name.value| < 1 then Err("name")
    else if raw.description.None? then Err("description")
    else Ok(Tool(raw.name.value, raw.description.value))
  }

  /** `MakeupStep(**d)`: a positive number, a non-empty title, at least 10 seconds (30 when absent), no tools when absent. */
  function MakeStep(raw: RawStep): (r: Result<MakeupStep, string>)
    ensures r.Ok? <==> raw.stepNumber.Some? && raw.stepNumber.value >= 1
                       && raw.title.Some? && |raw.title.value| >= 1 && raw.description.Some?
                       && (raw.durationSeconds.Some? ==> raw.durationSeconds.value >= MinDurationSeconds)
    ensures r.Ok? ==> WellFormedStep(r.value) && r.value.stepNumber == raw.stepNumber.value
                      && r.value.title == raw.title.value && r.value.description == raw.description.value
    ensures r.Ok? && raw.durationSeconds.None? ==> r.value.durationSeconds == DefaultDurationSeconds
    ensures r.Ok? && raw.durationSeconds.Some? ==> r.value.durationSeconds == raw.durationSeconds.value
    ensures r.Ok? && raw.toolsNeeded.None? ==> r.value.toolsNeeded == []
    ensures r.Ok? && raw.toolsNeeded.Some? ==> r.value.toolsNeeded == raw.toolsNeeded.value
  {
    if raw.stepNumber.None? || raw.stepNumber.value < 1 then Err("step_number")
    else if raw.title.None? || |raw.title.value| < 1 then Err("title")
    else if raw.description.None? then Err("description")
    else
      var duration := match raw.durationSeconds case None => DefaultDurationSeconds case Some(d) => d;
      if duration < MinDurationSeconds then Err("duration_seconds")
      else
        var tools := match raw.toolsNeeded case None => [] case Some(t) => t;
        Ok(MakeupStep(raw.stepNumber.value, raw.title.value, raw.description.value, duration, tools))
  }

  /** The list of steps: every element must validate. */
  function MakeSteps(raws: seq<RawStep>): (r: Result<seq<MakeupStep>, string>)
    ensures r.Ok? <==> forall i | 0 <= i < |raws| :: MakeStep(raws[i]).Ok?
    ensures r.Ok? ==> |r.value| == |raws| && forall i | 0 <= i < |raws| :: r.value[i] == MakeStep(raws[i]).value
    decreases |raws|
  {
    if |raws| == 0 then Ok([])
    else
      match MakeStep(raws[0])
      case Err(e) => Err(e)
      case Ok(s) =>
        match MakeSteps(raws[1..])
        case Err(e) => Err(e)
        case Ok(rest) =>
          assert forall i | 1 <= i < |raws| :: raws[i] == raws[1..][i - 1];
          Ok([s] + rest)
  }

  /** The list of tools: every element must validate. */
  function MakeTools(raws: seq<RawTool>): (r: Result<seq<Tool>, string>)
    ensures r.Ok? <==> forall i | 0 <= i < |raws| :: MakeTool(raws[i]).Ok?
    ensures r.Ok? ==> |r.value| == |raws| && forall i | 0 <= i < |raws| :: r.value[i] == MakeTool(raws[i]).value
    decreases |raws|
  {
    if |raws| == 0 then Ok([])
    else
      match MakeTool(raws[0])
      case Err(e) => Err(e)
      case Ok(t) =>
        match MakeTools(raws[1..])
        case Err(e) => Err(e)
        case Ok(rest) =>
          assert forall i | 1 <= i < |raws| :: raws[i] == raws[1..][i - 1];
          Ok([t] + rest)
  }

  /** `validate_difficulty`: one of the three levels in any case, stored lower-cased. */
  function ValidateDifficulty(v: string): (r: Result<string, string>)
    ensures r.Ok? <==> Lower(v) in DifficultyLevels
    ensures r.Ok? ==> r.value == Lower(v) && r.value in DifficultyLevels
    ensures r.Err? ==> r.error == DifficultyMessage
  {
    if Lower(v) !in DifficultyLevels then Err(DifficultyMessage) else Ok(Lower(v))
  }

  /** Validating an already validated level changes nothing. */
  lemma DifficultyIdempotent(v: string)
    requires ValidateDifficulty(v).Ok?
    ensures ValidateDifficulty(ValidateDifficulty(v).value) == ValidateDifficulty(v)
  {
    LowerIdempotent(v);
  }

  /**
   * `MakeupProcedure(**d)`: the fields in declaration order; the error names
   * the first field that failed.
   */
  function MakeProcedure(raw: RawProcedure): (r: Result<MakeupProcedure, string>)
    ensures r.Ok? ==> WellFormedProcedure(r.value)
    ensures r.Ok? ==> Some(r.value.title) == raw.title && Some(r.value.description) == raw.description
                      && Some(r.value.totalDurationMinutes) == raw.totalDurationMinutes
                      && raw.requiredTools.Some? && MakeTools(raw.requiredTools.value) == Ok(r.value.requiredTools)
                      && raw.difficultyLevel.Some? && r.value.difficultyLevel == Lower(raw.difficultyLevel.value)
                      && raw.steps.Some? && MakeSteps(raw.steps.value) == Ok(r.value.steps)
    ensures r.Ok? <==> raw.title.Some? && |raw.title.value| >= 1 && raw.description.Some?
                       && raw.totalDurationMinutes.Some? && raw.totalDurationMinutes.value >= 1
                       && raw.difficultyLevel.Some? && ValidateDifficulty(raw.difficultyLevel.value).Ok?
                       && raw.steps.Some? && |raw.steps.value| >= 1 && MakeSteps(raw.steps.value).Ok?
                       && raw.requiredTools.Some? && MakeTools(raw.requiredTools.value).Ok?
  {
    if raw.title.None? || |raw.title.value| < 1 then Err("title")
    else if raw.description.None? then Err("description")
    else if raw.totalDurationMinutes.None? || raw.totalDurationMinutes.value < 1 then Err("total_duration_minutes")
    else if raw.difficultyLevel.None? then Err("difficulty_level")
    else
      match ValidateDifficulty(raw.difficultyLevel.value)
      case Err(m) => Err(m)
      case Ok(level) =>
        if raw.steps.None? || |raw.steps.value| < 1 then Err("steps")
        else
          match MakeSteps(raw.steps.value)
          case Err(e) => Err(e)
          case Ok(steps) =>
            if raw.requiredTools.None? then Err("required_tools")
            else
              match MakeTools(raw.requiredTools.value)
              case Err(e) => Err(e)
              case Ok(tools) =>
                Ok(MakeupProcedure(raw.title.value, raw.description.value, raw.totalDurationMinutes.value,
                                   level, steps, tools))
  }

  // ---------------------------------------------------------------- prompt

  const PromptIntro :=
    "Create a detailed step-by-step makeup and hairstyling tutorial"
    + " for achieving the following style:\n"
  const PromptRequirements :=
    "\n\nProvide a complete tutorial with:"
    + "\n1. Clear title and description"
    + "\n2. Step-by-step instructions with specific techniques"
    + "\n3. Time estimate for each step"
    + "\n4. Required tools and products"
    + "\n5. Overall difficulty level (beginner, intermediate, or advanced)"
    + "\n\nMake the Japanese instructions clear and easy to follow"
    + " for someone learning this style."
  const TailorLabel := "\n\nTailor the tutorial "
  const RequirementsLabel := "\n\nAdditional requirements: "

  /** The gender table of `generate_tutorial_prompt`, looked up with the lower-cased gender; "" when absent. */
  function TutorialGenderText(gender: string): (r: string)
    ensures r != "" <==> Lower(gender) in ["male", "female", "neutral"]
  {
    var key := Lower(gender);
    if key == "male" then "for men"
    else if key == "female" then "for women"
    else if key == "neutral" then "as gender-neutral"
    else ""
  }

  /** Python truthiness of an optional string. */
  predicate Given(s: Option<string>) {
    s.Some? && |s.value| > 0
  }

  /** The text of an optional string that is given. */
  function GivenText(s: Option<string>): string
    requires Given(s)
  {
    s.value
  }

  /** The gender sentence: present when a gender is given and the table knows it. */
  function TailorClause(gender: Option<string>): (r: string)
    ensures r == [] || r[|r| - 1] == '.'
    ensures r != [] <==> Given(gender) && TutorialGenderText(gender.value) != ""
  {
    if Given(gender) && TutorialGenderText(gender.value) != "" then
      var t := TailorLabel + TutorialGenderText(gender.value) + ".";
      assert t[|t| - 1] == '.';
      t
    else ""
  }

  /** `generate_tutorial_prompt`: the base prompt, then the gender sentence, then the custom request. */
  function GenerateTutorialPrompt(styleDescription: string, gender: Option<string>, customRequest: Option<string>)
    : string
  {
    var basePrompt := PromptIntro + styleDescription + PromptRequirements;
    var custom := CustomText(customRequest);
    basePrompt + TailorClause(gender) + (if |custom| > 0 then RequirementsLabel + custom else "")
  }

  /**
   * The prompt starts with the base text holding the style description; the
   * gender sentence follows it exactly when the gender is known, and the
   * prompt ends with the custom request exactly when one is given.
   */
  lemma TutorialPromptShape(styleDescription: string, gender: Option<string>, customRequest: Option<string>)
    ensures var r := GenerateTutorialPrompt(styleDescription, gender, customRequest);
      var base := PromptIntro + styleDescription + PromptRequirements;
      StartsWith(r, base) && Contains(r, styleDescription)
      && (Given(gender) && TutorialGenderText(gender.value) != "" ==>
            OccursAt(r, TailorLabel + TutorialGenderText(gender.value) + ".", |base|))
      && (!(Given(gender) && TutorialGenderText(gender.value) != "") && !Given(customRequest) ==> r == base)
      && (Given(customRequest) <==> EndsWith(r, RequirementsLabel + CustomText(customRequest)))
  {
    var custom := CustomText(customRequest);
    var tailor := TailorClause(gender);
    PromptLastChars();
    TailoredPrompt(PromptIntro + styleDescription, PromptRequirements, tailor, RequirementsLabel, custom);
    ContainsSecondOfFive(PromptIntro, styleDescription, PromptRequirements, tailor,
                         if |custom| > 0 then RequirementsLabel + custom else "");
  }

  /** The custom request as the prompt sees it: absent and empty are the same. */
  function CustomText(customRequest: Option<string>): (r: string)
    ensures |r| > 0 <==> Given(customRequest)
  {
    match customRequest
    case None => ""
    case Some(c) => c
  }

  lemma PromptLastChars()
    ensures PromptRequirements[|PromptRequirements| - 1] == '.'
    ensures RequirementsLabel[|RequirementsLabel| - 1] == ' '
  {
  }

  /**
   * A prompt built as a head, a body ending in '.', an optional clause ending
   * in '.' and an optional labelled request: the clause sits right after the
   * body, and the prompt ends with the labelled request exactly when there is one.
   */
  lemma TailoredPrompt(head: string, body: string, clause: string, tag: string, custom: string)
    requires |body| > 0 && body[|body| - 1] == '.'
    requires clause == [] || clause[|clause| - 1] == '.'
    requires |tag| > 0 && tag[|tag| - 1] == ' '
    ensures var r := head + body + clause + (if |custom| > 0 then tag + custom else "");
      StartsWith(r, head + body) && OccursAt(r, clause, |head + body|)
      && (|custom| > 0 <==> EndsWith(r, tag + custom))
      && (clause == [] && |custom| == 0 ==> r == head + body)
  {
    var base := head + body;
    var tail := if |custom| > 0 then tag + custom else "";
    var r := base + clause + tail;
    assert r == base + (clause + tail);
    assert r[..|base|] == base;
    assert r[|base|..|base| + |clause|] == clause;
    if |custom| > 0 {
      EndsWithAppend(base + clause, tag + custom);
    } else {
      assert r == base + clause;
      assert r[|r| - 1] == '.';
      LastDiffers(r, tag + custom);
    }
  }

  // ---------------------------------------------------------------- checks and arithmetic

  /** The step numbers of a procedure, in order. */
  function StepNumbers(steps: seq<MakeupStep>): (r: seq<int>)
    ensures |r| == |steps| && forall i | 0 <= i < |steps| :: r[i] == steps[i].stepNumber
  {
    seq(|steps|, i requires 0 <= i < |steps| => steps[i].stepNumber)
  }

  /** `list(range(1, n + 1))`. */
  function Range1(n: nat): (r: seq<int>)
    ensures |r| == n && forall i | 0 <= i < n :: r[i] == i + 1
  {
    seq(n, i requires 0 <= i < n => i + 1)
  }

  const MaxTotalMinutes := 120

  /**
   * `validate_procedure`. `sorted(xs) == [1..n]` holds exactly when `xs` is a
   * permutation of `[1..n]`, which is what the multiset comparison states.
   */
  function ValidateProcedure(p: MakeupProcedure): bool {
    if |p.steps| == 0 then false
    else if multiset(StepNumbers(p.steps)) != multiset(Range1(|p.steps|)) then false
    else if p.totalDurationMinutes > MaxTotalMinutes then false
    else true
  }

  predicate Distinct(s: seq<int>) {
    forall i, j | 0 <= i < j < |s| :: s[i] != s[j]
  }

  /**
   * The step numbering passes exactly when every step number lies in 1..n
   * and no two steps share a number.
   */
  lemma ValidateProcedureMeaning(p: MakeupProcedure)
    ensures ValidateProcedure(p) <==>
      |p.steps| > 0 && p.totalDurationMinutes <= MaxTotalMinutes
      && (forall i | 0 <= i < |p.steps| :: 1 <= p.steps[i].stepNumber <= |p.steps|)
      && Distinct(StepNumbers(p.steps))
  {
    var xs, n := StepNumbers(p.steps), |p.steps|;
    PermutationOfRange(xs);
    forall i | 0 <= i < n ensures 1 <= xs[i] <= n <==> 1 <= p.steps[i].stepNumber <= n { }
  }

  /** A sequence is a permutation of `[1..n]` iff its elements lie in 1..n and are distinct. */
  lemma PermutationOfRange(xs: seq<int>)
    ensures multiset(xs) == multiset(Range1(|xs|)) <==>
      (forall i | 0 <= i < |xs| :: 1 <= xs[i] <= |xs|) && Distinct(xs)
  {
    var n := |xs|;
    var range := Range1(n);
    RangeDistinct(n);
    if multiset(xs) == multiset(range) {
      forall i | 0 <= i < n ensures 1 <= xs[i] <= n {
        assert xs[i] in multiset(xs);
        assert xs[i] in range;
      }
      if !Distinct(xs) {
        var i, j :| 0 <= i < j < n && xs[i] == xs[j];
        TwiceCounted(xs, i, j);
        DistinctCount(range, xs[i]);
        assert false;
      }
    }
    if (forall i | 0 <= i < n :: 1 <= xs[i] <= n) && Distinct(xs) {
      var sx, sr := set x | x in xs, set x | x in range;
      DistinctCard(xs);
      DistinctCard(range);
      assert sx <= sr by {
        forall v | v in sx ensures v in sr {
          var i :| 0 <= i < n && xs[i] == v;
          assert range[v - 1] == v;
        }
      }
      SubsetSameSize(sx, sr);
      forall v ensures multiset(xs)[v] == multiset(range)[v] {
        DistinctCount(xs, v);
        DistinctCount(range, v);
        assert v in xs <==> v in sx;
        assert v in range <==> v in sr;
      }
    }
  }

  lemma RangeDistinct(n: nat)
    ensures Distinct(Range1(n))
  {
  }

  /** A value at two indices is counted at least twice. */
  lemma TwiceCounted(xs: seq<int>, i: nat, j: nat)
    requires i < j < |xs| && xs[i] == xs[j]
    ensures multiset(xs)[xs[i]] >= 2
  {
    assert xs == xs[..j] + [xs[j]] + xs[j + 1..];
    assert xs[..j][i] == xs[i];
    assert xs[i] in multiset(xs[..j]);
  }

  /** In a sequence without repetitions each value is counted once or not at all. */
  lemma {:induction false} DistinctCount(xs: seq<int>, v: int)
    requires Distinct(xs)
    ensures multiset(xs)[v] == if v in xs then 1 else 0
    decreases |xs|
  {
    if |xs| > 0 {
      var init := xs[..|xs| - 1];
      assert xs == init + [xs[|xs| - 1]];
      DistinctCount(init, v);
      assert xs[|xs| - 1] !in init;
      assert v in xs <==> v in init || v == xs[|xs| - 1];
    }
  }

  /** A sequence without repetitions has as many distinct values as elements. */
  lemma {:induction false} DistinctCard(xs: seq<int>)
    requires Distinct(xs)
    ensures |set x | x in xs| == |xs|
    decreases |xs|
  {
    if |xs| > 0 {
      var init := xs[..|xs| - 1];
      var last := xs[|xs| - 1];
      DistinctCard(init);
      assert (set x | x in xs) == (set x | x in init) + {last};
      assert last !in (set x | x in init);
    }
  }

  /** A subset as large as its superset is the whole superset. */
  lemma SubsetSameSize(a: set<int>, b: set<int>)
    requires a <= b && |a| == |b|
    ensures a == b
  {
    assert a * b == a;
    assert |b - a| == 0;
    assert b - a == {};
  }

  /** Python's `sum(step.duration_seconds for step in steps)`. */
  function TotalSeconds(steps: seq<MakeupStep>): int
    decreases |steps|
  {
    if |steps| == 0 then 0 else steps[0].durationSeconds + TotalSeconds(steps[1..])
  }

  /** `calculate_total_duration`: the total rounded up to whole minutes. */
  function CalculateTotalDuration(steps: seq<MakeupStep>): (r: int)
    ensures (r - 1) * 60 < TotalSeconds(steps) <= r * 60
  {
    (TotalSeconds(steps) + 59) / 60
  }

  /** A worked example of the ceiling bounds of CalculateTotalDuration: steps of 60, 90 and 30 seconds take 3 minutes. */
  lemma DurationOfThreeSteps(a: MakeupStep, b: MakeupStep, c: MakeupStep)
    requires a.durationSeconds == 60 && b.durationSeconds == 90 && c.durationSeconds == 30
    ensures CalculateTotalDuration([a, b, c]) == 3
  {
    assert [a, b, c][1..] == [b, c];
    assert [b, c][1..] == [c];
    assert TotalSeconds([c]) == 30;
    assert TotalSeconds([b, c]) == 120;
    assert TotalSeconds([a, b, c]) == 180;
  }

  /** Non-empty well-formed steps take at least one minute. */
  lemma {:induction false} DurationPositive(steps: seq<MakeupStep>)
    requires |steps| > 0 && forall i | 0 <= i < |steps| :: WellFormedStep(steps[i])
    ensures TotalSeconds(steps) >= MinDurationSeconds * |steps|
    ensures CalculateTotalDuration(steps) >= 1
    decreases |steps|
  {
    if |steps| > 1 {
      DurationPositive(steps[1..]);
    }
    assert WellFormedStep(steps[0]);
  }

  // ---------------------------------------------------------------- response formatting

  datatype FormattedStep = FormattedStep(
    stepNumber: int, title: string, description: string, durationSeconds: int, toolsNeeded: seq<string>)

  datatype FormattedTool = FormattedTool(name: string, description: string)

  /** The dictionary of `format_for_response`; the tools go under "tools". */
  datatype FormattedProcedure = FormattedProcedure(
    title: string, description: string, totalDurationMinutes: int, difficultyLevel: string,
    steps: seq<FormattedStep>, tools: seq<FormattedTool>)

  function FormatStep(s: MakeupStep): FormattedStep {
    FormattedStep(s.stepNumber, s.title, s.description, s.durationSeconds, s.toolsNeeded)
  }

  /** `format_for_response`. */
  function FormatForResponse(p: MakeupProcedure): (r: FormattedProcedure)
    ensures |r.steps| == |p.steps| && |r.tools| == |p.requiredTools|
  {
    FormattedProcedure(
      p.title, p.description, p.totalDurationMinutes, p.difficultyLevel,
      seq(|p.steps|, i requires 0 <= i < |p.steps| => FormatStep(p.steps[i])),
      seq(|p.requiredTools|, i requires 0 <= i < |p.requiredTools| =>
        FormattedTool(p.requiredTools[i].name, p.requiredTools[i].description)))
  }

  /** Reading a formatted procedure back. */
  function ProcedureOf(f: FormattedProcedure): MakeupProcedure {
    MakeupProcedure(
      f.title, f.description, f.totalDurationMinutes, f.difficultyLevel,
      seq(|f.steps|, i requires 0 <= i < |f.steps| =>
        MakeupStep(f.steps[i].stepNumber, f.steps[i].title, f.steps[i].description,
                   f.steps[i].durationSeconds, f.steps[i].toolsNeeded)),
      seq(|f.tools|, i requires 0 <= i < |f.tools| => Tool(f.tools[i].name, f.tools[i].description)))
  }

  /** Formatting keeps every step and tool, in order and with all their fields: reading it back gives the procedure. */
  lemma FormatRoundTrip(p: MakeupProcedure)
    ensures ProcedureOf(FormatForResponse(p)) == p
  {
    var q := ProcedureOf(FormatForResponse(p));
    assert q.steps == p.steps;
    assert q.requiredTools == p.requiredTools;
  }

  // ---------------------------------------------------------------- the service

  /** What `generate_structured_output` returned or raised. */
  datatype StructuredOutput =
    | ProcedureObject(procedure: MakeupProcedure)
    | Dictionary(raw: RawProcedure)
    | ApiFailure(message: string)      // AIClientAPIError
    | OtherFailure(message: string)    // any other exception

  const ApiFailurePrefix := "Failed to generate tutorial structure: "
  const UnexpectedPrefix := "Unexpected error: "

  /**
   * `generate_tutorial_structure`. The errors raised inside the `try` are
   * themselves caught by its generic handler, so a bad dictionary and a failed
   * validation surface with the "Unexpected error: " prefix.
   */
  function GenerateTutorialStructure(output: StructuredOutput): (r: Result<MakeupProcedure, string>)
    ensures r.Ok? ==> ValidateProcedure(r.value)
    ensures r.Ok? ==> (output.ProcedureObject? && r.value == output.procedure)
                      || (output.Dictionary? && MakeProcedure(output.raw) == Ok(r.value))
    ensures output.ProcedureObject? ==> (r.Ok? <==> ValidateProcedure(output.procedure))
    ensures output.ApiFailure? ==> r == Err(ApiFailurePrefix + output.message)
    ensures output.OtherFailure? ==> r == Err(UnexpectedPrefix + output.message)
  {
    match output
    case ApiFailure(m) => Err(ApiFailurePrefix + m)
    case OtherFailure(m) => Err(UnexpectedPrefix + m)
    case ProcedureObject(p) => CheckProcedure(p)
    case Dictionary(raw) =>
      match MakeProcedure(raw)
      case Err(e) => Err(UnexpectedPrefix + ("Invalid tutorial structure: " + e))
      case Ok(p) => CheckProcedure(p)
  }

  /** The additional validation step of `generate_tutorial_structure`. */
  function CheckProcedure(p: MakeupProcedure): (r: Result<MakeupProcedure, string>)
    ensures r.Ok? <==> ValidateProcedure(p)
    ensures r.Ok? ==> r.value == p
    ensures r.Err? ==> r.error == UnexpectedPrefix + "Generated procedure failed validation"
  {
    if !ValidateProcedure(p) then Err(UnexpectedPrefix + "Generated procedure failed validation") else Ok(p)
  }

  /**
   * Every failure surfaces as a `TutorialStructureError` with one of the two
   * prefixes; a procedure parsed from a dictionary is accepted exactly
   * when it parses and passes `validate_procedure`, and a procedure object
   * exactly when it passes `validate_procedure`.
   */
  lemma StructureErrors(output: StructuredOutput)
    ensures var r := GenerateTutorialStructure(output);
      (r.Err? ==> StartsWith(r.error, ApiFailurePrefix) || StartsWith(r.error, UnexpectedPrefix))
      && (output.Dictionary? ==>
            (r.Ok? <==> MakeProcedure(output.raw).Ok? && ValidateProcedure(MakeProcedure(output.raw).value)))
      && (output.ProcedureObject? ==> (r.Ok? <==> ValidateProcedure(output.procedure)))
  {
    var r := GenerateTutorialStructure(output);
    if r.Err? {
      var rest := r.error[if output.ApiFailure? then |ApiFailurePrefix| else |UnexpectedPrefix|..];
      if output.ApiFailure? {
        assert r.error == ApiFailurePrefix + rest;
        Framed(ApiFailurePrefix, rest, []);
        assert ApiFailurePrefix + rest + [] == ApiFailurePrefix + rest;
      } else {
        assert r.error == UnexpectedPrefix + rest;
        Framed(UnexpectedPrefix, rest, []);
        assert UnexpectedPrefix + rest + [] == UnexpectedPrefix + rest;
      }
    }
  }
}
