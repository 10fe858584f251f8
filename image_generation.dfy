/**
 * Styled-image generation: apps/api/app/services/image_generation.py.
 * The Gemini calls are oracles: for each attempt of `generate_single_style`
 * the model receives what the image model returned and what the Japanese
 * sub-model returned. Uploads go through `Storage.StorageService`.
 */
module ImageGeneration {
  import opened Wrappers
  import opened Text
  import opened AiClient
  import opened Storage
  import RequestModels

  datatype Gender = Male | Female | Neutral

  function GenderValue(g: Gender): string {
    match g
    case Male => "male"
    case Female => "female"
    case Neutral => "neutral"
  }

  /** The wording the prompt uses for each gender. */
  function GenderText(g: Gender): string {
    match g
    case Male => "male/men's"
    case Female => "female/women's"
    case Neutral => "gender-neutral/unisex"
  }

  /** The nine style variations, named by their headlines. */
  datatype Variation =
    | FreshNatural | SophisticatedConservative | SoftCasual
    | ElegantFeminine | CoolProfessional | CuteDollLike
    | NaturalAndrogynous | CoolEdgy | SoftFeminine

  /** The text of each variation, as the prompt quotes it. */
  function VariationText(v: Variation): string {
    match v
    case FreshNatural =>
      "Fresh and Natural Style Hair: A neat, short haircut in a natural color. The front is kept down slightly to create a light, effortless feel. Use minimal wax to maintain the hair's natural flow. Makeup: Focus on grooming. Tidy the eyebrows and use lip balm to prevent dryness. Avoid foundation and keep the skin tone even for a healthy appearance."
    case SophisticatedConservative =>
      "Sophisticated and Conservative Style Hair: Dark, short hair with a sleek side part or slicked-back style. A glossy finish adds a polished, intelligent impression. Makeup: Fill in sparse areas of the eyebrows for a defined shape. Use a translucent powder to control shine and maintain a clean look."
    case SoftCasual =>
      "Soft and Casual Style Hair: A light mushroom cut or a slightly longer wolf cut. Ash or beige hair colors will soften the overall look. Makeup: Use an eyebrow pencil to match the hair color and a light BB cream to even out the skin. A tinted lip balm adds a healthy flush of color."
    case ElegantFeminine =>
      "Elegant and Feminine Style Hair: A sleek, glossy long hairstyle or a soft, inward-curling bob. The bangs can be swept to the side or kept as a see-through fringe for a lighter feel. Makeup: A dewy, translucent base. Use soft, skin-tone eyeshadows like beige or pale pink. A glossy finish on the lips gives a natural, fresh look."
    case CoolProfessional =>
      "Cool and Professional Style Hair: A sharp chin-length bob or a medium-length style with swept-back bangs. Dark hair colors create a sophisticated and composed impression. Makeup: A matte foundation. A sharp winged eyeliner adds a cool edge, while nude or deep-colored lipstick enhances the mature, elegant vibe."
    case CuteDollLike =>
      "Cute and Doll-like Style Hair: A cute outward or inward-curling bob with straight-across bangs. Adding highlights can create a fun, dimensional look. Makeup: Use glittery eyeshadows and highlight the undereye bags (aegyo sal) for a sparkling effect. Pink or coral blush on the apples of the cheeks and a cute-colored lipstick complete the youthful look."
    case NaturalAndrogynous =>
      "Natural and Androgynous Style Hair: A versatile mushroom short cut or a short style that exposes the ears. Dark hair colors contribute to a cool and neutral look. Makeup: Focus on skin prep and grooming. Use moisturizers on dry areas to create a healthy glow, and simply groom the eyebrows for a clean finish."
    case CoolEdgy =>
      "Cool and Edgy Style Hair: A wet-look short cut or a two-block undercut with shaved sides. These styles are distinct yet cohesive. Makeup: A matte base and a sharp contour to define the face. A slightly winged eyeliner and a matte lip color that subdues natural tones will enhance a sleek, modern look."
    case SoftFeminine =>
      "Soft and Feminine Style Hair: A soft perm or a slightly longer wolf cut. Lighter hair colors create a gentle and relaxed atmosphere. Makeup: A dewy foundation with soft, sheer eyeshadows and blush in pink or orange tones. A glossy lip adds a touch of femininity and warmth."
  }

  /**
   * `STYLE_VARIATIONS`, keys as written: the second female entry is filed
   * under "feamle1".
   */
  const StyleVariations: map<string, Variation> := map[
    "male0" := FreshNatural,
    "male1" := SophisticatedConservative,
    "male2" := SoftCasual,
    "female0" := ElegantFeminine,
    "feamle1" := CoolProfessional,
    "female2" := CuteDollLike,
    "neutral0" := NaturalAndrogynous,
    "neutral1" := CoolEdgy,
    "neutral2" := SoftFeminine
  ]

  /** The table key `f"{gender.value}{style_index}"`. */
  function StyleKey(g: Gender, styleIndex: int): string {
    GenderValue(g) + IntToString(styleIndex)
  }

  /** The table has an entry for this gender and index. */
  predicate PromptDefined(g: Gender, styleIndex: int) {
    StyleKey(g, styleIndex) in StyleVariations
  }

  // ---------------------------------------------------------------- table keys

  /** Every key of the table is lower-case letters followed by one of the digits 0, 1, 2. */
  predicate TableKeyShape(k: string) {
    |k| >= 2
    && (forall j | 0 <= j < |k| - 1 :: 'a' <= k[j] <= 'z')
    && '0' <= k[|k| - 1] <= '2'
  }

  lemma TableKeysShaped()
    ensures forall k | k in StyleVariations :: TableKeyShape(k)
  {
  }

  /** A key built from an index outside 0..2 does not have the table's shape. */
  lemma OutOfRangeKeyShape(g: Gender, styleIndex: int)
    requires styleIndex < 0 || styleIndex > 2
    ensures !TableKeyShape(StyleKey(g, styleIndex))
  {
    var v, s := GenderValue(g), IntToString(styleIndex);
    var k := StyleKey(g, styleIndex);
    assert k[|v|] == s[0];
    if styleIndex < 0 {
      assert s[0] == '-';
      assert |s| >= 2;
    } else if styleIndex >= 10 {
      assert IsDigit(s[0]);
      assert |s| >= 2;
    } else {
      assert s == [DigitChar(styleIndex)];
      assert k[|k| - 1] == DigitChar(styleIndex);
      DigitCharAbove(styleIndex);
    }
  }

  lemma DigitCharAbove(d: nat)
    requires 3 <= d <= 9
    ensures DigitChar(d) > '2'
  {
    if d == 3 {} else if d == 4 {} else if d == 5 {} else if d == 6 {}
    else if d == 7 {} else if d == 8 {} else {}
  }

  /**
   * The prompt table is defined exactly for indices 0..2, except FEMALE with
   * index 1, whose entry sits under the misspelled key.
   */
  lemma {:induction false} StyleKeyDefined(g: Gender, styleIndex: int)
    ensures StyleKey(g, styleIndex) in StyleVariations <==>
      0 <= styleIndex <= 2 && !(g == Female && styleIndex == 1)
  {
    if styleIndex < 0 || styleIndex > 2 {
      OutOfRangeKeyShape(g, styleIndex);
      TableKeysShaped();
    } else {
      var k := StyleKey(g, styleIndex);
      var digit := if styleIndex == 0 then "0" else if styleIndex == 1 then "1" else "2";
      assert IntToString(styleIndex) == digit;
      match g
      case Male =>
        assert k == "male" + digit;
        if styleIndex == 0 { assert k == "male0"; }
        else if styleIndex == 1 { assert k == "male1"; }
        else { assert k == "male2"; }
      case Female =>
        assert k == "female" + digit;
        if styleIndex == 0 { assert k == "female0"; }
        else if styleIndex == 1 { assert k == "female1"; }
        else { assert k == "female2"; }
      case Neutral =>
        assert k == "neutral" + digit;
        if styleIndex == 0 { assert k == "neutral0"; }
        else if styleIndex == 1 { assert k == "neutral1"; }
        else { assert k == "neutral2"; }
    }
  }

  // ---------------------------------------------------------------- prompt

  const PromptOpening := "Generate a realistic image of the given face photo with a perfect "
  const PromptStyleLabel := " hairstyle and makeup style.\nSTYLE: "
  const PromptClosing :=
    "\nPlease make the style natural and in line with current trends. Avoid anything too bizarre or extreme."
    + "\nKeep the facial features and identity unchanged, only modify the hairstyle and makeup."
    + "\nProvide a brief description of the style and steps to achieve this look and you must generate the image."
  const AdditionalRequestLabel := "\n\nAdditional request: "

  /** The custom text as the prompt sees it: absent and empty are the same. */
  function CustomOrEmpty(customText: Option<string>): string {
    match customText
    case None => ""
    case Some(t) => t
  }

  /**
   * `generate_style_prompt`. A missing table key is the `KeyError` whose text
   * is the quoted key.
   */
  function GenerateStylePrompt(g: Gender, styleIndex: int, customText: Option<string>): (r: Result<string, string>)
    ensures r.Ok? <==> StyleKey(g, styleIndex) in StyleVariations
    ensures r.Err? ==> r.error == "'" + StyleKey(g, styleIndex) + "'"
    ensures r.Ok? ==>
      Contains(r.value, VariationText(StyleVariations[StyleKey(g, styleIndex)])) && Contains(r.value, GenderText(g))
    ensures r.Ok? ==>
      (EndsWith(r.value, AdditionalRequestLabel + CustomOrEmpty(customText)) <==> |CustomOrEmpty(customText)| > 0)
  {
    var key := StyleKey(g, styleIndex);
    if key !in StyleVariations then Err("'" + key + "'")
    else
      var variation := VariationText(StyleVariations[key]);
      var head := PromptOpening + GenderText(g) + PromptStyleLabel;
      var custom := CustomOrEmpty(customText);
      var tail := PromptClosing + (if |custom| > 0 then AdditionalRequestLabel + custom else "");
      var prompt := head + variation + tail;
      ClosingLastChar();
      PromptParts(PromptOpening, GenderText(g), PromptStyleLabel, variation, PromptClosing, AdditionalRequestLabel, custom);
      Ok(prompt)
  }

  /**
   * The prompt's shape, whatever its fixed pieces: the variation and the
   * gender text occur in it, and it ends with the additional request exactly
   * when there is one, as long as the closing text and the request label end
   * differently.
   */
  lemma PromptParts(opening: string, genderText: string, styleLabel: string, variation: string,
                    closing: string, requestLabel: string, custom: string)
    requires |closing| > 0 && |requestLabel| > 0 && closing[|closing| - 1] != requestLabel[|requestLabel| - 1]
    ensures var tail := closing + (if |custom| > 0 then requestLabel + custom else "");
      var prompt := opening + genderText + styleLabel + variation + tail;
      Contains(prompt, variation) && Contains(prompt, genderText)
      && (EndsWith(prompt, requestLabel + custom) <==> |custom| > 0)
  {
    var tail := closing + (if |custom| > 0 then requestLabel + custom else "");
    var head := opening + genderText + styleLabel;
    ContainsInfix(head, variation, tail);
    ContainsSecondOfFive(opening, genderText, styleLabel, variation, tail);
    if |custom| > 0 {
      assert head + variation + tail == (head + variation + closing) + (requestLabel + custom);
      EndsWithAppend(head + variation + closing, requestLabel + custom);
    } else {
      assert (head + variation + tail)[|head + variation + tail| - 1] == closing[|closing| - 1];
      LastDiffers(head + variation + tail, requestLabel);
    }
  }

  lemma ClosingLastChar()
    ensures PromptClosing[|PromptClosing| - 1] == '.' && AdditionalRequestLabel[|AdditionalRequestLabel| - 1] == ' '
  {
  }

  // ---------------------------------------------------------------- size and title

  /**
   * `validate_image_size`: `len / (1024 * 1024) <= max_size_mb`. The divisor is
   * a power of two, so the quotient of a byte count is exact.
   */
  function ValidateImageSize(data: seq<byte>, maxSizeMb: int): (r: bool)
    ensures r <==> |data| <= maxSizeMb * 1024 * 1024
  {
    (|data| as real) / 1048576.0 <= maxSizeMb as real
  }

  /** The service's size gate and the request model's size check accept the same inputs. */
  lemma ImageSizeAgreesWithFileSize(data: seq<byte>, maxSizeMb: int)
    ensures ValidateImageSize(data, maxSizeMb) <==> RequestModels.ValidateFileSize(data, maxSizeMb).Ok?
  {
  }

  /** The first line of the stripped text, itself stripped. */
  function FirstLine(description: string): (r: string)
    ensures '\n' !in r
    ensures Contains(description, r)
    ensures |r| > 0 ==> !IsSpace(r[0]) && !IsSpace(r[|r| - 1])
  {
    var stripped := Strip(description);
    var lines := SplitOn(stripped, "\n");
    SplitFirstPiece(stripped, '\n');
    var first := lines[0];
    assert first == TakeUntil(stripped, '\n');
    StripSubset(first);
    StripIsSlice(description);
    StripIsSlice(first);
    ContainsSlice(stripped, 0, |first|);
    assert stripped[0..|first|] == first;
    ContainsTrans(description, stripped, first);
    ContainsTrans(description, first, Strip(first));
    Strip(first)
  }

  lemma StripIsSlice(s: string)
    ensures Contains(s, Strip(s))
  {
    var i, j :| 0 <= i <= j <= |s| && Strip(s) == s[i..j];
    ContainsSlice(s, i, j);
  }

  /** The text before the first `c`, stripped, occurs in the text and holds no `c`. */
  lemma StrippedHead(line: string, c: char)
    ensures Contains(line, Strip(TakeUntil(line, c))) && c !in Strip(TakeUntil(line, c))
  {
    var head := TakeUntil(line, c);
    ContainsSlice(line, 0, |head|);
    assert line[0..|head|] == head;
    StripIsSlice(head);
    ContainsTrans(line, head, Strip(head));
    StripSubset(head);
  }

  /** The title taken from one stripped line, as `extract_title_from_description` chooses it. */
  function TitleOfLine(line: string): (r: string)
    ensures ':' in line ==> r == Strip(TakeUntil(line, ':')) && ':' !in r
    ensures ':' !in line && '-' in line ==> r == Strip(TakeUntil(line, '-')) && '-' !in r
    ensures ':' !in line && '-' !in line ==> r == if |line| < 50 then line else "Style"
    ensures r == "Style" || Contains(line, r)
  {
    if ':' in line then
      SplitFirstPiece(line, ':');
      StrippedHead(line, ':');
      Strip(SplitOn(line, ":")[0])
    else if '-' in line then
      SplitFirstPiece(line, '-');
      StrippedHead(line, '-');
      Strip(SplitOn(line, "-")[0])
    else if |line| < 50 then
      ContainsSlice(line, 0, |line|);
      assert line[0..|line|] == line;
      line
    else "Style"
  }

  /** A title has no surrounding whitespace, given a line without any. */
  lemma TitleStripped(line: string)
    requires |line| > 0 ==> !IsSpace(line[0]) && !IsSpace(line[|line| - 1])
    ensures var r := TitleOfLine(line); |r| > 0 ==> !IsSpace(r[0]) && !IsSpace(r[|r| - 1])
  {
    var r := TitleOfLine(line);
    if ':' !in line && '-' !in line && |line| >= 50 {
      assert r == "Style";
      assert r[0] == 'S' && r[|r| - 1] == 'e';
    }
  }

  /** A title holds no character the line lacks, apart from the default "Style". */
  lemma TitleCharsFromLine(line: string)
    ensures var r := TitleOfLine(line); r == "Style" || forall c | c in r :: c in line
  {
    var r := TitleOfLine(line);
    if r != "Style" {
      ContainsCharOf(line, r);
    }
  }

  lemma StyleDefaultShape()
    ensures '\n' !in "Style" && !IsSpace("Style"[0]) && !IsSpace("Style"[4])
  {
  }

  /** The title of a line without a newline and without surrounding whitespace has neither. */
  lemma TitleOfLineFacts(line: string)
    requires '\n' !in line && (|line| > 0 ==> !IsSpace(line[0]) && !IsSpace(line[|line| - 1]))
    ensures var r := TitleOfLine(line);
      '\n' !in r && (|r| > 0 ==> !IsSpace(r[0]) && !IsSpace(r[|r| - 1]))
  {
    StyleDefaultShape();
    TitleStripped(line);
    TitleCharsFromLine(line);
  }

  /**
   * `extract_title_from_description`: "" gives "Style"; otherwise the first
   * stripped line, cut before its first ':' (or else its first '-') and
   * stripped; a line with neither is kept when shorter than 50 characters.
   */
  function ExtractTitleFromDescription(description: string): (r: string)
    ensures |description| == 0 ==> r == "Style"
    ensures |description| > 0 ==> r == TitleOfLine(FirstLine(description))
    ensures r == "Style" || Contains(description, r)
    ensures '\n' !in r
    ensures |r| > 0 ==> !IsSpace(r[0]) && !IsSpace(r[|r| - 1])
  {
    StyleDefaultShape();
    if |description| == 0 then "Style"
    else
      var line := FirstLine(description);
      TitleOfLineFacts(line);
      var title := TitleOfLine(line);
      if title == "Style" then title
      else
        ContainsTrans(description, line, title);
        title
  }

  // ---------------------------------------------------------------- one style

  const MaxAttempts := 3
  const BaseSleep := 2
  const MaxSleep := 20

  function Min(a: int, b: int): int {
    if a <= b then a else b
  }

  /** A style as the service returns it. */
  datatype StyleGeneration = StyleGeneration(
    id: string, title: string, description: string, rawDescription: string, imageUrl: string)

  /** What the Japanese sub-model parsed into `JapaneseStyleInfo`. */
  datatype JapaneseInfo = JapaneseInfo(title: string, description: string)

  /**
   * One attempt's oracle: the SDK outcome of the image call, and the parsed
   * Japanese info (`None` when that call raised or parsed nothing).
   */
  datatype AttemptOracle = AttemptOracle(content: Result<Response, string>, japanese: Option<JapaneseInfo>)

  /**
   * Everything `generate_single_style` receives from outside: the attempts,
   * the upload attempts, the clock and uuid for the file name, and the style id.
   */
  datatype StyleOracle = StyleOracle(
    attempts: seq<AttemptOracle>, uploads: seq<AttemptOutcome>,
    now: DateTime, fileUuid: string, styleId: string)

  predicate WellFormedOracle(o: StyleOracle) {
    |o.attempts| >= MaxAttempts && |o.uploads| >= Storage.MaxRetries
  }

  /** How an attempt ends. */
  datatype AttemptKind =
    | ServerError(message: string)   // an API error mentioning 500 or INTERNAL: retried
    | CallFailed(message: string)    // any other API error: fatal
    | NoImage                        // a response without image bytes: retried
    | ImageReady(data: seq<byte>)

  function AttemptKindOf(content: Result<Response, string>): (k: AttemptKind)
    ensures k.ImageReady? ==> content.Ok? && ResponseImage(Some(content.value)) == Some(k.data) && |k.data| > 0
    ensures k.NoImage? <==>
      content.Ok? && (ResponseImage(Some(content.value)).None? || |ResponseImage(Some(content.value)).value| == 0)
    ensures (k.ServerError? || k.CallFailed?) <==> content.Err?
  {
    match GenerateContent(content)
    case Err(m) => if Contains(m, "500") || Contains(m, "INTERNAL") then ServerError(m) else CallFailed(m)
    case Ok(resp) =>
      match ResponseImage(Some(resp))
      case None => NoImage
      case Some(d) => if |d| == 0 then NoImage else ImageReady(d)
  }

  predicate Decisive(k: AttemptKind) {
    k.CallFailed? || k.ImageReady?
  }

  /** The first attempt among the first `n` that ends the loop by itself. */
  function FirstDecisive(attempts: seq<AttemptOracle>, n: nat): (r: Option<nat>)
    requires n <= |attempts|
    ensures r.Some? ==>
      r.value < n && Decisive(AttemptKindOf(attempts[r.value].content))
      && forall j | 0 <= j < r.value :: !Decisive(AttemptKindOf(attempts[j].content))
    ensures r.None? ==> forall j | 0 <= j < n :: !Decisive(AttemptKindOf(attempts[j].content))
  {
    if n == 0 then None
    else match FirstDecisive(attempts, n - 1)
      case Some(k) => Some(k)
      case None => if Decisive(AttemptKindOf(attempts[n - 1].content)) then Some(n - 1) else None
  }

  /**
   * The pause after failed attempt `a` (0-based): `min(2 * 2**(a), 20)` after
   * a missing image, `min(2 * 2**(a + 1), 20)` after a server error.
   */
  function RetrySleep(k: AttemptKind, a: nat): nat {
    if k.NoImage? then Min(BaseSleep * Pow2(a), MaxSleep) else Min(BaseSleep * Pow2(a + 1), MaxSleep)
  }

  /** With three attempts the 20-second cap is never reached: the pauses are 2 or 4, then 4 or 8. */
  lemma RetrySleepBelowCap(k: AttemptKind, a: nat)
    requires a < MaxAttempts - 1
    ensures RetrySleep(k, a) == (if k.NoImage? then 2 else 4) * Pow2(a)
    ensures RetrySleep(k, a) <= 8 < MaxSleep
  {
    if a == 1 {
      assert Pow2(1) == 2 && Pow2(2) == 4;
    } else {
      assert Pow2(0) == 1 && Pow2(1) == 2;
    }
  }

  /** The description used when the model returned no text. */
  function DefaultRawDescription(g: Gender, styleIndex: int): string {
    "Style " + IntToString(styleIndex + 1) + " for " + GenderValue(g)
  }

  function RawDescription(resp: Response, g: Gender, styleIndex: int): (r: string)
    ensures |r| > 0
  {
    var text := Join(ResponseTexts(Some(resp)), "\n");
    if |text| == 0 then DefaultRawDescription(g, styleIndex) else text
  }

  /** `f"スタイル{style_index + 1}"`, the fallback title. */
  function NumberedTitle(styleIndex: int): string {
    "スタイル" + IntToString(styleIndex + 1)
  }

  /**
   * Title and description: the sub-model's, or else the title extracted from
   * the raw description (numbered when empty) and its first 30 characters.
   */
  function StyleTexts(raw: string, japanese: Option<JapaneseInfo>, g: Gender, styleIndex: int)
    : (r: (string, string))
    ensures japanese.Some? ==> r == (japanese.value.title, japanese.value.description)
    ensures japanese.None? ==> |r.0| > 0
    ensures japanese.None? && |ExtractTitleFromDescription(raw)| > 0 ==> r.0 == ExtractTitleFromDescription(raw)
    ensures japanese.None? && |ExtractTitleFromDescription(raw)| == 0 ==> r.0 == "スタイル" + IntToString(styleIndex + 1)
    ensures japanese.None? && |raw| > 0 ==> |r.1| == Min(|raw|, 30) && StartsWith(raw, r.1)
    ensures japanese.None? && |raw| == 0 ==> r.1 == GenderValue(g) + "スタイル"
  {
    match japanese
    case Some(info) => (info.title, info.description)
    case None =>
      var extracted := ExtractTitleFromDescription(raw);
      var title := if |extracted| > 0 then extracted else NumberedTitle(styleIndex);
      var description := if |raw| > 0 then RequestModels.Slice(raw, 0, 30) else GenderValue(g) + "スタイル";
      (title, description)
  }

  /** The object name of the style image: `upload_image(..., "image/png")`. */
  function StyleImageName(o: StyleOracle): string {
    UniqueFilename("image", "png", o.now, o.fileUuid)
  }

  /**
   * The attempt that ends the loop: the first decisive one, or else the
   * third, after which no retry remains.
   */
  function LastAttempt(o: StyleOracle): (i: nat)
    requires WellFormedOracle(o)
    ensures i < MaxAttempts
    ensures forall j | 0 <= j < i :: !Decisive(AttemptKindOf(o.attempts[j].content))
    ensures i < MaxAttempts - 1 ==> Decisive(AttemptKindOf(o.attempts[i].content))
  {
    match FirstDecisive(o.attempts, MaxAttempts)
    case Some(k) => k
    case None => MaxAttempts - 1
  }

  /** The outcome of a style that succeeds at the upload: the upload decides. */
  function UploadedStyle(o: StyleOracle, texts: (string, string), raw: string, bucketName: string)
    : (r: Result<StyleGeneration, string>)
    requires |o.uploads| >= Storage.MaxRetries
  {
    match UploadResult(bucketName, StyleImageName(o), o.uploads)
    case Err(e) => Err("Failed to upload image: " + e)
    case Ok(url) => Ok(StyleGeneration(o.styleId, texts.0, texts.1, raw, url))
  }

  /**
   * What `generate_single_style` returns or raises when attempt `i` is the
   * last one it makes: a fatal API error or, after the third attempt, a
   * server error or a missing image names the error; an image is uploaded.
   */
  function EndOutcome(g: Gender, styleIndex: int, o: StyleOracle, i: nat, bucketName: string)
    : (r: Result<StyleGeneration, string>)
    requires WellFormedOracle(o) && i < MaxAttempts
  {
    match AttemptKindOf(o.attempts[i].content)
    case NoImage => Err("No image generated after 3 attempts")
    case ServerError(m) => Err("AI generation failed: " + m)
    case CallFailed(m) => Err("AI generation failed: " + m)
    case ImageReady(data) =>
      var raw := RawDescription(o.attempts[i].content.value, g, styleIndex);
      UploadedStyle(o, StyleTexts(raw, o.attempts[i].japanese, g, styleIndex), raw, bucketName)
  }

  /** The bucket when attempt `i` is the last one: only an image is uploaded. */
  function EndStore(objects: map<string, StoredBlob>, o: StyleOracle, i: nat): map<string, StoredBlob>
    requires WellFormedOracle(o) && i < MaxAttempts
  {
    match AttemptKindOf(o.attempts[i].content)
    case ImageReady(data) => UploadEffect(objects, StyleImageName(o), data, "image/png", o.uploads)
    case _ => objects
  }

  /** What `generate_single_style` returns or raises. */
  function SingleStyleOutcome(g: Gender, styleIndex: int, customText: Option<string>, o: StyleOracle,
                              bucketName: string): (r: Result<StyleGeneration, string>)
    requires WellFormedOracle(o)
  {
    if !PromptDefined(g, styleIndex) then Err("Unexpected error: '" + StyleKey(g, styleIndex) + "'")
    else EndOutcome(g, styleIndex, o, LastAttempt(o), bucketName)
  }

  /** How many image calls `generate_single_style` makes. */
  function SingleStyleCalls(g: Gender, styleIndex: int, customText: Option<string>, o: StyleOracle): (n: nat)
    requires WellFormedOracle(o)
    ensures n <= MaxAttempts
  {
    if !PromptDefined(g, styleIndex) then 0 else LastAttempt(o) + 1
  }

  /** The bucket after `generate_single_style`: only an attempt with an image uploads. */
  function SingleStyleStore(objects: map<string, StoredBlob>, g: Gender, styleIndex: int,
                            customText: Option<string>, o: StyleOracle): map<string, StoredBlob>
    requires WellFormedOracle(o)
  {
    if !PromptDefined(g, styleIndex) then objects else EndStore(objects, o, LastAttempt(o))
  }

  /**
   * One attempt of `generate_single_style` after its prompt: the image call,
   * the raw description, the title and description, the image and, when
   * there is one, its upload; `r` is the outcome should no retry follow.
   */
  method StyleAttempt(storage: StorageService, g: Gender, styleIndex: int, customText: Option<string>, o: StyleOracle, i: nat)
    returns (kind: AttemptKind, r: Result<StyleGeneration, string>)
    requires WellFormedOracle(o) && i < MaxAttempts
    requires PromptDefined(g, styleIndex) && FirstDecisive(o.attempts, i).None?
    modifies storage
    ensures kind == AttemptKindOf(o.attempts[i].content)
    ensures Decisive(kind) || i == MaxAttempts - 1 ==>
      r == SingleStyleOutcome(g, styleIndex, customText, o, storage.bucketName)
      && storage.objects == SingleStyleStore(old(storage.objects), g, styleIndex, customText, o)
      && SingleStyleCalls(g, styleIndex, customText, o) == i + 1
    ensures !(Decisive(kind) || i == MaxAttempts - 1) ==> storage.objects == old(storage.objects)
  {
    kind, r := RunAttempt(storage, g, styleIndex, o, i);
    if Decisive(kind) || i == MaxAttempts - 1 {
      LastAttemptAt(o, i);
    }
  }

  method RunAttempt(storage: StorageService, g: Gender, styleIndex: int, o: StyleOracle, i: nat)
    returns (kind: AttemptKind, r: Result<StyleGeneration, string>)
    requires WellFormedOracle(o) && i < MaxAttempts
    modifies storage
    ensures kind == AttemptKindOf(o.attempts[i].content)
    ensures r == EndOutcome(g, styleIndex, o, i, storage.bucketName)
    ensures storage.objects == EndStore(old(storage.objects), o, i)
  {
    var title, description, rawDescription;
    kind, title, description, rawDescription := ReadAttempt(o.attempts[i], g, styleIndex);
    match kind {
      case ServerError(e) => r := Err("AI generation failed: " + e);
      case CallFailed(e) => r := Err("AI generation failed: " + e);
      case NoImage => r := Err("No image generated after 3 attempts");
      case ImageReady(imageData) =>
        r := UploadStyle(storage, o, title, description, rawDescription, imageData);
    }
  }

  method ReadAttempt(attempt: AttemptOracle, g: Gender, styleIndex: int)
    returns (kind: AttemptKind, title: string, description: string, rawDescription: string)
    ensures kind == AttemptKindOf(attempt.content)
    ensures kind.ImageReady? ==>
      rawDescription == RawDescription(attempt.content.value, g, styleIndex)
      && (title, description) == StyleTexts(rawDescription, attempt.japanese, g, styleIndex)
  {
    var response := GenerateContent(attempt.content);
    if response.Err? {
      var e := response.error;
      kind := if Contains(e, "500") || Contains(e, "INTERNAL") then ServerError(e) else CallFailed(e);
      title, description, rawDescription := "", "", "";
      return;
    }
    var resp := response.value;
    rawDescription := ExtractTextFromResponse(Some(resp));
    if |rawDescription| == 0 {
      rawDescription := DefaultRawDescription(g, styleIndex);
    }
    match attempt.japanese {
      case Some(info) =>
        title, description := info.title, info.description;
      case None =>
        var extracted := ExtractTitleFromDescription(rawDescription);
        title := if |extracted| > 0 then extracted else NumberedTitle(styleIndex);
        description := if |rawDescription| > 0 then RequestModels.Slice(rawDescription, 0, 30)
                       else GenderValue(g) + "スタイル";
    }
    var imageData := ExtractImageFromResponse(Some(resp));
    kind := if imageData.None? || |imageData.value| == 0 then NoImage else ImageReady(imageData.value);
  }

  method UploadStyle(storage: StorageService, o: StyleOracle, title: string, description: string,
                     rawDescription: string, imageData: seq<byte>)
    returns (r: Result<StyleGeneration, string>)
    requires |o.uploads| >= Storage.MaxRetries
    modifies storage
    ensures r == UploadedStyle(o, (title, description), rawDescription, storage.bucketName)
    ensures storage.objects == UploadEffect(old(storage.objects), StyleImageName(o), imageData, "image/png", o.uploads)
  {
    var imageUrl := storage.UploadImage(imageData, "image/png", o.now, o.fileUuid, o.uploads);
    if imageUrl.Err? {
      r := Err("Failed to upload image: " + imageUrl.error);
      return;
    }
    r := Ok(StyleGeneration(o.styleId, title, description, rawDescription, imageUrl.value));
  }

  /** The pauses after the first `n` attempts, in order. */
  function RetrySleeps(attempts: seq<AttemptOracle>, n: nat): (r: seq<nat>)
    requires n <= |attempts|
    ensures |r| == n
  {
    if n == 0 then [] else RetrySleeps(attempts, n - 1) + [RetrySleep(AttemptKindOf(attempts[n - 1].content), n - 1)]
  }

  lemma RetrySleepsNext(attempts: seq<AttemptOracle>, n: nat, k: AttemptKind)
    requires n < |attempts| && k == AttemptKindOf(attempts[n].content)
    ensures RetrySleeps(attempts, n + 1) == RetrySleeps(attempts, n) + [RetrySleep(k, n)]
  {
  }

  /** An attempt that decides, or the third one, is the last. */
  lemma LastAttemptAt(o: StyleOracle, i: nat)
    requires WellFormedOracle(o) && i < MaxAttempts && FirstDecisive(o.attempts, i).None?
    requires Decisive(AttemptKindOf(o.attempts[i].content)) || i == MaxAttempts - 1
    ensures LastAttempt(o) == i
  {
    if Decisive(AttemptKindOf(o.attempts[i].content)) {
      assert FirstDecisive(o.attempts, i + 1) == Some(i);
      FirstDecisiveExtends(o.attempts, i + 1, MaxAttempts);
    } else {
      assert FirstDecisive(o.attempts, i + 1).None?;
    }
  }

  /** A style whose key is missing fails before any image call and uploads nothing. */
  lemma UndefinedStyle(g: Gender, styleIndex: int, customText: Option<string>, o: StyleOracle,
                       bucketName: string, objects: map<string, StoredBlob>)
    requires WellFormedOracle(o) && !PromptDefined(g, styleIndex)
    ensures SingleStyleOutcome(g, styleIndex, customText, o, bucketName)
      == Err("Unexpected error: " + ("'" + StyleKey(g, styleIndex) + "'"))
    ensures SingleStyleStore(objects, g, styleIndex, customText, o) == objects
    ensures SingleStyleCalls(g, styleIndex, customText, o) == 0
  {
    var key := StyleKey(g, styleIndex);
    UnexpectedErrorText(key);
    assert SingleStyleOutcome(g, styleIndex, customText, o, bucketName) == Err("Unexpected error: '" + key + "'");
  }

  /** The "Unexpected error: " prefix in front of a quoted key. */
  lemma UnexpectedErrorText(key: string)
    ensures "Unexpected error: " + ("'" + key + "'") == "Unexpected error: '" + key + "'"
  {
  }

  /** The prompt of one attempt, seen only through whether the style key exists. */
  method StylePrompt(g: Gender, styleIndex: int, customText: Option<string>) returns (prompt: Result<string, string>)
    ensures prompt.Ok? <==> PromptDefined(g, styleIndex)
    ensures prompt.Err? ==> prompt.error == "'" + StyleKey(g, styleIndex) + "'"
  {
    prompt := GenerateStylePrompt(g, styleIndex, customText);
  }

  /**
   * `generate_single_style`: up to three attempts; a missing image or a server
   * error is retried after a pause, an upload failure is not.
   */
  method GenerateSingleStyle(storage: StorageService, g: Gender, styleIndex: int, customText: Option<string>,
                             o: StyleOracle)
    returns (r: Result<StyleGeneration, string>, calls: nat, sleeps: seq<nat>)
    requires WellFormedOracle(o)
    modifies storage
    ensures r == SingleStyleOutcome(g, styleIndex, customText, o, storage.bucketName)
    ensures storage.objects == SingleStyleStore(old(storage.objects), g, styleIndex, customText, o)
    ensures calls == SingleStyleCalls(g, styleIndex, customText, o)
    ensures sleeps == RetrySleeps(o.attempts, if calls == 0 then 0 else calls - 1)
  {
    var retryCount := 0;
    sleeps := [];
    while retryCount < MaxAttempts
      invariant retryCount < MaxAttempts
      invariant FirstDecisive(o.attempts, retryCount).None?
      invariant retryCount > 0 ==> PromptDefined(g, styleIndex)
      invariant sleeps == RetrySleeps(o.attempts, retryCount)
      invariant storage.objects == old(storage.objects)
    {
      var prompt := StylePrompt(g, styleIndex, customText);
      if prompt.Err? {
        UndefinedStyle(g, styleIndex, customText, o, storage.bucketName, storage.objects);
        r, calls := Err("Unexpected error: " + prompt.error), 0;
        return;
      }
      var kind;
      kind, r := StyleAttempt(storage, g, styleIndex, customText, o, retryCount);
      if Decisive(kind) || retryCount == MaxAttempts - 1 {
        calls := retryCount + 1;
        return;
      }
      RetrySleepsNext(o.attempts, retryCount, kind);
      assert FirstDecisive(o.attempts, retryCount + 1).None?;
      sleeps := sleeps + [RetrySleep(kind, retryCount)];
      retryCount := retryCount + 1;
    }
    // the final "Failed to generate style after all retries" is unreachable
    assert false;
  }

  /** Later attempts do not change which attempt decided first. */
  lemma {:induction false} FirstDecisiveExtends(attempts: seq<AttemptOracle>, n: nat, m: nat)
    requires n <= m <= |attempts| && FirstDecisive(attempts, n).Some?
    ensures FirstDecisive(attempts, m) == FirstDecisive(attempts, n)
    decreases m - n
  {
    if m > n {
      FirstDecisiveExtends(attempts, n, m - 1);
    }
  }

  /** FEMALE with index 1 always fails, before any image call, because of the misspelled key. */
  lemma FemaleSecondStyleFails(customText: Option<string>, o: StyleOracle, bucketName: string)
    requires WellFormedOracle(o)
    ensures SingleStyleOutcome(Female, 1, customText, o, bucketName) == Err("Unexpected error: 'female1'")
    ensures SingleStyleCalls(Female, 1, customText, o) == 0
  {
    StyleKeyDefined(Female, 1);
    assert IntToString(1) == "1";
    assert StyleKey(Female, 1) == "female1";
    assert "Unexpected error: '" + "female1" + "'" == "Unexpected error: 'female1'";
  }

  /**
   * A style that succeeds carries the oracle's id and the public URL of the
   * uploaded image, and that image is in the bucket, public.
   */
  lemma SingleStyleSuccess(g: Gender, styleIndex: int, customText: Option<string>, o: StyleOracle,
                           bucketName: string, objects: map<string, StoredBlob>)
    requires WellFormedOracle(o)
    requires SingleStyleOutcome(g, styleIndex, customText, o, bucketName).Ok?
    ensures var s := SingleStyleOutcome(g, styleIndex, customText, o, bucketName).value;
      var after := SingleStyleStore(objects, g, styleIndex, customText, o);
      s.id == o.styleId && s.imageUrl == BlobPublicUrl(bucketName, StyleImageName(o))
      && StyleImageName(o) in after && after[StyleImageName(o)].isPublic
      && after[StyleImageName(o)].contentType == "image/png"
      && |s.rawDescription| > 0
      && 0 <= styleIndex <= 2 && !(g == Female && styleIndex == 1)
  {
    StyleKeyDefined(g, styleIndex);
    var k := LastAttempt(o);
    var data := AttemptKindOf(o.attempts[k].content).data;
    UploadEffectPublicIffOk(objects, StyleImageName(o), data, "image/png", o.uploads, bucketName);
  }

  // ---------------------------------------------------------------- three styles

  /** The pause between two styles of `generate_three_styles`. */
  const InterStylePause := 2

  predicate WellFormedOracles(oracles: seq<StyleOracle>) {
    |oracles| == 3 && forall i | 0 <= i < 3 :: WellFormedOracle(oracles[i])
  }

  /** The outcomes of styles 0, 1 and 2. */
  function StyleOutcomes(g: Gender, customText: Option<string>, oracles: seq<StyleOracle>, bucketName: string)
    : (outs: seq<Result<StyleGeneration, string>>)
    requires WellFormedOracles(oracles)
    ensures |outs| == 3
    ensures forall i | 0 <= i < 3 :: outs[i] == SingleStyleOutcome(g, i, customText, oracles[i], bucketName)
  {
    seq(3, i requires 0 <= i < 3 => SingleStyleOutcome(g, i, customText, oracles[i], bucketName))
  }

  /** The styles among the first `n` outcomes that succeeded, in index order. */
  function Successes(outs: seq<Result<StyleGeneration, string>>, n: nat): seq<StyleGeneration>
    requires n <= |outs|
  {
    if n == 0 then []
    else Successes(outs, n - 1) + (if outs[n - 1].Ok? then [outs[n - 1].value] else [])
  }

  /** The error texts `"Style {i+1}: {e}"` among the first `n` outcomes, in index order. */
  function StyleErrors(outs: seq<Result<StyleGeneration, string>>, n: nat): seq<string>
    requires n <= |outs|
  {
    if n == 0 then []
    else StyleErrors(outs, n - 1) + (if outs[n - 1].Err? then ["Style " + IntToString(n) + ": " + outs[n - 1].error] else [])
  }

  /** What `generate_three_styles` returns or raises, given the three outcomes. */
  function ThreeStylesOutcome(outs: seq<Result<StyleGeneration, string>>): Result<seq<StyleGeneration>, string>
    requires |outs| == 3
  {
    var styles := Successes(outs, 3);
    if |styles| > 0 then Ok(styles)
    else Err("Failed to generate any styles. " + Join(StyleErrors(outs, 3), " "))
  }

  /** Each of the first `n` outcomes contributes either a style or an error text. */
  lemma {:induction false} SuccessesAndErrors(outs: seq<Result<StyleGeneration, string>>, n: nat)
    requires n <= |outs|
    ensures |Successes(outs, n)| + |StyleErrors(outs, n)| == n
  {
    if n > 0 {
      SuccessesAndErrors(outs, n - 1);
      var ok := outs[n - 1].Ok?;
      assert |Successes(outs, n)| == |Successes(outs, n - 1)| + (if ok then 1 else 0);
      assert |StyleErrors(outs, n)| == |StyleErrors(outs, n - 1)| + (if ok then 0 else 1);
    }
  }

  /** No style among the first `n` outcomes exactly when all of them failed. */
  lemma {:induction false} SuccessesEmpty(outs: seq<Result<StyleGeneration, string>>, n: nat)
    requires n <= |outs|
    ensures |Successes(outs, n)| == 0 <==> forall i | 0 <= i < n :: outs[i].Err?
  {
    if n > 0 {
      SuccessesEmpty(outs, n - 1);
      assert |Successes(outs, n)| == |Successes(outs, n - 1)| + (if outs[n - 1].Ok? then 1 else 0);
    }
  }

  /** Every returned style is the result of one of the outcomes. */
  lemma {:induction false} SuccessesFromOutcomes(outs: seq<Result<StyleGeneration, string>>, n: nat, s: StyleGeneration)
    requires n <= |outs| && s in Successes(outs, n)
    ensures exists i | 0 <= i < n :: outs[i] == Ok(s)
  {
    var prev := Successes(outs, n - 1);
    if s in prev {
      SuccessesFromOutcomes(outs, n - 1, s);
    } else {
      assert outs[n - 1] == Ok(s);
    }
  }

  /** `generate_three_styles` raises exactly when all three styles fail, and returns one to three styles otherwise. */
  lemma ThreeStylesFailOnlyIfAllFail(outs: seq<Result<StyleGeneration, string>>)
    requires |outs| == 3
    ensures ThreeStylesOutcome(outs).Err? <==> forall i | 0 <= i < 3 :: outs[i].Err?
    ensures ThreeStylesOutcome(outs).Ok? ==> 1 <= |ThreeStylesOutcome(outs).value| <= 3
  {
    SuccessesEmpty(outs, 3);
    SuccessesAndErrors(outs, 3);
  }

  /** With FEMALE the second style always fails, so at most two styles come back. */
  lemma FemaleAtMostTwoStyles(customText: Option<string>, oracles: seq<StyleOracle>, bucketName: string)
    requires WellFormedOracles(oracles)
    ensures var outs := StyleOutcomes(Female, customText, oracles, bucketName);
      |Successes(outs, 3)| <= 2
  {
    var outs := StyleOutcomes(Female, customText, oracles, bucketName);
    FemaleSecondStyleFails(customText, oracles[1], bucketName);
    SuccessesAndErrors(outs, 3);
    SuccessesAndErrors(outs, 2);
    assert outs[1].Err?;
  }

  /** The bucket after the first `n` styles. */
  function ThreeStylesStore(objects: map<string, StoredBlob>, g: Gender, customText: Option<string>,
                            oracles: seq<StyleOracle>, n: nat): map<string, StoredBlob>
    requires WellFormedOracles(oracles) && n <= 3
  {
    if n == 0 then objects
    else SingleStyleStore(ThreeStylesStore(objects, g, customText, oracles, n - 1), g, n - 1, customText, oracles[n - 1])
  }

  /** Style `i` of `generate_three_styles`, after styles 0 to `i - 1` have updated the bucket. */
  method NextStyle(storage: StorageService, g: Gender, customText: Option<string>, oracles: seq<StyleOracle>,
                   i: nat, ghost initial: map<string, StoredBlob>)
    returns (style: Result<StyleGeneration, string>)
    requires WellFormedOracles(oracles) && i < 3
    requires storage.objects == ThreeStylesStore(initial, g, customText, oracles, i)
    modifies storage
    ensures style == StyleOutcomes(g, customText, oracles, storage.bucketName)[i]
    ensures storage.objects == ThreeStylesStore(initial, g, customText, oracles, i + 1)
  {
    var calls, sleeps;
    style, calls, sleeps := GenerateSingleStyle(storage, g, i, customText, oracles[i]);
  }

  /** The rest of one iteration of `generate_three_styles`: record the style or its error, then pause unless it was the last. */
  method CollectStyle(styles: seq<StyleGeneration>, errors: seq<string>, pauses: seq<nat>,
                      style: Result<StyleGeneration, string>, i: nat, ghost outs: seq<Result<StyleGeneration, string>>)
    returns (styles': seq<StyleGeneration>, errors': seq<string>, pauses': seq<nat>)
    requires i < |outs| && style == outs[i]
    requires styles == Successes(outs, i) && errors == StyleErrors(outs, i)
    ensures styles' == Successes(outs, i + 1) && errors' == StyleErrors(outs, i + 1)
    ensures pauses' == pauses + (if i < 2 then [InterStylePause] else [])
  {
    styles', errors', pauses' := styles, errors, pauses;
    match style {
      case Ok(s) => styles' := styles + [s];
      case Err(e) => errors' := errors + ["Style " + IntToString(i + 1) + ": " + e];
    }
    if i < 2 {
      pauses' := pauses + [InterStylePause];
    }
  }

  /**
   * `generate_three_styles`: indices 0, 1, 2 in order, a pause after each but
   * the last; the successes when there is one, the joined errors otherwise.
   */
  method GenerateThreeStyles(storage: StorageService, g: Gender, customText: Option<string>, oracles: seq<StyleOracle>)
    returns (r: Result<seq<StyleGeneration>, string>, pauses: seq<nat>)
    requires WellFormedOracles(oracles)
    modifies storage
    ensures r == ThreeStylesOutcome(StyleOutcomes(g, customText, oracles, storage.bucketName))
    ensures storage.objects == ThreeStylesStore(old(storage.objects), g, customText, oracles, 3)
    ensures pauses == [InterStylePause, InterStylePause]
  {
    ghost var outs := StyleOutcomes(g, customText, oracles, storage.bucketName);
    var styles: seq<StyleGeneration> := [];
    var errors: seq<string> := [];
    pauses := [];
    for i := 0 to 3
      invariant styles == Successes(outs, i)
      invariant errors == StyleErrors(outs, i)
      invariant storage.objects == ThreeStylesStore(old(storage.objects), g, customText, oracles, i)
      invariant pauses == [InterStylePause, InterStylePause][..if i < 3 then i else 2]
    {
      var style := NextStyle(storage, g, customText, oracles, i, old(storage.objects));
      styles, errors, pauses := CollectStyle(styles, errors, pauses, style, i, outs);
    }
    assert styles == Successes(outs, 3) && errors == StyleErrors(outs, 3);
    if |styles| > 0 {
      r := Ok(styles);
    } else {
      r := Err("Failed to generate any styles. " + Join(errors, " "));
    }
    assert r == ThreeStylesOutcome(outs);
  }

  // ---------------------------------------------------------------- upload entry point

  /** The 10 MB gate of `process_upload_and_generate`. */
  const UploadLimitMb := 10

  /**
   * `process_upload_and_generate`: `decoded` is what `base64.b64decode` did and
   * `openError` what `Image.open` raised; the decode and size checks come
   * before the image is opened, and all three before any generation.
   */
  method ProcessUploadAndGenerate(storage: StorageService, decoded: Result<seq<byte>, string>,
                                  openError: Option<string>, g: Gender, customText: Option<string>,
                                  oracles: seq<StyleOracle>)
    returns (r: Result<seq<StyleGeneration>, string>)
    requires WellFormedOracles(oracles)
    modifies storage
    ensures decoded.Err? ==> r == Err("Invalid base64 image: " + decoded.error)
    ensures decoded.Ok? && !ValidateImageSize(decoded.value, UploadLimitMb) ==>
      r == Err("Image size exceeds 10MB limit")
    ensures decoded.Ok? && ValidateImageSize(decoded.value, UploadLimitMb) && openError.Some? ==>
      r == Err("Failed to open image: " + openError.value)
    ensures decoded.Err? || !ValidateImageSize(decoded.value, UploadLimitMb) || openError.Some? ==>
      storage.objects == old(storage.objects)
    ensures decoded.Ok? && ValidateImageSize(decoded.value, UploadLimitMb) && openError.None? ==>
      r == ThreeStylesOutcome(StyleOutcomes(g, customText, oracles, storage.bucketName))
      && storage.objects == ThreeStylesStore(old(storage.objects), g, customText, oracles, 3)
  {
    if decoded.Err? {
      return Err("Invalid base64 image: " + decoded.error);
    }
    var imageData := decoded.value;
    if !ValidateImageSize(imageData, UploadLimitMb) {
      return Err("Image size exceeds 10MB limit");
    }
    if openError.Some? {
      return Err("Failed to open image: " + openError.value);
    }
    var pauses;
    r, pauses := GenerateThreeStyles(storage, g, customText, oracles);
  }
}
