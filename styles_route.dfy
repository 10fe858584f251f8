/**
 * The style endpoints: apps/api/app/api/routes/styles.py.
 * The module-level `generated_styles_store` dictionary is a `StyleStore`
 * object; the style-generation service is an outcome parameter, and base64
 * decoding a `Base64Outcome`.
 */
module StylesRoute {
  import opened Wrappers
  import opened Text
  import RequestModels
  import ImageGeneration
  import opened ResponseModels

  /** `_is_valid_image_format`: a PNG or JPEG prefix, or a RIFF...WEBP header of at least 12 bytes. */
  function IsValidImageFormat(data: seq<byte>): (r: bool)
    ensures r <==> StartsWith(data, RequestModels.PngSignature) || StartsWith(data, RequestModels.JpegSignature)
                   || RequestModels.IsWebpHeader(data)
  {
    if RequestModels.Slice(data, 0, 4) == RequestModels.PngSignature then true
    else if RequestModels.Slice(data, 0, 3) == RequestModels.JpegSignature then true
    else |data| >= 12 && data[..4] == RequestModels.RiffTag && data[8..12] == RequestModels.WebpTag
  }

  /** The route's format check and the request model's `validate_image_format` accept the same inputs. */
  lemma FormatChecksAgree(data: seq<byte>)
    ensures IsValidImageFormat(data) <==> RequestModels.ValidateImageFormat(data).Ok?
  {
    var r := RequestModels.ValidateImageFormat(data);
    if r.Ok? {
      assert r.value == RequestModels.Png || r.value == RequestModels.Jpeg || r.value == RequestModels.Webp;
    }
  }

  /** The request's gender as the image service's gender. */
  function ServiceGender(g: RequestModels.Gender): (s: ImageGeneration.Gender)
    ensures ImageGeneration.GenderValue(s) == RequestModels.GenderValue(g)
  {
    match g
    case Male => ImageGeneration.Male
    case Female => ImageGeneration.Female
    case Neutral => ImageGeneration.Neutral
  }

  /** The inverse direction of `gender_map`. */
  function RequestGender(s: ImageGeneration.Gender): (g: RequestModels.Gender)
    ensures RequestModels.GenderValue(g) == ImageGeneration.GenderValue(s)
  {
    match s
    case Male => RequestModels.Male
    case Female => RequestModels.Female
    case Neutral => RequestModels.Neutral
  }

  /** `gender_map` is a bijection: each direction undoes the other. */
  lemma GenderMapBijection(g: RequestModels.Gender, s: ImageGeneration.Gender)
    ensures RequestGender(ServiceGender(g)) == g
    ensures ServiceGender(RequestGender(s)) == s
    ensures ServiceGender(g) == s <==> g == RequestGender(s)
  {
  }

  /** The `detail` of an `HTTPException`. */
  datatype ErrorDetail =
    | InvalidFormat(supportedFormats: seq<string>, message: string)
    | FileTooLarge(maxSize: int, currentSize: int, message: string)
    | DetailText(text: string)

  datatype HttpError = HttpError(status: int, detail: ErrorDetail)

  const SupportedFormatNames: seq<string> := ["JPEG", "PNG", "WebP"]

  /** The route's own 10 MB limit. */
  const MaxSizeBytes := 10 * 1024 * 1024

  const InvalidBase64 := HttpError(400, InvalidFormat(SupportedFormatNames, "Invalid base64 encoding"))
  const UnsupportedFormat := HttpError(400, InvalidFormat(SupportedFormatNames, "Unsupported image format"))

  function TooLarge(size: int): HttpError {
    HttpError(400, FileTooLarge(MaxSizeBytes, size, "File size exceeds maximum of 10MB"))
  }

  /** The three checks of `generate_styles`, in order: decoding, size, format. */
  function CheckPhoto(decoded: RequestModels.Base64Outcome): (r: Result<seq<byte>, HttpError>)
    ensures r.Ok? <==> decoded.Decoded? && |decoded.bytes| <= MaxSizeBytes && IsValidImageFormat(decoded.bytes)
    ensures r.Ok? ==> r.value == decoded.bytes
    ensures !decoded.Decoded? ==> r == Err(InvalidBase64)
    ensures decoded.Decoded? && |decoded.bytes| > MaxSizeBytes ==> r == Err(TooLarge(|decoded.bytes|))
    ensures decoded.Decoded? && |decoded.bytes| <= MaxSizeBytes && !IsValidImageFormat(decoded.bytes) ==>
      r == Err(UnsupportedFormat)
  {
    match decoded
    case BinasciiError(_) => Err(InvalidBase64)
    case OtherDecodeError(_) => Err(InvalidBase64)
    case Decoded(photoBytes) =>
      if |photoBytes| > MaxSizeBytes then Err(TooLarge(|photoBytes|))
      else if !IsValidImageFormat(photoBytes) then Err(UnsupportedFormat)
      else Ok(photoBytes)
  }

  /**
   * The route repeats the checks of the request model: a photo that passed
   * `validate_photo` passes all three, and one that did not fails one of them.
   */
  lemma RouteChecksRepeatRequestChecks(v: string, decoded: RequestModels.Base64Outcome)
    ensures CheckPhoto(decoded).Ok? <==> RequestModels.ValidatePhoto(v, decoded).Ok?
  {
    if decoded.Decoded? {
      FormatChecksAgree(decoded.bytes);
    }
  }

  /**
   * What `generate_styles` answers: a failed check, the service's exception
   * as a 500, the response model's rejection of an empty list as a 500, or
   * the styles.
   */
  function RouteOutcome(decoded: RequestModels.Base64Outcome, service: Result<seq<GeneratedStyle>, string>)
    : Result<seq<GeneratedStyle>, HttpError>
  {
    match CheckPhoto(decoded)
    case Err(e) => Err(e)
    case Ok(_) =>
      match service
      case Err(m) => Err(HttpError(500, DetailText("AI service error: " + m)))
      case Ok(styles) =>
        match ValidateStyles(styles)
        case Err(m) => Err(HttpError(500, DetailText("AI service error: " + m)))
        case Ok(s) => Ok(s)
  }

  /**
   * The route's errors are a 400 exactly when a check failed, and a 500 with
   * the "AI service error: " prefix otherwise; a success holds the service's
   * non-empty list of styles.
   */
  lemma RouteErrors(decoded: RequestModels.Base64Outcome, service: Result<seq<GeneratedStyle>, string>)
    ensures var r := RouteOutcome(decoded, service);
      (r.Err? && r.error.status == 400 <==> CheckPhoto(decoded).Err?)
      && (r.Err? && r.error.status == 500 <==>
            CheckPhoto(decoded).Ok? && (service.Err? || |service.value| == 0))
      && (r.Err? && r.error.status == 500 ==>
            r.error.detail.DetailText? && StartsWith(r.error.detail.text, "AI service error: "))
      && (r.Ok? <==> CheckPhoto(decoded).Ok? && service.Ok? && |service.value| > 0)
      && (r.Ok? ==> r.value == service.value)
  {
    var r := RouteOutcome(decoded, service);
    if r.Err? && r.error.status == 500 {
      var m := r.error.detail.text[|"AI service error: "|..];
      assert r.error.detail.text == "AI service error: " + m;
      Framed("AI service error: ", m, []);
      assert "AI service error: " + m + [] == "AI service error: " + m;
    }
  }

  /** The store after writing the styles one after another, as the loop at lines 95-96 does. */
  function StoreAll(m: map<string, GeneratedStyle>, styles: seq<GeneratedStyle>): map<string, GeneratedStyle>
    decreases |styles|
  {
    if |styles| == 0 then m
    else
      var last := styles[|styles| - 1];
      StoreAll(m, styles[..|styles| - 1])[last.id := last]
  }

  /** Reference meaning of a sequence of writes: the last style carrying the id, if any. */
  function LastWithId(styles: seq<GeneratedStyle>, id: string): (r: Option<GeneratedStyle>)
    ensures r.Some? ==> r.value in styles && r.value.id == id
    ensures r.None? <==> forall k | 0 <= k < |styles| :: styles[k].id != id
    decreases |styles|
  {
    if |styles| == 0 then None
    else if styles[|styles| - 1].id == id then Some(styles[|styles| - 1])
    else LastWithId(styles[..|styles| - 1], id)
  }

  /** After the writes, an id holds the last style written under it, or else what it held before. */
  lemma {:induction false} StoreAllLookup(m: map<string, GeneratedStyle>, styles: seq<GeneratedStyle>, id: string)
    ensures LastWithId(styles, id).Some? ==>
      id in StoreAll(m, styles) && StoreAll(m, styles)[id] == LastWithId(styles, id).value
    ensures LastWithId(styles, id).None? ==>
      (id in StoreAll(m, styles) <==> id in m) && (id in m ==> StoreAll(m, styles)[id] == m[id])
    decreases |styles|
  {
    if |styles| > 0 {
      StoreAllLookup(m, styles[..|styles| - 1], id);
    }
  }

  /** A write that a later style with the same id overrides is lost: the later one wins. */
  lemma LaterWriteWins(m: map<string, GeneratedStyle>, styles: seq<GeneratedStyle>, j: nat, k: nat)
    requires j < k < |styles| && styles[j].id == styles[k].id
    requires forall l | k < l < |styles| :: styles[l].id != styles[k].id
    ensures styles[j].id in StoreAll(m, styles) && StoreAll(m, styles)[styles[j].id] == styles[k]
  {
    LastIsLater(styles, k);
    StoreAllLookup(m, styles, styles[k].id);
  }

  lemma {:induction false} LastIsLater(styles: seq<GeneratedStyle>, k: nat)
    requires k < |styles|
    requires forall l | k < l < |styles| :: styles[l].id != styles[k].id
    ensures LastWithId(styles, styles[k].id) == Some(styles[k])
    decreases |styles|
  {
    if k < |styles| - 1 {
      var init := styles[..|styles| - 1];
      assert init[k] == styles[k];
      forall l | k < l < |init| ensures init[l].id != init[k].id {
        assert init[l] == styles[l];
      }
      LastIsLater(init, k);
    }
  }

  /** Every style written is found under its own id afterwards. */
  lemma EveryStyleStored(m: map<string, GeneratedStyle>, styles: seq<GeneratedStyle>, k: nat)
    requires k < |styles|
    ensures styles[k].id in StoreAll(m, styles)
  {
    assert LastWithId(styles, styles[k].id).Some?;
    StoreAllLookup(m, styles, styles[k].id);
  }

  /** `generated_styles_store`: styles by id. */
  class StyleStore {
    var styles: map<string, GeneratedStyle>

    constructor()
      ensures styles == map[]
    {
      styles := map[];
    }

    /** `generated_styles_store[style.id] = style`. */
    method Put(style: GeneratedStyle)
      modifies this
      ensures styles == old(styles)[style.id := style]
    {
      styles := styles[style.id := style];
    }

    /** The loop at lines 95-96: the styles are written in order. */
    method PutAll(newStyles: seq<GeneratedStyle>)
      modifies this
      ensures styles == StoreAll(old(styles), newStyles)
    {
      for i := 0 to |newStyles|
        invariant styles == StoreAll(old(styles), newStyles[..i])
      {
        assert newStyles[..i + 1][..i] == newStyles[..i];
        Put(newStyles[i]);
      }
      assert newStyles[..|newStyles|] == newStyles;
    }

    /** `get_style`: the stored style, or a 404 naming the id; the store is left as it is. */
    method Get(styleId: string) returns (r: Result<GeneratedStyle, HttpError>)
      ensures r.Ok? <==> styleId in styles
      ensures r.Ok? ==> r.value == styles[styleId]
      ensures r.Err? ==> r.error == HttpError(404, DetailText("Style with ID '" + styleId + "' not found"))
    {
      if styleId !in styles {
        return Err(HttpError(404, DetailText("Style with ID '" + styleId + "' not found")));
      }
      r := Ok(styles[styleId]);
    }
  }

  /**
   * `generate_styles`: `service` is what `StyleGenerationService.generate_styles`
   * returned or raised. `requested` is the gender the service was called
   * with, or `None` when a check failed first and it was not called.
   */
  method GenerateStyles(store: StyleStore, decoded: RequestModels.Base64Outcome, gender: RequestModels.Gender,
                        service: Result<seq<GeneratedStyle>, string>)
    returns (r: Result<seq<GeneratedStyle>, HttpError>, requested: Option<ImageGeneration.Gender>)
    modifies store
    ensures r == RouteOutcome(decoded, service)
    ensures requested.Some? <==> CheckPhoto(decoded).Ok?
    ensures requested.Some? ==> requested.value == ServiceGender(gender)
    ensures store.styles == if CheckPhoto(decoded).Ok? && service.Ok?
                            then StoreAll(old(store.styles), service.value)
                            else old(store.styles)
  {
    requested := None;
    var checked := CheckPhoto(decoded);
    if checked.Err? {
      return Err(checked.error), requested;
    }
    requested := Some(ServiceGender(gender));
    if service.Err? {
      return Err(HttpError(500, DetailText("AI service error: " + service.error))), requested;
    }
    store.PutAll(service.value);
    var response := ValidateStyles(service.value);
    if response.Err? {
      return Err(HttpError(500, DetailText("AI service error: " + response.error))), requested;
    }
    r := Ok(response.value);
  }
}
