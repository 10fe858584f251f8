/**
 * Request validation: apps/api/app/models/request.py.
 * Base64 decoding is outside the model: a validator receives the decoder's
 * outcome as a `Base64Outcome`.
 */
module RequestModels {
  import opened Wrappers
  import opened Text

  datatype Gender = Male | Female | Neutral

  /** The string value of each `Gender` member. */
  function GenderValue(g: Gender): string {
    match g
    case Male => "male"
    case Female => "female"
    case Neutral => "neutral"
  }

  datatype ImageFormat = Png | Jpeg | Webp

  const PngSignature: seq<byte> := [0x89, 0x50, 0x4E, 0x47]   // "\x89PNG"
  const JpegSignature: seq<byte> := [0xFF, 0xD8, 0xFF]
  const RiffTag: seq<byte> := [0x52, 0x49, 0x46, 0x46]        // "RIFF"
  const WebpTag: seq<byte> := [0x57, 0x45, 0x42, 0x50]        // "WEBP"

  const UnsupportedFormatMessage := "Unsupported image format." + " Only PNG, JPEG, and WebP" + " are allowed."

  /** `PhotoUploadRequest.MAX_SIZE_MB` in bytes. */
  const MaxPhotoBytes := 10 * 1024 * 1024

  /** Python's `data[lo:hi]` for non-negative bounds: clamped to the length. */
  function Slice<T>(data: seq<T>, lo: nat, hi: nat): (r: seq<T>)
    requires lo <= hi
    ensures |r| == (if hi <= |data| then hi - lo else if lo <= |data| then |data| - lo else 0)
    ensures hi <= |data| ==> r == data[lo..hi]
  {
    var h := if hi <= |data| then hi else |data|;
    var l := if lo <= h then lo else h;
    data[l..h]
  }

  /** A RIFF container whose form type is WEBP. */
  predicate IsWebpHeader(data: seq<byte>) {
    |data| >= 12 && data[..4] == RiffTag && data[8..12] == WebpTag
  }

  /** `validate_image_format`: the format named by the file signature, or the rejection. */
  function ValidateImageFormat(data: seq<byte>): (r: Result<ImageFormat, string>)
    ensures r == Ok(Png) <==> StartsWith(data, PngSignature)
    ensures r == Ok(Jpeg) <==> StartsWith(data, JpegSignature)
    ensures r == Ok(Webp) <==> IsWebpHeader(data)
    ensures r.Err? <==> !StartsWith(data, PngSignature) && !StartsWith(data, JpegSignature) && !IsWebpHeader(data)
    ensures r.Err? ==> r.error == UnsupportedFormatMessage
  {
    SignaturesExclusive(data);
    if Slice(data, 0, 4) == PngSignature then Ok(Png)
    else if Slice(data, 0, 3) == JpegSignature then Ok(Jpeg)
    else if Slice(data, 0, 4) == RiffTag && Slice(data, 8, 12) == WebpTag then Ok(Webp)
    else Err(UnsupportedFormatMessage)
  }

  /** The three signatures are pairwise exclusive: no input carries two of them. */
  lemma SignaturesExclusive(data: seq<byte>)
    ensures !(StartsWith(data, PngSignature) && StartsWith(data, JpegSignature))
    ensures !(StartsWith(data, PngSignature) && IsWebpHeader(data))
    ensures !(StartsWith(data, JpegSignature) && IsWebpHeader(data))
  {
    if |data| > 0 {
      FirstByte(data, PngSignature);
      FirstByte(data, JpegSignature);
      FirstByte(data, RiffTag);
    }
  }

  lemma FirstByte(data: seq<byte>, p: seq<byte>)
    requires |data| > 0 && |p| > 0
    ensures StartsWith(data, p) ==> data[0] == p[0]
  {
    if StartsWith(data, p) {
      assert data[..|p|][0] == data[0];
    }
  }

  /** Fewer bytes than the shortest signature are never an image: empty, 2-byte and GIF inputs fail. */
  lemma ShortAndGifRejected(data: seq<byte>)
    requires |data| < 3 || StartsWith(data, [0x47, 0x49, 0x46, 0x38])   // "GIF8"
    ensures ValidateImageFormat(data) == Err(UnsupportedFormatMessage)
  {
  }

  /** `validate_file_size`: true up to and including the limit, an error naming the limit beyond it. */
  function ValidateFileSize(data: seq<byte>, maxSizeMb: int): (r: Result<bool, string>)
    ensures r.Ok? <==> |data| <= maxSizeMb * 1024 * 1024
    ensures r.Ok? ==> r.value
    ensures r.Err? ==> r.error == "File size exceeds maximum of " + IntToString(maxSizeMb) + "MB"
  {
    var maxSizeBytes := maxSizeMb * 1024 * 1024;
    if |data| > maxSizeBytes then Err("File size exceeds maximum of " + IntToString(maxSizeMb) + "MB")
    else Ok(true)
  }

  /** What `base64.b64decode` did with the text: bytes, a `binascii.Error`, or another exception. */
  datatype Base64Outcome =
    | Decoded(bytes: seq<byte>)
    | BinasciiError(message: string)
    | OtherDecodeError(message: string)

  /** "Photo size exceeds maximum of 10MB", kept in pieces so that its "size" is visible. */
  const PhotoSizeMessage := "Photo " + "size" + " exceeds maximum of 10MB"
  const PhotoFailedPrefix := "Photo validation failed: "

  /** The generic handler of `validate_photo`: a message mentioning "size" passes unchanged. */
  function WrapPhotoError(message: string): string {
    if Contains(Lower(message), "size") then message else PhotoFailedPrefix + message
  }

  lemma SizeNotInFormatMessage()
    ensures !Contains(Lower(UnsupportedFormatMessage), "size")
  {
    FormatMessageLacks('z');
    FormatMessageLacks('Z');
    LowerAvoids(UnsupportedFormatMessage, 'z');
    ContainsCharOf(Lower(UnsupportedFormatMessage), "size");
    assert "size"[2] == 'z';
  }

  /** Neither case of the letter `c` occurs in the unsupported-format message. */
  lemma FormatMessageLacks(c: char)
    requires c == 'z' || c == 'Z'
    ensures c !in UnsupportedFormatMessage
  {
    assert c !in "Unsupported image format.";
    assert c !in " Only PNG, JPEG, and WebP";
    assert c !in " are allowed.";
  }

  lemma SizeInSizeMessage()
    ensures Contains(Lower(PhotoSizeMessage), "size")
  {
    LowerAppend("Photo " + "size", " exceeds maximum of 10MB");
    LowerAppend("Photo ", "size");
    assert Lower("size") == "size";
    ContainsInfix(Lower("Photo "), "size", Lower(" exceeds maximum of 10MB"));
  }

  /**
   * `PhotoUploadRequest.validate_photo`: decode, then the size limit, then the
   * format; the accepted value is the input text itself.
   */
  function ValidatePhoto(v: string, decoded: Base64Outcome): (r: Result<string, string>)
    ensures r.Ok? <==> decoded.Decoded? && |decoded.bytes| <= MaxPhotoBytes && ValidateImageFormat(decoded.bytes).Ok?
    ensures r.Ok? ==> r.value == v
    ensures decoded.BinasciiError? ==> r == Err("Invalid base64 encoding")
    ensures decoded.Decoded? && |decoded.bytes| > MaxPhotoBytes ==> r == Err(PhotoSizeMessage)
    ensures decoded.Decoded? && |decoded.bytes| <= MaxPhotoBytes && ValidateImageFormat(decoded.bytes).Err? ==>
      r == Err(PhotoFailedPrefix + UnsupportedFormatMessage)
    ensures decoded.OtherDecodeError? ==>
      r == Err(if Contains(Lower(decoded.message), "size") then decoded.message else PhotoFailedPrefix + decoded.message)
  {
    match decoded
    case BinasciiError(_) => Err("Invalid base64 encoding")
    case OtherDecodeError(m) => Err(WrapPhotoError(m))
    case Decoded(photoBytes) =>
      if |photoBytes| > MaxPhotoBytes then
        SizeInSizeMessage();
        Err(WrapPhotoError(PhotoSizeMessage))
      else
        match ValidateImageFormat(photoBytes)
        case Err(m) =>
          SizeNotInFormatMessage();
          Err(WrapPhotoError(m))
        case Ok(_) => Ok(v)
  }

  /** A field-level rejection by the request model. */
  datatype FieldError = Missing(field: string) | TooLong(field: string, maxLength: nat)

  /** The request body before validation: absent and null fields are `None`. */
  datatype RawTutorialRequest = RawTutorialRequest(
    rawDescription: Option<string>,
    originalImageUrl: Option<string>,
    styleId: Option<string>,
    customization: Option<string>,
    finalStyleImageUrl: Option<string>)

  datatype TutorialGenerationRequest = TutorialGenerationRequest(
    rawDescription: string,
    originalImageUrl: string,
    styleId: Option<string>,
    customizationText: Option<string>,
    finalStyleImageUrl: Option<string>)

  const MaxDescriptionLength := 5000
  const MaxCustomizationLength := 1000

  /** A required text field with an optional cap on its length. */
  function RequiredText(name: string, v: Option<string>, maxLength: Option<nat>): (errors: seq<FieldError>)
    ensures |errors| == 0 <==> v.Some? && (maxLength.Some? ==> |v.value| <= maxLength.value)
  {
    match v
    case None => [Missing(name)]
    case Some(s) => OptionalText(name, v, maxLength)
  }

  /** An optional text field with an optional cap on its length. */
  function OptionalText(name: string, v: Option<string>, maxLength: Option<nat>): (errors: seq<FieldError>)
    ensures |errors| == 0 <==> (v.Some? && maxLength.Some? ==> |v.value| <= maxLength.value)
  {
    match (v, maxLength)
    case (Some(s), Some(m)) => if |s| > m then [TooLong(name, m)] else []
    case _ => []
  }

  /** `TutorialGenerationRequest`: two required fields, the description capped at 5000 and the customization at 1000 characters. */
  function ValidateTutorialRequest(raw: RawTutorialRequest): (r: Result<TutorialGenerationRequest, seq<FieldError>>)
    ensures r.Ok? <==>
      raw.rawDescription.Some? && |raw.rawDescription.value| <= 5000
      && raw.originalImageUrl.Some?
      && (raw.customization.Some? ==> |raw.customization.value| <= 1000)
    ensures r.Ok? ==>
      r.value.rawDescription == raw.rawDescription.value
      && r.value.originalImageUrl == raw.originalImageUrl.value
      && r.value.customizationText == raw.customization
      && r.value.styleId == raw.styleId
      && r.value.finalStyleImageUrl == raw.finalStyleImageUrl
    ensures r.Err? ==> |r.error| > 0
  {
    var errors :=
      RequiredText("rawDescription", raw.rawDescription, Some(MaxDescriptionLength))
      + RequiredText("originalImageUrl", raw.originalImageUrl, None)
      + OptionalText("customization", raw.customization, Some(MaxCustomizationLength));
    if |errors| > 0 then Err(errors)
    else Ok(TutorialGenerationRequest(
      raw.rawDescription.value, raw.originalImageUrl.value, raw.styleId, raw.customization, raw.finalStyleImageUrl))
  }

  datatype CustomizeStyleRequest = CustomizeStyleRequest(
    originalImageUrl: string, styleImageUrl: string, customRequest: string)

  /** `CustomizeStyleRequest`: all three fields required, the request text capped at 1000 characters. */
  function ValidateCustomizeRequest(originalImageUrl: Option<string>, styleImageUrl: Option<string>, customRequest: Option<string>)
    : (r: Result<CustomizeStyleRequest, seq<FieldError>>)
    ensures r.Ok? <==> originalImageUrl.Some? && styleImageUrl.Some? && customRequest.Some? && |customRequest.value| <= 1000
    ensures r.Ok? ==> r.value == CustomizeStyleRequest(originalImageUrl.value, styleImageUrl.value, customRequest.value)
  {
    var errors :=
      RequiredText("originalImageUrl", originalImageUrl, None)
      + RequiredText("styleImageUrl", styleImageUrl, None)
      + RequiredText("customRequest", customRequest, Some(MaxCustomizationLength));
    if |errors| > 0 then Err(errors)
    else Ok(CustomizeStyleRequest(originalImageUrl.value, styleImageUrl.value, customRequest.value))
  }
}
