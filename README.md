# ejan-minimum: a Dafny model of the request, tutorial and retry logic

ejan-minimum is a makeup-style service. A user uploads a photo. The API generates three style images with an image model and stores them in a Cloud Storage bucket. It then turns a chosen style into a step-by-step tutorial, with one completion image and one video per step. A separate cloud function makes each video: it starts a video job, polls it until it is done or 540 seconds have passed, and uploads the result.

This project models the deterministic core of that service in Dafny and proves properties of the model:

- the upload and request validators: magic-byte image sniffing in its two copies, the 10 MB limits, and the length caps;
- the response models' URL checks and the `total_steps == len(steps)` invariant;
- the tutorial structure rules: the procedure check (step numbers are a permutation of 1..N), ceiling-to-minutes durations, the difficulty normaliser, prompt assembly, response formatting and error wrapping;
- the tutorial status aggregation and reconstruction over the bucket's objects, and the step-chaining loop of tutorial generation;
- the retry and backoff loops of the storage upload, the AI client and the single-style generator, and the partial-success aggregation of the three styles;
- the video function's request checks, its poll-until-done-or-timeout loop, its object naming and its HTTP status mapping;
- the small string utilities: CORS origin parsing, title extraction, prompt lookup, public URLs, storage paths and response-part extraction.

Every SDK, HTTP and storage call is a parameter: a recorded outcome, a sequence of outcomes (one per attempt), or the bucket's contents as a map. The clock, UUIDs and timestamps are parameters as well. Sleeps are recorded as values, not performed.

Modules, one per source file, plus two shared ones:

| file | module | models |
|---|---|---|
| wrappers.dfy | Wrappers | `Option` and `Result` |
| text.dfy | Text | Python string helpers: `split`, `join`, `strip`, `lower`, `str(int)`, `startswith`, `in` |
| config.dfy | Config | apps/api/app/core/config.py |
| request_models.dfy | RequestModels | apps/api/app/models/request.py |
| response_models.dfy | ResponseModels | apps/api/app/models/response.py |
| storage.dfy | Storage | apps/api/app/services/storage.py |
| ai_client.dfy | AiClient | apps/api/app/services/ai_client.py |
| image_generation.dfy | ImageGeneration | apps/api/app/services/image_generation.py |
| styles_route.dfy | StylesRoute | apps/api/app/api/routes/styles.py |
| tutorial_structure.dfy | TutorialStructure | apps/api/app/services/tutorial_structure.py |
| tutorial_generation.dfy | TutorialGeneration | apps/api/app/services/tutorial_generation.py |
| video_function.dfy | VideoFunction | apps/functions/video_generation/main.py |

The code follows the source's shape:

- Validators, builders and pure decisions are functions.
- Loops are methods with `while` loops, proved equal to a specification function. The methods are `ExtractTextFromResponse`, `GenerateContentWithRetry`, `UploadWithRetry`, `GenerateSingleStyle`, `GenerateThreeStyles`, `CheckTutorialStatus`, `GetTutorial`, `RunSteps`, `GenerateVideo` and `PollJob`.
- State that the source updates in place is a class:
  - the module-level `generated_styles_store` is `StylesRoute.StyleStore`;
  - the bucket behind `StorageService` is `Storage.StorageService`;
  - the tutorial service's bucket and its dispatched video jobs are `TutorialGeneration.TutorialService`.

## Model

| member | source | states |
|---|---|---|
| Config.ParseCorsOrigins | apps/api/app/core/config.py:45-51 | A list passes through unchanged. A string gives number-of-commas + 1 entries: entry k is the k-th comma-separated piece with surrounding whitespace stripped, so it holds no comma and no surrounding whitespace. |
| Config.CorsRoundTrip | apps/api/app/core/config.py:45-51 | Origins without commas or surrounding blanks, joined with "," and parsed again, come back unchanged. |
| Config.MissingRequired | apps/api/app/core/config.py:15-19 | Names exactly the absent required fields (google_api_key, google_cloud_project, storage_bucket); it is empty iff all three are present. |
| Config.LoadSettings | apps/api/app/core/config.py:11-43 | Fails, with a non-empty list, exactly when a required field is missing. Otherwise it keeps every given value (key, project, bucket, env, app_name, app_version, host, port; a given cors_origins is parsed by `ParseCorsOrigins`) and falls back to the defaults for the others: env "development", app_name "Ejan API", app_version "1.0.0", cors_origins ["http://localhost:3000"], host "0.0.0.0", port 8000. |
| Config.ProductionDeployment | apps/api/app/core/config.py:53-61 | Settings loaded with env "production" are production and not development. |
| Config.IsDevelopment | apps/api/app/core/config.py:53-56 | True iff env == "development". |
| Config.IsProduction | apps/api/app/core/config.py:58-61 | True iff env == "production", so never together with `IsDevelopment`. |
| Config.DefaultIsDevelopment | apps/api/app/core/config.py:22-25 | Settings loaded without an env value are development and not production. |
| RequestModels.ValidateImageFormat | apps/api/app/models/request.py:127-152 | "png" iff the data starts with the 4-byte PNG signature; "jpeg" iff it starts with FF D8 FF; "webp" iff bytes 0..4 are "RIFF" and bytes 8..12 are "WEBP"; otherwise the "Unsupported image format" error. |
| RequestModels.SignaturesExclusive | apps/api/app/models/request.py:140-150 | No input carries two of the three signatures. |
| RequestModels.ShortAndGifRejected | apps/api/app/models/request.py:140-152 | Inputs shorter than 3 bytes, the empty input and GIF data are rejected. |
| RequestModels.ValidateFileSize | apps/api/app/models/request.py:155-172 | Accepts iff len(data) <= max_size_mb·1024·1024 (the limit itself and empty data pass); beyond it the error names max_size_mb. |
| RequestModels.ValidatePhoto | apps/api/app/models/request.py:44-66 | The checks run in order: a `binascii.Error` from decoding gives "Invalid base64 encoding", while any other decoding exception (such as the `ValueError` for non-ASCII text) gives "Photo validation failed: …" (or its own text if it mentions "size"); more than 10·1024·1024 bytes gives the size error, before the format check; a bad format gives "Photo validation failed: …"; otherwise the input string comes back unchanged. |
| RequestModels.ValidateTutorialRequest | apps/api/app/models/request.py:69-98 | Accepts iff raw_description is given and at most 5000 characters, original_image_url is given, and customization_text is absent or at most 1000 characters. Accepted values (description, image URL, style id, customization and final style image URL) are kept as given; a rejection carries at least one field error. |
| RequestModels.ValidateCustomizeRequest | apps/api/app/models/request.py:101-119 | All three fields are required, and custom_request is at most 1000 characters. |
| ResponseModels.ValidateUrl | apps/api/app/models/response.py:34-64 | Accepts iff the URL starts with http:// or https://, splits on "://" into exactly two parts, and the host (the text before the first "/") is non-empty and contains "."; the value is kept unchanged. |
| ResponseModels.HttpsUrl | apps/api/app/models/response.py:34-64 | "https://" + rest is accepted when rest holds no "://" and its host part is non-empty with a dot. |
| ResponseModels.MakeGeneratedStyle | apps/api/app/models/response.py:13-64 | A style is built exactly when its image URL validates, with all fields kept. |
| ResponseModels.ValidateStyles | apps/api/app/models/response.py:67-82 | An empty styles list is rejected; any other list is kept. |
| ResponseModels.ValidateStepUrl | apps/api/app/models/response.py:114-120 | Accepts iff the URL starts with "http://" or "https://", so "ftp://…" and "not-a-url" are rejected. |
| ResponseModels.StyleUrlIsStepUrl | apps/api/app/models/response.py:114-120 | Every URL the style validator accepts also passes the step URL check. |
| ResponseModels.MakeTutorialStep | apps/api/app/models/response.py:85-120 | A step is built iff step_number > 0 and both URLs pass the scheme check; the result keeps every field. |
| ResponseModels.MakeTutorialResponse | apps/api/app/models/response.py:123-155 | A response is built iff total_steps > 0 and total_steps == len(steps); the result satisfies that invariant. |
| ResponseModels.NoEmptyTutorial | apps/api/app/models/response.py:138-155 | A response with no steps can never be constructed. |
| Storage.ImageExtension | apps/api/app/services/storage.py:55-61 | image/jpeg, image/png and image/webp map to jpg, png and webp; every other content type has no extension. |
| Storage.ExtensionRoundTrip | apps/api/app/services/storage.py:55-61 | The extension map is a bijection between the three supported types and their extensions. |
| Storage.Timestamp | apps/api/app/services/storage.py:34 | `%Y%m%d_%H%M%S` is 15 characters: eight digits, "_", six digits. |
| Storage.UniqueFilename | apps/api/app/services/storage.py:24-36 | The name has the form `{prefix}_{timestamp}_{8 chars}.{ext}`: it starts with prefix + "_", ends with "." + ext, and is 26 characters longer than prefix and ext together. |
| Storage.UniqueFilenameIds | apps/api/app/services/storage.py:24-36 | Two names made in the same second differ exactly when their short ids differ. |
| Storage.GetPublicUrl | apps/api/app/services/storage.py:132-142 | Equals "https://storage.googleapis.com/" + bucket + "/" + filename; an unset bucket prints as "None". |
| Storage.PublicUrlIsWebUrl | apps/api/app/services/storage.py:132-142 | A public URL passes the style URL validator whenever the object path holds no "://". |
| Storage.UploadBackoff | apps/api/app/services/storage.py:125-129 | The pause before retry a+1 is 1·2^a seconds: 1, then 2. |
| Storage.UploadResult | apps/api/app/services/storage.py:92-130 | Ok with the public URL iff one of the first three attempts succeeded; otherwise an error starting "Failed to upload after 3 attempts". |
| Storage.UploadEffectPublicIffOk | apps/api/app/services/storage.py:92-130 | After the loop the object is stored and public when the upload returned a URL. On failure it is stored but not public if some attempt failed at publishing, and absent otherwise. No other object changes. |
| Storage.StorageService.FileExists | apps/api/app/services/storage.py:144-155 | True iff the bucket holds an object of that name. |
| Storage.StorageService.UploadWithRetry | apps/api/app/services/storage.py:92-130 | Makes at most three attempts and stops at the first success. It returns `UploadResult`, sleeps `UploadBackoff` between attempts (none after the last), and leaves the bucket as `UploadEffect` says. |
| Storage.StorageService.UploadImage | apps/api/app/services/storage.py:38-67 | An unsupported content type fails with "Unsupported image format: …" before any attempt and leaves the bucket unchanged. A supported one is uploaded under an `image_…` name with the mapped extension, as `UploadResult` and `UploadEffect` say. |
| Storage.StorageService.UploadVideo | apps/api/app/services/storage.py:69-90 | Only video/mp4 is accepted; anything else fails with "Unsupported video format: …" and uploads nothing. The name is a `video_…` name with the extension mp4. |
| Storage.StorageService.DeleteFile | apps/api/app/services/storage.py:157-172 | Returns true iff no exception occurred and the object existed, and then removes it. Otherwise it returns false and leaves the bucket unchanged. |
| Storage.NewStorageService | apps/api/app/services/storage.py:20-22 | Creating the service creates the storage client, which refuses an empty bucket setting with "STORAGE_BUCKET environment variable is required" (apps/api/app/core/storage.py:19-29). Otherwise the service holds the given bucket and objects. |
| AiClient.ValidateModelName | apps/api/app/services/ai_client.py:175-186 | True iff the name is non-empty and one of the four supported models. |
| AiClient.InitClient | apps/api/app/services/ai_client.py:47-66 | Fails with "GOOGLE_API_KEY is not set" when neither the argument nor the setting gives a key. A non-empty argument wins over the setting. An SDK failure becomes "Failed to initialize AI client: …". |
| AiClient.ContentsFor | apps/api/app/services/ai_client.py:87-89 | [prompt] without an image, [prompt, image] with one. |
| AiClient.GenerateContent | apps/api/app/services/ai_client.py:68-97 | The SDK's response passes through unchanged; an SDK exception becomes "Failed to generate content: …". |
| AiClient.PartTextsMembers | apps/api/app/services/ai_client.py:146-155 | The collected texts are exactly the non-empty texts of the parts. |
| AiClient.ExtractTextFromResponse | apps/api/app/services/ai_client.py:137-155 | Joins with "\n" every non-empty text part of every candidate, in order; an empty response gives "". |
| AiClient.ExtractedTextEmpty | apps/api/app/services/ai_client.py:137-155 | The extracted text is empty exactly when no part carries non-empty text. |
| AiClient.FirstImage | apps/api/app/services/ai_client.py:166-173 | The data of the first part with inline data, or None when there is none. |
| AiClient.ExtractImageFromResponse | apps/api/app/services/ai_client.py:157-173 | Scans the candidates in order and returns the first inline data (`FirstImage` of all parts), or None. |
| AiClient.Backoff | apps/api/app/services/ai_client.py:124-133 | The pauses are delay·2^a for a = 0..m−1. |
| AiClient.BackoffTotal | apps/api/app/services/ai_client.py:124-133 | The pauses add up to delay·(2^m − 1). |
| AiClient.GenerateContentWithRetry | apps/api/app/services/ai_client.py:99-135 | Makes at most max_retries attempts and returns the first success. It pauses by `Backoff` between attempts, not after the last. On exhaustion it raises "Failed after {max_retries} retries: {last error}". |
| ImageGeneration.StyleKeyDefined | apps/api/app/services/image_generation.py:54-65 | A prompt exists exactly for the table's keys. Because of the misspelled "feamle1", FEMALE with index 1 has none, and no index outside 0..2 has one. |
| ImageGeneration.GenerateStylePrompt | apps/api/app/services/image_generation.py:67-100 | Defined exactly when the key exists. The prompt contains the chosen variation and the gender text, and it ends with "\n\nAdditional request: X" iff the custom text is non-empty. |
| ImageGeneration.ValidateImageSize | apps/api/app/services/image_generation.py:330-341 | True iff len(data) <= max_size_mb·1024·1024. |
| ImageGeneration.ImageSizeAgreesWithFileSize | apps/api/app/services/image_generation.py:330-341 | The service's size gate accepts exactly what the request model's size check accepts. |
| ImageGeneration.FirstLine | apps/api/app/services/image_generation.py:352-358 | The first line of the stripped description, itself stripped: no newline, no surrounding whitespace. |
| ImageGeneration.TitleOfLine | apps/api/app/services/image_generation.py:360-367 | Returns the stripped text before the first ":"; else the text before the first "-"; else the line itself if shorter than 50 characters; else "Style". |
| ImageGeneration.TitleStripped | apps/api/app/services/image_generation.py:360-367 | A title taken from a stripped line has no surrounding whitespace. |
| ImageGeneration.TitleCharsFromLine | apps/api/app/services/image_generation.py:360-367 | Apart from the default "Style", every character of the title occurs in the line. |
| ImageGeneration.ExtractTitleFromDescription | apps/api/app/services/image_generation.py:343-367 | "" gives "Style". Otherwise the result is the title of the first stripped line: it occurs in the description (or is "Style"), holds no newline, and has no surrounding whitespace. |
| ImageGeneration.AttemptKindOf | apps/api/app/services/image_generation.py:194-247 | Each attempt has one kind. An image means a non-empty inline image in the response. No image means a response without one. An error means the call raised, either a server error or any other failure. |
| ImageGeneration.RetrySleepBelowCap | apps/api/app/services/image_generation.py:203-206 | Within three attempts the pauses are 2·2^a after no image and 4·2^a after a server error. These equal min(2·2^(r−1), 20) and min(2·2^r, 20), and never exceed 8 < 20. |
| ImageGeneration.RawDescription | apps/api/app/services/image_generation.py:156-159 | Never empty: the model's text when it returned some, otherwise the default description. |
| ImageGeneration.StyleTexts | apps/api/app/services/image_generation.py:162-191 | The Japanese title and description when that sub-call succeeded. Otherwise the title extracted from the raw text, or "スタイル" + (index + 1) when that is empty (so never empty), and the first min(len, 30) characters of the raw text, or the gender value + "スタイル" when the raw text is empty. |
| ImageGeneration.LastAttempt | apps/api/app/services/image_generation.py:139-247 | The last attempt is below three. Every attempt before it was not decisive, and it is decisive unless it is the third. |
| ImageGeneration.SingleStyleCalls | apps/api/app/services/image_generation.py:139-247 | At most three image calls. |
| ImageGeneration.UndefinedStyle | apps/api/app/services/image_generation.py:146 | A missing style key fails with "Unexpected error: '{key}'" before any image call, and uploads nothing. |
| ImageGeneration.StylePrompt | apps/api/app/services/image_generation.py:146 | The prompt exists iff the style key is defined; otherwise the KeyError text names the key. |
| ImageGeneration.GenerateSingleStyle | apps/api/app/services/image_generation.py:118-250 | Returns the outcome function's result. It makes at most three calls and records the pauses of the two schedules, one before each retry. An upload failure raises "Failed to upload image" without a retry, and three attempts without an image raise "No image generated after 3 attempts". Only an attempt with an image writes to the bucket. |
| ImageGeneration.FemaleSecondStyleFails | apps/api/app/services/image_generation.py:59 | FEMALE with index 1 always fails, before any image call. |
| ImageGeneration.SingleStyleSuccess | apps/api/app/services/image_generation.py:194-229 | On success the style carries the oracle's id and the public URL of the uploaded PNG, which is then stored and public. Its raw description is non-empty. The index is in 0..2 and is not FEMALE with index 1. |
| ImageGeneration.StyleOutcomes | apps/api/app/services/image_generation.py:268-293 | Three outcomes: index i is the single-style outcome for index i. |
| ImageGeneration.SuccessesAndErrors | apps/api/app/services/image_generation.py:268-285 | Each outcome contributes either a style or an error text, never both. |
| ImageGeneration.SuccessesEmpty | apps/api/app/services/image_generation.py:268-293 | There are no styles exactly when all outcomes failed. |
| ImageGeneration.SuccessesFromOutcomes | apps/api/app/services/image_generation.py:268-285 | Every returned style is the result of one of the outcomes. |
| ImageGeneration.ThreeStylesFailOnlyIfAllFail | apps/api/app/services/image_generation.py:287-293 | Raises exactly when all three styles fail; otherwise returns one to three styles in index order. |
| ImageGeneration.FemaleAtMostTwoStyles | apps/api/app/services/image_generation.py:54-65 | With FEMALE, at most two styles come back. |
| ImageGeneration.GenerateThreeStyles | apps/api/app/services/image_generation.py:252-293 | Returns the aggregation over the three outcomes. It pauses twice, after styles 1 and 2, and not after style 3. The bucket ends as the three styles, run in order, leave it. |
| ImageGeneration.ProcessUploadAndGenerate | apps/api/app/services/image_generation.py:295-328 | Checks run in order: invalid base64 gives "Invalid base64 image: …", then data over 10 MB gives "Image size exceeds 10MB limit", then an unopenable image fails. Each leaves the bucket unchanged. Otherwise the result and the bucket are those of the three styles. |
| StylesRoute.IsValidImageFormat | apps/api/app/api/routes/styles.py:141-163 | True iff the data has the PNG prefix, the JPEG prefix, or is at least 12 bytes with RIFF…WEBP. |
| StylesRoute.FormatChecksAgree | apps/api/app/api/routes/styles.py:141-163 | The route's check holds exactly when `validate_image_format` does not raise. |
| StylesRoute.ServiceGender | apps/api/app/api/routes/styles.py:81-86 | MALE→MALE, FEMALE→FEMALE, NEUTRAL→NEUTRAL. |
| StylesRoute.RequestGender | apps/api/app/api/routes/styles.py:81-86 | The inverse direction of the gender map. |
| StylesRoute.GenderMapBijection | apps/api/app/api/routes/styles.py:81-86 | Each direction of the gender map undoes the other. |
| StylesRoute.CheckPhoto | apps/api/app/api/routes/styles.py:44-79 | Checks run in order: a decoding failure, then more than 10·1024·1024 bytes (FILE_TOO_LARGE carrying the current size), then the format. It passes the bytes through iff all three pass. |
| StylesRoute.RouteChecksRepeatRequestChecks | apps/api/app/api/routes/styles.py:44-79 | The route's checks accept exactly the photos the request model accepts. |
| StylesRoute.RouteErrors | apps/api/app/api/routes/styles.py:29-110 | A failed check is a 400 and the service result is not used. A service failure or an empty style list is a 500 whose detail starts with "AI service error: ". Otherwise the service's styles come back. |
| StylesRoute.StoreAllLookup | apps/api/app/api/routes/styles.py:95-96 | After the writes, an id holds the last style written under it, or else what it held before. |
| StylesRoute.LaterWriteWins | apps/api/app/api/routes/styles.py:95-96 | A repeated id overwrites the earlier entry. |
| StylesRoute.EveryStyleStored | apps/api/app/api/routes/styles.py:95-96 | Every style written is found under its own id. |
| StylesRoute.StyleStore.Put | apps/api/app/api/routes/styles.py:96 | Stores the style under its id and changes no other entry. |
| StylesRoute.StyleStore.PutAll | apps/api/app/api/routes/styles.py:95-96 | Writes the styles in order: the store becomes `StoreAll` of the old store. |
| StylesRoute.StyleStore.Get | apps/api/app/api/routes/styles.py:119-138 | Returns the stored style when the id is present and a 404 naming the id otherwise; the store is unchanged. |
| StylesRoute.GenerateStyles | apps/api/app/api/routes/styles.py:29-110 | Returns the route's outcome, and asks the service for the mapped gender only when the checks pass. Styles the service returned are stored in order (`StoreAll`); otherwise the store is unchanged. |
| TutorialStructure.MakeTool | apps/api/app/services/tutorial_structure.py:15-19 | A tool is built iff its name is present and non-empty and its description is present. |
| TutorialStructure.MakeStep | apps/api/app/services/tutorial_structure.py:22-31 | Requires step_number ≥ 1, a non-empty title, a description, and duration ≥ 10 (default 30); tools default to []. Every given field (number, title, description, duration, tools) is kept as given. |
| TutorialStructure.MakeSteps | apps/api/app/services/tutorial_structure.py:22-31 | The list validates iff every element does, and keeps their order. |
| TutorialStructure.MakeTools | apps/api/app/services/tutorial_structure.py:15-19 | The list validates iff every element does, and keeps their order. |
| TutorialStructure.ValidateDifficulty | apps/api/app/services/tutorial_structure.py:46-53 | Accepts iff lower(v) is beginner, intermediate or advanced, and stores the lower-cased value. |
| TutorialStructure.DifficultyIdempotent | apps/api/app/services/tutorial_structure.py:46-53 | Validating an already validated level changes nothing. |
| TutorialStructure.MakeProcedure | apps/api/app/services/tutorial_structure.py:34-53 | The procedure is built iff every field is present and valid: total_duration_minutes ≥ 1, at least one step, and a valid difficulty. The result keeps the given title, description and duration, the lower-cased difficulty, and the validated steps and required tools, and it is well-formed. |
| TutorialStructure.TutorialGenderText | apps/api/app/services/tutorial_structure.py:74-80 | Non-empty exactly for male, female or neutral, in any case. |
| TutorialStructure.TutorialPromptShape | apps/api/app/services/tutorial_structure.py:56-95 | The prompt always contains the style description. The "Tailor the tutorial …" clause is present only for a known gender, and "Additional requirements: X" iff X is non-empty; the gender clause comes first. |
| TutorialStructure.ValidateProcedureMeaning | apps/api/app/services/tutorial_structure.py:215-238 | True iff there are steps, the step numbers lie in 1..N and are distinct (that is, sorted they equal [1..N]), and total_duration_minutes ≤ 120. |
| TutorialStructure.PermutationOfRange | apps/api/app/services/tutorial_structure.py:228-232 | A sequence is a permutation of [1..N] iff its elements lie in 1..N and are distinct. |
| TutorialStructure.CalculateTotalDuration | apps/api/app/services/tutorial_structure.py:240-250 | The total in minutes rounded up: (r − 1)·60 < Σ seconds ≤ r·60. |
| TutorialStructure.DurationOfThreeSteps | apps/api/app/services/tutorial_structure.py:249-250 | A worked example of the ceiling bounds: steps of 60, 90 and 30 seconds take 3 minutes. |
| TutorialStructure.DurationPositive | apps/api/app/services/tutorial_structure.py:240-250 | Well-formed non-empty steps take at least one minute. |
| TutorialStructure.FormatForResponse | apps/api/app/services/tutorial_structure.py:265-290 | Keeps the number of steps and tools. |
| TutorialStructure.FormatRoundTrip | apps/api/app/services/tutorial_structure.py:265-290 | Reading the formatted dictionary back gives the procedure, with the same steps and tools in order and all fields kept; `required_tools` is mapped to "tools". |
| TutorialStructure.GenerateTutorialStructure | apps/api/app/services/tutorial_structure.py:112-161 | A returned procedure is the model's, and it passes the procedure check. A procedure object is returned exactly when it passes that check. An API error becomes "Failed to generate tutorial structure: …", and anything else "Unexpected error: …". |
| TutorialStructure.CheckProcedure | apps/api/app/services/tutorial_structure.py:152-154 | Passes the procedure through iff the procedure check holds; otherwise "Generated procedure failed validation". |
| TutorialStructure.StructureErrors | apps/api/app/services/tutorial_structure.py:143-161 | Every failure (a bad dictionary, a failed check, an API error) surfaces as a tutorial-structure error with the matching prefix. A dictionary is accepted exactly when it parses and passes the check, and a procedure object exactly when it passes the check. |
| TutorialGeneration.StepPathsDistinct | apps/api/app/services/tutorial_generation.py:106-137 | `tutorials/{id}/step_{n}/{file}` names one step and one file: two such paths are equal iff their step and file are. |
| TutorialGeneration.OriginalIsNoStepPath | apps/api/app/services/tutorial_generation.py:84 | The copy of the original never shares a name with a step object. |
| TutorialGeneration.StepStateMeaning | apps/api/app/services/tutorial_generation.py:441-480 | A status file decides the step's state: "completed" gives COMPLETED with the video URL, "failed" gives FAILED, anything else PROCESSING. Without one, the step is COMPLETED iff video.mp4 exists, else PENDING. |
| TutorialGeneration.StepStates | apps/api/app/services/tutorial_generation.py:441-488 | One state per step, numbered 1..N in order. |
| TutorialGeneration.CheckTutorialStatus | apps/api/app/services/tutorial_generation.py:422-516 | The counting loop returns exactly `StatusOutcome`: the states, the counts, the progress and the overall status. |
| TutorialGeneration.CountsBounded | apps/api/app/services/tutorial_generation.py:437-488 | completed_count + failed_count ≤ total_steps. |
| TutorialGeneration.CountAll | apps/api/app/services/tutorial_generation.py:458-476 | The count of a state equals the number of steps iff every step is in that state. |
| TutorialGeneration.CountSome | apps/api/app/services/tutorial_generation.py:458-476 | The count of a state is positive iff some step is in that state. |
| TutorialGeneration.ProgressBounds | apps/api/app/services/tutorial_generation.py:491-493 | Progress is 0 without steps, lies in 0..100, and is 100 iff every step is complete. |
| TutorialGeneration.OverallMeaning | apps/api/app/services/tutorial_generation.py:496-503 | "completed" iff every step is complete; "failed" iff there are steps and all failed; "partially_completed" iff some completed and some failed; otherwise "processing". |
| TutorialGeneration.StatusReport | apps/api/app/services/tutorial_generation.py:422-516 | A missing tutorial gives "Failed to check tutorial status: Tutorial {id} not found". Otherwise the report has one entry per step numbered 1..N, counts within the total, and progress in 0..100 (100 iff all complete). |
| TutorialGeneration.ReadSteps | apps/api/app/services/tutorial_generation.py:355-402 | One draft per step 1..N, in order. |
| TutorialGeneration.ReadStepMeaning | apps/api/app/services/tutorial_generation.py:355-402 | image_url and video_url are set iff `…/step_{n}/image.jpg` and `…/video.mp4` exist, with their public URLs. Missing step metadata defaults to title "Step n", description "" and tools []. |
| TutorialGeneration.StepOf | apps/api/app/services/tutorial_generation.py:383-399 | A step validates iff both URLs are present and the number is positive; the result keeps its fields. |
| TutorialGeneration.StepsOfMeaning | apps/api/app/services/tutorial_generation.py:355-402 | All drafts validate, in order, or the error is the first failing draft's. |
| TutorialGeneration.StepsOfStops | apps/api/app/services/tutorial_generation.py:355-402 | Once a prefix fails, later steps are not looked at. |
| TutorialGeneration.GetTutorial | apps/api/app/services/tutorial_generation.py:325-420 | The reading loop returns exactly `ReadOutcome`. |
| TutorialGeneration.GetTutorialMeaning | apps/api/app/services/tutorial_generation.py:325-420 | Missing metadata gives the unwrapped "Tutorial {id} not found". Success holds iff total_steps > 0 and every step's image and video exist. The response then holds steps 1..N with their own objects' URLs and satisfies the response invariant. |
| TutorialGeneration.ReadStepValid | apps/api/app/services/tutorial_generation.py:355-402 | A step read back validates exactly when both its image and its video exist. |
| TutorialGeneration.DownloadResult | apps/api/app/services/tutorial_generation.py:186-198 | Ok with the body iff the reply had status 200; every error starts with "Failed to download image: ". |
| TutorialGeneration.WrittenGenerationAlwaysFails | apps/api/app/services/tutorial_generation.py:144-152 | As written, `generate_tutorial` never returns a tutorial, whatever the storage writes do (see Findings). |
| TutorialGeneration.WrittenGenerationLeaves | apps/api/app/services/tutorial_generation.py:83-158 | As written, before it raises: no tutorial metadata and no image of a step after the first. Once the original, the bucket and step 1's image are saved, step 1's image is stored and exactly one video job is dispatched, for step 1 from the original URL. Step 1's metadata is stored when its own write succeeds too. |
| TutorialGeneration.GeneratedTutorialShape | apps/api/app/services/tutorial_generation.py:47-217 | Succeeds iff the structure, the download, the original's save, opening the bucket and every step's image and metadata writes succeed (the tutorial metadata's own write does not matter). Every error starts with "Tutorial generation failed: ": a structure error, then a failed original save as "Failed to save image to GCS: …", then the bucket's error, then the first failed step's image save (wrapped the same way) or its raw metadata error. On success the id is "tutorial_" + 8 hex digits and total_steps = N. Steps are numbered i+1 in structure order with their titles, descriptions and tools, and each image URL is the https URL of the step's own image; no video yet. |
| TutorialGeneration.ChainLatest | apps/api/app/services/tutorial_generation.py:88-158 | Step k's input image is the latest successful completion image before it, or the original when every earlier generation failed. |
| TutorialGeneration.SavedStepObjects | apps/api/app/services/tutorial_generation.py:106-143 | Saving k steps writes each step's image and metadata. |
| TutorialGeneration.SavedObjectsKeep | apps/api/app/services/tutorial_generation.py:106-143 | Saving steps leaves every other object as it was. |
| TutorialGeneration.FaultFreeGeneration | apps/api/app/services/tutorial_generation.py:83-168 | Corrected program (see Findings): When every write succeeds, the bucket is exactly `GeneratedBucket` and every step's video is dispatched. |
| TutorialGeneration.SaveFailureKeepsEarlierSteps | apps/api/app/services/tutorial_generation.py:83-143 | Corrected program (see Findings): After a failed write the tutorial metadata is not written. The steps before the failed one keep their image and metadata. The failed step keeps its image and its video job exactly when its metadata write was the one to fail. No later step's image is written. |
| TutorialGeneration.MetadataFailureIsSilent | apps/api/app/services/tutorial_generation.py:161-168 | Corrected program (see Findings): A failed tutorial-metadata write is swallowed (lines 291-323): no error, every step image stored and every video dispatched. Yet for a new id the status check fails with "Tutorial {id} not found" and `get_tutorial` does too. |
| TutorialGeneration.GeneratedBucketFacts | apps/api/app/services/tutorial_generation.py:84-168 | Corrected program (see Findings): A generation writes the metadata, the original, and each step's chained image and metadata; it writes no video and no status file. |
| TutorialGeneration.VideoStartsFromInputImage | apps/api/app/services/tutorial_generation.py:106-126 | Corrected program (see Findings): Step 1's video is dispatched with the original URL. Step k+1's is dispatched with the URL of step k's image, which holds the image step k+1 was generated from. |
| TutorialGeneration.GenerateThenRead | apps/api/app/services/tutorial_generation.py:325-402 | Corrected program (see Findings): A fresh tutorial reads back as the generated steps, yet `get_tutorial` fails while any step lacks its video. |
| TutorialGeneration.NothingStartedIsPending | apps/api/app/services/tutorial_generation.py:441-503 | Without status files or videos every step is PENDING, progress is 0, and the status is "processing" (or "completed" with no steps). |
| TutorialGeneration.StatusAfterGenerate | apps/api/app/services/tutorial_generation.py:441-503 | Corrected program (see Findings): Right after generation every step reports PENDING with progress 0. |
| TutorialGeneration.SampleStepsShape | apps/api/app/services/tutorial_generation.py:518-583 | Five steps numbered 1..5. Only step 3's description changes, and only when the customization mentions "eye" in any case. |
| TutorialGeneration.SampleStepValid | apps/api/app/services/tutorial_generation.py:530-577 | Every sample step is a valid `TutorialStep`. |
| TutorialGeneration.TutorialService.SaveStep | apps/api/app/services/tutorial_generation.py:93-158 | Corrected program (see Findings): One iteration of the loop. A failed image save returns "Failed to save image to GCS: …" with the bucket and the jobs unchanged. Otherwise it stores step i+1's image, dispatches its video with the previous image URL and advances the chained image and URL. A failed metadata write then returns its raw error, with the image kept; otherwise the step metadata is stored and the step's draft returned. |
| TutorialGeneration.TutorialService.RunSteps | apps/api/app/services/tutorial_generation.py:88-158 | Corrected program (see Findings): The loop stops at the first failed write with `SaveError`. It leaves the bucket as `StepsBucket` and appends the video jobs of the `StartedVideos` steps; without an error it returns `GeneratedDrafts`. |
| TutorialGeneration.TutorialService.GenerateTutorial | apps/api/app/services/tutorial_generation.py:47-217 | Corrected program (see Findings): Returns `GenerateOutcome`. A structure or download failure leaves the bucket and the dispatched jobs unchanged. Otherwise the bucket ends as `GenerationBucket` and the jobs of the `StartedVideos` steps are appended. |
| VideoFunction.StatusText | apps/functions/video_generation/main.py:103-117 | Every result's status is "success" or "failed". |
| VideoFunction.FirstMissing | apps/functions/video_generation/main.py:40-43 | The first required field the body lacks, image_url before prompt. |
| VideoFunction.ClockGrows | apps/functions/video_generation/main.py:72-79 | With checks ten seconds apart, the k-th check is at least 10k seconds after the start. |
| VideoFunction.DoneIsNotPolled | apps/functions/video_generation/main.py:72-79 | An operation that is already done is never polled. |
| VideoFunction.FinishedMeaning | apps/functions/video_generation/main.py:72-79 | The loop finishes after p polls iff the p-th answer was the first "done", and every check before it was within the 540 s budget. |
| VideoFunction.TimedOutMeaning | apps/functions/video_generation/main.py:72-79 | A timeout comes at the first check past 540 s, after answers that were all "running". |
| VideoFunction.RaisedMeaning | apps/functions/video_generation/main.py:72-79 | A raised poll is the first answer that is not "running", at a check within the budget. |
| VideoFunction.PollingBound | apps/functions/video_generation/main.py:72-79 | The loop polls at most 55 times. |
| VideoFunction.UniqueFilename | apps/functions/video_generation/main.py:120-133 | The name has the form `{prefix}-{epoch seconds}-{8 chars}.{ext}`. |
| VideoFunction.UniqueFilenameIds | apps/functions/video_generation/main.py:120-133 | Two names made in the same second differ exactly when the first eight characters of their UUIDs do. |
| VideoFunction.VideoPathShape | apps/functions/video_generation/main.py:94-95 | The object path is `videos/video-step-{n}-{seconds}-{8 chars}.mp4`. |
| VideoFunction.VideoPathsOfStepsDiffer | apps/functions/video_generation/main.py:94-95 | Different steps never share a video object. |
| VideoFunction.GenerateVideo | apps/functions/video_generation/main.py:21-117 | The function with its checks and polling loop returns exactly `VideoOutcome`. |
| VideoFunction.PollJob | apps/functions/video_generation/main.py:72-79 | The polling loop ends as `Polling` says. |
| VideoFunction.RequestChecks | apps/functions/video_generation/main.py:35-45 | A body `get_json` refuses goes to the `except` branch with its error. A body that is absent or false fails with "No JSON data provided". Then a missing image_url, then a missing prompt, fails with "Missing required field: {field}"; an `in` test that raises goes to the `except` branch. A JSON value other than an object that passes these checks raises when indexed. No job is started before all checks pass. |
| VideoFunction.StepNumberDefault | apps/functions/video_generation/main.py:47 | A request without step_number is step 1. |
| VideoFunction.NoJobWithoutKeyOrImage | apps/functions/video_generation/main.py:50-59 | A missing API key, or an image fetch other than 200, fails before any video job is started. |
| VideoFunction.DoneJobNotPolled | apps/functions/video_generation/main.py:72-79 | A job that is done when it is created is never polled. |
| VideoFunction.SuccessMeaning | apps/functions/video_generation/main.py:81-109 | Success holds iff the body is a JSON object with both fields, a key is set, the fetch returned 200, the job started and finished, the download worked, the bucket is set and the upload worked. Then the URL is the public URL of `videos/video-step-…mp4`, the duration is the elapsed whole seconds, and at most 55 polls were made. |
| VideoFunction.FailureDuration | apps/functions/video_generation/main.py:111-117 | A failure carrying a duration has the elapsed whole seconds and the text of a caught exception (from reading or indexing the body, or from the outside world). One without a duration has an early-return message: no JSON, a missing field, no API key, a failed fetch, no bucket, or the timeout. |
| VideoFunction.TimeoutMeaning | apps/functions/video_generation/main.py:72-79 | The result is "Video generation timeout after 540 seconds" iff a job was started and its polls stayed "running" past the budget. |
| VideoFunction.ReplyStatus | apps/functions/video_generation/main.py:136-170 | OPTIONS gives 204 with an empty body, and any other non-POST gives 405. A POST gives 200 iff the result is "success", else 500. The JSON status matches the code. Every reply, the preflight included, allows any origin and the methods GET, POST and OPTIONS. |

## Left out

- SDK, network and storage calls (genai `generate_content`, `generate_videos`, `operations.get` and `files.download`; httpx and requests; blob `upload`, `exists` and `make_public`) are parameters. Each is a recorded outcome or a sequence of outcomes, one per attempt, and its behaviour is not modelled.
- TutorialGeneration.TutorialService.GenerateTutorial: the storage writes of one generation are a `SaveOutcomes` parameter, one optional error per write. A `make_public` failure after a successful upload is modelled as an object not written. Opening the bucket is given a possible error, though `client.bucket` itself sends no request.
- AiClient.ExtractTextFromResponse / AiClient.ExtractImageFromResponse: a candidate is either without content or has a list of parts. The SDK also allows a content whose `parts` is None. For it the source's `for part in candidate.content.parts` raises TypeError (apps/api/app/services/ai_client.py:151 and :169). In `generate_single_style` that TypeError ends the style at once with "Unexpected error: 'NoneType' object is not iterable", without a retry (apps/api/app/services/image_generation.py:156 and 245-246). The model has no such input. Its nearest one, a candidate without content, gives no text and no image, so `GenerateSingleStyle` retries after a 2 s pause.
- Base64 decoding, JSON parsing and PIL `open`/`save` are outcomes given as parameters. The JPEG re-encoding of saved images is not modelled: an image is stored as it was produced.
- Real sleeping and the wall clock are left out. Pauses are recorded as values. The video function's elapsed time is a sequence of millisecond readings, one per check, at least 10 seconds apart (the `ValidWorld` condition). Fractional seconds below a millisecond are not modelled.
- `asyncio.create_task` dispatch of step videos is concurrency. The model records which arguments are dispatched, in order, and not when the jobs run.
- uuid and timestamp values are parameters: only the formats of names and ids are modelled.
- TutorialGeneration.ProgressBounds, TutorialGeneration.Progress, TutorialGeneration.StatusOutcome, TutorialGeneration.CheckTutorialStatus, TutorialGeneration.StatusReport: progress is integer floor division, completed·100 div total. Python's `int(completed / total * 100)` goes through floats, and float rounding is not modelled. The two can differ: 29 of 100 completed gives 29 here, but 28 in Python, because `0.29 * 100` is 28.999…
- Text.Lower and Text.Strip cover ASCII only: `lower()` maps A–Z, and `strip()` removes ASCII whitespace and \x1c–\x1f. Unicode case mapping and Unicode whitespace are not modelled.
- `AIClient.generate_structured_output` is not modelled; its result is the `StructuredOutput` parameter of `TutorialStructure.GenerateTutorialStructure`.
- The completion-image prompt text of `_generate_step_completion_image` is not modelled; each step's completion image is an optional parameter (None when generation failed).
- Pydantic's own error texts are abstracted: a field error names the field, and the route details keep their codes and prefixes.
- The video function treats the `image_url` and `prompt` values of an object body as strings, and `step_number` as an int or absent. Non-string `image_url` or `prompt` values are not modelled, and neither is a string or null `step_number`, which would put `video-step-abc…` or `video-step-None…` into the object path. A body that is not an object is reduced to its truth value, what `in` finds in it, and the error indexing raises.
- `_save_tutorial_metadata` is called with the same `now` for both `created_at` values. The bucket keeps one map per document kind (metadata, step metadata, status files, media) rather than one map of raw bytes.
- Logging and `print` statements are left out.
- apps/api/app/services/cloud_function_client.py, apps/api/app/api/routes/tutorials.py, apps/api/app/main.py, apps/api/app/services/style_generation.py, apps/api/app/api/prompts.py and the sample scripts are not part of this model. They are HTTP plumbing, field-copying adapters and constant templates.
- The placeholder paths of the tutorial service (`generate_tutorial_with_real_services`, `_generate_step_image`, `_generate_step_video`, `_get_image_url`) return random URLs and are not modelled.
- `TutorialStatusResponse`, `StepStatusInfo` and the step status enumeration are imported by apps/api/app/services/tutorial_generation.py:15-21 but not defined in apps/api/app/models/response.py. The model defines them locally: PENDING, PROCESSING, COMPLETED, FAILED, with the overall status values as the code spells them.
- `get_tutorial` is modelled as written. A step whose image or video is missing gets a `None` URL, which `TutorialStep` rejects; `GetTutorialMeaning` states this as the success condition.
- The "feamle1" key is modelled as written, so FEMALE with index 1 has no prompt (`FemaleSecondStyleFails`, `FemaleAtMostTwoStyles`). The tests expect index wrap-around and a raise on partial failure; the model follows the code.

## Findings

| source | as written | input that shows it | evidently intended | confidence | as-written member | corrected member |
|---|---|---|---|---|---|---|
| apps/api/app/services/tutorial_generation.py:144-152 | Each generated step is built as a `TutorialStep` with `video_url=None`, but `TutorialStep` requires an http(s) string (apps/api/app/models/response.py:114-120). The validation error is re-raised as "Tutorial generation failed: …", so the function never returns a tutorial. A procedure with no steps fails `total_steps > 0` instead. Before raising, the code has saved the original, step 1's image and step 1's metadata, and dispatched step 1's video job; the tutorial metadata is never written (`WrittenGenerationLeaves`). The corrected program, which the generation members other than `WrittenGenerationAlwaysFails` and `WrittenGenerationLeaves` describe, keeps the drafts without a video URL. | Any structure that passes validation (for example one step numbered 1, total 1 minute) and an image download with status 200 | Return the tutorial with steps 1..N whose video URLs are still pending (absent), as the status endpoint and the dispatched video jobs expect | not executed | TutorialGeneration.WrittenGenerationAlwaysFails | TutorialGeneration.GeneratedTutorialShape |
