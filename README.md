# Question extraction service — a Dafny model

The service takes an uploaded exam PDF and extracts its questions. It renders
each page to an image and asks a chat model for the questions on that page. It
records the progress of each extraction in a process-wide registry of tasks,
and writes the questions it collects to a JSON artifact under `outputs/`. Three
HTTP handlers sit on top:

- `POST /extract` accepts a PDF and starts an extraction;
- `GET /status/{id}` reports a task's progress, falling back to the artifact
  when the registry no longer knows the id;
- `GET /download/{id}` serves the artifact.

The model covers these parts:

- `Extractor`: the task record (`ExtractionTask`), the registry, registration
  (`ExtractQuestionsAsync`), and the drive loop (`RunExtraction`, built from
  `ProcessPages` and `ProcessPage`). Each method is proved against pure
  specification functions: `RunSpec`, `PagesOutcome`, `FirstFailure`,
  `Collected`, `PageSnapshots` and `FilesAfterPages`.
- `ExtractorProperties`: what a run promises. It completes exactly when every
  page succeeds, it stops at the first failing page, and questions arrive in
  page order. Progress rises strictly and reaches 1.0 exactly on completion. A
  run touches only its upload, its artifact and its temp images, and a failed
  run writes no artifact.
- `FileHandler`: the file system as a map from paths to contents
  (`FileStore`), an upload with a read position (`UploadFile`), saving an
  upload with its size limit, artifact paths, and clean-up.
- `Llm`: message formatting (with a round trip through a parser of RFC 2397
  data URLs), the request body, and the client's token counters and
  `generate_response`, with the chat API as a parameter.
- `Security`: token comparison and the API key lookup.
- `QuestionsApi`: the three handlers, the extraction id derivation, the
  exception-to-HTTP mapping, and lemmas about a submission from start to end.
  After a completed run, the registry's answer and the artifact's answer agree
  on status, progress and questions. After a failed run, both the status and
  the download answer 404 once the registry is gone.
- `Common`, `Config`, `Paths`, `Models`: `Option`/`Result`, the settings
  constants, the POSIX path functions the code uses (`os.path.join`,
  `basename`, `splitext`, `Path.suffix`), and the question shapes and status
  values.

The collaborators of a run are inputs, not code: `RunInput` says what the
prompts file loads to and what the rasteriser yields, or what each raises, and
what every page's save, read-back and model call do, including a model answer with no parsed object. Two other values are also
parameters: the chat API of `GenerateResponse`, and the uuids of the handlers.

## Model

| member | source | states |
|---|---|---|
| Common.NatToString | app/services/extractor.py:104 | the decimal rendering of a page number is a non-empty run of digits |
| Common.NatToStringRoundTrip | app/services/extractor.py:104 | the decimal text put into progress messages reads back as the number written |
| Common.NatToStringInjective | app/services/extractor.py:104 | different page numbers give different texts |
| Paths.Basename | app/services/extractor.py:58 | `os.path.basename` is the suffix that starts right after the last `/` (the whole path when there is none) and holds no `/` |
| Paths.BeforeFirstDot | app/services/extractor.py:58 | `split('.')[0]` is the longest prefix without a dot: the whole text, or the prefix that stops at the first dot |
| Paths.SplitExtRoot | app/api/endpoints/questions.py:52 | `os.path.splitext(...)[0]` is a prefix of the name. What it removes starts at the last dot, lies inside the last component and follows a non-dot of it. Nothing is removed exactly when no dot of the last component follows a non-dot of it |
| Paths.PathSuffix | app/utils/file_handler.py:42 | `Path.suffix` ends the name and is empty or a dot followed by at least one character and no further dot |
| Paths.PathSuffixPresent | app/utils/file_handler.py:42 | a name has a suffix if and only if its last component has a dot after its first character and does not end in a dot |
| Paths.PathSuffixOfDotted | app/utils/file_handler.py:42 | the suffix of `<stem>.<ext>` is `.<ext>` when the extension has no dot and neither part has a `/` ("doc.pdf" gives ".pdf") |
| Paths.Join | app/utils/file_handler.py:45 | `os.path.join` ends with the joined name |
| Paths.JoinUnder | app/utils/file_handler.py:59 | joining a relative name gives `dir + "/" + name` |
| Models.StatusFromValue | app/api/models/schemas.py:55-58 | `StatusEnum(v)` accepts only the three status strings and gives back the member with that value |
| Models.StatusValueRoundTrip | app/api/models/schemas.py:55-58 | every status is recovered from its string value |
| Security.VerifyToken | app/core/security.py:4-13 | the comparison of the bearer token with the configured secret; its promise is stated by `VerifyTokenAcceptsOnlyTheSecret` |
| Security.VerifyTokenAcceptsOnlyTheSecret | app/core/security.py:4-13 | a token is accepted if and only if it equals the configured API token |
| Security.GetApiKeyFromEnv | app/core/security.py:16-22 | it fails with the "not set" ValueError exactly when the key is unset or empty, and otherwise returns the configured key, which is non-empty |
| Security.DefaultKeyIsFound | app/core/config.py:16-19 | with neither variable set, the placeholder token is accepted and the key lookup yields the placeholder key |
| FileHandler.FileStore.Write | app/utils/file_handler.py:48-49 | writing a path replaces its content and changes no other path |
| FileHandler.FileStore.Remove | app/utils/file_handler.py:67-68 | removing a path drops only that path |
| FileHandler.UploadFile.Read | app/utils/file_handler.py:32 | a read returns everything from the current position and moves the position to the end |
| FileHandler.UploadFile.Seek | app/utils/file_handler.py:39 | seek sets the read position |
| FileHandler.OutputFilePath | app/utils/file_handler.py:54-59 | the artifact path holds a `/` and ends in ".json" |
| FileHandler.OutputFilePathShape | app/utils/file_handler.py:54-59 | for a relative id the artifact is `outputs/<id>.json` |
| FileHandler.OutputFilePathInjective | app/utils/file_handler.py:54-59 | distinct relative ids never share an artifact |
| FileHandler.SizeLimitDetail | app/utils/file_handler.py:36 | the 413 detail, with the limit in whole megabytes; `SizeLimitDetailText` gives its text |
| FileHandler.SizeLimitDetailText | app/utils/file_handler.py:36 | the 413 detail is "File size exceeds the limit of 20MB" |
| FileHandler.SaveUploadFile | app/utils/file_handler.py:24-51 | an upload over the limit fails with 413, leaves the file system alone and rewinds the upload. Otherwise the whole upload is stored at `uploads/<uuid><suffix>`, that path is returned, and nothing else changes |
| FileHandler.UploadSuffix | app/utils/file_handler.py:42 | an upload with a non-empty filename keeps that filename's suffix; one without a filename, or with an empty one, keeps none. Either way it is empty or starts with a dot |
| FileHandler.StoredPath | app/utils/file_handler.py:42-45 | the path an upload is stored at; its shape is stated by `StoredPathShape` and `StoredPathKeepsSuffix`, its uniqueness by `StoredPathInjective` |
| FileHandler.StoredPathInjective | app/utils/file_handler.py:41-44 | stored names are unique: two relative ids of the same length (every `str(uuid.uuid4())` has 36 characters) give the same stored path only when they are the same id, whatever the filenames |
| FileHandler.StoredPathShape | app/utils/file_handler.py:42-45 | for a relative uuid the upload is stored at `uploads/<uuid><suffix>` |
| FileHandler.StoredPathKeepsSuffix | app/utils/file_handler.py:42-45 | the stored path ends with the upload's suffix |
| FileHandler.CleanUpFiles | app/utils/file_handler.py:62-71 | the path no longer exists afterwards, whether or not it existed before, and no other path changes |
| FileHandler.StoredPathIsNotAnArtifact | app/utils/file_handler.py:42-45 | a stored upload never lands on an artifact path and always lies in a directory |
| Llm.RoleFromValue | app/services/llm.py:8-11 | `Role(v)` accepts only the three role strings and gives back the member with that value |
| Llm.RoleValueRoundTrip | app/services/llm.py:8-11 | every role is recovered from its string value |
| Llm.ImageUrlIsJpegDataUrl | app/services/llm.py:30 | the image URL is a base64 data URL of media type image/jpeg whose data is the image text unchanged |
| Llm.Base64DataUrlParses | app/services/llm.py:30 | a base64 data URL whose media type holds no comma parses back into that media type and its data |
| Llm.FormatMessage | app/services/llm.py:23-31 | the chat form of a message; `FormatMessageRoundTrip` and `FormattedMessageShape` state its promise |
| Llm.FormatMessageRoundTrip | app/services/llm.py:23-31 | formatting loses nothing: role, text and image are recovered from the formatted message |
| Llm.FormattedMessageShape | app/services/llm.py:23-31 | without an image the content is the plain text; with one it is a text part, then an image part carrying the image |
| Llm.FormatAll | app/services/llm.py:49 | each message is formatted, position by position, in order |
| Llm.BuildMessages | app/services/llm.py:49-50 | the request is the system prompt followed by the formatted messages, one for one |
| Llm.BuildMessagesRecoverable | app/services/llm.py:49-50 | the system prompt and every caller message, in order, are recovered from the request |
| Llm.LLM.constructor | app/services/llm.py:34-39 | a new client has both token counters at zero |
| Llm.LLM.WithDefaultModel | app/services/llm.py:34-39 | a client built from a key alone uses the default model "gpt-4o-2024-08-06" and starts with both counters at zero; it stands alone, since the run takes the model's answers as inputs rather than building a client |
| Llm.LLM.UpdateTokenUsage | app/services/llm.py:41-43 | each counter grows by exactly the usage the response reports |
| Llm.LLM.GenerateResponse | app/services/llm.py:45-67 | a failed call leaves the counters alone and propagates its cause. An answer adds its usage once, then yields the first choice's parsed object (schema given) or text (no schema), or the IndexError text when there is no choice |
| Extractor.ExtractionTask.constructor | app/services/extractor.py:38-45 | a new task is in progress at 0.0 with the start message, no questions and no error |
| Extractor.Registry.constructor | app/services/extractor.py:15 | the registry of extraction tasks starts empty |
| Extractor.GetExtractionStatus | app/services/extractor.py:174-178 | the lookup finds a task exactly when the id is registered, and finds that task |
| Extractor.ToQuestion | app/services/extractor.py:129-145 | the record built for one returned question; `ToQuestionRoundTrip` states what it keeps |
| Extractor.ToQuestions | app/services/extractor.py:128-147 | one record per returned question; `ToQuestionsAt` gives each position |
| Extractor.ToQuestionRoundTrip | app/services/extractor.py:129-145 | the mapped question carries the four options as its choices and the steps as its solution, and the model's question is recovered from it |
| Extractor.ToQuestionsAt | app/services/extractor.py:128-147 | the i-th mapped question is the mapping of the i-th returned question |
| Extractor.LookupPrompt | app/services/extractor.py:115 | the prompt is found exactly when both keys are present, and is the stored text |
| Extractor.PageFailure | app/services/extractor.py:106-128 | a page aborts the run unless it was answered and the prompt was found. The first exception wins: a failed save, then a failed load, then the prompt's KeyError, then the model call's error or, for an answer with no parsed object, the AttributeError |
| Extractor.FirstFailure | app/services/extractor.py:101-122 | every page before the result succeeds, and the page at the result fails unless it is the end |
| Extractor.FirstFailureIs | app/services/extractor.py:101-122 | the first failing page is unique |
| Extractor.TempImagePathIsRelative | app/services/extractor.py:107 | temp images of a stem without `/` are plain names in the working directory |
| Extractor.TempImagePath | app/services/extractor.py:107 | the temp image name of a page; `TempImagePathShape` states its shape |
| Extractor.TempImagePathShape | app/services/extractor.py:107 | a temp image is named by the stem, `_`, and then ends in ".png" |
| Extractor.FileStem | app/services/extractor.py:58 | the stem of the upload's path holds no `/` |
| Extractor.ProcessPage | app/services/extractor.py:101-147 | the page's progress and message are shown. On success the temp image is gone and the page's questions are appended, in order, to the task and to the run's list. On failure nothing is appended; the temp image stays if it was saved, unless the answer was refused after the image was removed |
| Extractor.AppendQuestions | app/services/extractor.py:128-147 | every returned question is mapped and appended, in response order, to the task and to the run's list, and nothing else of the task changes |
| Extractor.ProcessPages | app/services/extractor.py:100-147 | the loop stops at the first failing page. Both lists hold every earlier page's questions, the progress and message are those of the last page shown, and the snapshot trace covers exactly the pages started |
| Extractor.RunExtraction | app/services/extractor.py:72-171 | the task's final state, the file system and the snapshots are those `RunSpec` gives for the collaborators' behaviour |
| Extractor.ExtractQuestionsAsync | app/services/extractor.py:48-69 | the id is returned and a fresh task with the upload's stem is registered under it, replacing any earlier entry and modifying no earlier task; that task's run is `RunSpec` from the initial state |
| Extractor.PagesOutcome | app/services/extractor.py:96-157 | the end of the page loop and what follows it; its properties are the `ExtractorProperties` lemmas about it |
| Extractor.RunOutcome | app/services/extractor.py:85-167 | the end of a run's `try`/`except`: a prompts or rasteriser failure before any page, else `PagesOutcome` |
| Extractor.RunSpec | app/services/extractor.py:72-171 | a whole run including clean-up; `RunExtraction` is proved equal to it, and `ExtractorProperties` states what it promises |
| ExtractorProperties.CollectedPrefix | app/services/extractor.py:146-147 | questions are only appended: those of the first i pages are a prefix of those of the first k |
| ExtractorProperties.CollectedInPageOrder | app/services/extractor.py:128-147 | the j-th question of page i sits right after everything from earlier pages, at offset j |
| ExtractorProperties.CollectedLength | app/services/extractor.py:128-147 | the run gathers exactly as many questions as the answered pages returned |
| ExtractorProperties.PageSnapshotsAt | app/services/extractor.py:103-104 | the snapshot of page a is progress a/n and "Processing page a+1 of n" |
| ExtractorProperties.PageSnapshotsLength | app/services/extractor.py:101-104 | one snapshot per page started |
| ExtractorProperties.PageProgressBounds | app/services/extractor.py:103 | a later page shows strictly higher progress, and all of it lies in [0, 1) |
| ExtractorProperties.PageProgressBelowOne | app/services/extractor.py:103 | no page shows progress 1.0 |
| ExtractorProperties.SnapshotsRise | app/services/extractor.py:101-104 | the snapshots of the pages started rise strictly, one per page, and stay in [0, 1) |
| ExtractorProperties.SnapshotsAtMost | app/services/extractor.py:101-104 | no snapshot exceeds a progress that is at least the last started page's |
| ExtractorProperties.PagesProgressRises | app/services/extractor.py:101-157 | from 0.0, the page loop's snapshots rise strictly below 1.0, and its final progress is at least each of them and is 1.0 exactly when it completes |
| ExtractorProperties.RunProgressIsMonotone | app/services/extractor.py:101-157 | from 0.0, the snapshots rise strictly below 1.0, the final progress is at least each of them and lies in [0, 1], and it is 1.0 exactly when the run completes |
| ExtractorProperties.RunEndsTerminal | app/services/extractor.py:155-167 | every run ends completed or failed |
| ExtractorProperties.RunCompletesIffEveryPageSucceeds | app/services/extractor.py:85-167 | a run completes if and only if the prompts load, the PDF renders and every page succeeds |
| ExtractorProperties.CompletedRunWritesItsQuestions | app/services/extractor.py:149-157 | a completed run shows 1.0 and the success message; both the task and the artifact hold every page's questions in page order, and the artifact equals the task's questions for a fresh task |
| ExtractorProperties.ZeroPageDocumentCompletes | app/services/extractor.py:96-157 | a PDF with no pages completes with no questions and shows no page, even when the prompt key is missing |
| ExtractorProperties.FailedRunStopsAtItsCause | app/services/extractor.py:163-167 | a failed run records its cause as the error and after "Extraction failed: ". For a page failure it is the first failing page: progress stays at that page's value and earlier pages' questions stay |
| ExtractorProperties.NotTempImage | app/services/extractor.py:107 | a path with a `/` is never a temp image of a stem without one |
| ExtractorProperties.FilesAfterPagesKeeps | app/services/extractor.py:107-125 | writing and removing temp images changes no other path |
| ExtractorProperties.PagesOutcomeKeeps | app/services/extractor.py:101-152 | the page loop and the artifact write change only temp images and the artifact |
| ExtractorProperties.RunOutcomeKeeps | app/services/extractor.py:85-167 | before clean-up, a run changes only temp images and the artifact |
| ExtractorProperties.RunTouchesOnlyItsFiles | app/services/extractor.py:72-171 | every other path survives a run unchanged, except the input file, which is removed exactly when clean-up is requested |
| ExtractorProperties.FailedPagesKeepArtifact | app/services/extractor.py:149-152 | when a page fails the artifact path is left as it was |
| ExtractorProperties.FailedRunWritesNoArtifact | app/services/extractor.py:149-167 | a failed run leaves the artifact path as it was |
| ExtractorProperties.FailedPageLeavesTempImage | app/services/extractor.py:107-128 | a page that fails after its image was saved leaves that image behind, unless the failure is a refused answer read after the removal |
| ExtractorProperties.RefusedPageRemovesTempImage | app/services/extractor.py:113-128 | a refused answer fails the run with the AttributeError text; its temp image is gone and only earlier pages' questions are kept |
| QuestionsApi.CleanFilename | app/api/endpoints/questions.py:53 | only letters and digits remain, and a name made only of them is kept whole |
| QuestionsApi.CleanFilenameConcat | app/api/endpoints/questions.py:53 | cleaning a concatenation cleans each part: every letter and digit is kept, in order |
| QuestionsApi.CleanFilenameChar | app/api/endpoints/questions.py:53 | a single letter or digit is kept and any other character is dropped |
| QuestionsApi.ExtractionId | app/api/endpoints/questions.py:52-54 | the id of an extraction; `ExtractionIdShape` states its shape |
| QuestionsApi.ExtractionIdShape | app/api/endpoints/questions.py:52-54 | an id is letters and digits, then `_`, then the uuid |
| QuestionsApi.ExtractionIdSeparator | app/api/endpoints/questions.py:52-54 | the first `_` of an id ends its cleaned name |
| QuestionsApi.ExtractionIdsDistinct | app/api/endpoints/questions.py:52-54 | two ids are equal only with equal uuids and equal cleaned names |
| QuestionsApi.ExtractionIdIsRelative | app/api/endpoints/questions.py:52-54 | an id never starts with `/`, so its artifact lies under `outputs/` |
| QuestionsApi.WrapUnexpected | app/api/endpoints/questions.py:79-87 | an HTTP error passes unchanged; any other exception becomes a 500 whose detail is the handler's prefix and the exception's text |
| QuestionsApi.SelectApiKey | app/api/endpoints/questions.py:56-62 | the caller's key is used when asked for and non-empty, otherwise the configured one; a key that is used is never empty |
| QuestionsApi.Admission | app/api/endpoints/questions.py:35-62 | a non-PDF is a 400 and an oversize upload a 413. A missing filename is a 500 with the handler's prefix, and so is a key error. Exactly when all checks pass, the run starts with the stored path, the derived id and the key; every refusal is an HTTP error |
| QuestionsApi.MissingKeyIs500 | app/api/endpoints/questions.py:56-62 | an accepted PDF with no usable key is refused with a 500 naming the unset variable |
| QuestionsApi.AcceptUpload | app/api/endpoints/questions.py:35-62 | its answer is `Admission` of the upload's content type, size and filename and of the selected key. The upload is stored exactly when it is a PDF within the size limit, so a 400 or a 413 stores nothing while a later 500 leaves the upload behind |
| QuestionsApi.ExtractQuestions | app/api/endpoints/questions.py:26-87 | the upload is judged by `Admission`. A refusal answers that error and changes no task; an accepted upload registers a fresh task under the derived id, runs it with clean-up, and answers with no questions, the file name and the id |
| QuestionsApi.StatusResponse | app/api/endpoints/questions.py:105-146 | a registered task is reported as it stands, with questions exactly when completed. With no entry, a stored artifact is reported as completed with its questions, a missing one is 404, and an unreadable one is 500 with the handler's prefix |
| QuestionsApi.GetExtractionProgress | app/api/endpoints/questions.py:98-146 | the status reply is answered from the registry's entry for the id if there is one, otherwise from the files |
| QuestionsApi.JustRegisteredStatus | app/api/endpoints/questions.py:130-136 | a task polled before its run reports in progress, 0.0, the start message and no questions |
| QuestionsApi.DownloadExtractionResults | app/api/endpoints/questions.py:156-188 | results are served exactly when the artifact exists, as `extraction_<id>.json` of type application/json; otherwise 404 |
| QuestionsApi.SubmittedUploadIsDistinct | app/api/endpoints/questions.py:49-54 | the stored upload is neither the artifact nor a temp image of its own run |
| QuestionsApi.SubmissionCleansUpItsUpload | app/api/endpoints/questions.py:65-70 | after a submitted run, completed or failed, the stored upload is gone |
| QuestionsApi.CompletedRunIsServed | app/api/endpoints/questions.py:107-136 | a completed task whose artifact holds its questions gets the same status, progress and questions from the registry and from the artifact, and can be downloaded |
| QuestionsApi.CompletedSubmissionIsServed | app/api/endpoints/questions.py:107-136 | after a completed submission, status from the registry and status after a restart agree, except for the message wording, and the download succeeds |
| QuestionsApi.FailedRunIsNotFound | app/api/endpoints/questions.py:124-136 | a failed task without an artifact is reported failed with its cause by the registry, and is 404 for the status fallback and the download |
| QuestionsApi.FailedSubmissionLeavesNoResults | app/api/endpoints/questions.py:165-171 | after a failed submission for a new id, status after a restart and the download both answer 404, while the registry reports the failure |

## Left out

- Concurrency: `asyncio.create_task` schedules the run in the background, and `ExtractQuestionsAsync` runs it to its end before returning. `_run_extraction` contains no `await`, so the run executes as one uninterrupted step. The model therefore captures every state a poll can see: the registered initial state (`JustRegisteredStatus`) and the terminal state. The per-page `observed` snapshots are the states the loop passes through; a poll cannot see them.
- The PDF rasteriser (`pdf2image`), the prompts file's JSON parsing, base64 encoding of the image and the OpenAI client are outside the model. What each produces or raises is an input (`RunInput`, `PageOutcome`, the `api` parameter). The base64 encoding in `load_image` is not modelled: a page's image is carried as the bytes saved, and a message's image as text.
- JSON serialisation of the artifact: an artifact is stored as its question list, a value of its own kind. `ArtifactDecodeText` stands for the text of whatever exception `json.load` raises on a file that is not an artifact; the exact text depends on the bytes.
- Failures of the file system itself are not modelled: `os.makedirs`, the artifact write, `os.remove` of a temp image and the write of the upload never fail. For that reason the 500 branch of the download handler (a failing `os.makedirs`) cannot be reached.
- `clean_up_files` swallows and prints any removal error; printing and logging are left out, and removal never fails in the model.
- `isalnum` is ASCII-only here (`QuestionsApi.IsAlnum`); Python's is Unicode-aware.
- Path handling is the POSIX `os.path` behaviour on plain strings: there is no normalisation, no symbolic links and no working-directory resolution.
- The `validate_token` dependency of each handler, the app bootstrapping, CORS and directory creation at start-up are not part of this model. `VerifyToken` models only the comparison it relies on.
- uuids are parameters: nothing guarantees they are fresh. `ExtractionIdsDistinct` shows that distinct uuids give distinct ids.
- StoredPath: unique stored names rest on the uuids being fresh and of fixed length. `StoredPathInjective` shows that same-length ids share a path only when they are equal. Ids of different lengths can collide: `StoredPath(Some("x.pdf"), "a")` and `StoredPath(None, "a.pdf")` are both `uploads/a.pdf`.
- Floating point: progress is a real number. `i / n` is exact here, and Python's float rounding is not modelled.
- The message the artifact fallback sends ("Extraction completed") differs from the registry's ("Extraction completed successfully"). The model keeps both as written.
- The Pydantic validation of `ExtractionRequest` (the form fields) is not modelled beyond the field values used.
