/**
 * The three HTTP handlers of the questions router: submitting a PDF for
 * extraction, polling an extraction's status and downloading its results.
 * Each handler turns an unexpected exception into a 500 whose detail names
 * the handler, and lets an HTTP error raised inside it through unchanged.
 */
module QuestionsApi {
  import opened Common
  import opened Config
  import opened Paths
  import opened Models
  import opened Security
  import opened FileHandler
  import opened Extractor
  import ExtractorProperties

  const PdfContentType := "application/pdf"
  const OnlyPdfDetail := "Only PDF files are supported"
  const StartPrefix := "Failed to start extraction: "
  const StatusPrefix := "Failed to get extraction status: "
  const DownloadPrefix := "Failed to download extraction results: "
  /** The TypeError text of `os.path.splitext(None)`. */
  const NoFilenameText := "expected str, bytes or os.PathLike object, not NoneType"
  /** Stands for the text of the exception `json.load` raises on a file that is not a question list. */
  const ArtifactDecodeText := "Expecting value: line 1 column 1 (char 0)"
  const FallbackCompletedMessage := "Extraction completed"
  const JsonMediaType := "application/json"

  datatype ExtractionResponse = ExtractionResponse(questions: seq<Question>, fileName: string, extractionId: string)

  datatype ExtractionStatus = ExtractionStatus(status: Status, message: string, progress: real,
                                               questions: Option<seq<Question>>, extractionId: string)

  datatype FileResponse = FileResponse(path: string, filename: string, mediaType: string)

  // ---------------------------------------------------------------------
  // Extraction ids

  /** ASCII letters and digits. */
  predicate IsAlnum(c: char) {
    ('a' <= c <= 'z') || ('A' <= c <= 'Z') || IsDigit(c)
  }

  /** The characters of a name that are letters or digits, in order. */
  function CleanFilename(s: string): (r: string)
    ensures |r| <= |s|
    ensures forall i :: 0 <= i < |r| ==> IsAlnum(r[i])
    ensures (forall i :: 0 <= i < |s| ==> IsAlnum(s[i])) ==> r == s
  {
    if |s| == 0 then ""
    else
      var rest := CleanFilename(s[1..]);
      if IsAlnum(s[0]) then [s[0]] + rest else rest
  }

  /** Cleaning a name cleans its parts independently: nothing is reordered across them. */
  lemma {:induction false} CleanFilenameConcat(a: string, b: string)
    ensures CleanFilename(a + b) == CleanFilename(a) + CleanFilename(b)
    decreases |a|
  {
    if |a| > 0 {
      assert (a + b)[1..] == a[1..] + b;
      CleanFilenameConcat(a[1..], b);
    } else {
      assert a + b == b;
    }
  }

  /** A letter or digit is kept, anything else is dropped. */
  lemma CleanFilenameChar(c: char)
    ensures CleanFilename([c]) == if IsAlnum(c) then [c] else []
  {
    assert [c][1..] == [];
  }

  /** The id of an extraction: the upload's name without extension and special characters, `_`, a fresh uuid. */
  function ExtractionId(filename: string, uuid: string): string {
    CleanFilename(SplitExtRoot(filename)) + "_" + uuid
  }

  /** An id is letters and digits, then `_`, then the uuid. */
  lemma ExtractionIdShape(filename: string, uuid: string)
    ensures var id := ExtractionId(filename, uuid);
      && |id| > |uuid| && id[|id| - |uuid|..] == uuid && id[|id| - |uuid| - 1] == '_'
      && forall i :: 0 <= i < |id| - |uuid| - 1 ==> IsAlnum(id[i])
  {
    var c := CleanFilename(SplitExtRoot(filename));
    var id := ExtractionId(filename, uuid);
    assert forall i :: 0 <= i < |c| ==> id[i] == c[i];
  }

  /** The first `_` of an extraction id is the one after its cleaned name. */
  lemma ExtractionIdSeparator(filename: string, uuid: string)
    ensures Find(ExtractionId(filename, uuid), '_') == |CleanFilename(SplitExtRoot(filename))|
  {
    var c := CleanFilename(SplitExtRoot(filename));
    var id := ExtractionId(filename, uuid);
    assert id[|c|] == '_';
    assert forall i :: 0 <= i < |c| ==> id[i] == c[i];
  }

  /** Two extractions get the same id only with the same uuid: ids from distinct uuids never clash. */
  lemma ExtractionIdsDistinct(f1: string, u1: string, f2: string, u2: string)
    ensures ExtractionId(f1, u1) == ExtractionId(f2, u2) ==>
      u1 == u2 && CleanFilename(SplitExtRoot(f1)) == CleanFilename(SplitExtRoot(f2))
  {
    if ExtractionId(f1, u1) == ExtractionId(f2, u2) {
      var id := ExtractionId(f1, u1);
      var c1 := CleanFilename(SplitExtRoot(f1));
      var c2 := CleanFilename(SplitExtRoot(f2));
      ExtractionIdSeparator(f1, u1);
      ExtractionIdSeparator(f2, u2);
      assert c1 == id[..|c1|] && c2 == id[..|c2|];
      assert u1 == id[|c1| + 1..] && u2 == id[|c2| + 1..];
    }
  }

  /** An extraction id never starts with `/`, so its artifact lands in the output directory. */
  lemma ExtractionIdIsRelative(filename: string, uuid: string)
    ensures ExtractionId(filename, uuid)[0] != '/'
  {
    var c := CleanFilename(SplitExtRoot(filename));
    if |c| > 0 {
      assert IsAlnum(c[0]);
    }
  }

  // ---------------------------------------------------------------------
  // Errors

  /** The two `except` clauses of a handler: HTTP errors pass unchanged, anything else becomes a 500. */
  function WrapUnexpected(prefix: string, e: Error): (r: Error)
    ensures r.HttpError?
    ensures e.HttpError? ==> r == e
    ensures e.Raised? ==> r.statusCode == 500 && r.detail == prefix + e.text
  {
    match e
    case HttpError(_, _) => e
    case Raised(text) => HttpError(500, prefix + text)
  }

  /** The key the run uses: the caller's own when asked for and non-empty, otherwise the configured one. */
  function SelectApiKey(useOpenaiKey: bool, openaiApiKey: string, settings: Settings): (r: Result<string, Error>)
    ensures useOpenaiKey && openaiApiKey != "" ==> r == Ok(openaiApiKey)
    ensures !(useOpenaiKey && openaiApiKey != "") ==> r == GetApiKeyFromEnv(settings)
    ensures r.Ok? ==> r.value != ""
    ensures r.Err? ==> r == Err(Raised(ApiKeyNotSet))
  {
    if useOpenaiKey && openaiApiKey != "" then Ok(openaiApiKey) else GetApiKeyFromEnv(settings)
  }

  // ---------------------------------------------------------------------
  // POST /extract

  /** What the handler hands to the extraction once the upload is accepted. */
  datatype Launch = Launch(filePath: string, extractionId: string, apiKey: string)

  /**
   * The handler's decision before the extraction starts, from the upload's
   * content type, its size, its name and the key lookup: the checks run in
   * that order, and the first that fails picks the error.
   */
  function Admission(contentType: string, size: nat, filename: Option<string>, key: Result<string, Error>,
                     storedPath: string, extractionUuid: string): (r: Result<Launch, Error>)
    ensures contentType != PdfContentType ==> r == Err(HttpError(400, OnlyPdfDetail))
    ensures contentType == PdfContentType && size > MaxUploadSize ==> r == Err(HttpError(413, SizeLimitDetail()))
    ensures contentType == PdfContentType && size <= MaxUploadSize && filename.None? ==>
      r == Err(HttpError(500, StartPrefix + NoFilenameText))
    ensures contentType == PdfContentType && size <= MaxUploadSize && filename.Some? && key.Err? ==>
      r == Err(WrapUnexpected(StartPrefix, key.error))
    ensures r.Ok? <==> contentType == PdfContentType && size <= MaxUploadSize && filename.Some? && key.Ok?
    ensures r.Ok? ==> r.value == Launch(storedPath, ExtractionId(filename.value, extractionUuid), key.value)
    ensures r.Err? ==> r.error.HttpError?
  {
    if contentType != PdfContentType then Err(WrapUnexpected(StartPrefix, HttpError(400, OnlyPdfDetail)))
    else if size > MaxUploadSize then Err(WrapUnexpected(StartPrefix, HttpError(413, SizeLimitDetail())))
    else if filename.None? then Err(WrapUnexpected(StartPrefix, Raised(NoFilenameText)))
    else if key.Err? then Err(WrapUnexpected(StartPrefix, key.error))
    else Ok(Launch(storedPath, ExtractionId(filename.value, extractionUuid), key.value))
  }

  /** A missing key surfaces as a 500 naming the unset variable. */
  lemma MissingKeyIs500(contentType: string, size: nat, filename: Option<string>, useOpenaiKey: bool,
                        openaiApiKey: string, settings: Settings, storedPath: string, extractionUuid: string)
    requires contentType == PdfContentType && size <= MaxUploadSize && filename.Some?
    requires SelectApiKey(useOpenaiKey, openaiApiKey, settings).Err?
    ensures Admission(contentType, size, filename, SelectApiKey(useOpenaiKey, openaiApiKey, settings), storedPath,
                      extractionUuid) == Err(HttpError(500, StartPrefix + ApiKeyNotSet))
  {
  }

  /**
   * The part of the handler before the extraction starts: check the upload
   * is a PDF, store it, derive the extraction id and pick the key. A
   * failure after the upload is stored leaves the stored upload behind.
   */
  method AcceptUpload(useOpenaiKey: bool, openaiApiKey: string, upload: UploadFile, settings: Settings,
                      uploadUuid: string, extractionUuid: string, store: FileStore)
    returns (r: Result<Launch, Error>)
    modifies upload, store
    ensures r == Admission(upload.contentType, |old(upload.Remaining())|, upload.filename,
                           SelectApiKey(useOpenaiKey, openaiApiKey, settings),
                           StoredPath(upload.filename, uploadUuid), extractionUuid)
    ensures store.files == if upload.contentType == PdfContentType && |old(upload.Remaining())| <= MaxUploadSize
                           then old(store.files)[StoredPath(upload.filename, uploadUuid) := Blob(upload.data)]
                           else old(store.files)
    ensures upload.position == if upload.contentType != PdfContentType then old(upload.position)
                               else if |old(upload.Remaining())| > MaxUploadSize then 0
                               else |upload.data|
  {
    if upload.contentType != PdfContentType {
      return Err(WrapUnexpected(StartPrefix, HttpError(400, OnlyPdfDetail)));
    }
    var saved := SaveUploadFile(upload, store, uploadUuid);
    if saved.Err? {
      return Err(WrapUnexpected(StartPrefix, saved.error));
    }
    var filePath := saved.value;
    if upload.filename.None? {
      return Err(WrapUnexpected(StartPrefix, Raised(NoFilenameText)));
    }
    var extractionId := ExtractionId(upload.filename.value, extractionUuid);
    var key := SelectApiKey(useOpenaiKey, openaiApiKey, settings);
    if key.Err? {
      return Err(WrapUnexpected(StartPrefix, key.error));
    }
    return Ok(Launch(filePath, extractionId, key.value));
  }

  /**
   * `POST /extract`: accept the upload, then run the extraction to its end,
   * cleaning the upload up afterwards. The response carries no questions:
   * they are polled for. Only an accepted upload touches the registry, and
   * no earlier task changes: none of them is in the modifies clause.
   */
  method ExtractQuestions(useOpenaiKey: bool, openaiApiKey: string, upload: UploadFile, settings: Settings,
                          uploadUuid: string, extractionUuid: string, registry: Registry, store: FileStore,
                          collaborators: string -> RunInput)
    returns (r: Result<ExtractionResponse, Error>, accepted: Result<Launch, Error>)
    modifies upload, store, registry
    ensures accepted == Admission(upload.contentType, |old(upload.Remaining())|, upload.filename,
                                  SelectApiKey(useOpenaiKey, openaiApiKey, settings),
                                  StoredPath(upload.filename, uploadUuid), extractionUuid)
    ensures accepted.Err? ==>
      && r == Err(accepted.error) && registry.tasks == old(registry.tasks)
      && store.files == if upload.contentType == PdfContentType && |old(upload.Remaining())| <= MaxUploadSize
                        then old(store.files)[StoredPath(upload.filename, uploadUuid) := Blob(upload.data)]
                        else old(store.files)
    ensures accepted.Ok? ==>
      var L := accepted.value;
      var R := RunSpec(InitialState, old(store.files)[L.filePath := Blob(upload.data)], L.filePath, L.extractionId,
                       FileStem(L.filePath), true, collaborators(L.apiKey));
      && r == Ok(ExtractionResponse([], upload.filename.value, L.extractionId))
      && L.extractionId in registry.tasks && fresh(registry.tasks[L.extractionId])
      && registry.tasks == old(registry.tasks)[L.extractionId := registry.tasks[L.extractionId]]
      && registry.tasks[L.extractionId].State() == R.task && store.files == R.files
    ensures upload.position == if upload.contentType != PdfContentType then old(upload.position)
                               else if |old(upload.Remaining())| > MaxUploadSize then 0
                               else |upload.data|
  {
    accepted := AcceptUpload(useOpenaiKey, openaiApiKey, upload, settings, uploadUuid, extractionUuid, store);
    ghost var position := upload.position;
    if accepted.Err? {
      return Err(accepted.error), accepted;
    }
    var L := accepted.value;
    var id := ExtractQuestionsAsync(registry, store, L.apiKey, L.filePath, L.extractionId, true, collaborators);
    assert upload.position == position;
    r := Ok(ExtractionResponse([], upload.filename.value, id));
  }

  // ---------------------------------------------------------------------
  // GET /status/{extraction_id}

  /**
   * The status response for an id, from the registry's entry for it if there
   * is one and otherwise from the artifact a previous process left behind.
   */
  function StatusResponse(entry: Option<TaskState>, files: map<string, FileContent>, id: string)
    : (r: Result<ExtractionStatus, Error>)
    ensures r.Ok? ==> r.value.extractionId == id
    ensures r.Ok? ==> (r.value.questions.Some? <==> r.value.status == Completed)
    ensures entry.Some? ==>
      r.Ok? && r.value.status == entry.value.status
      && r.value.message == entry.value.message && r.value.progress == entry.value.progress
    ensures entry.Some? && entry.value.status == Completed ==> r.value.questions == Some(entry.value.questions)
    ensures entry.None? ==> (r.Ok? <==> OutputFilePath(id) in files && files[OutputFilePath(id)].Artifact?)
    ensures entry.None? && r.Ok? ==>
      r.value == ExtractionStatus(Completed, FallbackCompletedMessage, 1.0,
                                  Some(files[OutputFilePath(id)].questions), id)
    ensures entry.None? && OutputFilePath(id) !in files ==>
      r == Err(HttpError(404, "Extraction with ID " + id + " not found"))
    ensures entry.None? && OutputFilePath(id) in files && files[OutputFilePath(id)].Blob? ==>
      r == Err(HttpError(500, StatusPrefix + ArtifactDecodeText))
    ensures r.Err? ==> r.error.HttpError? && (r.error.statusCode == 404 || r.error.statusCode == 500)
  {
    match entry
    case Some(task) =>
      Ok(ExtractionStatus(task.status, task.message, task.progress,
                          if task.status == Completed then Some(task.questions) else None, id))
    case None =>
      var output := OutputFilePath(id);
      if output in files then
        match files[output]
        case Artifact(questions) =>
          Ok(ExtractionStatus(Completed, FallbackCompletedMessage, 1.0, Some(questions), id))
        case Blob(_) =>
          Err(WrapUnexpected(StatusPrefix, Raised(ArtifactDecodeText)))
      else
        Err(WrapUnexpected(StatusPrefix, HttpError(404, "Extraction with ID " + id + " not found")))
  }

  /** The status handler: look the id up in the registry, then answer from the entry or the artifact. */
  method GetExtractionProgress(registry: Registry, store: FileStore, id: string)
    returns (r: Result<ExtractionStatus, Error>)
    ensures var task := GetExtractionStatus(registry, id);
      r == StatusResponse(if task.Some? then Some(task.value.State()) else None, store.files, id)
  {
    var task := GetExtractionStatus(registry, id);
    var entry := if task.Some? then Some(task.value.State()) else None;
    r := StatusResponse(entry, store.files, id);
  }

  /**
   * A poll that reaches a task between its registration and its run sees it
   * in progress at 0.0 with the start message and no questions.
   */
  lemma JustRegisteredStatus(files: map<string, FileContent>, id: string)
    ensures StatusResponse(Some(InitialState), files, id)
      == Ok(ExtractionStatus(InProgress, StartedMessage, 0.0, None, id))
  {
  }

  // ---------------------------------------------------------------------
  // GET /download/{extraction_id}

  /** The artifact of an extraction as a JSON attachment, or 404 when there is none. */
  function DownloadExtractionResults(files: map<string, FileContent>, id: string): (r: Result<FileResponse, Error>)
    ensures r.Ok? <==> OutputFilePath(id) in files
    ensures r.Ok? ==> r.value == FileResponse(OutputFilePath(id), "extraction_" + id + ".json", JsonMediaType)
    ensures r.Err? ==> r == Err(HttpError(404, "Results for extraction " + id + " not found"))
  {
    var output := OutputFilePath(id);
    if output !in files then
      Err(WrapUnexpected(DownloadPrefix, HttpError(404, "Results for extraction " + id + " not found")))
    else
      Ok(FileResponse(output, "extraction_" + id + ".json", JsonMediaType))
  }

  // ---------------------------------------------------------------------
  // A submission from start to end

  /** The run a successful submission performs. */
  function SubmittedRun(files: map<string, FileContent>, filename: string, data: Bytes, uploadUuid: string,
                        extractionUuid: string, input: RunInput): RunResult
  {
    var filePath := StoredPath(Some(filename), uploadUuid);
    var id := ExtractionId(filename, extractionUuid);
    RunSpec(InitialState, files[filePath := Blob(data)], filePath, id, FileStem(filePath), true, input)
  }

  /** The stored upload is neither the artifact nor a temp image of its own run. */
  lemma SubmittedUploadIsDistinct(filename: string, uploadUuid: string, extractionUuid: string)
    requires uploadUuid == "" || uploadUuid[0] != '/'
    ensures var filePath := StoredPath(Some(filename), uploadUuid);
      && filePath != OutputFilePath(ExtractionId(filename, extractionUuid))
      && !ExtractorProperties.IsTempImage(filePath, FileStem(filePath))
  {
    var filePath := StoredPath(Some(filename), uploadUuid);
    ExtractionIdIsRelative(filename, extractionUuid);
    StoredPathIsNotAnArtifact(Some(filename), uploadUuid, ExtractionId(filename, extractionUuid));
    ExtractorProperties.NotTempImage(filePath, FileStem(filePath));
  }

  /** Whatever the run does, the stored upload is gone afterwards. */
  lemma SubmissionCleansUpItsUpload(files: map<string, FileContent>, filename: string, data: Bytes,
                                    uploadUuid: string, extractionUuid: string, input: RunInput)
    requires uploadUuid == "" || uploadUuid[0] != '/'
    ensures StoredPath(Some(filename), uploadUuid) !in SubmittedRun(files, filename, data, uploadUuid, extractionUuid, input).files
  {
    var filePath := StoredPath(Some(filename), uploadUuid);
    var id := ExtractionId(filename, extractionUuid);
    SubmittedUploadIsDistinct(filename, uploadUuid, extractionUuid);
    ExtractorProperties.RunTouchesOnlyItsFiles(InitialState, files[filePath := Blob(data)], filePath, id,
                                               FileStem(filePath), true, input, filePath);
  }

  /** A completed run whose artifact holds its questions is answered alike from the registry and from the artifact. */
  lemma CompletedRunIsServed(R: RunResult, id: string)
    requires R.task.status == Completed && R.task.progress == 1.0 && R.task.message == CompletedMessage
    requires OutputFilePath(id) in R.files && R.files[OutputFilePath(id)] == Artifact(R.task.questions)
    ensures StatusResponse(Some(R.task), R.files, id)
      == Ok(ExtractionStatus(Completed, CompletedMessage, 1.0, Some(R.task.questions), id))
    ensures StatusResponse(None, R.files, id)
      == Ok(ExtractionStatus(Completed, FallbackCompletedMessage, 1.0, Some(R.task.questions), id))
    ensures DownloadExtractionResults(R.files, id).Ok?
  {
  }

  /**
   * After a completed submission the registry's answer and the artifact's
   * answer agree on the status, the progress and the questions (only the
   * message wording differs), and the results can be downloaded: a restart
   * that loses the registry loses nothing a client can see but the message.
   */
  lemma CompletedSubmissionIsServed(files: map<string, FileContent>, filename: string, data: Bytes,
                                    uploadUuid: string, extractionUuid: string, input: RunInput)
    requires uploadUuid == "" || uploadUuid[0] != '/'
    requires SubmittedRun(files, filename, data, uploadUuid, extractionUuid, input).task.status == Completed
    ensures var R := SubmittedRun(files, filename, data, uploadUuid, extractionUuid, input);
      var id := ExtractionId(filename, extractionUuid);
      && StatusResponse(Some(R.task), R.files, id)
           == Ok(ExtractionStatus(Completed, CompletedMessage, 1.0, Some(R.task.questions), id))
      && StatusResponse(None, R.files, id)
           == Ok(ExtractionStatus(Completed, FallbackCompletedMessage, 1.0, Some(R.task.questions), id))
      && DownloadExtractionResults(R.files, id).Ok?
  {
    var filePath := StoredPath(Some(filename), uploadUuid);
    var id := ExtractionId(filename, extractionUuid);
    SubmittedUploadIsDistinct(filename, uploadUuid, extractionUuid);
    ExtractorProperties.CompletedRunWritesItsQuestions(InitialState, files[filePath := Blob(data)], filePath, id,
                                                       FileStem(filePath), true, input);
    CompletedRunIsServed(SubmittedRun(files, filename, data, uploadUuid, extractionUuid, input), id);
  }

  /** A failed run that left no artifact is reported by the registry and answered 404 everywhere else. */
  lemma FailedRunIsNotFound(R: RunResult, id: string)
    requires R.task.status == Failed && R.task.error.Some? && R.task.message == FailedPrefix + R.task.error.value
    requires OutputFilePath(id) !in R.files
    ensures StatusResponse(Some(R.task), R.files, id)
      == Ok(ExtractionStatus(Failed, FailedPrefix + R.task.error.value, R.task.progress, None, id))
    ensures StatusResponse(None, R.files, id) == Err(HttpError(404, "Extraction with ID " + id + " not found"))
    ensures DownloadExtractionResults(R.files, id) == Err(HttpError(404, "Results for extraction " + id + " not found"))
  {
  }

  /**
   * A failed submission whose id had no artifact before leaves none: after a
   * restart both the status and the download answer 404, while the registry
   * still reports the failure and its cause.
   */
  lemma FailedSubmissionLeavesNoResults(files: map<string, FileContent>, filename: string, data: Bytes,
                                        uploadUuid: string, extractionUuid: string, input: RunInput)
    requires uploadUuid == "" || uploadUuid[0] != '/'
    requires OutputFilePath(ExtractionId(filename, extractionUuid)) !in files
    requires SubmittedRun(files, filename, data, uploadUuid, extractionUuid, input).task.status == Failed
    ensures var R := SubmittedRun(files, filename, data, uploadUuid, extractionUuid, input);
      var id := ExtractionId(filename, extractionUuid);
      && R.task.error.Some?
      && StatusResponse(Some(R.task), R.files, id)
           == Ok(ExtractionStatus(Failed, FailedPrefix + R.task.error.value, R.task.progress, None, id))
      && StatusResponse(None, R.files, id) == Err(HttpError(404, "Extraction with ID " + id + " not found"))
      && DownloadExtractionResults(R.files, id) == Err(HttpError(404, "Results for extraction " + id + " not found"))
  {
    var filePath := StoredPath(Some(filename), uploadUuid);
    var id := ExtractionId(filename, extractionUuid);
    SubmittedUploadIsDistinct(filename, uploadUuid, extractionUuid);
    ExtractorProperties.FailedRunStopsAtItsCause(InitialState, files[filePath := Blob(data)], filePath, id,
                                                 FileStem(filePath), true, input);
    ExtractorProperties.FailedRunWritesNoArtifact(InitialState, files[filePath := Blob(data)], filePath, id,
                                                  FileStem(filePath), true, input);
    FailedRunIsNotFound(SubmittedRun(files, filename, data, uploadUuid, extractionUuid, input), id);
  }
}
