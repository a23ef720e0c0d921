/**
 * The extraction task lifecycle: the task record, the process-wide registry
 * of tasks, registration, and the drive loop that takes a task from
 * "in_progress" to "completed" or "failed".
 *
 * The collaborators (the prompts file, the PDF rasteriser, the temp-image
 * round trip and the model call) are inputs: `RunInput` says what each of
 * them yields or raises for this run.
 */
module Extractor {
  import opened Common
  import opened Paths
  import opened Models
  import opened FileHandler

  /** The fields of an ExtractionTask at one moment, as a status poll sees them. */
  datatype TaskState = TaskState(
    status: Status,
    message: string,
    progress: real,
    questions: seq<Question>,
    error: Option<string>)

  const StartedMessage := "Extraction started"
  const CompletedMessage := "Extraction completed successfully"
  const FailedPrefix := "Extraction failed: "

  /** The state of a task when it is created. */
  const InitialState := TaskState(InProgress, StartedMessage, 0.0, [], None)

  /** The record tracking one extraction; the drive loop updates its fields in place. */
  class ExtractionTask {
    const extractionId: string
    const fileName: string
    var status: Status
    var message: string
    var progress: real
    var questions: seq<Question>
    var error: Option<string>

    constructor (extractionId: string, fileName: string)
      ensures this.extractionId == extractionId && this.fileName == fileName
      ensures State() == InitialState
    {
      this.extractionId := extractionId;
      this.fileName := fileName;
      status := InProgress;
      message := StartedMessage;
      progress := 0.0;
      questions := [];
      error := None;
    }

    function State(): TaskState
      reads this
    {
      TaskState(status, message, progress, questions, error)
    }
  }

  /** The process-wide map `extraction_tasks` from extraction id to task. */
  class Registry {
    var tasks: map<string, ExtractionTask>

    constructor ()
      ensures tasks == map[]
    {
      tasks := map[];
    }
  }

  /** `get_extraction_status`: the registered task, or none. */
  function GetExtractionStatus(registry: Registry, extractionId: string): (r: Option<ExtractionTask>)
    reads registry
    ensures r.Some? <==> extractionId in registry.tasks
    ensures r.Some? ==> r.value == registry.tasks[extractionId]
  {
    if extractionId in registry.tasks then Some(registry.tasks[extractionId]) else None
  }

  // ---------------------------------------------------------------------
  // Mapping the model's questions to stored questions

  /** The record built for one returned question: the four choices become one ordered list. */
  function ToQuestion(q: RawQuestion): Question {
    Question(q.id, q.question, q.passage, q.assertion, q.reason, [q.a, q.b, q.c, q.d],
             Solution(q.solution), q.finalAnswer, q.topic, q.subTopic, q.questionType,
             q.allocatedMarks, q.referenceExam)
  }

  /** The returned question a stored record describes, when it has exactly four choices. */
  function FromQuestion(q: Question): Option<RawQuestion> {
    if |q.choices| != 4 then None
    else Some(RawQuestion(q.id, q.question, q.assertion, q.reason, q.passage,
                          q.choices[0], q.choices[1], q.choices[2], q.choices[3],
                          q.finalAnswer, q.solution.steps, q.topic, q.subTopic, q.questionType,
                          q.allocatedMarks, q.referenceExam))
  }

  /**
   * The mapping keeps every field: the choices are [a, b, c, d] in that order,
   * the solution steps keep their order and content, the rest is copied.
   */
  lemma ToQuestionRoundTrip(q: RawQuestion)
    ensures ToQuestion(q).choices == [q.a, q.b, q.c, q.d]
    ensures ToQuestion(q).solution.steps == q.solution
    ensures FromQuestion(ToQuestion(q)) == Some(q)
  {
  }

  /** The records built for one response's questions. */
  function ToQuestions(qs: seq<RawQuestion>): (r: seq<Question>)
    ensures |r| == |qs|
  {
    if qs == [] then [] else ToQuestions(qs[..|qs| - 1]) + [ToQuestion(qs[|qs| - 1])]
  }

  /** One record per returned question, in response order. */
  lemma {:induction false} ToQuestionsAt(qs: seq<RawQuestion>, i: nat)
    requires i < |qs|
    ensures ToQuestions(qs)[i] == ToQuestion(qs[i])
  {
    if i < |qs| - 1 {
      assert qs[..|qs| - 1][i] == qs[i];
      ToQuestionsAt(qs[..|qs| - 1], i);
    }
  }

  // ---------------------------------------------------------------------
  // The collaborators of one run

  /** The prompts file: groups of named prompts. */
  type Prompts = map<string, map<string, string>>

  /** What happened to one page. */
  datatype PageOutcome =
    | SaveFailed(cause: string)                                // `page.save` raised
    | LoadFailed(image: Bytes, cause: string)                 // saved; reading it back raised
    | CallFailed(image: Bytes, cause: string)                 // saved and read; the model call raised
    | Answered(image: Bytes, questions: seq<RawQuestion>)     // the model returned these questions
    | Refused(image: Bytes)                                   // the model answered with no parsed object

  /** What the prompts file loads to and what the rasteriser yields, or the cause they raise. */
  datatype RunInput = RunInput(prompts: Result<Prompts, string>, pages: Result<seq<PageOutcome>, string>)

  const PromptGroup := "extract_questions"
  const PromptName := "cuet-ug"

  /** `prompts["extract_questions"]["cuet-ug"]`, or the text of the KeyError it raises. */
  function LookupPrompt(prompts: Prompts): (r: Result<string, string>)
    ensures r.Ok? <==> PromptGroup in prompts && PromptName in prompts[PromptGroup]
    ensures r.Ok? ==> r.value == prompts[PromptGroup][PromptName]
  {
    if PromptGroup !in prompts then Err("'" + PromptGroup + "'")
    else if PromptName !in prompts[PromptGroup] then Err("'" + PromptName + "'")
    else Ok(prompts[PromptGroup][PromptName])
  }

  /**
   * Why processing a page aborts the run, if it does. The prompt is looked up
   * after the image is read back and before the model is called.
   */
  function PageFailure(page: PageOutcome, prompt: Result<string, string>): (r: Option<string>)
    ensures r.None? <==> page.Answered? && prompt.Ok?
  {
    match page
    case SaveFailed(cause) => Some(cause)
    case LoadFailed(_, cause) => Some(cause)
    case CallFailed(_, cause) => if prompt.Err? then Some(prompt.error) else Some(cause)
    case Answered(_, _) => if prompt.Err? then Some(prompt.error) else None
    case Refused(_) => if prompt.Err? then Some(prompt.error) else Some(RefusedText)
  }

  /** The text of the AttributeError raised when the page's questions are read from an absent parsed object. */
  const RefusedText := "'NoneType' object has no attribute 'questions'"

  /** The questions a page contributes when it succeeds. */
  function PageQuestions(page: PageOutcome): seq<Question> {
    if page.Answered? then ToQuestions(page.questions) else []
  }

  /** The first page, from `from` on, whose processing fails; |pages| when none does. */
  function FirstFailure(pages: seq<PageOutcome>, prompt: Result<string, string>, from: nat): (k: nat)
    requires from <= |pages|
    ensures from <= k <= |pages|
    ensures forall j :: from <= j < k ==> PageFailure(pages[j], prompt).None?
    ensures k < |pages| ==> PageFailure(pages[k], prompt).Some?
    decreases |pages| - from
  {
    if from == |pages| then from
    else if PageFailure(pages[from], prompt).Some? then from
    else FirstFailure(pages, prompt, from + 1)
  }

  /** A page index with every page from `from` on before it succeeding, and itself failing (or past the end), is the first failure. */
  lemma {:induction false} FirstFailureIs(pages: seq<PageOutcome>, prompt: Result<string, string>, from: nat, i: nat)
    requires from <= i <= |pages|
    requires forall j :: from <= j < i ==> PageFailure(pages[j], prompt).None?
    requires i < |pages| ==> PageFailure(pages[i], prompt).Some?
    ensures FirstFailure(pages, prompt, from) == i
    decreases i - from
  {
    if from < i {
      assert PageFailure(pages[from], prompt).None?;
      FirstFailureIs(pages, prompt, from + 1, i);
    }
  }

  /** The questions of the first k pages, in page order and then in response order. */
  function Collected(pages: seq<PageOutcome>, k: nat): seq<Question>
    requires k <= |pages|
  {
    if k == 0 then [] else Collected(pages, k - 1) + PageQuestions(pages[k - 1])
  }

  /** Appending page i's questions to what pages 0 .. i-1 collected collects pages 0 .. i. */
  lemma CollectedStep(before: seq<Question>, pages: seq<PageOutcome>, i: nat)
    requires i < |pages|
    ensures before + Collected(pages, i) + PageQuestions(pages[i]) == before + Collected(pages, i + 1)
  {
    var c, d := Collected(pages, i), PageQuestions(pages[i]);
    assert Collected(pages, i + 1) == c + d;
    assert before + c + d == before + (c + d);
  }

  /** The temp image of page i: "<file name>_<i>.png", relative to the working directory. */
  function TempImagePath(fileName: string, i: nat): string {
    fileName + "_" + NatToString(i) + ".png"
  }

  /** A temp image is named by the file name, `_`, at least one digit, and ".png". */
  lemma TempImagePathShape(fileName: string, i: nat)
    ensures var p := TempImagePath(fileName, i);
      && |p| > |fileName| + 5 && p[..|fileName|] == fileName && p[|fileName|] == '_'
      && p[|p| - 4..] == ".png"
  {
    var p := TempImagePath(fileName, i);
    assert p == (fileName + "_" + NatToString(i)) + ".png";
  }

  /** A temp image path has no separator when the file name has none. */
  lemma TempImagePathIsRelative(fileName: string, i: nat)
    requires '/' !in fileName
    ensures '/' !in TempImagePath(fileName, i)
  {
    var digits := NatToString(i);
    assert forall j :: 0 <= j < |digits| ==> digits[j] != '/';
  }

  /** The file system after the temp images of pages 0 .. k-1 were written and removed again. */
  function FilesAfterPages(files: map<string, FileContent>, fileName: string, k: nat): map<string, FileContent> {
    if k == 0 then files else FilesAfterPages(files, fileName, k - 1) - {TempImagePath(fileName, k - 1)}
  }

  /**
   * A failing page leaves its temp image behind when it got as far as saving
   * it, unless the model's answer was read after the image was removed.
   */
  function FailedPageFiles(files: map<string, FileContent>, page: PageOutcome, prompt: Result<string, string>,
                           imagePath: string): map<string, FileContent> {
    if page.SaveFailed? then files
    else if page.Refused? && prompt.Ok? then files - {imagePath}
    else files[imagePath := Blob(page.image)]
  }

  /** `os.path.basename(file_path).split('.')[0]`: the name temp images are derived from. */
  function FileStem(filePath: string): (stem: string)
    ensures '/' !in stem
  {
    var stem := BeforeFirstDot(Basename(filePath));
    assert forall j :: 0 <= j < |stem| ==> stem[j] == Basename(filePath)[j];
    stem
  }

  /** The message shown while page i (counting from 0) of n is processed. */
  function PageMessage(i: nat, n: nat): string {
    "Processing page " + NatToString(i + 1) + " of " + NatToString(n)
  }

  /** The progress shown while page i of n is processed. */
  function PageProgress(i: nat, n: nat): real
    requires i < n
  {
    i as real / n as real
  }

  /** A value of progress and message, as set at the start of a page. */
  datatype Snapshot = Snapshot(progress: real, message: string)

  /** The snapshots set at the start of the first m of n pages. */
  function PageSnapshots(n: nat, m: nat): seq<Snapshot>
    requires m <= n
  {
    if m == 0 then [] else PageSnapshots(n, m - 1) + [Snapshot(PageProgress(m - 1, n), PageMessage(m - 1, n))]
  }

  /** The terminal state on success. */
  function Complete(st: TaskState, qs: seq<Question>): TaskState {
    st.(status := Completed, progress := 1.0, message := CompletedMessage, questions := st.questions + qs)
  }

  /** The terminal state on failure: progress and questions keep their last values. */
  function Fail(st: TaskState, cause: string): TaskState {
    st.(status := Failed, message := FailedPrefix + cause, error := Some(cause))
  }

  /** The end of a run: the task's state, the file system, and the page snapshots it went through. */
  datatype RunResult = RunResult(task: TaskState, files: map<string, FileContent>, observed: seq<Snapshot>)

  /** The end of the page loop and what follows it, for the pages the rasteriser produced. */
  function PagesOutcome(st: TaskState, files: map<string, FileContent>, extractionId: string, fileName: string,
                        pages: seq<PageOutcome>, prompt: Result<string, string>): RunResult
  {
    var k := FirstFailure(pages, prompt, 0);
    var qs := Collected(pages, k);
    var done := FilesAfterPages(files, fileName, k);
    if k == |pages| then
      RunResult(Complete(st, qs), done[OutputFilePath(extractionId) := Artifact(qs)], PageSnapshots(|pages|, k))
    else
      RunResult(Fail(st.(progress := PageProgress(k, |pages|), questions := st.questions + qs),
                     PageFailure(pages[k], prompt).value),
                FailedPageFiles(done, pages[k], prompt, TempImagePath(fileName, k)),
                PageSnapshots(|pages|, k + 1))
  }

  /** The end of the `try`/`except` of a run, before the input file is cleaned up. */
  function RunOutcome(st: TaskState, files: map<string, FileContent>, extractionId: string, fileName: string,
                      input: RunInput): RunResult
  {
    if input.prompts.Err? then RunResult(Fail(st, input.prompts.error), files, [])
    else if input.pages.Err? then RunResult(Fail(st, input.pages.error), files, [])
    else PagesOutcome(st, files, extractionId, fileName, input.pages.value, LookupPrompt(input.prompts.value))
  }

  /** What one run of the drive loop does, from the task's state and the file system it starts from. */
  function RunSpec(st: TaskState, files: map<string, FileContent>, filePath: string, extractionId: string,
                   fileName: string, cleanup: bool, input: RunInput): RunResult
  {
    var outcome := RunOutcome(st, files, extractionId, fileName, input);
    outcome.(files := if cleanup then outcome.files - {filePath} else outcome.files)
  }

  // ---------------------------------------------------------------------
  // The drive loop and registration

  /**
   * One iteration of the page loop of `_run_extraction`: show the page's
   * progress and message, save the page image, read it back, look the prompt
   * up, call the model, remove the image and append the page's questions.
   */
  method ProcessPage(task: ExtractionTask, store: FileStore, pages: seq<PageOutcome>, i: nat,
                     prompt: Result<string, string>, fileName: string, extracted: seq<Question>)
    returns (failure: Option<string>, extended: seq<Question>)
    requires i < |pages|
    modifies task, store
    ensures task.progress == PageProgress(i, |pages|) && task.message == PageMessage(i, |pages|)
    ensures task.status == old(task.status) && task.error == old(task.error)
    ensures failure == PageFailure(pages[i], prompt)
    ensures failure.None? ==>
      && store.files == old(store.files) - {TempImagePath(fileName, i)}
      && extended == extracted + PageQuestions(pages[i])
      && task.questions == old(task.questions) + PageQuestions(pages[i])
    ensures failure.Some? ==>
      && store.files == FailedPageFiles(old(store.files), pages[i], prompt, TempImagePath(fileName, i))
      && extended == extracted
      && task.questions == old(task.questions)
  {
    var n := |pages|;
    task.progress := i as real / n as real;
    task.message := PageMessage(i, n);
    extended := extracted;
    var imagePath := TempImagePath(fileName, i);
    match pages[i]
    case SaveFailed(cause) =>
      failure := Some(cause);
    case LoadFailed(image, cause) =>
      store.Write(imagePath, Blob(image));
      failure := Some(cause);
    case CallFailed(image, cause) =>
      store.Write(imagePath, Blob(image));
      failure := if prompt.Err? then Some(prompt.error) else Some(cause);
    case Answered(image, raws) =>
      store.Write(imagePath, Blob(image));
      if prompt.Err? {
        failure := Some(prompt.error);
      } else {
        store.Remove(imagePath);
        assert store.files == old(store.files) - {imagePath};
        extended := AppendQuestions(task, raws, extracted);
        failure := None;
      }
    case Refused(image) =>
      store.Write(imagePath, Blob(image));
      if prompt.Err? {
        failure := Some(prompt.error);
      } else {
        store.Remove(imagePath);
        assert store.files == old(store.files) - {imagePath};
        // reading `.questions` of the absent parsed object raises
        failure := Some(RefusedText);
      }
  }

  /** The inner loop of a page: one question record per returned question, appended in response order. */
  method AppendQuestions(task: ExtractionTask, raws: seq<RawQuestion>, extracted: seq<Question>)
    returns (extended: seq<Question>)
    modifies task
    ensures extended == extracted + ToQuestions(raws)
    ensures task.questions == old(task.questions) + ToQuestions(raws)
    ensures task.progress == old(task.progress) && task.message == old(task.message)
    ensures task.status == old(task.status) && task.error == old(task.error)
  {
    extended := extracted;
    for j := 0 to |raws|
      invariant extended == extracted + ToQuestions(raws[..j])
      invariant task.questions == old(task.questions) + ToQuestions(raws[..j])
      invariant task.progress == old(task.progress) && task.message == old(task.message)
      invariant task.status == old(task.status) && task.error == old(task.error)
    {
      assert raws[..j + 1][..j] == raws[..j];
      var q := ToQuestion(raws[j]);
      extended := extended + [q];
      task.questions := task.questions + [q];
    }
    assert raws[..|raws|] == raws;
  }

  /**
   * The page loop of `_run_extraction`: pages in document order until the
   * first one that fails. `observed` lists the progress and message set at
   * the start of each page.
   */
  method ProcessPages(task: ExtractionTask, store: FileStore, pages: seq<PageOutcome>,
                      prompt: Result<string, string>, fileName: string)
    returns (failure: Option<string>, extracted: seq<Question>, ghost observed: seq<Snapshot>, ghost stop: nat)
    modifies task, store
    ensures stop == FirstFailure(pages, prompt, 0)
    ensures extracted == Collected(pages, stop)
    ensures task.questions == old(task.questions) + Collected(pages, stop)
    ensures task.status == old(task.status) && task.error == old(task.error)
    ensures failure.Some? ==>
      && stop < |pages| && failure == PageFailure(pages[stop], prompt)
      && task.progress == PageProgress(stop, |pages|) && task.message == PageMessage(stop, |pages|)
      && store.files == FailedPageFiles(FilesAfterPages(old(store.files), fileName, stop), pages[stop], prompt, TempImagePath(fileName, stop))
      && observed == PageSnapshots(|pages|, stop + 1)
    ensures failure.None? ==>
      && stop == |pages|
      && (stop > 0 ==> task.progress == PageProgress(stop - 1, stop) && task.message == PageMessage(stop - 1, stop))
      && (stop == 0 ==> task.progress == old(task.progress) && task.message == old(task.message))
      && store.files == FilesAfterPages(old(store.files), fileName, stop)
      && observed == PageSnapshots(stop, stop)
  {
    var n := |pages|;
    failure := None;
    extracted := [];
    observed := [];
    var i := 0;
    while i < n
      invariant 0 <= i <= n
      invariant FirstFailure(pages, prompt, i) == FirstFailure(pages, prompt, 0)
      invariant failure.None?
      invariant extracted == Collected(pages, i)
      invariant task.questions == old(task.questions) + Collected(pages, i)
      invariant task.status == old(task.status) && task.error == old(task.error)
      invariant i > 0 ==> task.progress == PageProgress(i - 1, n) && task.message == PageMessage(i - 1, n)
      invariant i == 0 ==> task.progress == old(task.progress) && task.message == old(task.message)
      invariant store.files == FilesAfterPages(old(store.files), fileName, i)
      invariant observed == PageSnapshots(n, i)
    {
      failure, extracted := ProcessPage(task, store, pages, i, prompt, fileName, extracted);
      observed := observed + [Snapshot(task.progress, task.message)];
      assert observed == PageSnapshots(n, i + 1);
      if failure.Some? {
        // the `except` clause takes over: the remaining pages are skipped
        stop := i;
        break;
      }
      CollectedStep(old(task.questions), pages, i);
      i := i + 1;
    }
    if failure.None? {
      stop := n;
    }
  }

  /**
   * `_run_extraction`. The client is built from `apiKey`, so what the
   * collaborators yield is `collaborators(apiKey)`. Every exception of the
   * body reaches the one `except`, which records the failure; cleanup runs
   * on both paths.
   */
  method RunExtraction(apiKey: string, filePath: string, extractionId: string, fileName: string,
                       task: ExtractionTask, cleanup: bool, store: FileStore,
                       collaborators: string -> RunInput)
    returns (ghost observed: seq<Snapshot>)
    modifies task, store
    ensures var R := RunSpec(old(task.State()), old(store.files), filePath, extractionId, fileName,
                             cleanup, collaborators(apiKey));
      task.State() == R.task && store.files == R.files && observed == R.observed
  {
    var input := collaborators(apiKey);
    var outputFile := OutputFilePath(extractionId);
    observed := [];
    var failure: Option<string> := None;

    task.message := "Loading prompts";
    if input.prompts.Err? {
      failure := Some(input.prompts.error);
    } else {
      task.message := "Initializing LLM";
      task.message := "Loading PDF";
      if input.pages.Err? {
        failure := Some(input.pages.error);
      } else {
        var prompt := LookupPrompt(input.prompts.value);
        var extracted;
        ghost var stop;
        failure, extracted, observed, stop := ProcessPages(task, store, input.pages.value, prompt, fileName);
        if failure.None? {
          store.Write(outputFile, Artifact(extracted));
          task.status := Completed;
          task.progress := 1.0;
          task.message := CompletedMessage;
        }
      }
    }
    if failure.Some? {
      task.status := Failed;
      task.message := FailedPrefix + failure.value;
      task.error := Some(failure.value);
    }
    if cleanup {
      CleanUpFiles(store, filePath);
    }
  }

  /**
   * `extract_questions_async`: registers a fresh task under the id, replacing
   * any earlier entry with that id, then runs it; the id is returned. No
   * earlier task changes: none of them is in the modifies clause.
   */
  method ExtractQuestionsAsync(registry: Registry, store: FileStore, apiKey: string, filePath: string,
                               extractionId: string, cleanup: bool, collaborators: string -> RunInput)
    returns (id: string)
    modifies registry, store
    ensures id == extractionId
    ensures extractionId in registry.tasks && fresh(registry.tasks[extractionId])
    ensures registry.tasks == old(registry.tasks)[extractionId := registry.tasks[extractionId]]
    ensures registry.tasks[extractionId].extractionId == extractionId
    ensures registry.tasks[extractionId].fileName == FileStem(filePath)
    ensures var R := RunSpec(InitialState, old(store.files), filePath, extractionId, FileStem(filePath),
                             cleanup, collaborators(apiKey));
      registry.tasks[extractionId].State() == R.task && store.files == R.files
  {
    var fileName := FileStem(filePath);
    var task := new ExtractionTask(extractionId, fileName);
    registry.tasks := registry.tasks[extractionId := task];
    ghost var _ := RunExtraction(apiKey, filePath, extractionId, fileName, task, cleanup, store, collaborators);
    id := extractionId;
  }
}

module ExtractorProperties {
  import opened Common
  import opened Models
  import opened FileHandler
  import opened Extractor

  // ---------------------------------------------------------------------
  // Questions are gathered in page order, then in response order

  /** The questions gathered from fewer pages are a prefix of those gathered from more: nothing is ever dropped. */
  lemma {:induction false} CollectedPrefix(pages: seq<PageOutcome>, i: nat, k: nat)
    requires i <= k <= |pages|
    ensures Collected(pages, i) <= Collected(pages, k)
    decreases k
  {
    if i < k {
      CollectedPrefix(pages, i, k - 1);
      var c := Collected(pages, k - 1);
      var d := PageQuestions(pages[k - 1]);
      assert Collected(pages, k) == c + d;
      assert forall j :: 0 <= j < |Collected(pages, i)| ==> (c + d)[j] == c[j];
    }
  }

  /**
   * The j-th question the model returned for page i is the question at
   * position |Collected(pages, i)| + j of everything gathered from the first
   * k > i pages.
   */
  lemma CollectedInPageOrder(pages: seq<PageOutcome>, k: nat, i: nat, j: nat)
    requires i < k <= |pages|
    requires pages[i].Answered? && j < |pages[i].questions|
    ensures |Collected(pages, i)| + j < |Collected(pages, k)|
    ensures Collected(pages, k)[|Collected(pages, i)| + j] == ToQuestion(pages[i].questions[j])
  {
    ToQuestionsAt(pages[i].questions, j);
    CollectedPrefix(pages, i + 1, k);
    IndexThroughPrefix(Collected(pages, i), ToQuestions(pages[i].questions), Collected(pages, k), j);
  }

  /** Only answered pages contribute, each with as many questions as the model returned. */
  lemma {:induction false} CollectedLength(pages: seq<PageOutcome>, k: nat)
    requires k <= |pages|
    ensures |Collected(pages, k)| == CountAnswered(pages, k)
    decreases k
  {
    if k > 0 {
      CollectedLength(pages, k - 1);
    }
  }

  /** The number of questions the first k pages returned. */
  function CountAnswered(pages: seq<PageOutcome>, k: nat): nat
    requires k <= |pages|
  {
    if k == 0 then 0
    else CountAnswered(pages, k - 1) + (if pages[k - 1].Answered? then |pages[k - 1].questions| else 0)
  }

  // ---------------------------------------------------------------------
  // Progress

  /** The snapshot set at the start of page a is progress a/n and "Processing page a+1 of n". */
  lemma {:induction false} PageSnapshotsAt(n: nat, m: nat, a: nat)
    requires a < m <= n
    ensures |PageSnapshots(n, m)| == m
    ensures PageSnapshots(n, m)[a] == Snapshot(PageProgress(a, n), PageMessage(a, n))
    decreases m
  {
    if a < m - 1 {
      PageSnapshotsAt(n, m - 1, a);
    }
    PageSnapshotsLength(n, m);
  }

  lemma {:induction false} PageSnapshotsLength(n: nat, m: nat)
    requires m <= n
    ensures |PageSnapshots(n, m)| == m
    decreases m
  {
    if m > 0 {
      PageSnapshotsLength(n, m - 1);
    }
  }

  /** Page progress grows strictly with the page and stays in [0, 1). */
  lemma PageProgressBounds(a: nat, b: nat, n: nat)
    requires a < b < n
    ensures 0.0 <= PageProgress(a, n) < PageProgress(b, n) < 1.0
  {
    var N := n as real;
    assert PageProgress(a, n) * N == a as real;
    assert PageProgress(b, n) * N == b as real;
    assert (n - 1) as real / N < 1.0;
  }

  lemma PageProgressBelowOne(a: nat, n: nat)
    requires a < n
    ensures 0.0 <= PageProgress(a, n) < 1.0
  {
    var N := n as real;
    assert PageProgress(a, n) * N == a as real;
  }

  /** The page snapshots of a run rise strictly page by page and stay in [0, 1). */
  lemma SnapshotsRise(n: nat, m: nat)
    requires m <= n
    ensures var S := PageSnapshots(n, m);
      && |S| == m
      && (forall a, b :: 0 <= a < b < m ==> S[a].progress < S[b].progress)
      && (forall a :: 0 <= a < m ==> 0.0 <= S[a].progress < 1.0)
  {
    var S := PageSnapshots(n, m);
    PageSnapshotsLength(n, m);
    forall a, b | 0 <= a < b < m
      ensures S[a].progress < S[b].progress
    {
      PageSnapshotsAt(n, m, a);
      PageSnapshotsAt(n, m, b);
      PageProgressBounds(a, b, n);
    }
    forall a | 0 <= a < m
      ensures 0.0 <= S[a].progress < 1.0
    {
      PageSnapshotsAt(n, m, a);
      PageProgressBelowOne(a, n);
    }
  }

  /** No page snapshot exceeds a progress that is at least the last page's. */
  lemma SnapshotsAtMost(n: nat, m: nat, p: real)
    requires 0 < m <= n && PageProgress(m - 1, n) <= p
    ensures |PageSnapshots(n, m)| == m
    ensures forall a :: 0 <= a < m ==> PageSnapshots(n, m)[a].progress <= p
  {
    PageSnapshotsLength(n, m);
    forall a | 0 <= a < m
      ensures PageSnapshots(n, m)[a].progress <= p
    {
      PageSnapshotsAt(n, m, a);
      if a < m - 1 {
        PageProgressBounds(a, m - 1, n);
      }
    }
  }

  /**
   * Progress never goes backwards: each page's snapshot is higher than the
   * previous one, all of them are below 1.0, and the final progress is at
   * least the last one and in [0, 1]. It is 1.0 exactly when the run completes.
   */
  ghost predicate ProgressRises(observed: seq<Snapshot>, task: TaskState) {
    && (forall a, b :: 0 <= a < b < |observed| ==> observed[a].progress < observed[b].progress)
    && (forall a :: 0 <= a < |observed| ==> 0.0 <= observed[a].progress < 1.0)
    && (forall a :: 0 <= a < |observed| ==> observed[a].progress <= task.progress)
    && 0.0 <= task.progress <= 1.0
    && (task.progress == 1.0 <==> task.status == Completed)
  }

  /** The page loop's progress rises, from a task at 0.0. */
  lemma PagesProgressRises(st: TaskState, files: map<string, FileContent>, extractionId: string, fileName: string,
                           pages: seq<PageOutcome>, prompt: Result<string, string>)
    requires st.progress == 0.0
    ensures var O := PagesOutcome(st, files, extractionId, fileName, pages, prompt);
      ProgressRises(O.observed, O.task)
  {
    var n := |pages|;
    var k := FirstFailure(pages, prompt, 0);
    var O := PagesOutcome(st, files, extractionId, fileName, pages, prompt);
    if k == n {
      assert O.observed == PageSnapshots(n, n) && O.task.progress == 1.0 && O.task.status == Completed;
      SnapshotsRise(n, n);
      if n > 0 {
        PageProgressBelowOne(n - 1, n);
        SnapshotsAtMost(n, n, 1.0);
      }
    } else {
      assert O.observed == PageSnapshots(n, k + 1) && O.task.progress == PageProgress(k, n);
      assert O.task.status == Failed;
      SnapshotsRise(n, k + 1);
      PageProgressBelowOne(k, n);
      SnapshotsAtMost(n, k + 1, PageProgress(k, n));
    }
  }

  /** Starting from a fresh task's 0.0, every run's progress rises. */
  lemma RunProgressIsMonotone(st: TaskState, files: map<string, FileContent>, filePath: string,
                              extractionId: string, fileName: string, cleanup: bool, input: RunInput)
    requires st.progress == 0.0
    ensures var R := RunSpec(st, files, filePath, extractionId, fileName, cleanup, input);
      ProgressRises(R.observed, R.task)
  {
    if input.prompts.Ok? && input.pages.Ok? {
      PagesProgressRises(st, files, extractionId, fileName, input.pages.value, LookupPrompt(input.prompts.value));
    }
  }

  // ---------------------------------------------------------------------
  // Outcome of a run

  /** A run always ends in a terminal status. */
  lemma RunEndsTerminal(st: TaskState, files: map<string, FileContent>, filePath: string,
                        extractionId: string, fileName: string, cleanup: bool, input: RunInput)
    ensures RunSpec(st, files, filePath, extractionId, fileName, cleanup, input).task.status.IsTerminal()
  {
  }

  /** A run completes exactly when the prompts load, the document rasterises and every page succeeds. */
  lemma RunCompletesIffEveryPageSucceeds(st: TaskState, files: map<string, FileContent>, filePath: string,
                                         extractionId: string, fileName: string, cleanup: bool, input: RunInput)
    ensures RunSpec(st, files, filePath, extractionId, fileName, cleanup, input).task.status == Completed
      <==> && input.prompts.Ok? && input.pages.Ok?
           && forall i :: 0 <= i < |input.pages.value| ==>
                PageFailure(input.pages.value[i], LookupPrompt(input.prompts.value)).None?
  {
    if input.prompts.Ok? && input.pages.Ok? {
      var pages := input.pages.value;
      var prompt := LookupPrompt(input.prompts.value);
      var k := FirstFailure(pages, prompt, 0);
      if k < |pages| {
        assert PageFailure(pages[k], prompt).Some?;
      }
    }
  }

  /**
   * A completed run shows progress 1.0 and the success message, and both the
   * task's questions and the artifact written for it hold every page's
   * questions in page order; for a fresh task the two are equal.
   */
  lemma CompletedRunWritesItsQuestions(st: TaskState, files: map<string, FileContent>, filePath: string,
                                       extractionId: string, fileName: string, cleanup: bool, input: RunInput)
    requires !(cleanup && filePath == OutputFilePath(extractionId))
    requires RunSpec(st, files, filePath, extractionId, fileName, cleanup, input).task.status == Completed
    ensures input.prompts.Ok? && input.pages.Ok?
    ensures var R := RunSpec(st, files, filePath, extractionId, fileName, cleanup, input);
      var qs := Collected(input.pages.value, |input.pages.value|);
      && R.task.progress == 1.0 && R.task.message == CompletedMessage && R.task.error == st.error
      && R.task.questions == st.questions + qs
      && OutputFilePath(extractionId) in R.files
      && R.files[OutputFilePath(extractionId)] == Artifact(qs)
      && (st.questions == [] ==> R.files[OutputFilePath(extractionId)] == Artifact(R.task.questions))
  {
    var O := RunOutcome(st, files, extractionId, fileName, input);
    CompletedOutcome(st, files, extractionId, fileName, input);
    var out := OutputFilePath(extractionId);
    var qs := Collected(input.pages.value, |input.pages.value|);
    assert out in O.files && O.files[out] == Artifact(qs);
    if st.questions == [] {
      assert st.questions + qs == qs;
    }
  }

  /** Before clean-up, a completed run holds the complete state and has written its artifact. */
  lemma CompletedOutcome(st: TaskState, files: map<string, FileContent>, extractionId: string, fileName: string,
                         input: RunInput)
    requires RunOutcome(st, files, extractionId, fileName, input).task.status == Completed
    ensures input.prompts.Ok? && input.pages.Ok?
    ensures var qs := Collected(input.pages.value, |input.pages.value|);
      var O := RunOutcome(st, files, extractionId, fileName, input);
      && O.task == Complete(st, qs)
      && OutputFilePath(extractionId) in O.files && O.files[OutputFilePath(extractionId)] == Artifact(qs)
  {
  }

  /** A document with no pages completes with no questions, whatever the prompts file holds, and no page is shown. */
  lemma ZeroPageDocumentCompletes(st: TaskState, files: map<string, FileContent>, filePath: string,
                                  extractionId: string, fileName: string, cleanup: bool, prompts: Prompts)
    ensures var R := RunSpec(st, files, filePath, extractionId, fileName, cleanup, RunInput(Ok(prompts), Ok([])));
      && R.task.status == Completed && R.task.questions == st.questions && R.observed == []
      && (!(cleanup && filePath == OutputFilePath(extractionId)) ==> R.files[OutputFilePath(extractionId)] == Artifact([]))
  {
  }

  /**
   * A failed run records its cause as the error and in the message. When a
   * page fails, the pages after it are not processed: progress stays at that
   * page's value, and the questions of the earlier pages stay in memory.
   */
  lemma FailedRunStopsAtItsCause(st: TaskState, files: map<string, FileContent>, filePath: string,
                                 extractionId: string, fileName: string, cleanup: bool, input: RunInput)
    requires RunSpec(st, files, filePath, extractionId, fileName, cleanup, input).task.status == Failed
    ensures var R := RunSpec(st, files, filePath, extractionId, fileName, cleanup, input);
      && R.task.error.Some?
      && R.task.message == FailedPrefix + R.task.error.value
      && (input.prompts.Err? ==>
            R.task.error == Some(input.prompts.error) && R.task.progress == st.progress
            && R.task.questions == st.questions && R.observed == [])
      && (input.prompts.Ok? && input.pages.Err? ==>
            R.task.error == Some(input.pages.error) && R.task.progress == st.progress
            && R.task.questions == st.questions && R.observed == [])
      && (input.prompts.Ok? && input.pages.Ok? ==>
            var pages := input.pages.value;
            var prompt := LookupPrompt(input.prompts.value);
            var k := FirstFailure(pages, prompt, 0);
            && k < |pages|
            && (forall j :: 0 <= j < k ==> PageFailure(pages[j], prompt).None?)
            && R.task.error == PageFailure(pages[k], prompt)
            && R.task.progress == PageProgress(k, |pages|)
            && R.task.questions == st.questions + Collected(pages, k)
            && |R.observed| == k + 1)
  {
    if input.prompts.Ok? && input.pages.Ok? {
      var pages := input.pages.value;
      var prompt := LookupPrompt(input.prompts.value);
      var k := FirstFailure(pages, prompt, 0);
      PageSnapshotsLength(|pages|, if k < |pages| then k + 1 else k);
    }
  }

  // ---------------------------------------------------------------------
  // Effects on the file system

  /** A path is the temp image of some page of the given file name. */
  ghost predicate IsTempImage(p: string, fileName: string) {
    exists j: nat :: p == TempImagePath(fileName, j)
  }

  /** A path with a separator is no temp image of a file name without one. */
  lemma NotTempImage(p: string, fileName: string)
    requires '/' in p && '/' !in fileName
    ensures !IsTempImage(p, fileName)
  {
    forall j: nat ensures p != TempImagePath(fileName, j) {
      TempImagePathIsRelative(fileName, j);
    }
  }

  /** Writing and removing temp images changes no other path. */
  lemma {:induction false} FilesAfterPagesKeeps(files: map<string, FileContent>, fileName: string, k: nat, p: string)
    requires !IsTempImage(p, fileName)
    ensures p in FilesAfterPages(files, fileName, k) <==> p in files
    ensures p in files ==> FilesAfterPages(files, fileName, k)[p] == files[p]
    decreases k
  {
    if k > 0 {
      assert p != TempImagePath(fileName, k - 1);
      FilesAfterPagesKeeps(files, fileName, k - 1, p);
    }
  }

  /** The page loop changes no path other than its temp images and the artifact. */
  lemma PagesOutcomeKeeps(st: TaskState, files: map<string, FileContent>, extractionId: string, fileName: string,
                          pages: seq<PageOutcome>, prompt: Result<string, string>, p: string)
    requires p != OutputFilePath(extractionId) && !IsTempImage(p, fileName)
    ensures var O := PagesOutcome(st, files, extractionId, fileName, pages, prompt);
      && (p in O.files <==> p in files)
      && (p in files ==> O.files[p] == files[p])
  {
    var k := FirstFailure(pages, prompt, 0);
    var O := PagesOutcome(st, files, extractionId, fileName, pages, prompt);
    if k == |pages| {
      FilesAfterPagesKeeps(files, fileName, k, p);
      assert O.files == FilesAfterPages(files, fileName, k)[OutputFilePath(extractionId) := Artifact(Collected(pages, k))];
    } else {
      FailedPageFilesKeep(files, fileName, k, pages[k], prompt, p);
      assert O.files == FailedPageFiles(FilesAfterPages(files, fileName, k), pages[k], prompt, TempImagePath(fileName, k));
    }
  }

  /** Before cleanup, a run changes no path other than its temp images and the artifact. */
  lemma RunOutcomeKeeps(st: TaskState, files: map<string, FileContent>, extractionId: string, fileName: string,
                        input: RunInput, p: string)
    requires p != OutputFilePath(extractionId) && !IsTempImage(p, fileName)
    ensures var O := RunOutcome(st, files, extractionId, fileName, input);
      && (p in O.files <==> p in files)
      && (p in files ==> O.files[p] == files[p])
  {
    if input.prompts.Ok? && input.pages.Ok? {
      PagesOutcomeKeeps(st, files, extractionId, fileName, input.pages.value, LookupPrompt(input.prompts.value), p);
    }
  }

  /**
   * A run touches only its input file (removed exactly when cleanup is
   * requested), its artifact and its temp images: every other file is as it was.
   */
  lemma RunTouchesOnlyItsFiles(st: TaskState, files: map<string, FileContent>, filePath: string,
                               extractionId: string, fileName: string, cleanup: bool, input: RunInput, p: string)
    requires p != OutputFilePath(extractionId) && !IsTempImage(p, fileName)
    ensures var R := RunSpec(st, files, filePath, extractionId, fileName, cleanup, input);
      && (p in R.files <==> p in files && !(cleanup && p == filePath))
      && (p in R.files ==> R.files[p] == files[p])
  {
    RunOutcomeKeeps(st, files, extractionId, fileName, input, p);
  }

  /** The files a run leaves when page k fails keep every path that is not a temp image. */
  lemma FailedPageFilesKeep(files: map<string, FileContent>, fileName: string, k: nat, page: PageOutcome,
                            prompt: Result<string, string>, p: string)
    requires !IsTempImage(p, fileName)
    ensures var F := FailedPageFiles(FilesAfterPages(files, fileName, k), page, prompt, TempImagePath(fileName, k));
      && (p in F <==> p in files)
      && (p in files ==> F[p] == files[p])
  {
    FilesAfterPagesKeeps(files, fileName, k, p);
    assert p != TempImagePath(fileName, k);
  }

  /** When a page fails, the page loop leaves the artifact path as it was. */
  lemma FailedPagesKeepArtifact(st: TaskState, files: map<string, FileContent>, extractionId: string, fileName: string,
                                pages: seq<PageOutcome>, prompt: Result<string, string>)
    requires '/' !in fileName && FirstFailure(pages, prompt, 0) < |pages|
    ensures var O := PagesOutcome(st, files, extractionId, fileName, pages, prompt);
      var out := OutputFilePath(extractionId);
      && (out in O.files <==> out in files)
      && (out in files ==> O.files[out] == files[out])
  {
    var out := OutputFilePath(extractionId);
    var k := FirstFailure(pages, prompt, 0);
    NotTempImage(out, fileName);
    FailedPageFilesKeep(files, fileName, k, pages[k], prompt, out);
    FailedPagesFiles(st, files, extractionId, fileName, pages, prompt);
  }

  /** When a page fails, the page loop leaves the files that page's failure leaves. */
  lemma FailedPagesFiles(st: TaskState, files: map<string, FileContent>, extractionId: string, fileName: string,
                         pages: seq<PageOutcome>, prompt: Result<string, string>)
    requires FirstFailure(pages, prompt, 0) < |pages|
    ensures var k := FirstFailure(pages, prompt, 0);
      PagesOutcome(st, files, extractionId, fileName, pages, prompt).files
        == FailedPageFiles(FilesAfterPages(files, fileName, k), pages[k], prompt, TempImagePath(fileName, k))
  {
  }

  /** A failed run writes no artifact: whatever was at the artifact path is still there, and nothing else is. */
  lemma FailedRunWritesNoArtifact(st: TaskState, files: map<string, FileContent>, filePath: string,
                                  extractionId: string, fileName: string, cleanup: bool, input: RunInput)
    requires '/' !in fileName && !(cleanup && filePath == OutputFilePath(extractionId))
    requires RunSpec(st, files, filePath, extractionId, fileName, cleanup, input).task.status == Failed
    ensures var R := RunSpec(st, files, filePath, extractionId, fileName, cleanup, input);
      var out := OutputFilePath(extractionId);
      && (out in R.files <==> out in files)
      && (out in files ==> R.files[out] == files[out])
  {
    if input.prompts.Ok? && input.pages.Ok? {
      var pages := input.pages.value;
      var prompt := LookupPrompt(input.prompts.value);
      FailedPagesKeepArtifact(st, files, extractionId, fileName, pages, prompt);
    }
  }

  /**
   * A page that fails after its image was saved leaves that temp image
   * behind, unless the failure came from reading an absent parsed answer,
   * which happens after the image was removed.
   */
  lemma FailedPageLeavesTempImage(st: TaskState, files: map<string, FileContent>, filePath: string,
                                  extractionId: string, fileName: string, cleanup: bool, input: RunInput)
    requires input.prompts.Ok? && input.pages.Ok?
    requires var k := FirstFailure(input.pages.value, LookupPrompt(input.prompts.value), 0);
      k < |input.pages.value| && !input.pages.value[k].SaveFailed?
      && !(input.pages.value[k].Refused? && LookupPrompt(input.prompts.value).Ok?)
      && !(cleanup && filePath == TempImagePath(fileName, k))
    ensures var k := FirstFailure(input.pages.value, LookupPrompt(input.prompts.value), 0);
      var R := RunSpec(st, files, filePath, extractionId, fileName, cleanup, input);
      R.files[TempImagePath(fileName, k)] == Blob(input.pages.value[k].image)
  {
  }

  /**
   * A refused answer fails the run with the AttributeError text, after its
   * temp image was removed: that image is gone, and no question of the page
   * is kept.
   */
  lemma RefusedPageRemovesTempImage(st: TaskState, files: map<string, FileContent>, filePath: string,
                                    extractionId: string, fileName: string, cleanup: bool, input: RunInput)
    requires input.prompts.Ok? && input.pages.Ok? && LookupPrompt(input.prompts.value).Ok?
    requires var k := FirstFailure(input.pages.value, LookupPrompt(input.prompts.value), 0);
      k < |input.pages.value| && input.pages.value[k].Refused?
    ensures var k := FirstFailure(input.pages.value, LookupPrompt(input.prompts.value), 0);
      var R := RunSpec(st, files, filePath, extractionId, fileName, cleanup, input);
      && TempImagePath(fileName, k) !in R.files
      && R.task.status == Failed && R.task.error == Some(RefusedText)
      && R.task.questions == st.questions + Collected(input.pages.value, k)
  {
  }
}
