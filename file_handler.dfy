/**
 * The upload and result store. The file system is a map from path to file
 * contents; an uploaded PDF is a blob of bytes and a result artifact is the
 * sequence of questions that its JSON file serialises.
 */
module FileHandler {
  import opened Common
  import opened Config
  import opened Paths
  import opened Models

  datatype FileContent = Blob(bytes: Bytes) | Artifact(questions: seq<Question>)

  /** The file system the service writes to and removes from. */
  class FileStore {
    var files: map<string, FileContent>

    constructor (files: map<string, FileContent>)
      ensures this.files == files
    {
      this.files := files;
    }

    /** `os.path.exists(path)`. */
    predicate Exists(path: string)
      reads this
    {
      path in files
    }

    /** Creating or overwriting the file at `path`. */
    method Write(path: string, content: FileContent)
      modifies this
      ensures files == old(files)[path := content]
    {
      files := files[path := content];
    }

    /** `os.remove(path)` of a file that exists. */
    method Remove(path: string)
      requires path in files
      modifies this
      ensures files == old(files) - {path}
    {
      files := files - {path};
    }
  }

  /** An uploaded file: its metadata, its bytes and the read position of its stream. */
  class UploadFile {
    const filename: Option<string>
    const contentType: string
    const data: Bytes
    var position: nat

    constructor (filename: Option<string>, contentType: string, data: Bytes)
      ensures this.filename == filename && this.contentType == contentType && this.data == data
      ensures position == 0
    {
      this.filename := filename;
      this.contentType := contentType;
      this.data := data;
      position := 0;
    }

    /** What a read from the current position returns. */
    function Remaining(): Bytes
      reads this
    {
      if position <= |data| then data[position..] else []
    }

    /** `read()`: everything from the current position; the position moves to the end. */
    method Read() returns (contents: Bytes)
      modifies this
      ensures contents == old(Remaining())
      ensures position == if old(position) <= |data| then |data| else old(position)
    {
      contents := Remaining();
      if position <= |data| {
        position := |data|;
      }
    }

    /** `seek(offset)`. */
    method Seek(offset: nat)
      modifies this
      ensures position == offset
    {
      position := offset;
    }
  }

  /** `get_output_file_path`: the artifact of an extraction lives at "outputs/<id>.json". */
  function OutputFilePath(extractionId: string): (p: string)
    ensures '/' in p
    ensures |p| >= 5 && p[|p| - 5..] == ".json"
  {
    var p := Join(OutputDir, extractionId + ".json");
    assert p[|p| - |extractionId + ".json"|..] == extractionId + ".json";
    assert (extractionId + ".json")[|extractionId + ".json"| - 1] == p[|p| - 1];
    assert '/' in p by {
      if |extractionId| > 0 && extractionId[0] == '/' {
        assert p[0] == '/';
      } else {
        assert p[|OutputDir|] == '/';
      }
    }
    p
  }

  /** For an id that is not an absolute path, the artifact path is "outputs/" + id + ".json". */
  lemma OutputFilePathShape(extractionId: string)
    requires extractionId == "" || extractionId[0] != '/'
    ensures OutputFilePath(extractionId) == OutputDir + "/" + extractionId + ".json"
  {
    JoinUnder(OutputDir, extractionId + ".json");
  }

  /** Distinct ids never share an artifact. */
  lemma OutputFilePathInjective(id1: string, id2: string)
    requires id1 == "" || id1[0] != '/'
    requires id2 == "" || id2[0] != '/'
    requires OutputFilePath(id1) == OutputFilePath(id2)
    ensures id1 == id2
  {
    OutputFilePathShape(id1);
    OutputFilePathShape(id2);
    var p := OutputFilePath(id1);
    var n := |OutputDir| + 1;
    assert id1 == p[n..|p| - 5];
    assert id2 == p[n..|p| - 5];
  }

  /** The stored name of an upload: the unique id plus the original name's suffix. */
  function StoredPath(filename: Option<string>, uniqueId: string): string {
    Join(UploadDir, uniqueId + UploadSuffix(filename))
  }

  /** A stored upload keeps its filename's suffix at the end of its path. */
  lemma StoredPathKeepsSuffix(filename: Option<string>, uniqueId: string)
    ensures var p := StoredPath(filename, uniqueId); var ext := UploadSuffix(filename);
      |ext| <= |p| && p[|p| - |ext|..] == ext
  {
    var name := uniqueId + UploadSuffix(filename);
    SuffixOfSuffix(StoredPath(filename, uniqueId), name, |uniqueId|);
    assert name[|uniqueId|..] == UploadSuffix(filename);
  }

  /** The extension an upload keeps: that of its filename, or none without one. */
  function UploadSuffix(filename: Option<string>): (ext: string)
    ensures ext == "" || ext[0] == '.'
    ensures filename.None? || filename.value == "" ==> ext == ""
    ensures filename.Some? && filename.value != "" ==> ext == PathSuffix(filename.value)
  {
    if filename.Some? && filename.value != "" then PathSuffix(filename.value) else ""
  }

  /** The 413 detail message, with the limit in whole megabytes. */
  function SizeLimitDetail(): string {
    "File size exceeds the limit of " + NatToString(MaxUploadSize / (1024 * 1024)) + "MB"
  }

  lemma SizeLimitDetailText()
    ensures SizeLimitDetail() == "File size exceeds the limit of 20MB"
  {
    assert MaxUploadSize / (1024 * 1024) == 20;
    assert NatToString(2) == "2";
    assert NatToString(20) == NatToString(2) + [DigitChar(0)];
  }

  /**
   * `save_upload_file`: an upload longer than the limit is refused with 413
   * and nothing is written; otherwise its whole content is stored under a
   * fresh name in the upload directory. The read position is reset to 0
   * in both cases before the stored copy (if any) is read.
   */
  method SaveUploadFile(upload: UploadFile, store: FileStore, uniqueId: string) returns (r: Result<string, Error>)
    modifies upload, store
    ensures |old(upload.Remaining())| > MaxUploadSize ==>
      && r == Err(HttpError(413, SizeLimitDetail()))
      && store.files == old(store.files)
      && upload.position == 0
    ensures |old(upload.Remaining())| <= MaxUploadSize ==>
      && r == Ok(StoredPath(upload.filename, uniqueId))
      && store.files == old(store.files)[r.value := Blob(upload.data)]
      && upload.position == |upload.data|
  {
    var contents := upload.Read();
    if |contents| > MaxUploadSize {
      upload.Seek(0);
      return Err(HttpError(413, SizeLimitDetail()));
    }
    upload.Seek(0);
    var path := StoredPath(upload.filename, uniqueId);
    var copied := upload.Read();
    store.Write(path, Blob(copied));
    return Ok(path);
  }

  /**
   * `clean_up_files`: removes the file when it exists and does nothing when
   * it does not; it never fails, and no other path changes.
   */
  method CleanUpFiles(store: FileStore, path: string)
    modifies store
    ensures store.files == old(store.files) - {path}
  {
    if store.Exists(path) {
      store.Remove(path);
    }
  }

  /** Stored uploads and artifacts never collide: one lives in "uploads/", the other in "outputs/". */
  lemma StoredPathIsNotAnArtifact(filename: Option<string>, uniqueId: string, extractionId: string)
    requires uniqueId == "" || uniqueId[0] != '/'
    requires extractionId == "" || extractionId[0] != '/'
    ensures StoredPath(filename, uniqueId) != OutputFilePath(extractionId)
    ensures '/' in StoredPath(filename, uniqueId)
  {
    StoredPathShape(filename, uniqueId);
    OutputFilePathShape(extractionId);
    FirstAfterPrefix(UploadDir, "/", uniqueId + UploadSuffix(filename));
    FirstAfterPrefix(OutputDir, "/", extractionId + ".json");
  }

  /** Under a relative unique id, the stored path is the upload directory, a slash, the id and the extension. */
  lemma StoredPathShape(filename: Option<string>, uniqueId: string)
    requires uniqueId == "" || uniqueId[0] != '/'
    ensures StoredPath(filename, uniqueId) == UploadDir + "/" + (uniqueId + UploadSuffix(filename))
  {
    var name := uniqueId + UploadSuffix(filename);
    assert name == "" || name[0] != '/';
    JoinUnder(UploadDir, name);
  }

  /**
   * Stored names are unique: two uploads stored under fresh ids of the same
   * length (as `str(uuid.uuid4())` always gives) share a path only when they
   * share the id, whatever their filenames.
   */
  lemma StoredPathInjective(f1: Option<string>, u1: string, f2: Option<string>, u2: string)
    requires |u1| == |u2|
    requires u1 == "" || u1[0] != '/'
    requires u2 == "" || u2[0] != '/'
    requires StoredPath(f1, u1) == StoredPath(f2, u2)
    ensures u1 == u2
  {
    StoredPathShape(f1, u1);
    StoredPathShape(f2, u2);
    var dir := UploadDir + "/";
    var rest1, rest2 := u1 + UploadSuffix(f1), u2 + UploadSuffix(f2);
    assert dir + rest1 == dir + rest2;
    SplitAt(dir, rest1);
    SplitAt(dir, rest2);
    SplitAt(u1, UploadSuffix(f1));
    SplitAt(u2, UploadSuffix(f2));
    assert rest1 == rest2;
  }
}
