/** The request handlers of the document-analysis service and the process-wide job
    registry they share. */
module Api {
  import opened Outcomes
  import opened Http
  import Paths

  /** One registry entry: the stored record `{status, data, file_path}` of a job. */
  datatype Record = Record(status: string, data: Json, filePath: string)

  /** An uploaded file: its original name and its bytes. */
  datatype UploadFile = UploadFile(filename: string, content: seq<bv8>)

  /** One caller-supplied turn of conversation history, forwarded as it is. */
  datatype Turn = Turn(role: string, content: string)

  datatype ChatRequest = ChatRequest(jobId: string, message: string, history: seq<Turn>)
  datatype RewriteRequest = RewriteRequest(text: string, style: string)
  datatype NextStepsRequest = NextStepsRequest(jobId: string)

  /** The files in the upload directory: the bytes stored under each path. */
  type Disk = map<string, seq<bv8>>

  /** The collaborators, given what each handler passes them. The analyzer opens the file
      it is given by path, so it also sees the upload directory as it is when it runs. */
  type Analyzer = (string, string, string, Disk) -> Outcome<Json>  // (file path, file name, job id, disk when it runs)
  type ChatBackend = (string, seq<Turn>, string) -> Outcome<Json>  // (message, history, file path)
  type Rewriter = (string, string) -> Outcome<Json>                // (text, style)
  type StepsBackend = string -> Outcome<Json>                      // (file path)

  /** The status every stored record carries. */
  const Processed: string := "processed"

  /** The provenance marker every chat reply carries. */
  const DocumentAnalysis: string := "Document Analysis"

  /** The error for an id the registry does not hold. */
  const JobNotFound: Failure := HttpException(404, "Job not found")

  /** The status answer for an unknown id. */
  const StatusNotFound: Json := Obj(map["status" := Str("not_found")])

  /** The status answer for a known id. */
  const StatusDone: Json := Obj(map["status" := Str(Processed), "percent" := Num(100)])

  /** The two status answers are told apart: only the known-job answer has a `percent`. */
  lemma StatusAnswersDiffer()
    ensures StatusNotFound != StatusDone
  {
    assert "percent" in StatusDone.fields && "percent" !in StatusNotFound.fields;
  }

  /** The answer to an accepted upload. */
  function UploadAccepted(jobId: string): Json
  {
    Obj(map["jobId" := Str(jobId), "status" := Str("processing")])
  }

  function ChatReply(reply: Json): Json
  {
    Obj(map["reply" := reply, "sources" := Arr([Str(DocumentAnalysis)])])
  }

  function RewriteReply(text: Json): Json
  {
    Obj(map["text" := text])
  }

  function StepsReply(steps: Json): Json
  {
    Obj(map["steps" := steps])
  }

  /** The upload directory on disk: the bytes stored under each path. */
  class ArtifactStore {
    var files: Disk

    /** An empty upload directory. The real directory outlives the process (it is created
        only when missing), so this is just the starting point of `IndependentUploads`. */
    constructor ()
      ensures files == map[]
    {
      files := map[];
    }

    /** Opens `path` for writing and copies the bytes into it, replacing any earlier file. */
    method Write(path: string, content: seq<bv8>)
      modifies this
      ensures files == old(files)[path := content]
    {
      files := files[path := content];
    }
  }

  /** The process-wide registry `RESULTS_DB` with the handlers that use it. */
  class JobRegistry {
    const uploadDir: string
    var db: map<string, Record>

    /** Every stored record is `processed` and its file lies under the job's own
        `{jobId}_` prefix in the upload directory. */
    ghost predicate Valid()
      reads this
    {
      forall id :: id in db ==>
        db[id].status == Processed && Paths.ArtifactPath(uploadDir, id, "") <= db[id].filePath
    }

    /** Service start: the upload directory is `uploads` under the base directory and
        the registry is empty. */
    constructor (baseDir: string)
      ensures uploadDir == Paths.UploadDir(baseDir) && db == map[] && Valid()
    {
      uploadDir := Paths.UploadDir(baseDir);
      db := map[];
    }

    /** `upload_file`: writes the artifact to `{jobId}_{filename}` in the upload
        directory, then asks the analyzer for a result; the analyzer runs against the
        directory with that file already written. A failed write escapes the handler and
        leaves everything as it was. A failed analysis answers 500 with the exception's
        message and stores nothing, but the file stays written. A successful analysis
        stores a `processed` record under `jobId`, replacing any earlier entry under that
        id, and answers `processing`. */
    method Upload(store: ArtifactStore, jobId: string, file: UploadFile, writeFault: Option<string>,
                  analyze: Analyzer) returns (r: Result<Json>)
      requires Valid()
      modifies this, store
      ensures Valid()
      ensures var path := Paths.ArtifactPath(uploadDir, jobId, file.filename);
        match writeFault
        case Some(e) =>
          r == Err(Unhandled(e)) && db == old(db) && store.files == old(store.files)
        case None =>
          store.files == old(store.files)[path := file.content] &&
          match analyze(path, file.filename, jobId, old(store.files)[path := file.content])
          case Raised(e) =>
            r == Err(HttpException(500, e)) && db == old(db)
          case Done(data) =>
            r == Ok(UploadAccepted(jobId)) && db == old(db)[jobId := Record(Processed, data, path)]
      ensures var path := Paths.ArtifactPath(uploadDir, jobId, file.filename);
        r.Ok? ==> Results(jobId) == Ok(analyze(path, file.filename, jobId, store.files).value) &&
                  Status(jobId) == StatusDone
      ensures r.Ok? ==> db[jobId].filePath in store.files && store.files[db[jobId].filePath] == file.content
      ensures r.Ok? ==> forall id :: id != jobId ==> (id in db <==> id in old(db)) && (id in db ==> db[id] == old(db)[id])
      ensures r.Ok? && jobId !in old(db) ==> db.Keys == old(db).Keys + {jobId} && |db| == |old(db)| + 1
    {
      var path := Paths.ArtifactPath(uploadDir, jobId, file.filename);
      if writeFault.Some? {
        return Err(Unhandled(writeFault.value));
      }
      store.Write(path, file.content);
      match analyze(path, file.filename, jobId, store.files) {
        case Raised(e) =>
          r := Err(HttpException(500, e));
        case Done(data) =>
          Paths.ArtifactPathExtendsJobPrefix(uploadDir, jobId, file.filename);
          db := db[jobId := Record(Processed, data, path)];
          r := Ok(UploadAccepted(jobId));
      }
    }

    /** `get_results`: the stored analysis of a known job, verbatim; 404 otherwise. */
    function Results(jobId: string): (r: Result<Json>)
      reads this
      ensures r.Err? <==> jobId !in db
      ensures r.Err? ==> r.failure == JobNotFound && StatusCode(r.failure) == 404
      ensures r.Ok? ==> r.value == db[jobId].data
    {
      if jobId !in db then Err(JobNotFound) else Ok(db[jobId].data)
    }

    /** `get_status`: never fails; `not_found` exactly for ids the registry does not
        hold, `processed` at 100 percent for every id it does. */
    function Status(jobId: string): (r: Json)
      reads this
      ensures r == StatusNotFound <==> jobId !in db
      ensures r == StatusDone <==> jobId in db
    {
      StatusAnswersDiffer();
      if jobId !in db then StatusNotFound else StatusDone
    }

    /** `chat`: 404 for an unknown job before the backend is consulted; otherwise the
        backend answers the message and history about the job's stored file, and the
        reply comes back with the fixed source list. A backend failure escapes. */
    function Chat(req: ChatRequest, backend: ChatBackend): (r: Result<Json>)
      reads this
      ensures req.jobId !in db ==> r == Err(JobNotFound)
      ensures req.jobId in db ==>
        var answer := backend(req.message, req.history, db[req.jobId].filePath);
        (r.Ok? <==> answer.Done?) &&
        (answer.Done? ==> r.value == ChatReply(answer.value)) &&
        (answer.Raised? ==> r == Err(Unhandled(answer.message)))
      ensures r.Ok? ==> r.value.Obj? && r.value.fields["sources"] == Arr([Str(DocumentAnalysis)])
    {
      if req.jobId !in db then Err(JobNotFound)
      else
        match backend(req.message, req.history, db[req.jobId].filePath)
        case Done(reply) => Ok(ChatReply(reply))
        case Raised(e) => Err(Unhandled(e))
    }

    /** `next_steps`: 404 for an unknown job before the backend is consulted; otherwise
        the backend's steps for the job's stored file. A backend failure escapes. */
    function NextSteps(req: NextStepsRequest, backend: StepsBackend): (r: Result<Json>)
      reads this
      ensures req.jobId !in db ==> r == Err(JobNotFound)
      ensures req.jobId in db ==>
        var answer := backend(db[req.jobId].filePath);
        (r.Ok? <==> answer.Done?) &&
        (answer.Done? ==> r.value == StepsReply(answer.value)) &&
        (answer.Raised? ==> r == Err(Unhandled(answer.message)))
    {
      if req.jobId !in db then Err(JobNotFound)
      else
        match backend(db[req.jobId].filePath)
        case Done(steps) => Ok(StepsReply(steps))
        case Raised(e) => Err(Unhandled(e))
    }
  }

  /** `rewrite`: no job and no registry involved (the function reads no state); the
      rewriter's output comes back under `text`. A rewriter failure escapes. */
  function Rewrite(req: RewriteRequest, rewriter: Rewriter): (r: Result<Json>)
    ensures var answer := rewriter(req.text, req.style);
      (r.Ok? <==> answer.Done?) &&
      (answer.Done? ==> r.value == RewriteReply(answer.value)) &&
      (answer.Raised? ==> r == Err(Unhandled(answer.message)))
  {
    match rewriter(req.text, req.style)
    case Done(text) => Ok(RewriteReply(text))
    case Raised(e) => Err(Unhandled(e))
  }

  /** Status and results agree on which jobs exist. */
  lemma StatusAgreesWithResults(reg: JobRegistry, jobId: string)
    ensures reg.Status(jobId) == StatusNotFound <==> reg.Results(jobId) == Err(JobNotFound)
  {
  }

  /** In a valid registry, the status answer for a known job repeats the status its
      record stores. */
  lemma StatusReportsStoredStatus(reg: JobRegistry, jobId: string)
    requires reg.Valid() && jobId in reg.db
    ensures reg.Status(jobId).Obj? && reg.Status(jobId).fields["status"] == Str(reg.db[jobId].status)
  {
  }

  /** The answer to an accepted upload says `processing` although the stored record,
      and every later status answer, says `processed`. */
  lemma UploadAnswerDiffersFromStoredStatus(jobId: string)
    ensures UploadAccepted(jobId).fields["status"] != StatusDone.fields["status"]
  {
  }

  /** Chat reads nothing of a job but whether it exists and where its file lies: two
      registries that agree on that give the same answer. */
  lemma ChatReadsOnlyFilePath(a: JobRegistry, b: JobRegistry, req: ChatRequest, backend: ChatBackend)
    requires req.jobId in a.db <==> req.jobId in b.db
    requires req.jobId in a.db ==> a.db[req.jobId].filePath == b.db[req.jobId].filePath
    ensures a.Chat(req, backend) == b.Chat(req, backend)
  {
  }

  /** Next steps likewise read only whether the job exists and where its file lies. */
  lemma NextStepsReadsOnlyFilePath(a: JobRegistry, b: JobRegistry, req: NextStepsRequest, backend: StepsBackend)
    requires req.jobId in a.db <==> req.jobId in b.db
    requires req.jobId in a.db ==> a.db[req.jobId].filePath == b.db[req.jobId].filePath
    ensures a.NextSteps(req, backend) == b.NextSteps(req, backend)
  {
  }

  /** A fresh uuid-shaped id, in a registry whose ids all have that shape, names a file
      that no stored job refers to: an upload never overwrites another job's artifact. */
  lemma FreshIdDoesNotOverwrite(reg: JobRegistry, jobId: string, filename: string)
    requires reg.Valid() && jobId !in reg.db && Paths.IsUuidText(jobId)
    requires forall id :: id in reg.db ==> Paths.IsUuidText(id)
    ensures forall id :: id in reg.db ==> reg.db[id].filePath != Paths.ArtifactPath(reg.uploadDir, jobId, filename)
  {
    forall id | id in reg.db
      ensures reg.db[id].filePath != Paths.ArtifactPath(reg.uploadDir, jobId, filename)
    {
      Paths.ArtifactPathsDisjoint(reg.uploadDir, id, jobId, filename);
    }
  }

  /** The path upload `n` of the scenario below writes to. */
  function ScenarioPath(baseDir: string, jobId: string, f: UploadFile): string
  {
    Paths.ArtifactPath(Paths.UploadDir(baseDir), jobId, f.filename)
  }

  /** Two successful uploads under distinct ids into a fresh registry and an empty upload
      directory: each job's results are its own analysis, made with its own file on disk
      (the second analysis also sees the first file), with no cross-contamination. */
  method IndependentUploads(baseDir: string, id1: string, id2: string, f1: UploadFile, f2: UploadFile,
                            analyze: Analyzer) returns (r1: Result<Json>, r2: Result<Json>)
    requires id1 != id2
    requires analyze(ScenarioPath(baseDir, id1, f1), f1.filename, id1,
                     map[ScenarioPath(baseDir, id1, f1) := f1.content]).Done?
    requires analyze(ScenarioPath(baseDir, id2, f2), f2.filename, id2,
                     map[ScenarioPath(baseDir, id1, f1) := f1.content, ScenarioPath(baseDir, id2, f2) := f2.content]).Done?
    ensures r1 == Ok(analyze(ScenarioPath(baseDir, id1, f1), f1.filename, id1,
                             map[ScenarioPath(baseDir, id1, f1) := f1.content]).value)
    ensures r2 == Ok(analyze(ScenarioPath(baseDir, id2, f2), f2.filename, id2,
                             map[ScenarioPath(baseDir, id1, f1) := f1.content, ScenarioPath(baseDir, id2, f2) := f2.content]).value)
  {
    var reg := new JobRegistry(baseDir);
    var store := new ArtifactStore();
    var u1 := reg.Upload(store, id1, f1, None, analyze);
    var u2 := reg.Upload(store, id2, f2, None, analyze);
    r1 := reg.Results(id1);
    r2 := reg.Results(id2);
  }
}
