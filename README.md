# Document-analysis service: job registry and text extraction, in Dafny

This project models the core of a small document-analysis web service. A client uploads a
file. The service stores it in an upload directory and has an analysis backend produce a
result. It records the job in a process-wide registry (`RESULTS_DB`, a dictionary from job
id to `{status, data, file_path}`). Later requests use the job id to poll status, fetch
results, chat about the document and ask for next steps. A separate rewrite request
needs no job.

The model has these modules:

- `Outcomes` (`outcomes.dfy`): `Outcome<T>` is either the value a collaborator returned or
  the message of the exception it raised. `Option<T>` is also defined here.
- `Http` (`http.dfy`): JSON bodies (`Json`) and the two ways a request fails. A handler
  can raise `HttpException(code, detail)` on purpose. Any other exception that escapes a
  handler is `Unhandled`, and the framework answers 500.
- `Paths` (`paths.dfy`):
  - `os.path.join` for two POSIX components;
  - the `uploads` directory;
  - the artifact path `{jobId}_{filename}`;
  - the id shape `IsUuidText`: 36 characters drawn from hex digits and `-`. Every
    version-4 UUID in text form has this shape. Lemmas show when two jobs can share a file.
- `Api` (`api.dfy`): the handlers of `main.py`.
  - `JobRegistry` is a class whose field `db` is the registry map. Its only state-changing
    method is `Upload`.
  - The lookups `Results`, `Status`, `Chat` and `NextSteps` are functions that read the
    registry.
  - `Rewrite` is a module-level function with no access to the registry.
  - `ArtifactStore` is a class standing for the upload directory on disk.
  - The collaborators are function parameters. They receive exactly the arguments the
    handlers pass, so the contracts can say which file path each collaborator is given.
    The analyzer opens the uploaded file by its path, so it also receives the upload
    directory's contents as they are when it runs.
- `DocumentProcessor` (`document_processor.dfy`): `extract_text_from_pdf` is a loop over
  the page-extraction outcomes. `Lines` is its reference definition: each page text
  followed by a line break, in page order.

The model follows what the code does in these cases:

- The registry does not reject a duplicate id. The upload handler simply assigns the
  entry, so `Upload` replaces an existing entry under the same id.
- The upload handler does not extract text itself. It only calls
  `analyze_document(file_path, filename, job_id)`, so the model has no link between
  upload and `ExtractTextFromPdf`.
- Failures of the chat, rewrite and next-steps backends are not caught by the handlers.
  They are modelled as `Unhandled`, which the client sees as a 500.

## Model

| member | source | states |
|---|---|---|
| `Paths.Join` | main.py:41 | `os.path.join` on POSIX: a name starting with `/` replaces the directory; any other name extends the directory, with at most one `/` inserted |
| `Paths.UploadDir` | utils/helpers.py:12 | the upload directory extends the base directory, at most 8 characters longer, and ends with `uploads` |
| `Paths.ArtifactPath` | main.py:41 | the artifact path extends the upload directory unless the id starts with `/`, in which case it is just `{jobId}_{filename}` |
| `Paths.JoinEndsWithName` | main.py:41 | a joined path always ends with the name that was joined |
| `Paths.JoinRelative` | main.py:41 | joining a name that does not start with `/` puts the directory, then a `/` unless one is already there, then the name |
| `Paths.ArtifactPathEndsWithName` | main.py:41 | the stored file is always named `{jobId}_{filename}`, whatever the upload directory |
| `Paths.ArtifactPathExtendsJobPrefix` | main.py:41 | every artifact path of a job extends that job's `{jobId}_` prefix in the upload directory |
| `Paths.UuidIsRelative` | utils/helpers.py:5-6 | a generated id never starts with `/`, so the join never discards the upload directory |
| `Paths.ArtifactPathsDisjoint` | main.py:40-41 | two distinct uuid-shaped ids never share an artifact path, even for files with the same name |
| `Paths.UnderscoreIdsCollide` | main.py:41 | without the uuid shape, two jobs can share a file: ids `a` and `a_b` with names `b_c` and `c` give the same path |
| `Api.ArtifactStore.Write` | main.py:43-44 | writing a file replaces whatever was stored under that path and touches no other path |
| `Api.JobRegistry.constructor` | main.py:24-32 | at start the upload directory is `uploads` under the base directory and the registry is empty |
| `Api.JobRegistry.Upload` | main.py:38-55 | the artifact is written before analysis: the analyzer gets the path, the file name, the id and the upload directory with the uploaded bytes already stored under that path. A write failure escapes and changes nothing. An analysis failure answers 500 with its message and stores nothing, but the file stays written. Success stores exactly one `processed` record under the id, holding the analysis and the written path. No other entry changes, a fresh id grows the registry by one, and the answer is `{jobId, status: "processing"}`. Afterwards results return that analysis and status says `processed` |
| `Api.JobRegistry.Results` | main.py:57-61 | fails with 404 `Job not found` exactly for unknown ids; otherwise returns the stored analysis verbatim |
| `Api.JobRegistry.Status` | main.py:63-67 | never fails; answers `not_found` exactly for unknown ids and `processed` at 100 percent exactly for known ids |
| `Api.StatusAnswersDiffer` | main.py:63-67 | the unknown-id and known-id status answers are distinct values |
| `Api.JobRegistry.Chat` | main.py:69-80 | 404 for an unknown job, without using the backend. For a known job the backend gets the message, the history and the stored file path. Its reply comes back with `sources == ["Document Analysis"]`, and a backend failure escapes |
| `Api.JobRegistry.NextSteps` | main.py:87-94 | 404 for an unknown job, without using the backend. For a known job the backend gets the stored file path and its steps come back under `steps`; a backend failure escapes |
| `Api.Rewrite` | main.py:82-85 | needs no job and reads no registry state; the rewriter gets the text and style, and its output comes back under `text`; a rewriter failure escapes |
| `Api.StatusAgreesWithResults` | main.py:57-67 | status says `not_found` exactly when results fail with 404 |
| `Api.StatusReportsStoredStatus` | main.py:48-67 | in a valid registry the status answer for a known job repeats the status its record stores |
| `Api.UploadAnswerDiffersFromStoredStatus` | main.py:48-53 | the upload answer says `processing`, while the stored record and the status answer say `processed` |
| `Api.ChatReadsOnlyFilePath` | main.py:71-75 | chat depends on the registry only through whether the job exists and its stored file path |
| `Api.NextStepsReadsOnlyFilePath` | main.py:89-93 | next steps depend on the registry only through whether the job exists and its stored file path |
| `Api.FreshIdDoesNotOverwrite` | main.py:40-52 | in a registry of uuid-shaped ids, a fresh uuid-shaped id names a file no stored job refers to |
| `Api.IndependentUploads` | main.py:38-61 | two successful uploads under distinct ids each keep their own analysis, made over their own written file, with no cross-contamination |
| `DocumentProcessor.ExtractTextFromPdf` | services/document_processor.py:3-15 | never fails. It returns `""` when the reader cannot open the file or when any page fails, dropping text from earlier pages. With zero pages it returns `""`. Otherwise it returns each page text followed by a line break, in page order |
| `DocumentProcessor.TextsArePageTexts` | services/document_processor.py:10-11 | the texts the extraction joins are the pages' own texts, one per page, in page order |
| `DocumentProcessor.LinesAppend` | services/document_processor.py:11 | each loop step adds that page's text and one line break at the end |
| `DocumentProcessor.LinesConcat` | services/document_processor.py:9-12 | the text of two runs of pages is the first run's text followed by the second's |
| `DocumentProcessor.LinesLength` | services/document_processor.py:10-11 | the length is the sum of the page text lengths plus the number of pages |
| `DocumentProcessor.LinesEndWithBreak` | services/document_processor.py:11 | with at least one page, the text ends with a line break |
| `DocumentProcessor.LinesPageAt` | services/document_processor.py:9-12 | page k appears in order: right after the text of the pages before it come its own text and a line break |

## Left out

- FastAPI app construction and CORS (main.py:1-23), the start-up log lines (main.py:27-29),
  the liveness route `/` (main.py:34-36) and the `uvicorn` entry point (main.py:96-98).
  These are framework plumbing.
- Id generation (`generate_job_id`, a uuid4) is a parameter of `Upload`. Its shape is the
  predicate `Paths.IsUuidText`, and its uniqueness appears as a premise where it matters.
  `get_timestamp` is never used by the core.
- Creating the upload directory (`os.makedirs` in `ensure_upload_dir`). Only the
  directory path is modelled.
- File I/O is modelled by `ArtifactStore`. A write either stores all the bytes or fails
  before anything is written, given as the `writeFault` parameter. A copy that fails
  part-way and leaves a partial file is not modelled.
- PDF parsing is not modelled. A document is the outcome of opening the reader plus one
  outcome per page. The error line the extractor prints is left out.
- The analysis, chat, rewrite and next-steps backends (`services/ai_agent`) are not part
  of this model. They are total function parameters that either return a JSON value or
  raise.
- The request classes (`services/models`) are not part of this model. Their fields are
  taken from how `main.py` uses them. A history entry is assumed to be a role and a
  text.
- Async execution and concurrent access to the registry are not modelled. The model is
  sequential, one request at a time.
- Serialisation of the JSON answers and the framework's exact body for an unhandled
  exception are not modelled.
- The upload directory survives restarts, because it is created only when missing.
  `ArtifactStore` starts empty. That starting point is used only by the two-upload
  scenario `IndependentUploads`.
