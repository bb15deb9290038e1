/**
 The job-submission handler `POST` (src/app/api/separate/route.ts).

 The handler reads the multipart form, rejects a request without an `audio`
 field, derives the job's layout from the clock reading, creates the job and
 output directories, writes the upload to `input.mp3`, runs the separation
 command, and answers with fixed stem URLs or one of two server errors.

 The filesystem is a map from paths to nodes; a set of injected faults stands
 for the operations that throw. The clock reading and the separation worker's
 outcome are parameters: the handler only learns whether the command threw.
 */
module Submit {
  import opened Layout

  datatype Option<T> = None | Some(value: T)

  type Bytes = seq<bv8>

  /** A filesystem node: a directory, or a file with its contents. */
  datatype Node = Dir | File(data: Bytes)

  /** What a failing operation throws: an `Error` with its message, or any other value. */
  datatype Thrown = ErrorValue(message: string) | OtherValue

  /** The `details` of an error response. */
  function Details(t: Thrown): string
  {
    match t
    case ErrorValue(m) => m
    case OtherValue => "Unknown error"
  }

  /** The form's `audio` field: absent, a plain text value, or an uploaded file. */
  datatype Field = Missing | Text(value: string) | Upload(bytes: Bytes)

  /** The field passes the handler's `!file` test: an absent field or an empty text value does not. */
  predicate Present(f: Field)
  {
    match f
    case Missing => false
    case Text(v) => v != ""
    case Upload(_) => true
  }

  /** The request body: a form that could not be parsed, or the parsed form's `audio` field. */
  datatype Request = Unreadable(thrown: Thrown) | Form(audio: Field)

  /** How the separation command ended: it completed, or it threw. */
  datatype WorkerOutcome = Succeeded | Failed(thrown: Thrown)

  /** The JSON response: the job and its stem URLs (status 200), or an error with a status. */
  datatype Response =
    | Separated(id: string, vocals: string, instrumental: string)
    | Rejected(status: nat, error: string, details: Option<string>)

  function Status(r: Response): nat
  {
    if r.Separated? then 200 else r.status
  }

  const NoFileMessage: string := "No file provided"
  const ProcessingFailedMessage: string := "Failed to process audio"
  const WorkerFailedMessage: string :=
    "Failed to process audio with Demucs. Please ensure Demucs is installed correctly."
  /**
   What reading a text field as a file throws: the engine's TypeError text for the
   handler's variable name as written, before any bundling or renaming.
   */
  const NotAFileMessage: string := "file.arrayBuffer is not a function"

  /** The response of the outer error handler. */
  function ProcessingFailure(t: Thrown): Response
  {
    Rejected(500, ProcessingFailedMessage, Some(Details(t)))
  }

  // ---------------------------------------------------------------------------
  // The filesystem operations the handler uses
  // ---------------------------------------------------------------------------

  /** The outcome of a filesystem operation: the new nodes, or what it threw. */
  datatype FsResult = FsOk(nodes: map<string, Node>) | FsFailed(thrown: Thrown)

  /** The directory `p` and every ancestor of it, as `mkdir -p` creates them. */
  function Chain(p: string): (r: set<string>)
    ensures |p| > 0 ==> p in r
  {
    var r := set i | 0 < i <= |p| && (i == |p| || p[i] == '/') :: p[..i];
    assert p[..|p|] == p;
    r
  }

  /** A path longer than `p` is not on its chain. */
  lemma NotOnChain(p: string, q: string)
    requires |q| > |p|
    ensures q !in Chain(p)
  {
  }

  /**
   Recursive `mkdir`: fails when `p` is a faulty path or a file stands at `p` or at
   one of its ancestors; otherwise every missing directory on the chain is
   created, and an existing directory is no error.
   */
  function MakeDirs(nodes: map<string, Node>, faults: map<string, string>, p: string): (r: FsResult)
    ensures r.FsOk? <==> p !in faults && forall q :: q in Chain(p) && q in nodes ==> nodes[q] == Dir
    ensures r.FsOk? ==> && (forall q :: q in Chain(p) ==> q in r.nodes && r.nodes[q] == Dir)
                        && (forall q :: q in nodes ==> q in r.nodes && r.nodes[q] == nodes[q])
                        && (forall q :: q in r.nodes ==> q in nodes || q in Chain(p))
  {
    if p in faults then FsFailed(ErrorValue(faults[p]))
    else if exists q :: q in Chain(p) && q in nodes && nodes[q].File? then
      if p in nodes && nodes[p].File? then FsFailed(ErrorValue("EEXIST: file already exists, mkdir '" + p + "'"))
      else FsFailed(ErrorValue("ENOTDIR: not a directory, mkdir '" + p + "'"))
    else
      FsOk(nodes + map q | q in Chain(p) && q !in nodes :: Dir)
  }

  /**
   `writeFile`: fails when `p` is a faulty path or a directory; otherwise `p` holds
   the data afterwards, whether it existed before or not, and nothing else changes.
   */
  function WriteFile(nodes: map<string, Node>, faults: map<string, string>, p: string, data: Bytes): (r: FsResult)
    ensures r.FsOk? <==> p !in faults && !(p in nodes && nodes[p] == Dir)
    ensures r.FsOk? ==> && p in r.nodes && r.nodes[p] == File(data)
                        && r.nodes.Keys == nodes.Keys + {p}
                        && (forall q :: q in nodes && q != p ==> r.nodes[q] == nodes[q])
  {
    if p in faults then FsFailed(ErrorValue(faults[p]))
    else if p in nodes && nodes[p].Dir? then
      FsFailed(ErrorValue("EISDIR: illegal operation on a directory, open '" + p + "'"))
    else
      FsOk(nodes[p := File(data)])
  }

  // ---------------------------------------------------------------------------
  // The handler, as a function of the filesystem before the request
  // ---------------------------------------------------------------------------

  /** What handling one request produces: the response, the command run (if any), the new nodes. */
  datatype Handled = Handled(response: Response, command: Option<string>, nodes: map<string, Node>)

  /** The paths of one job. */
  datatype Job = Job(id: string, uploadDir: string, outputDir: string, inputPath: string)

  /** The job of a submission read at clock value `now`. */
  function JobAt(cwd: string, now: nat): Job
  {
    var id := JobId(now);
    Job(id, UploadDir(cwd, id), OutputDir(cwd, id), InputPath(cwd, id))
  }

  /** The job directory, output directory and input path are non-empty and strictly longer in turn. */
  predicate Nested(job: Job)
  {
    0 < |job.uploadDir| < |job.outputDir| < |job.inputPath|
  }

  lemma JobAtNested(cwd: string, now: nat)
    ensures Nested(JobAt(cwd, now))
  {
    LayoutShape(cwd, now);
  }

  /**
   The handler's effect. A parse failure and a missing file change nothing;
   otherwise the job is stored.
   */
  function Handle(nodes: map<string, Node>, faults: map<string, string>, request: Request,
                  now: nat, cwd: string, worker: WorkerOutcome): Handled
  {
    match request
    case Unreadable(t) => Handled(ProcessingFailure(t), None, nodes)
    case Form(file) =>
      if !Present(file) then Handled(Rejected(400, NoFileMessage, None), None, nodes)
      else Store(nodes, faults, file, JobAt(cwd, now), worker)
  }

  /**
   Storing a job: the job and output directories are created before the field is
   read as a file, and the command runs only once the input file is written.
   */
  function Store(nodes: map<string, Node>, faults: map<string, string>, file: Field,
                 job: Job, worker: WorkerOutcome): Handled
  {
    match MakeDirs(nodes, faults, job.uploadDir)
    case FsFailed(t) => Handled(ProcessingFailure(t), None, nodes)
    case FsOk(n1) =>
      match MakeDirs(n1, faults, job.outputDir)
      case FsFailed(t) => Handled(ProcessingFailure(t), None, n1)
      case FsOk(n2) =>
        if !file.Upload? then Handled(ProcessingFailure(ErrorValue(NotAFileMessage)), None, n2)
        else
          match WriteFile(n2, faults, job.inputPath, file.bytes)
          case FsFailed(t) => Handled(ProcessingFailure(t), None, n2)
          case FsOk(n3) => Handled(Outcome(job.id, worker), Some(DemucsCommand(job.inputPath, job.outputDir)), n3)
  }

  /** The response once the command has run. */
  function Outcome(jobId: string, worker: WorkerOutcome): Response
  {
    match worker
    case Succeeded => Separated(jobId, VocalsUrl(jobId), InstrumentalUrl(jobId))
    case Failed(t) => Rejected(500, WorkerFailedMessage, Some(Details(t)))
  }

  // ---------------------------------------------------------------------------
  // Properties of the handler
  // ---------------------------------------------------------------------------

  /**
   Status 400 is returned exactly for a parsed form whose `audio` field fails the
   `!file` test, always with `No file provided`, and then no directory or file is
   created and no command runs.
   */
  lemma BadRequestIff(nodes: map<string, Node>, faults: map<string, string>, request: Request,
                      now: nat, cwd: string, worker: WorkerOutcome)
    ensures var h := Handle(nodes, faults, request, now, cwd, worker);
            && (Status(h.response) == 400 <==> request.Form? && !Present(request.audio))
            && (Status(h.response) == 400 ==> h == Handled(Rejected(400, NoFileMessage, None), None, nodes))
  {
  }

  /** `Store` step by step: the command runs only after the directories and the input file exist. */
  lemma StoreWritesBeforeCommand(nodes: map<string, Node>, faults: map<string, string>, file: Field,
                                 job: Job, worker: WorkerOutcome)
    requires Nested(job)
    ensures var h := Store(nodes, faults, file, job, worker);
            h.command.Some? ==>
              && file.Upload?
              && job.uploadDir in h.nodes && h.nodes[job.uploadDir] == Dir
              && job.outputDir in h.nodes && h.nodes[job.outputDir] == Dir
              && job.inputPath in h.nodes && h.nodes[job.inputPath] == File(file.bytes)
              && h.command == Some(DemucsCommand(job.inputPath, job.outputDir))
              && h.response == Outcome(job.id, worker)
  {
  }

  /**
   The command runs only after both directories exist and the uploaded bytes are
   in `input.mp3`, and it is the separation command for exactly this job's input
   file and output directory.
   */
  lemma CommandRunsAfterInputWritten(nodes: map<string, Node>, faults: map<string, string>, request: Request,
                                     now: nat, cwd: string, worker: WorkerOutcome)
    ensures var h := Handle(nodes, faults, request, now, cwd, worker);
            var job := JobAt(cwd, now);
            h.command.Some? ==>
              && request.Form? && request.audio.Upload?
              && job.uploadDir in h.nodes && h.nodes[job.uploadDir] == Dir
              && job.outputDir in h.nodes && h.nodes[job.outputDir] == Dir
              && job.inputPath in h.nodes && h.nodes[job.inputPath] == File(request.audio.bytes)
              && h.command == Some(DemucsCommand(job.inputPath, job.outputDir))
  {
    JobAtNested(cwd, now);
    if request.Form? {
      StoreWritesBeforeCommand(nodes, faults, request.audio, JobAt(cwd, now), worker);
    }
  }

  /**
   How outcomes map to responses: success exactly when the command ran and
   completed, with the job id and the fixed stem URLs; a failing command gives 500
   with the Demucs message and the thrown message as details; every other failure
   gives 500 with `Failed to process audio`.
   */
  lemma ResponseMapping(nodes: map<string, Node>, faults: map<string, string>, request: Request,
                        now: nat, cwd: string, worker: WorkerOutcome)
    ensures var h := Handle(nodes, faults, request, now, cwd, worker);
            var id := JobId(now);
            && (h.response.Separated? <==> h.command.Some? && worker.Succeeded?)
            && (h.response.Separated? ==> h.response == Separated(id, VocalsUrl(id), InstrumentalUrl(id)))
            && (h.command.Some? && worker.Failed? ==>
                  h.response == Rejected(500, WorkerFailedMessage, Some(Details(worker.thrown))))
            && (h.command.None? && Status(h.response) != 400 ==>
                  h.response.Rejected? && h.response.status == 500
                  && h.response.error == ProcessingFailedMessage && h.response.details.Some?)
  {
    JobAtNested(cwd, now);
    if request.Form? {
      StoreWritesBeforeCommand(nodes, faults, request.audio, JobAt(cwd, now), worker);
    }
  }

  /** `Store` removes nothing and changes only the job's chain of directories and its input file. */
  lemma StoreRemovesNothing(nodes: map<string, Node>, faults: map<string, string>, file: Field,
                            job: Job, worker: WorkerOutcome)
    ensures var h := Store(nodes, faults, file, job, worker);
            && (forall p :: p in nodes ==> p in h.nodes && (nodes[p] == Dir ==> h.nodes[p] == Dir))
            && (forall p :: p in nodes && p != job.inputPath ==> h.nodes[p] == nodes[p])
            && (forall p :: p in h.nodes && p !in nodes ==>
                  p in Chain(job.uploadDir) || p in Chain(job.outputDir) || p == job.inputPath)
  {
  }

  /**
   No outcome removes anything: every node survives, every directory stays a
   directory, only `input.mp3` can change contents, and every new node is the job
   directory, the output directory, one of their ancestors, or `input.mp3`.
   */
  lemma NothingRemoved(nodes: map<string, Node>, faults: map<string, string>, request: Request,
                       now: nat, cwd: string, worker: WorkerOutcome)
    ensures var h := Handle(nodes, faults, request, now, cwd, worker);
            var job := JobAt(cwd, now);
            && (forall p :: p in nodes ==> p in h.nodes && (nodes[p] == Dir ==> h.nodes[p] == Dir))
            && (forall p :: p in nodes && p != job.inputPath ==> h.nodes[p] == nodes[p])
            && (forall p :: p in h.nodes && p !in nodes ==>
                  p in Chain(job.uploadDir) || p in Chain(job.outputDir) || p == job.inputPath)
  {
    if request.Form? {
      StoreRemovesNothing(nodes, faults, request.audio, JobAt(cwd, now), worker);
    }
  }

  /** Storing the same job again after a stored one reuses its directories and overwrites its input. */
  lemma StoreAgain(nodes: map<string, Node>, faults: map<string, string>, first: Bytes, second: Bytes,
                   job: Job, w1: WorkerOutcome, w2: WorkerOutcome)
    requires Nested(job)
    requires Store(nodes, faults, Upload(first), job, w1).command.Some?
    ensures var h1 := Store(nodes, faults, Upload(first), job, w1);
            var h2 := Store(h1.nodes, faults, Upload(second), job, w2);
            && h2.command == h1.command
            && h2.nodes == h1.nodes[job.inputPath := File(second)]
  {
    // These steps keep the proof within its resource budget on every solver seed.
    var h1 := Store(nodes, faults, Upload(first), job, w1);
    var n1 := MakeDirs(nodes, faults, job.uploadDir).nodes;
    var n2 := MakeDirs(n1, faults, job.outputDir).nodes;
    assert h1.nodes == n2[job.inputPath := File(first)];
    NotOnChain(job.uploadDir, job.inputPath);
    NotOnChain(job.outputDir, job.inputPath);
    MakeDirsExisting(h1.nodes, faults, job.uploadDir);
    MakeDirsExisting(h1.nodes, faults, job.outputDir);
  }

  /** `mkdir -p` of a directory whose whole chain already exists succeeds and changes nothing. */
  lemma MakeDirsExisting(nodes: map<string, Node>, faults: map<string, string>, p: string)
    requires p !in faults
    requires forall q :: q in Chain(p) ==> q in nodes && nodes[q] == Dir
    ensures MakeDirs(nodes, faults, p) == FsOk(nodes)
  {
  }

  /**
   The id is not checked for existence: a second upload read at the same clock
   value, after a first one that reached the command, reuses the job's directories
   and overwrites `input.mp3`, changing nothing else, and runs the command again.
   */
  lemma ResubmissionOverwritesInput(nodes: map<string, Node>, faults: map<string, string>,
                                    first: Bytes, second: Bytes, now: nat, cwd: string,
                                    w1: WorkerOutcome, w2: WorkerOutcome)
    requires Handle(nodes, faults, Form(Upload(first)), now, cwd, w1).command.Some?
    ensures var h1 := Handle(nodes, faults, Form(Upload(first)), now, cwd, w1);
            var h2 := Handle(h1.nodes, faults, Form(Upload(second)), now, cwd, w2);
            && h2.command == h1.command
            && h2.nodes == h1.nodes[JobAt(cwd, now).inputPath := File(second)]
  {
    JobAtNested(cwd, now);
    StoreAgain(nodes, faults, first, second, JobAt(cwd, now), w1, w2);
  }

  // ---------------------------------------------------------------------------
  // The filesystem and the handler as the source runs them, step by step
  // ---------------------------------------------------------------------------

  /** The server's filesystem: its nodes, and the paths whose operations throw (with the message). */
  class FileSystem {
    var nodes: map<string, Node>
    const faults: map<string, string>

    constructor (nodes: map<string, Node>, faults: map<string, string>)
      ensures this.nodes == nodes && this.faults == faults
    {
      this.nodes := nodes;
      this.faults := faults;
    }

    /** `mkdir(p, { recursive: true })`. */
    method Mkdir(p: string) returns (error: Option<Thrown>)
      modifies this
      ensures var r := MakeDirs(old(nodes), faults, p);
              && (error.None? <==> r.FsOk?)
              && (r.FsOk? ==> nodes == r.nodes)
              && (r.FsFailed? ==> nodes == old(nodes) && error == Some(r.thrown))
    {
      var r := MakeDirs(nodes, faults, p);
      if r.FsOk? {
        nodes := r.nodes;
        error := None;
      } else {
        error := Some(r.thrown);
      }
    }

    /** `writeFile(p, data)`. */
    method Write(p: string, data: Bytes) returns (error: Option<Thrown>)
      modifies this
      ensures var r := WriteFile(old(nodes), faults, p, data);
              && (error.None? <==> r.FsOk?)
              && (r.FsOk? ==> nodes == r.nodes)
              && (r.FsFailed? ==> nodes == old(nodes) && error == Some(r.thrown))
    {
      var r := WriteFile(nodes, faults, p, data);
      if r.FsOk? {
        nodes := r.nodes;
        error := None;
      } else {
        error := Some(r.thrown);
      }
    }
  }

  /**
   `POST`: handles one submission at clock reading `now`, in working directory
   `cwd`, where the separation command ends with `worker`. Returns the response and
   the command line it ran, if it ran one.
   */
  method Post(fs: FileSystem, request: Request, now: nat, cwd: string, worker: WorkerOutcome)
    returns (response: Response, command: Option<string>)
    modifies fs
    ensures Handled(response, command, fs.nodes) == Handle(old(fs.nodes), fs.faults, request, now, cwd, worker)
  {
    command := None;
    if request.Unreadable? {
      response := ProcessingFailure(request.thrown);
      return;
    }
    var file := request.audio;
    if !Present(file) {
      response := Rejected(400, NoFileMessage, None);
      return;
    }

    var jobId := JobId(now);
    var uploadDir := Join(UploadsRoot(cwd), jobId);
    var outputDir := Join(uploadDir, "output");
    var inputPath := Join(uploadDir, "input.mp3");

    var error := fs.Mkdir(uploadDir);
    if error.Some? {
      response := ProcessingFailure(error.value);
      return;
    }
    error := fs.Mkdir(outputDir);
    if error.Some? {
      response := ProcessingFailure(error.value);
      return;
    }
    if !file.Upload? {
      response := ProcessingFailure(ErrorValue(NotAFileMessage));
      return;
    }
    error := fs.Write(inputPath, file.bytes);
    if error.Some? {
      response := ProcessingFailure(error.value);
      return;
    }

    command := Some(DemucsCommand(inputPath, outputDir));
    match worker {
      case Succeeded =>
        response := Separated(jobId, VocalsUrl(jobId), InstrumentalUrl(jobId));
      case Failed(t) =>
        response := Rejected(500, WorkerFailedMessage, Some(Details(t)));
    }
  }
}
