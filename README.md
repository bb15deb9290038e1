# Karaoke job lifecycle, modelled in Dafny

This project models two pieces of job-lifecycle logic of the karaoke
stem-separation app. Each job is a directory under `public/uploads`.

- **The maintenance sweep** (`scripts/cleanup.js`, module `Sweep` in
  `sweep.dfy`). The sweep reads the clock once and lists the uploads root. It
  removes every top-level entry whose modification time is more than one hour
  (3 600 000 ms) before that instant. It never removes the entry named
  `DEMO_SAMPLE_ID`. A removal that throws is caught for that entry alone, and
  the sweep goes on. A `stat` that throws is not caught, so it ends the run, and
  so does a listing that throws (the path exists but is a plain file or cannot
  be read). The uploads directory is a class, `UploadsDir`, that holds a map
  from entry name to modification time. Two flags say whether the path exists
  and whether it can be listed. Two sets name the entries whose removal throws
  and the entries whose `stat` throws. `Sweep` is a loop over the listing. It is proved
  equal to the reference fold `Examine`. Lemmas then give `Examine`'s closed
  form: which entries survive, what a `stat` failure leaves unexamined, and the
  age boundary.
- **Job submission** (`src/app/api/separate/route.ts`). The pure parts are in
  module `Layout` (`layout.dfy`):
  - the job id, which is the decimal rendering of the millisecond clock reading;
  - the directory layout `cwd/public/uploads/{id}`, `…/output` and `…/input.mp3`;
  - the separation command line;
  - the stem URLs of the success response.

  The handler `POST` is in module `Submit` (`submit.dfy`). It is a method over
  a `FileSystem` object that holds a map from paths to nodes. It runs the steps
  in the source's order: `mkdir`, `mkdir`, `writeFile`, then the command. Its
  new state and its response are proved equal to the reference function
  `Handle`. Lemmas about `Handle` state:
  - the 400 case;
  - the order of effects;
  - how outcomes map to responses;
  - that nothing is removed;
  - that a second submission with the same id reuses the job's directories.

The clock reading, the working directory, the listing order and the
separation worker's outcome are all parameters. The worker's outcome is
either success or failure with a thrown value. Filesystem failures are
injected: a set of failing names for the sweep, and a map from faulty path to
error message for the handler.

Some behaviour follows from the handler's `!file` test:
- An absent `audio` field or an empty text value gets 400 `No file provided`.
- A non-empty text value passes the test. The handler then creates both
  directories and only fails when it reads the value as a file. The result is
  500 `Failed to process audio`, and the directories stay behind.

The command passes `--mp3`, which asks the worker for mp3 output. The success
response still names fixed `.wav` paths (`Layout.UrlsAreNotMp3Output`). The
submitting page uses only the returned id.

## Model

| member | source | states |
|---|---|---|
| `Sweep.UploadsDir.Sweep` | scripts/cleanup.js:7-34 | If the uploads path is missing, it returns without touching anything. If the path exists but its listing throws, the run ends with `ListFailed` and nothing is touched. Otherwise the new entries and the outcome are exactly those of the in-order fold `Examine` over the listing, with every age measured against the single `now`. |
| `Sweep.Expired` | scripts/cleanup.js:23-25 | An entry is expired when `now` minus its modification time is strictly more than one hour. |
| `Sweep.Removed` | scripts/cleanup.js:19-31 | The sweep removes a name exactly when it is not the demo entry, it is expired, and its removal does not throw. |
| `Sweep.Examine` | scripts/cleanup.js:18-33 | The sweep only removes entries. Every survivor keeps its modification time, and the demo entry always survives. |
| `Sweep.Survivors` | scripts/cleanup.js:18-33 | The closed form of the sweep: the entries left after examining a set of names are all entries except the examined ones that are not the demo entry, are more than one hour old and whose removal does not throw. Each keeps its modification time. |
| `Sweep.ExaminePrefix` | scripts/cleanup.js:18-33 | After `k` statable names, the sweep's state is the closed-form survivor map over those names. The rest of the listing is still to be examined. |
| `Sweep.SweepSurvivors` | scripts/cleanup.js:15-33 | A full sweep completes. An entry survives if and only if it is the demo entry, is not more than one hour old, or its removal failed. Survivors are unchanged. |
| `Sweep.StatFailureEndsSweep` | scripts/cleanup.js:21-23 | A `stat` failure at position `k` ends the sweep with that name. Only the names before `k` have been examined, and every later entry is untouched. |
| `Sweep.BoundaryEntriesKept` | scripts/cleanup.js:5-25 | An entry exactly one hour old survives, and so does one with a future modification time. The demo entry survives at any age. |
| `Sweep.FailedRemovalIsolated` | scripts/cleanup.js:25-32 | When every non-demo entry is expired, the survivors are exactly the demo entry and the entries whose removal threw, wherever those stand in the listing. |
| `Sweep.ThreeJobScenario` | scripts/cleanup.js:5-33 | With entries aged 30 min, 90 min and 10 days plus the demo entry, the sweep removes exactly the 90-min and 10-day entries. |
| `Layout.Decimal` | src/app/api/separate/route.ts:22 | The job id is at least one decimal digit. It has no leading zero unless the clock reading is 0, which renders as `"0"`. |
| `Layout.JobId` | src/app/api/separate/route.ts:22 | The job id is the decimal rendering of the millisecond clock reading. |
| `Layout.DecimalRoundTrip` | src/app/api/separate/route.ts:22 | Reading the rendered id back as a decimal number gives the clock reading. |
| `Layout.JobIdUnique` | src/app/api/separate/route.ts:22 | Two submissions share an id exactly when they read the same clock value. The id holds no `/`, so it names a single directory. |
| `Layout.UploadDir` | src/app/api/separate/route.ts:23 | The job directory is `cwd/public/uploads/{id}`. |
| `Layout.OutputDir` | src/app/api/separate/route.ts:24 | The output directory is `output` inside the job directory. |
| `Layout.InputPath` | src/app/api/separate/route.ts:25 | The input path is `input.mp3` inside the job directory. |
| `Layout.LayoutShape` | src/app/api/separate/route.ts:23-25 | `uploadDir` is `cwd/public/uploads/{id}`, `outputDir` is `uploadDir/output` and `inputPath` is `uploadDir/input.mp3`. Both lie under `uploadDir` and are distinct from it. |
| `Layout.JobTreesDisjoint` | src/app/api/separate/route.ts:22-25 | For jobs with different clock readings, no path of one job lies under the other job's directory. |
| `Layout.JoinWords` | src/app/api/separate/route.ts:55 | `Array.prototype.join(' ')`: the words in order with one space between neighbours, and the empty string for no words. |
| `Layout.DemucsCommand` | src/app/api/separate/route.ts:46-55 | The separation command for an input path and an output directory: the program name, the fixed options, the quoted input path and `-o` with the quoted output directory, joined by spaces. |
| `Layout.CommandText` | src/app/api/separate/route.ts:46-55 | The command is `demucs`, `--two-stems=vocals`, `--mp3`, `--mp3-bitrate=320`, `--mp3-preset=2`, `--filename={track}/{stem}.{ext}`, the double-quoted input path, and `-o` with the double-quoted output directory, in that order and joined by single spaces. |
| `Layout.CommandDeterminesPaths` | src/app/api/separate/route.ts:46-55 | If the input paths contain no double quote, equal command lines have equal input paths and equal output directories. |
| `Layout.VocalsUrl` | src/app/api/separate/route.ts:79 | The vocals URL is `/uploads/{id}/output/htdemucs/input/vocals.wav`. |
| `Layout.InstrumentalUrl` | src/app/api/separate/route.ts:80 | The instrumental URL is `/uploads/{id}/output/htdemucs/input/no_vocals.wav`. |
| `Layout.StemPath` | src/app/api/separate/route.ts:66-67 | Where the handler expects a stem file: `outputDir/htdemucs/input/{file}`. |
| `Layout.UrlsNameStemPaths` | src/app/api/separate/route.ts:66-80 | Served from `cwd/public`, the vocals and instrumental URLs name `outputDir/htdemucs/input/vocals.wav` and `…/no_vocals.wav`. The two URLs differ. |
| `Layout.UrlsAreNotMp3Output` | src/app/api/separate/route.ts:79-80 | Both URLs end in `.wav`. Neither names the `.mp3` file of the same stem under the job's output directory. |
| `Submit.Present` | src/app/api/separate/route.ts:17 | The `!file` test: an absent field or an empty text value fails it; a non-empty text value or an uploaded file passes. |
| `Submit.Details` | src/app/api/separate/route.ts:86-93 | The `details` of an error response: the message of a thrown `Error`, and `Unknown error` for any other thrown value. |
| `Submit.ProcessingFailure` | src/app/api/separate/route.ts:89-94 | The outer handler's response: 500, `Failed to process audio`, and the details of what was thrown. |
| `Submit.JobAt` | src/app/api/separate/route.ts:22-25 | The job of a submission read at clock value `now`: its id, job directory, output directory and input path. |
| `Submit.Handle` | src/app/api/separate/route.ts:9-95 | The handler as a function of the nodes before the request: an unreadable form gives 500 `Failed to process audio` and changes nothing; a field that fails `!file` gives 400 and changes nothing; otherwise the job read at `now` is stored by `Store`. |
| `Submit.Store` | src/app/api/separate/route.ts:33-58 | Storing a job: `mkdir -p` of the job directory, then of the output directory, then reading the field as a file, then `writeFile` of `input.mp3`, then the command. The first step that throws gives 500 `Failed to process audio` with the nodes left by the steps before it (a throwing step itself changes nothing). |
| `Submit.Outcome` | src/app/api/separate/route.ts:58-88 | Once the command has run: a completed command gives the job id and the two stem URLs; a command that threw gives 500 with the Demucs message and the thrown message. |
| `Submit.MakeDirs` | src/app/api/separate/route.ts:34-35 | Recursive `mkdir` succeeds if and only if the path is not faulty and no file stands on its chain. On success, every directory of the chain exists and no existing node changes. |
| `Submit.MakeDirsExisting` | src/app/api/separate/route.ts:34-35 | Recursive `mkdir` of an existing directory chain succeeds and changes nothing. |
| `Submit.WriteFile` | src/app/api/separate/route.ts:40 | `writeFile` succeeds if and only if the path is not faulty and is not a directory. The path then holds the data and no other node changes. |
| `Submit.BadRequestIff` | src/app/api/separate/route.ts:14-19 | Status 400 comes exactly from a parsed form whose `audio` field fails `!file`. The response is `No file provided`, nothing is created and no command runs. |
| `Submit.CommandRunsAfterInputWritten` | src/app/api/separate/route.ts:33-58 | A command runs only for an uploaded file. By then both directories exist and `input.mp3` holds the upload. The command is the one for this job's paths. |
| `Submit.ResponseMapping` | src/app/api/separate/route.ts:58-95 | Success comes if and only if the command ran and completed, with the job id and fixed URLs. A failing command gives 500 with the Demucs message and the thrown message. Any other failure gives 500 `Failed to process audio` with details. |
| `Submit.NothingRemoved` | src/app/api/separate/route.ts:33-95 | No outcome removes a node, and directories stay directories. Only `input.mp3` can change. New nodes are on the job's directory chains or are `input.mp3`. |
| `Submit.ResubmissionOverwritesInput` | src/app/api/separate/route.ts:22-40 | A second upload at the same clock value, after one that reached the command, reuses the directories. It overwrites only `input.mp3` and runs the same command. |
| `Submit.FileSystem.Mkdir` | src/app/api/separate/route.ts:34-35 | The new nodes and the thrown value are those of `MakeDirs`. |
| `Submit.FileSystem.Write` | src/app/api/separate/route.ts:40 | The new nodes and the thrown value are those of `WriteFile`. |
| `Submit.Post` | src/app/api/separate/route.ts:9-96 | Run step by step on the filesystem object, the response, the command run and the new nodes equal `Handle` of the old nodes. |

## Left out

- The web UI (`src/app/page.tsx`, `src/app/results/[id]/page.tsx`), the result-lookup route with its mp3/wav fallback, and the explicit cleanup route: they are outside the modelled core.
- Running the separation tool: it is an opaque outcome (completed, or threw a value). Its stdout and stderr, and the files it writes under `output`, are not modelled.
- The one-second settle delay after the command, console logging, and the `arrayBuffer`/`Buffer` conversion: they have no effect on state or response. The bytes of an uploaded file are its contents.
- The clock, the working directory and the directory-listing order are parameters. `path.join` normalisation is not modelled: paths are strings joined with `/`.
- Filesystem error messages are abstract. Injected faults carry their own message. `mkdir` onto a file and `writeFile` onto a directory use fixed EEXIST, ENOTDIR or EISDIR texts. `writeFile` does not check that the parent directory exists, because the handler always creates it first.
- Layout.UrlsAreNotMp3Output: the file names the worker writes under `--mp3` and `--filename={track}/{stem}.{ext}` come from the worker's own behaviour, which is not modelled; the lemma only compares the `.wav` URLs with the `.mp3` paths of the same stems.
- Sweep.UploadsDir.Sweep: an entry is modelled by its name and modification time. Removing the name stands for removing its whole subtree. A removal that throws is modelled as leaving the entry intact, not as a partial removal.
- Sweep.UploadsDir.Sweep: a `stat` failure is returned as the outcome `StatFailed`, and a listing that throws as `ListFailed`. The uncaught exception that ends the script's process is not modelled, and neither is the error it carries.
- Submit.Store: a throwing `mkdir` or `writeFile` is modelled as changing nothing. Ancestors that a recursive `mkdir` created before it threw, and an `input.mp3` that `writeFile` created or truncated before the write failed, are not modelled.
- Submit.FileSystem.Mkdir: a failing call leaves the nodes unchanged; directories created on the chain before the failure are not modelled.
- Submit.FileSystem.Write: a failing call leaves the nodes unchanged; an empty or partly written file left at the path is not modelled.
- Concurrency between simultaneous submissions, and between the sweep and jobs still running, is not modelled.
