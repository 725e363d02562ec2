# Bacalhau executor and configuration accessors, in Dafny

This project models two pieces of a Go job-execution orchestrator.

**Configuration accessors** (`pkg/options/utils.go`). Five functions read one
environment variable and fall back to a typed default. The variable's value is
a parameter; `""` stands for "unset", exactly as `os.Getenv` reports it.
- The string accessor uses any non-empty value.
- The `int` accessor parses the value with `strconv.Atoi` and falls back to
  the default when parsing fails.
- The `uint64` accessor parses with `Atoi` too, but returns 0 on a failed
  parse and converts a negative number with `uint64(i)`, so it wraps around.
- The list accessor splits the value on commas.
- The `bool` accessor parses with `strconv.ParseBool`.

`Atoi`, `ParseBool`, `strings.Split` and `strings.Join` are written out as
Dafny functions that follow Go's documented behaviour
(`gostrconv.dfy`, `gostrings.dfy`). `FormatInt` is the inverse that `Atoi` is
proved against.

**Bacalhau executor** (`pkg/executor/bacalhau/bacalhau.go`). `RunJob` runs
four stages in order, and the first failure ends the run:
1. Submit the job with `bacalhau create` and keep the trimmed job identifier.
2. Create the deal's folder `bacalhau-results/<deal ID>` and copy the results
   into it with `bacalhau get`.
3. Read the job's state with `bacalhau describe`.
4. Check that the job has executions and completed, then build the result.

What the outside world reports at each step is an input:
- a `CreateRun` for the pipe, encode, write, read and wait steps of `create`;
- a function that gives the data-directory folder for a sub-path;
- a flag for `get`;
- a `DescribeRun` holding the exit status and the already decoded job.

`SubmitOutcome`, `FetchOutcome`, `DescribeOutcome`, `Validate` and
`RunJobOutcome` state what each stage returns. The `BacalhauExecutor` class
has one method per helper and one for `RunJob`. Each method works step by step
and is proved equal to its function. The executor's environment is a `const`
field, set in the constructor and read by every command. `RunJob` also returns
the commands it builds, so the model states which backend calls are set up at
all.

## Model

| member | source | states |
|---|---|---|
| `Options.GetDefaultServeOptionString` | pkg/options/utils.go:10-16 | a non-empty value comes back unchanged; an empty one gives the default |
| `Options.GetDefaultServeOptionUint64` | pkg/options/utils.go:18-29 | unset gives the default; set but rejected by Atoi gives 0, not the default; a parsed `i >= 0` gives `i`, a parsed `i < 0` gives `i + 2^64` |
| `Options.ToUint64` | pkg/options/utils.go:24 | Go's `uint64(i)` keeps non-negative values and adds 2^64 to negative ones |
| `Options.MinusOneWraps` | pkg/options/utils.go:22-24 | `"-1"` gives 2^64-1 whatever the default |
| `Options.Uint64ReadsFormattedNumber` | pkg/options/utils.go:18-29 | for any printed integer: its value mod 2^64 inside the 64-bit `int` range, 0 outside it |
| `Options.GetDefaultServeOptionStringArray` | pkg/options/utils.go:31-37 | unset gives the default; otherwise one more piece than commas, no piece holds a comma, and the pieces joined with "," give back the value |
| `Options.StringArrayRoundTrip` | pkg/options/utils.go:31-37 | the value made by joining comma-free pieces comes back as exactly those pieces |
| `Options.GetDefaultServeOptionInt` | pkg/options/utils.go:39-48 | a value Atoi accepts gives the parsed number; unset, malformed and out-of-range values give the default |
| `Options.IntReadsFormattedNumber` | pkg/options/utils.go:39-48 | a printed integer comes back as itself when it fits in 64 bits; otherwise the default comes back |
| `Options.MalformedIntegerAsymmetry` | pkg/options/utils.go:18-48 | for a set value that does not parse, the `int` accessor keeps its default while the `uint64` accessor returns 0 |
| `Options.GetDefaultServeOptionBool` | pkg/options/utils.go:52-62 | the six true spellings give true and the six false spellings give false; any other value, "" included, gives the default |
| `Options.UnsetGivesDefaults` | pkg/options/utils.go:10-62 | with the variable unset, all five accessors return their default |
| `Options.DefaultIgnoredWhenParsed` | pkg/options/utils.go:10-62 | once a set value parses, no accessor depends on its default |
| `GoStrconv.Atoi` | pkg/options/utils.go:22 | "", "+" and "-" are rejected; an accepted value is an optional sign and then digits only; a negative result comes from a leading "-" |
| `GoStrconv.AtoiFormatInt` | pkg/options/utils.go:42 | Atoi reads back every printed integer: as itself inside the signed 64-bit range, as a range error outside it |
| `GoStrconv.AtoiAccepted` | pkg/options/utils.go:42 | every string Atoi accepts is a sign, leading zeros and the shortest digits of the magnitude; negatives need a "-" |
| `GoStrconv.ParseBool` | pkg/options/utils.go:56 | true exactly for 1 t T TRUE true True, false exactly for 0 f F FALSE false False, a syntax error otherwise |
| `GoStrings.Split` | pkg/options/utils.go:34 | the number of pieces is the number of separators plus one, and no piece holds the separator |
| `GoStrings.JoinSplit` | pkg/options/utils.go:34 | joining the pieces of Split with the separator gives back the input |
| `GoStrings.SplitJoin` | pkg/options/utils.go:34 | splitting a join of separator-free pieces gives back the pieces |
| `GoStrings.TrimSpace` | pkg/executor/bacalhau/bacalhau.go:117 | the result neither starts nor ends with white space; it is a slice of the input with only white space around it |
| `GoStrings.TrimSpaceIdempotent` | pkg/executor/bacalhau/bacalhau.go:117 | trimming twice is the same as trimming once |
| `GoStrings.TrimSpaceEmpty` | pkg/executor/bacalhau/bacalhau.go:117 | trimming gives "" exactly when the input is all white space |
| `Bacalhau.EnvOverlay` | pkg/executor/bacalhau/bacalhau.go:30 | the inherited entries come first, unchanged and in order, followed by one entry that sets `BACALHAU_API_HOST` to the host |
| `Bacalhau.LookupEnv` | pkg/executor/bacalhau/bacalhau.go:86 | a variable is missing exactly when no entry sets it; otherwise its value is the one from the last entry that sets it, as `os/exec` keeps the last duplicate |
| `Bacalhau.BacalhauExecutor.constructor` | pkg/executor/bacalhau/bacalhau.go:29-35 | the environment is the inherited one followed by `BACALHAU_API_HOST=<ApiHost>` |
| `Bacalhau.OverlaySetsApiHost` | pkg/executor/bacalhau/bacalhau.go:30 | a child process sees the configured API host, even when the inherited environment already set the variable |
| `Bacalhau.OverlayKeepsOtherVariables` | pkg/executor/bacalhau/bacalhau.go:30 | every other variable keeps its inherited value |
| `Bacalhau.FirstFailedFrom` | pkg/executor/bacalhau/bacalhau.go:87-115 | finds the first failing step of the submission; every earlier step succeeded |
| `Bacalhau.SubmitOutcome` | pkg/executor/bacalhau/bacalhau.go:75-120 | success exactly when all six submission steps succeed; the identifier is the trimmed output, has no surrounding white space and trims to itself; a failure names the deal and the first step that failed, every earlier step having succeeded |
| `Bacalhau.SubmitTrimsNewline` | pkg/executor/bacalhau/bacalhau.go:117 | an identifier printed with a trailing newline comes back without it |
| `Bacalhau.BacalhauExecutor.GetJobID` | pkg/executor/bacalhau/bacalhau.go:75-120 | builds `bacalhau create --id-only --wait -` with the executor's environment and returns what SubmitOutcome describes |
| `Bacalhau.FetchOutcome` | pkg/executor/bacalhau/bacalhau.go:122-142 | success exactly when the folder for `bacalhau-results/<deal ID>` exists and `get` succeeded; the result is that folder; each failure names the deal |
| `Bacalhau.BacalhauExecutor.CopyJobResults` | pkg/executor/bacalhau/bacalhau.go:122-142 | builds `bacalhau get <job> --output-dir <folder>` only once the folder exists, and returns what FetchOutcome describes |
| `Bacalhau.JoinPath` | pkg/executor/bacalhau/bacalhau.go:123 | `filepath.Join` of two elements without cleaning: the directory when the name is empty, otherwise the directory, one `/` and the name |
| `Bacalhau.ResultsSubpath` | pkg/executor/bacalhau/bacalhau.go:123 | a deal's sub-path is `bacalhau-results`, a `/` and the deal ID |
| `Bacalhau.ResultsSubpathInjective` | pkg/executor/bacalhau/bacalhau.go:123 | a plain deal ID's folder is `bacalhau-results/<ID>`; distinct deal IDs get distinct folders |
| `Bacalhau.DescribeOutcome` | pkg/executor/bacalhau/bacalhau.go:144-164 | success exactly when `describe` exits cleanly and its output decodes; otherwise a call error or a decode error, naming the deal |
| `Bacalhau.BacalhauExecutor.GetJobState` | pkg/executor/bacalhau/bacalhau.go:144-164 | builds `bacalhau describe <job>` with the executor's environment and returns what DescribeOutcome describes |
| `Bacalhau.StateString` | pkg/executor/bacalhau/bacalhau.go:61 | every state's name is non-empty, and the name is "Completed" exactly for the completed state |
| `Bacalhau.StateStringInjective` | pkg/executor/bacalhau/bacalhau.go:61 | distinct states get distinct names, so the "did not complete" error identifies the state |
| `Bacalhau.Validate` | pkg/executor/bacalhau/bacalhau.go:56-69 | success exactly when there is an execution and the state is Completed; an empty list is "no executions" whatever the state; otherwise "did not complete" with the job ID and state name; a result's fields are the folder, the first execution's CID and 1 |
| `Bacalhau.RunJobOutcome` | pkg/executor/bacalhau/bacalhau.go:37-72 | a failed submission is the error returned; a result needs the submission, the fetch and the describe call to succeed; its ResultsDir is the fetched folder and its InstructionCount is 1 |
| `Bacalhau.CommandsBuilt` | pkg/executor/bacalhau/bacalhau.go:41-54 | `create` is always built; `get` is built only after a submission that succeeded and a folder that exists; `describe` only after `get` succeeded; every command carries the same environment |
| `Bacalhau.BacalhauExecutor.RunJob` | pkg/executor/bacalhau/bacalhau.go:37-72 | returns what RunJobOutcome describes and builds the commands CommandsBuilt lists, all with the executor's environment |
| `Bacalhau.RunJobSucceedsIff` | pkg/executor/bacalhau/bacalhau.go:41-72 | a result comes back exactly when every submission step, the folder, the copy, the describe call and the decoding succeed, the job has at least one execution and it completed |
| `Bacalhau.RunJobResultFields` | pkg/executor/bacalhau/bacalhau.go:65-69 | a result's ResultsDir is the fetched folder, its ResultsCID is the first execution's CID, and its InstructionCount is 1 |
| `Bacalhau.RunJobCommandsStopAtFailure` | pkg/executor/bacalhau/bacalhau.go:41-54 | after a failed submission only `create` is built; after a failed fetch `describe` is not built; a result needs all three commands |
| `Bacalhau.SubmitFailureStopsRunJob` | pkg/executor/bacalhau/bacalhau.go:41-44 | a failed submission is the error returned, whatever fetch and describe would have reported |
| `Bacalhau.FetchFailureStopsRunJob` | pkg/executor/bacalhau/bacalhau.go:46-49 | a failed fetch is the error returned, whatever describe would have reported |
| `Bacalhau.DescribeFailureStopsRunJob` | pkg/executor/bacalhau/bacalhau.go:51-54 | a failed describe is the error returned, before any validation |
| `Bacalhau.NoExecutionsCheckedFirst` | pkg/executor/bacalhau/bacalhau.go:56-62 | an empty execution list is reported as "no executions found" for the job, even when the state is a failure |
| `Bacalhau.NotCompletedReportsState` | pkg/executor/bacalhau/bacalhau.go:60-62 | a job with executions that did not complete is reported with its identifier and the name of its state |
| `Bacalhau.UnstartedCreate` | pkg/executor/bacalhau/bacalhau.go:79-115 | as written, a run that gets past reading standard output reaches `Wait` on a process that was never started, which fails with "exec: not started"; the model lets the write and the read return, which in the code need not happen (see Left out) |
| `Bacalhau.UnstartedRunJobNeverSucceeds` | pkg/executor/bacalhau/bacalhau.go:41-44 | as written, RunJob never yields a result: any run of it that returns at all returns a `getJobID` error, with `create` the only command built |
| `Bacalhau.UnstartedScenarioFails` | pkg/executor/bacalhau/bacalhau.go:112-115 | as written, the end-to-end scenario never gives its result: if the read returned, it would end in the "error waiting for job" failure for deal-42 |
| `Bacalhau.EndToEndScenario` | pkg/executor/bacalhau/bacalhau.go:37-72 | deal "deal-42", job "job-99" and one execution publishing "cid-abc" give `{bacalhau-results/deal-42, cid-abc, 1}` |

## Left out

- Subprocesses. Pipes, writing, reading, `CombinedOutput` and `Wait` are not modelled. Each step's report is an input to the model.
- Process start-up. The model of `getJobID` that the rest of the model uses takes the process as started. The code as written never starts it; see Findings. The model shows that `Wait` then fails. It does not show that, before that, the read of standard output never returns, since the executor still holds the write end of the pipe. Non-termination is how this failure actually shows up, and the model leaves it out.
- UnstartedCreate: does not model blocking. As written, `getJobID` returns only when a pipe cannot be opened (:89, :93) or the job cannot be encoded (:98). Otherwise it blocks in `io.ReadAll` at :107, or already in `stdin.Write` at :101 when the encoded job exceeds the pipe buffer, and never reaches `Wait` at :112. The model lets the write and the read return as reported and shows the not-started error `Wait` would then give. So `UnstartedRunJobNeverSucceeds` and `UnstartedScenarioFails` describe the runs that return, and no run yields a result.
- JSON. Encoding `module.Job` and decoding `bacalhau.JobWithInfo` are not modelled. Their types are defined in packages that are not part of this model. `DescribeRun.parsed` is the decoded value, or None when decoding fails. `CreateRun.marshal` says whether encoding worked. `Module` is carried through unread.
- `system.EnsureDataDir`. It is not part of this model. The data-directory root and the real filesystem are left out. In the model, `EnsureDataDir` is a function from the requested sub-path to a folder or a failure.
- Path cleaning. `filepath.Join` is modelled as `dir + "/" + name`, or `dir` when `name` is empty. The cleaning of ".", ".." and repeated separators is left out, which is why `ResultsSubpathInjective` is stated only for plain deal IDs.
- Ambient process state. `os.Getenv` and `os.Environ` are parameters: the accessors take the variable's value, and the constructor takes the inherited environment.
- `LookupEnv` models the Unix behaviour of `os/exec`: duplicate `KEY=VALUE` entries are removed and the last one is kept. Windows' case-insensitive keys are left out.
- The `fmt.Printf` trace in the bool accessor (pkg/options/utils.go:55) is left out.
- Error text. Each error is a variant that carries the deal ID, or the job ID and state name, that its message is built from. The message wording and the wrapped cause are left out.
- Strings are sequences of Unicode code points. Go's strings are bytes, and invalid UTF-8 in the client's output is not modelled. `Atoi`, `ParseBool` and `TrimSpace` give the same answers on valid text.
- `Atoi`'s return value on a range error (it clamps) is left out. The accessors only test whether an error occurred.
- `JobStateType`. Its definition is not part of this model. `JobStateCompleted` is the only state the code tests. The other variants and their names stand in for the backend's remaining states.
- The code never checks that the job identifier is non-empty, so the model does not require it either: empty output gives an empty identifier.
- Order of stages. The code fetches results before describing the job, and the model follows the code.
- Concurrency and timeouts are left out. The code has neither, and waiting is left to the client's `--wait`.

## Findings

| source | as written | input that shows it | evidently intended | confidence | as-written member | corrected member |
|---|---|---|---|---|---|---|
| pkg/executor/bacalhau/bacalhau.go:79-115 | `getJobID` builds `bacalhau create`, opens its pipes, writes the job, reads standard output and calls `Wait`, but never calls `runCmd.Start()` | deal "deal-42" with every backend report successful (`ScenarioBackend`): as written, RunJob returns no result. It blocks in `io.ReadAll` at :107, because the executor still holds the write end of the stdout pipe. The model lets the read return, and `Wait` at :112 then fails with "exec: not started", giving `CreateFailed(WaitForExit, "deal-42")` | call `runCmd.Start()` after opening the pipes, so that the job is submitted and its identifier read; `RunJob` then succeeds exactly as `RunJobSucceedsIff` states, and the scenario gives `{bacalhau-results/deal-42, cid-abc, 1}` | high; not executed | `Bacalhau.UnstartedRunJobNeverSucceeds` | `Bacalhau.RunJobSucceedsIff` |
