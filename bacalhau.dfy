/**
 * The Bacalhau executor of pkg/executor/bacalhau: it submits a deal's job to
 * the `bacalhau` command-line client, copies the job's published results into
 * a per-deal folder, asks for the job's final state, and turns a completed job
 * into an executor result.
 *
 * The three subprocesses (`bacalhau create`, `bacalhau get`, `bacalhau
 * describe`), the JSON encoding of the job, the JSON decoding of the
 * description and the creation of the local folder are not modelled; what each
 * of them reports is an input (a CreateRun, a folder lookup, a flag, a
 * DescribeRun), and the model decides, from those reports, which commands are
 * built, which error is returned and what result is assembled.
 */
module Bacalhau {
  import opened Wrappers
  import opened GoStrings

  /** Name of the folder, under the data directory, that holds every deal's results. */
  const RESULTS_DIR: string := "bacalhau-results"

  /** The variable through which the client learns which API host to talk to. */
  const API_HOST_VARIABLE: string := "BACALHAU_API_HOST"

  datatype BacalhauExecutorOptions = BacalhauExecutorOptions(ApiHost: string)

  /** A deal, as far as the executor reads it: its identifier. */
  datatype Deal = Deal(ID: string)

  /** The job specification a deal asks to run, handed to the JSON encoder unread. */
  datatype Module = Module(Job: string)

  /** Lifecycle states a job description reports. */
  datatype JobStateType =
    | JobStateUndefined
    | JobStateNew
    | JobStateInProgress
    | JobStateCancelled
    | JobStateError
    | JobStateCompleted
    | JobStateQueued

  /** The state's String(), as it appears in the "did not complete" error. */
  function StateString(s: JobStateType): (name: string)
    ensures name != ""
    ensures name == "Completed" <==> s == JobStateCompleted
  {
    match s
    case JobStateUndefined => "Undefined"
    case JobStateNew => "New"
    case JobStateInProgress => "InProgress"
    case JobStateCancelled => "Cancelled"
    case JobStateError => "Error"
    case JobStateCompleted => "Completed"
    case JobStateQueued => "Queued"
  }

  /** Distinct states have distinct names, so the error tells them apart. */
  lemma StateStringInjective(s: JobStateType, t: JobStateType)
    ensures StateString(s) == StateString(t) ==> s == t
  {
  }

  datatype StorageSpec = StorageSpec(CID: string)

  /** One execution of the job, with the reference of the results it published. */
  datatype ExecutionState = ExecutionState(PublishedResult: StorageSpec)

  datatype JobState = JobState(State: JobStateType, Executions: seq<ExecutionState>)

  /** The decoded output of `bacalhau describe`. */
  datatype JobWithInfo = JobWithInfo(State: JobState)

  /** What the executor hands back for a finished job. */
  datatype ExecutorResults = ExecutorResults(ResultsDir: string, ResultsCID: string, InstructionCount: int)

  /** The steps of submitting a job, in the order the executor takes them. */
  datatype CreateStep = StdinPipe | StdoutPipe | MarshalJob | WriteJob | ReadStdout | WaitForExit

  const CREATE_STEPS: seq<CreateStep> := [StdinPipe, StdoutPipe, MarshalJob, WriteJob, ReadStdout, WaitForExit]

  /** The errors RunJob can return, each with the identifier it is attributed to. */
  datatype RunError =
    | CreateFailed(step: CreateStep, dealID: string)
    | ResultsFolderFailed(dealID: string)
    | CopyResultsFailed(dealID: string)
    | DescribeCallFailed(dealID: string)
    | UnmarshalFailed(dealID: string)
    | NoExecutionsFound(jobID: string)
    | DidNotComplete(jobID: string, state: string)

  /**
   * What each step of `bacalhau create` reports: whether the two pipes could be
   * opened, the job encoded and written, what was read from standard output
   * (None when reading failed) and whether waiting for the process succeeded.
   */
  datatype CreateRun = CreateRun(stdinPipe: bool, stdoutPipe: bool, marshal: bool, write: bool,
                                 read: Option<string>, wait: bool)

  /** What `bacalhau describe` reports: whether it exited cleanly, and its output decoded (None when it does not decode). */
  datatype DescribeRun = DescribeRun(exitOk: bool, parsed: Option<JobWithInfo>)

  /**
   * Everything the outside world reports during one RunJob: the submission,
   * the data-folder creation (the folder's path for the sub-path asked for, or
   * None), whether `bacalhau get` succeeded, and the description.
   */
  datatype Backend = Backend(create: CreateRun, ensureDataDir: string -> Option<string>, getOk: bool,
                             describe: DescribeRun)

  /** A subprocess command the executor builds (exec.Command): its argument vector and its environment. */
  datatype Command = Command(Args: seq<string>, Env: seq<string>)

  const CREATE_ARGS: seq<string> := ["bacalhau", "create", "--id-only", "--wait", "-"]

  function GetArgs(jobID: string, resultsDir: string): seq<string>
  {
    ["bacalhau", "get", jobID, "--output-dir", resultsDir]
  }

  function DescribeArgs(jobID: string): seq<string>
  {
    ["bacalhau", "describe", jobID]
  }

  // ---------------------------------------------------------------------------
  // The environment overlay

  /** The executor's environment: the inherited one, then the API host variable. */
  function EnvOverlay(environ: seq<string>, apiHost: string): (env: seq<string>)
    ensures |env| == |environ| + 1 && env[..|environ|] == environ
    ensures Defines(env[|environ|], API_HOST_VARIABLE) && env[|environ|][|API_HOST_VARIABLE| + 1..] == apiHost
  {
    environ + [API_HOST_VARIABLE + "=" + apiHost]
  }

  /** The entry `KEY=VALUE` sets the variable `key`. */
  predicate Defines(entry: string, key: string)
  {
    |entry| > |key| && entry[..|key|] == key && entry[|key|] == '='
  }

  /** `env[i]` is the last entry of `env` that sets `key`. */
  predicate LastDefinition(env: seq<string>, key: string, i: int)
  {
    0 <= i < |env| && Defines(env[i], key) && forall j :: i < j < |env| ==> !Defines(env[j], key)
  }

  /**
   * The value a child process sees for `key`: os/exec drops duplicate keys
   * and keeps the last entry, so the lookup starts from the end.
   */
  function LookupEnv(env: seq<string>, key: string): (r: Option<string>)
    ensures r.None? <==> forall i :: 0 <= i < |env| ==> !Defines(env[i], key)
    ensures r.Some? ==> exists i :: LastDefinition(env, key, i) && r.value == env[i][|key| + 1..]
  {
    if env == [] then None
    else
      var last := env[|env| - 1];
      if Defines(last, key) then
        assert LastDefinition(env, key, |env| - 1);
        Some(last[|key| + 1..])
      else
        var init := env[..|env| - 1];
        var r := LookupEnv(init, key);
        assert forall i :: 0 <= i < |init| ==> init[i] == env[i];
        assert forall i :: LastDefinition(init, key, i) ==> LastDefinition(env, key, i);
        r
  }

  /** Every command sees the configured host, whatever the inherited environment said. */
  lemma OverlaySetsApiHost(environ: seq<string>, apiHost: string)
    ensures LookupEnv(EnvOverlay(environ, apiHost), API_HOST_VARIABLE) == Some(apiHost)
  {
    var entry := API_HOST_VARIABLE + "=" + apiHost;
    assert entry[..|API_HOST_VARIABLE|] == API_HOST_VARIABLE;
    assert Defines(entry, API_HOST_VARIABLE);
    assert entry[|API_HOST_VARIABLE| + 1..] == apiHost;
  }

  /** Every other variable keeps the value it had in the inherited environment. */
  lemma OverlayKeepsOtherVariables(environ: seq<string>, apiHost: string, key: string)
    requires key != API_HOST_VARIABLE && '=' !in key
    ensures LookupEnv(EnvOverlay(environ, apiHost), key) == LookupEnv(environ, key)
  {
    var env := EnvOverlay(environ, apiHost);
    var entry := API_HOST_VARIABLE + "=" + apiHost;
    assert env[..|env| - 1] == environ;
    assert env[|env| - 1] == entry;
    var n := |API_HOST_VARIABLE|;
    assert forall p :: 0 <= p < n ==> entry[p] == API_HOST_VARIABLE[p] != '=';
    assert entry[n] == '=';
    if |key| < |entry| && entry[|key|] == '=' {
      assert |key| >= n;
      if |key| == n {
        assert entry[..|key|] == API_HOST_VARIABLE != key;
      } else {
        assert key[n] != '=';
        assert entry[..|key|] != key by { assert entry[..|key|][n] == '='; }
      }
    }
    assert !Defines(entry, key);
  }

  // ---------------------------------------------------------------------------
  // The results folder

  /** filepath.Join of two elements, without the path cleaning. */
  function JoinPath(dir: string, name: string): (path: string)
    ensures name == "" ==> path == dir
    ensures name != "" ==> |path| == |dir| + 1 + |name| && path[..|dir|] == dir && path[|dir|] == '/' && path[|dir| + 1..] == name
  {
    if name == "" then dir else dir + "/" + name
  }

  /** A deal identifier that is one path element: not empty, no separator, not `.` or `..`. */
  predicate PlainElement(name: string)
  {
    name != "" && '/' !in name && name != "." && name != ".."
  }

  /** The sub-path of the data directory where a deal's results are copied. */
  function ResultsSubpath(dealID: string): (path: string)
    ensures dealID != "" ==> |path| == |RESULTS_DIR| + 1 + |dealID| && path[..|RESULTS_DIR|] == RESULTS_DIR
    ensures dealID != "" ==> path[|RESULTS_DIR|] == '/' && path[|RESULTS_DIR| + 1..] == dealID
  {
    JoinPath(RESULTS_DIR, dealID)
  }

  /** Distinct deals get distinct results folders, and each lies directly under `bacalhau-results`. */
  lemma ResultsSubpathInjective(a: string, b: string)
    requires PlainElement(a) && PlainElement(b)
    ensures ResultsSubpath(a) == RESULTS_DIR + "/" + a
    ensures ResultsSubpath(a) == ResultsSubpath(b) ==> a == b
  {
    var n := |RESULTS_DIR| + 1;
    if ResultsSubpath(a) == ResultsSubpath(b) {
      assert a == ResultsSubpath(a)[n..];
      assert b == ResultsSubpath(b)[n..];
    }
  }

  // ---------------------------------------------------------------------------
  // What each helper produces, as a function of what the outside world reports

  predicate StepSucceeds(run: CreateRun, step: CreateStep)
  {
    match step
    case StdinPipe => run.stdinPipe
    case StdoutPipe => run.stdoutPipe
    case MarshalJob => run.marshal
    case WriteJob => run.write
    case ReadStdout => run.read.Some?
    case WaitForExit => run.wait
  }

  predicate AllCreateStepsSucceed(run: CreateRun)
  {
    run.stdinPipe && run.stdoutPipe && run.marshal && run.write && run.read.Some? && run.wait
  }

  /** Every step in CREATE_STEPS succeeds exactly when all six reports are successes. */
  lemma AllCreateStepsListed(run: CreateRun)
    ensures AllCreateStepsSucceed(run) <==> forall j :: 0 <= j < |CREATE_STEPS| ==> StepSucceeds(run, CREATE_STEPS[j])
  {
    assert CREATE_STEPS[0] == StdinPipe && CREATE_STEPS[1] == StdoutPipe && CREATE_STEPS[2] == MarshalJob;
    assert CREATE_STEPS[3] == WriteJob && CREATE_STEPS[4] == ReadStdout && CREATE_STEPS[5] == WaitForExit;
  }

  /** Position of the first step, from position `i` on, that fails; |CREATE_STEPS| when none does. */
  function FirstFailedFrom(run: CreateRun, i: nat): (k: nat)
    requires i <= |CREATE_STEPS|
    ensures i <= k <= |CREATE_STEPS|
    ensures k < |CREATE_STEPS| ==> !StepSucceeds(run, CREATE_STEPS[k])
    ensures forall j :: i <= j < k ==> StepSucceeds(run, CREATE_STEPS[j])
    decreases |CREATE_STEPS| - i
  {
    if i == |CREATE_STEPS| || !StepSucceeds(run, CREATE_STEPS[i]) then i else FirstFailedFrom(run, i + 1)
  }

  /**
   * Outcome of getJobID: the error of the first step that fails, attributed to
   * the deal; otherwise what the client printed, without surrounding white space.
   */
  function SubmitOutcome(dealID: string, run: CreateRun): (r: Result<string, RunError>)
    ensures r.Success? <==> AllCreateStepsSucceed(run)
    ensures r.Success? ==> Trimmed(r.value) && TrimSpace(r.value) == r.value
    ensures r.Success? ==> r.value == TrimSpace(run.read.value)
    ensures r.Failure? ==> r.error.CreateFailed? && r.error.dealID == dealID && !StepSucceeds(run, r.error.step)
    ensures r.Failure? ==> FirstFailedFrom(run, 0) < |CREATE_STEPS| && r.error.step == CREATE_STEPS[FirstFailedFrom(run, 0)]
  {
    var k := FirstFailedFrom(run, 0);
    AllCreateStepsListed(run);
    if k < |CREATE_STEPS| then
      Failure(CreateFailed(CREATE_STEPS[k], dealID))
    else
      assert StepSucceeds(run, CREATE_STEPS[4]);
      var id := TrimSpace(run.read.value);
      TrimSpaceIdempotent(run.read.value);
      Success(id)
  }

  /**
   * Outcome of copyJobResults: the folder created for the deal, once the
   * results have been copied into it.
   */
  function FetchOutcome(dealID: string, ensureDataDir: string -> Option<string>, getOk: bool): (r: Result<string, RunError>)
    ensures r.Success? <==> ensureDataDir(ResultsSubpath(dealID)).Some? && getOk
    ensures r.Success? ==> r.value == ensureDataDir(ResultsSubpath(dealID)).value
    ensures ensureDataDir(ResultsSubpath(dealID)).None? ==> r == Failure(ResultsFolderFailed(dealID))
    ensures ensureDataDir(ResultsSubpath(dealID)).Some? && !getOk ==> r == Failure(CopyResultsFailed(dealID))
  {
    match ensureDataDir(ResultsSubpath(dealID))
    case None => Failure(ResultsFolderFailed(dealID))
    case Some(dir) => if getOk then Success(dir) else Failure(CopyResultsFailed(dealID))
  }

  /** Outcome of getJobState: the decoded description, or why there is none. */
  function DescribeOutcome(dealID: string, run: DescribeRun): (r: Result<JobWithInfo, RunError>)
    ensures r.Success? <==> run.exitOk && run.parsed.Some?
    ensures r.Success? ==> r.value == run.parsed.value
    ensures !run.exitOk ==> r == Failure(DescribeCallFailed(dealID))
    ensures run.exitOk && run.parsed.None? ==> r == Failure(UnmarshalFailed(dealID))
  {
    if !run.exitOk then Failure(DescribeCallFailed(dealID))
    else match run.parsed
      case None => Failure(UnmarshalFailed(dealID))
      case Some(job) => Success(job)
  }

  /**
   * The checks RunJob makes on the description, in their order, and the
   * result it assembles when they pass.
   */
  function Validate(jobID: string, resultsDir: string, job: JobWithInfo): (r: Result<ExecutorResults, RunError>)
    ensures r.Success? <==> |job.State.Executions| > 0 && job.State.State == JobStateCompleted
    ensures |job.State.Executions| == 0 ==> r == Failure(NoExecutionsFound(jobID))
    ensures |job.State.Executions| > 0 && job.State.State != JobStateCompleted ==>
              r == Failure(DidNotComplete(jobID, StateString(job.State.State)))
    ensures r.Success? ==>
              r.value == ExecutorResults(resultsDir, job.State.Executions[0].PublishedResult.CID, 1)
  {
    if |job.State.Executions| <= 0 then
      Failure(NoExecutionsFound(jobID))
    else if job.State.State != JobStateCompleted then
      Failure(DidNotComplete(jobID, StateString(job.State.State)))
    else
      Success(ExecutorResults(resultsDir, job.State.Executions[0].PublishedResult.CID, 1))
  }

  /** What RunJob returns: the first error in submit, fetch, describe, validate order, or the result. */
  function RunJobOutcome(deal: Deal, b: Backend): (r: Result<ExecutorResults, RunError>)
    ensures SubmitOutcome(deal.ID, b.create).Failure? ==> r == Failure(SubmitOutcome(deal.ID, b.create).error)
    ensures r.Success? ==> && SubmitOutcome(deal.ID, b.create).Success?
                           && FetchOutcome(deal.ID, b.ensureDataDir, b.getOk).Success?
                           && DescribeOutcome(deal.ID, b.describe).Success?
    ensures r.Success? ==> r.value.ResultsDir == FetchOutcome(deal.ID, b.ensureDataDir, b.getOk).value
                           && r.value.InstructionCount == 1
  {
    match SubmitOutcome(deal.ID, b.create)
    case Failure(e) => Failure(e)
    case Success(id) =>
      match FetchOutcome(deal.ID, b.ensureDataDir, b.getOk)
      case Failure(e) => Failure(e)
      case Success(dir) =>
        match DescribeOutcome(deal.ID, b.describe)
        case Failure(e) => Failure(e)
        case Success(job) => Validate(id, dir, job)
  }

  /**
   * The commands RunJob builds, given how the submission went and which
   * folder the data directory returned: `create` always, `get` once the job
   * is submitted and its folder exists, `describe` once `get` has succeeded.
   * Every one of them carries the same environment.
   */
  function CommandsBuilt(submitted: Result<string, RunError>, folder: Option<string>, getOk: bool, env: seq<string>)
    : (cs: seq<Command>)
    ensures 1 <= |cs| <= 3
    ensures forall i :: 0 <= i < |cs| ==> cs[i].Env == env
    ensures cs[0].Args == CREATE_ARGS
    ensures |cs| >= 2 <==> submitted.Success? && folder.Some?
    ensures |cs| >= 2 ==> cs[1].Args == GetArgs(submitted.value, folder.value)
    ensures |cs| == 3 <==> submitted.Success? && folder.Some? && getOk
    ensures |cs| == 3 ==> cs[2].Args == DescribeArgs(submitted.value)
  {
    var create := Command(CREATE_ARGS, env);
    if submitted.Failure? || folder.None? then [create]
    else
      var get := Command(GetArgs(submitted.value, folder.value), env);
      if getOk then [create, get, Command(DescribeArgs(submitted.value), env)] else [create, get]
  }

  // ---------------------------------------------------------------------------
  // The executor

  class BacalhauExecutor {
    const Options: BacalhauExecutorOptions
    /** Written once here and shared, unchanged, by every command the executor builds. */
    const bacalhauEnv: seq<string>

    /** NewBacalhauExecutor, with the inherited process environment passed in. */
    constructor (options: BacalhauExecutorOptions, environ: seq<string>)
      ensures Options == options
      ensures bacalhauEnv == EnvOverlay(environ, options.ApiHost)
    {
      Options := options;
      bacalhauEnv := EnvOverlay(environ, options.ApiHost);
    }

    /**
     * getJobID as intended, with the process started: builds `bacalhau create`,
     * feeds it the job and reads back the identifier. See UnstartedCreate for
     * the code as written.
     */
    method GetJobID(deal: Deal, jobModule: Module, run: CreateRun) returns (cmd: Command, id: Result<string, RunError>)
      ensures cmd == Command(CREATE_ARGS, bacalhauEnv)
      ensures id == SubmitOutcome(deal.ID, run)
    {
      cmd := Command(CREATE_ARGS, bacalhauEnv);
      if !run.stdinPipe {
        return cmd, Failure(CreateFailed(StdinPipe, deal.ID));
      }
      if !run.stdoutPipe {
        return cmd, Failure(CreateFailed(StdoutPipe, deal.ID));
      }
      if !run.marshal {
        return cmd, Failure(CreateFailed(MarshalJob, deal.ID));
      }
      if !run.write {
        return cmd, Failure(CreateFailed(WriteJob, deal.ID));
      }
      // Closing standard input reports nothing the executor looks at.
      if run.read.None? {
        return cmd, Failure(CreateFailed(ReadStdout, deal.ID));
      }
      var output := run.read.value;
      if !run.wait {
        return cmd, Failure(CreateFailed(WaitForExit, deal.ID));
      }
      id := Success(TrimSpace(output));
    }

    /** copyJobResults: creates the deal's results folder and has `bacalhau get` fill it. */
    method CopyJobResults(dealID: string, jobID: string, ensureDataDir: string -> Option<string>, getOk: bool)
      returns (cmd: Option<Command>, resultsDir: Result<string, RunError>)
      ensures resultsDir == FetchOutcome(dealID, ensureDataDir, getOk)
      ensures cmd.Some? <==> ensureDataDir(ResultsSubpath(dealID)).Some?
      ensures cmd.Some? ==> cmd.value == Command(GetArgs(jobID, ensureDataDir(ResultsSubpath(dealID)).value), bacalhauEnv)
    {
      var dir := ensureDataDir(ResultsSubpath(dealID));
      if dir.None? {
        return None, Failure(ResultsFolderFailed(dealID));
      }
      cmd := Some(Command(GetArgs(jobID, dir.value), bacalhauEnv));
      if !getOk {
        return cmd, Failure(CopyResultsFailed(dealID));
      }
      resultsDir := Success(dir.value);
    }

    /** getJobState: runs `bacalhau describe` and decodes what it prints. */
    method GetJobState(dealID: string, jobID: string, run: DescribeRun) returns (cmd: Command, job: Result<JobWithInfo, RunError>)
      ensures cmd == Command(DescribeArgs(jobID), bacalhauEnv)
      ensures job == DescribeOutcome(dealID, run)
    {
      cmd := Command(DescribeArgs(jobID), bacalhauEnv);
      if !run.exitOk {
        return cmd, Failure(DescribeCallFailed(dealID));
      }
      if run.parsed.None? {
        return cmd, Failure(UnmarshalFailed(dealID));
      }
      job := Success(run.parsed.value);
    }

    /**
     * RunJob: submit, fetch, describe, validate. Returns what RunJobOutcome
     * describes, and the commands it built, in order: `create` always, `get`
     * once the job is submitted and its folder exists, `describe` once the
     * results are copied. All of them carry the executor's environment.
     */
    method RunJob(deal: Deal, jobModule: Module, b: Backend) returns (r: Result<ExecutorResults, RunError>, commands: seq<Command>)
      ensures r == RunJobOutcome(deal, b)
      ensures commands == CommandsBuilt(SubmitOutcome(deal.ID, b.create), b.ensureDataDir(ResultsSubpath(deal.ID)),
                                         b.getOk, bacalhauEnv)
    {
      var createCmd, id := GetJobID(deal, jobModule, b.create);
      commands := [createCmd];
      if id.Failure? {
        return Failure(id.error), commands;
      }

      var getCmd, resultsDir := CopyJobResults(deal.ID, id.value, b.ensureDataDir, b.getOk);
      if getCmd.Some? {
        commands := [createCmd, getCmd.value];
      }
      if resultsDir.Failure? {
        return Failure(resultsDir.error), commands;
      }

      var describeCmd, jobState := GetJobState(deal.ID, id.value, b.describe);
      commands := [createCmd, getCmd.value, describeCmd];
      if jobState.Failure? {
        return Failure(jobState.error), commands;
      }

      var job := jobState.value;
      if |job.State.Executions| <= 0 {
        return Failure(NoExecutionsFound(id.value)), commands;
      }
      if job.State.State != JobStateCompleted {
        return Failure(DidNotComplete(id.value, StateString(job.State.State))), commands;
      }
      r := Success(ExecutorResults(resultsDir.value, job.State.Executions[0].PublishedResult.CID, 1));
    }
  }

  // ---------------------------------------------------------------------------
  // Properties of RunJob

  /**
   * RunJob yields a result exactly when every step of the submission succeeds,
   * the results folder is created and filled, the description is read and
   * decoded, it lists at least one execution and the job completed.
   */
  lemma RunJobSucceedsIff(deal: Deal, b: Backend)
    ensures RunJobOutcome(deal, b).Success? <==>
              && AllCreateStepsSucceed(b.create)
              && b.ensureDataDir(ResultsSubpath(deal.ID)).Some? && b.getOk
              && b.describe.exitOk && b.describe.parsed.Some?
              && |b.describe.parsed.value.State.Executions| > 0
              && b.describe.parsed.value.State.State == JobStateCompleted
  {
  }

  /**
   * A result takes its CID from the first execution, its folder from the
   * fetch step and counts one instruction.
   */
  lemma RunJobResultFields(deal: Deal, b: Backend)
    requires RunJobOutcome(deal, b).Success?
    ensures RunJobOutcome(deal, b).value ==
              ExecutorResults(b.ensureDataDir(ResultsSubpath(deal.ID)).value,
                              b.describe.parsed.value.State.Executions[0].PublishedResult.CID,
                              1)
  {
  }

  /**
   * The commands RunJob builds stop at the first failure: only `create` after
   * a failed submission, no `describe` after a failed fetch, all three when
   * RunJob yields a result.
   */
  lemma RunJobCommandsStopAtFailure(deal: Deal, b: Backend, env: seq<string>)
    ensures var cs := CommandsBuilt(SubmitOutcome(deal.ID, b.create), b.ensureDataDir(ResultsSubpath(deal.ID)), b.getOk, env);
            && (SubmitOutcome(deal.ID, b.create).Failure? ==> |cs| == 1)
            && (FetchOutcome(deal.ID, b.ensureDataDir, b.getOk).Failure? ==> |cs| <= 2)
            && (RunJobOutcome(deal, b).Success? ==> |cs| == 3)
  {
  }

  /** A failed submission is returned as it is, whatever fetching and describing would have reported. */
  lemma SubmitFailureStopsRunJob(deal: Deal, b: Backend, other: Backend)
    requires SubmitOutcome(deal.ID, b.create).Failure? && other.create == b.create
    ensures RunJobOutcome(deal, b) == RunJobOutcome(deal, other) == Failure(SubmitOutcome(deal.ID, b.create).error)
  {
  }

  /** A failed fetch is returned as it is, whatever describing would have reported. */
  lemma FetchFailureStopsRunJob(deal: Deal, b: Backend, describe: DescribeRun)
    requires SubmitOutcome(deal.ID, b.create).Success?
    requires FetchOutcome(deal.ID, b.ensureDataDir, b.getOk).Failure?
    ensures RunJobOutcome(deal, b) == RunJobOutcome(deal, b.(describe := describe))
              == Failure(FetchOutcome(deal.ID, b.ensureDataDir, b.getOk).error)
  {
  }

  /** A failed description is returned as it is; no validation error replaces it. */
  lemma DescribeFailureStopsRunJob(deal: Deal, b: Backend)
    requires SubmitOutcome(deal.ID, b.create).Success?
    requires FetchOutcome(deal.ID, b.ensureDataDir, b.getOk).Success?
    requires DescribeOutcome(deal.ID, b.describe).Failure?
    ensures RunJobOutcome(deal, b) == Failure(DescribeOutcome(deal.ID, b.describe).error)
  {
  }

  /**
   * An empty execution list is reported as such, with the job identifier,
   * whatever state the job is in -- a failed job included.
   */
  lemma NoExecutionsCheckedFirst(deal: Deal, b: Backend)
    requires AllCreateStepsSucceed(b.create)
    requires b.ensureDataDir(ResultsSubpath(deal.ID)).Some? && b.getOk
    requires b.describe.exitOk && b.describe.parsed.Some?
    requires b.describe.parsed.value.State.Executions == []
    ensures RunJobOutcome(deal, b) == Failure(NoExecutionsFound(TrimSpace(b.create.read.value)))
  {
  }

  /** A job with executions that did not complete is reported with its identifier and its state's name. */
  lemma NotCompletedReportsState(deal: Deal, b: Backend)
    requires AllCreateStepsSucceed(b.create)
    requires b.ensureDataDir(ResultsSubpath(deal.ID)).Some? && b.getOk
    requires b.describe.exitOk && b.describe.parsed.Some?
    requires |b.describe.parsed.value.State.Executions| > 0
    requires b.describe.parsed.value.State.State != JobStateCompleted
    ensures RunJobOutcome(deal, b) ==
              Failure(DidNotComplete(TrimSpace(b.create.read.value), StateString(b.describe.parsed.value.State.State)))
  {
  }

  /** The job identifier is what `bacalhau create` printed, without its trailing newline. */
  lemma SubmitTrimsNewline(dealID: string, id: string)
    requires id != [] && Trimmed(id)
    ensures SubmitOutcome(dealID, CreateRun(true, true, true, true, Some(id + "\n"), true)) == Success(id)
  {
    var out := id + "\n";
    assert out[..|out| - 1] == id;
    assert TrailingSpaces(id) == 0;
    assert TrailingSpaces(out) == 1;
    assert LeadingSpaces(out) == 0;
  }

  /** The stubbed outside world of the end-to-end scenario below. */
  function ScenarioBackend(): Backend
  {
    Backend(CreateRun(true, true, true, true, Some("job-99\n"), true),
            p => Some(p), true,
            DescribeRun(true, Some(JobWithInfo(JobState(JobStateCompleted, [ExecutionState(StorageSpec("cid-abc"))])))))
  }

  /**
   * Deal "deal-42" whose submission prints "job-99", a data directory that
   * returns the folder asked for, a successful copy, and a completed job with
   * one execution published as "cid-abc": the result is the folder
   * bacalhau-results/deal-42, that CID and one instruction.
   */
  lemma EndToEndScenario()
    ensures RunJobOutcome(Deal("deal-42"), ScenarioBackend())
              == Success(ExecutorResults("bacalhau-results/deal-42", "cid-abc", 1))
  {
    var b := ScenarioBackend();
    ScenarioSubmit();
    var dir := ResultsSubpath("deal-42");
    assert FetchOutcome("deal-42", b.ensureDataDir, b.getOk) == Success(dir);
    assert dir == "bacalhau-results/deal-42";
  }

  lemma ScenarioSubmit()
    ensures SubmitOutcome("deal-42", ScenarioBackend().create) == Success("job-99")
  {
    assert "job-99\n" == "job-99" + "\n";
    SubmitTrimsNewline("deal-42", "job-99");
  }

  // ---------------------------------------------------------------------------
  // getJobID as written never starts its process

  /**
   * The submission as getJobID is written: `runCmd.Start()` is never called
   * between opening the pipes and `runCmd.Wait()`. Past the pipes and the
   * encoding, the code then blocks in the read of standard output, whose write
   * end the executor itself still holds, and never reaches Wait. The model
   * lets the write and the read return as reported and records what Wait would
   * then report: that the process was not started.
   */
  function UnstartedCreate(run: CreateRun): (w: CreateRun)
    ensures !w.wait
    ensures w.(wait := run.wait) == run
  {
    run.(wait := false)
  }

  /**
   * As written, RunJob never yields a result: every run that returns at all
   * (the model lets the read return) returns a submission error, and `create`
   * is the only command it builds.
   */
  lemma UnstartedRunJobNeverSucceeds(deal: Deal, b: Backend, env: seq<string>)
    ensures var w := b.(create := UnstartedCreate(b.create));
            && RunJobOutcome(deal, w).Failure?
            && RunJobOutcome(deal, w).error.CreateFailed?
            && |CommandsBuilt(SubmitOutcome(deal.ID, w.create), w.ensureDataDir(ResultsSubpath(deal.ID)), w.getOk, env)| == 1
  {
  }

  /**
   * The end-to-end scenario as written: where the code with its process
   * started yields the result of EndToEndScenario, the code as written blocks
   * in the read; if the read returned, Wait's not-started error would follow.
   */
  lemma UnstartedScenarioFails()
    ensures RunJobOutcome(Deal("deal-42"), ScenarioBackend().(create := UnstartedCreate(ScenarioBackend().create)))
              == Failure(CreateFailed(WaitForExit, "deal-42"))
  {
    var w := UnstartedCreate(ScenarioBackend().create);
    assert FirstFailedFrom(w, 0) == 5;
  }
}
