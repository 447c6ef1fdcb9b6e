/**
 * The steps ExecInPod takes once the request is built: create the
 * executor for the request, flush stdout, flush stderr, then stream.
 * Each step is an external call; what it reports is an input, and the
 * steps taken are recorded as a trace. The first failing step ends the
 * run and its error is returned.
 */
module ExecSteps {
  import opened Wrappers
  import opened Pods
  import opened ExecRequests

  /** An error ExecInPod can return. `ExitError` is the remote command's
      non-zero termination with its exit status; `OtherError` is any other
      failure (executor creation, a flush, stream setup or a broken stream). */
  datatype ExecError = ExitError(status: int) | OtherError(message: string)

  /** The options the stream is opened with: which channels are attached
      and whether a terminal is requested. */
  datatype StreamOptions = StreamOptions(stdin: bool, stdout: bool, stderr: bool, tty: bool)

  /** No stdin, stdout and stderr attached, no terminal. */
  const ExecStreamOptions := StreamOptions(false, true, true, false)

  /** One external step of ExecInPod. */
  datatype Step = NewExecutor(request: ExecRequest) | SyncStdout | SyncStderr | Stream(options: StreamOptions)

  /** What each external step reports if it is taken (`None` is success). */
  datatype StepResults = StepResults(
    newExecutor: Option<string>,
    syncStdout: Option<string>,
    syncStderr: Option<string>,
    stream: Option<ExecError>)

  /** The error ExecInPod returns and the steps it took. */
  datatype ExecRun = ExecRun(err: Option<ExecError>, trace: seq<Step>)

  /** All four steps, in the only order they are ever taken. */
  function AllSteps(req: ExecRequest): seq<Step>
  {
    [NewExecutor(req), SyncStdout, SyncStderr, Stream(ExecStreamOptions)]
  }

  /** ExecInPod's steps for a built request, given what each step reports. */
  function Exec(req: ExecRequest, env: StepResults): (r: ExecRun)
    // the steps taken are a non-empty prefix of the fixed order
    ensures 1 <= |r.trace| <= 4 && r.trace == AllSteps(req)[..|r.trace|]
    // a step is taken only when every earlier one succeeded, and a failed
    // step is the last one taken
    ensures |r.trace| == 1 <==> env.newExecutor.Some?
    ensures |r.trace| == 2 <==> env.newExecutor.None? && env.syncStdout.Some?
    ensures |r.trace| == 3 <==> env.newExecutor.None? && env.syncStdout.None? && env.syncStderr.Some?
    // the stream is opened exactly when executor creation and both flushes succeeded
    ensures Stream(ExecStreamOptions) in r.trace <==>
      env.newExecutor.None? && env.syncStdout.None? && env.syncStderr.None?
    // the run stops at the first failure, and reports it
    ensures r.err.None? <==> |r.trace| == 4 && env.stream.None?
    ensures |r.trace| == 1 ==> r.err == Some(OtherError(env.newExecutor.value))
    ensures |r.trace| == 2 ==> r.err == Some(OtherError(env.syncStdout.value))
    ensures |r.trace| == 3 ==> r.err == Some(OtherError(env.syncStderr.value))
    ensures |r.trace| == 4 ==> r.err == env.stream
  {
    if env.newExecutor.Some? then
      ExecRun(Some(OtherError(env.newExecutor.value)), [NewExecutor(req)])
    else if env.syncStdout.Some? then
      ExecRun(Some(OtherError(env.syncStdout.value)), [NewExecutor(req), SyncStdout])
    else if env.syncStderr.Some? then
      ExecRun(Some(OtherError(env.syncStderr.value)), [NewExecutor(req), SyncStdout, SyncStderr])
    else
      ExecRun(env.stream, AllSteps(req))
  }

  /**
   * ExecInPod: build the request, then take the external steps one after
   * the other, recording each in the trace and returning at the first
   * error.
   */
  method ExecInPod(pod: Pod, container: string, commands: seq<string>, env: StepResults)
    returns (err: Option<ExecError>, trace: seq<Step>)
    ensures ExecRun(err, trace) == Exec(ExecRequestFor(pod, container, commands), env)
  {
    var req := BuildExecRequest(pod, container, commands);
    trace := [NewExecutor(req)];
    if env.newExecutor.Some? {
      return Some(OtherError(env.newExecutor.value)), trace;
    }
    trace := trace + [SyncStdout];
    if env.syncStdout.Some? {
      return Some(OtherError(env.syncStdout.value)), trace;
    }
    trace := trace + [SyncStderr];
    if env.syncStderr.Some? {
      return Some(OtherError(env.syncStderr.value)), trace;
    }
    trace := trace + [Stream(ExecStreamOptions)];
    err := env.stream;
  }
}
