/**
 * One run of the tool, as main drives it: check the settings, load the
 * client, select a pod, exec into it, and turn the result into the
 * process's exit. The cluster and the terminal are inputs: whether the
 * client loads, what the list call returns and what each exec step
 * reports. The calls made are recorded in order.
 */
module Invocation {
  import opened Wrappers
  import opened Pods
  import opened ExecRequests
  import opened ExecSteps

  /** A setting main refuses to run without. */
  datatype Setting = Filter | Container

  /** Why the run ended in a fatal log. */
  datatype Failure =
    | ClientFailed(message: string)
    | ListFailure(message: string)
    | NoRunningPod
    | ExecFailed(message: string)

  /** How the process ends. */
  datatype Outcome =
    | Rejected(missing: Setting)   // usage error, logged with glog.Exit
    | Fatal(failure: Failure)      // logged with glog.Fatal
    | Exited(status: int)          // os.Exit with the remote command's status
    | Completed                    // main returns normally

  /** An external call main makes. */
  datatype Call = LoadClient | ListPods(selector: string) | ExecStep(step: Step)

  /** How one run ends and the external calls it made, in order. */
  datatype Run = Run(outcome: Outcome, calls: seq<Call>)

  /** The process exit status of an outcome: glog.Exit exits with 1,
      glog.Fatal with 255, os.Exit with its argument, and a normal return
      from main with 0. */
  function ExitCode(o: Outcome): (code: int)
    ensures o.Rejected? || o.Fatal? ==> code != 0
    ensures o.Completed? ==> code == 0
    ensures o.Exited? ==> code == o.status
  {
    match o
    case Rejected(_) => 1
    case Fatal(_) => 255
    case Exited(status) => status
    case Completed => 0
  }

  /** The exec steps of a trace as calls. */
  function ExecCalls(trace: seq<Step>): (cs: seq<Call>)
  {
    seq(|trace|, i requires 0 <= i < |trace| => ExecStep(trace[i]))
  }

  /**
   * main, given what GetPodByFilter returns (`sel`): the filter, then the
   * container, must be non-empty before anything else happens; a client
   * error, a list error and a nil pod are fatal; the exec error decides
   * how the process ends.
   */
  function Dispatch(filter: string, container: string, commands: seq<string>,
                    client: Option<string>, sel: Selection, env: StepResults): (r: Run)
    // nothing external happens before both settings are checked
    ensures r.calls == [] <==> filter == "" || container == ""
    ensures r.outcome.Rejected? <==> r.calls == []
    // an exec step is taken only for a pod selected without error after the client loaded
    ensures |r.calls| > 2 ==>
      && client.None? && sel.err.None? && sel.pod.Some?
      && r.calls[2] == ExecStep(NewExecutor(ExecRequestFor(sel.pod.value, container, commands)))
    // a normal exit or a remote exit status means the stream ran
    ensures r.outcome.Completed? || r.outcome.Exited? ==>
      |r.calls| == 6 && r.calls[5] == ExecStep(Stream(ExecStreamOptions))
  {
    if filter == "" then Run(Rejected(Filter), [])
    else if container == "" then Run(Rejected(Container), [])
    else if client.Some? then Run(Fatal(ClientFailed(client.value)), [LoadClient])
    else if sel.err.Some? then Run(Fatal(ListFailure(sel.err.value)), [LoadClient, ListPods(filter)])
    else if sel.pod.None? then Run(Fatal(NoRunningPod), [LoadClient, ListPods(filter)])
    else
      var exec := Exec(ExecRequestFor(sel.pod.value, container, commands), env);
      var calls := [LoadClient, ListPods(filter)] + ExecCalls(exec.trace);
      match exec.err
      case None => Run(Completed, calls)
      case Some(ExitError(status)) => Run(Exited(status), calls)
      case Some(OtherError(message)) => Run(Fatal(ExecFailed(message)), calls)
  }

  /** One run of the tool as written: the list result goes through GetPodByFilter. */
  function Invoke(filter: string, container: string, commands: seq<string>,
                  client: Option<string>, list: ListResult, env: StepResults): (r: Run)
    // the "no running pod" failure never occurs
    ensures r.outcome != Fatal(NoRunningPod)
    // any exec goes to the first Running pod, or to the zero pod
    ensures |r.calls| > 2 ==>
      && list.Listed?
      && r.calls[2] == ExecStep(NewExecutor(ExecRequestFor(FirstRunning(list.items), container, commands)))
  {
    Dispatch(filter, container, commands, client, SelectPod(list), env)
  }

  /** One run of the tool with the intended selection, which yields a nil
      pod when no pod is Running. */
  function InvokeIntended(filter: string, container: string, commands: seq<string>,
                          client: Option<string>, list: ListResult, env: StepResults): (r: Run)
    // "no running pod" is reported exactly when a successful list has no Running pod
    ensures r.outcome == Fatal(NoRunningPod) <==>
      filter != "" && container != "" && client.None? && list.Listed? && NoneRunning(list.items)
    // any exec goes to the first Running pod, which is Running
    ensures |r.calls| > 2 ==>
      && list.Listed? && FirstRunning(list.items).phase == Running
      && r.calls[2] == ExecStep(NewExecutor(ExecRequestFor(FirstRunning(list.items), container, commands)))
  {
    if list.Listed? then
      FirstRunningPhase(list.items);
      Dispatch(filter, container, commands, client, SelectPodIntended(list), env)
    else
      Dispatch(filter, container, commands, client, SelectPodIntended(list), env)
  }

  /** The filter is checked first, then the container, and a missing one
      ends the run with exit status 1 before any external call. */
  lemma MissingSettingRejectedFirst(filter: string, container: string, commands: seq<string>,
                                    client: Option<string>, list: ListResult, env: StepResults)
    ensures var r := Invoke(filter, container, commands, client, list, env);
      && (filter == "" ==> r == Run(Rejected(Filter), []))
      && (filter != "" && container == "" ==> r == Run(Rejected(Container), []))
      && (filter == "" || container == "" ==> ExitCode(r.outcome) == 1)
  {
  }

  /** A failed list call is fatal, and no exec step is taken. */
  lemma ListErrorIsFatal(filter: string, container: string, commands: seq<string>,
                         list: ListResult, env: StepResults)
    requires filter != "" && container != ""
    requires list.ListFailed?
    ensures Invoke(filter, container, commands, None, list, env) ==
      Run(Fatal(ListFailure(list.message)), [LoadClient, ListPods(filter)])
  {
  }

  /** A failed client load is fatal after that one call: no list, no exec. */
  lemma ClientFailureFatal(filter: string, container: string, commands: seq<string>,
                           message: string, list: ListResult, env: StepResults)
    requires filter != "" && container != ""
    ensures Invoke(filter, container, commands, Some(message), list, env) ==
      Run(Fatal(ClientFailed(message)), [LoadClient])
    ensures ExitCode(Fatal(ClientFailed(message))) == 255
  {
  }

  /** A run is made of the client load, one list call with the filter as
      given and then the exec steps, in that order; exec steps follow only
      a loaded client and a successful list, and at most four are taken. */
  lemma CallsInOrder(filter: string, container: string, commands: seq<string>,
                     client: Option<string>, list: ListResult, env: StepResults)
    ensures var r := Invoke(filter, container, commands, client, list, env);
      && |r.calls| <= 6
      && (|r.calls| > 0 ==> r.calls[0] == LoadClient)
      && (|r.calls| > 1 ==> r.calls[1] == ListPods(filter) && client.None?)
      && (|r.calls| > 2 ==> list.Listed? && forall i :: 2 <= i < |r.calls| ==> r.calls[i].ExecStep?)
  {
  }

  /**
   * Once a successful list has been made, the exec is sent to the first
   * Running pod (or the zero pod), and its error decides the exit: none
   * is a normal exit with status 0, an ExitError is an exit with its
   * status, anything else is fatal.
   */
  lemma ExecDecidesExit(filter: string, container: string, commands: seq<string>,
                        items: seq<Pod>, env: StepResults)
    requires filter != "" && container != ""
    ensures var r := Invoke(filter, container, commands, None, Listed(items), env);
      var exec := Exec(ExecRequestFor(FirstRunning(items), container, commands), env);
      && r.calls == [LoadClient, ListPods(filter)] + ExecCalls(exec.trace)
      && (exec.err.None? ==> r.outcome == Completed && ExitCode(r.outcome) == 0)
      && (exec.err.Some? && exec.err.value.ExitError? ==>
            r.outcome == Exited(exec.err.value.status) && ExitCode(r.outcome) == exec.err.value.status)
      && (exec.err.Some? && exec.err.value.OtherError? ==>
            r.outcome == Fatal(ExecFailed(exec.err.value.message)) && ExitCode(r.outcome) == 255)
  {
  }

  /** An empty command is not refused locally: with everything else in
      order, the stream is opened for a request without command parameters. */
  lemma EmptyCommandIsStreamed(filter: string, container: string, items: seq<Pod>, env: StepResults)
    requires filter != "" && container != ""
    requires env.newExecutor.None? && env.syncStdout.None? && env.syncStderr.None?
    ensures var r := Invoke(filter, container, [], None, Listed(items), env);
      && ExecStep(NewExecutor(ExecRequestFor(FirstRunning(items), container, []))) in r.calls
      && ExecStep(Stream(ExecStreamOptions)) in r.calls
      && Values(ExecRequestFor(FirstRunning(items), container, []).params, "command") == []
  {
    var exec := Exec(ExecRequestFor(FirstRunning(items), container, []), env);
    var r := Invoke(filter, container, [], None, Listed(items), env);
    assert r.calls[2] == ExecStep(exec.trace[0]);
    assert r.calls[5] == ExecStep(exec.trace[3]);
    EmptyCommandBuilds(FirstRunning(items), container);
  }

  /** As written, the "no (running) pod" failure never happens: after a
      successful list GetPodByFilter's pod is never nil. */
  lemma NoRunningPodUnreachable(filter: string, container: string, commands: seq<string>,
                                client: Option<string>, list: ListResult, env: StepResults)
    ensures Invoke(filter, container, commands, client, list, env).outcome != Fatal(NoRunningPod)
  {
  }

  /** As written, when no listed pod is Running ExecInPod is still called,
      with the zero pod (empty namespace and empty pod name): the executor
      is created for its request and, if that and the flushes succeed, the
      stream is attempted. */
  lemma ZeroPodIsExecuted(filter: string, container: string, commands: seq<string>,
                          items: seq<Pod>, env: StepResults)
    requires filter != "" && container != ""
    requires NoneRunning(items)
    ensures var r := Invoke(filter, container, commands, None, Listed(items), env);
      var req := ExecRequestFor(ZeroPod, container, commands);
      && |r.calls| > 2 && r.calls[2] == ExecStep(NewExecutor(req))
      && req.namespace == "" && req.name == ""
  {
    FirstRunningNoneIsZero(items);
  }

  /** With the intended selection, no Running pod is a fatal "no pod"
      outcome after the list call, and no exec step is taken. */
  lemma IntendedNoRunningPodNoExec(filter: string, container: string, commands: seq<string>,
                                   items: seq<Pod>, env: StepResults)
    requires filter != "" && container != ""
    requires NoneRunning(items)
    ensures InvokeIntended(filter, container, commands, None, Listed(items), env) ==
      Run(Fatal(NoRunningPod), [LoadClient, ListPods(filter)])
    ensures ExitCode(Fatal(NoRunningPod)) != 0
  {
  }

  /** The intended selection changes nothing else: whenever some listed
      pod is Running, or the list fails, or the run stops before the list
      call, the two runs are the same; with a Running pod the exec targets
      a Running pod. */
  lemma IntendedAgreesOtherwise(filter: string, container: string, commands: seq<string>,
                                client: Option<string>, list: ListResult, env: StepResults)
    requires !(list.Listed? && NoneRunning(list.items)) || filter == "" || container == "" || client.Some?
    ensures InvokeIntended(filter, container, commands, client, list, env) ==
      Invoke(filter, container, commands, client, list, env)
    ensures filter != "" && container != "" && client.None? && list.Listed? && !NoneRunning(list.items) ==>
      var r := InvokeIntended(filter, container, commands, client, list, env);
      && |r.calls| > 2 && FirstRunning(list.items).phase == Running
      && r.calls[2] == ExecStep(NewExecutor(ExecRequestFor(FirstRunning(list.items), container, commands)))
  {
  }

  /** An illustration of `ExecDecidesExit`: with one Running pod, a remote
      command that exits with status 7 makes the tool exit with 7. */
  lemma RemoteExitStatusPropagates(filter: string, container: string, commands: seq<string>, pod: Pod)
    requires filter != "" && container != "" && pod.phase == Running
    ensures var r := Invoke(filter, container, commands, None, Listed([pod]),
                            StepResults(None, None, None, Some(ExitError(7))));
      r.outcome == Exited(7) && ExitCode(r.outcome) == 7
  {
  }
}
