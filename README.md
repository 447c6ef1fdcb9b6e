# kube-container-exec, modelled in Dafny

kube-container-exec is a small command-line tool in the spirit of
`kubectl exec`: instead of naming a pod it takes a label filter, picks the
first Running pod that matches it (when none is Running it carries on with
an empty pod record; see Findings), and runs a command in a named
container of that pod, relaying stdout and stderr and passing on the remote command's
exit status as its own.

This project models the decision logic of `main.go`, with the cluster
and the terminal left outside:

- `wrappers.dfy` (`Wrappers`): `Option`, standing for Go's nil-able
  pointers and errors.
- `pods.dfy` (`Pods`): pod records, the list call's result, and the
  selection rule of `GetPodByFilter`. `GetPodByFilter` is a method with the
  source's loop and `break`, proved equal to `SelectPod`, whose pod is
  `FirstRunning`. The lemmas about `FirstRunning` say which pod it picks.
  As in Go, the pod variable starts as the zero pod, and that zero pod is
  returned when no pod is Running.
- `exec_request.dfy` (`ExecRequests`): the exec request and its ordered
  query parameters. `BuildExecRequest` sets the three header parameters,
  then adds one `command` parameter per token in a loop. `Values` reads a key's values back from the parameters, and the
  lemmas prove that every command token comes back unchanged and in order.
- `exec_steps.dfy` (`ExecSteps`): the external steps of `ExecInPod`
  (create the executor, flush stdout, flush stderr, stream). Each step's
  success or failure is an input and the steps taken are a trace. `Exec`
  states the ordering and early-return guarantees; `ExecInPod` is the
  step-by-step method proved equal to it.
- `invocation.dfy` (`Invocation`): `main` as a pure function
  (`Dispatch`, `Invoke`) from the filter, the container, the command and
  what each external call reports to the way the process ends and the
  calls it made; `ExitCode` gives the process exit status.

Exit statuses follow the logging library the tool uses: `glog.Exit`
exits with status 1 and `glog.Fatal` exits with status 255. `os.Exit`
receives the remote command's status, and a normal return from `main`
gives 0. An empty command is not refused: it is sent as a request with no
`command` parameter. The "No (running) pod found" branch of `main` can
never be reached (see Findings).

## Model

| member | source | states |
|---|---|---|
| `Pods.FirstRunning` | main.go:71-79 | the selected pod is Running or is the zero pod, and a Running result is one of the listed pods |
| `Pods.FirstRunningIsFirst` | main.go:72-77 | if index k holds the first Running pod in list order (no earlier pod Running), the selection is exactly that pod |
| `Pods.FirstRunningNoneIsZero` | main.go:71 | when no listed pod is Running, the selection is the zero pod (empty name and namespace, zero phase) |
| `Pods.FirstRunningFound` | main.go:72-77 | when some pod is Running, the selection is the pod at an index k where it is Running and no earlier pod is |
| `Pods.FirstRunningPhase` | main.go:71-79 | the selected phase is Running or the zero phase, never Pending, Succeeded, Failed or Unknown, and it is Running iff some listed pod is |
| `Pods.SelectPod` | main.go:61-80 | a list error is returned with a nil pod; a successful list returns no error and a pod that is never nil |
| `Pods.GetPodByFilter` | main.go:61-80 | the loop with its early break returns what `SelectPod` specifies: the list error with a nil pod, or a pointer to the first Running pod or to the zero pod |
| `Pods.SelectRunning` | main.go:71-79 | intended selection: absent iff no listed pod is Running, otherwise the first Running pod in list order (a listed pod whose phase is Running) |
| `Pods.SelectPodIntended` | main.go:61-80 | intended GetPodByFilter: list error with nil pod, or no error and a nil pod exactly when no pod is Running |
| `ExecRequests.ExecRequestFor` | main.go:88-99 | the request for a pod: addressed to the pod's name and namespace, with three header parameters plus one per token, whose `command` values read back as exactly the tokens (further properties in `ExecRequestDecodes`, `ExecRequestShape`) |
| `ExecRequests.BuildExecRequest` | main.go:88-99 | the loop appends one `command` parameter per token after the three header parameters, giving `ExecRequestFor` |
| `ExecRequests.CommandParamsValues` | main.go:97-99 | reading the `command` values back from the command parameters gives the tokens unchanged and in order; no other key appears |
| `ExecRequests.ExecRequestDecodes` | main.go:88-99 | a POST to `pods/<name>/exec` in the pod's namespace whose parameters read back as one container, stdout and stderr `true`, and exactly the command tokens, in order, never joined |
| `ExecRequests.ExecRequestShape` | main.go:93-99 | the parameter list is `container`, `stdout=true`, `stderr=true`, then exactly one `command` entry per token, in order |
| `ExecRequests.EmptyCommandBuilds` | main.go:97-99 | an empty command is not refused; the request is built with zero `command` parameters |
| `ExecSteps.Exec` | main.go:101-124 | the steps taken are a non-empty prefix of executor, flush stdout, flush stderr, stream; a step happens only after all earlier ones succeed; the stream opens iff executor creation and both flushes succeed; the first failure is returned, and no error iff the stream succeeded |
| `ExecSteps.ExecInPod` | main.go:85-124 | builds the request and then takes the steps one after another with early returns, matching `Exec` on the built request |
| `Invocation.ExitCode` | main.go:159-193 | exit status of each ending: `glog.Exit` (1) and `glog.Fatal` (255) are non-zero, a normal return from `main` is 0, `os.Exit` gets the remote status |
| `Invocation.Dispatch` | main.go:159-193 | `main` given GetPodByFilter's result: no external call happens iff a setting is missing, which is the only way to be rejected; an exec step needs a loaded client and a pod selected without error, and targets that pod; a 0 or remote exit status means the stream ran (lemmas below state each branch) |
| `Invocation.Invoke` | main.go:159-193 | `main` as written: never ends in "no running pod", and any exec goes to `FirstRunning` of the list (the first Running pod or the zero pod) |
| `Invocation.InvokeIntended` | main.go:159-193 | `main` with the intended selection: "no running pod" is the outcome exactly when a successful list has no Running pod, and any exec goes to a Running pod, the first one |
| `Invocation.MissingSettingRejectedFirst` | main.go:159-165 | an empty filter is rejected first, then an empty container, before any external call, with exit status 1 |
| `Invocation.ClientFailureFatal` | main.go:169-172 | a failed client load is fatal (255) after that single call: no list, no exec |
| `Invocation.ListErrorIsFatal` | main.go:169-177 | a failed list call is fatal after exactly the client load and the list call; no exec step is taken |
| `Invocation.CallsInOrder` | main.go:169-185 | the calls are the client load, one list call with the filter unchanged, then exec steps, which happen only after a loaded client and a successful list |
| `Invocation.ExecDecidesExit` | main.go:183-193 | after a successful list the exec targets the selected pod; no error exits 0, an ExitError exits with its status, any other error is fatal (255) |
| `Invocation.EmptyCommandIsStreamed` | main.go:157-185 | with an empty command and successful local steps, the request has no `command` parameter and the stream is still opened |
| `Invocation.NoRunningPodUnreachable` | main.go:179-181 | as written, the "No (running) pod found" failure is never the outcome, whatever the inputs |
| `Invocation.ZeroPodIsExecuted` | main.go:174-185 | as written, when no pod is Running `ExecInPod` is still called with the zero pod (empty namespace and name): `NewExecutor` is called for its request; the stream is attempted only if that and both flushes succeed |
| `Invocation.IntendedNoRunningPodNoExec` | main.go:179-181 | with the intended selection, no Running pod ends fatally (non-zero exit) after the list call, with no exec step |
| `Invocation.IntendedAgreesOtherwise` | main.go:159-193 | the intended selection changes nothing when some pod is Running, the list fails, or the run stops before the list call (empty filter or container, failed client load); when the run gets past the list and some pod is Running, its third call creates the executor for the first Running pod |
| `Invocation.RemoteExitStatusPropagates` | main.go:185-191 | an instance of the exit mapping: with one Running pod, a remote command that exits with status 7 makes the tool exit with status 7 |

## Findings

| source | as written | input that shows it | evidently intended | confidence | as-written member | corrected member |
|---|---|---|---|---|---|---|
| main.go:71-79, main.go:179-181 | `GetPodByFilter` returns a pointer to its local pod variable even when no pod is Running, so the pointer is never nil, the `pod == nil` check never fires, and `ExecInPod` is called with the zero pod (empty namespace and name), so `NewExecutor` is called for its request; the stream is attempted only if that and both flushes succeed | a successful list whose only pod is `Pending` | report "No (running) pod found" and exec nothing when no pod is Running | not executed; high (the Go zero-value rule is unambiguous) | `Invocation.ZeroPodIsExecuted` | `Invocation.IntendedNoRunningPodNoExec` |

`Invoke` models the code as written; `InvokeIntended` uses the corrected
selection `Pods.SelectPodIntended`, and `Invocation.IntendedAgreesOtherwise`
shows that the fix changes only the no-running-pod case.

## Left out

- `KubeClientFromConfig` (main.go:31-57): kubeconfig loading and clientset construction happen inside client-go, which is not part of this model; only whether it failed is an input (`client`).
- The REST list call, URL building (`req.URL()`), `remotecommand.NewExecutor` and `executor.Stream`: network I/O, modelled only as the success or failure each one reports (`ListResult`, `StepResults`).
- Label-selector matching: the filter goes to the API server unchanged and is not interpreted locally; the model records it in the `ListPods` call.
- Flag and environment parsing, `os.Setenv("KUBECONFIG")`, glog setup and usage text (main.go:128-157): command-line plumbing. The filter, container and command are inputs to `Invoke`. A failure of `flag.Set` (main.go:134-137) or of `os.Setenv` (main.go:152-155) ends the run with `glog.Fatal` (exit 255) before the settings are checked; these fatal exits are not modelled, so "rejected first" and "nothing external happens before both settings are checked" hold for runs that get past them.
- The byte relay of stdout and stderr and the blocking, timeout-free behaviour of the stream: I/O with no local logic.
- Log messages and verbosity (`glog.V(4).Infof`, `glog.Error`): only the way the process ends is modelled.
- `ExitCode`: does not model the operating system keeping only the low 8 bits of the status passed to `os.Exit`; the model gives the status as passed.
- `ExecRequestShape`: the order it states across different keys is the order of the builder calls at main.go:93-99; the request builder belongs to client-go, which is not part of this model, and what reaches the server may keep only the order of values within each key (which `ExecRequestDecodes` states). How that builder treats an empty pod name or namespace is not modelled either.
- Pod fields other than name, namespace and phase: nothing in the tool reads them. The record also carries the pod's container names, which the tool never reads either; the container name it uses is the `container` setting, sent as a request parameter.
