/**
 * The exec request ExecInPod builds: a POST to the "exec" subresource of
 * the chosen pod, whose query parameters name the container, ask for
 * stdout and stderr, and carry the command one token per parameter.
 */
module ExecRequests {
  import opened Pods

  /** One query parameter of a request. */
  datatype Param = Param(key: string, value: string)

  /** The request as the builder holds it once all parameters are added. */
  datatype ExecRequest = ExecRequest(
    verb: string,
    namespace: string,
    resource: string,
    name: string,
    subresource: string,
    params: seq<Param>)

  /** The three parameters that come before the command. */
  function HeaderParams(container: string): seq<Param>
  {
    [Param("container", container), Param("stdout", "true"), Param("stderr", "true")]
  }

  /** One "command" parameter per token, in the order of the tokens. */
  function CommandParams(commands: seq<string>): seq<Param>
  {
    seq(|commands|, i requires 0 <= i < |commands| => Param("command", commands[i]))
  }

  /** The request ExecInPod sends for a pod, a container and a command:
      addressed to the pod's exec subresource, carrying one parameter per
      command token, whose values read back as exactly the tokens. */
  function ExecRequestFor(pod: Pod, container: string, commands: seq<string>): (req: ExecRequest)
    ensures req.namespace == pod.namespace && req.name == pod.name
    ensures |req.params| == 3 + |commands|
    ensures Values(req.params, "command") == commands
  {
    assert |"command"| == 7 && |"container"| == 9 && |"stdout"| == 6 && |"stderr"| == 6;
    HeaderValues(container, "command");
    CommandParamsValues(commands, "command");
    ValuesAppend(HeaderParams(container), CommandParams(commands), "command");
    ExecRequest("POST", pod.namespace, "pods", pod.name, "exec",
                HeaderParams(container) + CommandParams(commands))
  }

  /**
   * The building of the request in ExecInPod: the header parameters are
   * set, then the loop adds one "command" parameter per token.
   */
  method BuildExecRequest(pod: Pod, container: string, commands: seq<string>) returns (req: ExecRequest)
    ensures req == ExecRequestFor(pod, container, commands)
  {
    var params := [Param("container", container), Param("stdout", "true"), Param("stderr", "true")];
    for i := 0 to |commands|
      invariant |params| == 3 + i
      invariant params[..3] == HeaderParams(container)
      invariant forall j :: 0 <= j < i ==> params[3 + j] == Param("command", commands[j])
    {
      params := params + [Param("command", commands[i])];
    }
    assert params == HeaderParams(container) + CommandParams(commands);
    req := ExecRequest("POST", pod.namespace, "pods", pod.name, "exec", params);
  }

  /** The values of all parameters with the given key, in request order:
      what the receiving side reads back for that key. */
  function Values(params: seq<Param>, key: string): (vs: seq<string>)
    ensures forall v :: v in vs ==> Param(key, v) in params
  {
    if params == [] then []
    else (if params[0].key == key then [params[0].value] else []) + Values(params[1..], key)
  }

  lemma {:induction false} ValuesAppend(a: seq<Param>, b: seq<Param>, key: string)
    ensures Values(a + b, key) == Values(a, key) + Values(b, key)
  {
    if a == [] {
      assert a + b == b;
    } else {
      assert (a + b)[0] == a[0];
      assert (a + b)[1..] == a[1..] + b;
      ValuesAppend(a[1..], b, key);
    }
  }

  /** Reading the "command" values back gives the tokens unchanged and in
      order, one value per token; no other key occurs among them. */
  lemma {:induction false} CommandParamsValues(commands: seq<string>, key: string)
    ensures Values(CommandParams(commands), key) == if key == "command" then commands else []
  {
    if commands != [] {
      assert CommandParams(commands)[1..] == CommandParams(commands[1..]);
      CommandParamsValues(commands[1..], key);
    }
  }

  /** Reading a key back from the header parameters. */
  lemma HeaderValues(container: string, key: string)
    ensures Values(HeaderParams(container), key) ==
      (if key == "container" then [container] else []) +
      (if key == "stdout" then ["true"] else []) +
      (if key == "stderr" then ["true"] else [])
  {
    var h := HeaderParams(container);
    assert h[1..][1..][1..] == [];
    assert Values(h[1..][1..], key) == if key == "stderr" then ["true"] else [];
    assert Values(h[1..], key) ==
      (if key == "stdout" then ["true"] else []) + (if key == "stderr" then ["true"] else []);
  }

  /**
   * The request targets the exec subresource of the pod in the pod's
   * namespace; its parameters read back as exactly one container (the
   * given one), stdout and stderr both "true", and the command tokens
   * exactly as given: as many "command" values as tokens, in order, none
   * joined or altered.
   */
  lemma ExecRequestDecodes(pod: Pod, container: string, commands: seq<string>)
    ensures var req := ExecRequestFor(pod, container, commands);
      && req.verb == "POST" && req.resource == "pods" && req.subresource == "exec"
      && req.namespace == pod.namespace && req.name == pod.name
      && Values(req.params, "container") == [container]
      && Values(req.params, "stdout") == ["true"]
      && Values(req.params, "stderr") == ["true"]
      && Values(req.params, "command") == commands
  {
    var req := ExecRequestFor(pod, container, commands);
    var h := HeaderParams(container);
    assert "stdout" != "stderr" by { assert "stdout"[3] != "stderr"[3]; }
    assert |"container"| == 9 && |"stdout"| == 6 && |"stderr"| == 6 && |"command"| == 7;
    HeaderValues(container, "container");
    HeaderValues(container, "stdout");
    HeaderValues(container, "stderr");
    HeaderValues(container, "command");
    ValuesAppend(h, CommandParams(commands), "container");
    ValuesAppend(h, CommandParams(commands), "stdout");
    ValuesAppend(h, CommandParams(commands), "stderr");
    ValuesAppend(h, CommandParams(commands), "command");
    CommandParamsValues(commands, "container");
    CommandParamsValues(commands, "stdout");
    CommandParamsValues(commands, "stderr");
    CommandParamsValues(commands, "command");
  }

  /** The parameters are the three header parameters followed by exactly
      one "command" parameter per token, in order. */
  lemma ExecRequestShape(pod: Pod, container: string, commands: seq<string>)
    ensures var ps := ExecRequestFor(pod, container, commands).params;
      && |ps| == 3 + |commands|
      && ps[0] == Param("container", container)
      && ps[1] == Param("stdout", "true")
      && ps[2] == Param("stderr", "true")
      && forall i :: 0 <= i < |commands| ==> ps[3 + i] == Param("command", commands[i])
  {
  }

  /** An empty command is not refused: the request is built with no
      "command" parameter at all. */
  lemma EmptyCommandBuilds(pod: Pod, container: string)
    ensures ExecRequestFor(pod, container, []).params == HeaderParams(container)
    ensures Values(ExecRequestFor(pod, container, []).params, "command") == []
  {
    ExecRequestDecodes(pod, container, []);
  }
}
