/**
 * Pods as the list call returns them, and the rule GetPodByFilter uses to
 * pick one of them: the first pod, in the order the server listed them,
 * whose phase is Running.
 */
module Pods {
  import opened Wrappers

  /** The lifecycle phase of a pod. `NoPhase` is the zero value of the
      phase (the empty string): the phase of a pod record nobody filled in. */
  datatype Phase = NoPhase | Pending | Running | Succeeded | Failed | Unknown

  /** A pod record as listed: its name, namespace, phase and container names. */
  datatype Pod = Pod(name: string, namespace: string, phase: Phase, containers: seq<string>)

  /** The zero value of a pod record, which a declared but unassigned pod variable holds. */
  const ZeroPod := Pod("", "", NoPhase, [])

  /** What the pod list call returned: an error, or the items in server order. */
  datatype ListResult = ListFailed(message: string) | Listed(items: seq<Pod>)

  /** The two results of GetPodByFilter: a pod pointer and an error, either of which may be nil. */
  datatype Selection = Selection(pod: Option<Pod>, err: Option<string>)

  /** No listed pod is Running. */
  predicate NoneRunning(items: seq<Pod>)
  {
    forall j :: 0 <= j < |items| ==> items[j].phase != Running
  }

  /** Index `k` holds the first Running pod of `items`. */
  predicate IsFirstRunning(items: seq<Pod>, k: nat)
  {
    k < |items| && items[k].phase == Running && NoneRunning(items[..k])
  }

  /** The pod the selection loop ends with: the first Running pod, or the
      zero pod when there is none. */
  function FirstRunning(items: seq<Pod>): (p: Pod)
    ensures p.phase == Running || p == ZeroPod
    ensures p.phase == Running ==> p in items
  {
    if |items| == 0 then ZeroPod
    else if items[0].phase == Running then items[0]
    else FirstRunning(items[1..])
  }

  /** A Running pod is never passed over: the result is the first one in list order. */
  lemma {:induction false} FirstRunningIsFirst(items: seq<Pod>, k: nat)
    requires IsFirstRunning(items, k)
    ensures FirstRunning(items) == items[k]
  {
    if k > 0 {
      assert items[0] == items[..k][0];
      assert items[1..][..k - 1] == items[1..k];
      assert forall j :: 0 <= j < k - 1 ==> items[1..k][j] == items[..k][j + 1];
      FirstRunningIsFirst(items[1..], k - 1);
    }
  }

  /** With no Running pod in the list, the result is the zero pod. */
  lemma FirstRunningNoneIsZero(items: seq<Pod>)
    requires NoneRunning(items)
    ensures FirstRunning(items) == ZeroPod
  {
  }

  /** With some Running pod in the list, the result is a Running pod of the
      list, and every pod listed before it is not Running. */
  lemma {:induction false} FirstRunningFound(items: seq<Pod>)
    requires !NoneRunning(items)
    ensures exists k: nat :: IsFirstRunning(items, k) && FirstRunning(items) == items[k]
  {
    if items[0].phase == Running {
      assert IsFirstRunning(items, 0);
    } else {
      assert !NoneRunning(items[1..]) by {
        var j :| 0 <= j < |items| && items[j].phase == Running;
        assert items[1..][j - 1] == items[j];
      }
      FirstRunningFound(items[1..]);
      var k: nat :| IsFirstRunning(items[1..], k) && FirstRunning(items[1..]) == items[1..][k];
      assert items[..k + 1] == [items[0]] + items[1..][..k];
      assert IsFirstRunning(items, k + 1);
    }
  }

  /** The result's phase is Running or the zero phase, never Pending,
      Succeeded, Failed or Unknown, and it is Running exactly when some
      listed pod is. */
  lemma FirstRunningPhase(items: seq<Pod>)
    ensures FirstRunning(items).phase in {Running, NoPhase}
    ensures FirstRunning(items).phase == Running <==> !NoneRunning(items)
  {
    if NoneRunning(items) {
      FirstRunningNoneIsZero(items);
    } else {
      FirstRunningFound(items);
    }
  }

  /** `FirstRunningIsFirst` for every index at once. */
  lemma FirstRunningIsFirstAll(items: seq<Pod>)
    ensures forall k: nat :: IsFirstRunning(items, k) ==> FirstRunning(items) == items[k]
  {
    forall k: nat | IsFirstRunning(items, k)
      ensures FirstRunning(items) == items[k]
    {
      FirstRunningIsFirst(items, k);
    }
  }

  /** What GetPodByFilter returns for a list result. */
  function SelectPod(list: ListResult): (sel: Selection)
    ensures list.ListFailed? ==> sel.pod.None? && sel.err == Some(list.message)
    ensures list.Listed? ==> sel.err.None? && sel.pod.Some?
  {
    match list
    case ListFailed(message) => Selection(None, Some(message))
    case Listed(items) => Selection(Some(FirstRunning(items)), None)
  }

  /**
   * GetPodByFilter after the list call: a list error is returned as it is
   * with a nil pod; otherwise the items are scanned in order and the scan
   * stops at the first Running pod, and a pointer to the pod variable is
   * returned, which still holds the zero pod if no pod was Running.
   */
  method GetPodByFilter(list: ListResult) returns (sel: Selection)
    ensures sel == SelectPod(list)
  {
    if list.ListFailed? {
      return Selection(None, Some(list.message));
    }
    var items := list.items;
    var pod := ZeroPod;
    var i := 0;
    while i < |items|
      invariant 0 <= i <= |items|
      invariant pod == ZeroPod
      invariant FirstRunning(items[i..]) == FirstRunning(items)
    {
      if items[i].phase == Running {
        assert items[i..][0] == items[i];
        pod := items[i];
        break;
      }
      assert items[i..][1..] == items[i + 1..];
      i := i + 1;
    }
    if i == |items| {
      assert items[i..] == [];
    }
    return Selection(Some(pod), None);
  }

  /**
   * The selection the tool is meant to make: the first Running pod, or an
   * absent pod when none is Running, so that the caller can tell
   * "no running pod" apart from a pod it may exec into.
   */
  function SelectRunning(items: seq<Pod>): (r: Option<Pod>)
    ensures r.None? <==> NoneRunning(items)
    ensures r.Some? ==> r.value.phase == Running && r.value in items
    ensures forall k: nat :: IsFirstRunning(items, k) ==> r == Some(items[k])
  {
    if NoneRunning(items) then None
    else
      FirstRunningPhase(items);
      FirstRunningIsFirstAll(items);
      Some(FirstRunning(items))
  }

  /** GetPodByFilter with the intended selection: a nil pod when no pod is Running. */
  function SelectPodIntended(list: ListResult): (sel: Selection)
    ensures list.ListFailed? ==> sel.pod.None? && sel.err == Some(list.message)
    ensures list.Listed? ==> sel.err.None? && (sel.pod.None? <==> NoneRunning(list.items))
  {
    match list
    case ListFailed(message) => Selection(None, Some(message))
    case Listed(items) => Selection(SelectRunning(items), None)
  }
}
