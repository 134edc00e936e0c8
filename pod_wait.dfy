/** Waiting for pods (AEFM/utils/kubernetes.py, and its earlier copy
    utils/kubernetes.py): the readiness and deletion conditions over one listing
    of the namespace's pods, and the polling loop that applies one of them every
    five seconds until it holds or the timeout is used up. The cluster is outside
    the model: poll `k` sees the pod list `observe(k)`, and sleeping is not
    modelled. */
module PodWait {
  import opened Wrappers
  import opened Seqs

  /** The fields of a listed pod that the conditions read: its name, its phase,
      the `ready` flag of each container status, and whether its metadata has a
      `deletionTimestamp`. */
  datatype Pod = Pod(name: string, phase: string, ready: seq<bool>, deleting: bool)

  /** A pod is deployed when it is `Running` and every container is ready. */
  predicate Ready(p: Pod)
  {
    p.phase == "Running" && forall k :: 0 <= k < |p.ready| ==> p.ready[k]
  }

  /** The names of the pods that are not deployed, in input order. */
  function NotReadyNames(pods: seq<Pod>): seq<string>
  {
    if |pods| == 0 then []
    else NotReadyNames(pods[..|pods| - 1]) + if Ready(pods[|pods| - 1]) then [] else [pods[|pods| - 1].name]
  }

  /** The names of the pods being deleted, in input order. */
  function DeletingNames(pods: seq<Pod>): seq<string>
  {
    if |pods| == 0 then []
    else DeletingNames(pods[..|pods| - 1]) + if pods[|pods| - 1].deleting then [pods[|pods| - 1].name] else []
  }

  /** Every pod is deployed exactly when none is listed as unfinished; a listed
      name is the name of a pod that is not deployed, and every such pod is
      listed. */
  lemma {:induction false} NotReadyListed(pods: seq<Pod>)
    ensures (forall p <- pods :: Ready(p)) <==> NotReadyNames(pods) == []
    ensures forall n <- NotReadyNames(pods) :: exists p <- pods :: !Ready(p) && p.name == n
    ensures forall p <- pods :: !Ready(p) ==> p.name in NotReadyNames(pods)
    ensures |NotReadyNames(pods)| <= |pods|
  {
    if |pods| > 0 {
      var front := pods[..|pods| - 1];
      NotReadyListed(front);
      assert pods == front + [pods[|pods| - 1]];
    }
  }

  /** The names listed after one more pod. */
  lemma NotReadyStep(pods: seq<Pod>, i: nat)
    requires i < |pods|
    ensures NotReadyNames(pods[..i + 1]) == NotReadyNames(pods[..i]) + if Ready(pods[i]) then [] else [pods[i].name]
  {
    assert pods[..i + 1][..i] == pods[..i];
  }

  /** No pod is being deleted exactly when none is listed; a listed name is the
      name of a pod being deleted, and every such pod is listed. */
  lemma {:induction false} DeletingListed(pods: seq<Pod>)
    ensures (forall p <- pods :: !p.deleting) <==> DeletingNames(pods) == []
    ensures forall n <- DeletingNames(pods) :: exists p <- pods :: p.deleting && p.name == n
    ensures forall p <- pods :: p.deleting ==> p.name in DeletingNames(pods)
  {
    if |pods| > 0 {
      var front := pods[..|pods| - 1];
      DeletingListed(front);
      assert pods == front + [pods[|pods| - 1]];
    }
  }

  /** The `condition` of `wait_deployment`. */
  method DeploymentCondition(pods: seq<Pod>) returns (finished: bool, unfinished: seq<string>)
    ensures finished <==> forall p <- pods :: Ready(p)
    ensures unfinished == NotReadyNames(pods)
  {
    unfinished, finished := [], true;
    for i := 0 to |pods|
      invariant finished <==> forall k :: 0 <= k < i ==> Ready(pods[k])
      invariant unfinished == NotReadyNames(pods[..i])
    {
      NotReadyStep(pods, i);
      var pod := pods[i];
      var podFinished := true;
      if pod.phase != "Running" {
        finished, podFinished := false, false;
      } else {
        ghost var before := finished;
        for j := 0 to |pod.ready|
          invariant podFinished <==> forall k :: 0 <= k < j ==> pod.ready[k]
          invariant finished == (before && podFinished)
        {
          if !pod.ready[j] {
            finished, podFinished := false, false;
          }
        }
      }
      assert podFinished <==> Ready(pod);
      if !podFinished {
        unfinished := unfinished + [pod.name];
      }
    }
    assert pods[..|pods|] == pods;
  }

  /** The `condition` of `wait_deletion`: finished when no pod is being deleted;
      the pods being deleted are the unfinished ones. */
  function DeletionCondition(pods: seq<Pod>): (r: (bool, seq<string>))
    ensures r.0 <==> forall p <- pods :: !p.deleting
    ensures r.1 == DeletingNames(pods)
    ensures forall n <- r.1 :: exists p <- pods :: p.deleting && p.name == n
    ensures forall p <- pods :: p.deleting ==> p.name in r.1
  {
    DeletingListed(pods);
    var unfinished := DeletingNames(pods);
    (|unfinished| == 0, unfinished)
  }

  /** The `condition` of `wait_all`: finished when no pod is being deleted and
      every pod is deployed. The unfinished names are those of both kinds of pod,
      each once. */
  method WaitAllCondition(pods: seq<Pod>) returns (finished: bool, unfinished: seq<string>)
    ensures finished <==> forall p <- pods :: !p.deleting && Ready(p)
    ensures NoDup(unfinished)
    ensures forall n :: n in unfinished <==> n in DeletingNames(pods) || n in NotReadyNames(pods)
  {
    var listed := DeletingNames(pods);
    finished := |listed| == 0;
    for i := 0 to |pods|
      invariant finished <==> DeletingNames(pods) == [] && forall k :: 0 <= k < i ==> Ready(pods[k])
      invariant listed == DeletingNames(pods) + NotReadyNames(pods[..i])
    {
      NotReadyStep(pods, i);
      var pod := pods[i];
      var podFinished := true;
      if pod.phase != "Running" {
        finished, podFinished := false, false;
      } else {
        ghost var before := finished;
        for j := 0 to |pod.ready|
          invariant podFinished <==> forall k :: 0 <= k < j ==> pod.ready[k]
          invariant finished == (before && podFinished)
        {
          if !pod.ready[j] {
            finished, podFinished := false, false;
          }
        }
      }
      assert podFinished <==> Ready(pod);
      if !podFinished {
        listed := listed + [pod.name];
      }
    }
    assert pods[..|pods|] == pods;
    DeletingListed(pods);
    assert forall n :: n in listed <==> n in DeletingNames(pods) || n in NotReadyNames(pods);
    unfinished := Distinct(listed);
  }

  /** Which condition a wait applies. */
  datatype WaitKind = Deployment | Deletion | DeploymentAndDeletion

  /** What each condition reports as finished. */
  predicate Finished(kind: WaitKind, pods: seq<Pod>)
  {
    match kind
    case Deployment => forall p <- pods :: Ready(p)
    case Deletion => forall p <- pods :: !p.deleting
    case DeploymentAndDeletion => forall p <- pods :: !p.deleting && Ready(p)
  }

  /** The number of polls that fit in `timeout` seconds at five seconds each:
      `ceil(timeout / 5)`, and none for a timeout that is not positive. */
  function PollLimit(timeout: int): nat
  {
    if timeout <= 0 then 0 else (timeout + 4) / 5
  }

  lemma PollLimitBound(timeout: int, k: nat)
    ensures 5 * k < timeout <==> k < PollLimit(timeout)
  {
  }

  /** The first of the polls `0 .. n-1` that finds the condition finished. */
  function FirstFinished(kind: WaitKind, observe: nat -> seq<Pod>, n: nat): (r: Option<nat>)
    ensures r.Some? ==> r.value < n && Finished(kind, observe(r.value))
    ensures r.Some? ==> forall k :: 0 <= k < r.value ==> !Finished(kind, observe(k))
    ensures r.None? ==> forall k :: 0 <= k < n ==> !Finished(kind, observe(k))
  {
    if n == 0 then None
    else if FirstFinished(kind, observe, n - 1).Some? then FirstFinished(kind, observe, n - 1)
    else if Finished(kind, observe(n - 1)) then Some(n - 1)
    else None
  }

  /** One poll: list the pods and apply the condition. */
  method Poll(kind: WaitKind, pods: seq<Pod>) returns (finished: bool, unfinished: seq<string>)
    ensures finished <==> Finished(kind, pods)
  {
    match kind
    case Deployment =>
      finished, unfinished := DeploymentCondition(pods);
    case Deletion =>
      var r := DeletionCondition(pods);
      finished, unfinished := r.0, r.1;
    case DeploymentAndDeletion =>
      finished, unfinished := WaitAllCondition(pods);
  }

  /** `_wait_core`: poll every five seconds while time is left and the condition
      does not hold. `logsUnfinished` is the final `log.debug` of the unfinished
      pods after a timeout, which AEFM/utils/kubernetes.py has and
      utils/kubernetes.py does not: when no poll ran, that line reads a variable
      never assigned. */
  method WaitCore(kind: WaitKind, timeout: int, observe: nat -> seq<Pod>, logsUnfinished: bool)
    returns (r: Result<()>, finished: bool, usedTime: int, polls: nat)
    ensures var first := FirstFinished(kind, observe, PollLimit(timeout));
      && (finished <==> first.Some?)
      && polls == (if first.Some? then first.value + 1 else PollLimit(timeout))
    ensures usedTime == 5 * polls
    ensures r.Err? <==> logsUnfinished && timeout <= 0
    ensures r.Err? ==> r.error == UnboundLocalError
  {
    usedTime, finished, polls := 0, false, 0;
    while usedTime < timeout && !finished
      invariant usedTime == 5 * polls && polls <= PollLimit(timeout)
      invariant !finished ==> FirstFinished(kind, observe, polls).None?
      invariant finished ==> polls > 0 && FirstFinished(kind, observe, polls) == Some(polls - 1)
      decreases timeout - usedTime
    {
      PollLimitBound(timeout, polls);
      var pods := observe(polls);
      var unfinished;
      finished, unfinished := Poll(kind, pods);
      polls := polls + 1;
      usedTime := usedTime + 5;
    }
    PollLimitBound(timeout, polls);
    if finished {
      FirstFinishedStays(kind, observe, polls, PollLimit(timeout));
    }
    if !finished && logsUnfinished && polls == 0 {
      return Err(UnboundLocalError), finished, usedTime, polls;
    }
    r := Ok(());
  }

  /** Once found, the first finished poll stays the first one. */
  lemma {:induction false} FirstFinishedStays(kind: WaitKind, observe: nat -> seq<Pod>, n: nat, m: nat)
    requires n <= m && FirstFinished(kind, observe, n).Some?
    ensures FirstFinished(kind, observe, m) == FirstFinished(kind, observe, n)
    decreases m - n
  {
    if n < m {
      FirstFinishedStays(kind, observe, n, m - 1);
    }
  }

  /** `wait_deployment`, `wait_deletion` and `wait_all` without the failing log
      line, as utils/kubernetes.py has them: the wait never fails, it reports
      whether the condition was met and after how many polls. */
  method Wait(kind: WaitKind, timeout: int, observe: nat -> seq<Pod>) returns (finished: bool, usedTime: int)
    ensures var first := FirstFinished(kind, observe, PollLimit(timeout));
      && (finished <==> first.Some?)
      && usedTime == 5 * (if first.Some? then first.value + 1 else PollLimit(timeout))
  {
    var r, polls;
    r, finished, usedTime, polls := WaitCore(kind, timeout, observe, false);
  }
}
