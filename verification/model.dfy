/** The entities of the pipeline: DevTasks with their committed history, the per-task
    namespace and what it holds, pull requests, issue comments, and the API calls through
    which the operator reads and changes them. */
module Model {
  import opened Names

  datatype Option<+T> = None | Some(value: T)

  // ---------------------------------------------------------------- DevTask

  datatype Phase =
    | New | Pending | Building | Running | AwaitingReview | AwaitingRevision
    | Blocked | Failed | Completed

  datatype Spec = Spec(issue: int, repo: string)

  datatype Status = Status(phase: Phase, namespace: string, prNumber: nat, startedAt: Option<nat>)

  const INITIAL_STATUS := Status(New, "", 0, None)

  /** The stored object. `log` holds every status ever committed, oldest first; the resource
      version is its last index. `failedRemovals` counts tag removals that came back with
      an error other than "no such label". */
  datatype Record = Record(spec: Spec, log: seq<Status>, failedRemovals: nat)

  /** What a Get returns: a copy with the version it was read at. */
  datatype Task = Task(name: string, spec: Spec, status: Status, version: nat)

  function Current(rec: Record): Status
    requires |rec.log| > 0
  {
    rec.log[|rec.log| - 1]
  }

  predicate Terminal(p: Phase) {
    p == Failed || p == Completed
  }

  // ---------------------------------------------------------------- cluster

  datatype Backend = Claude | Aider

  datatype Script = FreshScript | ResumeScript | RevisionScript

  datatype PodPhase = PodPending | PodRunning | PodSucceeded | PodFailed

  /** The two pod names in use, "agent" and "agent-rev". */
  datatype Slot = AgentSlot | RevSlot

  /** `cycle` is the version of the DevTask that the pod was built for. */
  datatype Pod = Pod(backend: Backend, script: Script, prNumber: nat, secret: string,
                     phase: PodPhase, deleting: bool, cycle: nat)

  datatype Creds = Creds(githubToken: string, claudeToken: string, claudeAuthMode: string,
                         gitAuthorName: string, gitAuthorEmail: string)

  datatype Protocol = TCP | UDP
  datatype Port = Port(protocol: Protocol, number: nat)
  datatype EgressRule = EgressRule(peerNamespace: Option<string>, ports: seq<Port>)
  datatype Policy = Policy(denyIngress: bool, egress: seq<EgressRule>)

  const SANDBOX_EGRESS := Policy(true, [
    EgressRule(None, [Port(UDP, 53), Port(TCP, 53)]),
    EgressRule(None, [Port(TCP, 443)]),
    EgressRule(Some("llm-inference"), [Port(TCP, 8000)])])

  datatype Namespace = Namespace(terminating: bool, policy: Option<Policy>, secrets: map<string, Creds>,
                                 agent: Option<Pod>, rev: Option<Pod>)

  const EMPTY_NAMESPACE := Namespace(false, None, map[], None, None)

  function PodIn(ns: Namespace, slot: Slot): Option<Pod> {
    if slot == AgentSlot then ns.agent else ns.rev
  }

  function WithPod(ns: Namespace, slot: Slot, pod: Option<Pod>): Namespace {
    if slot == AgentSlot then ns.(agent := pod) else ns.(rev := pod)
  }

  // ---------------------------------------------------------------- GitHub

  const READY_LABEL := "ready-for-development"
  const NEEDS_REVISION := "needs-revision"

  /** `labelings` counts how often needs-revision was put on the pull request, `everDone`
      records whether it was ever merged or closed. */
  datatype PullRequest = PullRequest(number: nat, head: string, url: string, open: bool, merged: bool,
                                     labels: seq<string>, labelings: nat, everDone: bool)

  datatype Author = Operator | Other(login: string)

  datatype Comment = Comment(author: Author, body: string)

  function FindNumber(prs: seq<PullRequest>, n: nat): (i: int)
    ensures -1 <= i < |prs|
    ensures i >= 0 ==> prs[i].number == n
    ensures forall q :: 0 <= q < (if i < 0 then |prs| else i) ==> prs[q].number != n
  {
    if prs == [] then -1
    else if prs[0].number == n then 0
    else
      var rest := FindNumber(prs[1..], n);
      if rest < 0 then -1 else rest + 1
  }

  function OpenOnes(prs: seq<PullRequest>): (r: seq<PullRequest>)
    ensures forall pr :: pr in r <==> pr in prs && pr.open
  {
    if prs == [] then []
    else (if prs[0].open then [prs[0]] else []) + OpenOnes(prs[1..])
  }

  function Without(labels: seq<string>, tag: string): (r: seq<string>)
    ensures forall l :: l in r <==> l in labels && l != tag
  {
    if labels == [] then []
    else (if labels[0] == tag then [] else [labels[0]]) + Without(labels[1..], tag)
  }

  /** One page of a listing: the last `drop` items are on a page the operator never asks for. */
  function Page<T>(s: seq<T>, drop: nat): (r: seq<T>)
    ensures r <= s
  {
    if drop >= |s| then [] else s[..|s| - drop]
  }

  // ---------------------------------------------------------------- calls

  datatype Call =
    | GetTask(name: string)
    | UpdateStatus(name: string, version: nat, status: Status)
    | CreateNamespace(ns: string)
    | DeleteNamespace(ns: string)
    | GetPolicy(ns: string)
    | CreatePolicy(ns: string, policy: Policy)
    | UpdatePolicy(ns: string, policy: Policy)
    | GetCreds
    | CreateSecret(ns: string, secret: string, creds: Creds)
    | GetPod(ns: string, slot: Slot)
    | CreatePod(ns: string, slot: Slot, pod: Pod)
    | DeletePod(ns: string, slot: Slot)
    | ListOpenPRs
    | GetPR(number: nat)
    | RemoveLabel(number: nat, tag: string)
    | ListComments(issue: int)
    | CreateComment(issue: int, body: string)

  datatype Response =
    | Ack
    | NotFound
    | AlreadyExists
    | OtherError
    | GotTask(task: Task)
    | GotPolicy(policy: Policy)
    | GotCreds(creds: Creds)
    | GotPod(pod: Pod)
    | GotPR(pr: PullRequest)
    | GotPRs(prs: seq<PullRequest>)
    | GotComments(comments: seq<Comment>)

  /** Seconds until the next try, and whether an error was returned. */
  datatype Result = Result(requeueAfter: nat, err: bool)
}
