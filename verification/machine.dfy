/** The operator as a machine over single API calls. `pc` is the point Reconcile has reached,
    `Next` the call it makes there and `Resume` where the answer takes it. Every call can be
    lost, can take effect and still report an error, and can be the last one before a crash;
    between any two calls the environment moves. */
module Machine {
  import opened Names
  import opened Model

  // ---------------------------------------------------------------- control points

  /** The three branches that provision a namespace; two of them hold credentials already. */
  datatype Job = Launch | Revise(creds: Creds) | Continue(creds: Creds)

  /** On whose behalf findPRForTask runs. */
  datatype Quest = AfterSuccess | ForReview

  /** What the credentials are read for. */
  datatype Why =
    | ToLaunch | ToRevise | ToContinue
    | ToFindPR(quest: Quest) | ToComment(pr: PullRequest)
    | ToClarify | ToHearReply | ToSeeLabel | ToRemoveLabel(creds: Creds)

  datatype Pc =
    | Idle
    | Fetch(name: string)
    | ReadCreds(t: Task, why: Why)
    | MakeNamespace(t: Task, job: Job)
    | LookPolicy(t: Task, job: Job)
    | PutPolicy(t: Task, job: Job, create: bool)
    | MakeSecret(t: Task, job: Job, creds: Creds)
    | DropRevision(t: Task, creds: Creds)
    | MakePod(t: Task, job: Job)
    | LookRevision(t: Task)
    | LookAgent(t: Task)
    | LookPR(t: Task, quest: Quest)
    | LookComments(t: Task, pr: PullRequest)
    | PostComment(t: Task, pr: PullRequest)
    | LookClarification(t: Task)
    | LookReply(t: Task)
    | LookLabel(t: Task)
    | DropLabel(t: Task, creds: Creds)
    | DropNamespace(t: Task, next: Phase)
    | Write(t: Task, status: Status)
    | Done(name: string, result: Result)

  // ---------------------------------------------------------------- world

  /** `queue` is the work queue of the controller; one worker serves it. */
  datatype World = World(
    repo: string, backend: Backend,
    tasks: map<string, Record>, cluster: map<string, Namespace>,
    prs: seq<PullRequest>, comments: map<int, seq<Comment>>,
    creds: Option<map<string, string>>, clock: nat,
    queue: set<string>, pc: Pc)

  datatype Fault = Clean | Lost | Late

  datatype EnvMove =
    | PodRuns(ns: string, slot: Slot)
    | PodEnds(ns: string, slot: Slot, ok: bool)
    | PodVanishes(ns: string, slot: Slot)
    | NamespaceVanishes(ns: string)
    | OpenPR(number: nat, head: string, url: string)
    | ClosePR(number: nat, merged: bool)
    | ReopenPR(number: nat)
    | Label(number: nat, tag: string)
    | Unlabel(number: nat, tag: string)
    | Say(issue: int, login: string, body: string)
    | SetCreds(data: Option<map<string, string>>)
    | Tick
    | NewTask(issue: int)

  /** `lag` is how many versions behind a task read may be, `drop` how many items of a listing
      fall on later pages. */
  datatype Action =
    | Start(name: string)
    | Op(fault: Fault, lag: nat, drop: nat)
    | Retire
    | Crash
    | Env(move: EnvMove)
    | Skip

  // ---------------------------------------------------------------- object builders

  function Field(data: map<string, string>, key: string): string {
    if key in data then data[key] else ""
  }

  /** readPipelineCredentials: an absent key reads as the empty string. */
  function CredsOf(data: map<string, string>): Creds {
    Creds(Field(data, "github-token"), Field(data, "claude-token"), Field(data, "claude-auth-mode"),
          Field(data, "git-author-name"), Field(data, "git-author-email"))
  }

  function SlotFor(job: Job): Slot {
    if job.Revise? then RevSlot else AgentSlot
  }

  function ScriptFor(backend: Backend, job: Job): Script {
    match job
    case Launch => FreshScript
    case Continue(_) => if backend == Aider then FreshScript else ResumeScript
    case Revise(_) => RevisionScript
  }

  function BuildPod(backend: Backend, t: Task, job: Job): Pod {
    Pod(backend, ScriptFor(backend, job), if job.Revise? then t.status.prNumber else 0,
        SecretName(t.spec.issue), PodPending, false, t.version)
  }

  function Provisioned(t: Task, job: Job, now: nat): Status {
    var s := t.status.(phase := Building, startedAt := Some(now));
    if job.Revise? then s else s.(namespace := NamespaceName(t.spec.issue))
  }

  // ---------------------------------------------------------------- Reconcile, call by call

  function Next(pc: Pc, backend: Backend): Option<Call> {
    match pc
    case Idle => None
    case Fetch(name) => Some(GetTask(name))
    case ReadCreds(_, _) => Some(GetCreds)
    case MakeNamespace(t, _) => Some(CreateNamespace(NamespaceName(t.spec.issue)))
    case LookPolicy(t, _) => Some(GetPolicy(NamespaceName(t.spec.issue)))
    case PutPolicy(t, _, create) =>
      if create then Some(CreatePolicy(NamespaceName(t.spec.issue), SANDBOX_EGRESS))
      else Some(UpdatePolicy(NamespaceName(t.spec.issue), SANDBOX_EGRESS))
    case MakeSecret(t, _, creds) =>
      Some(CreateSecret(NamespaceName(t.spec.issue), SecretName(t.spec.issue), creds))
    case DropRevision(t, _) => Some(DeletePod(t.status.namespace, RevSlot))
    case MakePod(t, job) =>
      Some(CreatePod(NamespaceName(t.spec.issue), SlotFor(job), BuildPod(backend, t, job)))
    case LookRevision(t) => Some(GetPod(t.status.namespace, RevSlot))
    case LookAgent(t) => Some(GetPod(t.status.namespace, AgentSlot))
    case LookPR(t, _) => if t.status.prNumber != 0 then Some(GetPR(t.status.prNumber)) else Some(ListOpenPRs)
    case LookComments(t, _) => Some(ListComments(t.spec.issue))
    case PostComment(t, pr) => Some(CreateComment(t.spec.issue, "PR: " + pr.url))
    case LookClarification(t) => Some(ListComments(t.spec.issue))
    case LookReply(t) => Some(ListComments(t.spec.issue))
    case LookLabel(t) => Some(GetPR(t.status.prNumber))
    case DropLabel(t, _) => Some(RemoveLabel(t.status.prNumber, NEEDS_REVISION))
    case DropNamespace(t, _) => Some(DeleteNamespace(t.status.namespace))
    case Write(t, status) => Some(UpdateStatus(t.name, t.version, status))
    case Done(_, _) => None
  }

  function Stop(t: Task, requeueAfter: nat, err: bool): Pc {
    Done(t.name, Result(requeueAfter, err))
  }

  /** The switch on the phase that was read. */
  function Dispatch(t: Task): Pc {
    match t.status.phase
    case New => MakeNamespace(t, Launch)
    case Building => LookRevision(t)
    case Running => LookRevision(t)
    case AwaitingReview => ReadCreds(t, ToFindPR(ForReview))
    case AwaitingRevision => ReadCreds(t, ToRevise)
    case Blocked => ReadCreds(t, ToHearReply)
    case Completed => Stop(t, 0, false)
    case Failed => Stop(t, 0, false)
    case Pending => Stop(t, 30, false)
  }

  function CredsMissing(t: Task, why: Why): Pc {
    match why
    case ToLaunch => Stop(t, 30, true)
    case ToRevise => Stop(t, 30, true)
    case ToContinue => Stop(t, 30, true)
    case ToFindPR(AfterSuccess) => Stop(t, 30, true)
    case ToFindPR(ForReview) => Stop(t, 120, false)
    case ToComment(_) => Stop(t, 30, true)
    case ToClarify => Write(t, t.status.(phase := Failed))
    case ToHearReply => Stop(t, 60, false)
    case ToSeeLabel => Stop(t, 120, false)
    case ToRemoveLabel(creds) => MakeNamespace(t, Revise(creds))
  }

  function CredsRead(t: Task, why: Why, creds: Creds): Pc {
    match why
    case ToLaunch => MakeSecret(t, Launch, creds)
    case ToRevise =>
      if t.status.prNumber == 0 then MakeNamespace(t, Revise(creds)) else ReadCreds(t, ToRemoveLabel(creds))
    case ToContinue => MakeNamespace(t, Continue(creds))
    case ToFindPR(quest) => LookPR(t, quest)
    case ToComment(pr) => LookComments(t, pr)
    case ToClarify => LookClarification(t)
    case ToHearReply => LookReply(t)
    case ToSeeLabel => LookLabel(t)
    case ToRemoveLabel(first) => DropLabel(t, first)
  }

  function PolicyReady(t: Task, job: Job): Pc {
    match job
    case Launch => ReadCreds(t, ToLaunch)
    case Revise(creds) => MakeSecret(t, job, creds)
    case Continue(creds) => MakeSecret(t, job, creds)
  }

  function PodSeen(t: Task, pod: Pod): Pc {
    match pod.phase
    case PodPending => Stop(t, 30, false)
    case PodRunning =>
      if t.status.phase != Running then Write(t, t.status.(phase := Running)) else Stop(t, 30, false)
    case PodSucceeded => ReadCreds(t, ToFindPR(AfterSuccess))
    case PodFailed => ReadCreds(t, ToClarify)
  }

  function FirstMatch(prs: seq<PullRequest>, issue: int): (r: Option<PullRequest>)
    ensures r.Some? ==> r.value in prs && BranchOf(r.value.head, issue)
    ensures r.None? ==> forall pr :: pr in prs ==> !BranchOf(pr.head, issue)
  {
    if prs == [] then None
    else if BranchOf(prs[0].head, issue) then Some(prs[0])
    else FirstMatch(prs[1..], issue)
  }

  function ReviewStatus(t: Task, n: nat): Status {
    t.status.(phase := AwaitingReview, prNumber := n)
  }

  /** findPRForTask has answered without an error. */
  function PRAnswer(t: Task, quest: Quest, found: Option<PullRequest>): Pc {
    match quest
    case AfterSuccess =>
      if found.None? then Write(t, t.status.(phase := Failed))
      else if found.value.url == "" then Write(t, ReviewStatus(t, found.value.number))
      else ReadCreds(t, ToComment(found.value))
    case ForReview =>
      if found.Some? && (found.value.merged || !found.value.open) then DropNamespace(t, Completed)
      else if t.status.prNumber == 0 then Stop(t, 120, false)
      else ReadCreds(t, ToSeeLabel)
  }

  function PRUnknown(t: Task, quest: Quest): Pc {
    if quest == AfterSuccess then Stop(t, 30, true) else Stop(t, 120, false)
  }

  predicate MentionsPR(body: string) {
    Contains(body, "PR: https://")
  }

  predicate AsksClarification(body: string) {
    "/clarification:" <= body
  }

  predicate AnyMentionsPR(comments: seq<Comment>) {
    exists i :: 0 <= i < |comments| && MentionsPR(comments[i].body)
  }

  predicate AnyAsksClarification(comments: seq<Comment>) {
    exists i :: 0 <= i < |comments| && AsksClarification(comments[i].body)
  }

  const OPERATOR_LOGIN := "pipeline-operator"

  function Login(c: Comment): string {
    match c.author case Operator => OPERATOR_LOGIN case Other(login) => login
  }

  predicate BotLogin(login: string) {
    login == "github-actions[bot]" || login == "app/github-actions"
  }

  predicate LastIsHuman(comments: seq<Comment>) {
    |comments| > 0 && !BotLogin(Login(comments[|comments| - 1]))
  }

  /** Seconds after which Reconcile asks to run again once the status is written. */
  function Pause(p: Phase): nat {
    match p
    case Building => 30
    case Running => 30
    case AwaitingReview => 120
    case Blocked => 60
    case _ => 0
  }

  function Resume(pc: Pc, r: Response, now: nat): Pc
  {
    match pc
    case Idle => Idle
    case Fetch(name) =>
      if r.GotTask? then Dispatch(r.task) else Done(name, Result(0, r != NotFound))
    case ReadCreds(t, why) => if r.GotCreds? then CredsRead(t, why, r.creds) else CredsMissing(t, why)
    case MakeNamespace(t, job) =>
      if r == Ack || r == AlreadyExists then LookPolicy(t, job) else Stop(t, 0, true)
    case LookPolicy(t, job) =>
      if r == NotFound then PutPolicy(t, job, true)
      else if !r.GotPolicy? then Stop(t, 0, true)
      else if r.policy == SANDBOX_EGRESS then PolicyReady(t, job)
      else PutPolicy(t, job, false)
    case PutPolicy(t, job, _) => if r == Ack then PolicyReady(t, job) else Stop(t, 0, true)
    case MakeSecret(t, job, creds) =>
      if r != Ack && r != AlreadyExists then Stop(t, 0, true)
      else if job.Revise? then DropRevision(t, creds)
      else MakePod(t, job)
    case DropRevision(t, creds) => MakePod(t, Revise(creds))
    case MakePod(t, job) =>
      if r == Ack || r == AlreadyExists then Write(t, Provisioned(t, job, now)) else Stop(t, 0, true)
    case LookRevision(t) => if r.GotPod? then PodSeen(t, r.pod) else LookAgent(t)
    case LookAgent(t) => if r.GotPod? then PodSeen(t, r.pod) else Stop(t, 30, r != NotFound)
    case LookPR(t, quest) =>
      if r.GotPR? then PRAnswer(t, quest, Some(r.pr))
      else if r.GotPRs? then PRAnswer(t, quest, FirstMatch(r.prs, t.spec.issue))
      else PRUnknown(t, quest)
    case LookComments(t, pr) =>
      if !r.GotComments? then Stop(t, 30, true)
      else if AnyMentionsPR(r.comments) then Write(t, ReviewStatus(t, pr.number))
      else PostComment(t, pr)
    case PostComment(t, pr) =>
      if r == Ack then Write(t, ReviewStatus(t, pr.number)) else Stop(t, 30, true)
    case LookClarification(t) =>
      if r.GotComments? && AnyAsksClarification(r.comments) then DropNamespace(t, Blocked)
      else Write(t, t.status.(phase := Failed))
    case LookReply(t) =>
      if r.GotComments? && LastIsHuman(r.comments) then ReadCreds(t, ToContinue) else Stop(t, 60, false)
    case LookLabel(t) =>
      if !r.GotPR? || NEEDS_REVISION !in r.pr.labels then Stop(t, 120, false)
      else Write(t, t.status.(phase := AwaitingRevision))
    case DropLabel(t, creds) => MakeNamespace(t, Revise(creds))
    case DropNamespace(t, next) => Write(t, t.status.(phase := next))
    case Write(t, status) => Stop(t, Pause(status.phase), r != Ack)
    case Done(_, _) => pc
  }

  // ---------------------------------------------------------------- the API servers

  function Lookup(w: World, ns: string): Option<Namespace> {
    if ns in w.cluster then Some(w.cluster[ns]) else None
  }

  function PutNamespace(w: World, ns: string, obj: Option<Namespace>): World {
    w.(cluster := if obj.Some? then w.cluster[ns := obj.value] else w.cluster - {ns})
  }

  function MapPR(w: World, i: nat, pr: PullRequest): World
    requires i < |w.prs|
  {
    w.(prs := w.prs[i := pr])
  }

  function CommentsOn(w: World, issue: int): seq<Comment> {
    if issue in w.comments then w.comments[issue] else []
  }

  function AddComment(w: World, issue: int, c: Comment): World {
    w.(comments := w.comments[issue := CommentsOn(w, issue) + [c]])
  }

  function ReadTask(name: string, rec: Record, lag: nat): Task
    requires |rec.log| > 0
  {
    var v := if lag >= |rec.log| then 0 else |rec.log| - 1 - lag;
    Task(name, rec.spec, rec.log[v], v)
  }

  predicate OnTask(call: Call) {
    call.GetTask? || call.UpdateStatus?
  }

  predicate OnCluster(call: Call) {
    || call.CreateNamespace? || call.DeleteNamespace? || call.GetPolicy? || call.CreatePolicy?
    || call.UpdatePolicy? || call.CreateSecret? || call.GetPod? || call.CreatePod? || call.DeletePod?
  }

  predicate OnGitHub(call: Call) {
    call.ListOpenPRs? || call.GetPR? || call.RemoveLabel? || call.ListComments? || call.CreateComment?
  }

  function ExecTask(w: World, call: Call, lag: nat): (World, Response)
    requires OnTask(call)
  {
    if call.name !in w.tasks || w.tasks[call.name].log == [] then (w, NotFound)
    else
      var rec := w.tasks[call.name];
      match call
      case GetTask(name) => (w, GotTask(ReadTask(name, rec, lag)))
      case UpdateStatus(name, version, status) =>
        if version != |rec.log| - 1 then (w, OtherError)
        else (w.(tasks := w.tasks[name := rec.(log := rec.log + [status])], queue := w.queue + {name}), Ack)
  }

  /** Creates are refused in a namespace that is absent or going away. */
  function Admission(obj: Option<Namespace>): Response {
    if obj.None? then NotFound
    else if obj.value.terminating then OtherError
    else Ack
  }

  /** What a call does to the namespace it is addressed to. */
  function NsCall(obj: Option<Namespace>, call: Call): (Option<Namespace>, Response)
    requires OnCluster(call)
  {
    match call
    case CreateNamespace(_) => if obj.Some? then (obj, AlreadyExists) else (Some(EMPTY_NAMESPACE), Ack)
    case DeleteNamespace(_) =>
      if obj.None? then (obj, NotFound) else (Some(obj.value.(terminating := true)), Ack)
    case GetPolicy(_) =>
      if obj.None? || obj.value.policy.None? then (obj, NotFound) else (obj, GotPolicy(obj.value.policy.value))
    case CreatePolicy(_, policy) =>
      if Admission(obj) != Ack then (obj, Admission(obj))
      else if obj.value.policy.Some? then (obj, AlreadyExists)
      else (Some(obj.value.(policy := Some(policy))), Ack)
    case UpdatePolicy(_, policy) =>
      if obj.None? || obj.value.policy.None? then (obj, NotFound)
      else (Some(obj.value.(policy := Some(policy))), Ack)
    case CreateSecret(_, secret, creds) =>
      if Admission(obj) != Ack then (obj, Admission(obj))
      else if secret in obj.value.secrets then (obj, AlreadyExists)
      else (Some(obj.value.(secrets := obj.value.secrets[secret := creds])), Ack)
    case GetPod(_, slot) =>
      if obj.None? || PodIn(obj.value, slot).None? then (obj, NotFound)
      else (obj, GotPod(PodIn(obj.value, slot).value))
    case CreatePod(_, slot, pod) =>
      if Admission(obj) != Ack then (obj, Admission(obj))
      else if PodIn(obj.value, slot).Some? then (obj, AlreadyExists)
      else (Some(WithPod(obj.value, slot, Some(pod))), Ack)
    case DeletePod(_, slot) =>
      if obj.None? || PodIn(obj.value, slot).None? then (obj, NotFound)
      else (Some(WithPod(obj.value, slot, Some(PodIn(obj.value, slot).value.(deleting := true)))), Ack)
  }

  function ExecCluster(w: World, call: Call): (World, Response)
    requires OnCluster(call)
  {
    var (obj, r) := NsCall(Lookup(w, call.ns), call);
    (PutNamespace(w, call.ns, obj), r)
  }

  function DropLabelFrom(pr: PullRequest, tag: string): PullRequest {
    pr.(labels := Without(pr.labels, tag))
  }

  function ExecGitHub(w: World, call: Call, drop: nat): (World, Response)
    requires OnGitHub(call)
  {
    match call
    case ListOpenPRs => (w, GotPRs(Page(OpenOnes(w.prs), drop)))
    case GetPR(n) =>
      var i := FindNumber(w.prs, n);
      if i < 0 then (w, NotFound) else (w, GotPR(w.prs[i]))
    case RemoveLabel(n, tag) =>
      var i := FindNumber(w.prs, n);
      if i < 0 || tag !in w.prs[i].labels then (w, NotFound)
      else (MapPR(w, i, DropLabelFrom(w.prs[i], tag)), Ack)
    case ListComments(issue) => (w, GotComments(Page(CommentsOn(w, issue), drop)))
    case CreateComment(issue, body) => (AddComment(w, issue, Comment(Operator, body)), Ack)
  }

  function Exec(w: World, call: Call, lag: nat, drop: nat): (World, Response) {
    if OnTask(call) then ExecTask(w, call, lag)
    else if OnCluster(call) then ExecCluster(w, call)
    else if OnGitHub(call) then ExecGitHub(w, call, drop)
    else (w, if w.creds.None? then NotFound else GotCreds(CredsOf(w.creds.value)))
  }

  /** What the call does to the world, and what the operator is told. */
  function Attempt(w: World, call: Call, fault: Fault, lag: nat, drop: nat): (World, Response) {
    match fault
    case Clean => Exec(w, call, lag, drop)
    case Lost => (w, OtherError)
    case Late => (Exec(w, call, lag, drop).0, OtherError)
  }

  // ---------------------------------------------------------------- environment

  /** Pods start and end on their own; one that is being deleted, or whose namespace is, goes
      away at some point. Only then do the policy and the secrets of a namespace go with it. */
  function NsMove(obj: Option<Namespace>, m: EnvMove): Option<Namespace>
    requires m.PodRuns? || m.PodEnds? || m.PodVanishes? || m.NamespaceVanishes?
  {
    if obj.None? then obj
    else if m.NamespaceVanishes? then (if obj.value.terminating then None else obj)
    else if PodIn(obj.value, m.slot).None? then obj
    else
      var pod := PodIn(obj.value, m.slot).value;
      match m
      case PodRuns(_, slot) =>
        if pod.phase != PodPending then obj
        else Some(WithPod(obj.value, slot, Some(pod.(phase := PodRunning))))
      case PodEnds(_, slot, ok) =>
        if pod.phase == PodSucceeded || pod.phase == PodFailed then obj
        else Some(WithPod(obj.value, slot, Some(pod.(phase := if ok then PodSucceeded else PodFailed))))
      case PodVanishes(_, slot) =>
        if pod.deleting || obj.value.terminating then Some(WithPod(obj.value, slot, None)) else obj
  }

  predicate PRMove(m: EnvMove) {
    m.ClosePR? || m.ReopenPR? || m.Label? || m.Unlabel?
  }

  function PRAfter(pr: PullRequest, m: EnvMove): PullRequest
    requires PRMove(m)
  {
    match m
    case ClosePR(_, merged) => if pr.open then pr.(open := false, merged := merged, everDone := true) else pr
    case ReopenPR(_) => if pr.merged then pr else pr.(open := true)
    case Label(_, tag) =>
      if tag in pr.labels then pr
      else pr.(labels := pr.labels + [tag], labelings := pr.labelings + if tag == NEEDS_REVISION then 1 else 0)
    case Unlabel(_, tag) => DropLabelFrom(pr, tag)
  }

  function EnvPR(w: World, m: EnvMove): World
    requires PRMove(m)
  {
    var i := FindNumber(w.prs, m.number);
    if i < 0 then w else MapPR(w, i, PRAfter(w.prs[i], m))
  }

  function EnvStep(w: World, m: EnvMove): World {
    match m
    case PodRuns(ns, _) => PutNamespace(w, ns, NsMove(Lookup(w, ns), m))
    case PodEnds(ns, _, _) => PutNamespace(w, ns, NsMove(Lookup(w, ns), m))
    case PodVanishes(ns, _) => PutNamespace(w, ns, NsMove(Lookup(w, ns), m))
    case NamespaceVanishes(ns) => PutNamespace(w, ns, NsMove(Lookup(w, ns), m))
    case OpenPR(n, head, url) =>
      if n == 0 || FindNumber(w.prs, n) >= 0 then w
      else w.(prs := [PullRequest(n, head, url, true, false, [], 0, false)] + w.prs)
    case ClosePR(_, _) => EnvPR(w, m)
    case ReopenPR(_) => EnvPR(w, m)
    case Label(_, _) => EnvPR(w, m)
    case Unlabel(_, _) => EnvPR(w, m)
    case Say(issue, login, body) => AddComment(w, issue, Comment(Other(login), body))
    case SetCreds(data) => w.(creds := data)
    case Tick => w.(clock := w.clock + 1)
    case NewTask(issue) =>
      var name := TaskName(w.repo, issue);
      if issue < 1 || name in w.tasks then w
      else w.(tasks := w.tasks[name := Record(Spec(issue, w.repo), [INITIAL_STATUS], 0)],
              queue := w.queue + {name})
  }

  // ---------------------------------------------------------------- steps and runs

  predicate RemovalFailed(pc: Pc, r: Response) {
    || (pc.DropLabel? && r == OtherError)
    || (pc.ReadCreds? && pc.why.ToRemoveLabel? && !r.GotCreds?)
  }

  function CountFailure(w: World, pc: Pc, r: Response): World {
    if RemovalFailed(pc, r) && pc.t.name in w.tasks then
      var rec := w.tasks[pc.t.name];
      w.(tasks := w.tasks[pc.t.name := rec.(failedRemovals := rec.failedRemovals + 1)])
    else w
  }

  function OpStep(w: World, call: Call, fault: Fault, lag: nat, drop: nat): World {
    var (w1, r) := Attempt(w, call, fault, lag, drop);
    CountFailure(w1, w.pc, r).(pc := Resume(w.pc, r, w.clock))
  }

  function Step(w: World, a: Action): World {
    match a
    case Start(name) =>
      if w.pc.Idle? && name in w.queue then w.(pc := Fetch(name), queue := w.queue - {name}) else w
    case Op(fault, lag, drop) =>
      if Next(w.pc, w.backend).None? then w
      else OpStep(w, Next(w.pc, w.backend).value, fault, lag, drop)
    case Retire =>
      if !w.pc.Done? then w
      else
        var again := w.pc.result.err || w.pc.result.requeueAfter > 0;
        w.(pc := Idle, queue := if again then w.queue + {w.pc.name} else w.queue)
    case Crash => w.(pc := Idle, queue := w.tasks.Keys)
    case Env(m) => EnvStep(w, m)
    case Skip => w
  }

  /** A call without a fault, its reads current and whole. */
  const OK := Op(Clean, 0, 0)

  function Run(w: World, actions: seq<Action>): World
    decreases |actions|
  {
    if actions == [] then w
    else Step(Run(w, actions[..|actions| - 1]), actions[|actions| - 1])
  }

  lemma RunThen(w: World, actions: seq<Action>, a: Action)
    ensures Run(w, actions + [a]) == Step(Run(w, actions), a)
  {
    assert (actions + [a])[..|actions|] == actions;
    hide Step;
  }

  lemma {:induction false} RunInTwo(w: World, first: seq<Action>, second: seq<Action>)
    ensures Run(w, first + second) == Run(Run(w, first), second)
    decreases |second|
  {
    hide Step;
    if second == [] {
      assert first + second == first;
    } else {
      var front := second[..|second| - 1];
      RunInTwo(w, first, front);
      assert (first + second)[..|first + second| - 1] == first + front;
    }
  }

  predicate Initial(w: World) {
    && w.tasks == map[] && w.cluster == map[] && w.prs == [] && w.comments == map[]
    && w.queue == {} && w.pc == Idle
  }
}
