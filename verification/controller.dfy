/** The controller as it is written: Reconcile reads a DevTask object, assigns the fields of its
    status and issues calls in order. Every execution, including one that dies between two
    calls, is shown to be a run of the machine. */
module Controller {
  import opened Names
  import opened Model
  import opened Machine
  import opened Texts

  /** What happens up to and including the next call: moves of the environment, then the fate
      of the call. */
  datatype Turn = Turn(moves: seq<EnvMove>, fault: Fault, lag: nat, drop: nat)

  function MoveActions(moves: seq<EnvMove>): seq<Action> {
    seq(|moves|, i requires 0 <= i < |moves| => Env(moves[i]))
  }

  function TurnActions(turn: Turn): seq<Action> {
    MoveActions(turn.moves) + [Op(turn.fault, turn.lag, turn.drop)]
  }

  /** The actions that `turns` amount to. */
  function Plays(turns: seq<Turn>): seq<Action>
    decreases |turns|
  {
    if turns == [] then [] else Plays(turns[..|turns| - 1]) + TurnActions(turns[|turns| - 1])
  }

  lemma PlaysMore(turns: seq<Turn>, n: nat)
    requires n < |turns|
    ensures Plays(turns[..n + 1]) == Plays(turns[..n]) + TurnActions(turns[n])
  {
    assert turns[..n + 1][..n] == turns[..n];
  }

  /** The operator dies when its script ends. */
  datatype Reply<+T> = Died | Got(value: T) {
    predicate IsFailure() {
      Died?
    }

    function PropagateFailure<U>(): Reply<U>
      requires Died?
    {
      Died
    }

    function Extract(): T
      requires Got?
    {
      value
    }
  }

  /** The client through which the operator reaches the cluster and GitHub. `trace` records the
      actions of the machine that brought the world to where it is. */
  class Client {
    ghost const start: World
    ghost const plan: seq<Turn>
    ghost var trace: seq<Action>
    var w: World
    var script: seq<Turn>

    constructor (w: World, script: seq<Turn>)
      ensures Live() && this.w == w && this.script == script && start == w && plan == script && trace == []
    {
      this.w := w;
      this.script := script;
      start := w;
      plan := script;
      trace := [];
    }

    ghost predicate Valid()
      reads this
    {
      w == Run(start, trace)
    }

    /** The machine has come here by one call for every turn that has been used up, and by
        nothing else but the moves of the environment in those turns. */
    ghost predicate Live()
      reads this
    {
      && Valid()
      && |script| <= |plan|
      && script == plan[|plan| - |script|..]
      && trace == Plays(plan[..|plan| - |script|])
    }

    /** The operator stands at `pc`. */
    ghost predicate At(pc: Pc)
      reads this
    {
      Live() && w.pc == pc
    }

    /** One move of the machine. */
    method Move(a: Action)
      requires Valid()
      modifies this`w, this`trace
      ensures Valid() && w == Step(old(w), a) && trace == old(trace) + [a]
    {
      RunThen(start, trace, a);
      w := Step(w, a);
      trace := trace + [a];
    }

    /** The environment moves while the operator waits at its control point. */
    method Wait(moves: seq<EnvMove>)
      requires Valid()
      modifies this`w, this`trace
      ensures Valid() && trace == old(trace) + MoveActions(moves)
      ensures w.pc == old(w.pc) && w.backend == old(w.backend)
    {
      for i := 0 to |moves|
        invariant Valid() && trace == old(trace) + MoveActions(moves[..i])
        invariant w.pc == old(w.pc) && w.backend == old(w.backend)
      {
        EnvLeavesOperator(w, moves[i]);
        Move(Env(moves[i]));
        assert MoveActions(moves[..i + 1]) == MoveActions(moves[..i]) + [Env(moves[i])];
      }
      assert moves[..|moves|] == moves;
    }

    /** One API call. It is the one the machine makes here, and its answer takes the operator
        where the machine goes. */
    method Do(call: Call) returns (o: Reply<Response>)
      requires Live() && Next(w.pc, w.backend) == Some(call)
      modifies this
      ensures Live() && old(trace) <= trace && w.backend == old(w.backend)
      ensures o.Died? ==> script == [] && w.pc == old(w.pc)
      ensures o.Got? ==> w.pc == Resume(old(w.pc), o.value, w.clock) && Typed(call, o.value)
      ensures old(script) != [] ==>
        o.Got? && script == old(script)[1..] && trace == old(trace) + TurnActions(old(script)[0])
    {
      hide Plays, MoveActions, Run, Step, Attempt, Resume, Next, Typed;
      if script == [] {
        return Died;
      }
      var turn := script[0];
      PlaysMore(plan, |plan| - |script|);
      script := script[1..];
      Wait(turn.moves);
      var (_, r) := Attempt(w, call, turn.fault, turn.lag, turn.drop);
      CallMoves(w, call, turn.fault, turn.lag, turn.drop);
      Move(Op(turn.fault, turn.lag, turn.drop));
      o := Got(r);
      assert trace == old(trace) + TurnActions(turn);
    }
  }

  /** A task read gives the task asked for, and the two pull request reads do not give each
      other's answers. */
  predicate Typed(call: Call, r: Response) {
    && (call.GetTask? && r.GotTask? ==> r.task.name == call.name)
    && (call.GetPR? ==> !r.GotPRs?)
    && (call.ListOpenPRs? ==> !r.GotPR?)
  }

  lemma EnvLeavesOperator(w: World, m: EnvMove)
    ensures EnvStep(w, m).pc == w.pc && EnvStep(w, m).backend == w.backend
  {
    hide NsMove, TaskName, CommentsOn, FindNumber, PRAfter;
  }

  lemma CallIsTyped(w: World, call: Call, fault: Fault, lag: nat, drop: nat)
    ensures Typed(call, Attempt(w, call, fault, lag, drop).1)
    ensures var w' := Attempt(w, call, fault, lag, drop).0; w'.backend == w.backend && w'.clock == w.clock
  {
    hide NsCall, FindNumber, CommentsOn;
  }

  lemma CallMoves(w: World, call: Call, fault: Fault, lag: nat, drop: nat)
    requires Next(w.pc, w.backend) == Some(call)
    ensures var w' := Step(w, Op(fault, lag, drop));
      && w'.pc == Resume(w.pc, Attempt(w, call, fault, lag, drop).1, w.clock)
      && w'.backend == w.backend && w'.clock == w.clock
      && Typed(call, Attempt(w, call, fault, lag, drop).1)
  {
    hide Resume, Attempt, Next, Typed;
    CallIsTyped(w, call, fault, lag, drop);
  }

  // ---------------------------------------------------------------- DevTask

  /** A DevTask in memory. Reconcile assigns the status fields; the rest stays as it was read. */
  class DevTask {
    const name: string
    const spec: Spec
    const version: nat
    var phase: Phase
    var namespace: string
    var prNumber: nat
    var startedAt: Option<nat>

    constructor (t: Task)
      ensures Snapshot() == t
    {
      name := t.name;
      spec := t.spec;
      version := t.version;
      phase := t.status.phase;
      namespace := t.status.namespace;
      prNumber := t.status.prNumber;
      startedAt := t.status.startedAt;
    }

    function StatusNow(): Status
      reads this
    {
      Status(phase, namespace, prNumber, startedAt)
    }

    function Snapshot(): Task
      reads this
    {
      Task(name, spec, StatusNow(), version)
    }
  }

  function After(seconds: nat): Result {
    Result(seconds, false)
  }

  function Fail(seconds: nat): Result {
    Result(seconds, true)
  }

  // ---------------------------------------------------------------- namespace.go, secrets.go, networkpolicy.go

  /** True if the namespace is there now, created or already existing. */
  method EnsureNamespace(c: Client, task: DevTask, ghost job: Job) returns (o: Reply<bool>)
    requires c.At(MakeNamespace(task.Snapshot(), job))
    modifies c
    ensures c.Live() && old(c.trace) <= c.trace && c.w.backend == old(c.w.backend)
    ensures o.Died? ==> c.script == []
    ensures o.Got? ==>
      c.w.pc == if o.value then LookPolicy(task.Snapshot(), job) else Stop(task.Snapshot(), 0, true)
  {
    hide Run, Plays, Client.Live, NamespaceName, SecretName, AnyMentionsPR, AnyAsksClarification, LastIsHuman,
      FirstMatch;
    var r :- c.Do(CreateNamespace(NamespaceName(task.spec.issue)));
    o := Got(r == Ack || r == AlreadyExists);
  }

  /** CreateOrUpdate of the one policy of the namespace. */
  method EnsureNetworkPolicy(c: Client, task: DevTask, ghost job: Job) returns (o: Reply<bool>)
    requires c.At(LookPolicy(task.Snapshot(), job))
    modifies c
    ensures c.Live() && old(c.trace) <= c.trace && c.w.backend == old(c.w.backend)
    ensures o.Died? ==> c.script == []
    ensures o.Got? ==>
      c.w.pc == if o.value then PolicyReady(task.Snapshot(), job) else Stop(task.Snapshot(), 0, true)
  {
    hide Run, Plays, Client.Live, NamespaceName, SecretName, AnyMentionsPR, AnyAsksClarification, LastIsHuman,
      FirstMatch;
    var ns := NamespaceName(task.spec.issue);
    var r :- c.Do(Call.GetPolicy(ns));
    if r == NotFound {
      r :- c.Do(CreatePolicy(ns, SANDBOX_EGRESS));
      return Got(r == Ack);
    }
    if !r.GotPolicy? {
      return Got(false);
    }
    if r.policy == SANDBOX_EGRESS {
      return Got(true);
    }
    r :- c.Do(UpdatePolicy(ns, SANDBOX_EGRESS));
    o := Got(r == Ack);
  }

  /** None if the secret could not be read. */
  method ReadPipelineCredentials(c: Client, task: DevTask, ghost why: Why) returns (o: Reply<Option<Creds>>)
    requires c.At(ReadCreds(task.Snapshot(), why))
    modifies c
    ensures c.Live() && old(c.trace) <= c.trace && c.w.backend == old(c.w.backend)
    ensures o.Died? ==> c.script == []
    ensures o.Got? ==>
      c.w.pc == if o.value.Some? then CredsRead(task.Snapshot(), why, o.value.value)
                else CredsMissing(task.Snapshot(), why)
  {
    hide Run, Plays, Client.Live, NamespaceName, SecretName, AnyMentionsPR, AnyAsksClarification, LastIsHuman,
      FirstMatch;
    var r :- c.Do(GetCreds);
    o := Got(if r.GotCreds? then Some(r.creds) else None);
  }

  method EnsureTaskSecret(c: Client, task: DevTask, ghost job: Job, creds: Creds) returns (o: Reply<bool>)
    requires c.At(MakeSecret(task.Snapshot(), job, creds))
    modifies c
    ensures c.Live() && old(c.trace) <= c.trace && c.w.backend == old(c.w.backend)
    ensures o.Died? ==> c.script == []
    ensures o.Got? ==>
      c.w.pc == if !o.value then Stop(task.Snapshot(), 0, true)
                else if job.Revise? then DropRevision(task.Snapshot(), creds)
                else MakePod(task.Snapshot(), job)
  {
    hide Run, Plays, Client.Live, NamespaceName, SecretName, AnyMentionsPR, AnyAsksClarification, LastIsHuman,
      FirstMatch;
    var r :- c.Do(CreateSecret(NamespaceName(task.spec.issue), SecretName(task.spec.issue), creds));
    o := Got(r == Ack || r == AlreadyExists);
  }

  /** The result is dropped by the caller, whatever it is. */
  method DeleteRevisionPod(c: Client, task: DevTask, ghost creds: Creds) returns (o: Reply<bool>)
    requires c.At(DropRevision(task.Snapshot(), creds))
    modifies c
    ensures c.Live() && old(c.trace) <= c.trace && c.w.backend == old(c.w.backend)
    ensures o.Died? ==> c.script == []
    ensures o.Got? ==> c.w.pc == MakePod(task.Snapshot(), Revise(creds))
  {
    hide Run, Plays, Client.Live, NamespaceName, SecretName, AnyMentionsPR, AnyAsksClarification, LastIsHuman,
      FirstMatch;
    var r :- c.Do(DeletePod(task.namespace, RevSlot));
    o := Got(r == Ack || r == NotFound);
  }

  method DeleteTaskNamespace(c: Client, task: DevTask, ghost next: Phase) returns (o: Reply<bool>)
    requires c.At(DropNamespace(task.Snapshot(), next))
    modifies c
    ensures c.Live() && old(c.trace) <= c.trace && c.w.backend == old(c.w.backend)
    ensures o.Died? ==> c.script == []
    ensures o.Got? ==> c.w.pc == Write(task.Snapshot(), task.StatusNow().(phase := next))
  {
    hide Run, Plays, Client.Live, NamespaceName, SecretName, AnyMentionsPR, AnyAsksClarification, LastIsHuman,
      FirstMatch;
    var r :- c.Do(DeleteNamespace(task.namespace));
    o := Got(r == Ack || r == NotFound);
  }

  // ---------------------------------------------------------------- pod.go, pod_aider.go

  /** agentPod and agentPodAider. */
  function AgentPod(backend: Backend, task: Task): Pod {
    Pod(backend, FreshScript, 0, SecretName(task.spec.issue), PodPending, false, task.version)
  }

  method AgentPodResume(backend: Backend, task: DevTask) returns (pod: Pod)
    requires backend == Claude
    ensures forall creds :: pod == BuildPod(backend, task.Snapshot(), Continue(creds))
  {
    pod := AgentPod(backend, task.Snapshot());
    pod := pod.(script := ResumeScript);
  }

  /** agentPodRevision and agentPodAiderRevision: the first agent's pod under another name, with
      the script for the recorded pull request. */
  method AgentPodRevision(backend: Backend, task: DevTask) returns (pod: Pod, slot: Slot)
    ensures slot == RevSlot
    ensures forall creds :: pod == BuildPod(backend, task.Snapshot(), Revise(creds))
  {
    pod := AgentPod(backend, task.Snapshot());
    slot := RevSlot;
    pod := pod.(script := RevisionScript, prNumber := task.prNumber);
  }

  method EnsurePod(c: Client, task: DevTask, ghost job: Job, slot: Slot, pod: Pod) returns (o: Reply<bool>)
    requires c.At(MakePod(task.Snapshot(), job))
    requires slot == SlotFor(job) && pod == BuildPod(c.w.backend, task.Snapshot(), job)
    modifies c
    ensures c.Live() && old(c.trace) <= c.trace && c.w.backend == old(c.w.backend)
    ensures o.Died? ==> c.script == []
    ensures o.Got? ==>
      c.w.pc == if o.value then Write(task.Snapshot(), Provisioned(task.Snapshot(), job, c.w.clock))
                else Stop(task.Snapshot(), 0, true)
  {
    hide Run, Plays, Client.Live, NamespaceName, SecretName, AnyMentionsPR, AnyAsksClarification, LastIsHuman,
      FirstMatch;
    var r :- c.Do(CreatePod(NamespaceName(task.spec.issue), slot, pod));
    o := Got(r == Ack || r == AlreadyExists);
  }

  /** agent-rev if it can be read, else agent: the pod, or whether the error was "not found". */
  method GetTaskPod(c: Client, task: DevTask) returns (o: Reply<(Option<Pod>, bool)>)
    requires c.At(LookRevision(task.Snapshot()))
    modifies c
    ensures c.Live() && old(c.trace) <= c.trace && c.w.backend == old(c.w.backend)
    ensures o.Died? ==> c.script == []
    ensures o.Got? ==>
      c.w.pc == if o.value.0.Some? then PodSeen(task.Snapshot(), o.value.0.value)
                else Stop(task.Snapshot(), 30, !o.value.1)
  {
    hide Run, Plays, Client.Live, NamespaceName, SecretName, AnyMentionsPR, AnyAsksClarification, LastIsHuman,
      FirstMatch;
    var r :- c.Do(GetPod(task.namespace, RevSlot));
    if r.GotPod? {
      return Got((Some(r.pod), false));
    }
    r :- c.Do(GetPod(task.namespace, AgentSlot));
    o := Got((if r.GotPod? then Some(r.pod) else None, r == NotFound));
  }

  // ---------------------------------------------------------------- github_poller.go

  /** The loop of findPRForTask over the open pull requests. */
  method MatchBranch(prs: seq<PullRequest>, issue: int) returns (found: Option<PullRequest>)
    ensures found == FirstMatch(prs, issue)
    ensures issue >= 0 && found.Some? ==> exists i: nat :: FirstOfIssue(prs, i, issue) && found.value == prs[i]
    ensures issue >= 0 && found.None? ==> NoneOfIssue(prs, issue)
  {
    if issue >= 0 {
      SearchGivesFirst(prs, issue);
    }
    hide IssueHead;
    for i := 0 to |prs|
      invariant FirstMatch(prs, issue) == FirstMatch(prs[i..], issue)
    {
      if LegacyBranch(issue) + "-" <= prs[i].head || prs[i].head == LegacyBranch(issue) {
        return Some(prs[i]);
      }
    }
    return None;
  }

  /** A pull request or none, or no answer at all. */
  method FindPRForTask(c: Client, task: DevTask, ghost quest: Quest) returns (o: Reply<Option<Option<PullRequest>>>)
    requires c.At(ReadCreds(task.Snapshot(), ToFindPR(quest)))
    modifies c
    ensures c.Live() && old(c.trace) <= c.trace && c.w.backend == old(c.w.backend)
    ensures o.Died? ==> c.script == []
    ensures o.Got? ==>
      c.w.pc == if o.value.Some? then PRAnswer(task.Snapshot(), quest, o.value.value)
                else PRUnknown(task.Snapshot(), quest)
  {
    hide Run, Plays, Client.Live, NamespaceName, SecretName, AnyMentionsPR, AnyAsksClarification, LastIsHuman,
      FirstMatch;
    var creds :- ReadPipelineCredentials(c, task, ToFindPR(quest));
    if creds.None? {
      return Got(None);
    }
    if task.prNumber != 0 {
      var r :- c.Do(GetPR(task.prNumber));
      return Got(if r.GotPR? then Some(Some(r.pr)) else None);
    }
    var r :- c.Do(ListOpenPRs);
    if !r.GotPRs? {
      return Got(None);
    }
    var found := MatchBranch(r.prs, task.spec.issue);
    o := Got(Some(found));
  }

  /** The loop of ensurePRCommentOnIssue. */
  method HasPRComment(comments: seq<Comment>) returns (b: bool)
    ensures b == AnyMentionsPR(comments)
    ensures b <==> Linked(comments)
  {
    LinkIsRead(comments);
    for i := 0 to |comments|
      invariant forall q :: 0 <= q < i ==> !MentionsPR(comments[q].body)
    {
      if MentionsPR(comments[i].body) {
        return true;
      }
    }
    return false;
  }

  /** True if the issue mentions the pull request in the end. */
  method EnsurePRCommentOnIssue(c: Client, task: DevTask, pr: PullRequest) returns (o: Reply<bool>)
    requires c.At(PRAnswer(task.Snapshot(), AfterSuccess, Some(pr)))
    modifies c
    ensures c.Live() && old(c.trace) <= c.trace && c.w.backend == old(c.w.backend)
    ensures o.Died? ==> c.script == []
    ensures o.Got? ==>
      c.w.pc == if o.value then Write(task.Snapshot(), ReviewStatus(task.Snapshot(), pr.number))
                else Stop(task.Snapshot(), 30, true)
  {
    hide Run, Plays, Client.Live, NamespaceName, SecretName, AnyMentionsPR, AnyAsksClarification, LastIsHuman,
      FirstMatch;
    if pr.url == "" {
      return Got(true);
    }
    var creds :- ReadPipelineCredentials(c, task, ToComment(pr));
    if creds.None? {
      return Got(false);
    }
    var r :- c.Do(ListComments(task.spec.issue));
    if !r.GotComments? {
      return Got(false);
    }
    var there := HasPRComment(r.comments);
    if there {
      return Got(true);
    }
    r :- c.Do(CreateComment(task.spec.issue, "PR: " + pr.url));
    o := Got(r == Ack);
  }

  /** The loop of hasRecentClarificationComment. */
  method HasClarification(comments: seq<Comment>) returns (b: bool)
    ensures b == AnyAsksClarification(comments)
    ensures b <==> Requested(comments)
  {
    RequestIsRead(comments);
    for i := 0 to |comments|
      invariant forall q :: 0 <= q < i ==> !AsksClarification(comments[q].body)
    {
      if "/clarification:" <= comments[i].body {
        return true;
      }
    }
    return false;
  }

  /** True only if the comments were read and one asks for clarification. */
  method HasRecentClarificationComment(c: Client, task: DevTask) returns (o: Reply<bool>)
    requires c.At(ReadCreds(task.Snapshot(), ToClarify))
    modifies c
    ensures c.Live() && old(c.trace) <= c.trace && c.w.backend == old(c.w.backend)
    ensures o.Died? ==> c.script == []
    ensures o.Got? ==>
      c.w.pc == if o.value then DropNamespace(task.Snapshot(), Blocked)
                else Write(task.Snapshot(), task.StatusNow().(phase := Failed))
  {
    hide Run, Plays, Client.Live, NamespaceName, SecretName, AnyMentionsPR, AnyAsksClarification, LastIsHuman,
      FirstMatch;
    var creds :- ReadPipelineCredentials(c, task, ToClarify);
    if creds.None? {
      return Got(false);
    }
    var r :- c.Do(ListComments(task.spec.issue));
    if !r.GotComments? {
      return Got(false);
    }
    var asked := HasClarification(r.comments);
    o := Got(asked);
  }

  /** The loop of humanRepliedAfterClarification over the known bots. */
  method LastCommentIsHuman(comments: seq<Comment>) returns (b: bool)
    ensures b == LastIsHuman(comments)
    ensures b <==> Replied(comments)
  {
    HumanHasLastWord(comments);
    if |comments| == 0 {
      return false;
    }
    var login := Login(comments[|comments| - 1]);
    var bots := ["github-actions[bot]", "app/github-actions"];
    for i := 0 to |bots|
      invariant forall q :: 0 <= q < i ==> bots[q] != login
    {
      if login == bots[i] {
        return false;
      }
    }
    assert bots[0] != login && bots[1] != login;
    return true;
  }

  method HumanRepliedAfterClarification(c: Client, task: DevTask) returns (o: Reply<bool>)
    requires c.At(ReadCreds(task.Snapshot(), ToHearReply))
    modifies c
    ensures c.Live() && old(c.trace) <= c.trace && c.w.backend == old(c.w.backend)
    ensures o.Died? ==> c.script == []
    ensures o.Got? ==>
      c.w.pc == if o.value then ReadCreds(task.Snapshot(), ToContinue) else Stop(task.Snapshot(), 60, false)
  {
    hide Run, Plays, Client.Live, NamespaceName, SecretName, AnyMentionsPR, AnyAsksClarification, LastIsHuman,
      FirstMatch;
    var creds :- ReadPipelineCredentials(c, task, ToHearReply);
    if creds.None? {
      return Got(false);
    }
    var r :- c.Do(ListComments(task.spec.issue));
    if !r.GotComments? {
      return Got(false);
    }
    var human := LastCommentIsHuman(r.comments);
    o := Got(human);
  }

  /** The loop of prHasLabel. */
  method LabelIn(labels: seq<string>, tag: string) returns (b: bool)
    ensures b == (tag in labels)
  {
    for i := 0 to |labels|
      invariant tag !in labels[..i]
    {
      if labels[i] == tag {
        return true;
      }
    }
    return false;
  }

  /** Whether the recorded pull request carries needs-revision, if that could be found out. */
  method PRNeedsRevision(c: Client, task: DevTask) returns (o: Reply<bool>)
    requires task.prNumber == 0 ==> c.At(Stop(task.Snapshot(), 120, false))
    requires task.prNumber != 0 ==> c.At(ReadCreds(task.Snapshot(), ToSeeLabel))
    modifies c
    ensures c.Live() && old(c.trace) <= c.trace && c.w.backend == old(c.w.backend)
    ensures o.Died? ==> c.script == []
    ensures o.Got? ==>
      c.w.pc == if o.value then Write(task.Snapshot(), task.StatusNow().(phase := AwaitingRevision))
                else Stop(task.Snapshot(), 120, false)
  {
    hide Run, Plays, Client.Live, NamespaceName, SecretName, AnyMentionsPR, AnyAsksClarification, LastIsHuman,
      FirstMatch;
    if task.prNumber == 0 {
      return Got(false);
    }
    var creds :- ReadPipelineCredentials(c, task, ToSeeLabel);
    if creds.None? {
      return Got(false);
    }
    var r :- c.Do(GetPR(task.prNumber));
    if !r.GotPR? {
      return Got(false);
    }
    var there := LabelIn(r.pr.labels, NEEDS_REVISION);
    o := Got(there);
  }

  /** The outcome is logged by the caller and otherwise dropped. */
  method RemovePRLabel(c: Client, task: DevTask, ghost first: Creds) returns (o: Reply<bool>)
    requires c.At(CredsRead(task.Snapshot(), ToRevise, first))
    modifies c
    ensures c.Live() && old(c.trace) <= c.trace && c.w.backend == old(c.w.backend)
    ensures o.Died? ==> c.script == []
    ensures o.Got? ==> c.w.pc == MakeNamespace(task.Snapshot(), Revise(first))
  {
    hide Run, Plays, Client.Live, NamespaceName, SecretName, AnyMentionsPR, AnyAsksClarification, LastIsHuman,
      FirstMatch;
    if task.prNumber == 0 {
      return Got(true);
    }
    var creds :- ReadPipelineCredentials(c, task, ToRemoveLabel(first));
    if creds.None? {
      return Got(false);
    }
    var r :- c.Do(RemoveLabel(task.prNumber, NEEDS_REVISION));
    o := Got(r == Ack);
  }

  // ---------------------------------------------------------------- devtask_controller.go

  /** Status().Update of the task as it is in memory. */
  method UpdateTaskStatus(c: Client, task: DevTask, seconds: nat, ghost read: Task) returns (o: Reply<Result>)
    requires read == task.Snapshot().(status := read.status)
    requires c.At(Write(read, task.StatusNow())) && seconds == Pause(task.phase)
    modifies c
    ensures c.Live() && old(c.trace) <= c.trace
    ensures o.Died? ==> c.script == []
    ensures o.Got? ==> c.w.pc == Done(task.name, o.value)
  {
    hide Run, Plays, Client.Live, NamespaceName, SecretName, AnyMentionsPR, AnyAsksClarification, LastIsHuman,
      FirstMatch;
    var r :- c.Do(UpdateStatus(task.name, task.version, task.StatusNow()));
    o := Got(Result(seconds, r != Ack));
  }

  /** Namespace, policy and secret, for the two branches that hold credentials already. */
  method ProvisionAgain(c: Client, task: DevTask, ghost job: Job, creds: Creds) returns (o: Reply<bool>)
    requires c.At(MakeNamespace(task.Snapshot(), job)) && !job.Launch? && job.creds == creds
    modifies c
    ensures c.Live() && old(c.trace) <= c.trace && c.w.backend == old(c.w.backend)
    ensures o.Died? ==> c.script == []
    ensures o.Got? ==>
      c.w.pc == if !o.value then Stop(task.Snapshot(), 0, true)
                else if job.Revise? then DropRevision(task.Snapshot(), creds)
                else MakePod(task.Snapshot(), job)
  {
    hide Resume, Next, Run, Plays, Client.Live, NamespaceName, SecretName;
    var there :- EnsureNamespace(c, task, job);
    if !there {
      return Got(false);
    }
    there :- EnsureNetworkPolicy(c, task, job);
    if !there {
      return Got(false);
    }
    o := EnsureTaskSecret(c, task, job, creds);
  }

  /** The tail that the three provisioning branches share: pod, then the switch to Building. */
  method LaunchPod(c: Client, task: DevTask, ghost job: Job, slot: Slot, pod: Pod) returns (o: Reply<Result>)
    requires c.At(MakePod(task.Snapshot(), job))
    requires slot == SlotFor(job) && pod == BuildPod(c.w.backend, task.Snapshot(), job)
    modifies c, task
    ensures c.Live() && old(c.trace) <= c.trace
    ensures o.Died? ==> c.script == []
    ensures o.Got? ==> c.w.pc == Done(task.name, o.value)
  {
    hide Run, Plays, Client.Live, NamespaceName, SecretName, AnyMentionsPR, AnyAsksClarification, LastIsHuman,
      FirstMatch;
    ghost var read := task.Snapshot();
    var there :- EnsurePod(c, task, job, slot, pod);
    if !there {
      return Got(Fail(0));
    }
    var now := c.w.clock;
    task.phase := Building;
    if slot == AgentSlot {
      task.namespace := NamespaceName(task.spec.issue);
    }
    task.startedAt := Some(now);
    o := UpdateTaskStatus(c, task, 30, read);
  }

  /** case "": the namespace, the policy, the secret, the pod, then Building. */
  method LaunchTask(c: Client, task: DevTask) returns (o: Reply<Result>)
    requires c.At(MakeNamespace(task.Snapshot(), Launch))
    modifies c, task
    ensures c.Live() && old(c.trace) <= c.trace
    ensures o.Died? ==> c.script == []
    ensures o.Got? ==> c.w.pc == Done(task.name, o.value)
  {
    hide Resume, Next, Run, Plays, Client.Live, NamespaceName, SecretName;
    var there :- EnsureNamespace(c, task, Launch);
    if !there {
      return Got(Fail(0));
    }
    there :- EnsureNetworkPolicy(c, task, Launch);
    if !there {
      return Got(Fail(0));
    }
    var creds :- ReadPipelineCredentials(c, task, ToLaunch);
    if creds.None? {
      return Got(Fail(30));
    }
    there :- EnsureTaskSecret(c, task, Launch, creds.value);
    if !there {
      return Got(Fail(0));
    }
    var pod := AgentPod(c.w.backend, task.Snapshot());
    o := LaunchPod(c, task, Launch, AgentSlot, pod);
  }

  /** case AwaitingRevision: take the label off, provision again, replace the revision pod. */
  method ReviseTask(c: Client, task: DevTask) returns (o: Reply<Result>)
    requires c.At(ReadCreds(task.Snapshot(), ToRevise))
    modifies c, task
    ensures c.Live() && old(c.trace) <= c.trace
    ensures o.Died? ==> c.script == []
    ensures o.Got? ==> c.w.pc == Done(task.name, o.value)
  {
    hide Resume, Next, Run, Plays, Client.Live, NamespaceName, SecretName;
    var creds :- ReadPipelineCredentials(c, task, ToRevise);
    if creds.None? {
      return Got(Fail(30));
    }
    ghost var job := Revise(creds.value);
    var _ :- RemovePRLabel(c, task, creds.value);
    var there :- ProvisionAgain(c, task, job, creds.value);
    if !there {
      return Got(Fail(0));
    }
    var _ :- DeleteRevisionPod(c, task, creds.value);
    var pod, slot := AgentPodRevision(c.w.backend, task);
    o := LaunchPod(c, task, job, slot, pod);
  }

  /** case BlockedOnClarification: once a human has the last word, provision and resume. */
  method ContinueTask(c: Client, task: DevTask) returns (o: Reply<Result>)
    requires c.At(ReadCreds(task.Snapshot(), ToHearReply))
    modifies c, task
    ensures c.Live() && old(c.trace) <= c.trace
    ensures o.Died? ==> c.script == []
    ensures o.Got? ==> c.w.pc == Done(task.name, o.value)
  {
    hide Resume, Next, Run, Plays, Client.Live, NamespaceName, SecretName;
    var replied :- HumanRepliedAfterClarification(c, task);
    if !replied {
      return Got(After(60));
    }
    var creds :- ReadPipelineCredentials(c, task, ToContinue);
    if creds.None? {
      return Got(Fail(30));
    }
    ghost var job := Continue(creds.value);
    var there :- ProvisionAgain(c, task, job, creds.value);
    if !there {
      return Got(Fail(0));
    }
    var pod := AgentPod(c.w.backend, task.Snapshot());
    if c.w.backend == Claude {
      pod := AgentPodResume(c.w.backend, task);
    }
    o := LaunchPod(c, task, job, AgentSlot, pod);
  }

  /** The pod has succeeded: there must be a pull request to show for it. */
  method CloseOut(c: Client, task: DevTask) returns (o: Reply<Result>)
    requires c.At(ReadCreds(task.Snapshot(), ToFindPR(AfterSuccess)))
    modifies c, task
    ensures c.Live() && old(c.trace) <= c.trace
    ensures o.Died? ==> c.script == []
    ensures o.Got? ==> c.w.pc == Done(task.name, o.value)
  {
    hide Resume, Next, Run, Plays, Client.Live, NamespaceName, SecretName;
    ghost var read := task.Snapshot();
    var found :- FindPRForTask(c, task, AfterSuccess);
    if found.None? {
      return Got(Fail(30));
    }
    if found.value.None? {
      task.phase := Failed;
      o := UpdateTaskStatus(c, task, 0, read);
      return;
    }
    var pr := found.value.value;
    var mentioned :- EnsurePRCommentOnIssue(c, task, pr);
    if !mentioned {
      return Got(Fail(30));
    }
    task.prNumber := pr.number;
    task.phase := AwaitingReview;
    o := UpdateTaskStatus(c, task, 120, read);
  }

  /** The pod has failed: either it asked for clarification, or the task has failed. */
  method GiveUp(c: Client, task: DevTask) returns (o: Reply<Result>)
    requires c.At(ReadCreds(task.Snapshot(), ToClarify))
    modifies c, task
    ensures c.Live() && old(c.trace) <= c.trace
    ensures o.Died? ==> c.script == []
    ensures o.Got? ==> c.w.pc == Done(task.name, o.value)
  {
    hide Resume, Next, Run, Plays, Client.Live, NamespaceName, SecretName;
    ghost var read := task.Snapshot();
    var asked :- HasRecentClarificationComment(c, task);
    if asked {
      var _ :- DeleteTaskNamespace(c, task, Blocked);
      task.phase := Blocked;
      o := UpdateTaskStatus(c, task, 60, read);
      return;
    }
    task.phase := Failed;
    o := UpdateTaskStatus(c, task, 0, read);
  }

  /** case Building, Running: follow the pod. */
  method FollowPod(c: Client, task: DevTask) returns (o: Reply<Result>)
    requires c.At(LookRevision(task.Snapshot()))
    modifies c, task
    ensures c.Live() && old(c.trace) <= c.trace
    ensures o.Died? ==> c.script == []
    ensures o.Got? ==> c.w.pc == Done(task.name, o.value)
  {
    hide Resume, Next, Run, Plays, Client.Live, NamespaceName, SecretName;
    ghost var read := task.Snapshot();
    var seen :- GetTaskPod(c, task);
    if seen.0.None? {
      return Got(Result(30, !seen.1));
    }
    match seen.0.value.phase {
      case PodRunning =>
        if task.phase != Running {
          task.phase := Running;
          o := UpdateTaskStatus(c, task, 30, read);
          return;
        }
      case PodSucceeded =>
        o := CloseOut(c, task);
        return;
      case PodFailed =>
        o := GiveUp(c, task);
        return;
      case PodPending =>
    }
    o := Got(After(30));
  }

  /** case AwaitingReview: merged or closed, sent back, or still waiting. */
  method AwaitReview(c: Client, task: DevTask) returns (o: Reply<Result>)
    requires c.At(ReadCreds(task.Snapshot(), ToFindPR(ForReview)))
    modifies c, task
    ensures c.Live() && old(c.trace) <= c.trace
    ensures o.Died? ==> c.script == []
    ensures o.Got? ==> c.w.pc == Done(task.name, o.value)
  {
    hide Resume, Next, Run, Plays, Client.Live, NamespaceName, SecretName;
    ghost var read := task.Snapshot();
    var found :- FindPRForTask(c, task, ForReview);
    if found.None? {
      return Got(After(120));
    }
    if found.value.Some? && (found.value.value.merged || !found.value.value.open) {
      var _ :- DeleteTaskNamespace(c, task, Completed);
      task.phase := Completed;
      o := UpdateTaskStatus(c, task, 0, read);
      return;
    }
    var revise :- PRNeedsRevision(c, task);
    if revise {
      task.phase := AwaitingRevision;
      o := UpdateTaskStatus(c, task, 0, read);
      return;
    }
    o := Got(After(120));
  }

  /** One reconciliation. It makes exactly the calls the machine makes, in order, and returns
      what the machine returns; if the operator dies on the way, it has made a prefix of them. */
  method Reconcile(c: Client, name: string) returns (o: Reply<Result>)
    requires c.At(Fetch(name))
    modifies c
    ensures c.Live() && old(c.trace) <= c.trace
    ensures o.Died? ==> c.script == []
    ensures o.Got? ==> c.w.pc == Done(name, o.value)
  {
    hide Run, Plays, Client.Live, NamespaceName, SecretName, AnyMentionsPR, AnyAsksClarification, LastIsHuman,
      FirstMatch;
    var r :- c.Do(GetTask(name));
    if !r.GotTask? {
      return Got(Result(0, r != NotFound));
    }
    var task := new DevTask(r.task);
    match task.phase {
      case New => o := LaunchTask(c, task);
      case Building => o := FollowPod(c, task);
      case Running => o := FollowPod(c, task);
      case AwaitingReview => o := AwaitReview(c, task);
      case AwaitingRevision => o := ReviseTask(c, task);
      case Blocked => o := ContinueTask(c, task);
      case Completed => o := Got(After(0));
      case Failed => o := Got(After(0));
      case Pending => o := Got(After(30));
    }
  }
}
