/** What every run keeps, whatever is lost, late, stale, truncated or crashed: the committed
    history of a task is a path of the transition graph, and the point Reconcile has reached
    agrees with the status it read. */
module Base {
  import opened Names
  import opened Model
  import opened Machine

  // ---------------------------------------------------------------- histories

  /** The transition graph of the phases. */
  predicate PhaseEdge(p: Phase, q: Phase) {
    match p
    case New => q == Building
    case Building => q == Running || q == AwaitingReview || q == Failed || q == Blocked
    case Running => q == AwaitingReview || q == Failed || q == Blocked
    case AwaitingReview => q == Completed || q == AwaitingRevision
    case AwaitingRevision => q == Building
    case Blocked => q == Building
    case _ => false
  }

  /** One commit: an edge of the graph that keeps a recorded pull request number and records
      one only on the way to AwaitingReview. */
  predicate StatusEdge(s: Status, s': Status) {
    && PhaseEdge(s.phase, s'.phase)
    && (s.prNumber != 0 || s'.phase != AwaitingReview ==> s'.prNumber == s.prNumber)
  }

  predicate HasPR(p: Phase) {
    p == AwaitingReview || p == AwaitingRevision || p == Completed
  }

  predicate StatusOk(s: Status, issue: int) {
    && s.phase != Pending
    && (s.phase == New ==> s == INITIAL_STATUS)
    && (s.phase != New ==> s.namespace == NamespaceName(issue))
    && (HasPR(s.phase) ==> s.prNumber > 0)
  }

  predicate LogOk(log: seq<Status>, issue: int) {
    && |log| > 0
    && log[0] == INITIAL_STATUS
    && (forall i :: 0 <= i < |log| ==> StatusOk(log[i], issue))
    && (forall i :: 0 < i < |log| ==> StatusEdge(log[i - 1], log[i]))
  }

  predicate RecordOk(repo: string, name: string, rec: Record) {
    && rec.spec.issue >= 1
    && rec.spec.repo == repo
    && name == TaskName(repo, rec.spec.issue)
    && LogOk(rec.log, rec.spec.issue)
  }

  // ---------------------------------------------------------------- control points

  /** The task copy Reconcile holds, if it has read one. */
  function Held(pc: Pc): Option<Task> {
    match pc
    case Idle => None
    case Fetch(_) => None
    case Done(_, _) => None
    case ReadCreds(t, _) => Some(t)
    case MakeNamespace(t, _) => Some(t)
    case LookPolicy(t, _) => Some(t)
    case PutPolicy(t, _, _) => Some(t)
    case MakeSecret(t, _, _) => Some(t)
    case DropRevision(t, _) => Some(t)
    case MakePod(t, _) => Some(t)
    case LookRevision(t) => Some(t)
    case LookAgent(t) => Some(t)
    case LookPR(t, _) => Some(t)
    case LookComments(t, _) => Some(t)
    case PostComment(t, _) => Some(t)
    case LookClarification(t) => Some(t)
    case LookReply(t) => Some(t)
    case LookLabel(t) => Some(t)
    case DropLabel(t, _) => Some(t)
    case DropNamespace(t, _) => Some(t)
    case Write(t, _) => Some(t)
  }

  /** The task the worker is busy with. */
  function Owner(pc: Pc): Option<string> {
    match pc
    case Idle => None
    case Fetch(name) => Some(name)
    case Done(name, _) => Some(name)
    case _ => if Held(pc).Some? then Some(Held(pc).value.name) else None
  }

  /** The phases whose branch provisions a namespace and creates a pod. */
  predicate Provisions(p: Phase) {
    p == New || p == AwaitingRevision || p == Blocked
  }

  predicate JobFits(p: Phase, job: Job) {
    match job
    case Launch => p == New
    case Revise(_) => p == AwaitingRevision
    case Continue(_) => p == Blocked
  }

  predicate Active(p: Phase) {
    p == Building || p == Running
  }

  predicate QuestFits(p: Phase, quest: Quest) {
    if quest == AfterSuccess then Active(p) else p == AwaitingReview
  }

  /** A pull request that may be recorded in `s`. */
  predicate Recordable(s: Status, pr: PullRequest) {
    pr.number > 0 && (s.prNumber != 0 ==> pr.number == s.prNumber)
  }

  predicate WhyFits(s: Status, why: Why) {
    match why
    case ToLaunch => s.phase == New
    case ToRevise => s.phase == AwaitingRevision
    case ToRemoveLabel(_) => s.phase == AwaitingRevision
    case ToContinue => s.phase == Blocked
    case ToHearReply => s.phase == Blocked
    case ToFindPR(quest) => QuestFits(s.phase, quest)
    case ToComment(pr) => Active(s.phase) && Recordable(s, pr)
    case ToClarify => Active(s.phase)
    case ToSeeLabel => s.phase == AwaitingReview
  }

  /** The branch `pc` lies on is the one for the phase that was read. */
  predicate PcFits(pc: Pc) {
    match pc
    case Idle => true
    case Fetch(_) => true
    case Done(_, _) => true
    case ReadCreds(t, why) => WhyFits(t.status, why)
    case MakeNamespace(t, job) => JobFits(t.status.phase, job)
    case LookPolicy(t, job) => JobFits(t.status.phase, job)
    case PutPolicy(t, job, _) => JobFits(t.status.phase, job)
    case MakeSecret(t, job, creds) => JobFits(t.status.phase, job)
    case DropRevision(t, _) => t.status.phase == AwaitingRevision
    case MakePod(t, job) => JobFits(t.status.phase, job)
    case LookRevision(t) => Active(t.status.phase)
    case LookAgent(t) => Active(t.status.phase)
    case LookPR(t, quest) => QuestFits(t.status.phase, quest)
    case LookComments(t, pr) => Active(t.status.phase) && Recordable(t.status, pr)
    case PostComment(t, pr) => Active(t.status.phase) && Recordable(t.status, pr)
    case LookClarification(t) => Active(t.status.phase)
    case LookReply(t) => t.status.phase == Blocked
    case LookLabel(t) => t.status.phase == AwaitingReview
    case DropLabel(t, _) => t.status.phase == AwaitingRevision
    case DropNamespace(t, next) =>
      (next == Blocked && Active(t.status.phase)) || (next == Completed && t.status.phase == AwaitingReview)
    case Write(t, s) => StatusEdge(t.status, s) && StatusOk(s, t.spec.issue)
  }

  /** `t` is a copy of some committed version of a stored task. */
  predicate Snapshot(tasks: map<string, Record>, t: Task) {
    && t.name in tasks
    && t.spec == tasks[t.name].spec
    && t.version < |tasks[t.name].log|
    && t.status == tasks[t.name].log[t.version]
  }

  predicate PcOk(tasks: map<string, Record>, pc: Pc) {
    && PcFits(pc)
    && (Owner(pc).Some? ==> Owner(pc).value in tasks)
    && (Held(pc).Some? ==> Snapshot(tasks, Held(pc).value))
  }

  predicate TasksOk(repo: string, tasks: map<string, Record>) {
    forall name :: name in tasks ==> RecordOk(repo, name, tasks[name])
  }

  /** Pull request numbers are positive and name one pull request. */
  predicate PRsOk(prs: seq<PullRequest>) {
    && (forall i :: 0 <= i < |prs| ==> prs[i].number > 0)
    && (forall i, j :: 0 <= i < j < |prs| ==> prs[i].number != prs[j].number)
  }

  predicate Basic(w: World) {
    TasksOk(w.repo, w.tasks) && PcOk(w.tasks, w.pc) && PRsOk(w.prs) && w.queue <= w.tasks.Keys
  }

  // ---------------------------------------------------------------- one call

  /** `r` can be the answer to the call that `pc` waits on. */
  predicate Answer(w: World, pc: Pc, r: Response) {
    && (r.GotTask? ==>
          && pc.Fetch?
          && r.task.name == pc.name
          && Snapshot(w.tasks, r.task)
          && StatusOk(r.task.status, r.task.spec.issue))
    && (r.GotPR? ==>
          && (pc.LookPR? || pc.LookLabel?)
          && r.pr.number == pc.t.status.prNumber > 0
          && r.pr in w.prs)
    && (r.GotPRs? ==>
          && pc.LookPR?
          && pc.t.status.prNumber == 0
          && forall pr :: pr in r.prs ==> pr in w.prs && pr.open && pr.number > 0)
  }

  /** Where a call takes the operator. */
  lemma OpGoes(w: World, fault: Fault, lag: nat, drop: nat)
    requires Next(w.pc, w.backend).Some?
    ensures Step(w, Op(fault, lag, drop)).pc
         == Resume(w.pc, Attempt(w, Next(w.pc, w.backend).value, fault, lag, drop).1, w.clock)
  {
    hide Resume, Next, Attempt;
  }

  lemma NsCallAnswers(obj: Option<Namespace>, call: Call)
    requires OnCluster(call)
    ensures var r := NsCall(obj, call).1; !r.GotTask? && !r.GotPR? && !r.GotPRs?
  {
  }

  lemma AnswerFits(w: World, fault: Fault, lag: nat, drop: nat)
    requires Basic(w) && Next(w.pc, w.backend).Some?
    ensures Answer(w, w.pc, Attempt(w, Next(w.pc, w.backend).value, fault, lag, drop).1)
  {
    hide NamespaceName, SecretName, TaskName, BranchOf, PcFits, BuildPod, StatusOk, StatusEdge, NsCall, AddComment;
    var call := Next(w.pc, w.backend).value;
    if OnCluster(call) {
      NsCallAnswers(Lookup(w, call.ns), call);
    } else if call.GetTask? {
      assert RecordOk(w.repo, call.name, w.tasks[call.name]);
    } else if call.ListOpenPRs? {
      var prs := OpenOnes(w.prs);
      assert forall pr :: pr in Page(prs, drop) ==> pr in prs;
    }
  }

  lemma LookedPRFits(w: World, pc: Pc, r: Response, now: nat)
    requires pc.LookPR? && PcFits(pc) && Answer(w, pc, r) && StatusOk(pc.t.status, pc.t.spec.issue)
    ensures PcFits(Resume(pc, r, now))
  {
    hide NamespaceName, SecretName, BranchOf;
    if r.GotPRs? {
      var m := FirstMatch(r.prs, pc.t.spec.issue);
      assert m.Some? ==> m.value.number > 0;
      hide FirstMatch;
    }
  }

  lemma CredsFit(w: World, pc: Pc, r: Response, now: nat)
    requires pc.ReadCreds? && PcFits(pc) && StatusOk(pc.t.status, pc.t.spec.issue)
    ensures PcFits(Resume(pc, r, now))
  {
    hide NamespaceName;
  }

  lemma OthersFit(w: World, pc: Pc, r: Response, now: nat)
    requires !pc.ReadCreds? && !pc.LookPR? && PcFits(pc) && Answer(w, pc, r)
    requires Held(pc).Some? ==> StatusOk(Held(pc).value.status, Held(pc).value.spec.issue)
    ensures PcFits(Resume(pc, r, now))
  {
    hide NamespaceName, SecretName, AnyMentionsPR, AnyAsksClarification, LastIsHuman, FirstMatch, PRAnswer, CredsRead,
      CredsMissing, Pause;
  }

  lemma ResumeFits(w: World, pc: Pc, r: Response, now: nat)
    requires PcFits(pc) && Answer(w, pc, r)
    requires Held(pc).Some? ==> StatusOk(Held(pc).value.status, Held(pc).value.spec.issue)
    ensures PcFits(Resume(pc, r, now))
  {
    hide Resume, PcFits, Answer, StatusOk;
    if pc.LookPR? {
      LookedPRFits(w, pc, r, now);
    } else if pc.ReadCreds? {
      CredsFit(w, pc, r, now);
    } else {
      OthersFit(w, pc, r, now);
    }
  }

  /** Reconcile stays on one task and one copy of it. */
  lemma ResumeHolds(pc: Pc, r: Response, now: nat)
    requires r.GotTask? ==> pc.Fetch? && r.task.name == pc.name
    ensures Owner(Resume(pc, r, now)) == Owner(pc)
    ensures Held(Resume(pc, r, now)).Some? ==>
              Held(Resume(pc, r, now)) == if pc.Fetch? && r.GotTask? then Some(r.task) else Held(pc)
  {
  }

  lemma ExecElsewhere(w: World, call: Call, lag: nat, drop: nat)
    ensures var w' := Exec(w, call, lag, drop).0;
      && w'.repo == w.repo && w'.backend == w.backend && w'.pc == w.pc && w'.creds == w.creds && w'.clock == w.clock
      && (!call.UpdateStatus? ==> w'.tasks == w.tasks && w'.queue == w.queue)
      && (!call.RemoveLabel? ==> w'.prs == w.prs)
  {
  }

  lemma AttemptElsewhere(w: World, call: Call, fault: Fault, lag: nat, drop: nat)
    ensures var w' := Attempt(w, call, fault, lag, drop).0;
      && w'.repo == w.repo && w'.backend == w.backend && w'.pc == w.pc && w'.creds == w.creds && w'.clock == w.clock
      && (!call.UpdateStatus? ==> w'.tasks == w.tasks && w'.queue == w.queue)
      && (!call.RemoveLabel? ==> w'.prs == w.prs)
  {
    ExecElsewhere(w, call, lag, drop);
    hide Exec;
  }

  predicate Commits(rec: Record, rec': Record, pc: Pc, name: string) {
    && pc.Write? && pc.t.name == name && pc.t.version == |rec.log| - 1
    && rec'.log == rec.log + [pc.status]
  }

  lemma WriteOnTasks(w: World, fault: Fault, lag: nat, drop: nat, name: string)
    requires w.pc.Write? && w.pc.t.name in w.tasks && w.queue <= w.tasks.Keys && name in w.tasks
    ensures var w' := Step(w, Op(fault, lag, drop));
      && w'.tasks.Keys == w.tasks.Keys
      && w'.tasks[name].spec == w.tasks[name].spec
      && (w'.tasks[name].log == w.tasks[name].log
          || (Commits(w.tasks[name], w'.tasks[name], w.pc, name) && name in w'.queue))
      && (w.pc.t.name != name ==> w'.tasks[name] == w.tasks[name])
      && w.queue <= w'.queue <= w'.tasks.Keys
  {
    hide Resume, ExecCluster, ExecGitHub;
  }

  /** A call changes no stored task but the one Reconcile holds, and that one only by a
      compare-and-swap that appends the status being written. */
  lemma CallOnTasks(w: World, fault: Fault, lag: nat, drop: nat, name: string)
    requires PcOk(w.tasks, w.pc) && w.queue <= w.tasks.Keys && Next(w.pc, w.backend).Some? && name in w.tasks
    ensures var w' := Step(w, Op(fault, lag, drop));
      && w'.tasks.Keys == w.tasks.Keys
      && w'.tasks[name].spec == w.tasks[name].spec
      && (w'.tasks[name].log == w.tasks[name].log
          || (Commits(w.tasks[name], w'.tasks[name], w.pc, name) && name in w'.queue))
      && (Owner(w.pc) != Some(name) ==> w'.tasks[name] == w.tasks[name])
      && w.queue <= w'.queue <= w'.tasks.Keys
  {
    hide Resume, PcFits, Attempt, Next;
    if w.pc.Write? {
      WriteOnTasks(w, fault, lag, drop, name);
    } else {
      OnlyWriteUpdates(w.pc, w.backend);
      AttemptElsewhere(w, Next(w.pc, w.backend).value, fault, lag, drop);
    }
  }

  lemma OnlyWriteUpdates(pc: Pc, backend: Backend)
    requires Next(pc, backend).Some?
    ensures Next(pc, backend).value.UpdateStatus? ==> pc.Write?
    ensures Next(pc, backend).value.RemoveLabel? ==> pc.DropLabel?
    ensures Next(pc, backend).value.GetTask? ==> pc.Fetch?
    ensures Next(pc, backend).value.CreateComment? ==> pc.PostComment?
  {
    hide NamespaceName, SecretName;
  }

  /** The removal call takes the label off the recorded pull request, or nothing happens. */
  lemma RemovalOnPRs(w: World, fault: Fault, lag: nat, drop: nat)
    requires w.pc.DropLabel?
    ensures var prs := Step(w, Op(fault, lag, drop)).prs;
      var i := FindNumber(w.prs, w.pc.t.status.prNumber);
      prs == w.prs || (i >= 0 && prs == w.prs[i := DropLabelFrom(w.prs[i], NEEDS_REVISION)])
  {
    hide Resume, FindNumber, DropLabelFrom, NsCall, ExecTask;
  }

  lemma CallOnPRs(w: World, fault: Fault, lag: nat, drop: nat)
    requires Next(w.pc, w.backend).Some?
    ensures var w' := Step(w, Op(fault, lag, drop));
      || w'.prs == w.prs
      || (&& w.pc.DropLabel?
          && var i := FindNumber(w.prs, w.pc.t.status.prNumber);
             i >= 0 && w'.prs == w.prs[i := DropLabelFrom(w.prs[i], NEEDS_REVISION)])
  {
    hide Resume, Next, Attempt, FindNumber, DropLabelFrom;
    if w.pc.DropLabel? {
      RemovalOnPRs(w, fault, lag, drop);
    } else {
      OnlyWriteUpdates(w.pc, w.backend);
      AttemptElsewhere(w, Next(w.pc, w.backend).value, fault, lag, drop);
    }
  }

  lemma NextNeedsOwner(pc: Pc, backend: Backend)
    requires Next(pc, backend).Some?
    ensures Owner(pc).Some?
  {
    hide NamespaceName, SecretName;
  }

  lemma HeldIsOwned(pc: Pc)
    ensures Held(pc).Some? ==> Owner(pc) == Some(Held(pc).value.name)
  {
  }

  lemma PcOwnerStored(w: World)
    requires Basic(w)
    ensures PcOk(w.tasks, w.pc) && (Owner(w.pc).Some? ==> Owner(w.pc).value in w.tasks)
  {
    hide PcFits;
  }

  lemma HeldOk(w: World)
    requires Basic(w)
    ensures Held(w.pc).Some? ==> StatusOk(Held(w.pc).value.status, Held(w.pc).value.spec.issue)
  {
    hide StatusOk, StatusEdge, PcFits;
    if Held(w.pc).Some? {
      var t := Held(w.pc).value;
      assert RecordOk(w.repo, t.name, w.tasks[t.name]);
    }
  }

  lemma LogExtends(log: seq<Status>, issue: int, s: Status)
    requires LogOk(log, issue) && StatusEdge(log[|log| - 1], s) && StatusOk(s, issue)
    ensures LogOk(log + [s], issue)
  {
    hide StatusOk, StatusEdge;
  }

  lemma CallKeepsRecords(w: World, fault: Fault, lag: nat, drop: nat)
    requires Basic(w) && Next(w.pc, w.backend).Some?
    ensures TasksOk(w.repo, Step(w, Op(fault, lag, drop)).tasks)
  {
    hide StatusOk, StatusEdge, LogOk, OpStep;
    NextNeedsOwner(w.pc, w.backend);
    CallOnTasks(w, fault, lag, drop, Owner(w.pc).value);
    var w' := Step(w, Op(fault, lag, drop));
    forall name | name in w.tasks ensures RecordOk(w.repo, name, w'.tasks[name]) {
      CallOnTasks(w, fault, lag, drop, name);
      assert RecordOk(w.repo, name, w.tasks[name]);
      if w'.tasks[name].log != w.tasks[name].log {
        LogExtends(w.tasks[name].log, w.tasks[name].spec.issue, w.pc.status);
      }
    }
  }

  lemma CallKeepsPRs(w: World, fault: Fault, lag: nat, drop: nat)
    requires PRsOk(w.prs) && Next(w.pc, w.backend).Some?
    ensures PRsOk(Step(w, Op(fault, lag, drop)).prs)
  {
    hide OpStep;
    CallOnPRs(w, fault, lag, drop);
  }

  lemma CallKeepsPc(w: World, fault: Fault, lag: nat, drop: nat)
    requires Basic(w) && Next(w.pc, w.backend).Some?
    ensures PcOk(Step(w, Op(fault, lag, drop)).tasks, Step(w, Op(fault, lag, drop)).pc)
  {
    hide StatusOk, Exec, PcFits, Resume, Owner, Held, Next, Attempt;
    var w' := Step(w, Op(fault, lag, drop));
    var r := Attempt(w, Next(w.pc, w.backend).value, fault, lag, drop).1;
    HeldOk(w);
    AnswerFits(w, fault, lag, drop);
    ResumeFits(w, w.pc, r, w.clock);
    ResumeHolds(w.pc, r, w.clock);
    NextNeedsOwner(w.pc, w.backend);
    CallOnTasks(w, fault, lag, drop, Owner(w.pc).value);
    HeldIsOwned(w.pc);
    HeldIsOwned(w'.pc);
  }

  lemma BasicCall(w: World, fault: Fault, lag: nat, drop: nat)
    requires Basic(w) && Next(w.pc, w.backend).Some?
    ensures Basic(Step(w, Op(fault, lag, drop))) && Step(w, Op(fault, lag, drop)).repo == w.repo
  {
    hide TasksOk, PcOk, PRsOk, Exec, Resume, Next;
    CallKeepsRecords(w, fault, lag, drop);
    CallKeepsPRs(w, fault, lag, drop);
    CallKeepsPc(w, fault, lag, drop);
    NextNeedsOwner(w.pc, w.backend);
    PcOwnerStored(w);
    CallOnTasks(w, fault, lag, drop, Owner(w.pc).value);
    ExecElsewhere(w, Next(w.pc, w.backend).value, lag, drop);
  }

  // ---------------------------------------------------------------- environment and runs

  /** Only NewTask adds a task, and the environment never moves the operator. */
  lemma EnvElsewhere(w: World, m: EnvMove)
    ensures var w' := EnvStep(w, m);
      && w'.repo == w.repo && w'.backend == w.backend && w'.pc == w.pc
      && (!m.NewTask? ==> w'.tasks == w.tasks && w'.queue == w.queue)
  {
    hide TaskName, FindNumber, CommentsOn, NsMove;
  }

  lemma FreshRecordOk(repo: string, issue: int)
    requires issue >= 1
    ensures RecordOk(repo, TaskName(repo, issue), Record(Spec(issue, repo), [INITIAL_STATUS], 0))
  {
    hide TaskName, NamespaceName;
  }

  lemma EnvKeepsPRs(w: World, m: EnvMove)
    requires PRsOk(w.prs)
    ensures PRsOk(EnvStep(w, m).prs)
  {
    hide TaskName, CommentsOn, NsMove;
  }

  lemma EnvOnTasks(w: World, m: EnvMove, name: string)
    requires Basic(w) && name in w.tasks
    ensures name in EnvStep(w, m).tasks && EnvStep(w, m).tasks[name] == w.tasks[name]
  {
    hide Basic, TaskName, FindNumber, EnvPR, NsMove, AddComment;
    EnvElsewhere(w, m);
  }

  lemma BasicEnv(w: World, m: EnvMove)
    requires Basic(w)
    ensures Basic(EnvStep(w, m))
  {
    hide RecordOk, PcFits, PRsOk, TaskName, Owner, Held;
    EnvElsewhere(w, m);
    EnvKeepsPRs(w, m);
    if m.NewTask? && m.issue >= 1 {
      FreshRecordOk(w.repo, m.issue);
    } else {
      hide EnvStep;
    }
  }

  lemma BasicStep(w: World, a: Action)
    requires Basic(w)
    ensures Basic(Step(w, a))
  {
    hide TasksOk, PRsOk, OpStep, EnvStep;
    match a
    case Op(fault, lag, drop) =>
      if Next(w.pc, w.backend).Some? {
        BasicCall(w, fault, lag, drop);
      }
    case Env(m) => BasicEnv(w, m);
    case _ =>
  }

  lemma {:induction false} BasicRun(w: World, actions: seq<Action>)
    requires Basic(w)
    ensures Basic(Run(w, actions))
  {
    if actions != [] {
      BasicRun(w, actions[..|actions| - 1]);
      BasicStep(Run(w, actions[..|actions| - 1]), actions[|actions| - 1]);
    }
  }

  lemma InitialBasic(w: World)
    requires Initial(w)
    ensures Basic(w)
  {
  }
}
