/** Retry convergence: attempts cut anywhere, with errors before or after the effect, leave the
    namespace on the way to one and the same goal; a full attempt then reaches it. */
module Convergence {
  import opened Names
  import opened Model
  import opened Machine
  import opened Texts
  import opened Base
  import opened History
  import opened Isolation
  import opened Invariants
  import opened Ownership
  import opened Wakeups

  // ---------------------------------------------------------------- the goal

  /** Pods run and end on their own, so their phase does not count. */
  function PodShape(pod: Option<Pod>): Option<Pod> {
    if pod.None? then None else Some(pod.value.(phase := PodPending))
  }

  /** A revision pod on its way out does not count either. */
  function Shape(ns: Namespace): Namespace {
    ns.(agent := PodShape(ns.agent),
        rev := if ns.rev.Some? && ns.rev.value.deleting then None else PodShape(ns.rev))
  }

  /** What a branch finds once a namespace that is going away has gone. */
  function Remains(ns: Option<Namespace>): Namespace {
    if ns.None? || ns.value.terminating then EMPTY_NAMESPACE else ns.value
  }

  function Stored(secrets: map<string, Creds>, secret: string, creds: Creds): map<string, Creds> {
    if secret in secrets then secrets else secrets[secret := creds]
  }

  /** The namespace a provisioning branch is heading for. An existing secret and an existing
      first agent are kept; a revision agent is always a new one. */
  function Goal(ns: Option<Namespace>, b: Backend, t: Task, job: Job, creds: Creds): Namespace {
    var base := Shape(Remains(ns));
    var pod := Some(BuildPod(b, t, job));
    Namespace(false, Some(SANDBOX_EGRESS), Stored(base.secrets, SecretName(t.spec.issue), creds),
              if !job.Revise? && base.agent.None? then pod else base.agent,
              if job.Revise? then pod else base.rev)
  }

  /** The job of the phase, with the credentials the run has. */
  function JobOf(p: Phase, creds: Creds): Job {
    if p == New then Launch else if p == AwaitingRevision then Revise(creds) else Continue(creds)
  }

  /** Whatever credentials Reconcile holds are the ones the run has. */
  predicate HoldsCreds(pc: Pc, creds: Creds) {
    match pc
    case ReadCreds(_, why) => why.ToRemoveLabel? ==> why.creds == creds
    case MakeNamespace(_, job) => job.Launch? || job.creds == creds
    case LookPolicy(_, job) => job.Launch? || job.creds == creds
    case PutPolicy(_, job, _) => job.Launch? || job.creds == creds
    case MakeSecret(_, job, c) => (job.Launch? || job.creds == creds) && c == creds
    case DropRevision(_, c) => c == creds
    case MakePod(_, job) => job.Launch? || job.creds == creds
    case DropLabel(_, c) => c == creds
    case _ => true
  }

  /** The task as it is stored now, the way a current read returns it. */
  function Copy(v: View): Task
    requires |v.rec.log| > 0
  {
    Task(v.name, v.rec.spec, Current(v.rec), |v.rec.log| - 1)
  }

  /** The first agent is never deleted by itself. */
  predicate AgentStays(v: View) {
    var agent := PodOf(v.ns, AgentSlot);
    agent.Some? ==> !agent.value.deleting
  }

  predicate OnTheWay(v: View, creds: Creds) {
    && Fits(v)
    && AgentStays(v)
    && Provisions(Current(v.rec).phase)
    && (Held(v.pc).Some? ==> Held(v.pc).value == Copy(v))
    && HoldsCreds(v.pc, creds)
  }

  function GoalOf(v: View, b: Backend, creds: Creds): Namespace
    requires |v.rec.log| > 0
  {
    Goal(v.ns, b, Copy(v), JobOf(Current(v.rec).phase, creds), creds)
  }

  /** Constant credentials and current reads. */
  predicate Gentle(v: View, mv: Move, creds: Creds) {
    && CurrentRead(v, mv)
    && (mv.Called? && v.pc.ReadCreds? && mv.r.GotCreds? ==> mv.r.creds == creds)
    && (mv.Called? && mv.r.GotTask? ==> mv.r.task.name == v.name)
  }

  /** The calls a provisioning branch makes to its namespace. */
  predicate Provisioning(call: Call, b: Backend, t: Task, job: Job, creds: Creds) {
    match call
    case CreateNamespace(_) => true
    case GetPolicy(_) => true
    case CreatePolicy(_, policy) => policy == SANDBOX_EGRESS
    case UpdatePolicy(_, policy) => policy == SANDBOX_EGRESS
    case CreateSecret(_, secret, c) => secret == SecretName(t.spec.issue) && c == creds
    case DeletePod(_, slot) => slot == RevSlot && job.Revise?
    case CreatePod(_, slot, pod) => slot == SlotFor(job) && pod == BuildPod(b, t, job)
    case _ => false
  }

  lemma NsCallKeepsGoal(ns: Option<Namespace>, call: Call, b: Backend, t: Task, job: Job, creds: Creds)
    requires OnCluster(call) && Provisioning(call, b, t, job, creds)
    ensures Goal(NsCall(ns, call).0, b, t, job, creds) == Goal(ns, b, t, job, creds)
  {
    hide SecretName, ScriptFor;
  }

  lemma CallProvisions(v: View, b: Backend, creds: Creds)
    requires OnTheWay(v, creds) && Next(v.pc, b).Some? && OnCluster(Next(v.pc, b).value)
    ensures Provisioning(Next(v.pc, b).value, b, Copy(v), JobOf(Current(v.rec).phase, creds), creds)
  {
    hide LogOk, NamespaceName, SecretName, BuildPod, StatusEdge, StatusOk;
  }

  /** No call of the branch, lost, late or clean, moves the goal. */
  lemma CallKeepsGoal(v: View, b: Backend, creds: Creds, took: bool)
    requires OnTheWay(v, creds) && Next(v.pc, b).Some?
    ensures Goal(NsAfter(v, b, took), b, Copy(v), JobOf(Current(v.rec).phase, creds), creds) == GoalOf(v, b, creds)
  {
    hide NsCall, Goal, Provisioning, Next, HoldsCreds, PcFits, Held, LogOk, JobOf, Provisions;
    if OnCluster(Next(v.pc, b).value) {
      CallProvisions(v, b, creds);
      NsCallKeepsGoal(v.ns, Next(v.pc, b).value, b, Copy(v), JobOf(Current(v.rec).phase, creds), creds);
    }
  }

  lemma CallKeepsCreds(v: View, b: Backend, creds: Creds, mv: Move)
    requires OnTheWay(v, creds) && Possible(v, b, mv) && Gentle(v, mv, creds) && mv.Called?
    ensures HoldsCreds(Resume(v.pc, mv.r, mv.now), creds)
  {
    hide LogOk, NamespaceName, SecretName, BranchOf, AnyMentionsPR, AnyAsksClarification, LastIsHuman, FirstMatch,
      StatusOk,
      StatusEdge, NsCall, Provisioned, BuildPod, Next;
  }

  lemma CallStaysOnTheWay(v: View, b: Backend, creds: Creds, mv: Move)
    requires OnTheWay(v, creds) && Possible(v, b, mv) && Gentle(v, mv, creds) && mv.Called?
    ensures HoldsCreds(Resume(v.pc, mv.r, mv.now), creds)
    ensures var pc' := Resume(v.pc, mv.r, mv.now); Held(pc').Some? ==> Held(pc').value == Copy(v)
  {
    hide Resume, Held, HoldsCreds, LogOk, Next, NsCall, PcFits, Provisions;
    CallKeepsCreds(v, b, creds, mv);
    ResumeHolds(v.pc, mv.r, mv.now);
  }

  /** Whatever happens to the namespace meanwhile: what a branch finds has the same shape. */
  lemma MovesKeepShape(v: View, m: EnvMove)
    requires AgentStays(v) && NsMoving(m)
    ensures Shape(Remains(NsMove(v.ns, m))) == Shape(Remains(v.ns))
    ensures AgentStays(v.(ns := NsMove(v.ns, m)))
  {
  }

  lemma PodsKeepGoal(v: View, b: Backend, creds: Creds, m: EnvMove)
    requires OnTheWay(v, creds) && NsMoving(m)
    ensures GoalOf(v.(ns := NsMove(v.ns, m)), b, creds) == GoalOf(v, b, creds)
    ensures AgentStays(v.(ns := NsMove(v.ns, m)))
  {
    hide Fits, AgentStays, Shape, Remains, NsMove, SecretName, BuildPod;
    MovesKeepShape(v, m);
  }

  /** No call deletes the first agent. */
  lemma CallKeepsAgent(v: View, b: Backend, took: bool)
    requires AgentStays(v) && Next(v.pc, b).Some?
    ensures AgentStays(v.(ns := NsAfter(v, b, took)))
  {
    hide NamespaceName, SecretName, ScriptFor;
  }

  lemma MoveKeepsAgent(v: View, b: Backend, mv: Move)
    requires AgentStays(v) && Possible(v, b, mv)
    ensures AgentStays(Proceed(v, b, mv))
  {
    hide AgentStays, NsAfter, Resume, RecordAfter, NsMove, Sensible, Next;
    AgentGoesByNamespace(Proceed(v, b, mv), v);
    match mv
    case Called(r, took, now) =>
      CallKeepsAgent(v, b, took);
      AgentGoesByNamespace(Proceed(v, b, mv), v.(ns := NsAfter(v, b, took)));
    case Shifted(m) => MovesKeepShape(v, m);
    case _ =>
  }

  lemma AgentGoesByNamespace(v: View, v': View)
    ensures v.ns == v'.ns ==> (AgentStays(v) <==> AgentStays(v'))
  {
  }

  lemma AgentsStay(w: World, actions: seq<Action>, name: string)
    requires Initial(w) && name in Run(w, actions).tasks
    ensures AgentStays(ViewOf(Run(w, actions), name))
  {
    hide Run, Fits, Possible, Proceed;
    forall v: View, b: Backend, mv: Move | Fits(v) && AgentStays(v) && Possible(v, b, mv)
      ensures AgentStays(Proceed(v, b, mv))
    {
      MoveKeepsAgent(v, b, mv);
    }
    Always(AgentStays, false, w, actions, name);
  }

  // ---------------------------------------------------------------- a full attempt

  /** How many calls of an attempt without faults are left. */
  function Left(pc: Pc): nat {
    match pc
    case Fetch(_) => 12
    case ReadCreds(_, why) =>
      if why == ToRevise || why == ToHearReply then 11
      else if why.ToRemoveLabel? then 10
      else if why == ToContinue then 9
      else if why == ToLaunch then 5
      else 0
    case LookReply(_) => 10
    case DropLabel(_, _) => 9
    case MakeNamespace(_, _) => 8
    case LookPolicy(_, _) => 7
    case PutPolicy(_, _, _) => 6
    case MakeSecret(_, _, _) => 4
    case DropRevision(_, _) => 3
    case MakePod(_, _) => 2
    case Write(_, _) => 1
    case _ => 0
  }

  function Base0(ns: Option<Namespace>): Namespace {
    if ns.None? then EMPTY_NAMESPACE else ns.value
  }

  predicate PodThere(v: View, b: Backend, creds: Creds)
    requires |v.rec.log| > 0
  {
    var job := JobOf(Current(v.rec).phase, creds);
    if job.Revise? then Base0(v.ns).rev == Some(BuildPod(b, Copy(v), job)) else Base0(v.ns).agent.Some?
  }

  /** Nothing stands in the way: the namespace is not going away, and what the control point
      has behind it is there. */
  predicate Ready(v: View, b: Backend, creds: Creds) {
    var ns := Base0(v.ns);
    && |v.rec.log| > 0
    && !ns.terminating
    && Left(v.pc) > 0
    && (Left(v.pc) < 8 ==> v.ns.Some?)
    && (v.pc.PutPolicy? ==> v.pc.create == ns.policy.None?)
    && (Left(v.pc) < 6 ==> ns.policy == Some(SANDBOX_EGRESS))
    && (Left(v.pc) < 4 ==> SecretName(v.rec.spec.issue) in ns.secrets)
    && (v.pc.MakePod? && v.pc.job.Revise? ==> ns.rev.None?)
    && (v.pc.Write? ==>
          && v.pc.status.(startedAt := None)
               == Current(v.rec).(phase := Building, namespace := NamespaceName(v.rec.spec.issue), startedAt := None)
          && PodThere(v, b, creds))
  }

  lemma ReadyReaches(v: View, b: Backend, creds: Creds)
    requires OnTheWay(v, creds) && Ready(v, b, creds) && v.pc.Write?
    ensures v.ns.Some? && Shape(v.ns.value) == GoalOf(v, b, creds)
  {
    hide Fits, SecretName, ScriptFor;
  }

  /** The answers of an attempt without faults. */
  predicate CleanAnswer(v: View, b: Backend, creds: Creds, r: Response)
    requires |v.rec.log| > 0 && Next(v.pc, b).Some?
  {
    var call := Next(v.pc, b).value;
    && (OnCluster(call) ==> r == NsCall(v.ns, call).1)
    && (v.pc.Fetch? ==> r == GotTask(Copy(v)))
    && (v.pc.ReadCreds? ==> r == GotCreds(creds))
    && (v.pc.LookReply? ==> r.GotComments? && LastIsHuman(r.comments))
    && (v.pc.Write? ==> r == Ack)
  }

  /** One call of such an attempt; with `prompt`, a pod that was deleted is gone before the next. */
  function CleanNext(v: View, b: Backend, r: Response, now: nat, prompt: bool): View
    requires Next(v.pc, b).Some?
  {
    var v' := View(v.name, RecordAfter(v, r, true), NsAfter(v, b, true), Resume(v.pc, r, now));
    if prompt then v'.(ns := NsMove(v'.ns, PodVanishes(NamespaceName(v.rec.spec.issue), RevSlot))) else v'
  }

  /** Up to the point where the namespace is made, and from there to the pod. */
  lemma CleanStaysReady(v: View, b: Backend, creds: Creds, r: Response, now: nat)
    requires OnTheWay(v, creds) && Ready(v, b, creds) && Next(v.pc, b).Some? && CleanAnswer(v, b, creds, r)
    requires !v.pc.Write?
    ensures var v' := CleanNext(v, b, r, now, Current(v.rec).phase == AwaitingRevision);
      Ready(v', b, creds) && Left(v'.pc) < Left(v.pc)
  {
    assert StatusOk(Current(v.rec), v.rec.spec.issue);
    if v.pc.Fetch? {
      ReadyAtFetch(v, b, creds, r, now);
    } else if Left(v.pc) > 8 {
      ReadyBeforeNamespace(v, b, creds, r, now);
    } else if v.pc.MakeNamespace? || v.pc.LookPolicy? || v.pc.PutPolicy? {
      ReadyAtPolicy(v, b, creds, r, now);
    } else if v.pc.MakePod? {
      ReadyAtPod(v, b, creds, r, now);
    } else if v.pc.ReadCreds? {
      ReadyAtCreds(v, b, creds, r, now);
    } else {
      ReadyAtSecret(v, b, creds, r, now);
    }
  }

  lemma ReadyAtFetch(v: View, b: Backend, creds: Creds, r: Response, now: nat)
    requires OnTheWay(v, creds) && Ready(v, b, creds) && Next(v.pc, b).Some? && CleanAnswer(v, b, creds, r)
    requires v.pc.Fetch?
    ensures var v' := CleanNext(v, b, r, now, Current(v.rec).phase == AwaitingRevision);
      Ready(v', b, creds) && Left(v'.pc) < Left(v.pc)
  {
    hide NamespaceName, SecretName, LastIsHuman, StatusEdge, StatusOk, NsCall, PodThere, BuildPod, HoldsCreds, LogOk;
  }

  lemma ReadyBeforeNamespace(v: View, b: Backend, creds: Creds, r: Response, now: nat)
    requires OnTheWay(v, creds) && Ready(v, b, creds) && Next(v.pc, b).Some? && CleanAnswer(v, b, creds, r)
    requires !v.pc.Fetch? && Left(v.pc) > 8
    ensures var v' := CleanNext(v, b, r, now, Current(v.rec).phase == AwaitingRevision);
      Ready(v', b, creds) && Left(v'.pc) < Left(v.pc)
  {
    hide LogOk, StatusOk, NamespaceName, SecretName, LastIsHuman, StatusEdge, NsCall, PodThere, BuildPod, Provisioned,
      HoldsCreds;
  }

  lemma ReadyAtPolicy(v: View, b: Backend, creds: Creds, r: Response, now: nat)
    requires OnTheWay(v, creds) && Ready(v, b, creds) && Next(v.pc, b).Some? && CleanAnswer(v, b, creds, r)
    requires v.pc.MakeNamespace? || v.pc.LookPolicy? || v.pc.PutPolicy?
    ensures var v' := CleanNext(v, b, r, now, Current(v.rec).phase == AwaitingRevision);
      Ready(v', b, creds) && Left(v'.pc) < Left(v.pc)
  {
    hide LogOk, NamespaceName, SecretName, LastIsHuman, StatusEdge, StatusOk, BuildPod, PodThere;
  }

  lemma ReadyAtCreds(v: View, b: Backend, creds: Creds, r: Response, now: nat)
    requires OnTheWay(v, creds) && Ready(v, b, creds) && Next(v.pc, b).Some? && CleanAnswer(v, b, creds, r)
    requires v.pc.ReadCreds? && Left(v.pc) < 6
    ensures var v' := CleanNext(v, b, r, now, Current(v.rec).phase == AwaitingRevision);
      Ready(v', b, creds) && Left(v'.pc) < Left(v.pc)
  {
    hide LogOk, NamespaceName, SecretName, StatusEdge, StatusOk, BuildPod, PodThere, NsCall, HoldsCreds;
  }

  lemma ReadyAtSecret(v: View, b: Backend, creds: Creds, r: Response, now: nat)
    requires OnTheWay(v, creds) && Ready(v, b, creds) && Next(v.pc, b).Some? && CleanAnswer(v, b, creds, r)
    requires v.pc.MakeSecret? || v.pc.DropRevision?
    ensures var v' := CleanNext(v, b, r, now, Current(v.rec).phase == AwaitingRevision);
      Ready(v', b, creds) && Left(v'.pc) < Left(v.pc)
  {
    hide LogOk, NamespaceName, SecretName, LastIsHuman, StatusEdge, StatusOk, BuildPod, PodThere;
  }

  lemma ReadyAtPod(v: View, b: Backend, creds: Creds, r: Response, now: nat)
    requires OnTheWay(v, creds) && Ready(v, b, creds) && Next(v.pc, b).Some? && CleanAnswer(v, b, creds, r)
    requires v.pc.MakePod?
    ensures var v' := CleanNext(v, b, r, now, Current(v.rec).phase == AwaitingRevision);
      Ready(v', b, creds) && Left(v'.pc) < Left(v.pc)
  {
    hide NamespaceName, SecretName, StatusEdge, ScriptFor;
    assert StatusOk(Current(v.rec), v.rec.spec.issue);
  }

  // ---------------------------------------------------------------- in the whole system

  /** One call without faults; with `prompt`, a revision pod that is being deleted is gone before
      the next. */
  function Onward(w: World, home: string, prompt: bool): World {
    var w' := Step(w, Op(Clean, 0, 0));
    if prompt then Step(w', Env(PodVanishes(home, RevSlot))) else w'
  }

  /** An attempt of at most `n` calls without faults. */
  function Attempted(w: World, home: string, prompt: bool, n: nat): World
    decreases n
  {
    if n == 0 || Next(w.pc, w.backend).None? then w
    else Attempted(Onward(w, home, prompt), home, prompt, n - 1)
  }

  /** Credentials are there, and if the task waits for an answer, the last word is no known bot's. */
  predicate Unblocked(w: World, name: string)
    requires name in w.tasks && |w.tasks[name].log| > 0
  {
    && w.creds.Some?
    && (Current(w.tasks[name]).phase == Blocked ==> Replied(CommentsOn(w, w.tasks[name].spec.issue)))
  }

  /** A revision counts on the old revision pod to go away in time. */
  predicate Prompt(w: World, name: string)
    requires name in w.tasks && |w.tasks[name].log| > 0
  {
    Current(w.tasks[name]).phase == AwaitingRevision
  }

  /** Reconcile is busy with the task, and nothing keeps the attempt from succeeding. */
  predicate Underway(w: World, name: string, creds: Creds) {
    && Basic(w) && name in w.tasks && Owner(w.pc) == Some(name) && |w.tasks[name].log| > 0
    && Unblocked(w, name) && CredsOf(w.creds.value) == creds
    && OnTheWay(ViewOf(w, name), creds)
    && Ready(ViewOf(w, name), w.backend, creds)
  }

  lemma UnderwayMeans(w: World, name: string, creds: Creds)
    requires Underway(w, name, creds)
    ensures Basic(w) && name in w.tasks && Owner(w.pc) == Some(name) && |w.tasks[name].log| > 0
    ensures Unblocked(w, name) && CredsOf(w.creds.value) == creds
    ensures OnTheWay(ViewOf(w, name), creds) && Ready(ViewOf(w, name), w.backend, creds)
    ensures Left(w.pc) > 0 && Next(w.pc, w.backend).Some?
  {
    hide Basic, OnTheWay, Next, NsOf, CredsOf, Replied, CommentsOn, Owner;
    LeftCalls(w.pc, w.backend);
  }

  lemma CleanAnswers(w: World, name: string)
    requires Basic(w) && name in w.tasks && Owner(w.pc) == Some(name) && Next(w.pc, w.backend).Some?
    requires |w.tasks[name].log| > 0 && Unblocked(w, name)
    requires OnTheWay(ViewOf(w, name), CredsOf(w.creds.value)) && Left(w.pc) > 0
    ensures CleanAnswer(ViewOf(w, name), w.backend, CredsOf(w.creds.value),
                        Attempt(w, Next(w.pc, w.backend).value, Clean, 0, 0).1)
  {
    hide OpStep, CommentsOn, CredsOf, LogOk, StatusOk, RecordOk, PRsOk, BuildPod, FirstMatch, LastIsHuman, Replied;
    HumanHasLastWord(CommentsOn(w, w.tasks[name].spec.issue));
    WholePage(CommentsOn(w, w.tasks[name].spec.issue));
    var call := Next(w.pc, w.backend).value;
    HeldIsOwned(w.pc);
    if OnCluster(call) {
      FetchIsNoCluster(w.pc, w.backend);
      CallAtHome(w, Clean, 0, 0, name);
      hide NsCall, Exec;
    }
  }

  lemma CleanStep(w: World, name: string, prompt: bool)
    requires Basic(w) && name in w.tasks && Owner(w.pc) == Some(name) && Next(w.pc, w.backend).Some?
    ensures var r := Attempt(w, Next(w.pc, w.backend).value, Clean, 0, 0).1;
      var w2 := Onward(w, Home(w, name), prompt);
      && Basic(w2) && name in w2.tasks && Owner(w2.pc) == Some(name) && w2.backend == w.backend
      && ViewOf(w2, name) == CleanNext(ViewOf(w, name), w.backend, r, w.clock, prompt)
  {
    hide Basic, OpStep, Attempt, NsOf, NsAfter, Resume, Sensible, NamespaceName, NsMove, Owner, Next, EnvStep;
    var a := Op(Clean, 0, 0);
    var w1 := Step(w, a);
    var e := Env(PodVanishes(Home(w, name), RevSlot));
    BasicStep(w, a);
    StepProjects(w, a, name);
    OwnerStays(w, Clean, 0, 0);
    BasicStep(w1, e);
    StepProjects(w1, e, name);
    BackendStays(w, a);
    BackendStays(w1, e);
    EnvElsewhere(w1, e.move);
  }

  lemma OwnerStays(w: World, fault: Fault, lag: nat, drop: nat)
    requires Basic(w) && Next(w.pc, w.backend).Some?
    ensures Owner(Step(w, Op(fault, lag, drop)).pc) == Owner(w.pc)
  {
    OpGoes(w, fault, lag, drop);
    AnswerFits(w, fault, lag, drop);
    ResumeHolds(w.pc, Attempt(w, Next(w.pc, w.backend).value, fault, lag, drop).1, w.clock);
    hide Step, Basic, Attempt, Resume, Next, Owner, Held;
  }

  /** Building is committed, nothing else in the status has changed, and the namespace has the
      shape of the goal. */
  predicate Reached(w: World, w': World, name: string, goal: Namespace)
    requires name in w.tasks && |w.tasks[name].log| > 0
  {
    && name in w'.tasks
    && |w'.tasks[name].log| == |w.tasks[name].log| + 1
    && w'.tasks[name].log[..|w.tasks[name].log|] == w.tasks[name].log
    && Current(w'.tasks[name]).(startedAt := None)
         == Current(w.tasks[name]).(phase := Building, namespace := Home(w, name), startedAt := None)
    && NsOf(w', name).Some?
    && Shape(NsOf(w', name).value) == goal
    && w'.pc == Done(name, Result(30, false))
  }

  lemma WriteNext(v: View, b: Backend, creds: Creds, now: nat)
    requires OnTheWay(v, creds) && Ready(v, b, creds) && v.pc.Write?
    ensures var v' := CleanNext(v, b, Ack, now, Current(v.rec).phase == AwaitingRevision);
      && v'.rec.log == v.rec.log + [v.pc.status]
      && v'.ns == v.ns
      && v'.pc == Done(v.name, Result(30, false))
  {
    hide LogOk, NamespaceName, SecretName, StatusOk, StatusEdge;
  }

  /** `n` calls without faults take the task to its goal. */
  predicate Arrives(w: World, name: string, creds: Creds, n: nat) {
    && name in w.tasks && |w.tasks[name].log| > 0
    && Reached(w, Attempted(w, Home(w, name), Prompt(w, name), n), name,
               GoalOf(ViewOf(w, name), w.backend, creds))
  }

  lemma LastCall(w: World, name: string, creds: Creds, n: nat)
    requires Underway(w, name, creds) && w.pc.Write? && n > 0
    ensures Arrives(w, name, creds, n)
  {
    hide Basic, Onward, Attempt, CleanNext, NamespaceName, OnTheWay, Ready, GoalOf, CredsOf, Shape, NsOf, Underway,
      Unblocked;
    UnderwayMeans(w, name, creds);
    var v := ViewOf(w, name);
    CleanAnswers(w, name);
    CleanStep(w, name, Prompt(w, name));
    ReadyReaches(v, w.backend, creds);
    WriteNext(v, w.backend, creds, w.clock);
    WriteIsReady(v, w.backend, creds);
    var w2 := Onward(w, Home(w, name), Prompt(w, name));
    var v2 := ViewOf(w2, name);
    assert w2.pc == v2.pc == Done(name, Result(30, false));
    assert Attempted(w2, Home(w, name), Prompt(w, name), n - 1) == w2;
  }

  lemma WriteIsReady(v: View, b: Backend, creds: Creds)
    requires Ready(v, b, creds) && v.pc.Write?
    ensures Next(v.pc, b).Some?
    ensures v.pc.status.(startedAt := None)
         == Current(v.rec).(phase := Building, namespace := NamespaceName(v.rec.spec.issue), startedAt := None)
  {
    hide NamespaceName;
  }

  /** One call later nothing is committed yet, and the goal is the same. */
  predicate Advances(w: World, w2: World, name: string, creds: Creds) {
    && name in w.tasks && |w.tasks[name].log| > 0 && Next(w.pc, w.backend).Some?
    && w2 == Onward(w, Home(w, name), Prompt(w, name))
    && name in w2.tasks && w2.backend == w.backend
    && w2.tasks[name].spec == w.tasks[name].spec && w2.tasks[name].log == w.tasks[name].log
    && GoalOf(ViewOf(w2, name), w.backend, creds) == GoalOf(ViewOf(w, name), w.backend, creds)
  }

  lemma ArrivesOneEarlier(w: World, w2: World, name: string, creds: Creds, n: nat)
    requires n > 0 && Advances(w, w2, name, creds) && Arrives(w2, name, creds, n - 1)
    ensures Arrives(w, name, creds, n)
  {
    hide Onward, GoalOf, NsOf, NamespaceName, Shape, Next;
  }

  /** An attempt without faults from anywhere on the way reaches the goal. */
  lemma {:induction false} FullAttemptReaches(w: World, name: string, creds: Creds, n: nat)
    requires Underway(w, name, creds) && n >= Left(w.pc)
    ensures Arrives(w, name, creds, n)
    decreases n
  {
    hide Left, Next, Arrives, Advances, Underway;
    UnderwayMeans(w, name, creds);
    if w.pc.Write? {
      LastCall(w, name, creds, n);
    } else {
      var w2 := NextOnTheWay(w, name, creds);
      FullAttemptReaches(w2, name, creds, n - 1);
      ArrivesOneEarlier(w, w2, name, creds, n);
    }
  }

  lemma VanishKeepsGoal(v: View, b: Backend, creds: Creds, home: string)
    requires |v.rec.log| > 0 && AgentStays(v)
    ensures var v' := v.(ns := NsMove(v.ns, PodVanishes(home, RevSlot)));
      GoalOf(v', b, creds) == GoalOf(v, b, creds) && AgentStays(v')
  {
    hide Shape, Remains, NsMove, SecretName, BuildPod, AgentStays;
    MovesKeepShape(v, PodVanishes(home, RevSlot));
  }

  lemma CleanIsGentle(v: View, b: Backend, creds: Creds, r: Response, now: nat)
    requires |v.rec.log| > 0 && Next(v.pc, b).Some? && CleanAnswer(v, b, creds, r) && Sensible(v, b, r, true)
    ensures Gentle(v, Called(r, true, now), creds)
  {
    hide NsCall, NamespaceName, SecretName;
  }

  lemma NextView(v: View, b: Backend, creds: Creds, r: Response, now: nat)
    requires OnTheWay(v, creds) && Ready(v, b, creds) && Next(v.pc, b).Some? && !v.pc.Write?
    requires CleanAnswer(v, b, creds, r) && Sensible(v, b, r, true)
    ensures var v' := CleanNext(v, b, r, now, Current(v.rec).phase == AwaitingRevision);
      && v'.rec.log == v.rec.log && v'.rec.spec == v.rec.spec
      && Ready(v', b, creds) && Left(v'.pc) < Left(v.pc)
      && (Fits(v') ==> OnTheWay(v', creds) && GoalOf(v', b, creds) == GoalOf(v, b, creds))
  {
    hide Ready, Resume, NsAfter, Goal, HoldsCreds, Sensible, NsMove, SecretName, NamespaceName, Next, CleanAnswer,
      Gentle;
    var mv := Called(r, true, now);
    var mid := View(v.name, RecordAfter(v, r, true), NsAfter(v, b, true), Resume(v.pc, r, now));
    var prompt := Current(v.rec).phase == AwaitingRevision;
    var v' := CleanNext(v, b, r, now, prompt);
    CleanIsGentle(v, b, creds, r, now);
    CleanStaysReady(v, b, creds, r, now);
    CallKeepsGoal(v, b, creds, true);
    CallStaysOnTheWay(v, b, creds, mv);
    CallKeepsAgent(v, b, true);
    if prompt {
      VanishKeepsGoal(mid, b, creds, NamespaceName(v.rec.spec.issue));
    }
  }

  lemma CallLeavesTalk(w: World)
    requires Left(w.pc) > 0 && Next(w.pc, w.backend).Some?
    ensures var w' := Step(w, Op(Clean, 0, 0)); w'.creds == w.creds && w'.comments == w.comments
  {
    hide Exec, Next, Resume;
    var call := Next(w.pc, w.backend).value;
    OnlyWriteUpdates(w.pc, w.backend);
    AttemptElsewhere(w, call, Clean, 0, 0);
    ExecComments(w, call, 0, 0);
  }

  lemma StillUnblocked(w: World, home: string, prompt: bool)
    requires Left(w.pc) > 0 && Next(w.pc, w.backend).Some?
    ensures var w2 := Onward(w, home, prompt); w2.creds == w.creds && w2.comments == w.comments
  {
    CallLeavesTalk(w);
    hide Left, Next, OpStep, NsMove;
  }

  /** One call of the attempt leaves the task on the way, with the same goal. */
  lemma NextOnTheWay(w: World, name: string, creds: Creds) returns (w2: World)
    requires Underway(w, name, creds) && !w.pc.Write?
    ensures Advances(w, w2, name, creds) && Underway(w2, name, creds) && Left(w2.pc) < Left(w.pc)
  {
    hide Onward, Attempt, Next, OnTheWay, Ready, GoalOf, CleanNext, NsOf, Replied, Sensible, CleanAnswer, CredsOf,
      Left, Basic, Fits, NamespaceName, Owner;
    var v := ViewOf(w, name);
    w2 := Onward(w, Home(w, name), Prompt(w, name));
    UnderwayMeans(w, name, creds);
    var r := Attempt(w, Next(w.pc, w.backend).value, Clean, 0, 0).1;
    CleanAnswers(w, name);
    CleanStep(w, name, Prompt(w, name));
    StillUnblocked(w, Home(w, name), Prompt(w, name));
    OwnAnswer(w, Clean, 0, 0, name);
    BasicFits(w2, name);
    NextView(v, w.backend, creds, r, w.clock);
  }

  lemma LeftCalls(pc: Pc, backend: Backend)
    requires Left(pc) > 0
    ensures Next(pc, backend).Some?
  {
    hide NamespaceName, SecretName, BuildPod;
  }

  // ---------------------------------------------------------------- attempts cut anywhere

  /** Credentials stay as they are. Everything else may happen: pods and the namespace of the
      task may go away, and other tasks may be served. */
  predicate Calm(a: Action) {
    a.Env? ==> !a.move.SetCreds?
  }

  predicate AllCalm(actions: seq<Action>) {
    forall i :: 0 <= i < |actions| ==> Calm(actions[i])
  }

  lemma StepIsGentle(w: World, a: Action, name: string)
    requires Basic(w) && name in w.tasks && Fresh(w, a, name) && Calm(a) && w.creds.Some?
    ensures Gentle(ViewOf(w, name), Share(w, a, name), CredsOf(w.creds.value))
    ensures Step(w, a).creds == w.creds
  {
    hide Basic, Next, Resume, Attempt, NsOf, NamespaceName, CurrentRead;
    FreshIsCurrent(w, a, name);
    match a
    case Op(fault, lag, drop) =>
      if Next(w.pc, w.backend).Some? {
        CredsAnswer(w, fault, lag, drop);
        AttemptElsewhere(w, Next(w.pc, w.backend).value, fault, lag, drop);
        AnswerFits(w, fault, lag, drop);
      }
    case Env(m) =>
      hide NsMove, TaskName, FindNumber, PRAfter;
    case _ =>
  }

  lemma CredsAnswer(w: World, fault: Fault, lag: nat, drop: nat)
    requires w.creds.Some? && Next(w.pc, w.backend).Some?
    ensures var r := Attempt(w, Next(w.pc, w.backend).value, fault, lag, drop).1;
      w.pc.ReadCreds? && r.GotCreds? ==> r.creds == CredsOf(w.creds.value)
  {
    hide CredsOf, NsCall, NamespaceName, SecretName;
  }

  lemma OneStepOnTheWay(w: World, a: Action, name: string)
    requires Basic(w) && name in w.tasks && Fresh(w, a, name) && Calm(a) && w.creds.Some?
    requires OnTheWay(ViewOf(w, name), CredsOf(w.creds.value))
    requires name in Step(w, a).tasks && Step(w, a).tasks[name].log == w.tasks[name].log
    ensures var creds := CredsOf(w.creds.value);
      && OnTheWay(ViewOf(Step(w, a), name), creds)
      && GoalOf(ViewOf(Step(w, a), name), w.backend, creds) == GoalOf(ViewOf(w, name), w.backend, creds)
  {
    hide Step, Basic, Share, OnTheWay, GoalOf, Possible, Gentle, CredsOf, NsOf, Owner;
    var v := ViewOf(w, name);
    var mv := Share(w, a, name);
    StepProjects(w, a, name);
    StepIsGentle(w, a, name);
    BasicStep(w, a);
    BasicFits(Step(w, a), name);
    MoveOnTheWay(v, w.backend, CredsOf(w.creds.value), mv);
  }

  lemma MoveOnTheWay(v: View, b: Backend, creds: Creds, mv: Move)
    requires OnTheWay(v, creds) && Possible(v, b, mv) && Gentle(v, mv, creds)
    requires Fits(Proceed(v, b, mv)) && Proceed(v, b, mv).rec.log == v.rec.log
    requires Proceed(v, b, mv).rec.spec == v.rec.spec
    ensures OnTheWay(Proceed(v, b, mv), creds) && GoalOf(Proceed(v, b, mv), b, creds) == GoalOf(v, b, creds)
  {
    hide Goal, Fits;
    match mv
    case Called(r, took, now) =>
      CallKeepsGoal(v, b, creds, took);
      CallStaysOnTheWay(v, b, creds, mv);
      CallKeepsAgent(v, b, took);
      hide Resume, NsAfter, Next, Sensible, HoldsCreds;
    case Shifted(m) =>
      PodsKeepGoal(v, b, creds, m);
      hide NsMove;
    case _ =>
  }

  lemma {:induction false} CutsStayOnTheWay(w: World, cuts: seq<Action>, name: string)
    requires Basic(w) && name in w.tasks && FreshRun(w, cuts, name) && AllCalm(cuts) && w.creds.Some?
    requires OnTheWay(ViewOf(w, name), CredsOf(w.creds.value))
    requires name in Run(w, cuts).tasks && Run(w, cuts).tasks[name].log == w.tasks[name].log
    ensures var creds := CredsOf(w.creds.value);
      var w' := Run(w, cuts);
      && w'.creds == w.creds && Basic(w') && w'.backend == w.backend && Home(w', name) == Home(w, name)
      && OnTheWay(ViewOf(w', name), creds)
      && GoalOf(ViewOf(w', name), w.backend, creds) == GoalOf(ViewOf(w, name), w.backend, creds)
    decreases |cuts|
  {
    hide Step, Basic, OnTheWay, GoalOf, CredsOf, NsOf, NamespaceName;
    BasicRun(w, cuts);
    SameBackend(w, cuts);
    if cuts != [] {
      var front, a := cuts[..|cuts| - 1], cuts[|cuts| - 1];
      var mid := Run(w, front);
      BasicRun(w, front);
      SameBackend(w, front);
      HistoryOnlyGrows(w, front, name);
      StepOnlyGrows(mid, a, name);
      assert mid.tasks[name].log == w.tasks[name].log;
      FreshSoFar(w, cuts, name);
      CutsStayOnTheWay(w, front, name);
      assert Calm(a);
      OneStepOnTheWay(mid, a, name);
      StepIsGentle(mid, a, name);
    }
  }

  /** A task that waits is picked up, and with nothing in the way an attempt starts ready. */
  lemma PickedUp(w: World, name: string, creds: Creds)
    requires Basic(w) && name in w.tasks && w.pc == Idle && Awake(w, name)
    requires |w.tasks[name].log| > 0 && Unblocked(w, name) && creds == CredsOf(w.creds.value)
    requires Provisions(Current(w.tasks[name]).phase) && !Base0(NsOf(w, name)).terminating
    requires AgentStays(ViewOf(w, name))
    ensures var w1 := Step(w, Start(name));
      && Underway(w1, name, creds) && w1.tasks == w.tasks && w1.backend == w.backend && w1.pc == Fetch(name)
      && GoalOf(ViewOf(w1, name), w.backend, creds) == GoalOf(ViewOf(w, name), w.backend, creds)
  {
    hide CredsOf, SecretName, NamespaceName, Fits, Replied, RecordOk, PcOk, PRsOk;
    BasicStep(w, Start(name));
    BasicFits(Step(w, Start(name)), name);
    hide Basic;
  }

  /** Attempts that were cut at any call, with errors before or after the effect, other tasks
      and the environment in between, change nothing about where the task ends up: a full
      attempt from there commits Building and leaves the namespace in the shape that a full
      attempt in the state before the cuts would have left. Before and during the cuts the
      namespace and its pods may go away; a full attempt needs a namespace that is not on its
      way out, because creates are refused in one that is. A revision attempt counts as full when
      the old revision pod is gone before the new one is made. */
  lemma RetryConverges(w0: World, before: seq<Action>, cuts: seq<Action>, name: string, n: nat)
    requires Initial(w0) && FreshRun(Run(w0, before), cuts, name) && AllCalm(cuts)
    requires name in Run(w0, before).tasks && |Run(w0, before).tasks[name].log| > 0
    requires var w := Run(w0, before);
      && (Owner(w.pc) == Some(name) ==> Held(w.pc).None?)
      && Provisions(Current(w.tasks[name]).phase) && w.creds.Some?
    requires var w1 := Run(Run(w0, before), cuts);
      && name in w1.tasks && w1.tasks[name].log == Run(w0, before).tasks[name].log
      && w1.pc == Idle && Unblocked(w1, name) && !Base0(NsOf(w1, name)).terminating
    requires n >= 12
    ensures var w := Run(w0, before);
      var w1 := Run(w, cuts);
      Reached(w1, Attempted(Step(w1, Start(name)), Home(w, name), Prompt(w, name), n), name,
              GoalOf(ViewOf(w, name), w.backend, CredsOf(w.creds.value)))
  {
    hide Run, Step, CredsOf, Settled, NamespaceName, SecretName, Replied, CommentsOn, Underway, Fits, Basic,
      AgentStays;
    var w := Run(w0, before);
    var w1 := Run(w, cuts);
    var creds := CredsOf(w.creds.value);
    Reachable(w0, before);
    RunInTwo(w0, before, cuts);
    NoLostWakeups(w0, before + cuts, name);
    AgentsStay(w0, before, name);
    AgentsStay(w0, before + cuts, name);
    BasicFits(w, name);
    CutsStayOnTheWay(w, cuts, name);
    PickedUp(w1, name, creds);
    FullAttemptReaches(Step(w1, Start(name)), name, creds, n);
  }

  // ---------------------------------------------------------------- whose pod backs the commit

  lemma MakesAtHome(w: World, name: string)
    requires Basic(w) && name in w.tasks && w.pc.MakePod? && w.pc.t.name == name
    ensures NamespaceName(w.pc.t.spec.issue) == Home(w, name)
    ensures w.pc.job.Revise? ==> w.pc.t.status.namespace == Home(w, name)
  {
    hide NamespaceName, TasksOk, PRsOk;
    HeldOk(w);
    assert PcOk(w.tasks, w.pc);
  }

  /** Of all three provisioning branches: a create without a fault leads to the commit of Building
      just when the namespace is there and stays, and the commit is backed by a new pod just when no
      pod of the name was left; otherwise it is backed by the old one, as it is: finished, of an
      earlier cycle, or on its way out. */
  lemma CreateIsFresh(w: World, name: string)
    requires Basic(w) && name in w.tasks && w.pc.MakePod? && w.pc.t.name == name
    ensures var w' := Step(w, Op(Clean, 0, 0));
      var slot := SlotFor(w.pc.job);
      && name in w'.tasks
      && (w'.pc.Write? <==> NsOf(w, name).Some? && !NsOf(w, name).value.terminating)
      && (w'.pc.Write? ==>
            var before, after := PodOf(NsOf(w, name), slot), PodOf(NsOf(w', name), slot);
            && w'.pc.status
               == w.pc.t.status.(phase := Building, namespace := Home(w, name), startedAt := Some(w.clock))
            && (after != before <==> before.None?)
            && (before.None? ==> after == Some(BuildPod(w.backend, w.pc.t, w.pc.job)) && !after.value.deleting))
  {
    hide Basic, Step, Attempt, NsOf, Sensible, NamespaceName, SecretName;
    var a := Op(Clean, 0, 0);
    MakesAtHome(w, name);
    StepProjects(w, a, name);
    CallAtHome(w, Clean, 0, 0, name);
    OpGoes(w, Clean, 0, 0);
  }
}
