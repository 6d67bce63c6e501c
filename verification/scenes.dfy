/** Runs from an initial world that show what the operator can be brought to: played on the one
    task there is, and shown to be runs of the whole system. */
module Scenes {
  import opened Names
  import opened Model
  import opened Machine
  import opened Texts
  import opened Base
  import opened History
  import opened Isolation
  import opened Invariants
  import opened Exclusion
  import opened Ownership
  import opened Comments
  import opened Cleanup
  import opened Cycles
  import opened Manning

  // ---------------------------------------------------------------- a world with one task

  const ISSUE := 1

  /** What there is to see of issue 1 and its task. */
  datatype Scene = Scene(repo: string, backend: Backend, clock: nat, log: seq<Status>, ns: Option<Namespace>,
                         prs: seq<PullRequest>, talk: seq<Comment>, queued: bool, pc: Pc)

  predicate Shows(w: World, s: Scene) {
    var name := TaskName(s.repo, ISSUE);
    && w.repo == s.repo && w.backend == s.backend && w.clock == s.clock
    && w.creds == Some(map[])
    && name in w.tasks && w.tasks[name].spec == Spec(ISSUE, s.repo) && w.tasks[name].log == s.log
    && Lookup(w, NamespaceName(ISSUE)) == s.ns
    && w.prs == s.prs && CommentsOn(w, ISSUE) == s.talk
    && (name in w.queue <==> s.queued)
    && w.pc == s.pc
  }

  /** A call that is about the task and nothing else. */
  predicate Addressed(s: Scene, call: Call) {
    && (OnTask(call) ==> call.name == TaskName(s.repo, ISSUE))
    && (OnCluster(call) ==> call.ns == NamespaceName(ISSUE))
    && (call.ListComments? || call.CreateComment? ==> call.issue == ISSUE)
  }

  function Effect(s: Scene, call: Call, lag: nat, drop: nat): (Scene, Response)
    requires s.log != []
  {
    match call
    case GetTask(name) => (s, GotTask(ReadTask(name, Record(Spec(ISSUE, s.repo), s.log, 0), lag)))
    case UpdateStatus(_, version, status) =>
      if version != |s.log| - 1 then (s, OtherError) else (s.(log := s.log + [status], queued := true), Ack)
    case GetCreds => (s, GotCreds(CredsOf(map[])))
    case ListOpenPRs => (s, GotPRs(Page(OpenOnes(s.prs), drop)))
    case GetPR(n) =>
      var i := FindNumber(s.prs, n);
      (s, if i < 0 then NotFound else GotPR(s.prs[i]))
    case RemoveLabel(n, tag) =>
      var i := FindNumber(s.prs, n);
      if i < 0 || tag !in s.prs[i].labels then (s, NotFound)
      else (s.(prs := s.prs[i := DropLabelFrom(s.prs[i], tag)]), Ack)
    case ListComments(_) => (s, GotComments(Page(s.talk, drop)))
    case CreateComment(_, body) => (s.(talk := s.talk + [Comment(Operator, body)]), Ack)
    case _ =>
      var (ns, r) := NsCall(s.ns, call);
      (s.(ns := ns), r)
  }

  function PlayCall(s: Scene, fault: Fault, lag: nat, drop: nat): Scene
    requires s.log != [] && Next(s.pc, s.backend).Some?
  {
    var (s1, r) := Effect(s, Next(s.pc, s.backend).value, lag, drop);
    match fault
    case Clean => s1.(pc := Resume(s.pc, r, s.clock))
    case Lost => s.(pc := Resume(s.pc, OtherError, s.clock))
    case Late => s1.(pc := Resume(s.pc, OtherError, s.clock))
  }

  lemma ClusterShows(w: World, s: Scene, call: Call, lag: nat, drop: nat)
    requires Shows(w, s) && s.log != [] && OnCluster(call) && Addressed(s, call)
    ensures Shows(Exec(w, call, lag, drop).0, Effect(s, call, lag, drop).0)
    ensures Exec(w, call, lag, drop).1 == Effect(s, call, lag, drop).1
  {
    hide NsCall, TaskName, NamespaceName, CommentsOn;
    ExecAtHome(w, call, lag, drop, NamespaceName(ISSUE));
    ExecElsewhere(w, call, lag, drop);
    ExecComments(w, call, lag, drop);
    hide Exec;
    TalkFollows(w, Exec(w, call, lag, drop).0);
  }

  lemma CallShows(w: World, s: Scene, call: Call, lag: nat, drop: nat)
    requires Shows(w, s) && s.log != [] && Addressed(s, call)
    ensures Shows(Exec(w, call, lag, drop).0, Effect(s, call, lag, drop).0)
    ensures Exec(w, call, lag, drop).1 == Effect(s, call, lag, drop).1
  {
    hide NsCall, TaskName, NamespaceName, CredsOf, OpenOnes;
    if OnCluster(call) {
      ClusterShows(w, s, call, lag, drop);
      hide Exec, Effect, Shows;
    }
  }

  lemma OpShows(w: World, s: Scene, fault: Fault, lag: nat, drop: nat)
    requires Shows(w, s) && s.log != [] && Next(s.pc, s.backend).Some? && Addressed(s, Next(s.pc, s.backend).value)
    ensures Shows(Step(w, Op(fault, lag, drop)), PlayCall(s, fault, lag, drop))
  {
    hide Exec, Effect, TaskName, NamespaceName, Next, Resume, CommentsOn;
    CallShows(w, s, Next(s.pc, s.backend).value, lag, drop);
    TalkFollows(w, Step(w, Op(fault, lag, drop)));
    TalkFollows(Exec(w, Next(s.pc, s.backend).value, lag, drop).0, Step(w, Op(fault, lag, drop)));
  }

  lemma TalkFollows(w: World, w': World)
    ensures w'.comments == w.comments ==> CommentsOn(w', ISSUE) == CommentsOn(w, ISSUE)
  {
  }

  // ---------------------------------------------------------------- what else can happen

  /** Actions that are about the task and nothing else. */
  predicate Playable(s: Scene, a: Action) {
    && s.log != []
    && match a
       case Start(name) => name == TaskName(s.repo, ISSUE)
       case Op(_, _, _) =>
         Next(s.pc, s.backend).Some? && Addressed(s, Next(s.pc, s.backend).value)
       case Retire => s.pc.Done? && s.pc.name == TaskName(s.repo, ISSUE)
       case Env(m) =>
         || (NsMoving(m) && m.ns == NamespaceName(ISSUE))
         || m.OpenPR?
         || PRMove(m)
         || (m.Say? && m.issue == ISSUE)
       case Crash => true
       case Skip => false
  }

  function PlayEnv(s: Scene, m: EnvMove): Scene {
    if NsMoving(m) then s.(ns := NsMove(s.ns, m))
    else if PRMove(m) then
      var i := FindNumber(s.prs, m.number);
      if i < 0 then s else s.(prs := s.prs[i := PRAfter(s.prs[i], m)])
    else if m.OpenPR? then
      if m.number == 0 || FindNumber(s.prs, m.number) >= 0 then s
      else s.(prs := [PullRequest(m.number, m.head, m.url, true, false, [], 0, false)] + s.prs)
    else if m.Say? then s.(talk := s.talk + [Comment(Other(m.login), m.body)])
    else s
  }

  function Play(s: Scene, a: Action): Scene
    requires Playable(s, a)
  {
    match a
    case Start(name) => if s.pc.Idle? && s.queued then s.(pc := Fetch(name), queued := false) else s
    case Op(fault, lag, drop) => PlayCall(s, fault, lag, drop)
    case Retire => s.(pc := Idle, queued := s.queued || s.pc.result.err || s.pc.result.requeueAfter > 0)
    case Crash => s.(pc := Idle, queued := true)
    case Env(m) => PlayEnv(s, m)
  }

  lemma EnvShows(w: World, s: Scene, m: EnvMove)
    requires Shows(w, s) && Playable(s, Env(m))
    ensures Shows(EnvStep(w, m), PlayEnv(s, m))
  {
    hide NsMove, TaskName, NamespaceName, FindNumber, PRAfter;
  }

  lemma PlayShows(w: World, s: Scene, a: Action)
    requires Shows(w, s) && Playable(s, a)
    ensures Shows(Step(w, a), Play(s, a))
  {
    hide OpStep, EnvStep, PlayCall, PlayEnv, TaskName, NamespaceName, Addressed, Next;
    match a
    case Op(fault, lag, drop) => OpShows(w, s, fault, lag, drop);
    case Env(m) => EnvShows(w, s, m);
    case _ => TalkFollows(w, Step(w, a));
  }

  /** The scene's part of an orderly run. */
  predicate Neat(s: Scene, a: Action) {
    a.Op? ==>
      && a.lag == 0
      && (s.pc.DropRevision? || (s.pc.DropNamespace? && s.pc.next == Blocked) ==> a.fault != Lost)
      && (s.pc.MakePod? ==> var pod := PodOf(s.ns, SlotFor(s.pc.job)); pod.Some? ==> !pod.value.deleting)
  }

  lemma Advance(w0: World, run: seq<Action>, s: Scene, a: Action) returns (longer: seq<Action>, s': Scene)
    requires Shows(Run(w0, run), s) && Playable(s, a)
    ensures longer == run + [a] && s' == Play(s, a)
    ensures Shows(Run(w0, longer), s')
    ensures var name := TaskName(s.repo, ISSUE);
      OrderlyRun(w0, run, name) && Neat(s, a) ==> OrderlyRun(w0, longer, name)
  {
    hide Step, Play, TaskName, NamespaceName;
    longer, s' := run + [a], Play(s, a);
    RunThen(w0, run, a);
    PlayShows(Run(w0, run), s, a);
    if Neat(s, a) {
      NeatIsOrderly(Run(w0, run), s, a);
    }
    assert longer[..|run|] == run;
    assert forall i :: 0 <= i < |run| ==> longer[..i] == run[..i];
    hide Run, Orderly, Shows, Neat, Playable;
  }

  lemma NeatIsOrderly(w: World, s: Scene, a: Action)
    requires Shows(w, s) && Playable(s, a) && Neat(s, a)
    ensures Orderly(w, a, TaskName(s.repo, ISSUE))
  {
    hide TaskName, NamespaceName, Next;
  }

  // ---------------------------------------------------------------- attempts

  /** Waiting in the queue with nothing under way. */
  predicate Waiting(s: Scene) {
    s.log != [] && s.pc == Idle && s.queued
  }

  function Copied(s: Scene): Task
    requires s.log != []
  {
    Task(TaskName(s.repo, ISSUE), Spec(ISSUE, s.repo), s.log[|s.log| - 1], |s.log| - 1)
  }

  /** The worker takes the task up and reads it. */
  lemma PickUp(w0: World, run: seq<Action>, s: Scene) returns (longer: seq<Action>, s': Scene)
    requires Shows(Run(w0, run), s) && Waiting(s)
    ensures Shows(Run(w0, longer), s') && s' == s.(queued := false, pc := Dispatch(Copied(s)))
    ensures var name := TaskName(s.repo, ISSUE); OrderlyRun(w0, run, name) ==> OrderlyRun(w0, longer, name)
  {
    hide Run, Shows, OrderlyRun, TaskName, NamespaceName, Dispatch;
    longer, s' := Advance(w0, run, s, Start(TaskName(s.repo, ISSUE)));
    longer, s' := Advance(w0, longer, s', OK);
  }

  /** One call to the namespace, without a fault. */
  lemma Answered(w0: World, run: seq<Action>, s: Scene, call: Call) returns (longer: seq<Action>, s': Scene)
    requires Shows(Run(w0, run), s) && s.log != [] && Next(s.pc, s.backend) == Some(call)
    requires OnCluster(call) && call.ns == NamespaceName(ISSUE)
    ensures Shows(Run(w0, longer), s')
    ensures s' == s.(ns := NsCall(s.ns, call).0, pc := Resume(s.pc, NsCall(s.ns, call).1, s.clock))
    ensures var name := TaskName(s.repo, ISSUE);
      OrderlyRun(w0, run, name) && Neat(s, OK) ==> OrderlyRun(w0, longer, name)
  {
    hide Run, Shows, OrderlyRun, TaskName, NamespaceName, Next, Resume, NsCall, Neat;
    longer, s' := Advance(w0, run, s, OK);
  }

  /** The status write goes through and the attempt ends. */
  lemma Concludes(w0: World, run: seq<Action>, s: Scene) returns (longer: seq<Action>, s': Scene)
    requires Shows(Run(w0, run), s) && s.log != []
    requires s.pc.Write? && s.pc.t.name == TaskName(s.repo, ISSUE) && s.pc.t.version == |s.log| - 1
    ensures Shows(Run(w0, longer), s') && s' == s.(log := s.log + [s.pc.status], queued := true, pc := Idle)
    ensures var name := TaskName(s.repo, ISSUE); OrderlyRun(w0, run, name) ==> OrderlyRun(w0, longer, name)
  {
    hide Run, Shows, OrderlyRun, TaskName, NamespaceName, Pause;
    longer, s' := Advance(w0, run, s, OK);
    longer, s' := Advance(w0, longer, s', Retire);
  }

  function Agent(s: Scene): Pod {
    Pod(s.backend, FreshScript, 0, SecretName(ISSUE), PodPending, false, 0)
  }

  function Sandbox(agent: Option<Pod>, rev: Option<Pod>): Namespace {
    Namespace(false, Some(SANDBOX_EGRESS), map[SecretName(ISSUE) := CredsOf(map[])], agent, rev)
  }

  function BuildingStatus(clock: nat, n: nat): Status {
    Status(Building, NamespaceName(ISSUE), n, Some(clock))
  }

  /** The first half of a launch. */
  lemma Encloses(w0: World, run: seq<Action>, s: Scene) returns (longer: seq<Action>, s': Scene)
    requires Shows(Run(w0, run), s) && Waiting(s) && s.log == [INITIAL_STATUS] && s.ns == None
    ensures Shows(Run(w0, longer), s')
    ensures s' == s.(queued := false, ns := Some(EMPTY_NAMESPACE.(policy := Some(SANDBOX_EGRESS))),
                     pc := ReadCreds(Copied(s), ToLaunch))
    ensures var name := TaskName(s.repo, ISSUE); OrderlyRun(w0, run, name) ==> OrderlyRun(w0, longer, name)
  {
    hide Run, Shows, OrderlyRun, TaskName, NamespaceName, SecretName, CredsOf;
    longer, s' := PickUp(w0, run, s);
    longer, s' := Advance(w0, longer, s', OK);
    assert s'.pc == LookPolicy(Copied(s), Launch) && s'.ns == Some(EMPTY_NAMESPACE);
    longer, s' := Advance(w0, longer, s', OK);
    longer, s' := Advance(w0, longer, s', OK);
  }

  /** A new task is launched without a fault. */
  lemma Launches(w0: World, run: seq<Action>, s: Scene) returns (longer: seq<Action>, s': Scene)
    requires Shows(Run(w0, run), s) && Waiting(s) && s.log == [INITIAL_STATUS] && s.ns == None
    ensures Shows(Run(w0, longer), s')
    ensures s' == s.(log := s.log + [BuildingStatus(s.clock, 0)], ns := Some(Sandbox(Some(Agent(s)), None)))
    ensures var name := TaskName(s.repo, ISSUE); OrderlyRun(w0, run, name) ==> OrderlyRun(w0, longer, name)
  {
    hide Run, Shows, OrderlyRun, TaskName, NamespaceName, SecretName, CredsOf;
    var t := Copied(s);
    var home := NamespaceName(ISSUE);
    longer, s' := Encloses(w0, run, s);
    longer, s' := Advance(w0, longer, s', OK);
    longer, s' := Answered(w0, longer, s', CreateSecret(home, SecretName(ISSUE), CredsOf(map[])));
    assert s'.pc == MakePod(t, Launch) && s'.ns == Some(Sandbox(None, None));
    longer, s' := Answered(w0, longer, s', CreatePod(home, AgentSlot, Agent(s)));
    longer, s' := Concludes(w0, longer, s');
  }

  /** From any initial world: credentials are given, and the task is created and launched. */
  lemma Opens(w0: World) returns (run: seq<Action>, s: Scene)
    requires Initial(w0)
    ensures Shows(Run(w0, run), s) && OrderlyRun(w0, run, TaskName(s.repo, ISSUE))
    ensures var s0 := Scene(w0.repo, w0.backend, w0.clock, [INITIAL_STATUS], None, [], [], true, Idle);
      s == s0.(log := s0.log + [BuildingStatus(s0.clock, 0)], ns := Some(Sandbox(Some(Agent(s0)), None)))
  {
    hide TaskName, NamespaceName, SecretName, CredsOf;
    var a, b := Env(SetCreds(Some(map[]))), Env(NewTask(ISSUE));
    s := Scene(w0.repo, w0.backend, w0.clock, [INITIAL_STATUS], None, [], [], true, Idle);
    RunThen(w0, [], a);
    RunThen(w0, [a], b);
    assert [] + [a] == [a] && [a] + [b] == [a, b];
    assert [a, b][..0] == [] && [a, b][..1] == [a];
    run := [a, b];
    assert Run(w0, run) == EnvStep(EnvStep(w0, SetCreds(Some(map[]))), NewTask(ISSUE));
    assert Shows(Run(w0, run), s);
    assert OrderlyRun(w0, run, TaskName(s.repo, ISSUE));
    hide Run, Shows, OrderlyRun;
    run, s := Launches(w0, run, s);
  }

  function PodSeenBy(s: Scene): Option<Pod> {
    if PodOf(s.ns, RevSlot).Some? then PodOf(s.ns, RevSlot) else PodOf(s.ns, AgentSlot)
  }

  /** In Building or Running, with a namespace. */
  predicate AtWork(s: Scene) {
    Waiting(s) && Active(s.log[|s.log| - 1].phase) && s.log[|s.log| - 1].namespace == NamespaceName(ISSUE)
  }

  /** The task is taken up and its pod is read. */
  lemma ReadsPod(w0: World, run: seq<Action>, s: Scene) returns (longer: seq<Action>, s': Scene)
    requires Shows(Run(w0, run), s) && AtWork(s) && PodSeenBy(s).Some?
    ensures Shows(Run(w0, longer), s')
    ensures s' == s.(queued := false, pc := PodSeen(Copied(s), PodSeenBy(s).value))
    ensures var name := TaskName(s.repo, ISSUE); OrderlyRun(w0, run, name) ==> OrderlyRun(w0, longer, name)
  {
    hide Run, Shows, OrderlyRun, TaskName, NamespaceName, SecretName, CredsOf, PodSeen;
    longer, s' := PickUp(w0, run, s);
    assert s'.pc == LookRevision(Copied(s));
    longer, s' := Advance(w0, longer, s', OK);
    if PodOf(s.ns, RevSlot).None? {
      longer, s' := Advance(w0, longer, s', OK);
    }
  }

  lemma HearsQuestion(w0: World, run: seq<Action>, s: Scene) returns (longer: seq<Action>, s': Scene)
    requires Shows(Run(w0, run), s) && AtWork(s) && PodSeenBy(s).Some? && PodSeenBy(s).value.phase == PodFailed
    requires AnyAsksClarification(s.talk)
    ensures Shows(Run(w0, longer), s') && s' == s.(queued := false, pc := DropNamespace(Copied(s), Blocked))
    ensures var name := TaskName(s.repo, ISSUE); OrderlyRun(w0, run, name) ==> OrderlyRun(w0, longer, name)
  {
    hide Run, Shows, OrderlyRun, TaskName, NamespaceName, SecretName, CredsOf, AnyAsksClarification, Page, AtWork,
      PodSeenBy;
    WholePage(s.talk);
    longer, s' := ReadsPod(w0, run, s);
    longer, s' := Advance(w0, longer, s', OK);
    assert s'.pc == LookClarification(Copied(s));
    longer, s' := Advance(w0, longer, s', OK);
  }

  /** The pod has failed after asking for clarification, and the status write is lost. */
  lemma BlocksInVain(w0: World, run: seq<Action>, s: Scene) returns (longer: seq<Action>, s': Scene)
    requires Shows(Run(w0, run), s) && AtWork(s) && PodSeenBy(s).Some? && PodSeenBy(s).value.phase == PodFailed
    requires AnyAsksClarification(s.talk)
    ensures Shows(Run(w0, longer), s') && s' == s.(ns := Some(s.ns.value.(terminating := true)))
    ensures var name := TaskName(s.repo, ISSUE); OrderlyRun(w0, run, name) ==> OrderlyRun(w0, longer, name)
  {
    hide Run, Shows, OrderlyRun, TaskName, NamespaceName, SecretName, CredsOf, AnyAsksClarification;
    longer, s' := HearsQuestion(w0, run, s);
    longer, s' := Advance(w0, longer, s', OK);
    longer, s' := Advance(w0, longer, s', Op(Lost, 0, 0));
    longer, s' := Advance(w0, longer, s', Retire);
  }

  lemma Asks(talk: seq<Comment>, login: string)
    ensures AnyAsksClarification(talk + [Comment(Other(login), "/clarification: which one?")])
  {
    var more := talk + [Comment(Other(login), "/clarification: which one?")];
    assert AsksClarification(more[|talk|].body);
  }

  // ---------------------------------------------------------------- stuck

  /** From any initial world to the delete of the namespace: the agent has failed after asking for
      clarification. */
  lemma IsAsked(w0: World) returns (run: seq<Action>, s: Scene)
    requires Initial(w0)
    ensures Shows(Run(w0, run), s) && s.repo == w0.repo && AtWork(s) && AnyAsksClarification(s.talk)
    ensures s.log == [INITIAL_STATUS, BuildingStatus(s.clock, 0)] && s.ns == Some(Sandbox(Some(FailedAgent(s)), None))
  {
    hide Run, Shows, OrderlyRun, TaskName, NamespaceName, SecretName, CredsOf, AnyAsksClarification;
    run, s := Opens(w0);
    Asks(s.talk, "agent");
    run, s := Advance(w0, run, s, Env(PodEnds(NamespaceName(ISSUE), AgentSlot, false)));
    run, s := Advance(w0, run, s, Env(Say(ISSUE, "agent", "/clarification: which one?")));
  }

  function FailedAgent(s: Scene): Pod {
    Agent(s).(phase := PodFailed)
  }

  /** From every initial world there is a run that ends in a stuck task: the agent asks for
      clarification, its namespace is deleted and the status write is lost. */
  lemma StuckIsReached(w0: World) returns (run: seq<Action>)
    requires Initial(w0)
    ensures var name := TaskName(w0.repo, ISSUE);
      name in Run(w0, run).tasks && |Run(w0, run).tasks[name].log| > 0 && Stuck(ViewOf(Run(w0, run), name))
  {
    hide Run, Shows, OrderlyRun, TaskName, NamespaceName, SecretName, CredsOf, AnyAsksClarification, Stuck;
    var s: Scene;
    run, s := IsAsked(w0);
    run, s := BlocksInVain(w0, run, s);
    run, s := Advance(w0, run, s, Env(NamespaceVanishes(NamespaceName(ISSUE))));
    Reachable(w0, run);
    StuckScene(Run(w0, run), s);
  }

  /** No write need be lost: the operator crashes between the delete and the status write, and the
      namespace goes. */
  lemma StuckByCrash(w0: World) returns (before: seq<Action>, run: seq<Action>)
    requires Initial(w0)
    ensures run == before + [Crash, Env(NamespaceVanishes(NamespaceName(ISSUE)))]
    ensures var name := TaskName(w0.repo, ISSUE);
      && Slips(Run(w0, before), Crash, name)
      && name in Run(w0, run).tasks && |Run(w0, run).tasks[name].log| > 0 && Stuck(ViewOf(Run(w0, run), name))
  {
    hide Run, Shows, OrderlyRun, TaskName, NamespaceName, SecretName, CredsOf, AnyAsksClarification, Stuck, Slips;
    var s: Scene;
    run, s := IsAsked(w0);
    run, s := HearsQuestion(w0, run, s);
    run, s := Advance(w0, run, s, OK);
    before := run;
    SceneSlips(Run(w0, run), s);
    run, s := Advance(w0, run, s, Crash);
    run, s := Advance(w0, run, s, Env(NamespaceVanishes(NamespaceName(ISSUE))));
    Reachable(w0, run);
    StuckScene(Run(w0, run), s);
  }

  lemma SceneSlips(w: World, s: Scene)
    requires Shows(w, s) && Blocking(s.pc) && s.pc.t.name == TaskName(s.repo, ISSUE) && !Manned(s.ns)
    ensures Slips(w, Crash, TaskName(s.repo, ISSUE))
  {
    hide TaskName, NamespaceName;
  }

  lemma StuckScene(w: World, s: Scene)
    requires Basic(w) && Shows(w, s) && AtWork(s) && NoPods(s.ns)
    ensures var name := TaskName(s.repo, ISSUE);
      name in w.tasks && |w.tasks[name].log| > 0 && Stuck(ViewOf(w, name))
  {
    hide Basic, Fits, TaskName, NamespaceName;
    BasicFits(w, TaskName(s.repo, ISSUE));
  }

  // ---------------------------------------------------------------- review and revision

  /** The one pull request there is, with a branch for the issue. */
  predicate OnePR(s: Scene, pr: PullRequest) {
    s.prs == [pr] && pr.number > 0 && BranchOf(pr.head, ISSUE) && pr.open && !pr.merged && Https(pr.url)
  }

  lemma OnePRIsFound(s: Scene, pr: PullRequest)
    requires OnePR(s, pr)
    ensures FindNumber(s.prs, pr.number) == 0 && FirstMatch(Page(OpenOnes(s.prs), 0), ISSUE) == Some(pr)
    ensures pr.url != ""
  {
    assert s.prs[1..] == [];
    assert OpenOnes(s.prs) == [pr];
    WholePage(OpenOnes(s.prs));
    hide BranchOf;
  }

  lemma FindsPR(w0: World, run: seq<Action>, s: Scene, pr: PullRequest) returns (longer: seq<Action>, s': Scene)
    requires Shows(Run(w0, run), s) && AtWork(s) && PodSeenBy(s).Some? && PodSeenBy(s).value.phase == PodSucceeded
    requires OnePR(s, pr) && (Copied(s).status.prNumber == 0 || Copied(s).status.prNumber == pr.number)
    ensures Shows(Run(w0, longer), s') && s' == s.(queued := false, pc := LookComments(Copied(s), pr))
    ensures var name := TaskName(s.repo, ISSUE); OrderlyRun(w0, run, name) ==> OrderlyRun(w0, longer, name)
  {
    hide Run, Shows, OrderlyRun, TaskName, NamespaceName, SecretName, CredsOf, AtWork, PodSeenBy, BranchOf, OpenOnes,
      Page, FirstMatch, FindNumber, Https;
    OnePRIsFound(s, pr);
    longer, s' := ReadsPod(w0, run, s);
    longer, s' := Advance(w0, longer, s', OK);
    assert s'.pc == LookPR(Copied(s), AfterSuccess);
    longer, s' := Advance(w0, longer, s', OK);
    assert s'.pc == ReadCreds(Copied(s), ToComment(pr));
    longer, s' := Advance(w0, longer, s', OK);
  }

  lemma Tells(w0: World, run: seq<Action>, s: Scene, pr: PullRequest) returns (longer: seq<Action>, s': Scene)
    requires Shows(Run(w0, run), s) && AtWork(s) && PodSeenBy(s).Some? && PodSeenBy(s).value.phase == PodSucceeded
    requires OnePR(s, pr) && (Copied(s).status.prNumber == 0 || Copied(s).status.prNumber == pr.number)
    ensures Shows(Run(w0, longer), s')
    ensures var told := if AnyMentionsPR(s.talk) then [] else [Comment(Operator, "PR: " + pr.url)];
      s' == s.(queued := false, talk := s.talk + told, pc := Write(Copied(s), ReviewStatus(Copied(s), pr.number)))
    ensures var name := TaskName(s.repo, ISSUE); OrderlyRun(w0, run, name) ==> OrderlyRun(w0, longer, name)
  {
    hide Run, Shows, OrderlyRun, TaskName, NamespaceName, SecretName, CredsOf, PodSeenBy, OnePR, AnyMentionsPR, Page;
    WholePage(s.talk);
    longer, s' := FindsPR(w0, run, s, pr);
    longer, s' := Advance(w0, longer, s', OK);
    if !AnyMentionsPR(s.talk) {
      longer, s' := Advance(w0, longer, s', OK);
    }
  }

  /** The pod has succeeded: the issue is told if it has not been, and the task awaits review. */
  lemma Closes(w0: World, run: seq<Action>, s: Scene, pr: PullRequest) returns (longer: seq<Action>, s': Scene)
    requires Shows(Run(w0, run), s) && AtWork(s) && PodSeenBy(s).Some? && PodSeenBy(s).value.phase == PodSucceeded
    requires OnePR(s, pr) && (Copied(s).status.prNumber == 0 || Copied(s).status.prNumber == pr.number)
    ensures Shows(Run(w0, longer), s')
    ensures var told := if AnyMentionsPR(s.talk) then [] else [Comment(Operator, "PR: " + pr.url)];
      s' == s.(log := s.log + [ReviewStatus(Copied(s), pr.number)], talk := s.talk + told)
    ensures var name := TaskName(s.repo, ISSUE); OrderlyRun(w0, run, name) ==> OrderlyRun(w0, longer, name)
  {
    hide Run, Shows, OrderlyRun, TaskName, NamespaceName, SecretName, CredsOf, PodSeenBy, OnePR, AnyMentionsPR;
    longer, s' := Tells(w0, run, s, pr);
    longer, s' := Concludes(w0, longer, s');
  }

  predicate UnderReview(s: Scene, pr: PullRequest, p: Phase) {
    && Waiting(s) && OnePR(s, pr) && NEEDS_REVISION in pr.labels
    && s.log[|s.log| - 1].phase == p && s.log[|s.log| - 1].prNumber == pr.number
    && s.log[|s.log| - 1].namespace == NamespaceName(ISSUE)
  }

  /** The reviewer's label is seen. */
  lemma SendsBack(w0: World, run: seq<Action>, s: Scene, pr: PullRequest) returns (longer: seq<Action>, s': Scene)
    requires Shows(Run(w0, run), s) && UnderReview(s, pr, AwaitingReview)
    ensures Shows(Run(w0, longer), s')
    ensures s' == s.(log := s.log + [Copied(s).status.(phase := AwaitingRevision)])
    ensures var name := TaskName(s.repo, ISSUE); OrderlyRun(w0, run, name) ==> OrderlyRun(w0, longer, name)
  {
    hide Run, Shows, OrderlyRun, TaskName, NamespaceName, SecretName, CredsOf, BranchOf, OpenOnes, Page, FindNumber;
    OnePRIsFound(s, pr);
    longer, s' := PickUp(w0, run, s);
    longer, s' := Advance(w0, longer, s', OK);
    longer, s' := Advance(w0, longer, s', OK);
    assert s'.pc == ReadCreds(Copied(s), ToSeeLabel);
    longer, s' := Advance(w0, longer, s', OK);
    longer, s' := Advance(w0, longer, s', OK);
    assert s'.pc == Write(Copied(s), Copied(s).status.(phase := AwaitingRevision));
    longer, s' := Concludes(w0, longer, s');
  }

  lemma TakesLabelOff(w0: World, run: seq<Action>, s: Scene, pr: PullRequest) returns (longer: seq<Action>, s': Scene)
    requires Shows(Run(w0, run), s) && UnderReview(s, pr, AwaitingRevision)
    ensures Shows(Run(w0, longer), s')
    ensures s' == s.(queued := false, prs := [DropLabelFrom(pr, NEEDS_REVISION)],
                     pc := MakeNamespace(Copied(s), Revise(CredsOf(map[]))))
    ensures var name := TaskName(s.repo, ISSUE); OrderlyRun(w0, run, name) ==> OrderlyRun(w0, longer, name)
  {
    hide Run, Shows, OrderlyRun, TaskName, NamespaceName, SecretName, CredsOf, BranchOf, FindNumber, DropLabelFrom;
    OnePRIsFound(s, pr);
    assert s.prs[0 := DropLabelFrom(pr, NEEDS_REVISION)] == [DropLabelFrom(pr, NEEDS_REVISION)];
    longer, s' := PickUp(w0, run, s);
    longer, s' := Advance(w0, longer, s', OK);
    longer, s' := Advance(w0, longer, s', OK);
    assert s'.pc == DropLabel(Copied(s), CredsOf(map[]));
    longer, s' := Advance(w0, longer, s', OK);
  }

  lemma FindsPolicy(w0: World, run: seq<Action>, s: Scene, t: Task, agent: Option<Pod>, rev: Option<Pod>)
    returns (longer: seq<Action>, s': Scene)
    requires Shows(Run(w0, run), s) && s.log != [] && t.name == TaskName(s.repo, ISSUE) && t.spec.issue == ISSUE
    requires s.pc == MakeNamespace(t, Revise(CredsOf(map[]))) && s.ns == Some(Sandbox(agent, rev))
    ensures Shows(Run(w0, longer), s') && s' == s.(pc := MakeSecret(t, Revise(CredsOf(map[])), CredsOf(map[])))
    ensures var name := TaskName(s.repo, ISSUE); OrderlyRun(w0, run, name) ==> OrderlyRun(w0, longer, name)
  {
    hide Run, Shows, OrderlyRun, TaskName, NamespaceName, SecretName, CredsOf;
    longer, s' := Answered(w0, run, s, CreateNamespace(NamespaceName(ISSUE)));
    longer, s' := Answered(w0, longer, s', Call.GetPolicy(NamespaceName(ISSUE)));
  }

  lemma FindsSandbox(w0: World, run: seq<Action>, s: Scene, t: Task, agent: Option<Pod>, rev: Option<Pod>)
    returns (longer: seq<Action>, s': Scene)
    requires Shows(Run(w0, run), s) && s.log != [] && t.name == TaskName(s.repo, ISSUE) && t.spec.issue == ISSUE
    requires t.status.namespace == NamespaceName(ISSUE)
    requires s.pc == MakeNamespace(t, Revise(CredsOf(map[]))) && s.ns == Some(Sandbox(agent, rev))
    ensures Shows(Run(w0, longer), s')
    ensures var rev' := if rev.None? then None else Some(rev.value.(deleting := true));
      s' == s.(ns := Some(Sandbox(agent, rev')), pc := MakePod(t, Revise(CredsOf(map[]))))
    ensures var name := TaskName(s.repo, ISSUE); OrderlyRun(w0, run, name) ==> OrderlyRun(w0, longer, name)
  {
    hide Run, Shows, OrderlyRun, TaskName, NamespaceName, SecretName, CredsOf;
    var home := NamespaceName(ISSUE);
    longer, s' := FindsPolicy(w0, run, s, t, agent, rev);
    longer, s' := Answered(w0, longer, s', CreateSecret(home, SecretName(ISSUE), CredsOf(map[])));
    assert s'.pc == DropRevision(t, CredsOf(map[]));
    longer, s' := Answered(w0, longer, s', DeletePod(home, RevSlot));
  }

  /** A revision attempt without a fault. An old agent-rev is on its way out when the new one is
      asked for, and is taken for it. */
  lemma Revises(w0: World, run: seq<Action>, s: Scene, pr: PullRequest, agent: Option<Pod>, rev: Option<Pod>)
    returns (longer: seq<Action>, s': Scene)
    requires Shows(Run(w0, run), s) && UnderReview(s, pr, AwaitingRevision) && s.ns == Some(Sandbox(agent, rev))
    ensures Shows(Run(w0, longer), s')
    ensures var rev' := if rev.None? then BuildPod(s.backend, Copied(s), Revise(CredsOf(map[])))
                        else rev.value.(deleting := true);
      s' == s.(log := s.log + [Copied(s).status.(phase := Building, startedAt := Some(s.clock))],
               prs := [DropLabelFrom(pr, NEEDS_REVISION)], ns := Some(Sandbox(agent, Some(rev'))))
    ensures var name := TaskName(s.repo, ISSUE);
      rev.None? && OrderlyRun(w0, run, name) ==> OrderlyRun(w0, longer, name)
  {
    hide Run, Shows, OrderlyRun, TaskName, NamespaceName, SecretName, CredsOf, OnePR, DropLabelFrom;
    var t := Copied(s);
    longer, s' := TakesLabelOff(w0, run, s, pr);
    longer, s' := FindsSandbox(w0, longer, s', t, agent, rev);
    var pod := BuildPod(s.backend, t, Revise(CredsOf(map[])));
    longer, s' := Answered(w0, longer, s', CreatePod(NamespaceName(ISSUE), RevSlot, pod));
    assert s'.pc == Write(t, t.status.(phase := Building, startedAt := Some(s.clock)));
    longer, s' := Concludes(w0, longer, s');
  }

  // ---------------------------------------------------------------- runs with a revision

  function PR(labels: seq<string>, labelings: nat, done: bool): PullRequest {
    PullRequest(7, LegacyBranch(ISSUE), "https://pr", true, false, labels, labelings, done)
  }

  lemma LabelsComeAndGo(n: nat, d: bool)
    ensures PRAfter(PR([], n, d), Label(7, NEEDS_REVISION)) == PR([NEEDS_REVISION], n + 1, d)
    ensures DropLabelFrom(PR([NEEDS_REVISION], n, d), NEEDS_REVISION) == PR([], n, d)
    ensures [PR([], n, d)][0 := PR([NEEDS_REVISION], n + 1, d)] == [PR([NEEDS_REVISION], n + 1, d)]
    ensures FindNumber([PR([], n, d)], 7) == 0
  {
    assert [NEEDS_REVISION][1..] == [];
    assert Without([NEEDS_REVISION], NEEDS_REVISION) == [] + Without([NEEDS_REVISION][1..], NEEDS_REVISION) == [];
    hide LegacyBranch;
  }

  lemma PRIsTheOne(s: Scene, labels: seq<string>, n: nat, d: bool)
    requires s.prs == [PR(labels, n, d)]
    ensures OnePR(s, PR(labels, n, d))
  {
    hide LegacyBranch;
  }

  /** The reviewer asks for changes, and the operator sees it. */
  lemma AskedForChanges(w0: World, run: seq<Action>, s: Scene, n: nat, d: bool) returns (longer: seq<Action>, s': Scene)
    requires Shows(Run(w0, run), s) && Waiting(s) && s.prs == [PR([], n, d)]
    requires var st := s.log[|s.log| - 1];
      st.phase == AwaitingReview && st.prNumber == 7 && st.namespace == NamespaceName(ISSUE)
    ensures Shows(Run(w0, longer), s')
    ensures s' == s.(log := s.log + [Copied(s).status.(phase := AwaitingRevision)],
                     prs := [PR([NEEDS_REVISION], n + 1, d)])
    ensures UnderReview(s', PR([NEEDS_REVISION], n + 1, d), AwaitingRevision)
    ensures var name := TaskName(s.repo, ISSUE); OrderlyRun(w0, run, name) ==> OrderlyRun(w0, longer, name)
  {
    hide Run, Shows, OrderlyRun, TaskName, NamespaceName, LegacyBranch, OnePR, FindNumber, PRAfter, PR;
    LabelsComeAndGo(n, d);
    longer, s' := Advance(w0, run, s, Env(Label(7, NEEDS_REVISION)));
    PRIsTheOne(s', [NEEDS_REVISION], n + 1, d);
    LabelIsThere(n + 1, d);
    longer, s' := SendsBack(w0, longer, s', PR([NEEDS_REVISION], n + 1, d));
    PRIsTheOne(s', [NEEDS_REVISION], n + 1, d);
  }

  lemma LabelIsThere(n: nat, d: bool)
    ensures NEEDS_REVISION in PR([NEEDS_REVISION], n, d).labels && PR([NEEDS_REVISION], n, d).number == 7
  {
  }

  function DoneAgent(s: Scene): Pod {
    Agent(s).(phase := PodSucceeded)
  }

  function RevisionPod(s: Scene): Pod {
    Pod(s.backend, RevisionScript, 7, SecretName(ISSUE), PodPending, false, 3)
  }

  /** The history of a task that has been launched, reviewed and sent back once. */
  function OnceRevised(clock: nat): seq<Status> {
    var b := BuildingStatus(clock, 0);
    [INITIAL_STATUS, b, b.(phase := AwaitingReview, prNumber := 7), b.(phase := AwaitingRevision, prNumber := 7),
     b.(prNumber := 7)]
  }

  /** From any initial world to the first revision. */
  lemma GoesIntoRevision(w0: World) returns (run: seq<Action>, s: Scene)
    requires Initial(w0)
    ensures Shows(Run(w0, run), s) && OrderlyRun(w0, run, TaskName(s.repo, ISSUE))
    ensures s.repo == w0.repo && Waiting(s) && s.log == OnceRevised(s.clock) && s.prs == [PR([], 1, false)]
    ensures AnyMentionsPR(s.talk) && s.ns == Some(Sandbox(Some(DoneAgent(s)), Some(RevisionPod(s))))
  {
    hide Run, Shows, OrderlyRun, TaskName, NamespaceName, LegacyBranch, OnePR, SecretName, CredsOf, AnyMentionsPR;
    run, s := Opens(w0);
    run, s := Advance(w0, run, s, Env(PodEnds(NamespaceName(ISSUE), AgentSlot, true)));
    run, s := Advance(w0, run, s, Env(OpenPR(7, LegacyBranch(ISSUE), "https://pr")));
    assert s.prs == [PR([], 0, false)];
    PRIsTheOne(s, [], 0, false);
    NothingSaid();
    run, s := Closes(w0, run, s, PR([], 0, false));
    NowMentioned(s.talk);
    run, s := AskedForChanges(w0, run, s, 0, false);
    LabelsComeAndGo(1, false);
    run, s := Revises(w0, run, s, PR([NEEDS_REVISION], 1, false), Some(DoneAgent(s)), None);
  }

  lemma NothingSaid()
    ensures !AnyMentionsPR([])
  {
  }

  lemma NowMentioned(talk: seq<Comment>)
    requires talk == [Comment(Operator, "PR: " + "https://pr")]
    ensures AnyMentionsPR(talk)
  {
    PostMentions("https://pr");
    assert MentionsPR(talk[0].body);
  }

  /** A revision ends in a question, the delete goes through, the status write is lost, and
      agent-rev leaves the namespace before the agent does. */
  lemma LosesRevisionPod(w0: World) returns (run: seq<Action>, s: Scene)
    requires Initial(w0)
    ensures Shows(Run(w0, run), s) && OrderlyRun(w0, run, TaskName(s.repo, ISSUE)) && s.repo == w0.repo
    ensures Waiting(s) && s.log == OnceRevised(s.clock)
    ensures s.ns == Some(Sandbox(Some(DoneAgent(s)), None).(terminating := true))
  {
    hide Run, Shows, OrderlyRun, TaskName, NamespaceName, SecretName, CredsOf, AnyAsksClarification, AnyMentionsPR, PR;
    run, s := GoesIntoRevision(w0);
    var home := NamespaceName(ISSUE);
    Asks(s.talk, "agent");
    run, s := Advance(w0, run, s, Env(PodEnds(home, RevSlot, false)));
    run, s := Advance(w0, run, s, Env(Say(ISSUE, "agent", "/clarification: which one?")));
    run, s := BlocksInVain(w0, run, s);
    run, s := Advance(w0, run, s, Env(PodVanishes(home, RevSlot)));
  }

  /** Cycle freshness can fail in an orderly run: the first agent, made for the first cycle, is
      read in the cycle of a revision, once agent-rev has left the deleted namespace before it. */
  lemma StaleAgentIsRead(w0: World) returns (run: seq<Action>)
    requires Initial(w0)
    ensures
      var name := TaskName(w0.repo, ISSUE);
      var v := Run(w0, run);
      && OrderlyRun(w0, run, name) && name in v.tasks && OwnCall(v, Op(Clean, 0, 0), name)
      && var r := Attempt(v, Next(v.pc, v.backend).value, Clean, 0, 0).1;
         r.GotPod? && r.pod.cycle != CycleStart(v.tasks[name].log)
  {
    hide Run, Shows, OrderlyRun, TaskName, NamespaceName, SecretName, CredsOf, OnceRevised, Attempt, CycleStart,
      OwnCall;
    var s: Scene;
    run, s := LosesRevisionPod(w0);
    LastOfRevised(s.clock);
    run, s := PickUp(w0, run, s);
    run, s := Advance(w0, run, s, OK);
    ThirdIsTheStart(s.clock);
    OldAgentAnswers(Run(w0, run), s);
    SceneStands(Run(w0, run), s);
  }

  lemma LastOfRevised(clock: nat)
    ensures |OnceRevised(clock)| == 5 && OnceRevised(clock)[4].phase == Building
    ensures OnceRevised(clock)[4].namespace == NamespaceName(ISSUE)
  {
    hide NamespaceName;
  }

  lemma ThirdIsTheStart(clock: nat)
    ensures CycleStart(OnceRevised(clock)) == 3
  {
    var log := OnceRevised(clock);
    assert log == log[..4] + [log[4]];
    assert log[..4] == log[..3] + [log[3]];
    StartOfAppended(log[..4], log[4]);
    hide NamespaceName;
  }

  lemma OldAgentAnswers(w: World, s: Scene)
    requires Shows(w, s) && s.log == OnceRevised(s.clock) && s.pc.LookAgent? && s.pc.t == Copied(s)
    requires PodOf(s.ns, AgentSlot) == Some(DoneAgent(s))
    ensures OwnCall(w, OK, TaskName(s.repo, ISSUE))
    ensures Attempt(w, Next(w.pc, w.backend).value, Clean, 0, 0).1 == GotPod(DoneAgent(s))
  {
    hide TaskName, NamespaceName, SecretName;
  }

  /** A revision can be lost: the second time round, Building is committed on the old agent-rev,
      which is on its way out. Then the first agent's old success sends the task back to review;
      the label is gone, and no pod was ever made for the cycle. */
  lemma RevisionIsLost(w0: World) returns (run: seq<Action>)
    requires Initial(w0)
    ensures
      var name := TaskName(w0.repo, ISSUE);
      var v := Run(w0, run);
      && name in v.tasks && |v.tasks[name].log| == 9
      && var log := v.tasks[name].log;
         && log[6].phase == AwaitingRevision && log[7].phase == Building && log[8].phase == AwaitingReview
         && PodOf(NsOf(v, name), RevSlot).None?
         && PodOf(NsOf(v, name), AgentSlot).Some? && PodOf(NsOf(v, name), AgentSlot).value.cycle == 0
         && |v.prs| == 1 && v.prs[0].number == log[8].prNumber && NEEDS_REVISION !in v.prs[0].labels
  {
    hide Run, Shows, OrderlyRun, TaskName, NamespaceName, SecretName, CredsOf, AnyMentionsPR, LegacyBranch, OnePR;
    var s: Scene;
    run, s := GoesIntoRevision(w0);
    var home := NamespaceName(ISSUE);
    run, s := Advance(w0, run, s, Env(PodEnds(home, RevSlot, true)));
    PRIsTheOne(s, [], 1, false);
    run, s := Closes(w0, run, s, PR([], 1, false));
    run, s := AskedForChanges(w0, run, s, 1, false);
    LabelsComeAndGo(2, false);
    var rev := RevisionPod(s).(phase := PodSucceeded);
    run, s := Revises(w0, run, s, PR([NEEDS_REVISION], 2, false), Some(DoneAgent(s)), Some(rev));
    run, s := Advance(w0, run, s, Env(PodVanishes(home, RevSlot)));
    PRIsTheOne(s, [], 2, false);
    run, s := Closes(w0, run, s, PR([], 2, false));
    SceneStands(Run(w0, run), s);
  }

  lemma SceneStands(w: World, s: Scene)
    requires Shows(w, s)
    ensures var name := TaskName(s.repo, ISSUE);
      name in w.tasks && w.tasks[name].log == s.log && NsOf(w, name) == s.ns && w.prs == s.prs
      && CommentsOn(w, ISSUE) == s.talk
  {
    hide TaskName, NamespaceName;
  }

  // ---------------------------------------------------------------- after a clarification

  /** The status write that follows a failed read of the comments: nothing says that the agent has
      asked. */
  lemma FailsUnheard(w0: World, run: seq<Action>, s: Scene) returns (longer: seq<Action>, s': Scene)
    requires Shows(Run(w0, run), s) && AtWork(s) && PodSeenBy(s).Some? && PodSeenBy(s).value.phase == PodFailed
    ensures Shows(Run(w0, longer), s') && s' == s.(log := s.log + [Copied(s).status.(phase := Failed)])
  {
    hide Run, Shows, OrderlyRun, TaskName, NamespaceName, SecretName, CredsOf, PodSeenBy;
    longer, s' := ReadsPod(w0, run, s);
    longer, s' := Advance(w0, longer, s', OK);
    assert s'.pc == LookClarification(Copied(s));
    longer, s' := Advance(w0, longer, s', Op(Lost, 0, 0));
    longer, s' := Concludes(w0, longer, s');
  }

  /** Failed can be committed on a namespace that is on its way out: the status write after the delete
      is lost, and the next attempt cannot read the comments. */
  lemma FailsOnItsWayOut(w0: World) returns (run: seq<Action>)
    requires Initial(w0)
    ensures
      var name := TaskName(w0.repo, ISSUE);
      var v := Run(w0, run);
      && name in v.tasks && |v.tasks[name].log| > 0 && Current(v.tasks[name]).phase == Failed
      && NsOf(v, name).Some? && NsOf(v, name).value.terminating
  {
    hide Run, Shows, OrderlyRun, TaskName, NamespaceName, SecretName, CredsOf, AnyAsksClarification;
    var s: Scene;
    run, s := IsAsked(w0);
    run, s := BlocksInVain(w0, run, s);
    run, s := FailsUnheard(w0, run, s);
    SceneStands(Run(w0, run), s);
  }

  /** The delete on the way to BlockedOnClarification has fate `f`. */
  lemma Blocks(w0: World, run: seq<Action>, s: Scene, f: Fault) returns (longer: seq<Action>, s': Scene)
    requires Shows(Run(w0, run), s) && AtWork(s) && PodSeenBy(s).Some? && PodSeenBy(s).value.phase == PodFailed
    requires AnyAsksClarification(s.talk) && f != Late
    ensures Shows(Run(w0, longer), s')
    ensures s' == s.(log := s.log + [Copied(s).status.(phase := Blocked)],
                     ns := if f == Lost then s.ns else Some(s.ns.value.(terminating := true)))
  {
    hide Run, Shows, OrderlyRun, TaskName, NamespaceName, SecretName, CredsOf, AnyAsksClarification;
    longer, s' := HearsQuestion(w0, run, s);
    longer, s' := Advance(w0, longer, s', Op(f, 0, 0));
    longer, s' := Concludes(w0, longer, s');
  }

  lemma HearsReply(w0: World, run: seq<Action>, s: Scene) returns (longer: seq<Action>, s': Scene)
    requires Shows(Run(w0, run), s) && Waiting(s) && s.log[|s.log| - 1].phase == Blocked && Replied(s.talk)
    ensures Shows(Run(w0, longer), s')
    ensures s' == s.(queued := false, pc := MakeNamespace(Copied(s), Continue(CredsOf(map[]))))
  {
    hide Run, Shows, OrderlyRun, TaskName, NamespaceName, CredsOf, Replied, LastIsHuman, Page;
    WholePage(s.talk);
    HumanHasLastWord(s.talk);
    longer, s' := PickUp(w0, run, s);
    longer, s' := Advance(w0, longer, s', OK);
    assert s'.pc == LookReply(Copied(s));
    longer, s' := Advance(w0, longer, s', OK);
    assert s'.pc == ReadCreds(Copied(s), ToContinue);
    longer, s' := Advance(w0, longer, s', OK);
  }

  /** A resumption without a fault that finds an old pod of the name. */
  lemma Resumes(w0: World, run: seq<Action>, s: Scene, agent: Pod) returns (longer: seq<Action>, s': Scene)
    requires Shows(Run(w0, run), s) && Waiting(s) && s.log[|s.log| - 1].phase == Blocked && Replied(s.talk)
    requires s.ns == Some(Sandbox(Some(agent), None))
    ensures Shows(Run(w0, longer), s')
    ensures s' == s.(log := s.log + [Provisioned(Copied(s), Continue(CredsOf(map[])), s.clock)])
  {
    hide Run, Shows, OrderlyRun, TaskName, NamespaceName, SecretName, CredsOf, Replied;
    var t, home := Copied(s), NamespaceName(ISSUE);
    longer, s' := HearsReply(w0, run, s);
    longer, s' := Answered(w0, longer, s', CreateNamespace(home));
    longer, s' := Answered(w0, longer, s', Call.GetPolicy(home));
    longer, s' := Answered(w0, longer, s', CreateSecret(home, SecretName(ISSUE), CredsOf(map[])));
    var job := Continue(CredsOf(map[]));
    assert s'.pc == MakePod(t, job);
    longer, s' := Answered(w0, longer, s', CreatePod(home, AgentSlot, BuildPod(s.backend, t, job)));
    longer, s' := Concludes(w0, longer, s');
  }

  /** A resumption can come to nothing: the delete before BlockedOnClarification is lost, the create
      of the resumed agent is taken for done over the old failed one, and the question already
      answered blocks the task again, with no agent having run in between. */
  lemma ResumptionIsLost(w0: World) returns (run: seq<Action>)
    requires Initial(w0)
    ensures
      var name := TaskName(w0.repo, ISSUE);
      var v := Run(w0, run);
      && name in v.tasks && |v.tasks[name].log| == 5 && Replied(CommentsOn(v, ISSUE))
      && var log := v.tasks[name].log;
         && log[2].phase == Blocked && log[3].phase == Building && log[4].phase == Blocked
         && PodOf(NsOf(v, name), AgentSlot).Some? && PodOf(NsOf(v, name), RevSlot).None?
         && PodOf(NsOf(v, name), AgentSlot).value.cycle == 0
         && PodOf(NsOf(v, name), AgentSlot).value.script == FreshScript
  {
    hide Run, Shows, OrderlyRun, TaskName, NamespaceName, SecretName, CredsOf, AnyAsksClarification, Replied;
    var s: Scene;
    run, s := IsAsked(w0);
    run, s := Blocks(w0, run, s, Lost);
    StillAsks(s.talk, Comment(Other("reporter"), "the first one"));
    HumanReplies(s.talk, "reporter", "the first one");
    run, s := Advance(w0, run, s, Env(Say(ISSUE, "reporter", "the first one")));
    run, s := Resumes(w0, run, s, FailedAgent(s));
    run, s := Blocks(w0, run, s, Clean);
    SceneStands(Run(w0, run), s);
  }

  lemma StillAsks(talk: seq<Comment>, c: Comment)
    requires AnyAsksClarification(talk)
    ensures AnyAsksClarification(talk + [c])
  {
    hide AsksClarification;
    var i :| 0 <= i < |talk| && AsksClarification(talk[i].body);
    assert (talk + [c])[i] == talk[i];
  }

  lemma HumanReplies(talk: seq<Comment>, login: string, body: string)
    requires login != "github-actions[bot]" && login != "app/github-actions"
    ensures Replied(talk + [Comment(Other(login), body)])
  {
  }

  // ---------------------------------------------------------------- a listing that is cut

  /** The status write after the comment is lost. */
  lemma TellsInVain(w0: World, run: seq<Action>, s: Scene, pr: PullRequest, drop: nat)
    returns (longer: seq<Action>, s': Scene)
    requires Shows(Run(w0, run), s) && AtWork(s) && PodSeenBy(s).Some? && PodSeenBy(s).value.phase == PodSucceeded
    requires OnePR(s, pr) && Copied(s).status.prNumber == 0 && !AnyMentionsPR(Page(s.talk, drop))
    ensures Shows(Run(w0, longer), s')
    ensures s' == s.(talk := s.talk + [Comment(Operator, "PR: " + pr.url)])
  {
    hide Run, Shows, OrderlyRun, TaskName, NamespaceName, SecretName, CredsOf, PodSeenBy, OnePR, AnyMentionsPR, Page;
    longer, s' := FindsPR(w0, run, s, pr);
    longer, s' := Advance(w0, longer, s', Op(Clean, 0, drop));
    assert s'.pc == PostComment(Copied(s), pr);
    longer, s' := Advance(w0, longer, s', OK);
    longer, s' := Advance(w0, longer, s', Op(Lost, 0, 0));
    longer, s' := Advance(w0, longer, s', Retire);
  }

  /** With a listing cut before the operator's own comment, the operator posts a second one. */
  lemma PostsAgain(w0: World) returns (run: seq<Action>)
    requires Initial(w0)
    ensures Posted(CommentsOn(Run(w0, run), ISSUE)) == 2
  {
    hide Run, Shows, OrderlyRun, TaskName, NamespaceName, SecretName, CredsOf, AnyMentionsPR, LegacyBranch, OnePR;
    var s: Scene;
    run, s := Opens(w0);
    run, s := Advance(w0, run, s, Env(PodEnds(NamespaceName(ISSUE), AgentSlot, true)));
    run, s := Advance(w0, run, s, Env(OpenPR(7, LegacyBranch(ISSUE), "https://pr")));
    assert s.prs == [PR([], 0, false)];
    PRIsTheOne(s, [], 0, false);
    NothingSaid();
    run, s := TellsInVain(w0, run, s, PR([], 0, false), 0);
    PRIsTheOne(s, [], 0, false);
    assert Page(s.talk, 1) == [];
    run, s := TellsInVain(w0, run, s, PR([], 0, false), 1);
    var c := Comment(Operator, "PR: " + PR([], 0, false).url);
    PostedAppends([], c);
    PostedAppends([c], c);
    assert s.talk == [] + [c] + [c];
    SceneStands(Run(w0, run), s);
  }

  // ---------------------------------------------------------------- stale reads

  /** From any initial world to the first review. */
  lemma GoesIntoReview(w0: World) returns (run: seq<Action>, s: Scene)
    requires Initial(w0)
    ensures Shows(Run(w0, run), s) && s.repo == w0.repo && Waiting(s) && s.log == OnceRevised(s.clock)[..3]
    ensures s.prs == [PR([], 0, false)] && s.ns == Some(Sandbox(Some(DoneAgent(s)), None))
  {
    hide Run, Shows, OrderlyRun, TaskName, NamespaceName, LegacyBranch, OnePR, SecretName, CredsOf, AnyMentionsPR;
    run, s := Opens(w0);
    run, s := Advance(w0, run, s, Env(PodEnds(NamespaceName(ISSUE), AgentSlot, true)));
    run, s := Advance(w0, run, s, Env(OpenPR(7, LegacyBranch(ISSUE), "https://pr")));
    assert s.prs == [PR([], 0, false)];
    PRIsTheOne(s, [], 0, false);
    run, s := Closes(w0, run, s, PR([], 0, false));
  }

  function ClosedPR(n: nat, merged: bool): PullRequest {
    PR([], n, true).(open := false, merged := merged)
  }

  lemma ClosingAndReopening(n: nat, merged: bool)
    ensures FindNumber([PR([], n, false)], 7) == 0 && FindNumber([ClosedPR(n, merged)], 7) == 0
    ensures [PR([], n, false)][0 := PRAfter(PR([], n, false), ClosePR(7, merged))] == [ClosedPR(n, merged)]
    ensures [ClosedPR(n, false)][0 := PRAfter(ClosedPR(n, false), ReopenPR(7))] == [PR([], n, true)]
  {
    hide LegacyBranch;
  }

  lemma SeesClosed(w0: World, run: seq<Action>, s: Scene, merged: bool) returns (longer: seq<Action>, s': Scene)
    requires Shows(Run(w0, run), s) && Waiting(s) && s.prs == [ClosedPR(0, merged)]
    requires s.log[|s.log| - 1].phase == AwaitingReview && s.log[|s.log| - 1].prNumber == 7
    ensures Shows(Run(w0, longer), s') && s' == s.(queued := false, pc := DropNamespace(Copied(s), Completed))
  {
    hide Run, Shows, OrderlyRun, TaskName, NamespaceName, LegacyBranch, SecretName, CredsOf, FindNumber;
    ClosingAndReopening(0, merged);
    longer, s' := PickUp(w0, run, s);
    longer, s' := Advance(w0, longer, s', OK);
    longer, s' := Advance(w0, longer, s', OK);
  }

  /** A closed pull request is seen, and the namespace is deleted; the status write has fate `f`. */
  lemma Finishes(w0: World, run: seq<Action>, s: Scene, merged: bool, f: Fault)
    returns (longer: seq<Action>, s': Scene)
    requires Shows(Run(w0, run), s) && Waiting(s) && s.prs == [ClosedPR(0, merged)] && s.ns.Some? && f != Late
    requires var st := s.log[|s.log| - 1];
      st.phase == AwaitingReview && st.prNumber == 7 && st.namespace == NamespaceName(ISSUE)
    ensures Shows(Run(w0, longer), s')
    ensures s' == s.(ns := None,
                     log := s.log + if f == Lost then [] else [Copied(s).status.(phase := Completed)])
  {
    hide Run, Shows, OrderlyRun, TaskName, NamespaceName, LegacyBranch, SecretName, CredsOf, FindNumber;
    longer, s' := SeesClosed(w0, run, s, merged);
    longer, s' := Answered(w0, longer, s', DeleteNamespace(NamespaceName(ISSUE)));
    longer, s' := Advance(w0, longer, s', Op(f, 0, 0));
    longer, s' := Advance(w0, longer, s', Retire);
    longer, s' := Advance(w0, longer, s', Env(NamespaceVanishes(NamespaceName(ISSUE))));
  }

  /** The worker takes the task up and reads the version it started from. */
  lemma ReadsFirstVersion(w0: World, run: seq<Action>, s: Scene) returns (longer: seq<Action>, s': Scene)
    requires Shows(Run(w0, run), s) && Waiting(s) && s.log[0] == INITIAL_STATUS
    ensures Shows(Run(w0, longer), s')
    ensures s' == s.(queued := false,
                     pc := MakeNamespace(Task(TaskName(s.repo, ISSUE), Spec(ISSUE, s.repo), INITIAL_STATUS, 0), Launch))
  {
    hide Run, Shows, OrderlyRun, TaskName, NamespaceName;
    longer, s' := Advance(w0, run, s, Start(TaskName(s.repo, ISSUE)));
    longer, s' := Advance(w0, longer, s', Op(Clean, |s.log|, 0));
  }

  /** With a stale read the namespace of a completed task can come back. */
  lemma StaleReadRecreates(w0: World) returns (run: seq<Action>)
    requires Initial(w0)
    ensures
      var name := TaskName(w0.repo, ISSUE);
      var v := Run(w0, run);
      && name in v.tasks && |v.tasks[name].log| > 0 && Current(v.tasks[name]).phase == Completed
      && NsOf(v, name).Some? && !NsOf(v, name).value.terminating
  {
    hide Run, Shows, OrderlyRun, TaskName, NamespaceName, LegacyBranch, SecretName, CredsOf, FindNumber, PRAfter;
    var s: Scene;
    run, s := GoesIntoReview(w0);
    ClosingAndReopening(0, true);
    run, s := Advance(w0, run, s, Env(ClosePR(7, true)));
    run, s := Finishes(w0, run, s, true, Clean);
    run, s := ReadsFirstVersion(w0, run, s);
    run, s := Answered(w0, run, s, CreateNamespace(NamespaceName(ISSUE)));
    SceneStands(Run(w0, run), s);
  }

  /** A revision of a task whose namespace has gone. */
  lemma RevisesAnew(w0: World, run: seq<Action>, s: Scene, pr: PullRequest) returns (longer: seq<Action>, s': Scene)
    requires Shows(Run(w0, run), s) && UnderReview(s, pr, AwaitingRevision) && s.ns == None
    ensures Shows(Run(w0, longer), s')
    ensures s' == s.(log := s.log + [Copied(s).status.(phase := Building, startedAt := Some(s.clock))],
                     prs := [DropLabelFrom(pr, NEEDS_REVISION)],
                     ns := Some(Sandbox(None, Some(BuildPod(s.backend, Copied(s), Revise(CredsOf(map[])))))))
  {
    hide Run, Shows, OrderlyRun, TaskName, NamespaceName, SecretName, CredsOf, OnePR, DropLabelFrom;
    var t := Copied(s);
    longer, s' := TakesLabelOff(w0, run, s, pr);
    longer, s' := BuildsSandbox(w0, longer, s', t);
    var pod := BuildPod(s.backend, t, Revise(CredsOf(map[])));
    longer, s' := Answered(w0, longer, s', CreatePod(NamespaceName(ISSUE), RevSlot, pod));
    assert s'.pc == Write(t, t.status.(phase := Building, startedAt := Some(s.clock)));
    longer, s' := Concludes(w0, longer, s');
  }

  lemma EnclosesAgain(w0: World, run: seq<Action>, s: Scene, t: Task) returns (longer: seq<Action>, s': Scene)
    requires Shows(Run(w0, run), s) && s.log != [] && t.name == TaskName(s.repo, ISSUE) && t.spec.issue == ISSUE
    requires s.pc == MakeNamespace(t, Revise(CredsOf(map[]))) && s.ns == None
    ensures Shows(Run(w0, longer), s')
    ensures s' == s.(ns := Some(EMPTY_NAMESPACE.(policy := Some(SANDBOX_EGRESS))),
                     pc := MakeSecret(t, Revise(CredsOf(map[])), CredsOf(map[])))
  {
    hide Run, Shows, OrderlyRun, TaskName, NamespaceName, SecretName, CredsOf;
    var job, home := Revise(CredsOf(map[])), NamespaceName(ISSUE);
    longer, s' := Answered(w0, run, s, CreateNamespace(home));
    longer, s' := Answered(w0, longer, s', Call.GetPolicy(home));
    assert s'.pc == PutPolicy(t, job, true);
    longer, s' := Answered(w0, longer, s', CreatePolicy(home, SANDBOX_EGRESS));
  }

  lemma BuildsSandbox(w0: World, run: seq<Action>, s: Scene, t: Task) returns (longer: seq<Action>, s': Scene)
    requires Shows(Run(w0, run), s) && s.log != [] && t.name == TaskName(s.repo, ISSUE) && t.spec.issue == ISSUE
    requires t.status.namespace == NamespaceName(ISSUE)
    requires s.pc == MakeNamespace(t, Revise(CredsOf(map[]))) && s.ns == None
    ensures Shows(Run(w0, longer), s')
    ensures s' == s.(ns := Some(Sandbox(None, None)), pc := MakePod(t, Revise(CredsOf(map[]))))
  {
    hide Run, Shows, OrderlyRun, TaskName, NamespaceName, SecretName, CredsOf;
    var home := NamespaceName(ISSUE);
    longer, s' := EnclosesAgain(w0, run, s, t);
    longer, s' := Answered(w0, longer, s', CreateSecret(home, SecretName(ISSUE), CredsOf(map[])));
    longer, s' := Answered(w0, longer, s', DeletePod(home, RevSlot));
  }

  /** A launch from a stale read finds everything but the agent's pod, and makes that. */
  lemma LaunchesBeside(w0: World, run: seq<Action>, s: Scene, t: Task, rev: Option<Pod>)
    returns (longer: seq<Action>, s': Scene)
    requires Shows(Run(w0, run), s) && s.log != [] && t.name == TaskName(s.repo, ISSUE) && t.spec.issue == ISSUE
    requires s.pc == MakeNamespace(t, Launch) && s.ns == Some(Sandbox(None, rev))
    ensures Shows(Run(w0, longer), s')
    ensures s'.repo == s.repo && s'.ns == Some(Sandbox(Some(BuildPod(s.backend, t, Launch)), rev))
  {
    hide Run, Shows, OrderlyRun, TaskName, NamespaceName, SecretName, CredsOf;
    var home := NamespaceName(ISSUE);
    longer, s' := Answered(w0, run, s, CreateNamespace(home));
    longer, s' := Answered(w0, longer, s', Call.GetPolicy(home));
    assert s'.pc == ReadCreds(t, ToLaunch);
    longer, s' := Advance(w0, longer, s', OK);
    longer, s' := Answered(w0, longer, s', CreateSecret(home, SecretName(ISSUE), CredsOf(map[])));
    assert s'.pc == MakePod(t, Launch);
    longer, s' := Answered(w0, longer, s', CreatePod(home, AgentSlot, BuildPod(s.backend, t, Launch)));
  }

  /** With a stale read both pods of a task can be at work: a deleted namespace, whose task was
      not completed because the write was lost, is made again for a revision, and the first
      version of the task is read beside it. */
  lemma StaleReadMakesTwoAgents(w0: World) returns (run: seq<Action>)
    requires Initial(w0)
    ensures
      var name := TaskName(w0.repo, ISSUE);
      var v := Run(w0, run);
      && name in v.tasks
      && Live(PodOf(NsOf(v, name), AgentSlot)) && Live(PodOf(NsOf(v, name), RevSlot))
  {
    hide Run, Shows, OrderlyRun, TaskName, NamespaceName, LegacyBranch, SecretName, CredsOf, FindNumber, PRAfter, OnePR;
    var s: Scene;
    run, s := GoesIntoReview(w0);
    ClosingAndReopening(0, false);
    run, s := Advance(w0, run, s, Env(ClosePR(7, false)));
    run, s := Finishes(w0, run, s, false, Lost);
    run, s := Advance(w0, run, s, Env(ReopenPR(7)));
    run, s := AskedForChanges(w0, run, s, 0, true);
    run, s := RevisesAnew(w0, run, s, PR([NEEDS_REVISION], 1, true));
    run, s := ReadsFirstVersion(w0, run, s);
    run, s := LaunchesBeside(w0, run, s, s.pc.t, s.ns.value.rev);
    SceneStands(Run(w0, run), s);
  }

  /** A revision can leave its task stuck in a namespace that stays: agent-rev was alone, because the
      namespace was made anew; the next revision is taken for started over it while it goes. */
  lemma StuckByRevision(w0: World) returns (run: seq<Action>)
    requires Initial(w0)
    ensures
      var name := TaskName(w0.repo, ISSUE);
      var v := Run(w0, run);
      && name in v.tasks && |v.tasks[name].log| > 0 && Stuck(ViewOf(v, name))
      && NsOf(v, name).Some? && !NsOf(v, name).value.terminating
  {
    hide Run, Shows, OrderlyRun, TaskName, NamespaceName, LegacyBranch, SecretName, CredsOf, FindNumber, PRAfter, OnePR,
      Stuck, AnyMentionsPR;
    var s: Scene;
    run, s := GoesIntoReview(w0);
    ClosingAndReopening(0, false);
    run, s := Advance(w0, run, s, Env(ClosePR(7, false)));
    run, s := Finishes(w0, run, s, false, Lost);
    run, s := Advance(w0, run, s, Env(ReopenPR(7)));
    run, s := AskedForChanges(w0, run, s, 0, true);
    run, s := RevisesAnew(w0, run, s, PR([NEEDS_REVISION], 1, true));
    LabelsComeAndGo(1, true);
    run, s := Advance(w0, run, s, Env(PodEnds(NamespaceName(ISSUE), RevSlot, true)));
    PRIsTheOne(s, [], 1, true);
    run, s := Closes(w0, run, s, PR([], 1, true));
    run, s := AskedForChanges(w0, run, s, 1, true);
    LabelsComeAndGo(2, true);
    run, s := Revises(w0, run, s, PR([NEEDS_REVISION], 2, true), None, s.ns.value.rev);
    run, s := Advance(w0, run, s, Env(PodVanishes(NamespaceName(ISSUE), RevSlot)));
    Reachable(w0, run);
    SceneStands(Run(w0, run), s);
    StuckScene(Run(w0, run), s);
  }

  /** With a stale read a task can be stuck without a fault and without a crash: its pull request is
      closed while a revision is under way, and the review is read again from an earlier version; the
      namespace is deleted, and the status write is refused as a conflict. */
  lemma StaleReadSticks(w0: World) returns (before: seq<Action>, run: seq<Action>)
    requires Initial(w0)
    ensures run == before + [Start(TaskName(w0.repo, ISSUE)), Op(Clean, 2, 0), OK, OK, OK, OK, Retire,
                             Env(NamespaceVanishes(NamespaceName(ISSUE)))]
    ensures
      var name := TaskName(w0.repo, ISSUE);
      var w, v := Run(w0, before), Run(w0, run);
      && name in w.tasks && Manned(NsOf(w, name))
      && name in v.tasks && |v.tasks[name].log| > 0 && Stuck(ViewOf(v, name))
  {
    hide Run, Shows, OrderlyRun, TaskName, NamespaceName, LegacyBranch, SecretName, CredsOf, FindNumber, PRAfter, Stuck,
      AnyMentionsPR, ClosedPR, PR;
    var s: Scene;
    run, s := GoesIntoRevision(w0);
    ClosingAndReopening(1, true);
    run, s := Advance(w0, run, s, Env(ClosePR(7, true)));
    before := run;
    SceneStands(Run(w0, run), s);
    run, s := ReviewsAgain(w0, run, s);
    run, s := Advance(w0, run, s, OK);
    run, s := Advance(w0, run, s, OK);
    run, s := Advance(w0, run, s, Retire);
    run, s := Advance(w0, run, s, Env(NamespaceVanishes(NamespaceName(ISSUE))));
    Reachable(w0, run);
    LastOfRevised(s.clock);
    StuckScene(Run(w0, run), s);
  }

  /** The third version is read, and the closed pull request is seen. */
  lemma ReviewsAgain(w0: World, run: seq<Action>, s: Scene) returns (longer: seq<Action>, s': Scene)
    requires Shows(Run(w0, run), s) && Waiting(s) && s.log == OnceRevised(s.clock) && s.prs == [ClosedPR(1, true)]
    ensures longer == run + [Start(TaskName(s.repo, ISSUE)), Op(Clean, 2, 0), OK, OK]
    ensures Shows(Run(w0, longer), s')
    ensures var t := Task(TaskName(s.repo, ISSUE), Spec(ISSUE, s.repo), OnceRevised(s.clock)[2], 2);
      s' == s.(queued := false, pc := DropNamespace(t, Completed))
  {
    hide Run, Shows, OrderlyRun, TaskName, NamespaceName, LegacyBranch, SecretName, CredsOf, FindNumber;
    ClosingAndReopening(1, true);
    longer, s' := Advance(w0, run, s, Start(TaskName(s.repo, ISSUE)));
    longer, s' := Advance(w0, longer, s', Op(Clean, 2, 0));
    longer, s' := Advance(w0, longer, s', OK);
    longer, s' := Advance(w0, longer, s', OK);
  }
}
