/** Tasks do not meet in the cluster. Every call Reconcile makes is addressed to the task it
    holds, different tasks have different namespaces, and so each step of the whole system is, for
    each task, a step of that task by itself: its own calls, its own pods, crashes, and nothing
    else. */
module Isolation {
  import opened Names
  import opened Model
  import opened Machine
  import opened Base

  function Home(w: World, name: string): string
    requires name in w.tasks
  {
    NamespaceName(w.tasks[name].spec.issue)
  }

  /** The namespace of task `name`, if it exists. */
  function NsOf(w: World, name: string): Option<Namespace>
    requires name in w.tasks
  {
    Lookup(w, Home(w, name))
  }

  function PodOf(ns: Option<Namespace>, slot: Slot): Option<Pod> {
    if ns.None? then None else PodIn(ns.value, slot)
  }

  lemma HomesDiffer(w: World, a: string, b: string)
    requires TasksOk(w.repo, w.tasks) && a in w.tasks && b in w.tasks
    ensures Home(w, a) == Home(w, b) <==> a == b
  {
    hide LogOk;
    assert RecordOk(w.repo, a, w.tasks[a]) && RecordOk(w.repo, b, w.tasks[b]);
    NamespaceInjective(w.tasks[a].spec.issue, w.tasks[b].spec.issue);
    hide NamespaceName, TaskName;
  }

  /** The calls Reconcile makes are addressed to its own task. */
  predicate Addressed(t: Task, call: Call) {
    && (OnCluster(call) ==> call.ns == NamespaceName(t.spec.issue))
    && (call.ListComments? || call.CreateComment? ==> call.issue == t.spec.issue)
    && (OnTask(call) ==> call.name == t.name)
    && (call.GetPR? || call.RemoveLabel? ==> call.number == t.status.prNumber)
  }

  lemma CallsAreAddressed(pc: Pc, backend: Backend)
    requires PcFits(pc) && Next(pc, backend).Some? && Held(pc).Some?
    requires StatusOk(Held(pc).value.status, Held(pc).value.spec.issue)
    ensures Addressed(Held(pc).value, Next(pc, backend).value)
  {
    hide NamespaceName, SecretName, BuildPod;
  }

  lemma ExecStaysHome(w: World, call: Call, lag: nat, drop: nat, ns: string)
    requires OnCluster(call) ==> call.ns != ns
    ensures Lookup(Exec(w, call, lag, drop).0, ns) == Lookup(w, ns)
  {
    hide NsCall;
  }

  lemma ExecAtHome(w: World, call: Call, lag: nat, drop: nat, ns: string)
    requires OnCluster(call) ==> call.ns == ns
    ensures var (w', r) := Exec(w, call, lag, drop);
      if OnCluster(call) then NsCall(Lookup(w, ns), call) == (Lookup(w', ns), r) else w'.cluster == w.cluster
  {
    NsCallKeeps(Lookup(w, ns), call);
    hide NsCall;
  }

  lemma NsCallKeeps(obj: Option<Namespace>, call: Call)
    ensures OnCluster(call) && obj.Some? ==> NsCall(obj, call).0.Some?
  {
  }

  /** At home, a call does what it does to the one namespace, unless it is lost. */
  lemma CallAtHome(w: World, fault: Fault, lag: nat, drop: nat, name: string)
    requires Basic(w) && Next(w.pc, w.backend).Some? && Held(w.pc).Some? && Held(w.pc).value.name == name
    ensures name in Step(w, Op(fault, lag, drop)).tasks
    ensures var call := Next(w.pc, w.backend).value;
      NsOf(Step(w, Op(fault, lag, drop)), name) ==
        if OnCluster(call) && fault != Lost then NsCall(NsOf(w, name), call).0 else NsOf(w, name)
    ensures var call := Next(w.pc, w.backend).value;
      fault == Clean && OnCluster(call) ==>
        Attempt(w, call, fault, lag, drop).1 == NsCall(NsOf(w, name), call).1
  {
    hide NamespaceName, StatusOk, PcFits, TasksOk, Resume, Next, NsCall, PRsOk, Held, Exec;
    var call := Next(w.pc, w.backend).value;
    CallOnTasks(w, fault, lag, drop, name);
    HeldOk(w);
    CallsAreAddressed(w.pc, w.backend);
    ExecAtHome(w, call, lag, drop, Home(w, name));
  }

  /** A call made for one task leaves the namespace of every other task alone. */
  lemma CallStaysHome(w: World, fault: Fault, lag: nat, drop: nat, name: string)
    requires Basic(w) && Next(w.pc, w.backend).Some? && name in w.tasks && Owner(w.pc) != Some(name)
    ensures name in Step(w, Op(fault, lag, drop)).tasks
    ensures NsOf(Step(w, Op(fault, lag, drop)), name) == NsOf(w, name)
  {
    hide NamespaceName, StatusOk, PRsOk, LogOk;
    var call := Next(w.pc, w.backend).value;
    HeldOk(w);
    HeldIsOwned(w.pc);
    CallOnTasks(w, fault, lag, drop, name);
    if Held(w.pc).Some? {
      var t := Held(w.pc).value;
      CallsAreAddressed(w.pc, w.backend);
      HomesDiffer(w, name, t.name);
    } else {
      NextNeedsOwner(w.pc, w.backend);
    }
    hide PcFits, TasksOk, Resume;
    ExecStaysHome(w, call, lag, drop, Home(w, name));
    hide Next, Exec, Held, Owner;
  }

  /** Every namespace in the cluster is the home of a stored task. */
  ghost predicate Inhabited(w: World, ns: string) {
    exists name :: name in w.tasks && Home(w, name) == ns
  }

  ghost predicate Settled(w: World) {
    forall ns :: ns in w.cluster ==> Inhabited(w, ns)
  }

  lemma NewHomeIsEmpty(w: World, issue: int)
    requires Basic(w) && Settled(w) && issue >= 1 && TaskName(w.repo, issue) !in w.tasks
    ensures NamespaceName(issue) !in w.cluster
  {
    hide NamespaceName, TaskName, LogOk, PcOk, PRsOk;
    var ns := NamespaceName(issue);
    if ns in w.cluster {
      assert Inhabited(w, ns);
      var name :| name in w.tasks && Home(w, name) == ns;
      assert RecordOk(w.repo, name, w.tasks[name]);
      NamespaceInjective(w.tasks[name].spec.issue, issue);
    }
  }

  // ---------------------------------------------------------------- one task by itself

  /** One task by itself: its record, its namespace, and Reconcile while it is busy with it. */
  datatype View = View(name: string, rec: Record, ns: Option<Namespace>, pc: Pc)

  function ViewOf(w: World, name: string): View
    requires name in w.tasks
  {
    View(name, w.tasks[name], NsOf(w, name), if Owner(w.pc) == Some(name) then w.pc else Idle)
  }

  /** What can happen to one task by itself. `took` says whether its call took effect. */
  datatype Move =
    | Stay
    | Called(r: Response, took: bool, now: nat)
    | Shifted(m: EnvMove)
    | Began
    | Left

  function RecordAfter(v: View, r: Response, took: bool): Record {
    var rec := if RemovalFailed(v.pc, r) then v.rec.(failedRemovals := v.rec.failedRemovals + 1) else v.rec;
    if took && v.pc.Write? && v.pc.t.version == |v.rec.log| - 1 then rec.(log := rec.log + [v.pc.status]) else rec
  }

  function NsAfter(v: View, backend: Backend, took: bool): Option<Namespace>
    requires Next(v.pc, backend).Some?
  {
    var call := Next(v.pc, backend).value;
    if took && OnCluster(call) then NsCall(v.ns, call).0 else v.ns
  }

  predicate NsMoving(m: EnvMove) {
    m.PodRuns? || m.PodEnds? || m.PodVanishes? || m.NamespaceVanishes?
  }

  /** The answers a call can get. */
  predicate Sensible(v: View, backend: Backend, r: Response, took: bool)
    requires Next(v.pc, backend).Some?
  {
    var call := Next(v.pc, backend).value;
    && (r != OtherError ==> took)
    && (OnCluster(call) ==> r == OtherError || r == NsCall(v.ns, call).1)
    && (!OnCluster(call) ==> !r.GotPod? && !r.GotPolicy?)
    && (r.GotTask? ==>
          && v.pc.Fetch?
          && r.task.name == v.name && r.task.spec == v.rec.spec
          && r.task.version < |v.rec.log| && r.task.status == v.rec.log[r.task.version])
    && (r.GotPR? ==> (v.pc.LookPR? || v.pc.LookLabel?) && r.pr.number == v.pc.t.status.prNumber > 0)
    && (r.GotPRs? ==>
          && v.pc.LookPR? && v.pc.t.status.prNumber == 0
          && forall pr :: pr in r.prs ==> pr.open && pr.number > 0)
    && (v.pc.Write? && r == Ack ==> v.pc.t.version == |v.rec.log| - 1)
  }

  predicate Possible(v: View, backend: Backend, mv: Move) {
    match mv
    case Stay => true
    case Called(r, took, now) => Next(v.pc, backend).Some? && Sensible(v, backend, r, took)
    case Shifted(m) => NsMoving(m)
    case Began => v.pc == Idle
    case Left => true
  }

  /** The task alone. */
  function Proceed(v: View, backend: Backend, mv: Move): View
    requires Possible(v, backend, mv)
  {
    match mv
    case Stay => v
    case Called(r, took, now) => View(v.name, RecordAfter(v, r, took), NsAfter(v, backend, took), Resume(v.pc, r, now))
    case Shifted(m) => v.(ns := NsMove(v.ns, m))
    case Began => v.(pc := Fetch(v.name))
    case Left => v.(pc := Idle)
  }

  /** What an action of the whole system is to one task. */
  function Share(w: World, a: Action, name: string): Move
    requires name in w.tasks
  {
    match a
    case Start(other) => if w.pc.Idle? && other in w.queue && other == name then Began else Stay
    case Op(fault, lag, drop) =>
      if Next(w.pc, w.backend).None? || Owner(w.pc) != Some(name) then Stay
      else Called(Attempt(w, Next(w.pc, w.backend).value, fault, lag, drop).1, fault != Lost, w.clock)
    case Retire => if w.pc.Done? then Left else Stay
    case Crash => Left
    case Env(m) => if NsMoving(m) && m.ns == Home(w, name) then Shifted(m) else Stay
    case Skip => Stay
  }

  lemma OwnRecord(w: World, fault: Fault, lag: nat, drop: nat, name: string)
    requires Basic(w) && name in w.tasks && Next(w.pc, w.backend).Some? && Owner(w.pc) == Some(name)
    ensures var w' := Step(w, Op(fault, lag, drop));
      var r := Attempt(w, Next(w.pc, w.backend).value, fault, lag, drop).1;
      && name in w'.tasks
      && w'.tasks[name] == RecordAfter(ViewOf(w, name), r, fault != Lost)
      && (w.pc.Write? && r == Ack ==> w.pc.t.version == |w.tasks[name].log| - 1)
  {
    hide Resume, PcFits, NsCall, ExecGitHub, NamespaceName, SecretName, BuildPod, PRsOk, TasksOk;
    var call := Next(w.pc, w.backend).value;
    assert PcOk(w.tasks, w.pc);
    HeldIsOwned(w.pc);
    if w.pc.Write? {
      assert Snapshot(w.tasks, w.pc.t);
    } else {
      OnlyWriteUpdates(w.pc, w.backend);
      hide Next;
      AttemptElsewhere(w, call, fault, lag, drop);
      hide Attempt;
    }
  }

  lemma OwnNamespace(w: World, fault: Fault, lag: nat, drop: nat, name: string)
    requires Basic(w) && name in w.tasks && Next(w.pc, w.backend).Some? && Owner(w.pc) == Some(name)
    ensures var a := Op(fault, lag, drop);
      && name in Step(w, a).tasks
      && NsOf(Step(w, a), name) == NsAfter(ViewOf(w, name), w.backend, fault != Lost)
  {
    hide NsCall, Resume, NamespaceName, TasksOk, PcFits, PRsOk;
    if Held(w.pc).Some? {
      HeldIsOwned(w.pc);
      hide Next, Owner, Held, Attempt;
      CallAtHome(w, fault, lag, drop, name);
    } else {
      CallOnTasks(w, fault, lag, drop, name);
    }
  }

  lemma OwnAnswer(w: World, fault: Fault, lag: nat, drop: nat, name: string)
    requires Basic(w) && name in w.tasks && Next(w.pc, w.backend).Some? && Owner(w.pc) == Some(name)
    ensures Sensible(ViewOf(w, name), w.backend,
      Attempt(w, Next(w.pc, w.backend).value, fault, lag, drop).1, fault != Lost)
  {
    hide Basic, OpStep, Next, RecordAfter;
    var call := Next(w.pc, w.backend).value;
    AnswerFits(w, fault, lag, drop);
    OwnRecord(w, fault, lag, drop, name);
    if OnCluster(call) {
      FetchIsNoCluster(w.pc, w.backend);
      HeldIsOwned(w.pc);
      CallAtHome(w, fault, lag, drop, name);
      hide NsCall;
    }
  }

  lemma FetchIsNoCluster(pc: Pc, backend: Backend)
    requires Next(pc, backend).Some? && OnCluster(Next(pc, backend).value)
    ensures Held(pc).Some?
  {
  }

  lemma OwnCallProjects(w: World, fault: Fault, lag: nat, drop: nat, name: string)
    requires Basic(w) && name in w.tasks && Next(w.pc, w.backend).Some? && Owner(w.pc) == Some(name)
    ensures var a := Op(fault, lag, drop);
      && name in Step(w, a).tasks
      && Possible(ViewOf(w, name), w.backend, Share(w, a, name))
      && ViewOf(Step(w, a), name) == Proceed(ViewOf(w, name), w.backend, Share(w, a, name))
  {
    hide Basic, OpStep, Attempt, Resume, Next, Sensible, NsAfter, RecordAfter, NsOf, Owner;
    OwnAnswer(w, fault, lag, drop, name);
    OwnRecord(w, fault, lag, drop, name);
    OwnNamespace(w, fault, lag, drop, name);
    OpGoes(w, fault, lag, drop);
    AnswerFits(w, fault, lag, drop);
    var r := Attempt(w, Next(w.pc, w.backend).value, fault, lag, drop).1;
    ResumeHolds(w.pc, r, w.clock);
  }

  lemma OthersCallProjects(w: World, fault: Fault, lag: nat, drop: nat, name: string)
    requires Basic(w) && name in w.tasks && Next(w.pc, w.backend).Some? && Owner(w.pc) != Some(name)
    ensures var a := Op(fault, lag, drop); name in Step(w, a).tasks && ViewOf(Step(w, a), name) == ViewOf(w, name)
  {
    hide OpStep, Attempt, Resume, Next, NsOf, Owner, Held;
    CallOnTasks(w, fault, lag, drop, name);
    CallStaysHome(w, fault, lag, drop, name);
    OpGoes(w, fault, lag, drop);
    AnswerFits(w, fault, lag, drop);
    var r := Attempt(w, Next(w.pc, w.backend).value, fault, lag, drop).1;
    ResumeHolds(w.pc, r, w.clock);
  }

  lemma EnvProjects(w: World, m: EnvMove, name: string)
    requires Basic(w) && name in w.tasks
    ensures var a := Env(m);
      && name in Step(w, a).tasks
      && Possible(ViewOf(w, name), w.backend, Share(w, a, name))
      && ViewOf(Step(w, a), name) == Proceed(ViewOf(w, name), w.backend, Share(w, a, name))
  {
    hide EnvStep, NsMove, NamespaceName, Basic, Owner, Next;
    EnvElsewhere(w, m);
    EnvOnTasks(w, m, name);
    EnvOnCluster(w, m, Home(w, name));
  }

  lemma EnvOnCluster(w: World, m: EnvMove, ns: string)
    ensures Lookup(EnvStep(w, m), ns) == if NsMoving(m) && m.ns == ns then NsMove(Lookup(w, ns), m) else Lookup(w, ns)
  {
    hide NsMove, TaskName;
  }

  /** Every step of the whole system is, for each task, a step of that task alone. */
  lemma StepProjects(w: World, a: Action, name: string)
    requires Basic(w) && name in w.tasks
    ensures name in Step(w, a).tasks
    ensures Possible(ViewOf(w, name), w.backend, Share(w, a, name))
    ensures ViewOf(Step(w, a), name) == Proceed(ViewOf(w, name), w.backend, Share(w, a, name))
  {
    hide Basic, OpStep, EnvStep, Attempt, Next, Sensible, NsAfter, RecordAfter, Resume, NamespaceName;
    match a
    case Op(fault, lag, drop) =>
      if Next(w.pc, w.backend).Some? {
        if Owner(w.pc) == Some(name) {
          OwnCallProjects(w, fault, lag, drop, name);
        } else {
          OthersCallProjects(w, fault, lag, drop, name);
        }
      }
    case Env(m) =>
      EnvProjects(w, m, name);
    case _ =>
  }

  predicate OwnCall(w: World, a: Action, name: string) {
    a.Op? && Owner(w.pc) == Some(name) && Next(w.pc, w.backend).Some?
  }

  /** While busy with a task the worker moves only by the task's own calls. */
  lemma PcMoves(w: World, a: Action, name: string)
    requires Basic(w) && name in w.tasks && Owner(Step(w, a).pc) == Some(name)
    ensures OwnCall(w, a, name) || Step(w, a).pc == w.pc || Step(w, a).pc.Fetch?
  {
    match a
    case Op(fault, lag, drop) =>
      if Next(w.pc, w.backend).Some? {
        OpGoes(w, fault, lag, drop);
        AnswerFits(w, fault, lag, drop);
        ResumeHolds(w.pc, Attempt(w, Next(w.pc, w.backend).value, fault, lag, drop).1, w.clock);
        hide OpStep, Attempt, Resume, Next, Basic, Owner, Held;
      }
    case Env(m) =>
      EnvElsewhere(w, m);
      hide EnvStep, Basic, Owner;
    case _ =>
      hide Basic, OpStep, EnvStep, Owner, Next;
  }

  /** A step commits to a task exactly by the compare-and-swap of its own Write. */
  lemma StepCommits(w: World, a: Action, name: string)
    requires Basic(w) && name in w.tasks
    ensures var w' := Step(w, a);
      && name in w'.tasks && w'.tasks[name].spec == w.tasks[name].spec
      && (w'.tasks[name].log == w.tasks[name].log
          || (OwnCall(w, a, name) && Commits(w.tasks[name], w'.tasks[name], w.pc, name)))
      && w.tasks[name].failedRemovals <= w'.tasks[name].failedRemovals
  {
    hide OpStep, EnvStep, Attempt, Next, NsOf, Held, TasksOk, PcOk, PRsOk;
    match a
    case Op(fault, lag, drop) =>
      if Next(w.pc, w.backend).Some? {
        CallOnTasks(w, fault, lag, drop, name);
        if Owner(w.pc) == Some(name) {
          OwnRecord(w, fault, lag, drop, name);
          HeldIsOwned(w.pc);
        }
      }
    case Env(m) =>
      EnvOnTasks(w, m, name);
    case _ =>
  }

  // ---------------------------------------------------------------- whole runs

  lemma SameBackend(w: World, actions: seq<Action>)
    requires Basic(w)
    ensures Run(w, actions).backend == w.backend && Run(w, actions).repo == w.repo
    decreases |actions|
  {
    if actions != [] {
      SameBackend(w, actions[..|actions| - 1]);
      BackendStays(Run(w, actions[..|actions| - 1]), actions[|actions| - 1]);
      hide Step;
    }
  }

  lemma BackendStays(w: World, a: Action)
    ensures Step(w, a).backend == w.backend && Step(w, a).repo == w.repo
  {
    hide Resume, EnvStep, Attempt, Next;
    if a.Op? && Next(w.pc, w.backend).Some? {
      AttemptElsewhere(w, Next(w.pc, w.backend).value, a.fault, a.lag, a.drop);
    }
    if a.Env? {
      EnvElsewhere(w, a.move);
    }
  }

  // ---------------------------------------------------------------- invariants of one task

  /** The part of Basic that concerns one task. */
  predicate Fits(v: View) {
    && LogOk(v.rec.log, v.rec.spec.issue)
    && PcFits(v.pc)
    && (Owner(v.pc).Some? ==> Owner(v.pc).value == v.name)
    && (Held(v.pc).Some? ==>
          var t := Held(v.pc).value;
          t.spec == v.rec.spec && t.version < |v.rec.log| && t.status == v.rec.log[t.version])
  }

  lemma BasicFits(w: World, name: string)
    requires Basic(w) && name in w.tasks
    ensures Fits(ViewOf(w, name))
  {
    assert RecordOk(w.repo, name, w.tasks[name]);
    hide LogOk, PcFits, NsOf, TaskName, NamespaceName;
    HeldIsOwned(w.pc);
  }

  /** A read of the task is not stale. */
  predicate Fresh(w: World, a: Action, name: string) {
    a.Op? && w.pc == Fetch(name) ==> a.lag == 0
  }

  /** No read of the task in the run is stale; other tasks may be read at any version. */
  predicate FreshRun(w: World, actions: seq<Action>, name: string) {
    forall i :: 0 <= i < |actions| ==> Fresh(Run(w, actions[..i]), actions[i], name)
  }

  lemma FreshSoFar(w: World, actions: seq<Action>, name: string)
    requires actions != [] && FreshRun(w, actions, name)
    ensures var front := actions[..|actions| - 1];
      FreshRun(w, front, name) && Fresh(Run(w, front), actions[|actions| - 1], name)
  {
    hide Run, Fresh;
    var front := actions[..|actions| - 1];
    assert forall i :: 0 <= i < |front| ==> front[..i] == actions[..i];
  }

  predicate CurrentRead(v: View, mv: Move) {
    mv.Called? && mv.r.GotTask? ==> mv.r.task.version == |v.rec.log| - 1
  }

  lemma FreshIsCurrent(w: World, a: Action, name: string)
    requires Basic(w) && name in w.tasks && Fresh(w, a, name)
    ensures CurrentRead(ViewOf(w, name), Share(w, a, name))
  {
    hide NsCall, ExecGitHub, NamespaceName, NsOf, PcFits;
    if a.Op? && Next(w.pc, w.backend).Some? && Owner(w.pc) == Some(name) {
      var call := Next(w.pc, w.backend).value;
      AnswerFits(w, a.fault, a.lag, a.drop);
      if OnCluster(call) {
        NsCallAnswers(Lookup(w, call.ns), call);
      } else {
        OnlyWriteUpdates(w.pc, w.backend);
        assert RecordOk(w.repo, name, w.tasks[name]);
        hide Next;
      }
    }
  }

  /** The namespace of a task is empty until Reconcile creates it. */
  function Newborn(name: string, spec: Spec): View {
    View(name, Record(spec, [INITIAL_STATUS], 0), None, Idle)
  }
}
