/** When a task is left in Building or Running with nobody at work for it: exactly when a create is
    taken for done because a pod of the name is still on its way out, or when the status write that
    was to follow the delete of the namespace is lost or never made. */
module Manning {
  import opened Names
  import opened Model
  import opened Machine
  import opened Base
  import opened History
  import opened Isolation
  import opened Invariants
  import opened Exclusion
  import opened Cleanup
  import opened Convergence

  predicate Stays(pod: Option<Pod>) {
    pod.Some? && !pod.value.deleting
  }

  /** The namespace stays, and so does a pod in it. */
  predicate Manned(ns: Option<Namespace>) {
    ns.Some? && !ns.value.terminating && (Stays(ns.value.agent) || Stays(ns.value.rev))
  }

  /** About to write BlockedOnClarification. */
  predicate Blocking(pc: Pc) {
    pc.Write? && pc.status.phase == Blocked
  }

  /** A task in Building or Running has a pod that stays, unless Reconcile is about to take it out of
      there; and Building is written only over such a pod. */
  predicate Staffed(v: View) {
    && |v.rec.log| > 0
    && (Active(Current(v.rec).phase) ==> Manned(v.ns) || Blocking(v.pc))
    && (v.pc.Write? && v.pc.status.phase == Building ==> Manned(v.ns))
  }

  // ---------------------------------------------------------------- what is asked of a run

  /** A create is taken for done over a pod on its way out, with no other pod beside it. */
  predicate TakenForDone(pc: Pc, ns: Option<Namespace>) {
    pc.MakePod? && PodOf(ns, SlotFor(pc.job)).Some? && !ns.value.terminating && !Manned(ns)
  }

  /** The two slips: the create is acknowledged where TakenForDone says, or the operator goes on
      without having written BlockedOnClarification although nobody is at work any more. */
  predicate Slips(w: World, a: Action, name: string) {
    && name in w.tasks && Owner(w.pc) == Some(name)
    && match a
       case Op(fault, _, _) =>
         || (TakenForDone(w.pc, NsOf(w, name)) && fault == Clean)
         || (Blocking(w.pc) && !Manned(NsOf(w, name)) && fault == Lost)
       case Crash => Blocking(w.pc) && !Manned(NsOf(w, name))
       case _ => false
  }

  predicate CarefulRun(w: World, actions: seq<Action>, name: string) {
    forall i :: 0 <= i < |actions| ==> !Slips(Run(w, actions[..i]), actions[i], name)
  }

  /** Slips, said of a move of the task by itself. */
  predicate Slip(v: View, mv: Move) {
    match mv
    case Called(r, took, _) =>
      || (TakenForDone(v.pc, v.ns) && r != OtherError)
      || (Blocking(v.pc) && !Manned(v.ns) && !took)
    case Left => Blocking(v.pc) && !Manned(v.ns)
    case _ => false
  }

  lemma SlipsIsSlip(w: World, a: Action, name: string)
    requires Basic(w) && name in w.tasks && !Slips(w, a, name)
    ensures !Slip(ViewOf(w, name), Share(w, a, name))
  {
    hide Exec, NsOf, NamespaceName, Basic, Next, Manned;
  }

  // ---------------------------------------------------------------- one move

  lemma CommitStaffs(v: View, b: Backend, r: Response, took: bool)
    requires Fits(v) && HoldsCurrent(v) && Staffed(v) && v.pc.Write?
    requires Sensible(v, b, r, took) && !Slip(v, Called(r, took, 0))
    ensures var log := RecordAfter(v, r, took).log;
      |log| > 0 && (Active(log[|log| - 1].phase) ==> Manned(v.ns))
  {
    hide LogOk, NamespaceName, StatusOk, Manned;
  }

  lemma CreateStaffs(v: View, b: Backend, r: Response, took: bool, now: nat)
    requires Fits(v) && HoldsCurrent(v) && Staffed(v) && v.pc.MakePod?
    requires Sensible(v, b, r, took) && !Slip(v, Called(r, took, now))
    ensures !Active(Current(v.rec).phase)
    ensures Resume(v.pc, r, now).Write? ==> Manned(NsAfter(v, b, took))
  {
    hide LogOk, NamespaceName, SecretName, ScriptFor, StatusOk;
  }

  lemma OthersStaff(v: View, b: Backend, r: Response, took: bool, now: nat)
    requires Fits(v) && HoldsCurrent(v) && Staffed(v) && Next(v.pc, b).Some? && Held(v.pc).Some?
    requires !v.pc.MakePod? && !v.pc.Write?
    ensures var pc := Resume(v.pc, r, now);
      && (Active(Current(v.rec).phase) ==> NsAfter(v, b, took) == v.ns || Blocking(pc))
      && !(pc.Write? && pc.status.phase == Building)
  {
    hide LogOk, NamespaceName, SecretName, BranchOf, AnyMentionsPR, AnyAsksClarification, LastIsHuman, FirstMatch,
      StatusOk, BuildPod, Manned;
  }

  lemma PodsStayManned(ns: Option<Namespace>, m: EnvMove)
    requires Manned(ns) && NsMoving(m)
    ensures Manned(NsMove(ns, m))
  {
  }

  lemma MoveStaffs(v: View, b: Backend, mv: Move)
    requires Fits(v) && HoldsCurrent(v) && Staffed(v) && Possible(v, b, mv) && !Slip(v, mv)
    ensures Staffed(Proceed(v, b, mv))
  {
    hide LogOk, Manned, NsMove, NamespaceName, StatusOk;
    match mv
    case Called(r, took, now) =>
      hide Next, NsCall, Sensible;
      if v.pc.Write? {
        CommitStaffs(v, b, r, took);
        WriteEnds(v, b, r, took, now);
      } else if v.pc.MakePod? {
        CreateStaffs(v, b, r, took, now);
        hide Slip;
      } else if Held(v.pc).Some? {
        hide Slip, Resume, NsAfter;
        OthersStaff(v, b, r, took, now);
      } else {
        ReadStaffs(v, b, r, took, now);
      }
    case Shifted(m) =>
      if Manned(v.ns) {
        PodsStayManned(v.ns, m);
      }
    case _ =>
  }

  lemma WriteEnds(v: View, b: Backend, r: Response, took: bool, now: nat)
    requires v.pc.Write?
    ensures NsAfter(v, b, took) == v.ns && Resume(v.pc, r, now).Done?
  {
  }

  lemma ReadStaffs(v: View, b: Backend, r: Response, took: bool, now: nat)
    requires Next(v.pc, b).Some? && Held(v.pc).None?
    ensures NsAfter(v, b, took) == v.ns && !Resume(v.pc, r, now).Write? && !v.pc.Write?
  {
    hide NamespaceName, SecretName;
  }

  // ---------------------------------------------------------------- runs

  lemma {:induction false} AlwaysStaffed(w: World, actions: seq<Action>, name: string)
    requires Initial(w) && FreshRun(w, actions, name) && CarefulRun(w, actions, name)
    requires name in Run(w, actions).tasks
    ensures Staffed(ViewOf(Run(w, actions), name))
    decreases |actions|
  {
    hide Step, ViewOf, Share, Proceed, Possible, Fits, Basic, Settled, Staffed, Slips, Slip, PcClause, PhaseClause,
      HoldsCurrent, Fresh;
    if actions != [] {
      var front, a := actions[..|actions| - 1], actions[|actions| - 1];
      var mid := Run(w, front);
      Reachable(w, front);
      assert forall i :: 0 <= i < |front| ==> front[..i] == actions[..i];
      assert !Slips(mid, a, name);
      FreshSoFar(w, actions, name);
      if name in mid.tasks {
        AlwaysStaffed(w, front, name);
        AlwaysExcludes(w, front, name);
        BasicFits(mid, name);
        StepProjects(mid, a, name);
        SlipsIsSlip(mid, a, name);
        MoveStaffs(ViewOf(mid, name), mid.backend, Share(mid, a, name));
      } else {
        BornNew(mid, a, name);
        BornStaffed(name, Step(mid, a).tasks[name].spec);
      }
    }
  }

  lemma BornStaffed(name: string, spec: Spec)
    ensures Staffed(Newborn(name, spec))
  {
  }

  lemma StaffedIsNotStuck(v: View)
    requires Staffed(v)
    ensures !Stuck(v)
  {
    hide Fits;
  }

  // ---------------------------------------------------------------- what becomes of a slip

  /** What is on its way out of the task's namespace goes, and so does the namespace if it is. */
  function Sweep(home: string): seq<Action> {
    [Env(PodVanishes(home, AgentSlot)), Env(PodVanishes(home, RevSlot)), Env(NamespaceVanishes(home))]
  }

  function Swept(ns: Option<Namespace>, home: string): Option<Namespace> {
    NsMove(NsMove(NsMove(ns, PodVanishes(home, AgentSlot)), PodVanishes(home, RevSlot)), NamespaceVanishes(home))
  }

  lemma ThreeSteps(w: World, a: Action, b: Action, c: Action)
    ensures Run(w, [a, b, c]) == Step(Step(Step(w, a), b), c)
  {
    hide Step;
    RunThen(w, [], a);
    RunThen(w, [a], b);
    RunThen(w, [a, b], c);
    assert [] + [a] == [a] && [a] + [b] == [a, b] && [a, b] + [c] == [a, b, c];
  }

  lemma SweptAway(ns: Option<Namespace>, home: string)
    ensures NoPods(Swept(ns, home)) <==> !Manned(ns)
  {
  }

  lemma SweepStep(w: World, m: EnvMove, name: string)
    requires Basic(w) && name in w.tasks && NsMoving(m) && m.ns == Home(w, name)
    ensures var v := Step(w, Env(m));
      && Basic(v) && name in v.tasks && v.tasks[name] == w.tasks[name] && v.pc == w.pc
      && NsOf(v, name) == NsMove(NsOf(w, name), m)
  {
    hide NsMove, NamespaceName, Basic, EnvStep;
    BasicStep(w, Env(m));
    EnvElsewhere(w, m);
    EnvOnCluster(w, m, Home(w, name));
  }

  /** A task is stuck after the sweep just when it is in Building or Running, nobody who stays was at
      work before, and Reconcile is not holding it. */
  lemma SweepTells(w: World, name: string)
    requires Basic(w) && name in w.tasks && |w.tasks[name].log| > 0
    ensures var w' := Run(w, Sweep(Home(w, name)));
      && name in w'.tasks && w'.tasks[name] == w.tasks[name] && w'.pc == w.pc
      && (w.pc == Idle ==>
            (Stuck(ViewOf(w', name)) <==> Active(Current(w.tasks[name]).phase) && !Manned(NsOf(w, name))))
      && (Stuck(ViewOf(w', name)) ==> Active(Current(w.tasks[name]).phase))
  {
    hide Run, Step, NsMove, NamespaceName, Basic, Fits, NoPods, Manned;
    var home := Home(w, name);
    var a, b, c := PodVanishes(home, AgentSlot), PodVanishes(home, RevSlot), NamespaceVanishes(home);
    ThreeSteps(w, Env(a), Env(b), Env(c));
    SweepStep(w, a, name);
    SweepStep(Step(w, Env(a)), b, name);
    SweepStep(Step(Step(w, Env(a)), Env(b)), c, name);
    SweptAway(NsOf(w, name), home);
    BasicFits(Run(w, Sweep(home)), name);
  }

  // ---------------------------------------------------------------- one branch, all fates

  lemma DeleteMeets(w: World, name: string, fault: Fault)
    requires Basic(w) && name in w.tasks && w.pc.DropNamespace? && w.pc.t.name == name
    ensures var w' := Step(w, Op(fault, 0, 0));
      && name in w'.tasks && w'.tasks[name] == w.tasks[name]
      && w'.pc == Write(w.pc.t, w.pc.t.status.(phase := w.pc.next))
      && NsOf(w', name) == Going(NsOf(w, name), fault)
  {
    hide Basic, Step, Attempt, Sensible, NamespaceName;
    var a := Op(fault, 0, 0);
    CallAtHome(w, fault, 0, 0, name);
    StepProjects(w, a, name);
    OpGoes(w, fault, 0, 0);
  }

  /** What the delete of a namespace leaves of it for now. */
  function Going(ns: Option<Namespace>, fault: Fault): Option<Namespace> {
    if ns.None? || fault == Lost then ns else Some(ns.value.(terminating := true))
  }

  lemma WriteMeets(w: World, name: string, fault: Fault)
    requires Basic(w) && name in w.tasks && w.pc.Write? && w.pc.t.name == name
    requires w.pc.t.version == |w.tasks[name].log| - 1
    ensures var w' := Step(w, Op(fault, 0, 0));
      && name in w'.tasks && w'.tasks[name].spec == w.tasks[name].spec
      && w'.tasks[name].log == w.tasks[name].log + (if fault == Lost then [] else [w.pc.status])
      && NsOf(w', name) == NsOf(w, name)
      && w'.pc.Done? && w'.pc.name == name
  {
    hide Basic, NamespaceName, Pause;
  }

  lemma DropsActive(w: World, name: string)
    requires Basic(w) && name in w.tasks && w.pc.DropNamespace? && w.pc.next == Blocked && w.pc.t.name == name
    requires w.pc.t.version == |w.tasks[name].log| - 1
    ensures |w.tasks[name].log| > 0 && Active(Current(w.tasks[name]).phase)
  {
    hide RecordOk, PRsOk;
    assert PcOk(w.tasks, w.pc);
  }

  /** How an attempt ends that has only its status write before it. */
  datatype End = Written(fault: Fault) | Crashed

  function EndOf(end: End): seq<Action> {
    if end.Crashed? then [Crash] else [Op(end.fault, 0, 0), Retire]
  }

  predicate Unwritten(end: End) {
    end.Crashed? || end.fault == Lost
  }

  lemma TwoSteps(w: World, a: Action, b: Action)
    ensures Run(w, [a, b]) == Step(Step(w, a), b) && Run(w, [a]) == Step(w, a)
  {
    hide Step;
    RunThen(w, [], a);
    RunThen(w, [a], b);
    assert [] + [a] == [a] && [a] + [b] == [a, b];
  }

  /** The attempt is over, and the status is committed unless the write was lost or never made. */
  lemma Ends(w: World, name: string, end: End)
    requires Basic(w) && name in w.tasks && w.pc.Write? && w.pc.t.name == name
    requires w.pc.t.version == |w.tasks[name].log| - 1
    ensures var w' := Run(w, EndOf(end));
      && Basic(w') && name in w'.tasks && w'.tasks[name].spec == w.tasks[name].spec && w'.pc == Idle
      && w'.tasks[name].log == w.tasks[name].log + (if Unwritten(end) then [] else [w.pc.status])
      && NsOf(w', name) == NsOf(w, name)
  {
    hide Run, OpStep, NamespaceName, Basic;
    match end
    case Written(fault) =>
      TwoSteps(w, Op(fault, 0, 0), Retire);
      BasicStep(w, Op(fault, 0, 0));
      BasicStep(Step(w, Op(fault, 0, 0)), Retire);
      WriteMeets(w, name, fault);
    case Crashed =>
      TwoSteps(w, Crash, Crash);
      BasicStep(w, Crash);
  }

  /** Exactly when the clarification branch leaves its task stuck in Building or Running, over all
      fates of the delete and of what comes after it: the status write is lost or the operator
      crashes before it, and nobody who stays is at work, be it by this delete, which need not have
      been acknowledged, or by an earlier one. */
  lemma SticksIffNotWritten(w: World, name: string, delete: Fault, end: End)
    requires Basic(w) && name in w.tasks
    requires w.pc.DropNamespace? && w.pc.next == Blocked && w.pc.t.name == name
    requires w.pc.t.version == |w.tasks[name].log| - 1
    ensures var w' := Run(Run(Step(w, Op(delete, 0, 0)), EndOf(end)), Sweep(Home(w, name)));
      && name in w'.tasks && |w'.tasks[name].log| > 0
      && (Stuck(ViewOf(w', name)) <==> Unwritten(end) && !Manned(Going(NsOf(w, name), delete)))
  {
    hide Basic, Step, Run, Stuck, NamespaceName, LogOk, NoPods, Manned, Going, Sweep, EndOf;
    var w1 := Step(w, Op(delete, 0, 0));
    DropsActive(w, name);
    DeleteMeets(w, name, delete);
    BasicStep(w, Op(delete, 0, 0));
    Ends(w1, name, end);
    SweepTells(Run(w1, EndOf(end)), name);
  }

  lemma CreateMeets(w: World, name: string, fault: Fault, lag: nat, drop: nat)
    requires Basic(w) && name in w.tasks && w.pc.MakePod? && w.pc.t.name == name
    ensures var w' := Step(w, Op(fault, lag, drop));
      var call := Next(w.pc, w.backend).value;
      && name in w'.tasks && w'.tasks[name] == w.tasks[name] && OnCluster(call)
      && NsOf(w', name) == (if fault == Lost then NsOf(w, name) else NsCall(NsOf(w, name), call).0)
      && w'.pc == Resume(w.pc, if fault == Clean then NsCall(NsOf(w, name), call).1 else OtherError, w.clock)
  {
    hide Basic, Step, Exec, NsCall, Sensible, NamespaceName, SecretName, BuildPod;
    var a := Op(fault, lag, drop);
    CallAtHome(w, fault, lag, drop, name);
    StepProjects(w, a, name);
    OpGoes(w, fault, lag, drop);
  }

  lemma CreateBacks(pc: Pc, backend: Backend, ns: Option<Namespace>, now: nat)
    requires pc.MakePod? && OnCluster(Next(pc, backend).value)
    ensures var (ns', r) := NsCall(ns, Next(pc, backend).value);
      && (Resume(pc, r, now).Write? <==> ns.Some? && !ns.value.terminating)
      && (ns.Some? && !ns.value.terminating ==> (!Manned(ns') <==> TakenForDone(pc, ns)))
      && (TakenForDone(pc, ns) ==> ns' == ns && r == AlreadyExists)
  {
    hide NamespaceName, SecretName, ScriptFor;
  }

  /** Exactly when a provisioning branch leaves its task stuck: Building is committed on a pod of the
      name that is on its way out, and there is no other. */
  lemma SticksIffTakenForDone(w: World, name: string, create: Fault, lag: nat, drop: nat, end: End)
    requires Basic(w) && name in w.tasks && w.pc.MakePod? && w.pc.t.name == name
    requires w.pc.t.version == |w.tasks[name].log| - 1
    ensures var w' := Run(Run(Step(w, Op(create, lag, drop)), EndOf(end)), Sweep(Home(w, name)));
      && name in w'.tasks && |w'.tasks[name].log| > 0
      && (Stuck(ViewOf(w', name)) <==> create == Clean && !Unwritten(end) && TakenForDone(w.pc, NsOf(w, name)))
  {
    hide Basic, Step, Run, Stuck, NamespaceName, SecretName, LogOk, NoPods, Manned, TakenForDone, Sweep, EndOf, NsCall,
      Next;
    var w1 := Step(w, Op(create, lag, drop));
    MakesIdle(w, name);
    CreateMeets(w, name, create, lag, drop);
    CreateBacks(w.pc, w.backend, NsOf(w, name), w.clock);
    BasicStep(w, Op(create, lag, drop));
    if w1.pc.Write? {
      Ends(w1, name, end);
    } else {
      NothingLeft(w1, name, end);
    }
    SweepTells(Run(w1, EndOf(end)), name);
  }

  lemma MakesIdle(w: World, name: string)
    requires Basic(w) && name in w.tasks && w.pc.MakePod? && w.pc.t.name == name
    requires w.pc.t.version == |w.tasks[name].log| - 1
    ensures |w.tasks[name].log| > 0 && !Active(Current(w.tasks[name]).phase)
  {
    hide RecordOk, PRsOk;
    assert PcOk(w.tasks, w.pc);
  }

  lemma NothingLeft(w: World, name: string, end: End)
    requires Basic(w) && name in w.tasks && (w.pc.Done? || w.pc == Idle)
    ensures var w' := Run(w, EndOf(end));
      && Basic(w') && name in w'.tasks && w'.tasks[name] == w.tasks[name] && w'.pc == Idle
      && NsOf(w', name) == NsOf(w, name)
  {
    hide Run, OpStep, NamespaceName, Basic;
    match end
    case Written(fault) =>
      TwoSteps(w, Op(fault, 0, 0), Retire);
      BasicStep(w, Op(fault, 0, 0));
      BasicStep(Step(w, Op(fault, 0, 0)), Retire);
    case Crashed =>
      TwoSteps(w, Crash, Crash);
      BasicStep(w, Crash);
  }

  // ---------------------------------------------------------------- whole runs

  /** Careful so far, and current in all reads of the task. */
  predicate Sane(w: World, actions: seq<Action>, name: string) {
    FreshRun(w, actions, name) && CarefulRun(w, actions, name)
  }

  lemma SaneOn(w: World, actions: seq<Action>, a: Action, name: string)
    requires Sane(w, actions, name) && Fresh(Run(w, actions), a, name) && !Slips(Run(w, actions), a, name)
    ensures Sane(w, actions + [a], name) && Run(w, actions + [a]) == Step(Run(w, actions), a)
  {
    hide Run, Step, Fresh, Slips;
    RunThen(w, actions, a);
    var longer := actions + [a];
    assert longer[..|actions|] == actions;
    assert forall i :: 0 <= i < |actions| ==> longer[..i] == actions[..i];
  }

  /** In every run with current reads of the task and neither slip, a task in Building or Running has
      a pod that stays in a namespace that stays, unless Reconcile is about to write
      BlockedOnClarification; and it is never stuck. */
  lemma NeverStuck(w: World, actions: seq<Action>, name: string)
    requires Initial(w) && Sane(w, actions, name) && name in Run(w, actions).tasks
    ensures var w' := Run(w, actions);
      && |w'.tasks[name].log| > 0
      && (Active(Current(w'.tasks[name]).phase) ==>
            Manned(NsOf(w', name)) || (Owner(w'.pc) == Some(name) && Blocking(w'.pc)))
      && !Stuck(ViewOf(w', name))
  {
    hide Run, Manned, NsOf, Fits, FreshRun, CarefulRun;
    AlwaysStaffed(w, actions, name);
    StaffedIsNotStuck(ViewOf(Run(w, actions), name));
  }

  lemma LostInVain(w: World, a: Action, name: string)
    requires Basic(w) && name in w.tasks && HoldsCurrent(ViewOf(w, name)) && Slips(w, a, name) && Blocking(w.pc)
    ensures |w.tasks[name].log| > 0 && Active(Current(w.tasks[name]).phase)
    ensures var w' := Step(w, a);
      && Basic(w') && w'.tasks == w.tasks && (w'.pc.Done? || w'.pc == Idle)
      && NsOf(w', name) == NsOf(w, name)
  {
    hide NamespaceName, RecordOk, PRsOk, Manned, Pause;
    BasicStep(w, a);
    assert PcOk(w.tasks, w.pc);
  }

  lemma SlipSticks(w: World, a: Action, name: string)
    requires Basic(w) && name in w.tasks && HoldsCurrent(ViewOf(w, name)) && Slips(w, a, name)
    ensures var w' := Run(Run(Step(w, a), EndOf(Written(Clean))), Sweep(Home(w, name)));
      name in w'.tasks && Stuck(ViewOf(w', name))
  {
    hide Basic, Step, Run, Stuck, NamespaceName, Manned, TakenForDone, Sweep, EndOf;
    SlipsHolds(w, a, name);
    if Blocking(w.pc) {
      LostInVain(w, a, name);
      NothingLeft(Step(w, a), name, Written(Clean));
      SweepTells(Run(Step(w, a), EndOf(Written(Clean))), name);
    } else {
      SticksIffTakenForDone(w, name, Clean, a.lag, a.drop, Written(Clean));
    }
  }

  lemma SlipsHolds(w: World, a: Action, name: string)
    requires name in w.tasks && HoldsCurrent(ViewOf(w, name)) && Slips(w, a, name)
    ensures (w.pc.MakePod? || w.pc.Write?) && w.pc.t.name == name && w.pc.t.version == |w.tasks[name].log| - 1
    ensures Blocking(w.pc) ==> !Manned(NsOf(w, name)) && a != OK
    ensures !Blocking(w.pc) ==> a.Op? && a.fault == Clean && w.pc.MakePod? && TakenForDone(w.pc, NsOf(w, name))
  {
    hide Manned, NamespaceName;
  }

  lemma SweepIsSane(w0: World, actions: seq<Action>, home: string, name: string)
    requires Sane(w0, actions, name)
    ensures Sane(w0, actions + Sweep(home), name)
    ensures Run(w0, actions + Sweep(home)) == Run(Run(w0, actions), Sweep(home))
  {
    hide Run, Step, Sane;
    var a, b, c := Env(PodVanishes(home, AgentSlot)), Env(PodVanishes(home, RevSlot)), Env(NamespaceVanishes(home));
    SaneOn(w0, actions, a, name);
    SaneOn(w0, actions + [a], b, name);
    SaneOn(w0, actions + [a] + [b], c, name);
    assert actions + [a] + [b] + [c] == actions + Sweep(home);
    RunInTwo(w0, actions, Sweep(home));
  }

  /** The create of a revision may be taken for done right after the run, but its status is not yet
      written. */
  lemma NotYetStuck(w: World, name: string)
    requires Basic(w) && name in w.tasks && HoldsCurrent(ViewOf(w, name)) && Slips(w, OK, name)
    ensures var w' := Run(Run(w, [OK, Retire]), Sweep(Home(w, name)));
      name in w'.tasks && !Stuck(ViewOf(w', name))
  {
    hide Basic, Step, Run, Stuck, NamespaceName, Manned, TakenForDone, Sweep;
    SlipsHolds(w, OK, name);
    MakesIdle(w, name);
    CreateMeets(w, name, Clean, 0, 0);
    TwoSteps(w, OK, Retire);
    BasicStep(w, OK);
    BasicStep(Step(w, OK), Retire);
    RetireKeeps(Step(w, OK), name);
    SweepTells(Run(w, [OK, Retire]), name);
  }

  lemma RetireKeeps(w: World, name: string)
    requires name in w.tasks
    ensures Step(w, Retire).tasks == w.tasks && Home(Step(w, Retire), name) == Home(w, name)
  {
  }

  /** Of the next action of a run that was sane so far: let the status write it may have led to go
      through and what is on its way out go; then the task is stuck if and only if the action was a
      slip. */
  lemma StuckIffSlips(w0: World, before: seq<Action>, a: Action, name: string)
    requires Initial(w0) && Sane(w0, before, name) && name in Run(w0, before).tasks
    requires Fresh(Run(w0, before), a, name)
    ensures var w := Run(w0, before);
      var w' := Run(Run(Step(w, a), EndOf(Written(Clean))), Sweep(Home(w, name)));
      name in w'.tasks && (Stuck(ViewOf(w', name)) <==> Slips(w, a, name))
  {
    hide Basic, Step, Run, Stuck, NamespaceName, Slips, Sweep, Sane, Fresh, Settled, HoldsCurrent;
    var w := Run(w0, before);
    Reachable(w0, before);
    if Slips(w, a, name) {
      CurrentWhenSane(w0, before, name);
      SlipSticks(w, a, name);
    } else {
      SaneOn(w0, before, a, name);
      var run := before + [a];
      var w1 := Run(w0, run);
      StillStored(w, a, name);
      Reachable(w0, run);
      if Slips(w1, OK, name) {
        CurrentWhenSane(w0, run, name);
        NotYetStuck(w1, name);
      } else {
        NoSlip(w1, name);
        SaneOn(w0, run, OK, name);
        NoSlip(Run(w0, run + [OK]), name);
        SaneOn(w0, run + [OK], Retire, name);
        TwoSteps(w1, OK, Retire);
        SweepIsSane(w0, run + [OK] + [Retire], Home(w, name), name);
        HistoryOnlyGrows(w1, [OK, Retire], name);
        assert name in Run(w0, run + [OK] + [Retire]).tasks;
        Reachable(w0, run + [OK] + [Retire]);
        HistoryOnlyGrows(Run(w0, run + [OK] + [Retire]), Sweep(Home(w, name)), name);
        NeverStuck(w0, run + [OK] + [Retire] + Sweep(Home(w, name)), name);
      }
    }
  }

  lemma NoSlip(w: World, name: string)
    ensures !Slips(w, Retire, name) && Fresh(w, Retire, name) && Fresh(w, OK, name)
  {
  }

  lemma StillStored(w: World, a: Action, name: string)
    requires Basic(w) && name in w.tasks
    ensures name in Step(w, a).tasks && Home(Step(w, a), name) == Home(w, name)
  {
    StepOnlyGrows(w, a, name);
    hide Step;
  }

  lemma CurrentWhenSane(w0: World, actions: seq<Action>, name: string)
    requires Initial(w0) && Sane(w0, actions, name) && name in Run(w0, actions).tasks
    ensures HoldsCurrent(ViewOf(Run(w0, actions), name))
  {
    hide Run, PcClause, PhaseClause;
    AlwaysExcludes(w0, actions, name);
  }

  /** Of the three provisioning branches only the revision can take a dying pod for its own: nobody
      deletes the first agent's pod. */
  lemma OnlyRevisionsSlip(w0: World, before: seq<Action>, name: string)
    requires Initial(w0) && name in Run(w0, before).tasks
    ensures var w := Run(w0, before);
      TakenForDone(w.pc, NsOf(w, name)) ==> w.pc.job.Revise?
  {
    hide Run, NsOf;
    AgentsStay(w0, before, name);
  }

  // ---------------------------------------------------------------- what Failed leaves behind

  /** The commit of Failed leaves the namespace as it is, in every run; and in one with current reads
      and neither slip, that is a namespace that stays, with a pod in it that stays. */
  lemma FailedKeepsNamespace(w0: World, before: seq<Action>, fault: Fault, name: string)
    requires Initial(w0) && name in Run(w0, before).tasks && Owner(Run(w0, before).pc) == Some(name)
    requires Run(w0, before).pc.Write? && Run(w0, before).pc.status.phase == Failed
    ensures var w := Run(w0, before);
      var w' := Step(w, Op(fault, 0, 0));
      && name in w'.tasks && NsOf(w', name) == NsOf(w, name)
      && (Sane(w0, before, name) ==>
            && w'.tasks[name].log == w.tasks[name].log + (if fault == Lost then [] else [w.pc.status])
            && Manned(NsOf(w', name)))
  {
    hide Run, Step, Basic, Settled, NsOf, Manned, Sane, HoldsCurrent;
    var w := Run(w0, before);
    Reachable(w0, before);
    CallAtHome(w, fault, 0, 0, name);
    if Sane(w0, before, name) {
      CurrentWhenSane(w0, before, name);
      WritesCurrent(w, name);
      WriteMeets(w, name, fault);
      NeverStuck(w0, before, name);
    }
  }

  lemma WritesCurrent(w: World, name: string)
    requires Basic(w) && name in w.tasks && HoldsCurrent(ViewOf(w, name)) && Owner(w.pc) == Some(name) && w.pc.Write?
    requires w.pc.status.phase == Failed
    ensures w.pc.t.version == |w.tasks[name].log| - 1 && Active(w.tasks[name].log[|w.tasks[name].log| - 1].phase)
  {
    hide RecordOk, PRsOk, NamespaceName;
    assert PcOk(w.tasks, w.pc);
  }
}
