/** How a property of one task by itself is carried through every run of the whole system. */
module Invariants {
  import opened Names
  import opened Model
  import opened Machine
  import opened Base
  import opened History
  import opened Isolation

  // ---------------------------------------------------------------- where namespaces come from

  lemma OnlyHomesAppear(w: World, fault: Fault, lag: nat, drop: nat, ns: string)
    requires Basic(w) && Next(w.pc, w.backend).Some? && ns !in w.cluster
    requires ns in Step(w, Op(fault, lag, drop)).cluster
    ensures Owner(w.pc).Some? && Owner(w.pc).value in w.tasks && ns == Home(w, Owner(w.pc).value)
  {
    hide TasksOk, PRsOk, NamespaceName, Next, NsCall, Resume, Held, Owner, PcFits, StatusOk;
    var call := Next(w.pc, w.backend).value;
    HeldOk(w);
    HeldIsOwned(w.pc);
    assert PcOk(w.tasks, w.pc);
    if OnCluster(call) {
      FetchIsNoCluster(w.pc, w.backend);
      CallsAreAddressed(w.pc, w.backend);
      assert Snapshot(w.tasks, Held(w.pc).value);
    }
    if !OnCluster(call) || ns != call.ns {
      ExecStaysHome(w, call, lag, drop, ns);
      hide Exec;
    }
  }

  lemma SettledStep(w: World, a: Action)
    requires Basic(w) && Settled(w)
    ensures Settled(Step(w, a))
  {
    var w' := Step(w, a);
    forall ns | ns in w'.cluster ensures Inhabited(w', ns) {
      SettledAt(w, a, ns);
    }
  }

  lemma SettledAt(w: World, a: Action, ns: string)
    requires Basic(w) && Settled(w) && ns in Step(w, a).cluster
    ensures Inhabited(Step(w, a), ns)
  {
    hide NamespaceName, OpStep, EnvStep, Basic, Next, ViewOf, Share, Proceed, Owner;
    if ns in w.cluster {
      assert Inhabited(w, ns);
      var name :| name in w.tasks && Home(w, name) == ns;
      BasicAllows(w, a, name);
      assert Home(Step(w, a), name) == ns;
    } else {
      match a {
        case Op(fault, lag, drop) =>
          OnlyHomesAppear(w, fault, lag, drop, ns);
          var name := Owner(w.pc).value;
          BasicAllows(w, a, name);
          assert Home(Step(w, a), name) == ns;
        case Env(m) =>
          EnvOnCluster(w, m, ns);
          NoneStays(m);
        case _ =>
      }
    }
  }

  lemma NoneStays(m: EnvMove)
    ensures NsMoving(m) ==> NsMove(None, m) == None
  {
  }

  lemma BasicAllows(w: World, a: Action, name: string)
    requires Basic(w) && name in w.tasks
    ensures name in Step(w, a).tasks && Step(w, a).tasks[name].spec == w.tasks[name].spec
  {
    StepOnlyGrows(w, a, name);
  }

  // ---------------------------------------------------------------- induction over runs

  /** `holds` is true of a task nobody has looked at, and every move of a task keeps it. */
  ghost predicate Kept(holds: View -> bool, current: bool, b: Backend) {
    && (forall name: string, spec: Spec :: holds(Newborn(name, spec)))
    && (forall v: View, mv: Move ::
          Fits(v) && holds(v) && Possible(v, b, mv) && (current ==> CurrentRead(v, mv)) ==> holds(Proceed(v, b, mv)))
  }

  lemma BornNew(w: World, a: Action, name: string)
    requires Basic(w) && Settled(w) && name !in w.tasks && name in Step(w, a).tasks
    ensures ViewOf(Step(w, a), name) == Newborn(name, Step(w, a).tasks[name].spec)
  {
    hide TasksOk, PRsOk, PcFits, TaskName, NamespaceName, Next, Owner;
    match a
    case Op(fault, lag, drop) =>
      if Next(w.pc, w.backend).Some? {
        NextNeedsOwner(w.pc, w.backend);
        CallOnTasks(w, fault, lag, drop, Owner(w.pc).value);
      }
      hide OpStep;
    case Env(m) =>
      EnvElsewhere(w, m);
      if m.NewTask? && m.issue >= 1 && TaskName(w.repo, m.issue) == name {
        NewHomeIsEmpty(w, m.issue);
      }
    case _ =>
      hide OpStep, EnvStep;
  }

  lemma {:induction false} Always(holds: View -> bool, current: bool, w: World, actions: seq<Action>, name: string)
    requires Kept(holds, current, w.backend) && Initial(w) && (current ==> FreshRun(w, actions, name))
    requires name in Run(w, actions).tasks
    ensures holds(ViewOf(Run(w, actions), name))
    decreases |actions|
  {
    if actions != [] {
      var front, a := actions[..|actions| - 1], actions[|actions| - 1];
      var mid := Run(w, front);
      Reachable(w, front);
      InitialBasic(w);
      SameBackend(w, front);
      if current {
        FreshSoFar(w, actions, name);
      }
      if name in mid.tasks {
        Always(holds, current, w, front, name);
        BasicFits(mid, name);
        StepProjects(mid, a, name);
        if current {
          FreshIsCurrent(mid, a, name);
        }
      } else {
        BornNew(mid, a, name);
      }
      hide Step, ViewOf, Share, Proceed, Possible, Fits, Basic, Settled;
    }
  }

  lemma {:induction false} Reachable(w: World, actions: seq<Action>)
    requires Initial(w)
    ensures Basic(Run(w, actions)) && Settled(Run(w, actions))
    decreases |actions|
  {
    hide Step, Basic;
    InitialBasic(w);
    BasicRun(w, actions);
    if actions != [] {
      var front := actions[..|actions| - 1];
      Reachable(w, front);
      SettledStep(Run(w, front), actions[|actions| - 1]);
    }
  }
}
