/** Cycle freshness: which pods that Reconcile reads in Building or Running were created in the
    current cycle. This takes more than the other results ask for: no delete before a create or a
    question may be lost, and what is deleted must be gone before something is created in its place. */
module Cycles {
  import opened Names
  import opened Model
  import opened Machine
  import opened Base
  import opened History
  import opened Isolation
  import opened Invariants
  import opened Exclusion

  /** The version from which the current cycle was provisioned. */
  function CycleStart(log: seq<Status>): (n: nat)
    ensures log != [] ==> n < |log|
  {
    if log == [] then 0
    else if Provisions(log[|log| - 1].phase) then |log| - 1
    else CycleStart(log[..|log| - 1])
  }

  lemma StartOfAppended(log: seq<Status>, s: Status)
    requires log != []
    ensures CycleStart(log + [s]) == if Provisions(s.phase) then |log| else CycleStart(log)
    ensures Provisions(log[|log| - 1].phase) ==> CycleStart(log) == |log| - 1
  {
    assert (log + [s])[..|log|] == log;
  }

  // ---------------------------------------------------------------- the invariant

  predicate Gone(ns: Option<Namespace>) {
    ns.None? || ns.value.terminating
  }

  /** Cycle `c` is a revision: its pod is agent-rev, beside whatever `agent` is still there. */
  predicate RevisionCycle(log: seq<Status>, c: nat) {
    c < |log| && log[c].phase == AwaitingRevision
  }

  /** An agent-rev is of cycle `c` and stays, and so is the agent unless `c` is a revision. */
  predicate FreshPods(log: seq<Status>, ns: Option<Namespace>, c: nat) {
    var agent, rev := PodOf(ns, AgentSlot), PodOf(ns, RevSlot);
    && (rev.Some? ==> rev.value.cycle == c && !rev.value.deleting)
    && (agent.Some? && !RevisionCycle(log, c) ==> agent.value.cycle == c)
  }

  predicate OnlyFreshAgent(log: seq<Status>, ns: Option<Namespace>, c: nat) {
    PodOf(ns, RevSlot).None? && FreshPods(log, ns, c)
  }

  /** The agent was made by a launch or a resumption. */
  predicate AgentNotOfRevision(log: seq<Status>, ns: Option<Namespace>) {
    var agent := PodOf(ns, AgentSlot);
    agent.Some? ==> agent.value.cycle < |log| && log[agent.value.cycle].phase != AwaitingRevision
  }

  predicate PhasePods(log: seq<Status>, ns: Option<Namespace>)
    requires |log| > 0
  {
    var p, n := log[|log| - 1].phase, |log| - 1;
    && AgentNotOfRevision(log, ns)
    && (p == New ==> OnlyFreshAgent(log, ns, n))
    && (p == Blocked ==> Gone(ns) || OnlyFreshAgent(log, ns, n))
    && (Active(p) ==> FreshPods(log, ns, CycleStart(log)))
  }

  predicate PcPods(pc: Pc, log: seq<Status>, ns: Option<Namespace>)
    requires |log| > 0
  {
    match pc
    case MakePod(_, job) =>
      job.Revise? ==> PodOf(ns, RevSlot).Some? ==> PodOf(ns, RevSlot).value.deleting
    case Write(_, s) =>
      (s.phase == Building ==> FreshPods(log, ns, |log| - 1)) && (s.phase == Blocked ==> Gone(ns))
    case _ => true
  }

  predicate InCycle(v: View) {
    && |v.rec.log| > 0
    && HoldsCurrent(v)
    && PhasePods(v.rec.log, v.ns)
    && PcPods(v.pc, v.rec.log, v.ns)
  }

  // ---------------------------------------------------------------- what is asked of a run

  /** The delete of agent-rev and the one on the way to BlockedOnClarification are not lost, and
      nothing is created while its predecessor is still going. */
  predicate Tidy(v: View, mv: Move) {
    match mv
    case Called(_, took, _) =>
      && (v.pc.DropRevision? || (v.pc.DropNamespace? && v.pc.next == Blocked) ==> took)
      && (v.pc.MakePod? && took ==>
            var pod := PodOf(v.ns, SlotFor(v.pc.job)); pod.Some? ==> !pod.value.deleting)
    case _ => true
  }

  // ---------------------------------------------------------------- one move

  /** A call changes neither pod but by creating it, or by deleting agent-rev for a revision. */
  lemma CallKeepsPods(v: View, b: Backend, took: bool)
    requires Fits(v) && InCycle(v) && Next(v.pc, b).Some? && Held(v.pc).Some? && !v.pc.MakePod?
    ensures PhasePods(v.rec.log, NsAfter(v, b, took))
    ensures !v.pc.DropRevision? ==> PcPods(v.pc, v.rec.log, NsAfter(v, b, took))
  {
    hide LogOk, NamespaceName, SecretName, CycleStart;
  }

  lemma CreateKeepsPods(v: View, b: Backend, r: Response, took: bool, now: nat)
    requires Fits(v) && InCycle(v) && v.pc.MakePod? && Sensible(v, b, r, took) && Tidy(v, Called(r, took, now))
    ensures PhasePods(v.rec.log, NsAfter(v, b, took))
    ensures PcPods(Resume(v.pc, r, now), v.rec.log, NsAfter(v, b, took))
  {
    hide LogOk, NamespaceName, SecretName, CycleStart, ScriptFor;
  }

  lemma OthersResume(v: View, b: Backend, r: Response, took: bool, now: nat, ns: Option<Namespace>)
    requires Fits(v) && Next(v.pc, b).Some? && Sensible(v, b, r, took) && Tidy(v, Called(r, took, now))
    requires !v.pc.MakePod? && Held(v.pc).Some? && ns == NsAfter(v, b, took)
    ensures PcPods(Resume(v.pc, r, now), v.rec.log, ns)
  {
    hide LogOk, NamespaceName, SecretName, BranchOf, AnyMentionsPR, AnyAsksClarification, LastIsHuman, FirstMatch,
      BuildPod;
  }

  lemma PodsAfterCommit(log: seq<Status>, s: Status, ns: Option<Namespace>, c: nat)
    requires c < |log|
    ensures FreshPods(log + [s], ns, c) <==> FreshPods(log, ns, c)
    ensures AgentNotOfRevision(log, ns) ==> AgentNotOfRevision(log + [s], ns)
  {
  }

  lemma CommitStarts(v: View, b: Backend, r: Response, took: bool)
    requires Fits(v) && InCycle(v) && v.pc.Write? && Sensible(v, b, r, took)
    ensures RecordAfter(v, r, took).log == v.rec.log || RecordAfter(v, r, took).log == v.rec.log + [v.pc.status]
    ensures PhasePods(RecordAfter(v, r, took).log, v.ns)
  {
    hide LogOk, NamespaceName, StatusOk, CycleStart, FreshPods;
    StartOfAppended(v.rec.log, v.pc.status);
    PodsAfterCommit(v.rec.log, v.pc.status, v.ns, CycleStart(v.rec.log));
  }

  lemma PodsMoveInCycle(v: View, m: EnvMove)
    requires InCycle(v) && NsMoving(m) && Tidy(v, Shifted(m))
    ensures PhasePods(v.rec.log, NsMove(v.ns, m)) && PcPods(v.pc, v.rec.log, NsMove(v.ns, m))
  {
    hide CycleStart, HoldsCurrent;
  }

  lemma OwnCallInCycle(v: View, b: Backend, mv: Move)
    requires Fits(v) && InCycle(v) && Possible(v, b, mv) && CurrentRead(v, mv) && Tidy(v, mv) && mv.Called?
    requires Held(v.pc).Some?
    ensures InCycle(Proceed(v, b, mv))
  {
    hide Fits, Resume, NsAfter, Next, PhasePods, PcPods, Sensible, Tidy, Held, RecordAfter;
    HoldsOn(v, b, mv);
    if v.pc.Write? {
      CommitStarts(v, b, mv.r, mv.took);
      WriteLeavesPods(v, b, mv);
    } else {
      NothingCommitted(v, b, mv);
      if v.pc.MakePod? {
        CreateKeepsPods(v, b, mv.r, mv.took, mv.now);
      } else {
        CallKeepsPods(v, b, mv.took);
        OthersResume(v, b, mv.r, mv.took, mv.now, NsAfter(v, b, mv.took));
      }
    }
  }

  lemma HoldsOn(v: View, b: Backend, mv: Move)
    requires Fits(v) && InCycle(v) && Possible(v, b, mv) && CurrentRead(v, mv) && mv.Called? && Held(v.pc).Some?
    ensures HoldsCurrent(Proceed(v, b, mv))
  {
    hide NsAfter, PhasePods, PcPods, LogOk, Next, NamespaceName;
    ResumeHolds(v.pc, mv.r, mv.now);
    hide Held;
  }

  lemma WriteLeavesPods(v: View, b: Backend, mv: Move)
    requires v.pc.Write? && mv.Called?
    ensures NsAfter(v, b, mv.took) == v.ns && Resume(v.pc, mv.r, mv.now).Done?
    ensures forall log: seq<Status> :: |log| > 0 ==> PcPods(Resume(v.pc, mv.r, mv.now), log, v.ns)
  {
  }

  lemma NothingCommitted(v: View, b: Backend, mv: Move)
    requires mv.Called? && !v.pc.Write?
    ensures RecordAfter(v, mv.r, mv.took).log == v.rec.log
  {
  }

  lemma MoveInCycle(v: View, b: Backend, mv: Move)
    requires Fits(v) && InCycle(v) && Possible(v, b, mv) && CurrentRead(v, mv) && Tidy(v, mv)
    ensures InCycle(Proceed(v, b, mv))
  {
    match mv
    case Called(r, took, now) =>
      if Held(v.pc).Some? {
        hide *;
        OwnCallInCycle(v, b, mv);
      } else {
        hide LogOk, NsCall, NamespaceName, SecretName, FreshPods, OnlyFreshAgent, CycleStart;
      }
    case Shifted(m) =>
      hide PhasePods, PcPods, NsMove, NamespaceName, LogOk;
      PodsMoveInCycle(v, m);
    case _ =>
      hide PhasePods, LogOk, NamespaceName;
  }

  // ---------------------------------------------------------------- runs

  /** Tidy, said of an action of the whole system. */
  predicate Orderly(w: World, a: Action, name: string) {
    && Fresh(w, a, name)
    && (name in w.tasks && a.Op? && Owner(w.pc) == Some(name) ==>
          && (w.pc.DropRevision? || (w.pc.DropNamespace? && w.pc.next == Blocked) ==> a.fault != Lost)
          && (w.pc.MakePod? && a.fault != Lost ==>
                var pod := PodOf(NsOf(w, name), SlotFor(w.pc.job)); pod.Some? ==> !pod.value.deleting))
  }

  predicate OrderlyRun(w: World, actions: seq<Action>, name: string) {
    forall i :: 0 <= i < |actions| ==> Orderly(Run(w, actions[..i]), actions[i], name)
  }

  lemma OrderlyIsTidy(w: World, a: Action, name: string)
    requires Basic(w) && name in w.tasks && Orderly(w, a, name)
    ensures Tidy(ViewOf(w, name), Share(w, a, name))
  {
    hide NsOf, Attempt, Next, NamespaceName, Basic, PodOf;
  }

  lemma {:induction false} AlwaysInCycle(w: World, actions: seq<Action>, name: string)
    requires Initial(w) && OrderlyRun(w, actions, name) && name in Run(w, actions).tasks
    ensures InCycle(ViewOf(Run(w, actions), name))
    decreases |actions|
  {
    hide Step, ViewOf, Share, Proceed, Possible, Fits, Basic, Settled, InCycle, Tidy, Orderly, CurrentRead;
    if actions != [] {
      var front, a := actions[..|actions| - 1], actions[|actions| - 1];
      var mid := Run(w, front);
      Reachable(w, front);
      assert forall i :: 0 <= i < |front| ==> front[..i] == actions[..i];
      assert Orderly(mid, a, name);
      if name in mid.tasks {
        AlwaysInCycle(w, front, name);
        BasicFits(mid, name);
        StepProjects(mid, a, name);
        OrderlyIsTidy(mid, a, name);
        OrderlyIsFresh(mid, a, name);
        FreshIsCurrent(mid, a, name);
        MoveInCycle(ViewOf(mid, name), mid.backend, Share(mid, a, name));
      } else {
        BornNew(mid, a, name);
        BornInCycle(name, Step(mid, a).tasks[name].spec);
      }
    }
  }

  lemma OrderlyIsFresh(w: World, a: Action, name: string)
    requires Orderly(w, a, name)
    ensures Fresh(w, a, name)
  {
  }

  lemma BornInCycle(name: string, spec: Spec)
    ensures InCycle(Newborn(name, spec))
  {
  }

  lemma AnswerIsOfThisCycle(v: View, b: Backend, r: Response, took: bool)
    requires Fits(v) && InCycle(v) && Next(v.pc, b).Some? && Sensible(v, b, r, took) && r.GotPod?
    ensures |v.rec.log| > 0 && Active(Current(v.rec).phase) && (v.pc.LookRevision? || v.pc.LookAgent?)
    ensures r.pod.cycle == CycleStart(v.rec.log)
      <==> v.pc.LookRevision? || !RevisionCycle(v.rec.log, CycleStart(v.rec.log))
  {
    hide LogOk, NamespaceName, SecretName, CycleStart, BuildPod;
  }

  /** In every orderly run a pod that Reconcile reads was created in the current cycle, from the
      version of the task that the last provisioning branch read, exactly when it was read as
      agent-rev or the cycle is no revision. The exception is the first agent standing in for
      an agent-rev that could not be read, or that has left the namespace before it. */
  lemma PodsReadAreOfThisCycle(w: World, actions: seq<Action>, name: string, fault: Fault, drop: nat)
    requires Initial(w) && OrderlyRun(w, actions, name) && name in Run(w, actions).tasks
    requires OwnCall(Run(w, actions), Op(fault, 0, drop), name)
    ensures
      var v := Run(w, actions);
      var r := Attempt(v, Next(v.pc, v.backend).value, fault, 0, drop).1;
      var log := v.tasks[name].log;
      r.GotPod? ==>
        && |log| > 0 && Active(Current(v.tasks[name]).phase)
        && (r.pod.cycle == CycleStart(log) <==> v.pc.LookRevision? || !RevisionCycle(log, CycleStart(log)))
  {
    hide Run, Basic, Settled, Attempt, Step, NsOf, NamespaceName, Fits, InCycle, Next, OrderlyRun, RevisionCycle;
    var v := Run(w, actions);
    AlwaysInCycle(w, actions, name);
    Reachable(w, actions);
    BasicFits(v, name);
    StepProjects(v, Op(fault, 0, drop), name);
    var r := Attempt(v, Next(v.pc, v.backend).value, fault, 0, drop).1;
    if r.GotPod? {
      AnswerIsOfThisCycle(ViewOf(v, name), v.backend, r, fault != Lost);
    }
  }

  // ---------------------------------------------------------------- when every pod read is current

  /** No agent is left without the agent-rev that hides it. */
  predicate Covered(ns: Option<Namespace>) {
    PodOf(ns, RevSlot).Some? || PodOf(ns, AgentSlot).None?
  }

  predicate Covers(v: View) {
    && InCycle(v)
    && (Active(Current(v.rec).phase) && RevisionCycle(v.rec.log, CycleStart(v.rec.log)) ==> Covered(v.ns))
    && (v.pc.LookAgent? && RevisionCycle(v.rec.log, CycleStart(v.rec.log)) ==> PodOf(v.ns, RevSlot).None?)
    && (v.pc.Write? && v.pc.t.status.phase == AwaitingRevision ==>
          Covered(v.ns) && (v.ns.Some? ==> !v.ns.value.terminating))
  }

  /** In the cycle of a revision, reads of agent-rev fail only for its absence, and while the task is
      in Building or Running, agent-rev does not leave a namespace that is going away before the
      agent has. */
  predicate Steady(v: View, mv: Move)
    requires |v.rec.log| > 0
  {
    RevisionCycle(v.rec.log, CycleStart(v.rec.log)) ==>
    match mv
    case Called(r, _, _) => v.pc.LookRevision? ==> r != OtherError
    case Shifted(m) =>
      m.PodVanishes? && m.slot == RevSlot && Active(Current(v.rec).phase) && v.ns.Some? && v.ns.value.terminating ==>
        PodOf(v.ns, AgentSlot).None?
    case _ => true
  }

  lemma CallCovers(v: View, b: Backend, r: Response, took: bool, now: nat)
    requires Fits(v) && Covers(v) && Next(v.pc, b).Some? && Held(v.pc).Some? && !v.pc.Write?
    requires Sensible(v, b, r, took) && Steady(v, Called(r, took, now))
    ensures var ns, pc := NsAfter(v, b, took), Resume(v.pc, r, now);
      && (Active(Current(v.rec).phase) && RevisionCycle(v.rec.log, CycleStart(v.rec.log)) ==> Covered(ns))
      && (pc.LookAgent? && RevisionCycle(v.rec.log, CycleStart(v.rec.log)) ==> PodOf(ns, RevSlot).None?)
      && (pc.Write? && pc.t.status.phase == AwaitingRevision ==>
            Covered(ns) && (ns.Some? ==> !ns.value.terminating))
  {
    hide LogOk, NamespaceName, SecretName, BranchOf, AnyMentionsPR, AnyAsksClarification, LastIsHuman, FirstMatch,
      BuildPod, CycleStart, RevisionCycle, PhasePods, PcPods, StatusOk;
  }

  lemma CommitCovers(v: View, b: Backend, r: Response, took: bool)
    requires Fits(v) && Covers(v) && v.pc.Write? && Sensible(v, b, r, took)
    ensures var log := RecordAfter(v, r, took).log;
      |log| > 0 && (Active(log[|log| - 1].phase) && RevisionCycle(log, CycleStart(log)) ==> Covered(v.ns))
  {
    hide LogOk, NamespaceName, StatusOk, CycleStart, Covered;
    StartOfAppended(v.rec.log, v.pc.status);
  }

  lemma PodsMoveCovered(v: View, m: EnvMove)
    requires Fits(v) && Covers(v) && NsMoving(m) && Steady(v, Shifted(m))
    ensures var v' := v.(ns := NsMove(v.ns, m));
      InCycle(v') ==> Covers(v')
  {
    hide CycleStart, AgentNotOfRevision, LogOk, NamespaceName, StatusOk;
  }

  lemma MoveCovers(v: View, b: Backend, mv: Move)
    requires Fits(v) && Covers(v) && Possible(v, b, mv) && Steady(v, mv)
    requires InCycle(Proceed(v, b, mv))
    ensures Covers(Proceed(v, b, mv))
  {
    hide InCycle, CycleStart, RevisionCycle, Covered, LogOk, NamespaceName, NsMove, NsCall, StatusOk;
    match mv
    case Called(r, took, now) =>
      if Held(v.pc).None? {
        OpensNothing(v, b, r, took, now);
      } else if v.pc.Write? {
        CommitCovers(v, b, r, took);
        WriteLeavesPods(v, b, mv);
      } else {
        hide Resume, Next, Held, Sensible, Steady;
        CallCovers(v, b, r, took, now);
        NothingCommitted(v, b, mv);
      }
    case Shifted(m) => PodsMoveCovered(v, m);
    case _ =>
  }

  lemma OpensNothing(v: View, b: Backend, r: Response, took: bool, now: nat)
    requires Next(v.pc, b).Some? && Held(v.pc).None?
    ensures NsAfter(v, b, took) == v.ns && RecordAfter(v, r, took).log == v.rec.log
    ensures var pc := Resume(v.pc, r, now); !pc.LookAgent? && !pc.Write?
  {
    hide NamespaceName, SecretName;
  }

  /** Steady, said of an action of the whole system. */
  predicate SteadyAction(w: World, a: Action, name: string) {
    && name in w.tasks
    && RevisionCycle(w.tasks[name].log, CycleStart(w.tasks[name].log)) ==>
      && (a.Op? && Owner(w.pc) == Some(name) && w.pc.LookRevision? ==> a.fault == Clean)
      && (&& a.Env?
          && a.move == PodVanishes(Home(w, name), RevSlot)
          && Active(Current(w.tasks[name]).phase)
          && NsOf(w, name).Some? && NsOf(w, name).value.terminating ==>
            PodOf(NsOf(w, name), AgentSlot).None?)
  }

  predicate SteadyRun(w: World, actions: seq<Action>, name: string) {
    forall i :: 0 <= i < |actions| ==> SteadyAction(Run(w, actions[..i]), actions[i], name)
  }

  lemma CleanReadAnswers(w: World, lag: nat, drop: nat)
    requires w.pc.LookRevision?
    ensures Attempt(w, Next(w.pc, w.backend).value, Clean, lag, drop).1 != OtherError
  {
    hide NamespaceName;
  }

  lemma SteadyActionIsSteady(w: World, a: Action, name: string)
    requires Basic(w) && name in w.tasks && |w.tasks[name].log| > 0 && SteadyAction(w, a, name)
    ensures Steady(ViewOf(w, name), Share(w, a, name))
  {
    hide NsOf, Attempt, Next, NamespaceName, Basic, PodOf;
    if a.Op? && Owner(w.pc) == Some(name) && w.pc.LookRevision? {
      CleanReadAnswers(w, a.lag, a.drop);
    }
  }

  lemma {:induction false} AlwaysCovers(w: World, actions: seq<Action>, name: string)
    requires Initial(w) && OrderlyRun(w, actions, name) && SteadyRun(w, actions, name) && name in Run(w, actions).tasks
    ensures Covers(ViewOf(Run(w, actions), name))
    decreases |actions|
  {
    hide Step, ViewOf, Share, Proceed, Possible, Fits, Basic, Settled, InCycle, Covers, Orderly, SteadyAction, Steady;
    AlwaysInCycle(w, actions, name);
    if actions != [] {
      var front, a := actions[..|actions| - 1], actions[|actions| - 1];
      var mid := Run(w, front);
      Reachable(w, front);
      assert forall i :: 0 <= i < |front| ==> front[..i] == actions[..i];
      assert Orderly(mid, a, name) && SteadyAction(mid, a, name);
      if name in mid.tasks {
        AlwaysCovers(w, front, name);
        BasicFits(mid, name);
        StepProjects(mid, a, name);
        OrderlyIsFresh(mid, a, name);
        LogNotEmpty(mid, name);
        SteadyActionIsSteady(mid, a, name);
        MoveCovers(ViewOf(mid, name), mid.backend, Share(mid, a, name));
      } else {
        BornNew(mid, a, name);
        BornCovers(name, Step(mid, a).tasks[name].spec);
      }
    }
  }

  lemma LogNotEmpty(w: World, name: string)
    requires Basic(w) && name in w.tasks
    ensures |w.tasks[name].log| > 0 && |ViewOf(w, name).rec.log| > 0
  {
    hide PcOk, PRsOk, TaskName;
    assert RecordOk(w.repo, name, w.tasks[name]);
  }

  lemma BornCovers(name: string, spec: Spec)
    ensures Covers(Newborn(name, spec))
  {
    hide InCycle, CycleStart;
    BornInCycle(name, spec);
  }

  /** In every run that is orderly and steady, every pod that Reconcile reads was created in the
      current cycle. */
  lemma EveryPodReadIsCurrent(w: World, actions: seq<Action>, name: string, fault: Fault, drop: nat)
    requires Initial(w) && OrderlyRun(w, actions, name) && SteadyRun(w, actions, name) && name in Run(w, actions).tasks
    requires OwnCall(Run(w, actions), Op(fault, 0, drop), name)
    ensures
      var v := Run(w, actions);
      var r := Attempt(v, Next(v.pc, v.backend).value, fault, 0, drop).1;
      r.GotPod? ==> r.pod.cycle == CycleStart(v.tasks[name].log)
  {
    hide Run, Basic, Settled, Attempt, Step, NsOf, NamespaceName, Fits, InCycle, Next, OrderlyRun, SteadyRun,
      RevisionCycle;
    var v := Run(w, actions);
    PodsReadAreOfThisCycle(w, actions, name, fault, drop);
    AlwaysCovers(w, actions, name);
    Reachable(w, actions);
    BasicFits(v, name);
    StepProjects(v, Op(fault, 0, drop), name);
    var r := Attempt(v, Next(v.pc, v.backend).value, fault, 0, drop).1;
    if r.GotPod? {
      AlwaysInCycle(w, actions, name);
      AnswerIsOfThisCycle(ViewOf(v, name), v.backend, r, fault != Lost);
    }
    if r.GotPod? && v.pc.LookAgent? {
      CoveredAnswers(ViewOf(v, name), v.backend, r, fault != Lost);
    }
  }

  lemma CoveredAnswers(v: View, b: Backend, r: Response, took: bool)
    requires Fits(v) && Covers(v) && Next(v.pc, b).Some? && Sensible(v, b, r, took) && r.GotPod? && v.pc.LookAgent?
    ensures |v.rec.log| > 0
    ensures Active(Current(v.rec).phase) ==> !RevisionCycle(v.rec.log, CycleStart(v.rec.log))
  {
    hide LogOk, NamespaceName, CycleStart;
  }
}
