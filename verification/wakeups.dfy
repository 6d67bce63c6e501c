/** No lost wakeups: a task that still has somewhere to go is always in the work queue or in
    the hands of the worker, who will put it back. */
module Wakeups {
  import opened Names
  import opened Model
  import opened Machine
  import opened Base
  import opened History
  import opened Isolation
  import opened Invariants

  /** Reconcile returned without an error and without asking to run again. */
  predicate Quiet(pc: Pc) {
    pc.Done? && pc.result == Result(0, false)
  }

  predicate Awake(w: World, name: string)
    requires name in w.tasks
  {
    && |w.tasks[name].log| > 0
    && (Terminal(Current(w.tasks[name]).phase) || name in w.queue || (Owner(w.pc) == Some(name) && !Quiet(w.pc)))
  }

  /** Reconcile returns quietly only after reading a terminal phase, or after a commit that
      itself wakes the task. */
  lemma QuietReturns(pc: Pc, r: Response, now: nat)
    requires Quiet(Resume(pc, r, now)) && PcFits(pc) && !Quiet(pc)
    requires r.GotTask? ==> pc.Fetch?
    ensures (pc.Write? && r == Ack) || (pc.Fetch? && r == NotFound)
         || (pc.Fetch? && r.GotTask? && Terminal(r.task.status.phase))
  {
    hide NamespaceName, SecretName, BranchOf, AnyMentionsPR, AnyAsksClarification, LastIsHuman, FirstMatch;
  }

  lemma WriteWakes(w: World, fault: Fault, lag: nat, drop: nat)
    requires Basic(w) && w.pc.Write?
    requires Attempt(w, Next(w.pc, w.backend).value, fault, lag, drop).1 == Ack
    ensures w.pc.t.name in Step(w, Op(fault, lag, drop)).queue
  {
    hide Resume, Basic;
  }

  lemma FetchFinds(w: World, fault: Fault, lag: nat, drop: nat)
    requires Basic(w) && w.pc.Fetch?
    ensures Attempt(w, Next(w.pc, w.backend).value, fault, lag, drop).1 != NotFound
  {
    hide PcFits;
    assert RecordOk(w.repo, w.pc.name, w.tasks[w.pc.name]);
  }

  lemma TerminalIsLast(log: seq<Status>, issue: int, i: nat)
    requires LogOk(log, issue) && i < |log| && Terminal(log[i].phase)
    ensures i == |log| - 1
  {
    hide StatusOk;
    assert i + 1 < |log| ==> StatusEdge(log[i], log[i + 1]);
  }

  lemma OwnCallAwake(w: World, fault: Fault, lag: nat, drop: nat, name: string)
    requires Basic(w) && name in w.tasks && Owner(w.pc) == Some(name) && Next(w.pc, w.backend).Some?
    ensures var w' := Step(w, Op(fault, lag, drop)); name in w'.tasks && Awake(w', name)
  {
    var a := Op(fault, lag, drop);
    var w' := Step(w, a);
    var r := Attempt(w, Next(w.pc, w.backend).value, fault, lag, drop).1;
    BasicStep(w, a);
    StepProjects(w, a, name);
    AnswerFits(w, fault, lag, drop);
    OpGoes(w, fault, lag, drop);
    assert RecordOk(w'.repo, name, w'.tasks[name]) && PcFits(w.pc);
    CallOnTasks(w, fault, lag, drop, name);
    ResumeHolds(w.pc, r, w.clock);
    if Quiet(w'.pc) {
      NotQuiet(w.pc, w.backend);
      QuietReturns(w.pc, r, w.clock);
      if w.pc.Write? {
        WriteWakes(w, fault, lag, drop);
        HeldIsOwned(w.pc);
      } else {
        FetchFinds(w, fault, lag, drop);
        TerminalIsLast(w'.tasks[name].log, w'.tasks[name].spec.issue, r.task.version);
      }
    }
    hide Step, Basic, Attempt, Resume, Next, PcFits, LogOk, TaskName, Owner, ViewOf, Proceed, Share, Quiet;
  }

  lemma NotQuiet(pc: Pc, backend: Backend)
    requires Next(pc, backend).Some?
    ensures !pc.Done? && !pc.Idle?
  {
  }

  lemma StepAwake(w: World, a: Action, name: string)
    requires Basic(w) && name in w.tasks && Awake(w, name)
    ensures name in Step(w, a).tasks && Awake(Step(w, a), name)
  {
    hide OpStep, EnvStep, TasksOk, PcOk, PRsOk, Next;
    StepOnlyGrows(w, a, name);
    match a
    case Op(fault, lag, drop) =>
      if Next(w.pc, w.backend).Some? {
        if Owner(w.pc) == Some(name) {
          OwnCallAwake(w, fault, lag, drop, name);
        } else {
          CallOnTasks(w, fault, lag, drop, name);
        }
      }
    case Env(m) =>
      EnvElsewhere(w, m);
      EnvOnTasks(w, m, name);
      EnvQueue(w, m);
    case _ =>
  }

  lemma EnvQueue(w: World, m: EnvMove)
    ensures w.queue <= EnvStep(w, m).queue
    ensures forall name :: name in EnvStep(w, m).tasks && name !in w.tasks ==>
      name in EnvStep(w, m).queue && EnvStep(w, m).tasks[name].log == [INITIAL_STATUS]
  {
    hide NsMove, TaskName, FindNumber;
  }

  lemma BornAwake(w: World, a: Action, name: string)
    requires Basic(w) && name !in w.tasks && name in Step(w, a).tasks
    ensures Awake(Step(w, a), name)
  {
    hide TasksOk, PRsOk, PcFits, Next, Owner;
    match a
    case Op(fault, lag, drop) =>
      if Next(w.pc, w.backend).Some? {
        NextNeedsOwner(w.pc, w.backend);
        CallOnTasks(w, fault, lag, drop, Owner(w.pc).value);
      }
      hide OpStep;
    case Env(m) =>
      EnvQueue(w, m);
      hide EnvStep;
    case _ =>
      hide OpStep, EnvStep;
  }

  /** In every run, after every action, each task is finished, waiting in the queue, or being
      worked on by a Reconcile that has not quietly returned. */
  lemma {:induction false} NoLostWakeups(w: World, actions: seq<Action>, name: string)
    requires Initial(w) && name in Run(w, actions).tasks
    ensures Awake(Run(w, actions), name)
    decreases |actions|
  {
    if actions != [] {
      var front := actions[..|actions| - 1];
      Reachable(w, front);
      if name in Run(w, front).tasks {
        NoLostWakeups(w, front, name);
        StepAwake(Run(w, front), actions[|actions| - 1], name);
      } else {
        BornAwake(Run(w, front), actions[|actions| - 1], name);
      }
      hide Step, Basic, Awake, Settled;
    }
  }
}
