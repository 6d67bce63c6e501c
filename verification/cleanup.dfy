/** The end of a task: it is completed only after its pull request was merged or closed, and
    from then on its namespace is not touched; and a task that is stuck stays so. */
module Cleanup {
  import opened Names
  import opened Model
  import opened Machine
  import opened Base
  import opened History
  import opened Isolation
  import opened Invariants
  import opened Ownership
  import opened Wakeups

  // ---------------------------------------------------------------- completed only when done

  predicate DoneOnce(prs: seq<PullRequest>, n: nat) {
    var pr := PRNumbered(prs, n);
    pr.Some? && pr.value.everDone
  }

  predicate Finishing(pc: Pc) {
    match pc
    case DropNamespace(_, next) => next == Completed
    case Write(_, s) => s.phase == Completed
    case _ => false
  }

  predicate Justified(w: World, name: string)
    requires name in w.tasks
  {
    && |w.tasks[name].log| > 0
    && (Current(w.tasks[name]).phase == Completed ==> DoneOnce(w.prs, Current(w.tasks[name]).prNumber))
    && (Owner(w.pc) == Some(name) && Finishing(w.pc) ==> DoneOnce(w.prs, Held(w.pc).value.status.prNumber))
  }

  ghost predicate Remembered(prs: seq<PullRequest>) {
    forall n: nat :: var pr := PRNumbered(prs, n); pr.Some? ==> DoneRemembered(pr.value)
  }

  lemma RememberedStays(w: World, a: Action)
    requires Remembered(w.prs)
    ensures Remembered(Step(w, a).prs)
  {
    hide Step, FindNumber;
    forall n: nat ensures var pr := PRNumbered(Step(w, a).prs, n); pr.Some? ==> DoneRemembered(pr.value) {
      StepMovesPR(w, a, n);
      assert var pr := PRNumbered(w.prs, n); pr.Some? ==> DoneRemembered(pr.value);
    }
  }

  lemma DoneStays(w: World, a: Action, n: nat)
    requires DoneOnce(w.prs, n)
    ensures DoneOnce(Step(w, a).prs, n)
  {
    StepMovesPR(w, a, n);
    hide Step, PRNumbered;
  }

  lemma FinishingComes(pc: Pc, r: Response, now: nat)
    requires PcFits(pc) && Finishing(Resume(pc, r, now))
    requires Held(pc).Some? ==> StatusOk(Held(pc).value.status, Held(pc).value.spec.issue)
    requires r.GotPRs? ==> pc.LookPR? && pc.t.status.prNumber == 0
    ensures Held(pc).Some?
    ensures Finishing(pc) || (pc.LookPR? && r.GotPR? && (r.pr.merged || !r.pr.open))
  {
    hide NamespaceName, SecretName, BranchOf, AnyMentionsPR, AnyAsksClarification, LastIsHuman, FirstMatch, StatusEdge;
  }

  lemma OwnFinishing(w: World, fault: Fault, lag: nat, drop: nat, name: string)
    requires Basic(w) && name in w.tasks && Justified(w, name) && OwnCall(w, Op(fault, lag, drop), name)
    requires Remembered(w.prs) && Finishing(Step(w, Op(fault, lag, drop)).pc)
    ensures var pc' := Step(w, Op(fault, lag, drop)).pc; DoneOnce(w.prs, Held(pc').value.status.prNumber)
  {
    hide Step, Attempt, Next, Resume, StatusOk, TasksOk, PcFits, FindNumber, Owner;
    var r := Attempt(w, Next(w.pc, w.backend).value, fault, lag, drop).1;
    OpGoes(w, fault, lag, drop);
    AnswerFits(w, fault, lag, drop);
    HeldOk(w);
    HeldIsOwned(w.pc);
    assert PcOk(w.tasks, w.pc) && PRsOk(w.prs);
    FinishingComes(w.pc, r, w.clock);
    ResumeHolds(w.pc, r, w.clock);
    if w.pc.LookPR? && r.GotPR? {
      ListedIsNumbered(w.prs, r.pr);
      assert DoneRemembered(PRNumbered(w.prs, r.pr.number).value);
    }
  }

  lemma CommitJustified(w: World, name: string)
    requires Basic(w) && name in w.tasks && Justified(w, name) && Owner(w.pc) == Some(name) && w.pc.Write?
    ensures w.pc.status.phase == Completed ==> DoneOnce(w.prs, w.pc.status.prNumber)
  {
    hide StatusOk, TasksOk, PRsOk, PRNumbered;
    assert PcOk(w.tasks, w.pc);
  }

  lemma StepJustified(w: World, a: Action, name: string)
    requires Basic(w) && name in w.tasks && Justified(w, name) && Remembered(w.prs)
    ensures name in Step(w, a).tasks && Justified(Step(w, a), name)
  {
    hide Step, Basic, DoneOnce, Next, Remembered, Owner;
    var w' := Step(w, a);
    StepCommits(w, a, name);
    if w'.tasks[name].log != w.tasks[name].log {
      CommitJustified(w, name);
    }
    if Current(w'.tasks[name]).phase == Completed {
      DoneStays(w, a, Current(w'.tasks[name]).prNumber);
    }
    if Owner(w'.pc) == Some(name) && Finishing(w'.pc) {
      PcMoves(w, a, name);
      if OwnCall(w, a, name) {
        OwnFinishing(w, a.fault, a.lag, a.drop, name);
      }
      DoneStays(w, a, Held(w'.pc).value.status.prNumber);
    }
  }

  lemma {:induction false} AllJustified(w: World, actions: seq<Action>, name: string)
    requires Initial(w)
    ensures Remembered(Run(w, actions).prs)
    ensures name in Run(w, actions).tasks ==> Justified(Run(w, actions), name)
    decreases |actions|
  {
    hide Step, Basic, Settled, NsOf, DoneOnce;
    if actions != [] {
      var front, a := actions[..|actions| - 1], actions[|actions| - 1];
      var mid := Run(w, front);
      Reachable(w, front);
      AllJustified(w, front, name);
      RememberedStays(mid, a);
      if name in mid.tasks {
        StepJustified(mid, a, name);
      } else if name in Step(mid, a).tasks {
        BornNew(mid, a, name);
      }
    }
  }

  /** In every run a completed task has recorded a pull request that was at some point merged
      or closed. */
  lemma CompletedMeansDone(w: World, actions: seq<Action>, name: string)
    requires Initial(w) && name in Run(w, actions).tasks
    ensures var w' := Run(w, actions);
      && |w'.tasks[name].log| > 0
      && var s := Current(w'.tasks[name]);
         s.phase == Completed ==> s.prNumber > 0 && DoneOnce(w'.prs, s.prNumber)
  {
    hide Run, Settled, PcOk, PRsOk, TaskName, PRNumbered;
    AllJustified(w, actions, name);
    Reachable(w, actions);
    var w' := Run(w, actions);
    assert RecordOk(w'.repo, name, w'.tasks[name]);
    assert StatusOk(Current(w'.tasks[name]), w'.tasks[name].spec.issue);
  }

  // ---------------------------------------------------------------- hands off

  /** The operator has let go of the task: later reads will find nothing to do. */
  predicate LetGo(v: View) {
    Fits(v) && Terminal(Current(v.rec).phase) && Held(v.pc).None?
  }

  /** The pod is gone, or it is the same one at another point of its life. */
  predicate PodLeft(pod: Option<Pod>, pod': Option<Pod>) {
    pod'.Some? ==> pod.Some? && pod'.value == pod.value.(phase := pod'.value.phase)
  }

  /** What the namespace can become when only pods end and vanish, and a namespace that is
      already going away goes. */
  predicate LeftAlone(ns: Option<Namespace>, ns': Option<Namespace>) {
    && PodLeft(PodOf(ns, AgentSlot), PodOf(ns', AgentSlot))
    && PodLeft(PodOf(ns, RevSlot), PodOf(ns', RevSlot))
    && (ns'.Some? ==> ns.Some? && ns'.value.terminating == ns.value.terminating
                      && ns'.value.policy == ns.value.policy && ns'.value.secrets == ns.value.secrets)
    && (ns.Some? && !ns.value.terminating ==> ns'.Some?)
  }

  lemma LetGoMove(v: View, b: Backend, mv: Move)
    requires LetGo(v) && Possible(v, b, mv) && CurrentRead(v, mv)
    ensures var v' := Proceed(v, b, mv);
      v'.rec.log == v.rec.log && Held(v'.pc).None? && LeftAlone(v.ns, v'.ns)
  {
    hide LogOk, NamespaceName, NsCall;
  }

  /** Once a task is Completed or Failed and Reconcile is not holding it, no run with current
      reads creates, deletes or changes its namespace: a deleted one never comes back, and one
      whose delete was lost stays for good. */
  lemma {:induction false} TerminalNamespaceIsFrozen(w: World, actions: seq<Action>, name: string)
    requires Basic(w) && name in w.tasks && FreshRun(w, actions, name) && LetGo(ViewOf(w, name))
    ensures var w' := Run(w, actions);
      && name in w'.tasks
      && w'.tasks[name].log == w.tasks[name].log
      && LetGo(ViewOf(w', name))
      && LeftAlone(NsOf(w, name), NsOf(w', name))
    decreases |actions|
  {
    if actions != [] {
      var front, a := actions[..|actions| - 1], actions[|actions| - 1];
      FreshSoFar(w, actions, name);
      TerminalNamespaceIsFrozen(w, front, name);
      BasicRun(w, front);
      var mid := Run(w, front);
      StepProjects(mid, a, name);
      FreshIsCurrent(mid, a, name);
      LetGoMove(ViewOf(mid, name), mid.backend, Share(mid, a, name));
      BasicStep(mid, a);
      BasicFits(Step(mid, a), name);
      LeftAloneOn(NsOf(w, name), NsOf(mid, name), NsOf(Step(mid, a), name));
      hide Step, Basic, Share, Possible, Proceed, Fits, Owner, Held, CurrentRead, LeftAlone;
    } else {
      LeftAsItIs(NsOf(w, name));
    }
  }

  lemma LeftAloneOn(a: Option<Namespace>, b: Option<Namespace>, c: Option<Namespace>)
    ensures LeftAlone(a, b) && LeftAlone(b, c) ==> LeftAlone(a, c)
  {
  }

  lemma LeftAsItIs(ns: Option<Namespace>)
    ensures LeftAlone(ns, ns)
  {
  }

  // ---------------------------------------------------------------- completed in the end

  /** The recorded pull request is merged or closed. */
  predicate Closed(prs: seq<PullRequest>, n: nat) {
    var pr := PRNumbered(prs, n);
    pr.Some? && (pr.value.merged || !pr.value.open)
  }

  function StoredTask(w: World, name: string): Task
    requires name in w.tasks && |w.tasks[name].log| > 0
  {
    Task(name, w.tasks[name].spec, Current(w.tasks[name]), |w.tasks[name].log| - 1)
  }

  lemma Fetched(w: World, name: string)
    requires w.pc == Fetch(name) && name in w.tasks && |w.tasks[name].log| > 0
    ensures Step(w, Op(Clean, 0, 0)) == w.(pc := Dispatch(StoredTask(w, name)))
  {
    hide Dispatch;
  }

  lemma PickedUpForReview(w: World, name: string)
    requires name in w.tasks && w.pc == Idle && Awake(w, name) && Current(w.tasks[name]).phase == AwaitingReview
    ensures Step(w, Start(name)) == w.(pc := Fetch(name), queue := w.queue - {name})
  {
  }

  lemma Authorised(w: World, t: Task)
    requires w.pc == ReadCreds(t, ToFindPR(ForReview)) && w.creds.Some?
    ensures Step(w, Op(Clean, 0, 0)) == w.(pc := LookPR(t, ForReview))
  {
    hide CredsOf;
  }

  lemma FoundClosed(w: World, t: Task)
    requires w.pc == LookPR(t, ForReview) && t.status.prNumber != 0 && Closed(w.prs, t.status.prNumber)
    ensures Step(w, Op(Clean, 0, 0)) == w.(pc := DropNamespace(t, Completed))
  {
    hide FindNumber;
  }

  lemma Deleted(w: World, t: Task, fault: Fault)
    requires w.pc == DropNamespace(t, Completed)
    ensures var w' := Step(w, Op(fault, 0, 0));
      && w' == w.(cluster := w'.cluster, pc := Write(t, t.status.(phase := Completed)))
      && (fault != Lost ==> var ns := Lookup(w', t.status.namespace); ns.Some? ==> ns.value.terminating)
  {
  }

  lemma Committed(w: World, t: Task, status: Status)
    requires w.pc == Write(t, status) && t.name in w.tasks && t.version == |w.tasks[t.name].log| - 1
    ensures var w' := Step(w, Op(Clean, 0, 0));
      && w'.cluster == w.cluster
      && w'.pc == Stop(t, Pause(status.phase), false)
      && t.name in w'.tasks && w'.tasks[t.name].spec == w.tasks[t.name].spec
      && w'.tasks[t.name].log == w.tasks[t.name].log + [status]
  {
    hide Pause;
  }

  /** One attempt, with any fate of the delete. */
  function ReviewAttempt(w: World, name: string, fault: Fault): World {
    var w1 := Step(w, Start(name));
    var w4 := Step(Step(Step(w1, Op(Clean, 0, 0)), Op(Clean, 0, 0)), Op(Clean, 0, 0));
    Step(Step(w4, Op(fault, 0, 0)), Op(Clean, 0, 0))
  }

  /** Whatever happened before, a status write lost after the delete included: a task in
      AwaitingReview whose pull request is closed is completed by the next attempt whose reads
      and status write go through, and unless its delete is lost the namespace is gone or
      going. */
  lemma RetryCompletes(w0: World, before: seq<Action>, name: string, fault: Fault)
    requires Initial(w0)
    requires var w := Run(w0, before);
      && w.pc == Idle && w.creds.Some? && name in w.tasks && |w.tasks[name].log| > 0
      && Current(w.tasks[name]).phase == AwaitingReview
      && Closed(w.prs, Current(w.tasks[name]).prNumber)
    ensures var w := Run(w0, before);
      var w' := ReviewAttempt(w, name, fault);
      && name in w'.tasks
      && w'.tasks[name].log == w.tasks[name].log + [Current(w.tasks[name]).(phase := Completed)]
      && w'.pc == Done(name, Result(0, false))
      && (fault != Lost ==> NsOf(w', name).Some? ==> NsOf(w', name).value.terminating)
  {
    hide Run, Step, NamespaceName, Closed, Awake;
    var w := Run(w0, before);
    NoLostWakeups(w0, before, name);
    ReviewedIsRecorded(w0, before, name);
    PickedUpForReview(w, name);
    var t := StoredTask(w, name);
    var w1 := Step(w, Start(name));
    Fetched(w1, name);
    Authorised(w1.(pc := ReadCreds(t, ToFindPR(ForReview))), t);
    hide Awake, Dispatch;
    var w3 := w1.(pc := LookPR(t, ForReview));
    FoundClosed(w3, t);
    var w4 := w1.(pc := DropNamespace(t, Completed));
    Deleted(w4, t, fault);
    Committed(Step(w4, Op(fault, 0, 0)), t, t.status.(phase := Completed));
  }

  lemma ReviewedIsRecorded(w0: World, before: seq<Action>, name: string)
    requires Initial(w0)
    requires var w := Run(w0, before);
      name in w.tasks && |w.tasks[name].log| > 0 && Current(w.tasks[name]).phase == AwaitingReview
    ensures var w := Run(w0, before);
      Current(w.tasks[name]).prNumber > 0 && Current(w.tasks[name]).namespace == Home(w, name)
  {
    hide Run, Settled, PcOk, PRsOk, NamespaceName, TaskName;
    var w := Run(w0, before);
    Reachable(w0, before);
    assert RecordOk(w.repo, name, w.tasks[name]);
    assert StatusOk(Current(w.tasks[name]), w.tasks[name].spec.issue);
  }

  // ---------------------------------------------------------------- stuck

  predicate NoPods(ns: Option<Namespace>) {
    PodOf(ns, AgentSlot).None? && PodOf(ns, RevSlot).None?
  }

  /** A task that waits for a pod nobody will ever create. */
  predicate Stuck(v: View) {
    && Fits(v)
    && Active(Current(v.rec).phase)
    && NoPods(v.ns)
    && (Held(v.pc).Some? ==> v.pc.LookRevision? || v.pc.LookAgent?)
  }

  lemma StuckMove(v: View, b: Backend, mv: Move)
    requires Stuck(v) && Possible(v, b, mv) && CurrentRead(v, mv)
    ensures var v' := Proceed(v, b, mv);
      && v'.rec.log == v.rec.log && NoPods(v'.ns)
      && (Held(v'.pc).Some? ==> v'.pc.LookRevision? || v'.pc.LookAgent?)
  {
    hide LogOk, NamespaceName, SecretName;
  }

  /** From such a state no run with current reads, whoever comments, labels or merges, ever
      changes the phase again. */
  lemma {:induction false} StuckForever(w: World, actions: seq<Action>, name: string)
    requires Basic(w) && name in w.tasks && FreshRun(w, actions, name) && Stuck(ViewOf(w, name))
    ensures var w' := Run(w, actions);
      && name in w'.tasks
      && w'.tasks[name].log == w.tasks[name].log
      && Stuck(ViewOf(w', name))
    decreases |actions|
  {
    if actions != [] {
      var front, a := actions[..|actions| - 1], actions[|actions| - 1];
      FreshSoFar(w, actions, name);
      StuckForever(w, front, name);
      BasicRun(w, front);
      var mid := Run(w, front);
      StepProjects(mid, a, name);
      FreshIsCurrent(mid, a, name);
      StuckMove(ViewOf(mid, name), mid.backend, Share(mid, a, name));
      BasicStep(mid, a);
      BasicFits(Step(mid, a), name);
      hide Step, Basic, Share, Possible, Proceed, Fits, Owner, Held, CurrentRead, NoPods;
    }
  }
}
