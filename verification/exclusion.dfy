/** The two pods of a task, "agent" and "agent-rev", are never at work at the same time, as long
    as task reads are current. Any call may fail before or after taking effect, delete errors
    are dropped, deletions are slow, and the operator may crash between any two calls. */
module Exclusion {
  import opened Names
  import opened Model
  import opened Machine
  import opened Base
  import opened Isolation
  import opened Invariants

  predicate Live(pod: Option<Pod>) {
    pod.Some? && (pod.value.phase == PodPending || pod.value.phase == PodRunning)
  }

  /** The first agent has finished its work or is gone. */
  predicate AgentDone(ns: Option<Namespace>) {
    var pod := PodOf(ns, AgentSlot);
    pod.None? || pod.value.phase == PodSucceeded
  }

  /** The revision agent has failed or is gone. */
  predicate RevisionDone(ns: Option<Namespace>) {
    var pod := PodOf(ns, RevSlot);
    pod.None? || pod.value.phase == PodFailed
  }

  /** Reconcile has seen a pod that succeeded. */
  predicate SawSuccess(pc: Pc) {
    match pc
    case ReadCreds(_, why) => why == ToFindPR(AfterSuccess) || why.ToComment?
    case LookPR(_, quest) => quest == AfterSuccess
    case LookComments(_, _) => true
    case PostComment(_, _) => true
    case Write(_, s) => s.phase == AwaitingReview
    case _ => false
  }

  /** Reconcile has seen a pod that failed. */
  predicate SawFailure(pc: Pc) {
    match pc
    case ReadCreds(_, why) => why == ToClarify
    case LookClarification(_) => true
    case DropNamespace(_, next) => next == Blocked
    case Write(_, s) => s.phase == Blocked
    case _ => false
  }

  predicate PhaseClause(p: Phase, ns: Option<Namespace>) {
    && (AgentDone(ns) || RevisionDone(ns))
    && (p == New || p == Blocked ==> RevisionDone(ns))
    && (p == AwaitingReview || p == AwaitingRevision ==> AgentDone(ns))
  }

  predicate PcClause(pc: Pc, ns: Option<Namespace>) {
    && (SawSuccess(pc) ==> AgentDone(ns))
    && (SawFailure(pc) ==> RevisionDone(ns))
  }

  /** The copy Reconcile holds is the current one. */
  predicate HoldsCurrent(v: View) {
    Held(v.pc).Some? ==> Held(v.pc).value.version == |v.rec.log| - 1
  }

  predicate Excludes(v: View) {
    && |v.rec.log| > 0
    && HoldsCurrent(v)
    && PhaseClause(Current(v.rec).phase, v.ns)
    && PcClause(v.pc, v.ns)
  }

  // ---------------------------------------------------------------- one move

  /** A call moves no pod but by creating it where there was none, and Reconcile creates one of
      the two only when the other is out of the way. */
  lemma CallKeepsClause(pc: Pc, backend: Backend, ns: Option<Namespace>)
    requires Next(pc, backend).Some? && OnCluster(Next(pc, backend).value) && PcFits(pc) && Held(pc).Some?
    requires PhaseClause(Held(pc).value.status.phase, ns) && PcClause(pc, ns)
    ensures PhaseClause(Held(pc).value.status.phase, NsCall(ns, Next(pc, backend).value).0)
    ensures PcClause(pc, NsCall(ns, Next(pc, backend).value).0)
  {
    hide NamespaceName, SecretName;
  }

  /** Reconcile has seen success or failure only after reading such a pod. */
  lemma SightsAreEarned(pc: Pc, r: Response, now: nat)
    requires PcFits(pc) && Held(pc).Some?
    ensures var pc' := Resume(pc, r, now); var looked := (pc.LookRevision? || pc.LookAgent?) && r.GotPod?;
      && (SawSuccess(pc') && !SawSuccess(pc) ==> looked && r.pod.phase == PodSucceeded)
      && (SawFailure(pc') && !SawFailure(pc) ==> looked && r.pod.phase == PodFailed)
  {
    hide NamespaceName, SecretName, BranchOf, AnyMentionsPR, AnyAsksClarification, LastIsHuman, FirstMatch;
  }

  /** What a pod read tells about the pair. */
  lemma ReadsAreSound(v: View, backend: Backend, r: Response, took: bool, now: nat, ns: Option<Namespace>)
    requires Next(v.pc, backend).Some? && Sensible(v, backend, r, took) && ns == NsAfter(v, backend, took)
    requires PcFits(v.pc) && Held(v.pc).Some?
    requires PcClause(v.pc, ns) && PhaseClause(Held(v.pc).value.status.phase, ns)
    ensures PcClause(Resume(v.pc, r, now), ns)
  {
    hide NamespaceName, SecretName, Resume, BuildPod, SawSuccess, SawFailure, StatusOk, StatusEdge;
    SightsAreEarned(v.pc, r, now);
  }

  lemma PodsMoveOn(ns: Option<Namespace>, m: EnvMove, p: Phase, pc: Pc)
    requires NsMoving(m) && PhaseClause(p, ns) && PcClause(pc, ns)
    ensures PhaseClause(p, NsMove(ns, m)) && PcClause(pc, NsMove(ns, m))
  {
    hide SawSuccess, SawFailure;
  }

  lemma OwnCallExcludes(v: View, b: Backend, mv: Move)
    requires Fits(v) && Excludes(v) && Possible(v, b, mv) && CurrentRead(v, mv) && mv.Called? && Held(v.pc).Some?
    ensures Excludes(Proceed(v, b, mv))
  {
    var call := Next(v.pc, b).value;
    var v' := Proceed(v, b, mv);
    ResumeHolds(v.pc, mv.r, mv.now);
    hide LogOk, Resume, Next, NamespaceName;
    if OnCluster(call) {
      CallKeepsClause(v.pc, b, v.ns);
    }
    hide NsCall;
    ReadsAreSound(v, b, mv.r, mv.took, mv.now, v'.ns);
    hide Sensible, Held, SawFailure, SawSuccess;
    if v.pc.Write? {
      CommitKeepsClause(v.pc, v'.ns);
    }
  }

  lemma CommitKeepsClause(pc: Pc, ns: Option<Namespace>)
    requires pc.Write? && PcFits(pc) && PcClause(pc, ns) && PhaseClause(pc.t.status.phase, ns)
    ensures PhaseClause(pc.status.phase, ns)
  {
    hide StatusOk, AgentDone, RevisionDone;
  }

  lemma MoveExcludes(v: View, b: Backend, mv: Move)
    requires Fits(v) && Excludes(v) && Possible(v, b, mv) && CurrentRead(v, mv)
    ensures Excludes(Proceed(v, b, mv))
  {
    hide LogOk;
    match mv
    case Called(r, took, now) =>
      if Held(v.pc).Some? {
        OwnCallExcludes(v, b, mv);
      } else {
        hide NsCall, NamespaceName, SecretName, AgentDone, RevisionDone;
      }
    case Shifted(m) =>
      PodsMoveOn(v.ns, m, Current(v.rec).phase, v.pc);
      hide PhaseClause, PcClause, NsMove;
    case _ =>
      hide PhaseClause;
  }

  lemma AlwaysExcludes(w: World, actions: seq<Action>, name: string)
    requires Initial(w) && FreshRun(w, actions, name) && name in Run(w, actions).tasks
    ensures Excludes(ViewOf(Run(w, actions), name))
  {
    hide Run, Fits, Possible, Proceed;
    forall v: View, b: Backend, mv: Move | Fits(v) && Excludes(v) && Possible(v, b, mv) && CurrentRead(v, mv)
      ensures Excludes(Proceed(v, b, mv))
    {
      MoveExcludes(v, b, mv);
    }
    assert forall name: string, spec: Spec :: Excludes(Newborn(name, spec)) by { hide LogOk; }
    Always(Excludes, true, w, actions, name);
  }

  /** In every run with current task reads, whatever calls fail, whatever deletes are dropped or
      slow, and wherever the operator crashes, the two pods of a task are never both at work. */
  lemma NeverTwoAgents(w: World, actions: seq<Action>, name: string)
    requires Initial(w) && FreshRun(w, actions, name) && name in Run(w, actions).tasks
    ensures var ns := NsOf(Run(w, actions), name);
      !(Live(PodOf(ns, AgentSlot)) && Live(PodOf(ns, RevSlot)))
  {
    hide Run, PcClause, HoldsCurrent, NamespaceName;
    AlwaysExcludes(w, actions, name);
  }
}
