/** Revision accounting: every entry into AwaitingRevision is paid for by one application of the
    needs-revision label, or by one removal of it that failed. */
module Revisions {
  import opened Names
  import opened Model
  import opened Machine
  import opened Base
  import opened History
  import opened Isolation
  import opened Invariants
  import opened Ownership

  function Applied(prs: seq<PullRequest>, n: nat): nat {
    var pr := PRNumbered(prs, n);
    if pr.Some? then pr.value.labelings else 0
  }

  function Pending(prs: seq<PullRequest>, n: nat): nat {
    var pr := PRNumbered(prs, n);
    if pr.Some? then Flag(Labelled(pr.value)) else 0
  }

  function Entries(rec: Record): nat {
    Count(rec.log, AwaitingRevision)
  }

  /** What is left to spend, the label that is on the pull request counted as spent. */
  predicate Covered(rec: Record, prs: seq<PullRequest>, n: nat, extra: nat) {
    Entries(rec) + extra <= Applied(prs, n) + rec.failedRemovals
  }

  /** Reconcile has tried to remove the label. */
  predicate RemovalBehind(pc: Pc) {
    match pc
    case MakeNamespace(_, job) => job.Revise?
    case LookPolicy(_, job) => job.Revise?
    case PutPolicy(_, job, _) => job.Revise?
    case MakeSecret(_, job, _) => job.Revise?
    case DropRevision(_, _) => true
    case MakePod(_, job) => job.Revise?
    case Write(t, _) => t.status.phase == AwaitingRevision
    case _ => false
  }

  predicate SawLabel(pc: Pc) {
    pc.Write? && pc.status.phase == AwaitingRevision
  }

  predicate PcCovered(rec: Record, prs: seq<PullRequest>, n: nat, pc: Pc) {
    Held(pc).Some? && Held(pc).value.version == |rec.log| - 1 ==>
      && (SawLabel(pc) ==> Covered(rec, prs, n, 1))
      && (RemovalBehind(pc) ==> Covered(rec, prs, n, Pending(prs, n)))
  }

  predicate RecordCovered(rec: Record, prs: seq<PullRequest>) {
    && |rec.log| > 0
    && var n := Current(rec).prNumber;
       && (n == 0 ==> Entries(rec) == 0)
       && Covered(rec, prs, n, 0)
       && (Current(rec).phase != AwaitingRevision ==> Covered(rec, prs, n, Pending(prs, n)))
  }

  predicate Accounted(w: World, name: string)
    requires name in w.tasks
  {
    var rec := w.tasks[name];
    && RecordCovered(rec, w.prs)
    && (Owner(w.pc) == Some(name) ==> PcCovered(rec, w.prs, Current(rec).prNumber, w.pc))
  }

  /** A label on a pull request has been counted. */
  ghost predicate LabelsCounted(prs: seq<PullRequest>) {
    forall n: nat :: Pending(prs, n) <= Applied(prs, n)
  }

  lemma LabelsStayCounted(w: World, a: Action)
    requires LabelsCounted(w.prs)
    ensures LabelsCounted(Step(w, a).prs)
  {
    hide Step, PRNumbered;
    forall n: nat ensures Pending(Step(w, a).prs, n) <= Applied(Step(w, a).prs, n) {
      assert Pending(w.prs, n) <= Applied(w.prs, n);
      StepMovesPR(w, a, n);
    }
  }

  /** Whatever happens to the pull request, what is covered stays covered. */
  lemma CoverStays(w: World, a: Action, rec: Record, n: nat)
    ensures Covered(rec, w.prs, n, 0) ==> Covered(rec, Step(w, a).prs, n, 0)
    ensures Covered(rec, w.prs, n, 1) ==> Covered(rec, Step(w, a).prs, n, 1)
    ensures Covered(rec, w.prs, n, Pending(w.prs, n)) ==> Covered(rec, Step(w, a).prs, n, Pending(Step(w, a).prs, n))
  {
    StepMovesPR(w, a, n);
    hide Step, PRNumbered, Entries;
  }

  lemma RestCovered(w: World, a: Action, name: string)
    requires Basic(w) && name in w.tasks && Accounted(w, name) && !OwnCall(w, a, name)
    ensures name in Step(w, a).tasks && Accounted(Step(w, a), name)
  {
    hide Step, Basic, Next, Owner, Covered, Pending, Entries;
    var w' := Step(w, a);
    var rec := w.tasks[name];
    StepCommits(w, a, name);
    SameRecord(w, a, name);
    if Owner(w'.pc) == Some(name) {
      PcMoves(w, a, name);
    }
    CoverStays(w, a, rec, Current(rec).prNumber);
  }

  lemma SameRecord(w: World, a: Action, name: string)
    requires Basic(w) && name in w.tasks && !OwnCall(w, a, name)
    ensures name in Step(w, a).tasks && Step(w, a).tasks[name] == w.tasks[name]
  {
    hide Step, Basic, NsOf, Next, Owner;
    StepProjects(w, a, name);
  }

  // ---------------------------------------------------------------- Reconcile's own calls

  /** Where the two promises of a control point come from. */
  lemma PromisesCome(pc: Pc, r: Response, now: nat)
    requires PcFits(pc) && (Held(pc).Some? ==> StatusOk(Held(pc).value.status, Held(pc).value.spec.issue))
    ensures SawLabel(Resume(pc, r, now)) ==> pc.LookLabel? && r.GotPR? && Labelled(r.pr)
    ensures RemovalBehind(Resume(pc, r, now)) ==> RemovalBehind(pc) || pc.DropLabel? || RemovalFailed(pc, r)
  {
    hide NamespaceName, SecretName, BranchOf, AnyMentionsPR, AnyAsksClarification, LastIsHuman, FirstMatch, StatusEdge;
  }

  /** After the removal call the label is gone, or a failure has been counted. */
  lemma RemovalPays(w: World, fault: Fault, lag: nat, drop: nat)
    requires w.pc.DropLabel?
    ensures var n := w.pc.t.status.prNumber;
      var w' := Step(w, Op(fault, lag, drop));
      var r := Attempt(w, Next(w.pc, w.backend).value, fault, lag, drop).1;
      RemovalFailed(w.pc, r) || Pending(w'.prs, n) == 0
  {
    hide NsCall, Resume;
    var n := w.pc.t.status.prNumber;
    var i := FindNumber(w.prs, n);
    CallOnPRs(w, fault, lag, drop);
    if i >= 0 {
      ReplacePR(w.prs, i, DropLabelFrom(w.prs[i], NEEDS_REVISION), n);
    }
  }

  lemma LabelRead(w: World, fault: Fault, lag: nat, drop: nat)
    requires w.pc.LookLabel?
    ensures var r := Attempt(w, Next(w.pc, w.backend).value, fault, lag, drop).1;
      r.GotPR? && Labelled(r.pr) ==> Pending(w.prs, w.pc.t.status.prNumber) == 1
  {
    hide NsCall, Resume, FindNumber;
  }

  lemma AppendedEntries(rec: Record, s: Status, f: nat)
    ensures Entries(rec.(log := rec.log + [s], failedRemovals := f))
         == Entries(rec) + if s.phase == AwaitingRevision then 1 else 0
  {
    CountOfAppended(rec.log, s, AwaitingRevision);
  }

  /** A commit keeps the account. */
  lemma CommitCovered(rec: Record, prs: seq<PullRequest>, t: Task, s: Status, issue: int)
    requires RecordCovered(rec, prs) && PcCovered(rec, prs, Current(rec).prNumber, Write(t, s))
    requires t.version == |rec.log| - 1 && t.status == Current(rec)
    requires StatusEdge(t.status, s) && StatusOk(s, issue) && LabelsCounted(prs)
    ensures RecordCovered(rec.(log := rec.log + [s]), prs)
  {
    hide PRNumbered;
    var rec' := rec.(log := rec.log + [s]);
    AppendedEntries(rec, s, rec.failedRemovals);
    assert Entries(rec') == Entries(rec) + if s.phase == AwaitingRevision then 1 else 0;
    assert Pending(prs, s.prNumber) <= Applied(prs, s.prNumber);
    hide Entries, Pending, Applied;
  }

  lemma WriteCovered(w: World, fault: Fault, lag: nat, drop: nat, name: string)
    requires Basic(w) && name in w.tasks && Accounted(w, name) && OwnCall(w, Op(fault, lag, drop), name)
    requires LabelsCounted(w.prs) && w.pc.Write?
    ensures var w' := Step(w, Op(fault, lag, drop)); name in w'.tasks && Accounted(w', name)
  {
    hide OpStep, Next, Attempt, StatusEdge, StatusOk, RecordCovered, LabelsCounted, TasksOk, PRsOk, NsOf;
    var rec := w.tasks[name];
    OwnRecord(w, fault, lag, drop, name);
    OpGoes(w, fault, lag, drop);
    CallOnPRs(w, fault, lag, drop);
    assert PcOk(w.tasks, w.pc);
    if w.pc.t.version == |rec.log| - 1 {
      CommitCovered(rec, w.prs, w.pc.t, w.pc.status, w.pc.t.spec.issue);
    }
  }

  predicate Pays(pc: Pc, prs': seq<PullRequest>, r: Response, n: nat) {
    || RemovalFailed(pc, r)
    || (pc.DropLabel? && Pending(prs', n) == 0)
    || (RemovalBehind(pc) && !pc.DropLabel?)
  }

  /** What a call other than Write means for the promises of the next control point. */
  lemma CallPromises(w: World, fault: Fault, lag: nat, drop: nat, name: string)
    requires Basic(w) && name in w.tasks && Accounted(w, name) && OwnCall(w, Op(fault, lag, drop), name)
    requires !w.pc.Write? && Held(w.pc).Some? && Held(w.pc).value.version == |w.tasks[name].log| - 1
    ensures var rec := w.tasks[name];
      var n := Current(rec).prNumber;
      var w' := Step(w, Op(fault, lag, drop));
      var r := Attempt(w, Next(w.pc, w.backend).value, fault, lag, drop).1;
      && (SawLabel(w'.pc) ==> Covered(rec, w.prs, n, 1))
      && (RemovalBehind(w'.pc) ==> Pays(w.pc, w'.prs, r, n))
  {
    hide Step, Next, Attempt, Resume, StatusOk, TasksOk, PRsOk, Pending, Applied, Entries, Owner;
    var rec := w.tasks[name];
    var t := Held(w.pc).value;
    var r := Attempt(w, Next(w.pc, w.backend).value, fault, lag, drop).1;
    OpGoes(w, fault, lag, drop);
    HeldOk(w);
    HeldIsOwned(w.pc);
    assert PcOk(w.tasks, w.pc);
    assert Snapshot(w.tasks, t);
    PromisesCome(w.pc, r, w.clock);
    if w.pc.LookLabel? {
      LabelRead(w, fault, lag, drop);
    }
    if w.pc.DropLabel? {
      RemovalPays(w, fault, lag, drop);
    }
  }

  lemma OwnCovered(w: World, fault: Fault, lag: nat, drop: nat, name: string)
    requires Basic(w) && name in w.tasks && Accounted(w, name) && OwnCall(w, Op(fault, lag, drop), name)
    requires LabelsCounted(w.prs)
    ensures var w' := Step(w, Op(fault, lag, drop)); name in w'.tasks && Accounted(w', name)
  {
    if w.pc.Write? {
      WriteCovered(w, fault, lag, drop, name);
    } else {
      OtherCovered(w, fault, lag, drop, name);
    }
    hide *;
  }

  predicate CoverKept(rec: Record, prs: seq<PullRequest>, prs': seq<PullRequest>, n: nat) {
    && (Covered(rec, prs, n, 0) ==> Covered(rec, prs', n, 0))
    && (Covered(rec, prs, n, 1) ==> Covered(rec, prs', n, 1))
    && (Covered(rec, prs, n, Pending(prs, n)) ==> Covered(rec, prs', n, Pending(prs', n)))
  }

  function Charged(rec: Record, pc: Pc, r: Response): Record {
    if RemovalFailed(pc, r) then rec.(failedRemovals := rec.failedRemovals + 1) else rec
  }

  lemma RecordCharged(rec: Record, prs: seq<PullRequest>, prs': seq<PullRequest>, pc: Pc, r: Response)
    requires RecordCovered(rec, prs) && CoverKept(rec, prs, prs', Current(rec).prNumber)
    ensures RecordCovered(Charged(rec, pc, r), prs')
  {
    hide PRNumbered, RemovalFailed;
  }

  lemma PcCharged(rec: Record, prs: seq<PullRequest>, prs': seq<PullRequest>, n: nat, pc: Pc, pc': Pc, r: Response)
    requires RecordCovered(rec, prs) && CoverKept(rec, prs, prs', n) && n == Current(rec).prNumber
    requires PcCovered(rec, prs, n, pc)
    requires Held(pc').Some? && Held(pc').value.version == |rec.log| - 1 ==>
      && Held(pc') == Held(pc)
      && (SawLabel(pc') ==> Covered(rec, prs, n, 1))
      && (RemovalBehind(pc') ==> Pays(pc, prs', r, n))
    ensures PcCovered(Charged(rec, pc, r), prs', n, pc')
  {
    hide PRNumbered, RemovalFailed, RemovalBehind, SawLabel, Applied;
  }

  lemma OtherCovered(w: World, fault: Fault, lag: nat, drop: nat, name: string)
    requires Basic(w) && name in w.tasks && Accounted(w, name) && OwnCall(w, Op(fault, lag, drop), name)
    requires !w.pc.Write?
    ensures var w' := Step(w, Op(fault, lag, drop)); name in w'.tasks && Accounted(w', name)
  {
    hide Basic, RemovalFailed, Covered, Pending, Step, Next, Attempt, NsOf, SawLabel, RemovalBehind, Pays;
    var a := Op(fault, lag, drop);
    var w' := Step(w, a);
    var rec := w.tasks[name];
    var n := Current(rec).prNumber;
    var r := Attempt(w, Next(w.pc, w.backend).value, fault, lag, drop).1;
    OwnRecord(w, fault, lag, drop, name);
    CoverStays(w, a, rec, n);
    SameHeld(w, fault, lag, drop);
    assert w'.tasks[name] == Charged(rec, w.pc, r);
    RecordCharged(rec, w.prs, w'.prs, w.pc, r);
    if Owner(w'.pc) == Some(name) {
      if Held(w'.pc).Some? && Held(w'.pc).value.version == |rec.log| - 1 && Held(w'.pc) == Held(w.pc) {
        CallPromises(w, fault, lag, drop, name);
        PcCharged(rec, w.prs, w'.prs, n, w.pc, w'.pc, r);
      }
    }
  }

  lemma SameHeld(w: World, fault: Fault, lag: nat, drop: nat)
    requires Basic(w) && Next(w.pc, w.backend).Some?
    ensures var pc' := Step(w, Op(fault, lag, drop)).pc;
      Held(pc').Some? ==> Held(pc') == Held(w.pc) || (w.pc.Fetch? && !SawLabel(pc') && !RemovalBehind(pc'))
  {
    var r := Attempt(w, Next(w.pc, w.backend).value, fault, lag, drop).1;
    OpGoes(w, fault, lag, drop);
    AnswerFits(w, fault, lag, drop);
    hide Step, Attempt, Next, Basic, RemovalBehind, SawLabel;
    ResumeHolds(w.pc, r, w.clock);
    if w.pc.Fetch? {
      FetchPromisesNothing(w.pc, r, w.clock);
    }
    hide Resume;
  }

  lemma FetchPromisesNothing(pc: Pc, r: Response, now: nat)
    requires pc.Fetch?
    ensures !SawLabel(Resume(pc, r, now)) && !RemovalBehind(Resume(pc, r, now))
  {
  }

  // ---------------------------------------------------------------- runs

  lemma FreshCovered(spec: Spec, prs: seq<PullRequest>)
    requires LabelsCounted(prs)
    ensures RecordCovered(Record(spec, [INITIAL_STATUS], 0), prs)
  {
    hide PRNumbered;
    CountOfAppended([], INITIAL_STATUS, AwaitingRevision);
    assert [] + [INITIAL_STATUS] == [INITIAL_STATUS];
    assert Pending(prs, 0) <= Applied(prs, 0);
    hide Pending, Applied;
  }

  lemma BornAccounted(w: World, a: Action, name: string)
    requires Basic(w) && Settled(w) && name !in w.tasks && name in Step(w, a).tasks
    requires LabelsCounted(Step(w, a).prs)
    ensures Accounted(Step(w, a), name)
  {
    hide Step, Basic, Settled, NsOf, RecordCovered, LabelsCounted;
    BornNew(w, a, name);
    FreshCovered(Step(w, a).tasks[name].spec, Step(w, a).prs);
  }

  lemma {:induction false} AllAccounted(w: World, actions: seq<Action>, name: string)
    requires Initial(w)
    ensures LabelsCounted(Run(w, actions).prs)
    ensures name in Run(w, actions).tasks ==> Accounted(Run(w, actions), name)
    decreases |actions|
  {
    if actions != [] {
      var front, a := actions[..|actions| - 1], actions[|actions| - 1];
      var mid := Run(w, front);
      Reachable(w, front);
      AllAccounted(w, front, name);
      LabelsStayCounted(mid, a);
      if name in mid.tasks {
        if OwnCall(mid, a, name) {
          OwnCovered(mid, a.fault, a.lag, a.drop, name);
        } else {
          RestCovered(mid, a, name);
        }
      } else if name in Step(mid, a).tasks {
        BornAccounted(mid, a, name);
      }
    }
    hide Step, Basic, Accounted, Settled, LabelsCounted, OwnCall;
  }

  /** In every run, over all retries, faults and stale reads and whatever people do to the
      labels: a task has entered AwaitingRevision at most as often as needs-revision was put on
      its pull request, plus the removals of the label that failed. */
  lemma RevisionsArePaidFor(w: World, actions: seq<Action>, name: string)
    requires Initial(w) && name in Run(w, actions).tasks
    ensures var w' := Run(w, actions);
      var rec := w'.tasks[name];
      |rec.log| > 0 && Count(rec.log, AwaitingRevision) <= Applied(w'.prs, Current(rec).prNumber) + rec.failedRemovals
  {
    AllAccounted(w, actions, name);
    hide Run;
  }
}
