/** Who owns a pull request: no two tasks ever record the same one, and every revision pod was
    built for the one its task recorded. */
module Ownership {
  import opened Names
  import opened Model
  import opened Machine
  import opened Base
  import opened History
  import opened Isolation
  import opened Invariants

  // ---------------------------------------------------------------- one pull request over a step

  function PRNumbered(prs: seq<PullRequest>, n: nat): Option<PullRequest> {
    var i := FindNumber(prs, n);
    if i < 0 then None else Some(prs[i])
  }

  function Flag(b: bool): nat {
    if b then 1 else 0
  }

  predicate Labelled(pr: PullRequest) {
    NEEDS_REVISION in pr.labels
  }

  predicate DoneRemembered(pr: PullRequest) {
    pr.merged || !pr.open ==> pr.everDone
  }

  /** Head branch and URL stay, a merge or close is remembered, and the label only appears
      together with a counted application. */
  predicate PRMoves(before: Option<PullRequest>, after: Option<PullRequest>) {
    match before
    case None => after.Some? ==> after.value.labels == [] && after.value.open && !after.value.merged
    case Some(p) =>
      && after.Some?
      && var q := after.value;
         && q.number == p.number && q.head == p.head && q.url == p.url
         && (p.everDone ==> q.everDone)
         && (DoneRemembered(p) ==> DoneRemembered(q))
         && p.labelings <= q.labelings
         && p.labelings + Flag(Labelled(q)) <= q.labelings + Flag(Labelled(p))
  }

  lemma SameNumbers(prs: seq<PullRequest>, prs': seq<PullRequest>, n: nat)
    requires |prs| == |prs'| && forall q :: 0 <= q < |prs| ==> prs[q].number == prs'[q].number
    ensures FindNumber(prs, n) == FindNumber(prs', n)
  {
    var i, j := FindNumber(prs, n), FindNumber(prs', n);
    assert i >= 0 ==> prs'[i].number == n;
    assert j >= 0 ==> prs[j].number == n;
  }

  lemma ReplacePR(prs: seq<PullRequest>, i: nat, q: PullRequest, n: nat)
    requires i < |prs| && q.number == prs[i].number && FindNumber(prs, q.number) == i
    ensures PRNumbered(prs[i := q], n) == if n == q.number then Some(q) else PRNumbered(prs, n)
  {
    SameNumbers(prs, prs[i := q], n);
  }

  lemma AfterMoves(pr: PullRequest, m: EnvMove)
    requires PRMove(m)
    ensures PRMoves(Some(pr), Some(PRAfter(pr, m)))
  {
  }

  lemma EnvPRMoves(w: World, m: EnvMove, n: nat)
    requires PRMove(m)
    ensures PRMoves(PRNumbered(w.prs, n), PRNumbered(EnvPR(w, m).prs, n))
  {
    var i := FindNumber(w.prs, m.number);
    if i >= 0 {
      AfterMoves(w.prs[i], m);
      hide PRAfter;
      ReplacePR(w.prs, i, PRAfter(w.prs[i], m), n);
      hide FindNumber;
    }
  }

  lemma OpenedMoves(prs: seq<PullRequest>, pr: PullRequest, n: nat)
    requires FindNumber(prs, pr.number) < 0 && pr.open && !pr.merged && pr.labels == []
    ensures PRMoves(PRNumbered(prs, n), PRNumbered([pr] + prs, n))
  {
    assert ([pr] + prs)[1..] == prs;
  }

  lemma NothingMoves(pr: Option<PullRequest>)
    ensures PRMoves(pr, pr)
  {
  }

  lemma EnvMovesPR(w: World, m: EnvMove, n: nat)
    ensures PRMoves(PRNumbered(w.prs, n), PRNumbered(EnvStep(w, m).prs, n))
  {
    hide NsMove, TaskName, CommentsOn, EnvPR, PRMoves, PRNumbered, FindNumber;
    NothingMoves(PRNumbered(w.prs, n));
    if PRMove(m) {
      EnvPRMoves(w, m, n);
    } else if m.OpenPR? && m.number > 0 && FindNumber(w.prs, m.number) < 0 {
      OpenedMoves(w.prs, PullRequest(m.number, m.head, m.url, true, false, [], 0, false), n);
    }
  }

  lemma CallMovesPR(w: World, fault: Fault, lag: nat, drop: nat, n: nat)
    requires Next(w.pc, w.backend).Some?
    ensures PRMoves(PRNumbered(w.prs, n), PRNumbered(Step(w, Op(fault, lag, drop)).prs, n))
  {
    hide OpStep, Next;
    CallOnPRs(w, fault, lag, drop);
    if w.pc.DropLabel? {
      var i := FindNumber(w.prs, w.pc.t.status.prNumber);
      if i >= 0 {
        ReplacePR(w.prs, i, DropLabelFrom(w.prs[i], NEEDS_REVISION), n);
      }
    }
  }

  lemma StepMovesPR(w: World, a: Action, n: nat)
    ensures PRMoves(PRNumbered(w.prs, n), PRNumbered(Step(w, a).prs, n))
  {
    hide OpStep, EnvStep, Next, FindNumber;
    match a
    case Op(fault, lag, drop) =>
      if Next(w.pc, w.backend).Some? {
        CallMovesPR(w, fault, lag, drop, n);
      }
    case Env(m) => EnvMovesPR(w, m, n);
    case _ =>
  }

  // ---------------------------------------------------------------- claims

  /** Pull request `n` exists and its head branch belongs to `issue`. */
  predicate Claims(prs: seq<PullRequest>, n: nat, issue: int) {
    var pr := PRNumbered(prs, n);
    pr.Some? && BranchOf(pr.value.head, issue)
  }

  /** The number Reconcile is about to record, if it is about to. */
  function Candidate(pc: Pc): Option<nat> {
    match pc
    case ReadCreds(_, why) => if why.ToComment? then Some(why.pr.number) else None
    case LookComments(_, pr) => Some(pr.number)
    case PostComment(_, pr) => Some(pr.number)
    case Write(_, s) => if s.phase == AwaitingReview then Some(s.prNumber) else None
    case _ => None
  }

  predicate Owns(w: World, name: string)
    requires name in w.tasks
  {
    var rec := w.tasks[name];
    && |rec.log| > 0
    && (Current(rec).prNumber != 0 ==> Claims(w.prs, Current(rec).prNumber, rec.spec.issue))
    && (Owner(w.pc) == Some(name) && Candidate(w.pc).Some? ==>
          Claims(w.prs, Candidate(w.pc).value, rec.spec.issue))
  }

  lemma ClaimsStay(w: World, a: Action, n: nat, issue: int)
    requires Claims(w.prs, n, issue)
    ensures Claims(Step(w, a).prs, n, issue)
  {
    StepMovesPR(w, a, n);
    hide Step, BranchOf, PRNumbered;
  }

  lemma ListedIsNumbered(prs: seq<PullRequest>, pr: PullRequest)
    requires PRsOk(prs) && pr in prs
    ensures PRNumbered(prs, pr.number) == Some(pr)
  {
    var i :| 0 <= i < |prs| && prs[i] == pr;
    var j := FindNumber(prs, pr.number);
    assert 0 <= j <= i;
  }

  /** A candidate comes from an answer, either by its recorded number or by its head branch. */
  lemma CandidateComes(pc: Pc, r: Response, now: nat)
    requires PcFits(pc)
    requires Candidate(Resume(pc, r, now)).Some?
    requires r.GotPR? || r.GotPRs? ==> pc.LookPR? || pc.LookLabel?
    ensures Candidate(Resume(pc, r, now)) == Candidate(pc)
         || (pc.LookPR? && r.GotPR? && Candidate(Resume(pc, r, now)) == Some(r.pr.number))
         || (pc.LookPR? && r.GotPRs? && FirstMatch(r.prs, pc.t.spec.issue).Some?
             && Candidate(Resume(pc, r, now)) == Some(FirstMatch(r.prs, pc.t.spec.issue).value.number))
  {
    hide NamespaceName, SecretName, BranchOf, AnyMentionsPR, AnyAsksClarification, LastIsHuman, FirstMatch, StatusOk;
  }

  lemma OwnCandidate(w: World, fault: Fault, lag: nat, drop: nat, name: string)
    requires Basic(w) && name in w.tasks && Owns(w, name) && Owner(w.pc) == Some(name) && Next(w.pc, w.backend).Some?
    requires Candidate(Step(w, Op(fault, lag, drop)).pc).Some?
    ensures Claims(w.prs, Candidate(Step(w, Op(fault, lag, drop)).pc).value, w.tasks[name].spec.issue)
  {
    hide Step, Attempt, Next, Resume, PcFits, BranchOf, FindNumber, Claims, TaskName, LogOk;
    var r := Attempt(w, Next(w.pc, w.backend).value, fault, lag, drop).1;
    var rec := w.tasks[name];
    OpGoes(w, fault, lag, drop);
    AnswerFits(w, fault, lag, drop);
    HeldIsOwned(w.pc);
    assert PcOk(w.tasks, w.pc);
    CandidateComes(w.pc, r, w.clock);
    assert RecordOk(w.repo, name, rec);
    if w.pc.LookPR? && r.GotPR? {
      WrittenOnce(rec.log, rec.spec.issue, w.pc.t.version, |rec.log| - 1);
    } else if w.pc.LookPR? && r.GotPRs? {
      MatchClaims(w.prs, r.prs, rec.spec.issue);
    }
  }

  lemma MatchClaims(prs: seq<PullRequest>, listed: seq<PullRequest>, issue: int)
    requires PRsOk(prs) && forall pr :: pr in listed ==> pr in prs
    ensures FirstMatch(listed, issue).Some? ==> Claims(prs, FirstMatch(listed, issue).value.number, issue)
  {
    hide BranchOf;
    var m := FirstMatch(listed, issue);
    hide FirstMatch;
    if m.Some? {
      ListedIsNumbered(prs, m.value);
    }
  }

  lemma CommitClaims(w: World, name: string, s: Status)
    requires Basic(w) && name in w.tasks && Owns(w, name) && Owner(w.pc) == Some(name)
    requires w.pc.Write? && w.pc.status == s && w.pc.t.version == |w.tasks[name].log| - 1
    ensures s.prNumber != 0 ==> Claims(w.prs, s.prNumber, w.tasks[name].spec.issue)
  {
    hide StatusOk, Claims, TasksOk, PRsOk, PhaseEdge;
    assert PcOk(w.tasks, w.pc);
  }

  lemma StepOwns(w: World, a: Action, name: string)
    requires Basic(w) && name in w.tasks && Owns(w, name)
    ensures name in Step(w, a).tasks && Owns(Step(w, a), name)
  {
    hide Step, Basic, Claims, Next, Owner;
    var rec := w.tasks[name];
    var issue := rec.spec.issue;
    var w' := Step(w, a);
    StepCommits(w, a, name);
    if w'.tasks[name].log != rec.log {
      CommitClaims(w, name, w.pc.status);
    }
    if Current(w'.tasks[name]).prNumber != 0 {
      ClaimsStay(w, a, Current(w'.tasks[name]).prNumber, issue);
    }
    if Owner(w'.pc) == Some(name) && Candidate(w'.pc).Some? {
      PcMoves(w, a, name);
      if OwnCall(w, a, name) {
        OwnCandidate(w, a.fault, a.lag, a.drop, name);
      }
      assert Claims(w.prs, Candidate(w'.pc).value, issue);
      ClaimsStay(w, a, Candidate(w'.pc).value, issue);
    }
  }

  lemma BornOwns(w: World, a: Action, name: string)
    requires Basic(w) && Settled(w) && name !in w.tasks && name in Step(w, a).tasks
    ensures Owns(Step(w, a), name)
  {
    hide Step, Basic, Claims, Settled;
    BornNew(w, a, name);
    BasicStep(w, a);
  }

  lemma {:induction false} AllOwn(w: World, actions: seq<Action>, name: string)
    requires Initial(w) && name in Run(w, actions).tasks
    ensures Owns(Run(w, actions), name)
    decreases |actions|
  {
    if actions != [] {
      var front := actions[..|actions| - 1];
      Reachable(w, front);
      if name in Run(w, front).tasks {
        AllOwn(w, front, name);
        StepOwns(Run(w, front), actions[|actions| - 1], name);
      } else {
        BornOwns(Run(w, front), actions[|actions| - 1], name);
      }
      hide Step, Basic, Owns, Settled;
    }
  }

  /** In every run no two tasks ever record the same pull request, and the one a task records
      has a head branch that names the task's issue. */
  lemma PullRequestsAreNotShared(w: World, actions: seq<Action>, name: string, other: string)
    requires Initial(w)
    requires name in Run(w, actions).tasks && other in Run(w, actions).tasks && name != other
    ensures var w' := Run(w, actions);
      && |w'.tasks[name].log| > 0 && |w'.tasks[other].log| > 0
      && var n, m := Current(w'.tasks[name]).prNumber, Current(w'.tasks[other]).prNumber;
         && (n != 0 ==> n != m)
         && (n != 0 ==> Claims(w'.prs, n, w'.tasks[name].spec.issue))
  {
    hide Run, BranchOf, TaskName, LogOk, PcOk, Settled;
    AllOwn(w, actions, name);
    AllOwn(w, actions, other);
    Reachable(w, actions);
    var w' := Run(w, actions);
    assert RecordOk(w'.repo, name, w'.tasks[name]) && RecordOk(w'.repo, other, w'.tasks[other]);
    var n, m := Current(w'.tasks[name]).prNumber, Current(w'.tasks[other]).prNumber;
    if n != 0 && n == m {
      BranchNamesOneIssue(PRNumbered(w'.prs, n).value.head, w'.tasks[name].spec.issue, w'.tasks[other].spec.issue);
    }
  }

  // ---------------------------------------------------------------- what other tasks leave alone

  /** A call made for one task leaves alone the comments on the issue of every other task, and
      the pull request that task has recorded. */
  lemma OthersLeaveGitHubAlone(w: World, actions: seq<Action>, fault: Fault, lag: nat, drop: nat, name: string)
    requires Initial(w)
    requires name in Run(w, actions).tasks && Owner(Run(w, actions).pc) != Some(name)
    ensures var v := Run(w, actions);
      var v' := Step(v, Op(fault, lag, drop));
      && |v.tasks[name].log| > 0
      && CommentsOn(v', v.tasks[name].spec.issue) == CommentsOn(v, v.tasks[name].spec.issue)
      && (Current(v.tasks[name]).prNumber != 0 ==>
            PRNumbered(v'.prs, Current(v.tasks[name]).prNumber) == PRNumbered(v.prs, Current(v.tasks[name]).prNumber))
  {
    hide OpStep, Claims, Run, Next;
    var v := Run(w, actions);
    Reachable(w, actions);
    AllOwn(w, actions, name);
    if Next(v.pc, v.backend).Some? {
      NextNeedsOwner(v.pc, v.backend);
      var other := Owner(v.pc).value;
      assert other in v.tasks;
      PullRequestsAreNotShared(w, actions, name, other);
      hide Next, Basic, Owner, Settled;
      OthersComments(v, fault, lag, drop, name);
      if Current(v.tasks[name]).prNumber != 0 {
        OthersLabel(v, fault, lag, drop, name);
      }
    }
  }

  lemma OthersComments(w: World, fault: Fault, lag: nat, drop: nat, name: string)
    requires Basic(w) && name in w.tasks && Owner(w.pc) != Some(name) && Next(w.pc, w.backend).Some?
    ensures var issue := w.tasks[name].spec.issue;
      CommentsOn(Step(w, Op(fault, lag, drop)), issue) == CommentsOn(w, issue)
  {
    hide Exec, Resume, NamespaceName, PcFits, StatusOk, LogOk, PRsOk;
    var call := Next(w.pc, w.backend).value;
    if call.CreateComment? {
      OnlyWriteUpdates(w.pc, w.backend);
      HeldOk(w);
      HeldIsOwned(w.pc);
      CallsAreAddressed(w.pc, w.backend);
      HomesDiffer(w, name, w.pc.t.name);
    }
    hide Basic, Next, Owner, Held;
    ExecComments(w, call, lag, drop);
  }

  lemma ExecComments(w: World, call: Call, lag: nat, drop: nat)
    ensures Exec(w, call, lag, drop).0.comments ==
      if call.CreateComment? then AddComment(w, call.issue, Comment(Operator, call.body)).comments else w.comments
  {
    hide NsCall, CommentsOn;
  }

  lemma HeldNumberStays(w: World)
    requires Basic(w) && w.pc.DropLabel?
    ensures w.pc.t.name in w.tasks && |w.tasks[w.pc.t.name].log| > 0
    ensures w.pc.t.status.prNumber != 0 && Current(w.tasks[w.pc.t.name]).prNumber == w.pc.t.status.prNumber
  {
    hide RecordOk, LogOk, StatusOk, PRsOk;
    var t := w.pc.t;
    HeldOk(w);
    assert PcOk(w.tasks, w.pc);
    var rec := w.tasks[t.name];
    assert RecordOk(w.repo, t.name, rec);
    NumberWritten(w.repo, t.name, rec, t.version);
  }

  lemma NumberWritten(repo: string, name: string, rec: Record, version: nat)
    requires RecordOk(repo, name, rec) && version < |rec.log| && rec.log[version].phase == AwaitingRevision
    ensures rec.log[version].prNumber != 0 && Current(rec).prNumber == rec.log[version].prNumber
  {
    hide TaskName, StatusEdge;
    assert StatusOk(rec.log[version], rec.spec.issue);
    WrittenOnce(rec.log, rec.spec.issue, version, |rec.log| - 1);
  }

  lemma NumberKept(prs: seq<PullRequest>, n: nat)
    ensures var i := FindNumber(prs, n);
      i >= 0 ==> DropLabelFrom(prs[i], NEEDS_REVISION).number == n
  {
  }

  lemma OthersLabel(w: World, fault: Fault, lag: nat, drop: nat, name: string)
    requires Basic(w) && name in w.tasks && Owner(w.pc) != Some(name) && Next(w.pc, w.backend).Some?
    requires |w.tasks[name].log| > 0 && Current(w.tasks[name]).prNumber != 0
    requires Owner(w.pc).value in w.tasks && |w.tasks[Owner(w.pc).value].log| > 0
    requires Current(w.tasks[Owner(w.pc).value]).prNumber != Current(w.tasks[name]).prNumber
    ensures var n := Current(w.tasks[name]).prNumber;
      PRNumbered(Step(w, Op(fault, lag, drop)).prs, n) == PRNumbered(w.prs, n)
  {
    hide OpStep, Next, Basic, FindNumber, PRNumbered, DropLabelFrom;
    CallOnPRs(w, fault, lag, drop);
    if w.pc.DropLabel? {
      var t := w.pc.t;
      HeldIsOwned(w.pc);
      HeldNumberStays(w);
      var i := FindNumber(w.prs, t.status.prNumber);
      if i >= 0 {
        NumberKept(w.prs, t.status.prNumber);
        ReplacePR(w.prs, i, DropLabelFrom(w.prs[i], NEEDS_REVISION), Current(w.tasks[name]).prNumber);
      }
    }
  }

  // ---------------------------------------------------------------- revision pods

  predicate RevisionNumbered(v: View) {
    && |v.rec.log| > 0
    && (PodOf(v.ns, RevSlot).Some? ==>
          PodOf(v.ns, RevSlot).value.prNumber == Current(v.rec).prNumber > 0)
  }

  lemma HeldNumber(v: View)
    requires Fits(v) && Held(v.pc).Some?
    ensures var t := Held(v.pc).value;
      && |v.rec.log| > 0
      && (t.status.prNumber != 0 ==> t.status.prNumber == Current(v.rec).prNumber)
      && (t.status.phase == AwaitingRevision ==> t.status.prNumber > 0)
  {
    hide PcFits, StatusEdge;
    var t := Held(v.pc).value;
    assert StatusOk(t.status, t.spec.issue);
    if t.status.prNumber != 0 {
      WrittenOnce(v.rec.log, v.rec.spec.issue, t.version, |v.rec.log| - 1);
    }
  }

  lemma CallNumbers(v: View, b: Backend, took: bool)
    requires Fits(v) && RevisionNumbered(v) && Next(v.pc, b).Some?
    ensures PodOf(NsAfter(v, b, took), RevSlot).Some? ==>
              PodOf(NsAfter(v, b, took), RevSlot).value.prNumber == Current(v.rec).prNumber > 0
  {
    hide LogOk, NamespaceName, SecretName;
    if Held(v.pc).Some? {
      HeldNumber(v);
    }
  }

  lemma MoveNumbers(v: View, b: Backend, mv: Move)
    requires Fits(v) && RevisionNumbered(v) && Possible(v, b, mv)
    ensures RevisionNumbered(Proceed(v, b, mv))
  {
    hide Resume, Sensible, LogOk, StatusOk, PhaseEdge;
    match mv
    case Called(r, took, now) =>
      CallNumbers(v, b, took);
      if v.pc.Write? {
        HeldNumber(v);
      }
      hide Next, NsAfter;
    case _ =>
      hide Fits;
  }

  /** Whatever the faults, every revision pod was built for the pull request the task recorded. */
  lemma RevisionPodsKnowTheirPR(w: World, actions: seq<Action>, name: string)
    requires Initial(w) && name in Run(w, actions).tasks
    ensures var w' := Run(w, actions);
      && |w'.tasks[name].log| > 0
      && var pod := PodOf(NsOf(w', name), RevSlot);
         pod.Some? ==> pod.value.prNumber == Current(w'.tasks[name]).prNumber > 0
  {
    hide Run, Fits, Possible, Proceed;
    forall v: View, b: Backend, mv: Move | Fits(v) && RevisionNumbered(v) && Possible(v, b, mv)
      ensures RevisionNumbered(Proceed(v, b, mv))
    {
      MoveNumbers(v, b, mv);
    }
    Always(RevisionNumbered, false, w, actions, name);
  }
}
