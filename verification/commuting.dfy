/** Attempts made for two tasks commute: an attempt depends on, and changes, nothing of the world
    but its task's part, GitHub included. */
module Commuting {
  import opened Names
  import opened Model
  import opened Machine
  import opened Base
  import opened History
  import opened Isolation
  import opened Invariants
  import opened Ownership

  // ---------------------------------------------------------------- a task's part of the world

  function TalkOf(w: World, issue: int): Option<seq<Comment>> {
    if issue in w.comments then Some(w.comments[issue]) else None
  }

  function Unlabelled(pr: PullRequest): PullRequest {
    pr.(labels := [], labelings := 0)
  }

  /** The same pull requests up to labels, and with the same labels where `mine` says so. */
  ghost predicate SamePRs(prs: seq<PullRequest>, prs': seq<PullRequest>, mine: string -> bool) {
    && |prs| == |prs'|
    && (forall i :: 0 <= i < |prs| ==> Unlabelled(prs[i]) == Unlabelled(prs'[i]))
    && (forall i :: 0 <= i < |prs| && mine(prs[i].head) ==> prs[i] == prs'[i])
  }

  ghost predicate SamePRsOf(prs: seq<PullRequest>, prs': seq<PullRequest>, issue: int) {
    SamePRs(prs, prs', head => BranchOf(head, issue))
  }

  ghost predicate SameOtherPRs(prs: seq<PullRequest>, prs': seq<PullRequest>, issue: int) {
    SamePRs(prs, prs', head => !BranchOf(head, issue))
  }

  predicate SameSetting(w: World, w': World) {
    w'.repo == w.repo && w'.backend == w.backend && w'.clock == w.clock && w'.creds == w.creds
  }

  /** The two worlds agree on the record, the namespace, the issue and the pull requests of the
      task, and on whether it is queued. */
  ghost predicate LooksSame(w: World, w': World, name: string) {
    && SameSetting(w, w')
    && name in w.tasks && name in w'.tasks && w'.tasks[name] == w.tasks[name]
    && NsOf(w', name) == NsOf(w, name)
    && TalkOf(w', w.tasks[name].spec.issue) == TalkOf(w, w.tasks[name].spec.issue)
    && SamePRsOf(w.prs, w'.prs, w.tasks[name].spec.issue)
    && (name in w'.queue <==> name in w.queue)
  }

  /** The two worlds agree on everything else. */
  ghost predicate OnlyTouches(w: World, w': World, name: string) {
    && SameSetting(w, w')
    && name in w.tasks && w'.tasks.Keys == w.tasks.Keys && w'.tasks[name].spec == w.tasks[name].spec
    && (forall c :: c in w.tasks && c != name ==> w'.tasks[c] == w.tasks[c])
    && (forall ns :: ns != Home(w, name) ==> Lookup(w', ns) == Lookup(w, ns))
    && (forall issue :: issue != w.tasks[name].spec.issue ==> TalkOf(w', issue) == TalkOf(w, issue))
    && SameOtherPRs(w.prs, w'.prs, w.tasks[name].spec.issue)
    && (forall c :: c != name ==> (c in w'.queue <==> c in w.queue))
  }

  // ---------------------------------------------------------------- pull requests

  lemma SameFind(prs: seq<PullRequest>, prs': seq<PullRequest>, mine: string -> bool, n: nat)
    requires SamePRs(prs, prs', mine)
    ensures FindNumber(prs', n) == FindNumber(prs, n)
  {
    SameNumbers(prs, prs', n);
  }

  lemma SameBoth(a: seq<PullRequest>, a': seq<PullRequest>, b: seq<PullRequest>, b': seq<PullRequest>,
                 mine: string -> bool)
    requires SamePRs(a, a', mine) && SamePRs(b, b', mine)
    ensures SamePRs(a + b, a' + b', mine)
  {
  }

  lemma SameFirst(prs: seq<PullRequest>, prs': seq<PullRequest>, mine: string -> bool)
    requires SamePRs(prs, prs', mine) && prs != []
    ensures prs' != [] && prs'[0].open == prs[0].open
    ensures SamePRs([prs[0]], [prs'[0]], mine) && SamePRs(prs[1..], prs'[1..], mine)
  {
    assert Unlabelled(prs[0]) == Unlabelled(prs'[0]);
  }

  lemma {:induction false} SameOpen(prs: seq<PullRequest>, prs': seq<PullRequest>, mine: string -> bool)
    requires SamePRs(prs, prs', mine)
    ensures SamePRs(OpenOnes(prs), OpenOnes(prs'), mine)
  {
    if prs != [] {
      SameFirst(prs, prs', mine);
      SameOpen(prs[1..], prs'[1..], mine);
      SameBoth([prs[0]], [prs'[0]], OpenOnes(prs[1..]), OpenOnes(prs'[1..]), mine);
      assert [] + OpenOnes(prs[1..]) == OpenOnes(prs[1..]) && [] + OpenOnes(prs'[1..]) == OpenOnes(prs'[1..]);
      hide SamePRs;
    } else {
      assert prs' == [];
    }
  }

  lemma {:induction false} SameMatch(prs: seq<PullRequest>, prs': seq<PullRequest>, issue: int)
    requires SamePRsOf(prs, prs', issue)
    ensures FirstMatch(prs', issue) == FirstMatch(prs, issue)
  {
    hide BranchOf;
    if prs != [] {
      assert Unlabelled(prs[0]) == Unlabelled(prs'[0]);
      SameMatch(prs[1..], prs'[1..], issue);
    }
  }

  lemma SamePage(prs: seq<PullRequest>, prs': seq<PullRequest>, mine: string -> bool, drop: nat)
    requires SamePRs(prs, prs', mine)
    ensures SamePRs(Page(prs, drop), Page(prs', drop), mine)
  {
  }

  /** What findPRForTask makes of a page of the open pull requests is the same in both worlds. */
  lemma SameListing(prs: seq<PullRequest>, prs': seq<PullRequest>, issue: int, drop: nat)
    requires SamePRsOf(prs, prs', issue)
    ensures FirstMatch(Page(OpenOnes(prs'), drop), issue) == FirstMatch(Page(OpenOnes(prs), drop), issue)
  {
    hide BranchOf, FirstMatch, Page, SamePRs, OpenOnes;
    var mine := head => BranchOf(head, issue);
    SameOpen(prs, prs', mine);
    SamePage(OpenOnes(prs), OpenOnes(prs'), mine, drop);
    SameMatch(Page(OpenOnes(prs), drop), Page(OpenOnes(prs'), drop), issue);
  }

  // ---------------------------------------------------------------- one call

  ghost predicate Sound(w: World, name: string) {
    Basic(w) && name in w.tasks && Owns(w, name)
  }

  /** The pull request that Reconcile asks for by number is one of its issue. */
  lemma HeldNumberClaims(w: World, name: string)
    requires Sound(w, name) && Held(w.pc).Some? && Owner(w.pc) == Some(name)
    ensures var t := Held(w.pc).value;
      t.status.prNumber != 0 ==> Claims(w.prs, t.status.prNumber, w.tasks[name].spec.issue)
  {
    hide PRsOk, PcFits, LogOk, Claims, TaskName;
    var t, rec := Held(w.pc).value, w.tasks[name];
    HeldIsOwned(w.pc);
    assert PcOk(w.tasks, w.pc);
    assert RecordOk(w.repo, name, rec);
    LogLength(rec.log, rec.spec.issue);
    if t.status.prNumber != 0 {
      WrittenOnce(rec.log, rec.spec.issue, t.version, |rec.log| - 1);
    }
  }

  lemma LogLength(log: seq<Status>, issue: int)
    requires LogOk(log, issue)
    ensures |log| > 0
  {
  }

  /** Reconcile's call is addressed to its task, by whatever it is addressed. */
  predicate OwnAddress(w: World, name: string, call: Call)
    requires name in w.tasks
  {
    var issue := w.tasks[name].spec.issue;
    && (OnCluster(call) ==> call.ns == Home(w, name))
    && (call.ListComments? || call.CreateComment? ==> call.issue == issue)
    && (OnTask(call) ==> call.name == name)
    && (call.GetPR? || call.RemoveLabel? ==> Claims(w.prs, call.number, issue))
  }

  lemma OwnCallsAreAddressed(w: World, name: string)
    requires Sound(w, name) && Owner(w.pc) == Some(name) && Next(w.pc, w.backend).Some?
    ensures OwnAddress(w, name, Next(w.pc, w.backend).value)
  {
    if Held(w.pc).Some? {
      HeldOk(w);
      HeldIsOwned(w.pc);
      assert PcOk(w.tasks, w.pc);
      CallsAreAddressed(w.pc, w.backend);
      HeldNumberClaims(w, name);
      NumbersAreAsked(w.pc, w.backend);
      hide Next, PcFits, StatusOk, TasksOk, Claims, NamespaceName, PRsOk, Held, Owner;
    } else {
      OnlyFetchHoldsNothing(w.pc, w.backend);
      hide NamespaceName, Claims;
    }
  }

  lemma OnlyFetchHoldsNothing(pc: Pc, backend: Backend)
    requires Next(pc, backend).Some? && Held(pc).None?
    ensures pc.Fetch?
  {
    hide NamespaceName, SecretName;
  }

  lemma NumbersAreAsked(pc: Pc, backend: Backend)
    requires Next(pc, backend).Some? && PcFits(pc) && Held(pc).Some?
    requires StatusOk(Held(pc).value.status, Held(pc).value.spec.issue)
    ensures var call := Next(pc, backend).value;
      call.GetPR? || call.RemoveLabel? ==> Held(pc).value.status.prNumber != 0
  {
    hide NamespaceName, SecretName, BuildPod;
  }

  lemma RemovalTouches(w: World, n: nat, tag: string, lag: nat, drop: nat, name: string)
    requires name in w.tasks && Claims(w.prs, n, w.tasks[name].spec.issue)
    ensures OnlyTouches(w, Exec(w, RemoveLabel(n, tag), lag, drop).0, name)
  {
    hide NamespaceName, BranchOf, FindNumber, Without;
  }

  lemma ClusterTouches(w: World, call: Call, lag: nat, drop: nat, name: string)
    requires name in w.tasks && OwnAddress(w, name, call) && OnCluster(call)
    ensures OnlyTouches(w, Exec(w, call, lag, drop).0, name)
  {
    hide NsCall, NamespaceName, SameOtherPRs, ExecTask, ExecGitHub, Claims;
    NoPRsTouched(w.prs, w.tasks[name].spec.issue);
  }

  lemma ExecTouches(w: World, call: Call, lag: nat, drop: nat, name: string)
    requires name in w.tasks && OwnAddress(w, name, call)
    ensures OnlyTouches(w, Exec(w, call, lag, drop).0, name)
  {
    hide ExecCluster, NamespaceName, SameOtherPRs, FindNumber, Claims;
    NoPRsTouched(w.prs, w.tasks[name].spec.issue);
    if OnCluster(call) {
      hide Exec, OnlyTouches;
      ClusterTouches(w, call, lag, drop, name);
    } else if call.RemoveLabel? {
      hide Exec, OnlyTouches;
      RemovalTouches(w, call.number, call.tag, lag, drop, name);
    }
  }

  lemma NoPRsTouched(prs: seq<PullRequest>, issue: int)
    ensures SameOtherPRs(prs, prs, issue)
  {
    hide BranchOf;
  }

  lemma NothingTouched(w: World, name: string)
    requires name in w.tasks
    ensures OnlyTouches(w, w, name)
  {
    hide BranchOf, NamespaceName;
  }

  /** A call made for a task touches that task's part of the world and nothing else. */
  lemma CallTouches(w: World, fault: Fault, lag: nat, drop: nat, name: string)
    requires Sound(w, name) && Owner(w.pc) == Some(name) && Next(w.pc, w.backend).Some?
    ensures OnlyTouches(w, Step(w, Op(fault, lag, drop)), name)
  {
    hide Exec, Next, Resume, Basic, Owns, NamespaceName, SameOtherPRs, OwnAddress;
    var call := Next(w.pc, w.backend).value;
    OwnCallsAreAddressed(w, name);
    ExecTouches(w, call, lag, drop, name);
    NothingTouched(w, name);
    FailureIsOwn(w, name);
  }

  lemma FailureIsOwn(w: World, name: string)
    requires Owner(w.pc) == Some(name)
    ensures w.pc.DropLabel? || w.pc.ReadCreds? ==> w.pc.t.name == name
  {
  }

  /** The answers agree in all that Reconcile goes by. */
  predicate SameAnswer(r: Response, r': Response, issue: int) {
    r' == r || (r.GotPRs? && r'.GotPRs? && FirstMatch(r'.prs, issue) == FirstMatch(r.prs, issue))
  }

  lemma SameAnswerSameWay(pc: Pc, r: Response, r': Response, now: nat, issue: int)
    requires SameAnswer(r, r', issue) && (r.GotPRs? ==> pc.LookPR? && pc.t.spec.issue == issue)
    ensures Resume(pc, r', now) == Resume(pc, r, now)
    ensures RemovalFailed(pc, r') == RemovalFailed(pc, r)
  {
    if r' != r {
      hide FirstMatch;
    }
  }

  lemma SamePRFound(w: World, w': World, name: string, n: nat)
    requires LooksSame(w, w', name) && (FindNumber(w.prs, n) >= 0 ==> Claims(w.prs, n, w.tasks[name].spec.issue))
    ensures var i := FindNumber(w.prs, n);
      FindNumber(w'.prs, n) == i && (i >= 0 ==> i < |w'.prs| && w'.prs[i] == w.prs[i])
  {
    hide NamespaceName, BranchOf, FindNumber;
    SameFind(w.prs, w'.prs, head => BranchOf(head, w.tasks[name].spec.issue), n);
  }

  lemma ExecAnswersSame(w: World, w': World, call: Call, lag: nat, drop: nat, name: string)
    requires LooksSame(w, w', name) && OwnAddress(w, name, call)
    ensures SameAnswer(Exec(w, call, lag, drop).1, Exec(w', call, lag, drop).1, w.tasks[name].spec.issue)
  {
    hide NsCall, NamespaceName, FirstMatch, BranchOf, FindNumber, OpenOnes, Page, CredsOf, Claims, SamePRsOf;
    if call.GetPR? || call.RemoveLabel? {
      SamePRFound(w, w', name, call.number);
    } else if call.ListOpenPRs? {
      SameListing(w.prs, w'.prs, w.tasks[name].spec.issue, drop);
    }
  }

  /** On pull requests by itself, to keep the rest cheap. */
  lemma RemovalLooksSame(w: World, w': World, n: nat, tag: string, lag: nat, drop: nat, name: string)
    requires LooksSame(w, w', name) && Claims(w.prs, n, w.tasks[name].spec.issue)
    ensures LooksSame(Exec(w, RemoveLabel(n, tag), lag, drop).0, Exec(w', RemoveLabel(n, tag), lag, drop).0, name)
  {
    hide NamespaceName, BranchOf, FindNumber, Claims, Without;
    SamePRFound(w, w', name, n);
  }

  lemma ExecLooksSame(w: World, w': World, call: Call, lag: nat, drop: nat, name: string)
    requires LooksSame(w, w', name) && OwnAddress(w, name, call)
    ensures LooksSame(Exec(w, call, lag, drop).0, Exec(w', call, lag, drop).0, name)
  {
    hide NsCall, NamespaceName, SamePRsOf, Claims, FindNumber;
    if call.RemoveLabel? {
      hide LooksSame, Exec;
      RemovalLooksSame(w, w', call.number, call.tag, lag, drop, name);
    }
  }

  lemma AttemptLooksSame(w: World, w': World, call: Call, fault: Fault, lag: nat, drop: nat, name: string)
    requires LooksSame(w, w', name) && OwnAddress(w, name, call)
    ensures LooksSame(Attempt(w, call, fault, lag, drop).0, Attempt(w', call, fault, lag, drop).0, name)
    ensures SameAnswer(Attempt(w, call, fault, lag, drop).1, Attempt(w', call, fault, lag, drop).1,
                       w.tasks[name].spec.issue)
  {
    hide Exec, LooksSame, OwnAddress, SameAnswer;
    IsStored(w, w', name);
    ExecLooksSame(w, w', call, lag, drop, name);
    ExecAnswersSame(w, w', call, lag, drop, name);
    SameErrors(w.tasks[name].spec.issue);
  }

  lemma IsStored(w: World, w': World, name: string)
    requires LooksSame(w, w', name)
    ensures name in w.tasks
  {
  }

  /** The count of failed removals goes up in both or in neither. */
  lemma CountLooksSame(w: World, w': World, pc: Pc, r: Response, r': Response, next: Pc, name: string)
    requires LooksSame(w, w', name) && RemovalFailed(pc, r') == RemovalFailed(pc, r)
    requires pc.DropLabel? || pc.ReadCreds? ==> pc.t.name == name
    ensures LooksSame(CountFailure(w, pc, r).(pc := next), CountFailure(w', pc, r').(pc := next), name)
  {
    hide NamespaceName, SamePRsOf;
  }

  /** One call for a task, made in two worlds that look the same to it: they look the same
      afterwards, and Reconcile has gone the same way. */
  lemma CallLooksSame(w: World, w': World, fault: Fault, lag: nat, drop: nat, name: string)
    requires Sound(w, name) && Owner(w.pc) == Some(name) && Next(w.pc, w.backend).Some?
    requires LooksSame(w, w', name) && w'.pc == w.pc
    ensures var a := Op(fault, lag, drop);
      LooksSame(Step(w, a), Step(w', a), name) && Step(w', a).pc == Step(w, a).pc
  {
    hide Attempt, Next, Resume, Sound, LooksSame, OwnAddress, RemovalFailed, SameAnswer, CountFailure;
    IsStored(w, w', name);
    SameBackends(w, w', name);
    var call := Next(w.pc, w.backend).value;
    var r, r' := Attempt(w, call, fault, lag, drop).1, Attempt(w', call, fault, lag, drop).1;
    OwnCallsAreAddressed(w, name);
    AttemptLooksSame(w, w', call, fault, lag, drop, name);
    ListingsAreForPRs(w, fault, lag, drop, name);
    SameAnswerSameWay(w.pc, r, r', w.clock, w.tasks[name].spec.issue);
    FailureIsOwn(w, name);
    CountLooksSame(Attempt(w, call, fault, lag, drop).0, Attempt(w', call, fault, lag, drop).0, w.pc, r, r',
                   Resume(w.pc, r, w.clock), name);
  }

  lemma SameErrors(issue: int)
    ensures SameAnswer(OtherError, OtherError, issue)
  {
  }

  lemma ListingsAreForPRs(w: World, fault: Fault, lag: nat, drop: nat, name: string)
    requires Sound(w, name) && Owner(w.pc) == Some(name) && Next(w.pc, w.backend).Some?
    ensures Attempt(w, Next(w.pc, w.backend).value, fault, lag, drop).1.GotPRs? ==>
      w.pc.LookPR? && w.pc.t.spec.issue == w.tasks[name].spec.issue
  {
    hide Attempt, Next, PRsOk, TasksOk, PcFits, Owns;
    AnswerFits(w, fault, lag, drop);
    HeldIsOwned(w.pc);
    assert PcOk(w.tasks, w.pc);
  }

  // ---------------------------------------------------------------- attempts

  /** What the worker does for a task: it takes it up, makes calls with whatever fates they meet,
      and lets go of it. */
  predicate WorkFor(actions: seq<Action>, name: string) {
    forall i :: 0 <= i < |actions| ==> actions[i].Op? || actions[i] == Start(name) || actions[i] == Retire
  }

  /** The worker is at nothing, or at the task. */
  predicate OnlyFor(w: World, name: string) {
    w.pc == Idle || Owner(w.pc) == Some(name)
  }

  lemma TouchesMore(w: World, w1: World, w2: World, name: string)
    requires OnlyTouches(w, w1, name) && OnlyTouches(w1, w2, name)
    ensures OnlyTouches(w, w2, name)
  {
    hide NamespaceName, BranchOf;
    assert forall i :: 0 <= i < |w.prs| ==> Unlabelled(w1.prs[i]) == Unlabelled(w.prs[i]);
  }

  /** What one step of an attempt keeps: that only the task's part is touched, and that two worlds
      which look the same go on to. */
  lemma StepOfAttempt(w: World, w': World, a: Action, name: string)
    requires Sound(w, name) && OnlyFor(w, name) && (a.Op? || a == Start(name) || a == Retire)
    ensures Sound(Step(w, a), name) && OnlyFor(Step(w, a), name) && OnlyTouches(w, Step(w, a), name)
    ensures LooksSame(w, w', name) && w'.pc == w.pc ==>
      LooksSame(Step(w, a), Step(w', a), name) && Step(w', a).pc == Step(w, a).pc
  {
    hide Basic, Owns, OpStep, Next, NamespaceName, SamePRsOf, SameOtherPRs, Owner;
    BasicStep(w, a);
    StepOwns(w, a, name);
    NothingTouched(w, name);
    IdleIsFree(w.pc, w.backend, name);
    match a
    case Op(fault, lag, drop) =>
      if Next(w.pc, w.backend).Some? {
        hide OnlyTouches, LooksSame;
        CallTouches(w, fault, lag, drop, name);
        OwnerKept(w, fault, lag, drop);
        if LooksSame(w, w', name) && w'.pc == w.pc {
          SameBackends(w, w', name);
          CallLooksSame(w, w', fault, lag, drop, name);
        }
      } else if LooksSame(w, w', name) {
        SameBackends(w, w', name);
      }
    case _ =>
  }

  lemma SameBackends(w: World, w': World, name: string)
    requires LooksSame(w, w', name)
    ensures w'.backend == w.backend && w'.clock == w.clock
  {
  }

  lemma IdleIsFree(pc: Pc, backend: Backend, name: string)
    ensures Owner(Fetch(name)) == Some(name) && (pc == Idle ==> Next(pc, backend).None?)
    ensures pc.Done? && Owner(pc) == Some(name) ==> pc.name == name
  {
  }

  lemma OwnerKept(w: World, fault: Fault, lag: nat, drop: nat)
    requires Basic(w) && Next(w.pc, w.backend).Some?
    ensures Owner(Step(w, Op(fault, lag, drop)).pc) == Owner(w.pc)
  {
    hide Step, Basic, Attempt, Resume, Next, Owner, Held;
    OpGoes(w, fault, lag, drop);
    AnswerFits(w, fault, lag, drop);
    ResumeHolds(w.pc, Attempt(w, Next(w.pc, w.backend).value, fault, lag, drop).1, w.clock);
  }

  lemma {:induction false} WorkRuns(w: World, w': World, actions: seq<Action>, name: string)
    requires Sound(w, name) && OnlyFor(w, name) && WorkFor(actions, name)
    ensures Sound(Run(w, actions), name) && OnlyFor(Run(w, actions), name) && OnlyTouches(w, Run(w, actions), name)
    ensures LooksSame(w, w', name) && w'.pc == w.pc ==>
      LooksSame(Run(w, actions), Run(w', actions), name) && Run(w', actions).pc == Run(w, actions).pc
    decreases |actions|
  {
    hide Sound, OnlyFor, OnlyTouches, LooksSame, Step;
    if actions == [] {
      HasTask(w, name);
      NothingTouched(w, name);
    } else {
      var front, a := actions[..|actions| - 1], actions[|actions| - 1];
      WorkRuns(w, w', front, name);
      StepOfAttempt(Run(w, front), Run(w', front), a, name);
      TouchesMore(w, Run(w, front), Step(Run(w, front), a), name);
    }
  }

  lemma HasTask(w: World, name: string)
    requires Sound(w, name)
    ensures name in w.tasks
  {
  }

  // ---------------------------------------------------------------- two tasks

  /** What is done for one task is not seen by another. */
  lemma OthersSeeNothing(w: World, w': World, name: string, other: string)
    requires Basic(w) && other in w.tasks && other != name && OnlyTouches(w, w', name)
    ensures LooksSame(w, w', other)
  {
    hide NamespaceName, TaskName, LogOk, PcOk, PRsOk, BranchOf;
    HomesDiffer(w, name, other);
    assert RecordOk(w.repo, name, w.tasks[name]) && RecordOk(w.repo, other, w.tasks[other]);
    var n, m := w.tasks[name].spec.issue, w.tasks[other].spec.issue;
    forall head: string ensures !(BranchOf(head, n) && BranchOf(head, m)) {
      if BranchOf(head, n) && BranchOf(head, m) {
        BranchNamesOneIssue(head, n, m);
      }
    }
  }

  lemma BothLookSame(w: World, w1: World, w2: World, name: string)
    requires LooksSame(w, w1, name) && LooksSame(w, w2, name)
    ensures LooksSame(w1, w2, name)
  {
    hide NamespaceName, BranchOf;
    assert forall i :: 0 <= i < |w.prs| ==> Unlabelled(w1.prs[i]) == Unlabelled(w.prs[i]);
  }

  lemma SameTasks(w: World, w1: World, w2: World, wa: World, wb: World, a: string, b: string)
    requires OnlyTouches(w, wa, a) && OnlyTouches(wa, w1, b) && OnlyTouches(w, wb, b) && OnlyTouches(wb, w2, a)
    requires LooksSame(w1, w2, a) && LooksSame(w1, w2, b)
    ensures w1.tasks == w2.tasks && w1.queue == w2.queue
  {
    hide NamespaceName, SamePRsOf, SameOtherPRs;
    forall c | c in w1.tasks ensures c in w2.tasks && w1.tasks[c] == w2.tasks[c] {
    }
    assert forall c :: c in w1.queue <==> c in w2.queue;
  }

  lemma SameCluster(w: World, w1: World, w2: World, wa: World, wb: World, a: string, b: string)
    requires OnlyTouches(w, wa, a) && OnlyTouches(wa, w1, b) && OnlyTouches(w, wb, b) && OnlyTouches(wb, w2, a)
    requires LooksSame(w1, w2, a) && LooksSame(w1, w2, b)
    ensures w1.cluster == w2.cluster
  {
    hide NamespaceName, SamePRsOf, SameOtherPRs, TalkOf;
    forall ns ensures Lookup(w1, ns) == Lookup(w2, ns) {
    }
    assert forall ns :: Lookup(w1, ns).Some? <==> ns in w1.cluster;
    assert forall ns :: Lookup(w2, ns).Some? <==> ns in w2.cluster;
  }

  lemma SameComments(w: World, w1: World, w2: World, wa: World, wb: World, a: string, b: string)
    requires OnlyTouches(w, wa, a) && OnlyTouches(wa, w1, b) && OnlyTouches(w, wb, b) && OnlyTouches(wb, w2, a)
    requires LooksSame(w1, w2, a) && LooksSame(w1, w2, b)
    ensures w1.comments == w2.comments
  {
    hide NamespaceName, SamePRsOf, SameOtherPRs, Lookup;
    forall issue ensures TalkOf(w1, issue) == TalkOf(w2, issue) {
    }
    TalkIsAll(w1, w2);
  }

  lemma TalkIsAll(w1: World, w2: World)
    requires forall issue :: TalkOf(w1, issue) == TalkOf(w2, issue)
    ensures w1.comments == w2.comments
  {
    forall issue ensures issue in w1.comments <==> issue in w2.comments {
      assert TalkOf(w1, issue) == TalkOf(w2, issue);
    }
    forall issue | issue in w1.comments ensures w1.comments[issue] == w2.comments[issue] {
      assert TalkOf(w1, issue) == TalkOf(w2, issue);
    }
  }

  lemma SamePRsAll(w: World, w1: World, w2: World, wa: World, wb: World, a: string, b: string)
    requires OnlyTouches(w, wa, a) && OnlyTouches(wa, w1, b) && OnlyTouches(w, wb, b) && OnlyTouches(wb, w2, a)
    requires LooksSame(w1, w2, a) && LooksSame(w1, w2, b)
    ensures w1.prs == w2.prs
  {
    hide NamespaceName, BranchOf;
    var n, m := w.tasks[a].spec.issue, w.tasks[b].spec.issue;
    forall i | 0 <= i < |w1.prs| ensures w1.prs[i] == w2.prs[i] {
      assert Unlabelled(w.prs[i]) == Unlabelled(wa.prs[i]) == Unlabelled(w1.prs[i]);
      assert Unlabelled(w.prs[i]) == Unlabelled(wb.prs[i]);
    }
  }

  /** Attempts made for two tasks commute, whatever their calls meet with: from any reachable world
      the same world comes out, GitHub, histories and queue included. */
  lemma AttemptsCommute(w0: World, before: seq<Action>, a: string, b: string, forA: seq<Action>, forB: seq<Action>)
    requires Initial(w0) && a != b && WorkFor(forA, a) && WorkFor(forB, b)
    requires var w := Run(w0, before);
      && a in w.tasks && b in w.tasks && w.pc == Idle
      && Run(w, forA).pc == Idle && Run(w, forB).pc == Idle
    ensures var w := Run(w0, before); Run(w, forA + forB) == Run(w, forB + forA)
  {
    hide Run, Step, Basic, Owns, Settled, OnlyTouches, LooksSame;
    var w := Run(w0, before);
    var wa, wb := Run(w, forA), Run(w, forB);
    var wab, wba := Run(wa, forB), Run(wb, forA);
    RunInTwo(w, forA, forB);
    RunInTwo(w, forB, forA);
    SoundWhenReached(w0, before, a);
    SoundWhenReached(w0, before, b);
    WorkRuns(w, wb, forA, a);
    WorkRuns(w, wa, forB, b);
    OthersSeeNothing(w, wa, a, b);
    OthersSeeNothing(w, wb, b, a);
    RunInTwo(w0, before, forA);
    RunInTwo(w0, before, forB);
    StillStored(w, wa, a, b);
    StillStored(w, wb, b, a);
    SoundWhenReached(w0, before + forA, b);
    SoundWhenReached(w0, before + forB, a);
    WorkRuns(wa, wa, forB, b);
    WorkRuns(wb, wb, forA, a);
    OthersSeeNothing(wa, wab, b, a);
    OthersSeeNothing(wb, wba, a, b);
    BothLookSame(wa, wab, wba, a);
    BothLookSame(wb, wab, wba, b);
    SameTasks(w, wab, wba, wa, wb, a, b);
    SameCluster(w, wab, wba, wa, wb, a, b);
    SameComments(w, wab, wba, wa, wb, a, b);
    SamePRsAll(w, wab, wba, wa, wb, a, b);
    SettingsAgree(wab, wba, a);
  }

  lemma SoundWhenReached(w0: World, before: seq<Action>, name: string)
    requires Initial(w0) && name in Run(w0, before).tasks
    ensures Sound(Run(w0, before), name)
  {
    hide Run, Basic, Owns, Settled;
    Reachable(w0, before);
    AllOwn(w0, before, name);
  }

  lemma StillStored(w: World, w': World, name: string, other: string)
    requires OnlyTouches(w, w', name) && other in w.tasks
    ensures name in w'.tasks && other in w'.tasks
  {
  }

  lemma SettingsAgree(w1: World, w2: World, name: string)
    requires LooksSame(w1, w2, name)
    ensures SameSetting(w1, w2)
  {
  }

  /** A call made for one task does not change what another task's search for its pull request
      finds on any page of the open ones. */
  lemma OthersLeaveListingAlone(w0: World, before: seq<Action>, fault: Fault, lag: nat, drop: nat,
                                name: string, page: nat)
    requires Initial(w0) && name in Run(w0, before).tasks && Owner(Run(w0, before).pc) != Some(name)
    ensures var w := Run(w0, before);
      var w' := Step(w, Op(fault, lag, drop));
      var issue := w.tasks[name].spec.issue;
      FirstMatch(Page(OpenOnes(w'.prs), page), issue) == FirstMatch(Page(OpenOnes(w.prs), page), issue)
  {
    hide Run, OpStep, Basic, Owns, OnlyTouches, LooksSame, FirstMatch, OpenOnes, Page, Next, Settled;
    var w := Run(w0, before);
    Reachable(w0, before);
    if Next(w.pc, w.backend).Some? {
      NextNeedsOwner(w.pc, w.backend);
      OwnerIsStored(w);
      var other := Owner(w.pc).value;
      SoundWhenReached(w0, before, other);
      CallTouches(w, fault, lag, drop, other);
      OthersSeeNothing(w, Step(w, Op(fault, lag, drop)), other, name);
      PRsLookSame(w, Step(w, Op(fault, lag, drop)), name);
      SameListing(w.prs, Step(w, Op(fault, lag, drop)).prs, w.tasks[name].spec.issue, page);
    }
  }

  lemma OwnerIsStored(w: World)
    requires Basic(w)
    ensures Owner(w.pc).Some? ==> Owner(w.pc).value in w.tasks
  {
    hide TasksOk, PRsOk, PcFits;
  }

  lemma PRsLookSame(w: World, w': World, name: string)
    requires LooksSame(w, w', name)
    ensures name in w.tasks && SamePRsOf(w.prs, w'.prs, w.tasks[name].spec.issue)
  {
  }
}
