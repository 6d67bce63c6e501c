/** Non-interference: leave out of a run everything that was done for other tasks, and the task
    comes out the same, its issue, its pull requests and its place in the queue included. What is
    left is again a run of the machine, with the same answers from the cluster and from GitHub. */
module Solo {
  import opened Names
  import opened Model
  import opened Machine
  import opened Base
  import opened History
  import opened Isolation
  import opened Invariants
  import opened Ownership
  import opened Commuting

  /** Whether an action is for the task, or is nobody's. The worker comes to the task only when it
      has nothing else in hand. */
  predicate Concerns(w: World, a: Action, name: string) {
    match a
    case Start(other) => other == name && w.pc == Idle
    case Op(_, _, _) => Owner(w.pc) == Some(name)
    case Retire => Owner(w.pc) == Some(name)
    case _ => true
  }

  /** A run without what was done for other tasks. */
  function OwnActions(w: World, actions: seq<Action>, name: string): seq<Action>
    decreases |actions|
  {
    if actions == [] then []
    else
      var front, a := actions[..|actions| - 1], actions[|actions| - 1];
      OwnActions(w, front, name) + if Concerns(Run(w, front), a, name) then [a] else []
  }

  /** The second world is what the first is to the task, with a worker that knows no other. */
  ghost predicate Mirrors(w: World, w': World, name: string) {
    LooksSame(w, w', name) && w'.pc == if Owner(w.pc) == Some(name) then w.pc else Idle
  }

  // ---------------------------------------------------------------- everybody else

  lemma PRMovesLookSame(prs: seq<PullRequest>, prs': seq<PullRequest>, i: nat, m: EnvMove, mine: string -> bool)
    requires SamePRs(prs, prs', mine) && i < |prs| && PRMove(m)
    ensures i < |prs'|
    ensures SamePRs(prs[i := PRAfter(prs[i], m)], prs'[i := PRAfter(prs'[i], m)], mine)
  {
    hide DropLabelFrom;
    var a, a' := PRAfter(prs[i], m), PRAfter(prs'[i], m);
    assert Unlabelled(prs[i]) == Unlabelled(prs'[i]);
    MovedPRsAlike(prs[i], prs'[i], m);
    assert a.head == prs[i].head;
  }

  lemma MovedPRsAlike(pr: PullRequest, pr': PullRequest, m: EnvMove)
    requires PRMove(m) && Unlabelled(pr) == Unlabelled(pr')
    ensures Unlabelled(PRAfter(pr, m)) == Unlabelled(PRAfter(pr', m)) && PRAfter(pr, m).head == pr.head
  {
    hide Without;
  }

  lemma EnvPRsLookSame(w: World, w': World, m: EnvMove, issue: int)
    requires SamePRsOf(w.prs, w'.prs, issue)
    ensures SamePRsOf(EnvStep(w, m).prs, EnvStep(w', m).prs, issue)
  {
    hide BranchOf, FindNumber, PRAfter, NsMove, TaskName, SamePRs;
    var mine := head => BranchOf(head, issue);
    if PRMove(m) {
      SameFind(w.prs, w'.prs, mine, m.number);
      var i := FindNumber(w.prs, m.number);
      if i >= 0 {
        PRMovesLookSame(w.prs, w'.prs, i, m, mine);
      }
    } else if m.OpenPR? {
      SameFind(w.prs, w'.prs, mine, m.number);
      var pr := PullRequest(m.number, m.head, m.url, true, false, [], 0, false);
      SameAsItself([pr], mine);
      SameBoth([pr], [pr], w.prs, w'.prs, mine);
    }
  }

  lemma SameAsItself(prs: seq<PullRequest>, mine: string -> bool)
    ensures SamePRs(prs, prs, mine)
  {
  }

  /** The settings and the issue after a move of the environment. */
  lemma EnvSets(w: World, m: EnvMove)
    ensures var v := EnvStep(w, m);
      && v.repo == w.repo && v.backend == w.backend
      && v.clock == (if m.Tick? then w.clock + 1 else w.clock)
      && v.creds == if m.SetCreds? then m.data else w.creds
  {
    hide NsMove, PRAfter, FindNumber, TaskName, Lookup, CommentsOn;
  }

  lemma EnvTalksSame(w: World, w': World, m: EnvMove, issue: int)
    requires TalkOf(w', issue) == TalkOf(w, issue)
    ensures TalkOf(EnvStep(w', m), issue) == TalkOf(EnvStep(w, m), issue)
  {
    hide NsMove, PRAfter, FindNumber, TaskName, Lookup;
    if !m.Say? {
      hide AddComment;
    }
  }

  predicate Births(w: World, m: EnvMove, name: string) {
    m.NewTask? && m.issue >= 1 && TaskName(w.repo, m.issue) == name
  }

  /** A move of the environment changes no task and queues none, but by creating it. */
  lemma EnvOnTask(w: World, m: EnvMove, name: string)
    ensures var v := EnvStep(w, m);
      && v.pc == w.pc && v.repo == w.repo
      && (name in v.tasks <==> name in w.tasks || Births(w, m, name))
      && (name in w.tasks ==> v.tasks[name] == w.tasks[name])
      && (name !in w.tasks && Births(w, m, name) ==>
            v.tasks[name] == Record(Spec(m.issue, w.repo), [INITIAL_STATUS], 0))
      && (name in v.queue <==> name in w.queue || (name !in w.tasks && Births(w, m, name)))
  {
    hide NsMove, PRAfter, FindNumber, TaskName, NamespaceName, CommentsOn;
  }

  /** A move of the environment is the same to the task in both worlds. */
  lemma EnvLooksSame(w: World, w': World, m: EnvMove, name: string)
    requires LooksSame(w, w', name)
    ensures LooksSame(EnvStep(w, m), EnvStep(w', m), name)
  {
    hide SamePRsOf, NsMove, NamespaceName, TaskName, EnvStep, TalkOf, Lookup, Births;
    EnvPRsLookSame(w, w', m, w.tasks[name].spec.issue);
    EnvSets(w, m);
    EnvSets(w', m);
    EnvTalksSame(w, w', m, w.tasks[name].spec.issue);
    EnvOnTask(w, m, name);
    EnvOnTask(w', m, name);
    EnvOnCluster(w, m, Home(w, name));
    EnvOnCluster(w', m, Home(w, name));
  }

  // ---------------------------------------------------------------- other tasks

  lemma OthersWorkUnseen(w: World, fault: Fault, lag: nat, drop: nat, name: string)
    requires Basic(w) && (Owner(w.pc).Some? ==> Sound(w, Owner(w.pc).value))
    requires name in w.tasks && Owner(w.pc) != Some(name)
    ensures LooksSame(w, Step(w, Op(fault, lag, drop)), name)
    ensures Owner(Step(w, Op(fault, lag, drop)).pc) != Some(name)
  {
    hide Basic, Sound, OpStep, Next, OnlyTouches, LooksSame, Owner;
    if Next(w.pc, w.backend).Some? {
      NextNeedsOwner(w.pc, w.backend);
      var other := Owner(w.pc).value;
      CallTouches(w, fault, lag, drop, other);
      OthersSeeNothing(w, Step(w, Op(fault, lag, drop)), other, name);
      OwnerKept(w, fault, lag, drop);
    } else {
      LooksLikeItself(w, name);
    }
  }

  lemma LooksLikeItself(w: World, name: string)
    requires name in w.tasks
    ensures LooksSame(w, w, name)
  {
    hide BranchOf, NamespaceName;
  }

  lemma OthersStepUnseen(w: World, a: Action, name: string)
    requires Basic(w) && (Owner(w.pc).Some? ==> Sound(w, Owner(w.pc).value))
    requires name in w.tasks && !Concerns(w, a, name)
    ensures LooksSame(w, Step(w, a), name)
    ensures Step(w, a) == w || (Owner(w.pc) != Some(name) && Owner(Step(w, a).pc) != Some(name))
  {
    hide Basic, Sound, OpStep, EnvStep, Next, SamePRsOf, NamespaceName;
    match a
    case Op(fault, lag, drop) =>
      OthersWorkUnseen(w, fault, lag, drop, name);
    case _ =>
      LooksLikeItself(w, name);
  }

  // ---------------------------------------------------------------- runs

  lemma StepMirrored(w: World, w': World, a: Action, name: string)
    requires Sound(w, name) && (Owner(w.pc).Some? ==> Sound(w, Owner(w.pc).value)) && Mirrors(w, w', name)
    ensures Concerns(w, a, name) ==> Mirrors(Step(w, a), Step(w', a), name)
    ensures !Concerns(w, a, name) ==> Mirrors(Step(w, a), w', name)
  {
    hide Basic, Owns, LooksSame, OpStep, EnvStep, Next;
    if !Concerns(w, a, name) {
      OthersStepUnseen(w, a, name);
      BothLookSame(w, Step(w, a), w', name);
    } else {
      match a
      case Env(m) =>
        EnvLooksSame(w, w', m, name);
        EnvElsewhere(w, m);
        EnvElsewhere(w', m);
      case Crash => CrashLooksSame(w, w', name);
      case Skip =>
      case _ =>
        StepOfAttempt(w, w', a, name);
    }
  }

  lemma CrashLooksSame(w: World, w': World, name: string)
    requires LooksSame(w, w', name)
    ensures LooksSame(Step(w, Crash), Step(w', Crash), name)
  {
    hide SamePRsOf, NamespaceName;
  }

  /** The world with a worker that knows no task but this one. */
  function Freed(w: World, name: string): World {
    w.(pc := if Owner(w.pc) == Some(name) then w.pc else Idle)
  }

  /** One action of a run from an initial world. */
  lemma RunMirrored(w0: World, run: seq<Action>, w': World, a: Action, name: string)
    requires Initial(w0) && Mirrors(Run(w0, run), w', name)
    ensures var w := Run(w0, run);
      Mirrors(Step(w, a), if Concerns(w, a, name) then Step(w', a) else w', name)
  {
    hide Run, Step, Basic, Owns, Concerns, Settled, LooksSame, Owner;
    var w := Run(w0, run);
    Reachable(w0, run);
    OwnerIsStored(w);
    IsStored(w, w', name);
    SoundWhenReached(w0, run, name);
    if Owner(w.pc).Some? {
      SoundWhenReached(w0, run, Owner(w.pc).value);
    }
    StepMirrored(w, w', a, name);
  }

  /** From any reachable world on, what is done for other tasks can be left out of a run, and to the
      task the run is the same: the calls that are kept have the fates they had, they get the same
      answers, and the worker goes the same way. */
  lemma {:induction false} LaterRunsAlone(w0: World, before: seq<Action>, actions: seq<Action>, name: string)
    requires Initial(w0) && name in Run(w0, before).tasks
    ensures var w := Run(w0, before);
      Mirrors(Run(w, actions), Run(Freed(w, name), OwnActions(w, actions, name)), name)
    decreases |actions|
  {
    hide Step, Concerns, LooksSame, Owner;
    var w := Run(w0, before);
    if actions == [] {
      LooksFreed(w, name);
    } else {
      var front, a := actions[..|actions| - 1], actions[|actions| - 1];
      LaterRunsAlone(w0, before, front, name);
      var own := OwnActions(w, front, name);
      RunInTwo(w0, before, front);
      RunMirrored(w0, before + front, Run(Freed(w, name), own), a, name);
      RunThen(Freed(w, name), own, a);
      assert own + [] == own;
    }
  }

  lemma LooksFreed(w: World, name: string)
    requires name in w.tasks
    ensures Mirrors(w, Freed(w, name), name)
  {
    hide BranchOf, NamespaceName, Owner;
  }

  // ---------------------------------------------------------------- before the task exists

  /** Neither world has the task yet, and there is nothing of it but its issue and what has been
      pushed for it. */
  ghost predicate Unborn(w: World, w': World, name: string, issue: int) {
    && SameSetting(w, w') && issue >= 1 && name == TaskName(w.repo, issue)
    && name !in w.tasks && name !in w'.tasks && name !in w.queue && name !in w'.queue
    && Lookup(w, NamespaceName(issue)) == None && Lookup(w', NamespaceName(issue)) == None
    && TalkOf(w', issue) == TalkOf(w, issue) && SamePRsOf(w.prs, w'.prs, issue)
    && Owner(w.pc) != Some(name) && w'.pc == Idle
  }

  /** What is done for one task is not seen where another is still to come. */
  lemma OthersTouchNothing(w: World, w1: World, w': World, other: string, name: string, issue: int)
    requires Basic(w) && OnlyTouches(w, w1, other) && Unborn(w, w', name, issue) && other in w.tasks
    requires w1.queue <= w1.tasks.Keys && Owner(w1.pc) != Some(name)
    ensures Unborn(w1, w', name, issue)
  {
    hide NamespaceName, TaskName, LogOk, PcOk, PRsOk, BranchOf, Owner;
    assert RecordOk(w.repo, other, w.tasks[other]);
    var m := w.tasks[other].spec.issue;
    NamespaceInjective(m, issue);
    forall head: string ensures !(BranchOf(head, m) && BranchOf(head, issue)) {
      if BranchOf(head, m) && BranchOf(head, issue) {
        BranchNamesOneIssue(head, m, issue);
      }
    }
  }

  lemma OthersStepUnborn(w: World, w': World, a: Action, name: string, issue: int)
    requires Basic(w) && (Owner(w.pc).Some? ==> Sound(w, Owner(w.pc).value)) && Unborn(w, w', name, issue)
    requires !Concerns(w, a, name)
    ensures Unborn(Step(w, a), w', name, issue)
  {
    hide Sound, OpStep, EnvStep, Next, SamePRsOf, NamespaceName, TaskName, TasksOk, PRsOk, PcFits;
    match a
    case Op(fault, lag, drop) =>
      if Next(w.pc, w.backend).Some? {
        NextNeedsOwner(w.pc, w.backend);
        var other := Owner(w.pc).value;
        OwnerIsStored(w);
        BasicStep(w, a);
        CallTouches(w, fault, lag, drop, other);
        OwnerKept(w, fault, lag, drop);
        OthersTouchNothing(w, Step(w, a), w', other, name, issue);
      }
    case _ =>
  }

  /** The task is created in both worlds, or in neither. */
  lemma EnvAtBirth(w: World, w': World, m: EnvMove, name: string, issue: int)
    requires Basic(w) && Unborn(w, w', name, issue)
    ensures var v, v' := EnvStep(w, m), EnvStep(w', m);
      if name in v.tasks then Mirrors(v, v', name) else Unborn(v, v', name, issue)
  {
    hide SamePRsOf, NsMove, NamespaceName, TaskName, TasksOk, PRsOk, PcOk, Owner, EnvStep, TalkOf, Lookup;
    EnvPRsLookSame(w, w', m, issue);
    EnvSets(w, m);
    EnvSets(w', m);
    EnvTalksSame(w, w', m, issue);
    EnvOnTask(w, m, name);
    EnvOnTask(w', m, name);
    NoneStays(m);
    EnvOnCluster(w, m, NamespaceName(issue));
    EnvOnCluster(w', m, NamespaceName(issue));
    if Births(w, m, name) {
      TaskNameInjective(w.repo, m.issue, w.repo, issue);
    }
  }

  lemma StepAtBirth(w: World, w': World, a: Action, name: string, issue: int)
    requires Basic(w) && (Owner(w.pc).Some? ==> Sound(w, Owner(w.pc).value)) && Unborn(w, w', name, issue)
    ensures var v, v' := Step(w, a), if Concerns(w, a, name) then Step(w', a) else w';
      if name in v.tasks then Mirrors(v, v', name) else Unborn(v, v', name, issue)
  {
    hide Basic, Sound, OpStep, EnvStep, Next, SamePRsOf, NamespaceName, TaskName, LooksSame;
    if !Concerns(w, a, name) {
      OthersStepUnborn(w, w', a, name, issue);
    } else if a.Env? {
      EnvAtBirth(w, w', a.move, name, issue);
    }
  }

  lemma {:induction false} SoloSoFar(w0: World, actions: seq<Action>, name: string, issue: int)
    requires Initial(w0) && issue >= 1 && name == TaskName(w0.repo, issue)
    ensures var w, w' := Run(w0, actions), Run(w0, OwnActions(w0, actions, name));
      if name in w.tasks then Mirrors(w, w', name) else Unborn(w, w', name, issue)
    decreases |actions|
  {
    hide Step, Concerns, Mirrors, Basic, Settled, Sound, TaskName, NamespaceName;
    if actions == [] {
      SameAsItself([], head => BranchOf(head, issue));
    } else {
      hide Unborn, Owner;
      var front, a := actions[..|actions| - 1], actions[|actions| - 1];
      SoloSoFar(w0, front, name, issue);
      var own := OwnActions(w0, front, name);
      var w, w' := Run(w0, front), Run(w0, own);
      Reachable(w0, front);
      RunThen(w0, own, a);
      assert own + [] == own;
      if name in w.tasks {
        StillThere(w, a, name);
        RunMirrored(w0, front, w', a, name);
      } else {
        OwnerIsStored(w);
        if Owner(w.pc).Some? {
          SoundWhenReached(w0, front, Owner(w.pc).value);
        }
        StepAtBirth(w, w', a, name, issue);
      }
    }
  }

  /** In the run that is left the worker is never at another task. */
  lemma {:induction false} NeverElsewhere(w0: World, actions: seq<Action>, name: string, issue: int, i: nat)
    requires Initial(w0) && issue >= 1 && name == TaskName(w0.repo, issue)
    requires i <= |OwnActions(w0, actions, name)|
    ensures OnlyFor(Run(w0, OwnActions(w0, actions, name)[..i]), name)
    decreases |actions|
  {
    hide Step, Concerns, Run, TaskName;
    var own := OwnActions(w0, actions, name);
    if i == |own| {
      hide OwnActions, LooksSame, Unborn;
      SoloSoFar(w0, actions, name, issue);
      UnbornIsIdle(Run(w0, actions), Run(w0, own), name, issue);
      assert own[..i] == own;
    } else {
      var front := actions[..|actions| - 1];
      assert own[..i] == OwnActions(w0, front, name)[..i];
      NeverElsewhere(w0, front, name, issue, i);
    }
  }

  lemma UnbornIsIdle(w: World, w': World, name: string, issue: int)
    ensures Unborn(w, w', name, issue) ==> w'.pc == Idle
  {
  }

  lemma StillThere(w: World, a: Action, name: string)
    requires Basic(w) && name in w.tasks
    ensures name in Step(w, a).tasks
  {
    StepOnlyGrows(w, a, name);
  }

  /** From every initial world: leave out of a run all that was done for other tasks, ever, and
      the run that is left brings the task to the same record, namespace, comments, pull requests
      and place in the queue, and the worker to the same point of its Reconcile. The worker is never
      at another task. */
  lemma RunsAlone(w0: World, actions: seq<Action>, name: string)
    requires Initial(w0) && name in Run(w0, actions).tasks
    ensures var own := OwnActions(w0, actions, name);
      && Mirrors(Run(w0, actions), Run(w0, own), name)
      && forall i :: 0 <= i <= |own| ==> OnlyFor(Run(w0, own[..i]), name)
  {
    hide OnlyFor, OwnActions, Run, Step, Mirrors, Unborn, PcOk, PRsOk, Settled, TaskName;
    var w := Run(w0, actions);
    Reachable(w0, actions);
    InitialBasic(w0);
    SameBackend(w0, actions);
    assert RecordOk(w.repo, name, w.tasks[name]);
    SoloSoFar(w0, actions, name, w.tasks[name].spec.issue);
    var own := OwnActions(w0, actions, name);
    forall i | 0 <= i <= |own| ensures OnlyFor(Run(w0, own[..i]), name) {
      NeverElsewhere(w0, actions, name, w.tasks[name].spec.issue, i);
    }
  }
}
