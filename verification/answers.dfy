/** What an attempt without faults makes of what it finds: for every branch that follows a pod, a review
    or a question, what is committed, said and deleted, and when the operator looks again, told from
    the pods, pull requests and comments there are. */
module Answers {
  import opened Names
  import opened Model
  import opened Machine
  import opened Texts
  import opened Base
  import opened History
  import opened Isolation
  import opened Invariants
  import opened Exclusion
  import opened Ownership
  import opened Wakeups
  import opened Cleanup

  // ---------------------------------------------------------------- an attempt

  /** So many calls without faults. */
  function Calls(w: World, n: nat): World {
    if n == 0 then w else Step(Calls(w, n - 1), OK)
  }

  /** The worker takes the task up and makes its calls; none takes more than twelve. */
  function Served(w: World, name: string): World {
    Calls(Step(w, Start(name)), 12)
  }

  lemma CallsBegin(w: World)
    ensures Calls(w, 0) == w
  {
  }

  lemma {:induction false} CallsEnd(w: World, k: nat, n: nat)
    requires Calls(w, k).pc.Done? && k <= n
    ensures Calls(w, n) == Calls(w, k)
    decreases n
  {
    hide Step;
    if k < n {
      CallsEnd(w, k, n - 1);
      DoneStays(Calls(w, n - 1));
    }
  }

  lemma DoneStays(w: World)
    requires w.pc.Done?
    ensures Step(w, OK) == w
  {
    hide OpStep;
  }

  function OKs(n: nat): seq<Action> {
    seq(n, i => OK)
  }

  lemma {:induction false} CallsRun(w: World, n: nat)
    ensures Calls(w, n) == Run(w, OKs(n))
  {
    hide Step;
    if n > 0 {
      CallsRun(w, n - 1);
      assert OKs(n) == OKs(n - 1) + [OK];
      RunThen(w, OKs(n - 1), OK);
    }
  }

  /** An attempt is a run like any other. */
  lemma ServedRuns(w: World, name: string)
    ensures Served(w, name) == Run(w, [Start(name)] + OKs(12))
  {
    hide Step;
    CallsRun(Step(w, Start(name)), 12);
    RunInTwo(w, [Start(name)], OKs(12));
    RunThen(w, [], Start(name));
    assert [] + [Start(name)] == [Start(name)];
    hide Calls, OKs;
  }

  /** A call that changes nothing but where Reconcile is. */
  lemma Reads(w: World, k: nat, r: Response)
    requires var x := Calls(w, k);
      && Next(x.pc, x.backend).Some? && Exec(x, Next(x.pc, x.backend).value, 0, 0) == (x, r)
      && !RemovalFailed(x.pc, r)
    ensures var x := Calls(w, k); Calls(w, k + 1) == x.(pc := Resume(x.pc, r, x.clock))
  {
    hide Exec, Next, Resume, RemovalFailed;
  }

  /** Nobody is at work, and the task is not finished. */
  predicate Rests(w: World, name: string) {
    && w.pc == Idle && name in w.tasks && |w.tasks[name].log| > 0
    && !Terminal(Current(w.tasks[name]).phase)
  }

  predicate Waits(w: World, name: string) {
    Rests(w, name) && w.creds.Some?
  }

  /** The task has been taken from the queue, and nothing else has changed. */
  function Taken(w: World, name: string, pc: Pc): World {
    w.(queue := w.queue - {name}, pc := pc)
  }

  function IssueOf(w: World, name: string): int
    requires name in w.tasks
  {
    w.tasks[name].spec.issue
  }

  /** The attempt begins with the task as it is stored. */
  lemma Begins(w0: World, before: seq<Action>, name: string)
    requires Initial(w0) && Rests(Run(w0, before), name)
    ensures var w := Run(w0, before);
      var t := StoredTask(w, name);
      && Basic(w)
      && Calls(Step(w, Start(name)), 1) == Taken(w, name, Dispatch(t))
      && IssueOf(w, name) >= 1 && t.status.phase != Pending
      && (t.status.phase != New ==> t.status.namespace == Home(w, name))
      && (HasPR(t.status.phase) ==> t.status.prNumber > 0)
  {
    hide Run, Dispatch, NamespaceName, TaskName, PcOk, Settled;
    var w := Run(w0, before);
    Reachable(w0, before);
    NoLostWakeups(w0, before, name);
    assert RecordOk(w.repo, name, w.tasks[name]);
    assert StatusOk(Current(w.tasks[name]), w.tasks[name].spec.issue);
    var s := Step(w, Start(name));
    assert s == Taken(w, name, Fetch(name));
    CallsBegin(s);
    Fetched(s, name);
  }

  lemma ReadsCreds(w: World, k: nat)
    requires Calls(w, k).pc.ReadCreds? && Calls(w, k).creds.Some?
    ensures var x := Calls(w, k);
      exists creds :: Calls(w, k + 1) == x.(pc := CredsRead(x.pc.t, x.pc.why, creds))
  {
    hide Calls, CredsOf, CredsRead;
    var x := Calls(w, k);
    Reads(w, k, GotCreds(CredsOf(x.creds.value)));
    assert Calls(w, k + 1) == x.(pc := CredsRead(x.pc.t, x.pc.why, CredsOf(x.creds.value)));
  }

  /** The pod Reconcile goes by: agent-rev if there is one. */
  function Followed(ns: Option<Namespace>): Option<Pod> {
    if PodOf(ns, RevSlot).Some? then PodOf(ns, RevSlot) else PodOf(ns, AgentSlot)
  }

  /** The attempt has seen the pod it goes by. */
  lemma Follows(w0: World, before: seq<Action>, name: string) returns (k: nat)
    requires Initial(w0) && Rests(Run(w0, before), name) && Active(Current(Run(w0, before).tasks[name]).phase)
    ensures var w := Run(w0, before);
      var pod := Followed(NsOf(w, name));
      && k <= 3
      && Calls(Step(w, Start(name)), k)
         == Taken(w, name, if pod.None? then Stop(StoredTask(w, name), 30, false)
                           else PodSeen(StoredTask(w, name), pod.value))
  {
    hide Run, Step, Calls, NamespaceName, PodSeen, Basic;
    var w := Run(w0, before);
    var t := StoredTask(w, name);
    var s := Step(w, Start(name));
    Begins(w0, before, name);
    k := LooksAtPods(s, 1, t);
  }

  lemma StillWaits(w: World, name: string)
    requires Waits(w, name)
    ensures w.pc == Idle && name in w.tasks && |w.tasks[name].log| > 0 && w.creds.Some? && Rests(w, name)
  {
  }

  lemma LooksAtPods(w: World, k: nat, t: Task) returns (n: nat)
    requires Calls(w, k).pc == LookRevision(t)
    ensures var x := Calls(w, k);
      var pod := Followed(Lookup(x, t.status.namespace));
      && n <= k + 2
      && Calls(w, n) == x.(pc := if pod.None? then Stop(t, 30, false) else PodSeen(t, pod.value))
  {
    hide Calls, PodSeen;
    var x := Calls(w, k);
    var ns := Lookup(x, t.status.namespace);
    var rev, agent := PodOf(ns, RevSlot), PodOf(ns, AgentSlot);
    ReadsPod(x, t.status.namespace, RevSlot);
    Reads(w, k, if rev.None? then NotFound else GotPod(rev.value));
    n := k + 1;
    if rev.None? {
      ReadsPod(Calls(w, n), t.status.namespace, AgentSlot);
      Reads(w, n, if agent.None? then NotFound else GotPod(agent.value));
      n := n + 1;
    }
  }

  lemma ReadsPod(w: World, ns: string, slot: Slot)
    ensures var pod := PodOf(Lookup(w, ns), slot);
      Exec(w, GetPod(ns, slot), 0, 0) == (w, if pod.None? then NotFound else GotPod(pod.value))
  {
    assert ns in w.cluster ==> w.cluster[ns := w.cluster[ns]] == w.cluster;
    assert ns !in w.cluster ==> w.cluster - {ns} == w.cluster;
  }

  /** The status write and what is left to say. */
  lemma Writes(w: World, k: nat, name: string)
    requires var x := Calls(w, k);
      x.pc.Write? && x.pc.t.name == name && name in x.tasks && x.pc.t.version == |x.tasks[name].log| - 1
    ensures var x, x' := Calls(w, k), Calls(w, k + 1);
      && name in x'.tasks && x'.tasks[name] == x.tasks[name].(log := x.tasks[name].log + [x.pc.status])
      && x'.cluster == x.cluster && x'.prs == x.prs && x'.comments == x.comments
      && x'.pc == Stop(x.pc.t, Pause(x.pc.status.phase), false)
  {
    hide Step;
    WriteGoesThrough(Calls(w, k));
  }

  lemma WriteGoesThrough(w: World)
    requires w.pc.Write? && w.pc.t.name in w.tasks && w.pc.t.version == |w.tasks[w.pc.t.name].log| - 1
    ensures var rec := w.tasks[w.pc.t.name];
      Step(w, OK) == w.(tasks := w.tasks[w.pc.t.name := rec.(log := rec.log + [w.pc.status])],
                        queue := w.queue + {w.pc.t.name},
                        pc := Stop(w.pc.t, Pause(w.pc.status.phase), false))
  {
    hide Pause;
  }

  // ---------------------------------------------------------------- a pod at work

  /** Nothing to do yet: no pod, one that has not started, or one whose start is known. */
  lemma WaitsForPod(w0: World, before: seq<Action>, name: string)
    requires Initial(w0) && Waits(Run(w0, before), name)
    requires var w := Run(w0, before);
      var pod := Followed(NsOf(w, name));
      && Active(Current(w.tasks[name]).phase)
      && (pod.None? || pod.value.phase == PodPending
          || (pod.value.phase == PodRunning && Current(w.tasks[name]).phase == Running))
    ensures var w := Run(w0, before);
      Served(w, name) == Taken(w, name, Done(name, Result(30, false)))
  {
    hide Run, Step, Calls, Waits, NamespaceName;
    StillWaits(Run(w0, before), name);
    var k := Follows(w0, before, name);
    CallsEnd(Step(Run(w0, before), Start(name)), k, 12);
  }

  /** A pod that runs takes its task from Building to Running. */
  lemma NoticesStart(w0: World, before: seq<Action>, name: string)
    requires Initial(w0) && Waits(Run(w0, before), name)
    requires var w := Run(w0, before);
      var pod := Followed(NsOf(w, name));
      Current(w.tasks[name]).phase == Building && pod.Some? && pod.value.phase == PodRunning
    ensures var w := Run(w0, before);
      var w' := Served(w, name);
      && name in w'.tasks && w'.cluster == w.cluster && w'.comments == w.comments
      && w'.tasks[name].log == w.tasks[name].log + [Current(w.tasks[name]).(phase := Running)]
      && w'.pc == Done(name, Result(30, false))
  {
    hide Run, Step, Calls, Waits, NamespaceName;
    var w := Run(w0, before);
    StillWaits(w, name);
    var k := Follows(w0, before, name);
    Writes(Step(w, Start(name)), k, name);
    CallsEnd(Step(w, Start(name)), k + 1, 12);
  }

  // ---------------------------------------------------------------- a pod that has failed

  lemma ReadsComments(w: World, k: nat)
    requires var x := Calls(w, k); x.pc.LookClarification? || x.pc.LookReply? || x.pc.LookComments?
    ensures var x := Calls(w, k);
      Calls(w, k + 1) == x.(pc := Resume(x.pc, GotComments(CommentsOn(x, x.pc.t.spec.issue)), x.clock))
  {
    hide Calls, Resume;
    var x := Calls(w, k);
    WholePage(CommentsOn(x, x.pc.t.spec.issue));
    Reads(w, k, GotComments(CommentsOn(x, x.pc.t.spec.issue)));
  }

  lemma Deletes(w: World, k: nat)
    requires Calls(w, k).pc.DropNamespace?
    ensures var x, x' := Calls(w, k), Calls(w, k + 1);
      var home := x.pc.t.status.namespace;
      && x' == x.(cluster := x'.cluster, pc := Write(x.pc.t, x.pc.t.status.(phase := x.pc.next)))
      && Lookup(x', home) == match Lookup(x, home) { case None => None case Some(ns) => Some(ns.(terminating := true)) }
  {
    hide Step;
    DeleteGoesThrough(Calls(w, k));
  }

  lemma DeleteGoesThrough(w: World)
    requires w.pc.DropNamespace?
    ensures var w' := Step(w, OK);
      var home := w.pc.t.status.namespace;
      && w' == w.(cluster := w'.cluster, pc := Write(w.pc.t, w.pc.t.status.(phase := w.pc.next)))
      && Lookup(w', home) == match Lookup(w, home) { case None => None case Some(ns) => Some(ns.(terminating := true)) }
  {
  }

  /** A failed pod: with a request for clarification on the issue the task is blocked and its namespace
      deleted, and the operator looks again in a minute; without one the task has failed, and its
      namespace stays. */
  lemma FailureIsAnswered(w0: World, before: seq<Action>, name: string)
    requires Initial(w0) && Waits(Run(w0, before), name)
    requires var w := Run(w0, before);
      var pod := Followed(NsOf(w, name));
      Active(Current(w.tasks[name]).phase) && pod.Some? && pod.value.phase == PodFailed
    ensures var w := Run(w0, before);
      var w' := Served(w, name);
      var asked := Requested(CommentsOn(w, IssueOf(w, name)));
      && name in w'.tasks && w'.comments == w.comments
      && w'.tasks[name].log == w.tasks[name].log + [Current(w.tasks[name]).(phase := if asked then Blocked else Failed)]
      && NsOf(w, name).Some?
      && NsOf(w', name) == Some(NsOf(w, name).value.(terminating := asked || NsOf(w, name).value.terminating))
      && w'.pc == Done(name, Result(if asked then 60 else 0, false))
  {
    hide Run, Step, Calls, Waits, NamespaceName, Requested, AnyAsksClarification, CommentsOn, Basic;
    var w := Run(w0, before);
    StillWaits(w, name);
    var s := Step(w, Start(name));
    Begins(w0, before, name);
    var k := Follows(w0, before, name);
    RequestIsRead(CommentsOn(w, IssueOf(w, name)));
    ReadsCreds(s, k);
    ReadsComments(s, k + 1);
    SameTalk(w, Calls(s, k + 1), IssueOf(w, name));
    if AnyAsksClarification(CommentsOn(w, IssueOf(w, name))) {
      Deletes(s, k + 2);
      Writes(s, k + 3, name);
      CallsEnd(s, k + 4, 12);
    } else {
      Writes(s, k + 2, name);
      CallsEnd(s, k + 3, 12);
    }
  }

  // ---------------------------------------------------------------- a pod that has succeeded

  ghost predicate NoneOpen(prs: seq<PullRequest>, n: nat) {
    forall q :: 0 <= q < |prs| && prs[q].open ==> !IssueHead(prs[q].head, n)
  }

  /** Entry `i` is the first open pull request on a branch of issue `n`. */
  ghost predicate FirstOpen(prs: seq<PullRequest>, i: nat, n: nat) {
    i < |prs| && prs[i].open && IssueHead(prs[i].head, n) && NoneOpen(prs[..i], n)
  }

  lemma {:induction false} SearchFindsNone(prs: seq<PullRequest>, n: nat)
    requires NoneOpen(prs, n)
    ensures FirstMatch(OpenOnes(prs), n) == None
  {
    hide IssueHead, BranchOf;
    if prs != [] {
      BranchTestReads(prs[0].head, n);
      SearchFindsNone(prs[1..], n);
      FirstIsSearched(prs, n);
    }
  }

  lemma {:induction false} SearchFinds(prs: seq<PullRequest>, i: nat, n: nat)
    requires FirstOpen(prs, i, n)
    ensures FirstMatch(OpenOnes(prs), n) == Some(prs[i])
  {
    hide IssueHead, BranchOf, FirstMatch, OpenOnes;
    BranchTestReads(prs[0].head, n);
    FirstIsSearched(prs, n);
    if i > 0 {
      assert prs[..i][0] == prs[0];
      var rest := prs[1..][..i - 1];
      forall q | 0 <= q < |rest| && rest[q].open ensures !IssueHead(rest[q].head, n) {
        assert rest[q] == prs[..i][q + 1];
      }
      SearchFinds(prs[1..], i - 1, n);
    }
  }

  lemma FirstIsSearched(prs: seq<PullRequest>, n: nat)
    requires prs != []
    ensures FirstMatch(OpenOnes(prs), n)
         == if prs[0].open && BranchOf(prs[0].head, n) then Some(prs[0]) else FirstMatch(OpenOnes(prs[1..]), n)
  {
    hide BranchOf;
    assert OpenOnes(prs) == (if prs[0].open then [prs[0]] else []) + OpenOnes(prs[1..]);
    assert [] + OpenOnes(prs[1..]) == OpenOnes(prs[1..]);
    assert ([prs[0]] + OpenOnes(prs[1..]))[1..] == OpenOnes(prs[1..]);
  }

  /** The pull request of the task: the recorded one, or the first open one on a branch of its issue. */
  ghost predicate IsFor(w: World, name: string, i: nat)
    requires name in w.tasks && |w.tasks[name].log| > 0
  {
    var n, issue := Current(w.tasks[name]).prNumber, IssueOf(w, name);
    i < |w.prs| && if n != 0 then w.prs[i].number == n else issue >= 0 && FirstOpen(w.prs, i, issue)
  }

  /** No pull request is recorded, and none is open on a branch of the issue. */
  ghost predicate HasNone(w: World, name: string)
    requires name in w.tasks && |w.tasks[name].log| > 0
  {
    Current(w.tasks[name]).prNumber == 0 && IssueOf(w, name) >= 0 && NoneOpen(w.prs, IssueOf(w, name))
  }

  lemma FindsByNumber(prs: seq<PullRequest>, i: nat)
    requires PRsOk(prs) && i < |prs|
    ensures FindNumber(prs, prs[i].number) == i
  {
  }

  /** findPRForTask finds it. */
  lemma LooksUpPR(w: World, k: nat, name: string, i: nat)
    requires var x := Calls(w, k);
      && x.pc.LookPR? && PRsOk(x.prs) && name in x.tasks && |x.tasks[name].log| > 0 && IsFor(x, name, i)
      && x.pc.t == StoredTask(x, name)
    ensures var x := Calls(w, k);
      Calls(w, k + 1) == x.(pc := PRAnswer(x.pc.t, x.pc.quest, Some(x.prs[i])))
  {
    hide Calls, FirstMatch, FindNumber, FirstOpen, OpenOnes, PRAnswer;
    var x := Calls(w, k);
    if x.pc.t.status.prNumber != 0 {
      FindsByNumber(x.prs, i);
      Reads(w, k, GotPR(x.prs[i]));
    } else {
      SearchFinds(x.prs, i, IssueOf(x, name));
      WholePage(OpenOnes(x.prs));
      Reads(w, k, GotPRs(OpenOnes(x.prs)));
    }
  }

  lemma LooksInVain(w: World, k: nat, name: string)
    requires var x := Calls(w, k);
      && x.pc.LookPR? && name in x.tasks && |x.tasks[name].log| > 0 && HasNone(x, name)
      && x.pc.t == StoredTask(x, name)
    ensures var x := Calls(w, k);
      Calls(w, k + 1) == x.(pc := PRAnswer(x.pc.t, x.pc.quest, None))
  {
    hide Calls, FirstMatch, FindNumber, OpenOnes, PRAnswer;
    var x := Calls(w, k);
    SearchFindsNone(x.prs, IssueOf(x, name));
    WholePage(OpenOnes(x.prs));
    Reads(w, k, GotPRs(OpenOnes(x.prs)));
  }

  lemma Posts(w: World, k: nat)
    requires Calls(w, k).pc.PostComment?
    ensures var x := Calls(w, k);
      var c := Comment(Operator, "PR: " + x.pc.pr.url);
      Calls(w, k + 1) == AddComment(x, x.pc.t.spec.issue, c).(pc := Write(x.pc.t, ReviewStatus(x.pc.t, x.pc.pr.number)))
  {
    hide Step;
    PostGoesThrough(Calls(w, k));
  }

  lemma PostGoesThrough(w: World)
    requires w.pc.PostComment?
    ensures var c := Comment(Operator, "PR: " + w.pc.pr.url);
      Step(w, OK) == AddComment(w, w.pc.t.spec.issue, c).(pc := Write(w.pc.t, ReviewStatus(w.pc.t, w.pc.pr.number)))
  {
    hide AddComment;
    ExecElsewhere(w, CreateComment(w.pc.t.spec.issue, "PR: " + w.pc.pr.url), 0, 0);
  }

  /** A pod that has succeeded without a pull request to show for it: the task has failed. */
  lemma SuccessWithoutPR(w0: World, before: seq<Action>, name: string)
    requires Initial(w0) && Waits(Run(w0, before), name)
    requires var w := Run(w0, before);
      var pod := Followed(NsOf(w, name));
      && Active(Current(w.tasks[name]).phase) && pod.Some? && pod.value.phase == PodSucceeded && HasNone(w, name)
    ensures var w := Run(w0, before);
      var w' := Served(w, name);
      && name in w'.tasks && w'.comments == w.comments && w'.cluster == w.cluster
      && w'.tasks[name].log == w.tasks[name].log + [Current(w.tasks[name]).(phase := Failed)]
      && w'.pc == Done(name, Result(0, false))
  {
    hide Run, Step, Calls, Waits, NamespaceName, Basic, NoneOpen;
    var w := Run(w0, before);
    StillWaits(w, name);
    var s := Step(w, Start(name));
    var k := Follows(w0, before, name);
    ReadsCreds(s, k);
    LooksInVain(s, k + 1, name);
    Writes(s, k + 2, name);
    CallsEnd(s, k + 3, 12);
  }

  lemma FindsIts(w0: World, before: seq<Action>, name: string, i: nat) returns (k: nat)
    requires Initial(w0) && Waits(Run(w0, before), name)
    requires var w := Run(w0, before);
      var pod := Followed(NsOf(w, name));
      && Active(Current(w.tasks[name]).phase) && pod.Some? && pod.value.phase == PodSucceeded
      && i < |w.prs| && IsFor(w, name, i)
    ensures var w := Run(w0, before);
      && k <= 5
      && Calls(Step(w, Start(name)), k)
         == Taken(w, name, PRAnswer(StoredTask(w, name), AfterSuccess, Some(w.prs[i])))
  {
    hide Run, Step, Calls, Waits, NamespaceName, TasksOk, PcOk, IsFor, PRAnswer;
    var w := Run(w0, before);
    StillWaits(w, name);
    var s := Step(w, Start(name));
    Begins(w0, before, name);
    k := Follows(w0, before, name);
    ReadsCreds(s, k);
    SameIsFor(w, Calls(s, k + 1), name, i);
    LooksUpPR(s, k + 1, name, i);
    k := k + 2;
  }

  /** A pod that has succeeded with a pull request, whatever the slug of its branch: the task awaits
      review of it, and its issue says so, by a comment that was there or by a new one. */
  lemma SuccessWithPR(w0: World, before: seq<Action>, name: string, i: nat)
    requires Initial(w0) && Waits(Run(w0, before), name)
    requires var w := Run(w0, before);
      var pod := Followed(NsOf(w, name));
      && Active(Current(w.tasks[name]).phase) && pod.Some? && pod.value.phase == PodSucceeded
      && i < |w.prs| && IsFor(w, name, i)
    ensures var w := Run(w0, before);
      var w' := Served(w, name);
      var issue, pr := IssueOf(w, name), w.prs[i];
      && name in w'.tasks && w'.cluster == w.cluster && w'.prs == w.prs
      && w'.tasks[name].log
         == w.tasks[name].log + [Current(w.tasks[name]).(phase := AwaitingReview, prNumber := pr.number)]
      && CommentsOn(w', issue)
         == (if pr.url == "" || Linked(CommentsOn(w, issue)) then CommentsOn(w, issue)
             else CommentsOn(w, issue) + [Comment(Operator, "PR: " + pr.url)])
      && w'.pc == Done(name, Result(120, false))
  {
    hide Run, Step, Calls, Waits, NamespaceName, IsFor, Linked, AnyMentionsPR, PRAnswer, Followed;
    var w := Run(w0, before);
    StillWaits(w, name);
    var s := Step(w, Start(name));
    var k := FindsIts(w0, before, name, i);
    var n := Reports(s, k, StoredTask(w, name), w.prs[i]);
    SameTalk(w, Calls(s, k), IssueOf(w, name));
    Writes(s, n, name);
    CallsEnd(s, n + 1, 12);
    SameTalk(Calls(s, n), Calls(s, n + 1), IssueOf(w, name));
  }

  /** From the pull request to the status write. */
  lemma Reports(s: World, k: nat, t: Task, pr: PullRequest) returns (n: nat)
    requires Calls(s, k).pc == PRAnswer(t, AfterSuccess, Some(pr)) && Calls(s, k).creds.Some?
    ensures var x, x' := Calls(s, k), Calls(s, n);
      var talk := CommentsOn(x, t.spec.issue);
      && k <= n <= k + 3
      && x' == x.(comments := x'.comments, pc := Write(t, ReviewStatus(t, pr.number)))
      && CommentsOn(x', t.spec.issue)
         == if pr.url == "" || Linked(talk) then talk else talk + [Comment(Operator, "PR: " + pr.url)]
  {
    hide Calls, Linked, AnyMentionsPR, CommentsOn, ReviewStatus;
    n := k;
    var talk := CommentsOn(Calls(s, k), t.spec.issue);
    if pr.url != "" {
      ReadsCreds(s, k);
      SameTalk(Calls(s, k), Calls(s, k + 1), t.spec.issue);
      ReadsComments(s, k + 1);
      LinkIsRead(talk);
      SameTalk(Calls(s, k), Calls(s, k + 2), t.spec.issue);
      n := k + 2;
      if !AnyMentionsPR(talk) {
        Posts(s, k + 2);
        var told := AddComment(Calls(s, k + 2), t.spec.issue, Comment(Operator, "PR: " + pr.url));
        Adds(Calls(s, k + 2), t.spec.issue, Comment(Operator, "PR: " + pr.url));
        SameTalk(told, Calls(s, k + 3), t.spec.issue);
        n := k + 3;
      }
    }
  }

  lemma Adds(w: World, issue: int, c: Comment)
    ensures CommentsOn(AddComment(w, issue, c), issue) == CommentsOn(w, issue) + [c]
  {
  }

  lemma SameIsFor(w: World, w': World, name: string, i: nat)
    requires name in w.tasks && |w.tasks[name].log| > 0 && IsFor(w, name, i)
    requires w'.tasks == w.tasks && w'.prs == w.prs
    ensures IsFor(w', name, i)
  {
  }

  lemma SameTalk(w: World, w': World, issue: int)
    ensures w'.comments == w.comments ==> CommentsOn(w', issue) == CommentsOn(w, issue)
  {
  }

  // ---------------------------------------------------------------- a review

  /** What becomes of a review: closed ends it, the label sends it back, and otherwise it goes on. */
  function Verdict(pr: PullRequest): Option<Phase> {
    if pr.merged || !pr.open then Some(Completed)
    else if "needs-revision" in pr.labels then Some(AwaitingRevision)
    else None
  }

  /** From the credentials to what is made of the label. */
  lemma LooksForLabel(s: World, k: nat, i: nat)
    requires var x := Calls(s, k);
      && x.pc.ReadCreds? && x.pc.why == ToSeeLabel && x.creds.Some?
      && PRsOk(x.prs) && i < |x.prs| && x.prs[i].number == x.pc.t.status.prNumber
    ensures var x := Calls(s, k);
      Calls(s, k + 2) == x.(pc := if "needs-revision" in x.prs[i].labels
                                  then Write(x.pc.t, x.pc.t.status.(phase := AwaitingRevision))
                                  else Stop(x.pc.t, 120, false))
  {
    hide Calls, FindNumber;
    FindsByNumber(Calls(s, k).prs, i);
    ReadsCreds(s, k);
    Reads(s, k + 1, GotPR(Calls(s, k).prs[i]));
  }

  lemma FindsReviewed(w0: World, before: seq<Action>, name: string, i: nat)
    requires Initial(w0) && Waits(Run(w0, before), name)
    requires var w := Run(w0, before);
      && Current(w.tasks[name]).phase == AwaitingReview
      && i < |w.prs| && w.prs[i].number == Current(w.tasks[name]).prNumber
    ensures var w := Run(w0, before);
      var t := StoredTask(w, name);
      && Calls(Step(w, Start(name)), 3) == Taken(w, name, PRAnswer(t, ForReview, Some(w.prs[i])))
      && PRsOk(w.prs) && t.status.prNumber > 0 && t.status.namespace == Home(w, name)
  {
    hide Run, Step, Calls, Waits, NamespaceName, TasksOk, PcOk, FindNumber, PRAnswer;
    var w := Run(w0, before);
    StillWaits(w, name);
    var s := Step(w, Start(name));
    Begins(w0, before, name);
    ReadsCreds(s, 1);
    LooksUpPR(s, 2, name, i);
  }

  lemma ReviewIsAnswered(w0: World, before: seq<Action>, name: string, i: nat)
    requires Initial(w0) && Waits(Run(w0, before), name)
    requires var w := Run(w0, before);
      && Current(w.tasks[name]).phase == AwaitingReview
      && i < |w.prs| && w.prs[i].number == Current(w.tasks[name]).prNumber
    ensures var w := Run(w0, before);
      var w' := Served(w, name);
      var next := Verdict(w.prs[i]);
      && name in w'.tasks && w'.comments == w.comments && w'.prs == w.prs
      && w'.tasks[name].log
         == w.tasks[name].log + (if next.None? then [] else [Current(w.tasks[name]).(phase := next.value)])
      && (if next == Some(Completed) then NsOf(w', name).Some? ==> NsOf(w', name).value.terminating
          else w'.cluster == w.cluster)
      && w'.pc == Done(name, Result(if next.None? then 120 else 0, false))
  {
    hide Run, Step, Calls, Waits, NamespaceName, TasksOk, PcOk, FindNumber;
    var w := Run(w0, before);
    StillWaits(w, name);
    var s := Step(w, Start(name));
    var pr := w.prs[i];
    FindsReviewed(w0, before, name, i);
    hide Dispatch, CredsRead, Resume;
    if pr.merged || !pr.open {
      Deletes(s, 3);
      Writes(s, 4, name);
      CallsEnd(s, 5, 12);
    } else {
      LooksForLabel(s, 3, i);
      if "needs-revision" in pr.labels {
        Writes(s, 5, name);
        CallsEnd(s, 6, 12);
      } else {
        CallsEnd(s, 5, 12);
      }
    }
  }

  // ---------------------------------------------------------------- a question

  /** From the credentials to what is made of the last comment. */
  lemma Listens(s: World, k: nat)
    requires Calls(s, k).pc.ReadCreds? && Calls(s, k).pc.why == ToHearReply && Calls(s, k).creds.Some?
    ensures var x := Calls(s, k);
      Calls(s, k + 2) == x.(pc := if Replied(CommentsOn(x, x.pc.t.spec.issue)) then ReadCreds(x.pc.t, ToContinue)
                                  else Stop(x.pc.t, 60, false))
  {
    hide Calls, Replied, LastIsHuman, CommentsOn;
    var issue := Calls(s, k).pc.t.spec.issue;
    ReadsCreds(s, k);
    SameTalk(Calls(s, k), Calls(s, k + 1), issue);
    ReadsComments(s, k + 1);
    HumanHasLastWord(CommentsOn(Calls(s, k), issue));
  }

  lemma BeginsToListen(w0: World, before: seq<Action>, name: string)
    requires Initial(w0) && Rests(Run(w0, before), name)
    requires Current(Run(w0, before).tasks[name]).phase == Blocked
    ensures var w := Run(w0, before);
      Calls(Step(w, Start(name)), 1) == Taken(w, name, ReadCreds(StoredTask(w, name), ToHearReply))
  {
    hide Run, Step, Calls, NamespaceName;
    Begins(w0, before, name);
  }

  /** Nobody has answered, or the last word is a known bot's: the operator looks again in a minute,
      and that is all. */
  lemma NoAnswerNoAttempt(w0: World, before: seq<Action>, name: string)
    requires Initial(w0) && Waits(Run(w0, before), name)
    requires var w := Run(w0, before);
      Current(w.tasks[name]).phase == Blocked && !Replied(CommentsOn(w, IssueOf(w, name)))
    ensures var w := Run(w0, before);
      Served(w, name) == Taken(w, name, Done(name, Result(60, false)))
  {
    hide Run, Step, Calls, Waits, NamespaceName, Replied, LastIsHuman;
    var w := Run(w0, before);
    StillWaits(w, name);
    var s := Step(w, Start(name));
    BeginsToListen(w0, before, name);
    SameTalk(w, Calls(s, 1), IssueOf(w, name));
    hide Dispatch, CredsRead, Resume;
    Listens(s, 1);
    CallsEnd(s, 3, 12);
  }

  // ---------------------------------------------------------------- no run without an answer

  /** Blocked, and Reconcile has not got past the last comment. */
  predicate Asking(v: View) {
    && Fits(v) && Current(v.rec).phase == Blocked && HoldsCurrent(v)
    && (Held(v.pc).Some? ==> v.pc.LookReply? || v.pc == ReadCreds(Held(v.pc).value, ToHearReply))
  }

  /** Reconcile reads a page of the comments whose last word is no known bot's. */
  predicate Hears(w: World, a: Action, name: string) {
    && name in w.tasks && Owner(w.pc) == Some(name) && w.pc.LookReply?
    && a.Op? && a.fault == Clean && Replied(Page(CommentsOn(w, IssueOf(w, name)), a.drop))
  }

  predicate HearsNow(v: View, mv: Move) {
    mv.Called? && v.pc.LookReply? && mv.r.GotComments? && Replied(mv.r.comments)
  }

  lemma HearsProjects(w: World, a: Action, name: string)
    requires Basic(w) && name in w.tasks && !Hears(w, a, name)
    ensures !HearsNow(ViewOf(w, name), Share(w, a, name))
  {
    hide Replied, NsOf, NamespaceName, TasksOk, PRsOk, PcFits, CommentsOn;
    assert PcOk(w.tasks, w.pc);
  }

  lemma AskingMove(v: View, b: Backend, mv: Move)
    requires Asking(v) && Possible(v, b, mv) && CurrentRead(v, mv) && !HearsNow(v, mv)
    ensures var v' := Proceed(v, b, mv);
      && v'.rec.log == v.rec.log && LeftAlone(v.ns, v'.ns)
      && (Fits(v') ==> Asking(v'))
  {
    hide LogOk, NamespaceName, SecretName, NsCall, Replied, LastIsHuman, LeftAlone, NsMove;
    LeftAsItIs(v.ns);
    match mv
    case Called(r, took, now) =>
      hide Sensible, Next;
      CallAsks(v, b, r, took, now);
    case Shifted(m) => PodsLeft(v.ns, m);
    case _ =>
  }

  lemma CallAsks(v: View, b: Backend, r: Response, took: bool, now: nat)
    requires Asking(v) && Next(v.pc, b).Some? && Sensible(v, b, r, took)
    requires CurrentRead(v, Called(r, took, now)) && !HearsNow(v, Called(r, took, now))
    ensures RecordAfter(v, r, took).log == v.rec.log && NsAfter(v, b, took) == v.ns
    ensures var pc := Resume(v.pc, r, now);
      Held(pc).Some? ==>
        && (pc.LookReply? || pc == ReadCreds(Held(pc).value, ToHearReply))
        && Held(pc).value.version == |v.rec.log| - 1
  {
    hide LogOk, NamespaceName, SecretName, NsCall, Replied, LastIsHuman;
    if r.GotComments? {
      HumanHasLastWord(r.comments);
    }
  }

  lemma PodsLeft(ns: Option<Namespace>, m: EnvMove)
    requires NsMoving(m)
    ensures LeftAlone(ns, NsMove(ns, m))
  {
  }

  /** A blocked task goes on only by an answer: in every run with current reads of the task in which no
      page that Reconcile reads for it ends in a comment by anybody but the two known bots, nothing is
      committed for it, and no pod, policy or secret is made for it. */
  lemma {:induction false} NothingWithoutAnswer(w: World, actions: seq<Action>, name: string)
    requires Basic(w) && name in w.tasks && FreshRun(w, actions, name) && Asking(ViewOf(w, name))
    requires forall i :: 0 <= i < |actions| ==> !Hears(Run(w, actions[..i]), actions[i], name)
    ensures var w' := Run(w, actions);
      && name in w'.tasks && w'.tasks[name].log == w.tasks[name].log
      && LeftAlone(NsOf(w, name), NsOf(w', name))
      && Asking(ViewOf(w', name))
    decreases |actions|
  {
    hide Step, Basic, Share, Possible, Proceed, Fits, Owner, Held, CurrentRead, LeftAlone, Hears, HearsNow, Asking;
    if actions == [] {
      LeftAsItIs(NsOf(w, name));
    } else {
      var front, a := actions[..|actions| - 1], actions[|actions| - 1];
      assert forall i :: 0 <= i < |front| ==> front[..i] == actions[..i];
      FreshSoFar(w, actions, name);
      NothingWithoutAnswer(w, front, name);
      BasicRun(w, front);
      var mid := Run(w, front);
      StepProjects(mid, a, name);
      FreshIsCurrent(mid, a, name);
      assert !Hears(mid, a, name);
      HearsProjects(mid, a, name);
      AskingMove(ViewOf(mid, name), mid.backend, Share(mid, a, name));
      BasicStep(mid, a);
      BasicFits(Step(mid, a), name);
      LeftAloneOn(NsOf(w, name), NsOf(mid, name), NsOf(Step(mid, a), name));
    }
  }

  /** The run may start wherever the worker is not at the task. */
  lemma AskingWhenFree(w0: World, before: seq<Action>, name: string)
    requires Initial(w0) && name in Run(w0, before).tasks && Owner(Run(w0, before).pc) != Some(name)
    requires |Run(w0, before).tasks[name].log| > 0 && Current(Run(w0, before).tasks[name]).phase == Blocked
    ensures Basic(Run(w0, before)) && Asking(ViewOf(Run(w0, before), name))
  {
    hide Run, Basic, Settled, NsOf;
    Reachable(w0, before);
    BasicFits(Run(w0, before), name);
  }

  // ---------------------------------------------------------------- a finished task

  /** A task that is Completed or Failed is left as it is, and not looked at again. */
  lemma FinishedIsLeft(w: World, name: string)
    requires w.pc == Idle && name in w.queue && name in w.tasks && |w.tasks[name].log| > 0
    requires Current(w.tasks[name]).phase == Completed || Current(w.tasks[name]).phase == Failed
    ensures Served(w, name) == Taken(w, name, Done(name, Result(0, false)))
  {
    hide OpStep, Calls;
    var s := Step(w, Start(name));
    CallsBegin(s);
    Reads(s, 0, GotTask(StoredTask(w, name)));
    CallsEnd(s, 1, 12);
  }

  // ---------------------------------------------------------------- when something fails

  lemma LacksCreds(w: World, k: nat)
    requires Calls(w, k).pc.ReadCreds? && !Calls(w, k).pc.why.ToRemoveLabel? && Calls(w, k).creds.None?
    ensures var x := Calls(w, k); Calls(w, k + 1) == x.(pc := CredsMissing(x.pc.t, x.pc.why))
  {
    hide Calls, CredsMissing;
    Reads(w, k, NotFound);
  }

  /** Without the pipeline secret a success has to wait, but a failed pod means Failed, even if it has
      asked for clarification. */
  lemma PodsWithoutCredentials(w0: World, before: seq<Action>, name: string)
    requires Initial(w0) && Rests(Run(w0, before), name) && Run(w0, before).creds.None?
    requires var w := Run(w0, before);
      Active(Current(w.tasks[name]).phase) && Followed(NsOf(w, name)).Some?
    ensures var w := Run(w0, before);
      var w' := Served(w, name);
      var pod := Followed(NsOf(w, name)).value;
      && (pod.phase == PodSucceeded ==> w' == Taken(w, name, Done(name, Result(30, true))))
      && (pod.phase == PodFailed ==>
            && name in w'.tasks && w'.cluster == w.cluster
            && w'.tasks[name].log == w.tasks[name].log + [Current(w.tasks[name]).(phase := Failed)]
            && w'.pc == Done(name, Result(0, false)))
  {
    hide Run, Step, Calls, NamespaceName, Basic;
    var w := Run(w0, before);
    var s := Step(w, Start(name));
    var pod := Followed(NsOf(w, name)).value;
    var k := Follows(w0, before, name);
    if pod.phase == PodSucceeded {
      LacksCreds(s, k);
      CallsEnd(s, k + 1, 12);
    } else if pod.phase == PodFailed {
      LacksCreds(s, k);
      Writes(s, k + 1, name);
      CallsEnd(s, k + 2, 12);
    }
  }

  /** And no task gets past a review, a revision or a question; the operator tries again. */
  lemma WaitsWithoutCredentials(w0: World, before: seq<Action>, name: string)
    requires Initial(w0) && Rests(Run(w0, before), name) && Run(w0, before).creds.None?
    requires var p := Current(Run(w0, before).tasks[name]).phase;
      p == AwaitingReview || p == AwaitingRevision || p == Blocked
    ensures var w := Run(w0, before);
      var p := Current(w.tasks[name]).phase;
      Served(w, name) == Taken(w, name, Done(name, if p == AwaitingReview then Result(120, false)
                                                   else if p == AwaitingRevision then Result(30, true)
                                                   else Result(60, false)))
  {
    hide Run, Step, Calls, NamespaceName, Basic;
    var s := Step(Run(w0, before), Start(name));
    Begins(w0, before, name);
    LacksCreds(s, 1);
    CallsEnd(s, 2, 12);
  }

  /** The calls that Reconcile goes on after, whatever they come back with. */
  predicate Tolerates(pc: Pc) {
    match pc
    case DropLabel(_, _) => true
    case DropRevision(_, _) => true
    case DropNamespace(_, _) => true
    case LookRevision(_) => true
    case LookClarification(_) => true
    case ReadCreds(_, why) => why.ToRemoveLabel? || why == ToClarify
    case _ => false
  }

  /** The reads after whose failure Reconcile just waits for the next time. */
  predicate IsPatient(pc: Pc) {
    match pc
    case LookReply(_) => true
    case LookLabel(_) => true
    case LookPR(_, quest) => quest == ForReview
    case ReadCreds(_, why) => why == ToHearReply || why == ToSeeLabel || why == ToFindPR(ForReview)
    case _ => false
  }

  /** Where a failed call leads: to the end of the attempt, with an error or, after a patient read, with
      a time to look again; a tolerated one is taken as done, as "no such pod" or as no request. */
  predicate Fails(pc: Pc, pc': Pc) {
    && (!Tolerates(pc) ==>
          && pc'.Done?
          && if IsPatient(pc) then !pc'.result.err && pc'.result.requeueAfter > 0 else pc'.result.err)
    && (pc.DropLabel? ==> pc' == MakeNamespace(pc.t, Revise(pc.creds)))
    && (pc.ReadCreds? && pc.why.ToRemoveLabel? ==> pc' == MakeNamespace(pc.t, Revise(pc.why.creds)))
    && (pc.DropRevision? ==> pc' == MakePod(pc.t, Revise(pc.creds)))
    && (pc.DropNamespace? ==> pc' == Write(pc.t, pc.t.status.(phase := pc.next)))
    && (pc.LookRevision? ==> pc' == LookAgent(pc.t))
    && (pc.LookClarification? || (pc.ReadCreds? && pc.why == ToClarify) ==>
          pc' == Write(pc.t, pc.t.status.(phase := Failed)))
  }

  lemma ErrorFails(pc: Pc, now: nat)
    requires pc != Idle && !pc.Done?
    ensures Fails(pc, Resume(pc, OtherError, now))
  {
    hide NamespaceName, SecretName, BuildPod, BranchOf, AnyMentionsPR, AnyAsksClarification, LastIsHuman, FirstMatch;
  }

  /** A call that fails, before or after its effect, commits nothing unless it is the status write and
      had its effect, and leads where Fails says. */
  lemma FailedCallEnds(w: World, fault: Fault, lag: nat, drop: nat, name: string)
    requires Basic(w) && Owner(w.pc) == Some(name) && Next(w.pc, w.backend).Some? && fault != Clean
    ensures var w' := Step(w, Op(fault, lag, drop));
      && name in w.tasks && name in w'.tasks && Fails(w.pc, w'.pc) && Owner(w'.pc) == Some(name)
      && (w'.tasks[name].log == w.tasks[name].log || (w.pc.Write? && fault == Late))
  {
    hide Step, Fails, Resume, TasksOk, PRsOk, PcFits, Next, Exec, Owner, Held;
    OwnerIsStored(w, name);
    OpGoes(w, fault, lag, drop);
    NextMeansBusy(w.pc, w.backend);
    ErrorFails(w.pc, w.clock);
    ResumeHolds(w.pc, OtherError, w.clock);
    CallOnTasks(w, fault, lag, drop, name);
    if fault == Lost {
      LostCommitsNothing(w, fault, lag, drop, name);
    }
  }

  lemma OwnerIsStored(w: World, name: string)
    requires Basic(w) && Owner(w.pc) == Some(name)
    ensures name in w.tasks
  {
    hide TasksOk, PRsOk, PcFits;
  }

  lemma NextMeansBusy(pc: Pc, backend: Backend)
    requires Next(pc, backend).Some?
    ensures pc != Idle && !pc.Done?
  {
  }

  lemma LostCommitsNothing(w: World, fault: Fault, lag: nat, drop: nat, name: string)
    requires name in w.tasks && Next(w.pc, w.backend).Some? && name in Step(w, Op(fault, lag, drop)).tasks
    requires fault == Lost
    ensures Step(w, Op(fault, lag, drop)).tasks[name].log == w.tasks[name].log
  {
    hide Resume, Next, Exec;
  }
}
