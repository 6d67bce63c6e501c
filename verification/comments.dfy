/** The "PR: <url>" comment: over any run with complete listings the operator posts at most one
    per issue, and every task that has reached AwaitingReview has one on its issue. */
module Comments {
  import opened Names
  import opened Model
  import opened Machine
  import opened Base
  import opened History
  import opened Isolation
  import opened Invariants
  import opened Ownership

  function Posted(cs: seq<Comment>): nat {
    if cs == [] then 0
    else Posted(cs[..|cs| - 1]) + if cs[|cs| - 1].author == Operator then 1 else 0
  }

  lemma PostedAppends(cs: seq<Comment>, c: Comment)
    ensures Posted(cs + [c]) == Posted(cs) + if c.author == Operator then 1 else 0
  {
    assert (cs + [c])[..|cs|] == cs;
  }

  lemma MentionsAppends(cs: seq<Comment>, c: Comment)
    ensures AnyMentionsPR(cs + [c]) <==> AnyMentionsPR(cs) || MentionsPR(c.body)
  {
    hide MentionsPR;
    if AnyMentionsPR(cs) {
      var i :| 0 <= i < |cs| && MentionsPR(cs[i].body);
      assert MentionsPR((cs + [c])[i].body);
    }
    assert (cs + [c])[|cs|] == c;
  }

  predicate Https(url: string) {
    "https://" <= url
  }

  lemma PostMentions(url: string)
    requires Https(url)
    ensures MentionsPR("PR: " + url) && url != ""
  {
    assert "PR: https://" <= ("PR: " + url)[0..];
  }

  predicate MarkAt(body: string, i: int) {
    0 <= i <= |body| - 12 && "PR: https://" <= body[i..]
  }

  lemma MentionsSomewhere(body: string)
    ensures MentionsPR(body) <==> exists i :: MarkAt(body, i)
  {
    if MentionsPR(body) {
      var i :| 0 <= i <= |body| - 12 && "PR: https://" <= body[i..];
      assert MarkAt(body, i);
    }
    if i :| MarkAt(body, i) {
      assert 0 <= i <= |body| - |"PR: https://"| && "PR: https://" <= body[i..];
    }
  }

  lemma MarkMoves(url: string, i: int)
    ensures i >= 4 ==> (MarkAt("PR: " + url, i) <==> MarkAt(url, i - 4))
    ensures 0 < i < 4 ==> !MarkAt("PR: " + url, i)
    ensures MarkAt("PR: " + url, 0) <==> Https(url)
  {
    var body := "PR: " + url;
    if i >= 4 {
      assert i <= |body| ==> body[i..] == url[i - 4..];
    }
    assert 0 < i < |body| ==> body[i..][0] == body[i];
    assert "PR: https://" == "PR: " + "https://";
    assert body[0..] == body;
    if Https(url) {
      assert body == "PR: https://" + url[8..];
    }
    if MarkAt(body, 0) {
      assert body[4..12] == "https://";
      assert url[..8] == body[4..12];
    }
  }

  /** Exactly when the operator recognises its own comment: a URL with another scheme is posted
      again on every retry. */
  lemma OwnCommentRecognised(url: string)
    ensures MentionsPR("PR: " + url) <==> Https(url) || MentionsPR(url)
  {
    hide MentionsPR, Https;
    var body := "PR: " + url;
    MentionsSomewhere(body);
    MentionsSomewhere(url);
    MarkMoves(url, 0);
    if i :| MarkAt(body, i) {
      MarkMoves(url, i);
    }
    if i :| MarkAt(url, i) {
      MarkMoves(url, i + 4);
    }
  }

  // ---------------------------------------------------------------- the runs considered

  predicate HttpsAction(a: Action) {
    a.Env? && a.move.OpenPR? ==> Https(a.move.url)
  }

  /** If this is the listing that ensurePRCommentOnIssue asks for on `issue`, and the operator has
      posted there, the page that comes back has a mention. */
  predicate ShowsOwn(w: World, a: Action, issue: int) {
    var cs := CommentsOn(w, issue);
    a.Op? && w.pc.LookComments? && w.pc.t.spec.issue == issue && Posted(cs) > 0 ==> AnyMentionsPR(Page(cs, a.drop))
  }

  /** Pull requests have https URLs, and no page that is read for `issue` stops short of the
      operator's own comment. */
  predicate HttpsAndShown(w: World, actions: seq<Action>, issue: int) {
    forall i :: 0 <= i < |actions| ==> HttpsAction(actions[i]) && ShowsOwn(Run(w, actions[..i]), actions[i], issue)
  }

  predicate AllHttps(prs: seq<PullRequest>) {
    forall i :: 0 <= i < |prs| ==> Https(prs[i].url)
  }

  // ---------------------------------------------------------------- the invariant

  function Chosen(pc: Pc): Option<PullRequest> {
    match pc
    case ReadCreds(_, why) => if why.ToComment? then Some(why.pr) else None
    case LookComments(_, pr) => Some(pr)
    case PostComment(_, pr) => Some(pr)
    case _ => None
  }

  predicate ToReview(pc: Pc) {
    pc.Write? && pc.status.phase == AwaitingReview
  }

  predicate PcCommented(pc: Pc, cs: seq<Comment>) {
    && (Chosen(pc).Some? ==> Https(Chosen(pc).value.url))
    && (pc.PostComment? ==> Posted(cs) == 0)
    && (ToReview(pc) ==> AnyMentionsPR(cs))
  }

  predicate OncePosted(cs: seq<Comment>) {
    Posted(cs) <= 1 && (Posted(cs) == 1 ==> AnyMentionsPR(cs))
  }

  predicate Commented(w: World, name: string)
    requires name in w.tasks
  {
    var cs := CommentsOn(w, w.tasks[name].spec.issue);
    && |w.tasks[name].log| > 0
    && OncePosted(cs)
    && (Current(w.tasks[name]).prNumber != 0 ==> AnyMentionsPR(cs))
    && (Owner(w.pc) == Some(name) ==> PcCommented(w.pc, cs))
  }

  // ---------------------------------------------------------------- what a step does to an issue

  /** The URL Reconcile is about to post on `issue`, if it is. */
  function Posting(w: World, a: Action, issue: int): Option<string> {
    if a.Op? && w.pc.PostComment? && w.pc.t.spec.issue == issue then Some(w.pc.pr.url) else None
  }

  function Post(url: string): Comment {
    Comment(Operator, "PR: " + url)
  }

  ghost predicate Grown(cs: seq<Comment>, cs': seq<Comment>, post: Option<string>) {
    || cs' == cs
    || (exists c: Comment :: c.author != Operator && cs' == cs + [c])
    || (post.Some? && cs' == cs + [Post(post.value)])
  }

  lemma GrownFacts(cs: seq<Comment>, cs': seq<Comment>, post: Option<string>)
    requires Grown(cs, cs', post) && OncePosted(cs)
    requires post.Some? ==> Posted(cs) == 0 && Https(post.value)
    ensures OncePosted(cs')
    ensures AnyMentionsPR(cs) ==> AnyMentionsPR(cs')
    ensures post.None? ==> Posted(cs') == Posted(cs)
    ensures post.Some? && cs' == cs + [Post(post.value)] ==> AnyMentionsPR(cs')
  {
    hide Posted, AnyMentionsPR, MentionsPR, Https;
    if post.Some? && cs' == cs + [Post(post.value)] {
      PostMentions(post.value);
      PostedAppends(cs, Post(post.value));
      MentionsAppends(cs, Post(post.value));
    } else if cs' != cs {
      var c: Comment :| c.author != Operator && cs' == cs + [c];
      PostedAppends(cs, c);
      MentionsAppends(cs, c);
    }
  }

  /** Comments are only added, and the operator adds one only from PostComment, on its issue. */
  lemma StepAdds(w: World, a: Action, issue: int)
    ensures Grown(CommentsOn(w, issue), CommentsOn(Step(w, a), issue), Posting(w, a, issue))
  {
    match a
    case Op(fault, lag, drop) =>
      if Next(w.pc, w.backend).Some? {
        CallAdds(w, fault, lag, drop, issue);
      }
      hide OpStep, Next;
    case Env(m) =>
      EnvAdds(w, m, issue);
      hide *;
    case _ =>
      hide OpStep, EnvStep, Next;
  }

  lemma EnvAdds(w: World, m: EnvMove, issue: int)
    ensures Grown(CommentsOn(w, issue), CommentsOn(Step(w, Env(m)), issue), None)
  {
    hide NsMove, TaskName, FindNumber, PRAfter;
    if m.Say? && m.issue == issue {
      assert CommentsOn(EnvStep(w, m), issue) == CommentsOn(w, issue) + [Comment(Other(m.login), m.body)];
    }
  }

  lemma CallAdds(w: World, fault: Fault, lag: nat, drop: nat, issue: int)
    requires Next(w.pc, w.backend).Some?
    ensures Grown(CommentsOn(w, issue), CommentsOn(Step(w, Op(fault, lag, drop)), issue),
                  Posting(w, Op(fault, lag, drop), issue))
    ensures w.pc.PostComment? && w.pc.t.spec.issue == issue && fault != Lost ==>
      CommentsOn(Step(w, Op(fault, lag, drop)), issue) == CommentsOn(w, issue) + [Post(w.pc.pr.url)]
  {
    hide Exec, Resume;
    OnlyWriteUpdates(w.pc, w.backend);
    ExecComments(w, Next(w.pc, w.backend).value, lag, drop);
    if !w.pc.PostComment? {
      hide Next;
    }
  }

  lemma UrlsStay(w: World, a: Action)
    requires AllHttps(w.prs) && HttpsAction(a)
    ensures AllHttps(Step(w, a).prs)
  {
    hide Https;
    match a
    case Op(fault, lag, drop) =>
      if Next(w.pc, w.backend).Some? {
        CallOnPRs(w, fault, lag, drop);
      }
      hide OpStep, Next;
    case Env(m) => hide NsMove, TaskName, CommentsOn;
    case _ =>
  }

  // ---------------------------------------------------------------- Reconcile's own calls

  /** What the next control point promises, and why it may. */
  lemma NextPromises(pc: Pc, r: Response, now: nat, cs: seq<Comment>, cs': seq<Comment>)
    requires PcFits(pc) && PcCommented(pc, cs) && OncePosted(cs)
    requires r.GotPR? || r.GotPRs? ==> pc.LookPR? || pc.LookLabel?
    requires r.GotPR? ==> Https(r.pr.url)
    requires r.GotPRs? ==> forall pr :: pr in r.prs ==> Https(pr.url)
    requires pc.LookComments? && r.GotComments? && AnyMentionsPR(r.comments) ==> AnyMentionsPR(cs)
    requires pc.LookComments? && r.GotComments? && !AnyMentionsPR(r.comments) ==> Posted(cs) == 0
    requires !pc.PostComment? ==> Posted(cs') == Posted(cs)
    requires AnyMentionsPR(cs) ==> AnyMentionsPR(cs')
    requires pc.PostComment? && r == Ack ==> AnyMentionsPR(cs')
    ensures PcCommented(Resume(pc, r, now), cs')
  {
    hide NamespaceName, SecretName, BranchOf, AnyMentionsPR, AnyAsksClarification, LastIsHuman, FirstMatch, StatusOk;
    hide Posted;
    assert Https("") == false;
  }

  lemma PageMentions(cs: seq<Comment>, drop: nat)
    ensures AnyMentionsPR(Page(cs, drop)) ==> AnyMentionsPR(cs)
  {
    var page := Page(cs, drop);
    if AnyMentionsPR(page) {
      var i :| 0 <= i < |page| && MentionsPR(page[i].body);
      assert cs[i] == page[i];
    }
  }

  lemma ListingShows(w: World, fault: Fault, lag: nat, drop: nat)
    requires w.pc.LookComments? && ShowsOwn(w, Op(fault, lag, drop), w.pc.t.spec.issue)
    ensures var r := Attempt(w, Next(w.pc, w.backend).value, fault, lag, drop).1;
      var cs := CommentsOn(w, w.pc.t.spec.issue);
      r.GotComments? ==>
        (AnyMentionsPR(r.comments) ==> AnyMentionsPR(cs)) && (!AnyMentionsPR(r.comments) ==> Posted(cs) == 0)
  {
    hide NsCall, CommentsOn, AnyMentionsPR, Posted, Page;
    PageMentions(CommentsOn(w, w.pc.t.spec.issue), drop);
  }

  lemma AnswersHttps(w: World, fault: Fault, lag: nat, drop: nat)
    requires Basic(w) && AllHttps(w.prs) && Next(w.pc, w.backend).Some?
    ensures var r := Attempt(w, Next(w.pc, w.backend).value, fault, lag, drop).1;
      && (r.GotPR? || r.GotPRs? ==> w.pc.LookPR? || w.pc.LookLabel?)
      && (r.GotPR? ==> Https(r.pr.url))
      && (r.GotPRs? ==> forall pr :: pr in r.prs ==> Https(pr.url))
  {
    AnswerFits(w, fault, lag, drop);
    hide Attempt, Next, Basic, Https;
  }

  lemma OwnPc(w: World, fault: Fault, lag: nat, drop: nat, name: string)
    requires Basic(w) && AllHttps(w.prs) && name in w.tasks && Commented(w, name)
    requires OwnCall(w, Op(fault, lag, drop), name) && ShowsOwn(w, Op(fault, lag, drop), w.tasks[name].spec.issue)
    ensures var w' := Step(w, Op(fault, lag, drop));
      && OncePosted(CommentsOn(w', w.tasks[name].spec.issue))
      && (AnyMentionsPR(CommentsOn(w, w.tasks[name].spec.issue)) ==>
            AnyMentionsPR(CommentsOn(w', w.tasks[name].spec.issue)))
      && PcCommented(w'.pc, CommentsOn(w', w.tasks[name].spec.issue))
  {
    hide Step, Attempt, Next, Resume, CommentsOn, Posted, AnyMentionsPR, Https, PcFits, AllHttps, Owner, ShowsOwn;
    var a := Op(fault, lag, drop);
    var w' := Step(w, a);
    var issue := w.tasks[name].spec.issue;
    var cs, cs' := CommentsOn(w, issue), CommentsOn(w', issue);
    var r := Attempt(w, Next(w.pc, w.backend).value, fault, lag, drop).1;
    OpGoes(w, fault, lag, drop);
    StepAdds(w, a, issue);
    CallAdds(w, fault, lag, drop, issue);
    AnswersHttps(w, fault, lag, drop);
    HeldIsOwned(w.pc);
    assert PcOk(w.tasks, w.pc);
    AckedTook(w, fault, lag, drop);
    if w.pc.LookComments? {
      ListingShows(w, fault, lag, drop);
    }
    GrownFacts(cs, cs', Posting(w, a, issue));
    NextPromises(w.pc, r, w.clock, cs, cs');
  }

  lemma AckedTook(w: World, fault: Fault, lag: nat, drop: nat)
    requires Next(w.pc, w.backend).Some?
    ensures Attempt(w, Next(w.pc, w.backend).value, fault, lag, drop).1 == Ack ==> fault != Lost
  {
    hide Exec, Next;
  }

  lemma CommitCommented(w: World, name: string)
    requires Basic(w) && name in w.tasks && Commented(w, name) && Owner(w.pc) == Some(name)
    requires w.pc.Write? && w.pc.t.version == |w.tasks[name].log| - 1
    ensures w.pc.status.prNumber != 0 ==> AnyMentionsPR(CommentsOn(w, w.tasks[name].spec.issue))
  {
    hide StatusOk, TasksOk, PRsOk, PhaseEdge, AnyMentionsPR, CommentsOn, Posted, Https;
    assert PcOk(w.tasks, w.pc);
  }

  lemma StepCommented(w: World, a: Action, name: string)
    requires Basic(w) && AllHttps(w.prs) && HttpsAction(a) && name in w.tasks && Commented(w, name)
    requires ShowsOwn(w, a, w.tasks[name].spec.issue)
    ensures name in Step(w, a).tasks && Commented(Step(w, a), name)
  {
    hide Step, Basic, Next, Held, AnyMentionsPR, CommentsOn, Posted, Https, AllHttps, ShowsOwn;
    var w' := Step(w, a);
    var issue := w.tasks[name].spec.issue;
    StepCommits(w, a, name);
    if OwnCall(w, a, name) {
      OwnPc(w, a.fault, a.lag, a.drop, name);
      if w'.tasks[name].log != w.tasks[name].log {
        CommitCommented(w, name);
      }
    } else {
      NotPosting(w, a, name);
      StepAdds(w, a, issue);
      if Owner(w'.pc) == Some(name) {
        PcMoves(w, a, name);
      }
      GrownFacts(CommentsOn(w, issue), CommentsOn(w', issue), None);
    }
  }

  lemma NotPosting(w: World, a: Action, name: string)
    requires Basic(w) && name in w.tasks && !OwnCall(w, a, name)
    ensures Posting(w, a, w.tasks[name].spec.issue) == None
  {
    hide NamespaceName, TasksOk, PcFits;
    if a.Op? && w.pc.PostComment? {
      assert PcOk(w.tasks, w.pc);
      assert Snapshot(w.tasks, w.pc.t);
      HomesDiffer(w, name, w.pc.t.name);
      NamespaceInjective(w.tasks[name].spec.issue, w.tasks[w.pc.t.name].spec.issue);
    }
  }

  // ---------------------------------------------------------------- runs

  /** Before its task exists, nobody has posted on an issue for the operator. */
  predicate IssueOk(w: World, issue: int) {
    var name := TaskName(w.repo, issue);
    if name in w.tasks then w.tasks[name].spec.issue == issue && Commented(w, name)
    else Posted(CommentsOn(w, issue)) == 0
  }

  lemma UntouchedIssue(w: World, a: Action, issue: int)
    requires Basic(w) && Settled(w) && AllHttps(w.prs) && HttpsAction(a) && issue >= 1
    requires TaskName(w.repo, issue) !in w.tasks && IssueOk(w, issue)
    ensures IssueOk(Step(w, a), issue)
  {
    hide AnyMentionsPR, Posted, CommentsOn, Step, Basic, Settled, TaskName, AllHttps, NsOf;
    var name := TaskName(w.repo, issue);
    var w' := Step(w, a);
    StepAdds(w, a, issue);
    BackendStays(w, a);
    NobodyPosts(w, a, issue);
    assert OncePosted(CommentsOn(w, issue));
    GrownFacts(CommentsOn(w, issue), CommentsOn(w', issue), None);
    if name in w'.tasks {
      BornNew(w, a, name);
      BasicStep(w, a);
      SpecOfName(w', issue);
    }
  }

  lemma SpecOfName(w: World, issue: int)
    requires Basic(w) && issue >= 1 && TaskName(w.repo, issue) in w.tasks
    ensures w.tasks[TaskName(w.repo, issue)].spec.issue == issue
  {
    var rec := w.tasks[TaskName(w.repo, issue)];
    assert RecordOk(w.repo, TaskName(w.repo, issue), rec);
    TaskNameInjective(w.repo, rec.spec.issue, w.repo, issue);
    hide TaskName, LogOk, PcOk, PRsOk;
  }

  lemma NobodyPosts(w: World, a: Action, issue: int)
    requires Basic(w) && TaskName(w.repo, issue) !in w.tasks
    ensures Posting(w, a, issue) == None
  {
    if a.Op? && w.pc.PostComment? {
      assert PcOk(w.tasks, w.pc);
      assert Snapshot(w.tasks, w.pc.t);
      assert RecordOk(w.repo, w.pc.t.name, w.tasks[w.pc.t.name]);
    }
    hide TaskName, PcFits, LogOk;
  }

  lemma InitialIssueOk(w: World, issue: int)
    requires Initial(w)
    ensures AllHttps(w.prs) && IssueOk(w, issue)
  {
    hide TaskName;
  }

  lemma {:induction false} IssuesOk(w: World, actions: seq<Action>, issue: int)
    requires Initial(w) && HttpsAndShown(w, actions, issue) && issue >= 1
    ensures AllHttps(Run(w, actions).prs) && IssueOk(Run(w, actions), issue)
    decreases |actions|
  {
    hide Step, Basic, Settled, TaskName, AllHttps, Commented, Posted, ShowsOwn, HttpsAction;
    if actions == [] {
      InitialIssueOk(w, issue);
    } else {
      var front, a := actions[..|actions| - 1], actions[|actions| - 1];
      assert forall i :: 0 <= i < |front| ==> front[..i] == actions[..i];
      IssuesOk(w, front, issue);
      Reachable(w, front);
      var mid := Run(w, front);
      assert HttpsAction(a) && ShowsOwn(mid, a, issue);
      UrlsStay(mid, a);
      BackendStays(mid, a);
      if TaskName(mid.repo, issue) in mid.tasks {
        StepCommented(mid, a, TaskName(mid.repo, issue));
        StepCommits(mid, a, TaskName(mid.repo, issue));
      } else {
        UntouchedIssue(mid, a, issue);
      }
    }
  }

  /** In every such run, over any faults and crashes, the operator posts at most one comment on
      an issue, and a task that has reached AwaitingReview has a "PR: https://" comment on its
      issue. */
  lemma OneCommentPerIssue(w: World, actions: seq<Action>, name: string)
    requires Initial(w) && name in Run(w, actions).tasks
    requires HttpsAndShown(w, actions, Run(w, actions).tasks[name].spec.issue)
    ensures var w' := Run(w, actions);
      var rec := w'.tasks[name];
      && Posted(CommentsOn(w', rec.spec.issue)) <= 1
      && forall i :: 0 <= i < |rec.log| && HasPR(rec.log[i].phase) ==> AnyMentionsPR(CommentsOn(w', rec.spec.issue))
  {
    hide Run, Settled, PcOk, PRsOk, TaskName, Posted, AnyMentionsPR, CommentsOn, AllHttps;
    var w' := Run(w, actions);
    Reachable(w, actions);
    var rec := w'.tasks[name];
    assert RecordOk(w'.repo, name, rec);
    IssuesOk(w, actions, rec.spec.issue);
    forall i | 0 <= i < |rec.log| && HasPR(rec.log[i].phase) ensures AnyMentionsPR(CommentsOn(w', rec.spec.issue)) {
      assert StatusOk(rec.log[i], rec.spec.issue);
      WrittenOnce(rec.log, rec.spec.issue, i, |rec.log| - 1);
    }
  }
}
