/** Where credentials go: every secret in a task's namespace is, key by key, a copy of the pipeline
    secret as it once stood, and so is what its pods find in their environment. */
module Secrets {
  import opened Names
  import opened Model
  import opened Machine
  import opened Base
  import opened Isolation
  import opened Invariants
  import opened Sandbox

  function Entry(data: map<string, string>, key: string): string {
    if key in data then data[key] else ""
  }

  /** The keys of a task's secret. */
  const KEYS := {"github-token", "claude-token", "claude-auth-mode", "git-author-name", "git-author-email"}

  /** The task secret holds under each of its keys what the pipeline secret has there, or nothing. */
  predicate CopyOf(creds: Creds, data: map<string, string>) {
    SecretData(creds).Keys == KEYS && forall k :: k in KEYS ==> SecretData(creds)[k] == Entry(data, k)
  }

  lemma CredsAreCopied(data: map<string, string>)
    ensures CopyOf(CredsOf(data), data)
  {
  }

  // ---------------------------------------------------------------- what Reconcile carries

  /** The credentials Reconcile carries at a control point are good. */
  ghost predicate Carries(pc: Pc, good: Creds -> bool) {
    match pc
    case ReadCreds(_, why) => why.ToRemoveLabel? ==> good(why.creds)
    case MakeNamespace(_, job) => job.Launch? || good(job.creds)
    case LookPolicy(_, job) => job.Launch? || good(job.creds)
    case PutPolicy(_, job, _) => job.Launch? || good(job.creds)
    case MakeSecret(_, job, creds) => good(creds) && (job.Launch? || good(job.creds))
    case DropRevision(_, creds) => good(creds)
    case MakePod(_, job) => job.Launch? || good(job.creds)
    case DropLabel(_, creds) => good(creds)
    case _ => true
  }

  ghost predicate Keeps(ns: Option<Namespace>, good: Creds -> bool) {
    ns.Some? ==> forall s :: s in ns.value.secrets ==> good(ns.value.secrets[s])
  }

  ghost predicate AllGood(v: View, good: Creds -> bool) {
    Carries(v.pc, good) && Keeps(v.ns, good)
  }

  lemma ResumeCarries(pc: Pc, r: Response, now: nat, good: Creds -> bool)
    requires Carries(pc, good) && (r.GotCreds? ==> good(r.creds))
    ensures Carries(Resume(pc, r, now), good)
  {
    hide NamespaceName, SecretName, BranchOf, AnyMentionsPR, AnyAsksClarification, LastIsHuman, FirstMatch, Provisioned;
  }

  /** The credentials Reconcile means to hand on, once it has read them for that. */
  function Chosen(pc: Pc): Option<Creds> {
    match pc
    case ReadCreds(_, why) => if why.ToRemoveLabel? then Some(why.creds) else None
    case MakeNamespace(_, job) => if job.Launch? then None else Some(job.creds)
    case LookPolicy(_, job) => if job.Launch? then None else Some(job.creds)
    case PutPolicy(_, job, _) => if job.Launch? then None else Some(job.creds)
    case MakeSecret(_, _, creds) => Some(creds)
    case DropLabel(_, creds) => Some(creds)
    case _ => None
  }

  /** What was read first is what goes into the secret: a revision's later read, made to take the label
      off, does not count. */
  lemma FirstReadCounts(pc: Pc, r: Response, now: nat)
    requires Chosen(pc).Some? && Chosen(Resume(pc, r, now)).Some?
    ensures Chosen(Resume(pc, r, now)) == Chosen(pc)
  {
    hide NamespaceName, SecretName, BranchOf, AnyMentionsPR, AnyAsksClarification, LastIsHuman, FirstMatch, Provisioned;
  }

  lemma CallKeepsSecrets(v: View, b: Backend, took: bool, good: Creds -> bool)
    requires AllGood(v, good) && Next(v.pc, b).Some?
    ensures Keeps(NsAfter(v, b, took), good)
  {
    hide NamespaceName, SecretName, BuildPod;
  }

  lemma MoveKeepsSecrets(v: View, b: Backend, mv: Move, good: Creds -> bool)
    requires AllGood(v, good) && Possible(v, b, mv) && (mv.Called? && mv.r.GotCreds? ==> good(mv.r.creds))
    ensures AllGood(Proceed(v, b, mv), good)
  {
    hide Resume, NsAfter, Next, Sensible, RecordAfter;
    match mv
    case Called(r, took, now) =>
      ResumeCarries(v.pc, r, now, good);
      CallKeepsSecrets(v, b, took, good);
    case _ =>
  }

  // ---------------------------------------------------------------- runs

  /** The pipeline secret stood so at some point of the run. */
  ghost predicate Stood(w: World, actions: seq<Action>, creds: Creds) {
    exists i :: 0 <= i <= |actions| && StoodAt(Run(w, actions[..i]), creds)
  }

  predicate StoodAt(w: World, creds: Creds) {
    w.creds.Some? && CopyOf(creds, w.creds.value)
  }

  lemma StoodOn(w: World, actions: seq<Action>, creds: Creds)
    requires actions != [] && Stood(w, actions[..|actions| - 1], creds)
    ensures Stood(w, actions, creds)
  {
    hide Run, StoodAt;
    var front := actions[..|actions| - 1];
    var i :| 0 <= i <= |front| && StoodAt(Run(w, front[..i]), creds);
    assert actions[..i] == front[..i];
  }

  lemma AnswerStands(w: World, fault: Fault, lag: nat, drop: nat)
    requires Next(w.pc, w.backend).Some?
    ensures var r := Attempt(w, Next(w.pc, w.backend).value, fault, lag, drop).1;
      r.GotCreds? ==> StoodAt(w, r.creds)
  {
    hide NamespaceName, SecretName, BuildPod, CredsOf, CopyOf;
    if w.creds.Some? {
      CredsAreCopied(w.creds.value);
    }
  }

  lemma {:induction false} AlwaysGood(w: World, actions: seq<Action>, name: string)
    requires Initial(w) && name in Run(w, actions).tasks
    ensures AllGood(ViewOf(Run(w, actions), name), creds => Stood(w, actions, creds))
    decreases |actions|
  {
    hide Step, ViewOf, Proceed, Possible, Basic, Settled, Stood, AllGood, Next, Attempt;
    var good := (creds: Creds) => Stood(w, actions, creds);
    if actions != [] {
      var front, a := actions[..|actions| - 1], actions[|actions| - 1];
      var mid := Run(w, front);
      Reachable(w, front);
      if name in mid.tasks {
        AlwaysGood(w, front, name);
        forall creds | Stood(w, front, creds) ensures Stood(w, actions, creds) {
          StoodOn(w, actions, creds);
        }
        StaysGood(ViewOf(mid, name), creds => Stood(w, front, creds), good);
        StepProjects(mid, a, name);
        if a.Op? && Next(mid.pc, mid.backend).Some? {
          AnswerStands(mid, a.fault, a.lag, a.drop);
          StandsNow(w, actions);
        }
        MoveKeepsSecrets(ViewOf(mid, name), mid.backend, Share(mid, a, name), good);
      } else {
        BornNew(mid, a, name);
        BornGood(name, Step(mid, a).tasks[name].spec, good);
      }
    }
  }

  lemma StandsNow(w: World, actions: seq<Action>)
    requires actions != []
    ensures forall creds :: StoodAt(Run(w, actions[..|actions| - 1]), creds) ==> Stood(w, actions, creds)
  {
    hide Run, StoodAt;
  }

  lemma StaysGood(v: View, good: Creds -> bool, better: Creds -> bool)
    requires AllGood(v, good) && forall creds :: good(creds) ==> better(creds)
    ensures AllGood(v, better)
  {
  }

  lemma BornGood(name: string, spec: Spec, good: Creds -> bool)
    ensures AllGood(Newborn(name, spec), good)
  {
  }

  /** In every run, whatever becomes of the pipeline secret meanwhile: each secret in a task's
      namespace is a copy of the pipeline secret as it stood at some point. */
  lemma SecretsAreCopies(w: World, actions: seq<Action>, name: string, secret: string)
    requires Initial(w) && name in Run(w, actions).tasks
    requires NsOf(Run(w, actions), name).Some? && secret in NsOf(Run(w, actions), name).value.secrets
    ensures var creds := NsOf(Run(w, actions), name).value.secrets[secret];
      exists i :: 0 <= i <= |actions| && StoodAt(Run(w, actions[..i]), creds)
  {
    hide Run, StoodAt;
    AlwaysGood(w, actions, name);
    var creds := NsOf(Run(w, actions), name).value.secrets[secret];
    assert Stood(w, actions, creds);
  }

  /** The environment a pod takes from the secret. */
  function Environment(pod: Pod, creds: Creds): map<string, string>
    requires forall x :: x in SecretEnv(pod.backend) ==> SecretEnv(pod.backend)[x] in SecretData(creds)
  {
    map x | x in SecretEnv(pod.backend) :: SecretData(creds)[SecretEnv(pod.backend)[x]]
  }

  /** What a pod should find: tokens and author from the pipeline secret, Claude's only for Claude. */
  function Delivered(b: Backend, data: map<string, string>): map<string, string> {
    map["GITHUB_PERSONAL_ACCESS_TOKEN" := Entry(data, "github-token"),
        "GITHUB_TOKEN" := Entry(data, "github-token"),
        "GIT_AUTHOR_NAME" := Entry(data, "git-author-name"),
        "GIT_AUTHOR_EMAIL" := Entry(data, "git-author-email"),
        "GIT_COMMITTER_NAME" := Entry(data, "git-author-name"),
        "GIT_COMMITTER_EMAIL" := Entry(data, "git-author-email")] +
    if b == Aider then map[]
    else
      map["CLAUDE_CODE_OAUTH_TOKEN" := Entry(data, "claude-token"),
          "ANTHROPIC_API_KEY" := Entry(data, "claude-token"),
          "CLAUDE_AUTH_MODE" := Entry(data, "claude-auth-mode")]
  }

  /** What every agent finds in its environment: the tokens and the author of one state of the
      pipeline secret, and nothing of Claude's when the backend is Aider. */
  lemma PodsSeeTheSecret(w: World, actions: seq<Action>, name: string, slot: Slot)
    returns (data: map<string, string>)
    requires Initial(w) && name in Run(w, actions).tasks && PodOf(NsOf(Run(w, actions), name), slot).Some?
    ensures exists i :: 0 <= i <= |actions| && Run(w, actions[..i]).creds == Some(data)
    ensures var ns := NsOf(Run(w, actions), name).value;
      var pod := PodIn(ns, slot).value;
      Sandboxed(ns, pod) && Environment(pod, ns.secrets[pod.secret]) == Delivered(pod.backend, data)
  {
    hide Run, Sandboxed, SecretData, SecretEnv, NamespaceName;
    NoPodOutsideSandbox(w, actions, name, slot);
    var ns := NsOf(Run(w, actions), name).value;
    var pod := PodIn(ns, slot).value;
    SandboxedHasSecret(ns, pod);
    SecretsAreCopies(w, actions, name, pod.secret);
    var creds := ns.secrets[pod.secret];
    var i :| 0 <= i <= |actions| && StoodAt(Run(w, actions[..i]), creds);
    data := Run(w, actions[..i]).creds.value;
    EnvironmentIs(pod, creds, data);
  }

  lemma SandboxedHasSecret(ns: Namespace, pod: Pod)
    requires Sandboxed(ns, pod)
    ensures pod.secret in ns.secrets
    ensures forall x :: x in SecretEnv(pod.backend) ==> SecretEnv(pod.backend)[x] in SecretData(ns.secrets[pod.secret])
  {
    hide SecretEnv, SecretData, Encloses;
  }

  lemma EnvironmentIs(pod: Pod, creds: Creds, data: map<string, string>)
    requires CopyOf(creds, data)
    requires forall x :: x in SecretEnv(pod.backend) ==> SecretEnv(pod.backend)[x] in SecretData(creds)
    ensures Environment(pod, creds) == Delivered(pod.backend, data)
  {
    hide SecretData, Entry, SecretEnv, Delivered;
    VariablesAre(pod.backend, data);
    var env := Environment(pod, creds);
    assert env.Keys == SecretEnv(pod.backend).Keys;
    forall x | x in env ensures env[x] == Delivered(pod.backend, data)[x] {
      VariableIs(pod.backend, data, x);
    }
  }

  lemma VariablesAre(b: Backend, data: map<string, string>)
    ensures SecretEnv(b).Keys == Delivered(b, data).Keys
  {
    hide Entry;
  }

  lemma VariableIs(b: Backend, data: map<string, string>, x: string)
    requires x in SecretEnv(b)
    ensures x in Delivered(b, data) && SecretEnv(b)[x] in KEYS
    ensures Delivered(b, data)[x] == Entry(data, SecretEnv(b)[x])
  {
    hide Entry;
  }
}
