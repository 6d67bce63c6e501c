/** No agent pod without its sandbox: wherever a run stops, the namespace of every agent pod
    already holds the egress policy and the secret, with every key the pod refers to. */
module Sandbox {
  import opened Names
  import opened Model
  import opened Machine
  import opened Base
  import opened Isolation
  import opened Invariants

  // ---------------------------------------------------------------- what a pod refers to

  /** The keys of the task secret. */
  function SecretData(creds: Creds): map<string, string> {
    map["github-token" := creds.githubToken, "claude-token" := creds.claudeToken,
        "claude-auth-mode" := creds.claudeAuthMode, "git-author-name" := creds.gitAuthorName,
        "git-author-email" := creds.gitAuthorEmail]
  }

  /** The environment variables a pod takes from the secret, each with its key there. */
  function SecretEnv(backend: Backend): map<string, string> {
    map["GITHUB_PERSONAL_ACCESS_TOKEN" := "github-token", "GITHUB_TOKEN" := "github-token",
        "GIT_AUTHOR_NAME" := "git-author-name", "GIT_AUTHOR_EMAIL" := "git-author-email",
        "GIT_COMMITTER_NAME" := "git-author-name", "GIT_COMMITTER_EMAIL" := "git-author-email"] +
    if backend == Claude then
      map["CLAUDE_CODE_OAUTH_TOKEN" := "claude-token", "ANTHROPIC_API_KEY" := "claude-token",
          "CLAUDE_AUTH_MODE" := "claude-auth-mode"]
    else map[]
  }

  predicate RulePermits(rule: EgressRule, peer: string, port: Port) {
    (rule.peerNamespace.None? || rule.peerNamespace == Some(peer)) && port in rule.ports
  }

  /** Some rule of the policy lets traffic out to a port in the namespace `peer`. */
  predicate Permits(policy: Policy, peer: string, port: Port) {
    exists i :: 0 <= i < |policy.egress| && RulePermits(policy.egress[i], peer, port)
  }

  /** Nothing gets in, and nothing out but name lookups, HTTPS, and the inference service. */
  ghost predicate Encloses(policy: Policy) {
    && policy.denyIngress
    && forall peer: string, port: Port :: Permits(policy, peer, port) <==>
         || port.number == 53
         || port == Port(TCP, 443)
         || (port == Port(TCP, 8000) && peer == "llm-inference")
  }

  /** The pod is enclosed and all its secret references resolve. */
  ghost predicate Sandboxed(ns: Namespace, pod: Pod) {
    && ns.policy.Some? && Encloses(ns.policy.value)
    && pod.secret in ns.secrets
    && forall x :: x in SecretEnv(pod.backend) ==> SecretEnv(pod.backend)[x] in SecretData(ns.secrets[pod.secret])
  }

  lemma PolicyEncloses()
    ensures Encloses(SANDBOX_EGRESS)
  {
    var rules := SANDBOX_EGRESS.egress;
    forall peer: string, port: Port
      ensures port.number == 53 || port == Port(TCP, 443) || (port == Port(TCP, 8000) && peer == "llm-inference") ==>
        Permits(SANDBOX_EGRESS, peer, port)
    {
      assert rules[0].ports[0] == Port(UDP, 53) && rules[0].ports[1] == Port(TCP, 53);
      assert port == Port(port.protocol, port.number) && (port.protocol.TCP? || port.protocol.UDP?);
      assert port.number == 53 ==> RulePermits(rules[0], peer, port);
      assert port == Port(TCP, 443) ==> RulePermits(rules[1], peer, port);
      assert port == Port(TCP, 8000) && peer == "llm-inference" ==> RulePermits(rules[2], peer, port);
    }
  }

  lemma KeysResolve(backend: Backend, creds: Creds, x: string)
    requires x in SecretEnv(backend)
    ensures SecretEnv(backend)[x] in SecretData(creds)
  {
  }

  // ---------------------------------------------------------------- the invariant

  /** The policy step is behind Reconcile. */
  predicate PolicyBehind(pc: Pc) {
    match pc
    case ReadCreds(_, why) => why == ToLaunch
    case MakeSecret(_, _, _) => true
    case DropRevision(_, _) => true
    case MakePod(_, _) => true
    case _ => false
  }

  predicate SecretBehind(pc: Pc) {
    pc.DropRevision? || pc.MakePod?
  }

  predicate Admits(ns: Option<Namespace>) {
    ns.Some? && !ns.value.terminating
  }

  predicate PodGuarded(ns: Namespace, slot: Slot, secret: string) {
    PodIn(ns, slot).Some? ==>
      ns.policy == Some(SANDBOX_EGRESS) && secret in ns.secrets && PodIn(ns, slot).value.secret == secret
  }

  predicate NsGuarded(ns: Option<Namespace>, pc: Pc, secret: string) {
    && (ns.Some? ==> PodGuarded(ns.value, AgentSlot, secret) && PodGuarded(ns.value, RevSlot, secret))
    && (PolicyBehind(pc) && Admits(ns) ==> ns.value.policy == Some(SANDBOX_EGRESS))
    && (SecretBehind(pc) && Admits(ns) ==> secret in ns.value.secrets)
  }

  predicate Guarded(v: View) {
    NsGuarded(v.ns, v.pc, SecretName(v.rec.spec.issue))
  }

  lemma CallGuardsPods(v: View, b: Backend, took: bool)
    requires Fits(v) && Guarded(v) && Next(v.pc, b).Some?
    ensures var ns := NsAfter(v, b, took); var secret := SecretName(v.rec.spec.issue);
      ns.Some? ==> PodGuarded(ns.value, AgentSlot, secret) && PodGuarded(ns.value, RevSlot, secret)
  {
    hide LogOk, NamespaceName, SecretName, StatusOk, StatusEdge, PcFits, ScriptFor;
  }

  /** Only answers about the policy and to the secret's creation take Reconcile past a step. */
  lemma StepsAreEarned(pc: Pc, r: Response, now: nat)
    requires PcFits(pc)
    ensures var pc' := Resume(pc, r, now);
      && (PolicyBehind(pc') && !PolicyBehind(pc) ==>
            || (pc.PutPolicy? && r == Ack)
            || (pc.LookPolicy? && r == GotPolicy(SANDBOX_EGRESS)))
      && (SecretBehind(pc') && !SecretBehind(pc) ==> pc.MakeSecret? && (r == Ack || r == AlreadyExists))
  {
    hide NamespaceName, SecretName, BranchOf, AnyMentionsPR, AnyAsksClarification, LastIsHuman, FirstMatch, StatusOk,
      StatusEdge, Provisioned;
  }

  lemma CallGuardsSteps(v: View, b: Backend, r: Response, took: bool, now: nat)
    requires Fits(v) && Guarded(v) && Next(v.pc, b).Some? && Sensible(v, b, r, took)
    ensures var ns := NsAfter(v, b, took); var pc := Resume(v.pc, r, now);
      && (PolicyBehind(pc) && Admits(ns) ==> ns.value.policy == Some(SANDBOX_EGRESS))
      && (SecretBehind(pc) && Admits(ns) ==> SecretName(v.rec.spec.issue) in ns.value.secrets)
  {
    hide LogOk, NamespaceName, SecretName, PcFits, Resume, PodGuarded, BuildPod;
    StepsAreEarned(v.pc, r, now);
  }

  lemma CallGuards(v: View, b: Backend, r: Response, took: bool, now: nat)
    requires Fits(v) && Guarded(v) && Next(v.pc, b).Some? && Sensible(v, b, r, took)
    ensures NsGuarded(NsAfter(v, b, took), Resume(v.pc, r, now), SecretName(v.rec.spec.issue))
  {
    hide Fits, Resume, NsAfter, SecretName, PodGuarded, Sensible, Next, PolicyBehind, SecretBehind, Guarded;
    CallGuardsPods(v, b, took);
    CallGuardsSteps(v, b, r, took, now);
  }

  lemma MoveGuards(v: View, b: Backend, mv: Move)
    requires Fits(v) && Guarded(v) && Possible(v, b, mv)
    ensures Guarded(Proceed(v, b, mv))
  {
    match mv
    case Called(r, took, now) =>
      hide NsAfter, Resume, Sensible, Fits, NsGuarded, SecretName, Next;
      CallGuards(v, b, r, took, now);
    case _ =>
      hide SecretName, Fits;
  }

  /** In every reachable state, between any two calls of Reconcile and under any faults, crashes
      and stale reads, both pods of a task are sandboxed as soon as they exist. */
  lemma NoPodOutsideSandbox(w: World, actions: seq<Action>, name: string, slot: Slot)
    requires Initial(w) && name in Run(w, actions).tasks
    ensures var ns := NsOf(Run(w, actions), name);
      PodOf(ns, slot).Some? ==> Sandboxed(ns.value, PodOf(ns, slot).value)
  {
    hide Run, Fits, Possible, Proceed, SecretName, SecretEnv, SecretData, Encloses;
    forall v: View, b: Backend, mv: Move | Fits(v) && Guarded(v) && Possible(v, b, mv)
      ensures Guarded(Proceed(v, b, mv))
    {
      MoveGuards(v, b, mv);
    }
    var ns := NsOf(Run(w, actions), name);
    Always(Guarded, false, w, actions, name);
    if PodOf(ns, slot).Some? {
      var pod := PodOf(ns, slot).value;
      assert PodGuarded(ns.value, slot, pod.secret);
      PolicyEncloses();
      forall x | x in SecretEnv(pod.backend)
        ensures SecretEnv(pod.backend)[x] in SecretData(ns.value.secrets[pod.secret])
      {
        KeysResolve(pod.backend, ns.value.secrets[pod.secret], x);
      }
    }
  }
}
