/** What each pod was made for: whose script it runs, for which pull request, and with which backend,
    follows from the phase of the version it was built for. */
module Pods {
  import opened Names
  import opened Model
  import opened Machine
  import opened Base
  import opened Isolation
  import opened Invariants

  /** The pod in a slot, built when the status of its task was `s`. A Claude agent resumes its session
      after a question; an Aider agent starts over. */
  predicate MadeFor(s: Status, b: Backend, slot: Slot, pod: Pod) {
    && pod.backend == b
    && match s.phase
       case New => slot == AgentSlot && pod.script == FreshScript && pod.prNumber == 0
       case Blocked =>
         && slot == AgentSlot && pod.prNumber == 0
         && (b == Claude ==> pod.script == ResumeScript)
         && (b == Aider ==> pod.script == FreshScript)
       case AwaitingRevision => slot == RevSlot && pod.script == RevisionScript && pod.prNumber == s.prNumber > 0
       case _ => false
  }

  predicate Made(v: View, b: Backend, slot: Slot) {
    var pod := PodOf(v.ns, slot);
    pod.Some? ==> pod.value.cycle < |v.rec.log| && MadeFor(v.rec.log[pod.value.cycle], b, slot, pod.value)
  }

  predicate BothMade(v: View, b: Backend) {
    Made(v, b, AgentSlot) && Made(v, b, RevSlot)
  }

  lemma CallMakes(v: View, b: Backend, took: bool)
    requires Fits(v) && BothMade(v, b) && Next(v.pc, b).Some?
    ensures BothMade(v.(ns := NsAfter(v, b, took)), b)
  {
    hide NamespaceName, SecretName;
  }

  lemma LogGrows(v: View, v': View, b: Backend)
    requires BothMade(v, b) && v'.ns == v.ns && v.rec.log <= v'.rec.log
    ensures BothMade(v', b)
  {
    hide MadeFor;
  }

  lemma RecordGrows(v: View, r: Response, took: bool)
    ensures v.rec.log <= RecordAfter(v, r, took).log
  {
  }

  lemma PodsKeepMake(v: View, b: Backend, m: EnvMove)
    requires BothMade(v, b) && NsMoving(m)
    ensures BothMade(v.(ns := NsMove(v.ns, m)), b)
  {
  }

  lemma MoveMakes(v: View, b: Backend, mv: Move)
    requires Fits(v) && BothMade(v, b) && Possible(v, b, mv)
    ensures BothMade(Proceed(v, b, mv), b)
  {
    hide NsAfter, Resume, RecordAfter, Sensible, Fits, MadeFor, Next;
    match mv
    case Called(r, took, now) =>
      CallMakes(v, b, took);
      RecordGrows(v, r, took);
      LogGrows(v.(ns := NsAfter(v, b, took)), Proceed(v, b, mv), b);
      hide BothMade;
    case Shifted(m) =>
      PodsKeepMake(v, b, m);
      hide BothMade, NsMove;
    case _ =>
  }

  /** In every run, stale reads included, each pod fits the phase of the version it was built for. */
  lemma PodsFitTheirCycle(w: World, actions: seq<Action>, name: string, slot: Slot)
    requires Initial(w) && name in Run(w, actions).tasks
    ensures var w' := Run(w, actions);
      var log := w'.tasks[name].log;
      var pod := PodOf(NsOf(w', name), slot);
      pod.Some? ==> pod.value.cycle < |log| && MadeFor(log[pod.value.cycle], w'.backend, slot, pod.value)
  {
    hide Run, Fits, Possible, Proceed, MadeFor;
    var holds := (v: View) => BothMade(v, w.backend);
    forall v: View, mv: Move | Fits(v) && holds(v) && Possible(v, w.backend, mv)
      ensures holds(Proceed(v, w.backend, mv))
    {
      MoveMakes(v, w.backend, mv);
    }
    Always(holds, false, w, actions, name);
    InitialBasic(w);
    SameBackend(w, actions);
  }
}
