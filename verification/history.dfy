/** What the committed history of a task looks like after any run. */
module History {
  import opened Names
  import opened Model
  import opened Machine
  import opened Base

  function Count(log: seq<Status>, p: Phase): (n: nat)
    ensures n <= |log|
  {
    if log == [] then 0
    else Count(log[..|log| - 1], p) + if log[|log| - 1].phase == p then 1 else 0
  }

  lemma CountOfAppended(log: seq<Status>, s: Status, p: Phase)
    ensures Count(log + [s], p) == Count(log, p) + if s.phase == p then 1 else 0
  {
    assert (log + [s])[..|log|] == log;
  }

  /** Commits that can still follow without another revision or clarification. */
  function Rank(p: Phase): nat {
    match p
    case New => 4
    case Blocked => 4
    case AwaitingRevision => 4
    case Building => 3
    case Running => 2
    case AwaitingReview => 1
    case _ => 0
  }

  /** Each commit is paid for by the rank it uses up, by an entry into AwaitingRevision or by
      one into BlockedOnClarification. */
  lemma {:induction false} CommitsBounded(log: seq<Status>, issue: int)
    requires LogOk(log, issue)
    ensures |log| - 1 + Rank(log[|log| - 1].phase) <= 4 + 4 * Count(log, AwaitingRevision) + 3 * Count(log, Blocked)
  {
    hide StatusOk;
    if |log| > 1 {
      var front := log[..|log| - 1];
      CommitsBounded(front, issue);
      assert StatusEdge(front[|front| - 1], log[|log| - 1]);
    }
  }

  lemma {:induction false} WrittenOnce(log: seq<Status>, issue: int, i: nat, j: nat)
    requires LogOk(log, issue) && i <= j < |log| && log[i].prNumber != 0
    ensures log[j].prNumber == log[i].prNumber
    decreases j
  {
    hide StatusOk, PhaseEdge;
    if i < j {
      WrittenOnce(log, issue, i, j - 1);
      assert StatusEdge(log[j - 1], log[j]);
    }
  }

  /** A path of the transition graph from the initial status, of bounded length, on which a
      pull request number is recorded at most once and is there when a phase needs it. */
  predicate Lawful(log: seq<Status>) {
    && |log| > 0 && log[0] == INITIAL_STATUS
    && (forall i :: 0 < i < |log| ==> PhaseEdge(log[i - 1].phase, log[i].phase))
    && |log| - 1 <= 4 + 4 * Count(log, AwaitingRevision) + 3 * Count(log, Blocked)
    && (forall i :: 0 <= i < |log| && HasPR(log[i].phase) ==> log[i].prNumber > 0)
    && (forall i, j :: 0 <= i <= j < |log| && log[i].prNumber != 0 ==> log[j].prNumber == log[i].prNumber)
  }

  lemma LogLawful(log: seq<Status>, issue: int)
    requires LogOk(log, issue)
    ensures Lawful(log)
  {
    CommitsBounded(log, issue);
    hide PhaseEdge, Count, HasPR;
    forall i, j | 0 <= i <= j < |log| && log[i].prNumber != 0 ensures log[j].prNumber == log[i].prNumber {
      WrittenOnce(log, issue, i, j);
    }
    forall i | 0 < i < |log| ensures PhaseEdge(log[i - 1].phase, log[i].phase) {
      assert StatusEdge(log[i - 1], log[i]);
    }
    forall i | 0 <= i < |log| && HasPR(log[i].phase) ensures log[i].prNumber > 0 {
      assert StatusOk(log[i], issue);
    }
  }

  lemma CurrentPhaseLast(log: seq<Status>, i: nat)
    requires Lawful(log) && i < |log| && Terminal(log[i].phase)
    ensures i == |log| - 1
  {
    assert i + 1 < |log| ==> PhaseEdge(log[i].phase, log[i + 1].phase);
  }

  /** In every run, over any faults, crashes, stale reads and truncated listings, the history of
      every task is lawful, and nothing is ever committed after Completed or Failed. */
  lemma CommittedHistory(w: World, actions: seq<Action>, name: string)
    requires Initial(w) && name in Run(w, actions).tasks
    ensures Lawful(Run(w, actions).tasks[name].log)
    ensures var log := Run(w, actions).tasks[name].log;
      forall i :: 0 <= i < |log| && Terminal(log[i].phase) ==> i == |log| - 1
  {
    hide Run, PcOk, PRsOk, LogOk, Lawful;
    InitialBasic(w);
    BasicRun(w, actions);
    var w' := Run(w, actions);
    assert RecordOk(w'.repo, name, w'.tasks[name]);
    var log := w'.tasks[name].log;
    LogLawful(log, w'.tasks[name].spec.issue);
    forall i | 0 <= i < |log| && Terminal(log[i].phase) ensures i == |log| - 1 {
      CurrentPhaseLast(log, i);
    }
  }

  lemma StepOnlyGrows(w: World, a: Action, name: string)
    requires Basic(w) && name in w.tasks
    ensures name in Step(w, a).tasks
    ensures Step(w, a).tasks[name].spec == w.tasks[name].spec
    ensures w.tasks[name].log <= Step(w, a).tasks[name].log
  {
    hide OpStep, EnvStep, Next;
    match a
    case Op(fault, lag, drop) =>
      if Next(w.pc, w.backend).Some? {
        CallOnTasks(w, fault, lag, drop, name);
      }
    case Env(m) => EnvOnTasks(w, m, name);
    case _ =>
  }

  /** What has been committed is never taken back: a stored task stays stored, keeps its spec,
      and its history is only added to. */
  lemma {:induction false} HistoryOnlyGrows(w: World, actions: seq<Action>, name: string)
    requires Basic(w) && name in w.tasks
    ensures name in Run(w, actions).tasks
    ensures Run(w, actions).tasks[name].spec == w.tasks[name].spec
    ensures w.tasks[name].log <= Run(w, actions).tasks[name].log
  {
    hide Step, Basic;
    if actions != [] {
      var front := actions[..|actions| - 1];
      HistoryOnlyGrows(w, front, name);
      BasicRun(w, front);
      StepOnlyGrows(Run(w, front), actions[|actions| - 1], name);
    }
  }
}
