/** The poller: it turns labelled issues into DevTasks while the controller, the cluster and the
    people on GitHub go on between any two of its calls. */
module Poller {
  import opened Names
  import opened Model
  import opened Machine
  import opened Base
  import opened History
  import opened Isolation
  import opened Controller

  /** An entry of the issue listing; GitHub lists pull requests there too. */
  datatype Issue = Issue(number: int, pullRequest: bool)

  // ---------------------------------------------------------------- what a poll is for

  /** What polling a list of issues does when nothing goes wrong and nobody else moves. */
  function Polled(w: World, issues: seq<Issue>): World
    decreases |issues|
  {
    if issues == [] then w
    else
      var before, last := Polled(w, issues[..|issues| - 1]), issues[|issues| - 1];
      if last.pullRequest then before else EnvStep(before, NewTask(last.number))
  }

  /** The task names a listing asks for. */
  function Wanted(repo: string, issues: seq<Issue>): (names: set<string>)
    ensures forall name :: name in names <==>
      exists i :: 0 <= i < |issues| && Asks(issues[i]) && name == TaskName(repo, issues[i].number)
  {
    set i | 0 <= i < |issues| && Asks(issues[i]) :: TaskName(repo, issues[i].number)
  }

  predicate Asks(issue: Issue) {
    !issue.pullRequest && issue.number >= 1
  }

  /** Issues are asked for, and pull requests are not. */
  lemma IssuesAreWanted(repo: string, issues: seq<Issue>, name: string)
    ensures name in Wanted(repo, issues) <==>
      exists i :: 0 <= i < |issues| && !issues[i].pullRequest && issues[i].number >= 1
                  && name == TaskName(repo, issues[i].number)
  {
    hide TaskName;
  }

  lemma WantedGrows(repo: string, issues: seq<Issue>, k: nat)
    requires k < |issues|
    ensures Wanted(repo, issues[..k + 1])
         == Wanted(repo, issues[..k]) + if Asks(issues[k]) then {TaskName(repo, issues[k].number)} else {}
  {
    hide TaskName, Asks;
    var more := issues[..k + 1];
    assert more[..k] == issues[..k] && more[k] == issues[k];
    forall name | name in Wanted(repo, more)
      ensures name in Wanted(repo, issues[..k]) || (Asks(issues[k]) && name == TaskName(repo, issues[k].number))
    {
      var i :| 0 <= i < |more| && Asks(more[i]) && name == TaskName(repo, more[i].number);
      assert i < k ==> issues[..k][i] == more[i];
    }
    forall name | name in Wanted(repo, issues[..k]) ensures name in Wanted(repo, more) {
      var i :| 0 <= i < k && Asks(issues[..k][i]) && name == TaskName(repo, issues[..k][i].number);
      assert more[i] == issues[..k][i];
    }
    assert Asks(issues[k]) ==> TaskName(repo, more[k].number) in Wanted(repo, more);
  }

  /** The record of a task that has just been created under `name`. */
  predicate Untouched(repo: string, name: string, rec: Record) {
    && rec == Record(Spec(rec.spec.issue, repo), [INITIAL_STATUS], 0)
    && rec.spec.issue >= 1 && name == TaskName(repo, rec.spec.issue)
  }

  lemma NewTaskAdds(w: World, issue: int)
    ensures var w' := EnvStep(w, NewTask(issue));
      && w'.repo == w.repo
      && w'.tasks.Keys == w.tasks.Keys + (if issue >= 1 then {TaskName(w.repo, issue)} else {})
      && (forall name :: name in w.tasks ==> w'.tasks[name] == w.tasks[name])
      && (forall name :: name in w'.tasks && name !in w.tasks ==> Untouched(w.repo, name, w'.tasks[name]))
  {
    hide TaskName;
  }

  /** A poll adds exactly the tasks the listing asks for, each as new, and alters none that was
      there, terminal ones included. */
  lemma {:induction false} PolledTasks(w: World, issues: seq<Issue>)
    ensures Polled(w, issues).repo == w.repo
    ensures Polled(w, issues).tasks.Keys == w.tasks.Keys + Wanted(w.repo, issues)
    ensures forall name :: name in w.tasks ==> Polled(w, issues).tasks[name] == w.tasks[name]
    ensures forall name :: name in Polled(w, issues).tasks && name !in w.tasks ==>
      Untouched(w.repo, name, Polled(w, issues).tasks[name])
    decreases |issues|
  {
    hide TaskName, EnvStep, Untouched, Wanted;
    if issues == [] {
    } else {
      var n := |issues| - 1;
      var front, last := issues[..n], issues[n];
      PolledTasks(w, front);
      WantedGrows(w.repo, issues, n);
      assert issues[..n + 1] == issues;
      NewTaskAdds(Polled(w, front), last.number);
    }
  }

  lemma PolledMore(w: World, issues: seq<Issue>, k: nat)
    requires k < |issues|
    ensures Polled(w, []) == w
    ensures Polled(w, issues[..k + 1])
         == if issues[k].pullRequest then Polled(w, issues[..k])
            else EnvStep(Polled(w, issues[..k]), NewTask(issues[k].number))
  {
    assert issues[..k + 1][..k] == issues[..k];
    hide EnvStep;
  }

  /** Polling again, in whatever order and however little of the list, changes nothing. */
  lemma {:induction false} PolledAgain(w: World, issues: seq<Issue>, again: seq<Issue>)
    requires Wanted(w.repo, again) <= Wanted(w.repo, issues)
    ensures Polled(Polled(w, issues), again) == Polled(w, issues)
    decreases |again|
  {
    if again == [] {
    } else {
      var n := |again| - 1;
      WantedGrows(w.repo, again, n);
      assert again[..n + 1] == again;
      PolledAgain(w, issues, again[..n]);
      PolledTasks(w, issues);
      if Asks(again[n]) {
        assert TaskName(w.repo, again[n].number) in Wanted(w.repo, again);
      }
      hide TaskName, Wanted;
    }
  }

  // ---------------------------------------------------------------- the poller at work

  /** What happens around the two calls made for one entry. `behind` is set when the cache the
      read is served from has not yet seen the task. */
  datatype EntryTurn = EntryTurn(before: seq<Action>, get: Fault, behind: bool,
                                 between: seq<Action>, create: Fault)

  /** One poll: the fate of the two reads, the page GitHub returned, and its entries' turns. */
  datatype PollTurn = PollTurn(before: seq<Action>, read: Fault, next: seq<Action>, list: Fault,
                               issues: seq<Issue>, entries: seq<EntryTurn>)

  predicate Creates(a: Action) {
    a.Env? && a.move.NewTask?
  }

  /** Nobody but the poller creates tasks. */
  predicate NoCreation(actions: seq<Action>) {
    forall i :: 0 <= i < |actions| ==> !Creates(actions[i])
  }

  predicate TurnOk(turn: PollTurn) {
    && NoCreation(turn.before) && NoCreation(turn.next)
    && |turn.entries| == |turn.issues|
    && forall i :: 0 <= i < |turn.entries| ==>
         NoCreation(turn.entries[i].before) && NoCreation(turn.entries[i].between)
  }

  /** Entry `i` asks for a task and enough of the calls made for it go through. */
  predicate Served(turn: PollTurn, i: nat) {
    && i < |turn.issues| && i < |turn.entries| && Asks(turn.issues[i])
    && turn.entries[i].get == Clean && turn.entries[i].create != Lost
  }

  /** Entry `i` is for issue `n`, and a call for it failed, or was answered from behind, or there can
      be no such issue. */
  predicate Troubled(turn: PollTurn, i: nat, n: int) {
    && i < |turn.issues| && i < |turn.entries|
    && !turn.issues[i].pullRequest && turn.issues[i].number == n
    && (n < 1 || turn.entries[i].get != Clean || turn.entries[i].behind || turn.entries[i].create != Clean)
  }

  /** What is logged was in trouble. */
  predicate AllTroubled(turn: PollTurn, logged: set<int>) {
    forall n :: n in logged ==> exists i :: 0 <= i < |turn.issues| && Troubled(turn, i, n)
  }

  lemma HadTrouble(turn: PollTurn, logged: set<int>, i: nat)
    requires i < |turn.issues| && i < |turn.entries| && !turn.issues[i].pullRequest && AllTroubled(turn, logged)
    requires var e := turn.entries[i];
      turn.issues[i].number < 1 || e.get != Clean || e.behind || e.create != Clean
    ensures AllTroubled(turn, logged + {turn.issues[i].number})
  {
    assert Troubled(turn, i, turn.issues[i].number);
  }

  /** Of the first `k` entries, each issue has its task or is logged, and the served ones have theirs. */
  predicate SettledUpTo(turn: PollTurn, repo: string, keys: set<string>, logged: set<int>, k: nat) {
    k <= |turn.issues|
    && forall q :: 0 <= q < k && !turn.issues[q].pullRequest ==>
         && (turn.issues[q].number in logged || TaskName(repo, turn.issues[q].number) in keys)
         && (Served(turn, q) ==> TaskName(repo, turn.issues[q].number) in keys)
  }

  lemma NothingSettled(turn: PollTurn, repo: string, keys: set<string>, logged: set<int>)
    ensures SettledUpTo(turn, repo, keys, logged, 0)
  {
  }

  lemma SettlesMore(turn: PollTurn, repo: string, keys: set<string>, keys': set<string>,
                    logged: set<int>, logged': set<int>, k: nat)
    requires SettledUpTo(turn, repo, keys, logged, k) && k < |turn.issues| && keys <= keys' && logged <= logged'
    requires !turn.issues[k].pullRequest ==>
      turn.issues[k].number in logged' || TaskName(repo, turn.issues[k].number) in keys'
    requires
      && k < |turn.entries| && !turn.issues[k].pullRequest && turn.issues[k].number >= 1
      && turn.entries[k].get == Clean && turn.entries[k].create != Lost ==>
        TaskName(repo, turn.issues[k].number) in keys'
    ensures SettledUpTo(turn, repo, keys', logged', k + 1)
  {
    hide TaskName;
  }

  lemma SettledMeans(turn: PollTurn, repo: string, keys: set<string>, logged: set<int>)
    requires SettledUpTo(turn, repo, keys, logged, |turn.issues|)
    ensures forall i :: 0 <= i < |turn.issues| && !turn.issues[i].pullRequest ==>
      turn.issues[i].number in logged || TaskName(repo, turn.issues[i].number) in keys
    ensures forall i :: 0 <= i < |turn.issues| && Served(turn, i) ==> TaskName(repo, turn.issues[i].number) in keys
  {
    hide TaskName;
  }

  lemma KeysStay(w: World, a: Action)
    requires Basic(w) && !Creates(a)
    ensures Step(w, a).tasks.Keys == w.tasks.Keys
  {
    hide PcOk, TasksOk, PRsOk, OpStep, EnvStep;
    match a
    case Op(fault, lag, drop) =>
      if Next(w.pc, w.backend).Some? {
        NextNeedsOwner(w.pc, w.backend);
        PcOwnerStored(w);
        CallOnTasks(w, fault, lag, drop, Owner(w.pc).value);
      }
    case Env(m) => EnvElsewhere(w, m);
    case _ =>
  }

  /** Time passes between two calls. */
  method Elapse(c: Client, actions: seq<Action>)
    requires c.Valid() && Basic(c.w) && NoCreation(actions)
    modifies c`w, c`trace
    ensures c.Valid() && Basic(c.w) && c.trace == old(c.trace) + actions
    ensures c.w == Run(old(c.w), actions) && (actions == [] ==> c.w == old(c.w))
    ensures c.w.repo == old(c.w.repo) && c.w.tasks.Keys == old(c.w.tasks.Keys)
  {
    hide Basic, Step;
    for i := 0 to |actions|
      invariant c.Valid() && Basic(c.w) && c.trace == old(c.trace) + actions[..i]
      invariant c.w == Run(old(c.w), actions[..i])
      invariant c.w.repo == old(c.w.repo) && c.w.tasks.Keys == old(c.w.tasks.Keys)
    {
      BasicStep(c.w, actions[i]);
      BackendStays(c.w, actions[i]);
      KeysStay(c.w, actions[i]);
      RunThen(old(c.w), actions[..i], actions[i]);
      c.Move(actions[i]);
      assert actions[..i + 1] == actions[..i] + [actions[i]];
    }
    assert actions[..|actions|] == actions;
  }

  /** The cached read of ensureDevTask. */
  method GetDevTask(c: Client, name: string, e: EntryTurn) returns (r: Response)
    ensures r == if e.get != Clean then OtherError
                 else if e.behind || name !in c.w.tasks then NotFound
                 else Ack
  {
    if e.get != Clean {
      return OtherError;
    }
    r := if e.behind || name !in c.w.tasks then NotFound else Ack;
  }

  /** The server refuses a taken name, and an issue number below one. */
  method CreateDevTask(c: Client, issue: int, fault: Fault) returns (r: Response)
    requires c.Valid() && Basic(c.w)
    modifies c`w, c`trace
    ensures c.Valid() && Basic(c.w)
    ensures c.w == if fault == Lost then old(c.w) else EnvStep(old(c.w), NewTask(issue))
    ensures c.trace == old(c.trace) + if fault == Lost then [] else [Env(NewTask(issue))]
    ensures r == Ack <==> fault == Clean && issue >= 1 && TaskName(c.w.repo, issue) !in old(c.w.tasks)
  {
    hide Basic, EnvStep, TaskName, Run;
    if fault == Lost {
      return OtherError;
    }
    var answer :=
      if issue < 1 then OtherError
      else if TaskName(c.w.repo, issue) in c.w.tasks then AlreadyExists
      else Ack;
    BasicStep(c.w, Env(NewTask(issue)));
    NewTaskAdds(c.w, issue);
    c.Move(Env(NewTask(issue)));
    r := if fault == Late then OtherError else answer;
  }

  /** True if no error came back; then the task is there. */
  method EnsureDevTask(c: Client, issue: int, e: EntryTurn) returns (ok: bool)
    requires c.Valid() && Basic(c.w) && NoCreation(e.before) && NoCreation(e.between)
    modifies c`w, c`trace
    ensures c.Valid() && Basic(c.w) && old(c.trace) <= c.trace && c.w.repo == old(c.w.repo)
    ensures old(c.w.tasks.Keys) <= c.w.tasks.Keys
         <= old(c.w.tasks.Keys) + if issue >= 1 then {TaskName(c.w.repo, issue)} else {}
    ensures ok ==> TaskName(c.w.repo, issue) in c.w.tasks
    ensures var there := TaskName(c.w.repo, issue) in old(c.w.tasks);
      ok <==> e.get == Clean && ((there && !e.behind) || (!there && issue >= 1 && e.create == Clean))
    ensures e.get == Clean && e.create != Lost && issue >= 1 ==> TaskName(c.w.repo, issue) in c.w.tasks
    ensures e == QUIET ==> c.w == EnvStep(old(c.w), NewTask(issue))
  {
    hide Basic, TaskName;
    Elapse(c, e.before);
    var name := TaskName(c.w.repo, issue);
    var got := GetDevTask(c, name, e);
    if got == Ack {
      return true;
    }
    if got != NotFound {
      return false;
    }
    Elapse(c, e.between);
    NewTaskAdds(c.w, issue);
    var made := CreateDevTask(c, issue, e.create);
    ok := made == Ack;
  }

  const QUIET := EntryTurn([], Clean, false, [], Clean)

  /** One poll. The result says whether it gave up before the loop; an error for one issue is
      logged and the loop goes on. What is not in the log is there. */
  method PollRepo(c: Client, turn: PollTurn) returns (ok: bool, logged: set<int>)
    requires c.Valid() && Basic(c.w) && TurnOk(turn)
    modifies c`w, c`trace
    ensures c.Valid() && Basic(c.w) && old(c.trace) <= c.trace && c.w.repo == old(c.w.repo)
    ensures old(c.w.tasks.Keys) <= c.w.tasks.Keys <= old(c.w.tasks.Keys) + Wanted(c.w.repo, turn.issues)
    ensures ok ==> forall i :: 0 <= i < |turn.issues| && !turn.issues[i].pullRequest ==>
      || turn.issues[i].number in logged
      || TaskName(c.w.repo, turn.issues[i].number) in c.w.tasks
    ensures AllTroubled(turn, logged)
    ensures ok ==> forall i :: 0 <= i < |turn.issues| && Served(turn, i) ==>
      TaskName(c.w.repo, turn.issues[i].number) in c.w.tasks
    ensures ok <==> turn.read == Clean && turn.list == Clean && |SplitRepo(c.w.repo)| == 2
                    && Run(old(c.w), turn.before).creds.Some?
    ensures !ok ==> c.w.tasks.Keys == old(c.w.tasks.Keys)
    ensures ok && turn.before == [] && turn.next == [] && (forall e :: e in turn.entries ==> e == QUIET) ==>
      c.w == Polled(old(c.w), turn.issues)
  {
    hide Basic, TaskName, EnvStep, Wanted, Run, SplitRepo, Troubled;
    logged := {};
    assert AllTroubled(turn, logged);
    hide AllTroubled, SettledUpTo, Served;
    Elapse(c, turn.before);
    if turn.read != Clean || c.w.creds.None? {
      return false, logged;
    }
    if |SplitRepo(c.w.repo)| != 2 {
      return false, logged;
    }
    Elapse(c, turn.next);
    if turn.list != Clean {
      return false, logged;
    }
    ghost var polling := c.w;
    NothingSettled(turn, c.w.repo, c.w.tasks.Keys, logged);
    assert Polled(polling, []) == polling;
    hide Polled;
    for i := 0 to |turn.issues|
      invariant c.Valid() && Basic(c.w) && old(c.trace) <= c.trace && c.w.repo == old(c.w.repo)
      invariant old(c.w.tasks.Keys) <= c.w.tasks.Keys <= old(c.w.tasks.Keys) + Wanted(c.w.repo, turn.issues[..i])
      invariant SettledUpTo(turn, c.w.repo, c.w.tasks.Keys, logged, i)
      invariant AllTroubled(turn, logged)
      invariant (forall e :: e in turn.entries ==> e == QUIET) ==> c.w == Polled(polling, turn.issues[..i])
    {
      var issue := turn.issues[i];
      ghost var keys, before := c.w.tasks.Keys, logged;
      WantedGrows(c.w.repo, turn.issues, i);
      PolledMore(polling, turn.issues, i);
      assert turn.entries[i] in turn.entries;
      if issue.pullRequest {
        SettlesMore(turn, c.w.repo, keys, keys, logged, logged, i);
        continue;
      }
      var made := EnsureDevTask(c, issue.number, turn.entries[i]);
      if !made {
        HadTrouble(turn, logged, i);
        logged := logged + {issue.number};
      }
      SettlesMore(turn, c.w.repo, keys, c.w.tasks.Keys, before, logged, i);
    }
    assert turn.issues[..|turn.issues|] == turn.issues;
    SettledMeans(turn, c.w.repo, c.w.tasks.Keys, logged);
    return true, logged;
  }

  // ---------------------------------------------------------------- poll after poll

  /** A finished task is never started again, however often its issue is polled. */
  lemma NeverRestarted(w: World, actions: seq<Action>, name: string)
    requires Basic(w) && name in w.tasks && Terminal(Current(w.tasks[name]).phase)
    ensures name in Run(w, actions).tasks
    ensures Run(w, actions).tasks[name].log == w.tasks[name].log
  {
    hide Run, PcOk, PRsOk, TaskName, StatusOk;
    HistoryOnlyGrows(w, actions, name);
    BasicRun(w, actions);
    var log, log' := w.tasks[name].log, Run(w, actions).tasks[name].log;
    assert RecordOk(w.repo, name, w.tasks[name]);
    assert RecordOk(Run(w, actions).repo, name, Run(w, actions).tasks[name]);
    assert log'[|log| - 1] == log[|log| - 1];
    assert |log| < |log'| ==> StatusEdge(log'[|log| - 1], log'[|log|]);
  }

  /** In every run an issue has at most one task. */
  lemma OneTaskPerIssue(w: World, actions: seq<Action>, a: string, b: string)
    requires Initial(w) && a in Run(w, actions).tasks && b in Run(w, actions).tasks
    ensures Run(w, actions).tasks[a].spec.issue == Run(w, actions).tasks[b].spec.issue <==> a == b
  {
    hide Run, PcOk, PRsOk, TaskName, LogOk;
    InitialBasic(w);
    BasicRun(w, actions);
    var w' := Run(w, actions);
    assert RecordOk(w'.repo, a, w'.tasks[a]) && RecordOk(w'.repo, b, w'.tasks[b]);
  }

  /** What the tasks of a world have become. */
  predicate Outlived(w: World, w': World) {
    forall name :: name in w.tasks ==>
      && name in w'.tasks
      && w'.tasks[name].spec == w.tasks[name].spec
      && w.tasks[name].log <= w'.tasks[name].log
      && (w.tasks[name].log != [] && Terminal(Current(w.tasks[name]).phase) ==>
            w'.tasks[name].log == w.tasks[name].log)
  }

  lemma OutlivedRun(w: World, first: seq<Action>, all: seq<Action>)
    requires Basic(Run(w, first)) && first <= all
    ensures Outlived(Run(w, first), Run(w, all))
  {
    hide Run, Basic;
    var mid, rest := Run(w, first), all[|first|..];
    RunInTwo(w, first, rest);
    assert first + rest == all;
    forall name | name in mid.tasks
      ensures
        && name in Run(mid, rest).tasks
        && Run(mid, rest).tasks[name].spec == mid.tasks[name].spec
        && mid.tasks[name].log <= Run(mid, rest).tasks[name].log
        && (mid.tasks[name].log != [] && Terminal(Current(mid.tasks[name]).phase) ==>
              Run(mid, rest).tasks[name].log == mid.tasks[name].log)
    {
      HistoryOnlyGrows(mid, rest, name);
      if mid.tasks[name].log != [] && Terminal(Current(mid.tasks[name]).phase) {
        NeverRestarted(mid, rest, name);
      }
    }
  }

  /** The names that any of the polls asks for. */
  function AllWanted(repo: string, turns: seq<PollTurn>): set<string> {
    if turns == [] then {}
    else AllWanted(repo, turns[..|turns| - 1]) + Wanted(repo, turns[|turns| - 1].issues)
  }

  /** The poller over any number of ticks: a failed poll is logged and the next one comes. Tasks
      are only added, only for listed issues, and what one poll has served stays. */
  method PollLoop(c: Client, turns: seq<PollTurn>) returns (polled: seq<bool>)
    requires c.Valid() && Basic(c.w) && forall k :: 0 <= k < |turns| ==> TurnOk(turns[k])
    modifies c`w, c`trace
    ensures c.Valid() && Basic(c.w) && old(c.trace) <= c.trace && c.w.repo == old(c.w.repo)
    ensures Outlived(old(c.w), c.w)
    ensures c.w.tasks.Keys <= old(c.w.tasks.Keys) + AllWanted(c.w.repo, turns)
    ensures |polled| == |turns|
    ensures forall k, i ::
      0 <= k < |turns| && polled[k] && 0 <= i < |turns[k].issues| && Served(turns[k], i) ==>
        TaskName(c.w.repo, turns[k].issues[i].number) in c.w.tasks
  {
    hide Basic, TaskName, Served, Wanted, Asks, Run, Outlived, TurnOk;
    polled := [];
    for k := 0 to |turns|
      invariant c.Valid() && Basic(c.w) && old(c.trace) <= c.trace && c.w.repo == old(c.w.repo)
      invariant c.w.tasks.Keys <= old(c.w.tasks.Keys) + AllWanted(c.w.repo, turns[..k])
      invariant |polled| == k
      invariant forall q, i ::
        0 <= q < k && polled[q] && 0 <= i < |turns[q].issues| && Served(turns[q], i) ==>
          TaskName(c.w.repo, turns[q].issues[i].number) in c.w.tasks
    {
      var ok, logged := PollRepo(c, turns[k]);
      polled := polled + [ok];
      assert turns[..k + 1][..k] == turns[..k];
    }
    assert turns[..|turns|] == turns;
    OutlivedRun(c.start, old(c.trace), c.trace);
  }
}
