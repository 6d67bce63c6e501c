/** The triage script: per issue a guard, a decision and three commands in order. The script
    runs under `set -e`, so a failing command ends the whole run; people comment and label at
    any point, and the next run starts from what is there. */
module Triage {
  import opened Model
  import opened Machine

  // ---------------------------------------------------------------- issues

  /** What can happen on an issue. */
  datatype Deed = Wrote(body: string) | Tagged(tag: string) | Untagged(tag: string)

  datatype Actor = Triager | Someone

  datatype Event = Event(actor: Actor, deed: Deed)

  /** The timelines of the issues of the repository, oldest event first. */
  type Board = map<int, seq<Event>>

  function Timeline(b: Board, issue: int): seq<Event> {
    if issue in b then b[issue] else []
  }

  function Add(b: Board, issue: int, e: Event): (b': Board)
    ensures forall n :: Timeline(b', n) == Timeline(b, n) + if n == issue then [e] else []
  {
    b[issue := Timeline(b, issue) + [e]]
  }

  /** Where the last comment stands, or -1. */
  function LastWrote(t: seq<Event>): (p: int)
    ensures -1 <= p < |t|
    ensures p >= 0 ==> t[p].deed.Wrote?
    ensures forall q :: p < q < |t| ==> !t[q].deed.Wrote?
  {
    if t == [] then -1
    else if t[|t| - 1].deed.Wrote? then |t| - 1
    else
      var front := t[..|t| - 1];
      assert forall q :: LastWrote(front) < q < |front| ==> !front[q].deed.Wrote?;
      LastWrote(front)
  }

  /** The labels the issue carries. */
  function Labels(t: seq<Event>): set<string> {
    if t == [] then {}
    else
      var before := Labels(t[..|t| - 1]);
      match t[|t| - 1].deed
      case Wrote(_) => before
      case Tagged(tag) => before + {tag}
      case Untagged(tag) => before - {tag}
  }

  // ---------------------------------------------------------------- the guard

  const PLAN := "Implementation plan"
  const QUESTION := "/clarification-needed"

  /** `grep -E '^p'` on one line after another. */
  predicate LineStarts(body: string, p: string) {
    exists i :: 0 <= i <= |body| && LineStartsAt(body, p, i)
  }

  predicate LineStartsAt(body: string, p: string, i: int) {
    0 <= i <= |body| && (i == 0 || body[i - 1] == '\n') && p <= body[i..]
  }

  predicate Guards(body: string) {
    LineStarts(body, PLAN) || LineStarts(body, QUESTION)
  }

  /** The last comment, or the empty string. */
  function LastComment(t: seq<Event>): string {
    var p := LastWrote(t);
    if p < 0 then "" else t[p].deed.body
  }

  // ---------------------------------------------------------------- the decision

  /** What jq makes of a text: it fails on anything that is not JSON. A model that cannot be
      reached ends the script in the same way. */
  datatype Parse = JqFails | Field(text: string)

  /** The answer of the model: its decision field, the decision field of what stands between
      code fences, and the plan or question. */
  datatype Answer = Answer(whole: Parse, fenced: Parse, content: string)

  datatype Decision = Ready | NeedsInfo | Unclear | Broken

  function Classify(text: string): Decision {
    if text == "ready" then Ready
    else if text == "needs-info" then NeedsInfo
    else Unclear
  }

  /** A failing jq ends the script, so the fences are only looked at when the whole answer was
      JSON without a decision. */
  function Decide(a: Answer): Decision {
    if a.whole.JqFails? then Broken
    else if a.whole.text != "" then Classify(a.whole.text)
    else if a.fenced.JqFails? then Broken
    else if a.fenced.text == "" then Unclear
    else Classify(a.fenced.text)
  }

  // ---------------------------------------------------------------- the script

  /** What happens before a command, and the fate of the command. */
  datatype Turn = Turn(others: seq<(int, Deed)>, fault: Fault)

  /** The four commands of one issue, and the answer of the model. */
  datatype IssueTurn = IssueTurn(view: Turn, answer: Answer, untag: Turn, comment: Turn, tag: Turn)

  function Meanwhile(b: Board, others: seq<(int, Deed)>): Board
    decreases |others|
  {
    if others == [] then b
    else
      var last := others[|others| - 1];
      Add(Meanwhile(b, others[..|others| - 1]), last.0, Event(Someone, last.1))
  }

  function Ran(b: Board, issue: int, deed: Deed, turn: Turn): Board {
    var waited := Meanwhile(b, turn.others);
    if turn.fault == Lost then waited else Add(waited, issue, Event(Triager, deed))
  }

  function Body(d: Decision, content: string): string {
    if d == Ready then PLAN + ":\n\n" + content else QUESTION + ": " + content
  }

  function Tag(d: Decision): string {
    if d == Ready then READY_LABEL else NEEDS_INFO
  }

  /** What becomes of the board, and whether the script goes on. */
  datatype Outcome = Outcome(board: Board, alive: bool)

  /** One round of the loop. */
  function TriageOne(b: Board, issue: int, t: IssueTurn): Outcome {
    var seen := Meanwhile(b, t.view.others);
    var d := Decide(t.answer);
    if t.view.fault != Clean then Outcome(seen, false)
    else if Guards(LastComment(Timeline(seen, issue))) then Outcome(seen, true)
    else if d == Broken then Outcome(seen, false)
    else if d == Unclear then Outcome(seen, true)
    else
      var untagged := Ran(seen, issue, Untagged(NEEDS_TRIAGE), t.untag);
      var commented := Ran(untagged, issue, Wrote(Body(d, t.answer.content)), t.comment);
      if t.comment.fault != Clean then Outcome(commented, false)
      else Outcome(Ran(commented, issue, Tagged(Tag(d)), t.tag), t.tag.fault == Clean)
  }

  /** The issues listed, one after another; the script can be killed before any of them. */
  function TriageAll(b: Board, issues: seq<int>, turns: seq<IssueTurn>): Outcome
    decreases |issues|
  {
    if issues == [] then Outcome(b, true)
    else
      var n := |issues| - 1;
      var before := TriageAll(b, issues[..n], turns);
      if !before.alive then before
      else if n >= |turns| then Outcome(before.board, false)
      else TriageOne(before.board, issues[n], turns[n])
  }

  datatype RunTurn = RunTurn(list: Turn, issues: seq<int>, turns: seq<IssueTurn>)

  function TriageRun(b: Board, run: RunTurn): Board {
    var listed := Meanwhile(b, run.list.others);
    if run.list.fault != Clean then listed else TriageAll(listed, run.issues, run.turns).board
  }

  /** Runs follow each other; they do not overlap. */
  function TriageRuns(b: Board, runs: seq<RunTurn>): Board
    decreases |runs|
  {
    if runs == [] then b else TriageRun(TriageRuns(b, runs[..|runs| - 1]), runs[|runs| - 1])
  }

  const NEEDS_TRIAGE := "needs-triage"

  lemma MeanwhileMore(b: Board, others: seq<(int, Deed)>, k: nat)
    requires k < |others|
    ensures Meanwhile(b, others[..k + 1])
         == Add(Meanwhile(b, others[..k]), others[k].0, Event(Someone, others[k].1))
  {
    assert others[..k + 1][..k] == others[..k];
    hide Add;
  }

  /** The repository as the script reaches it through gh. */
  class Repository {
    var board: Board

    constructor (b: Board)
      ensures board == b
    {
      board := b;
    }

    method Wait(others: seq<(int, Deed)>)
      modifies this
      ensures board == Meanwhile(old(board), others)
    {
      assert Meanwhile(board, []) == board;
      hide Meanwhile, Add;
      for i := 0 to |others|
        invariant board == Meanwhile(old(board), others[..i])
      {
        MeanwhileMore(old(board), others, i);
        board := Add(board, others[i].0, Event(Someone, others[i].1));
      }
      assert others[..|others|] == others;
    }

    /** One gh command that changes the issue. */
    method Do(issue: int, deed: Deed, turn: Turn) returns (ok: bool)
      modifies this
      ensures board == Ran(old(board), issue, deed, turn)
      ensures ok == (turn.fault == Clean)
    {
      Wait(turn.others);
      if turn.fault != Lost {
        board := Add(board, issue, Event(Triager, deed));
      }
      ok := turn.fault == Clean;
    }

    /** The body of the loop; false if the script has ended. */
    method TriageIssue(issue: int, t: IssueTurn) returns (alive: bool)
      modifies this
      ensures Outcome(board, alive) == TriageOne(old(board), issue, t)
    {
      hide Meanwhile, LastComment, Guards, Ran;
      Wait(t.view.others);
      if t.view.fault != Clean {
        return false;
      }
      var last := LastComment(Timeline(board, issue));
      var guarded := HasGuardLine(last);
      if guarded {
        return true;
      }
      if t.answer.whole.JqFails? {
        return false;
      }
      var decision := t.answer.whole.text;
      if decision == "" {
        if t.answer.fenced.JqFails? {
          return false;
        }
        decision := t.answer.fenced.text;
      }
      if decision == "ready" {
        var _ := Do(issue, Untagged("needs-triage"), t.untag);
        var ok := Do(issue, Wrote(PLAN + ":\n\n" + t.answer.content), t.comment);
        if !ok {
          return false;
        }
        alive := Do(issue, Tagged("ready-for-development"), t.tag);
      } else if decision == "needs-info" {
        var _ := Do(issue, Untagged("needs-triage"), t.untag);
        var ok := Do(issue, Wrote(QUESTION + ": " + t.answer.content), t.comment);
        if !ok {
          return false;
        }
        alive := Do(issue, Tagged("needs-info"), t.tag);
      } else {
        alive := true;
      }
    }

    /** One run of the script. */
    method Triage(run: RunTurn)
      modifies this
      ensures board == TriageRun(old(board), run)
    {
      Wait(run.list.others);
      if run.list.fault != Clean {
        return;
      }
      ghost var listed := board;
      assert TriageAll(listed, [], run.turns) == Outcome(listed, true);
      hide TriageOne, Meanwhile, TriageAll;
      for i := 0 to |run.issues|
        invariant TriageAll(listed, run.issues[..i], run.turns) == Outcome(board, true)
      {
        TriageMore(listed, run.issues, run.turns, i);
        if i >= |run.turns| {
          TriageStops(listed, run.issues, run.turns, i + 1);
          return;
        }
        var alive := TriageIssue(run.issues[i], run.turns[i]);
        if !alive {
          TriageStops(listed, run.issues, run.turns, i + 1);
          return;
        }
      }
      assert run.issues[..|run.issues|] == run.issues;
    }
  }

  lemma TriageMore(b: Board, issues: seq<int>, turns: seq<IssueTurn>, k: nat)
    requires k < |issues|
    ensures TriageAll(b, [], turns) == Outcome(b, true)
    ensures TriageAll(b, issues[..k], turns).alive ==>
      TriageAll(b, issues[..k + 1], turns)
        == if k >= |turns| then Outcome(TriageAll(b, issues[..k], turns).board, false)
           else TriageOne(TriageAll(b, issues[..k], turns).board, issues[k], turns[k])
  {
    assert issues[..k + 1][..k] == issues[..k];
    hide TriageOne;
  }

  lemma {:induction false} TriageStops(b: Board, issues: seq<int>, turns: seq<IssueTurn>, k: nat)
    requires k <= |issues| && !TriageAll(b, issues[..k], turns).alive
    ensures TriageAll(b, issues, turns) == TriageAll(b, issues[..k], turns)
    decreases |issues|
  {
    if k == |issues| {
      assert issues[..k] == issues;
    } else {
      var front := issues[..|issues| - 1];
      assert front[..k] == issues[..k];
      TriageStops(b, front, turns, k);
    }
  }

  /** grep, line by line. */
  method HasGuardLine(body: string) returns (found: bool)
    ensures found == Guards(body)
  {
    for i := 0 to |body| + 1
      invariant forall q :: 0 <= q < i ==> !LineStartsAt(body, PLAN, q) && !LineStartsAt(body, QUESTION, q)
    {
      var starts := i == 0 || body[i - 1] == '\n';
      if starts && ("Implementation plan" <= body[i..] || "/clarification-needed" <= body[i..]) {
        assert LineStartsAt(body, PLAN, i) || LineStartsAt(body, QUESTION, i);
        return true;
      }
    }
    return false;
  }

  // ---------------------------------------------------------------- alternation

  predicate ByTriager(e: Event) {
    e.actor == Triager && e.deed.Wrote?
  }

  /** Somebody else comments between positions `i` and `j`. */
  predicate Interrupted(t: seq<Event>, i: int, j: int) {
    exists k :: 0 <= i < k < j <= |t| && t[k].actor == Someone && t[k].deed.Wrote?
  }

  /** Any two comments of the script have a comment of somebody else between them. */
  predicate Alternates(t: seq<Event>) {
    forall i, j :: 0 <= i < j < |t| && ByTriager(t[i]) && ByTriager(t[j]) ==> Interrupted(t, i, j)
  }

  /** What a label of the script rests on. */
  predicate Grounds(deed: Deed, tag: string) {
    deed.Wrote? && ((tag == READY_LABEL && PLAN <= deed.body) || (tag == NEEDS_INFO && QUESTION <= deed.body))
  }

  /** The comment at `i` is the script's last deed before `j`, and the ground for `tag`. */
  predicate EarnedAt(t: seq<Event>, i: int, j: int, tag: string) {
    && 0 <= i < j <= |t|
    && t[i].actor == Triager && Grounds(t[i].deed, tag)
    && forall k :: i < k < j ==> t[k].actor == Someone
  }

  predicate Earned(t: seq<Event>, j: int, tag: string) {
    exists i :: 0 <= i < |t| && EarnedAt(t, i, j, tag)
  }

  /** Every label the script puts on rests on a comment of its own, one comment for each. */
  predicate LabelsEarned(t: seq<Event>) {
    forall j :: 0 <= j < |t| && t[j].actor == Triager && t[j].deed.Tagged? ==> Earned(t, j, t[j].deed.tag)
  }

  /** The guard recognises whatever the script has written. */
  predicate OwnGuarded(t: seq<Event>) {
    forall i :: 0 <= i < |t| && ByTriager(t[i]) ==> Guards(t[i].deed.body)
  }

  predicate Fine(t: seq<Event>) {
    Alternates(t) && LabelsEarned(t) && OwnGuarded(t)
  }

  ghost predicate FineBoard(b: Board) {
    forall n :: Fine(Timeline(b, n))
  }

  /** The script may write: it did not have the last word. */
  predicate MayWrite(t: seq<Event>) {
    LastWrote(t) >= 0 ==> t[LastWrote(t)].actor == Someone
  }

  lemma OldStays(t: seq<Event>, e: Event)
    requires Fine(t)
    ensures var t' := t + [e];
      && (forall i, j :: 0 <= i < j < |t| && ByTriager(t[i]) && ByTriager(t[j]) ==> Interrupted(t', i, j))
      && (forall j :: 0 <= j < |t| && t[j].actor == Triager && t[j].deed.Tagged? ==> Earned(t', j, t[j].deed.tag))
  {
    var t' := t + [e];
    forall i, j | 0 <= i < j < |t| && ByTriager(t[i]) && ByTriager(t[j]) ensures Interrupted(t', i, j) {
      assert Interrupted(t, i, j);
      var k :| 0 <= i < k < j <= |t| && t[k].actor == Someone && t[k].deed.Wrote?;
      assert t'[k] == t[k];
    }
    forall j | 0 <= j < |t| && t[j].actor == Triager && t[j].deed.Tagged? ensures Earned(t', j, t[j].deed.tag) {
      var i :| 0 <= i < |t| && EarnedAt(t, i, j, t[j].deed.tag);
      assert EarnedAt(t', i, j, t[j].deed.tag);
    }
  }

  lemma SomeoneKeeps(t: seq<Event>, deed: Deed)
    requires Fine(t)
    ensures Fine(t + [Event(Someone, deed)])
    ensures MayWrite(t) ==> MayWrite(t + [Event(Someone, deed)])
    ensures forall tag :: Earned(t, |t|, tag) ==> Earned(t + [Event(Someone, deed)], |t| + 1, tag)
  {
    var t' := t + [Event(Someone, deed)];
    OldStays(t, Event(Someone, deed));
    assert t'[..|t|] == t;
    forall tag | Earned(t, |t|, tag) ensures Earned(t', |t| + 1, tag) {
      var i :| 0 <= i < |t| && EarnedAt(t, i, |t|, tag);
      assert EarnedAt(t', i, |t| + 1, tag);
    }
    hide Interrupted, Earned, Guards;
  }

  lemma UntagKeeps(t: seq<Event>, tag: string)
    requires Fine(t)
    ensures Fine(t + [Event(Triager, Untagged(tag))])
    ensures MayWrite(t) ==> MayWrite(t + [Event(Triager, Untagged(tag))])
  {
    var t' := t + [Event(Triager, Untagged(tag))];
    OldStays(t, Event(Triager, Untagged(tag)));
    assert t'[..|t|] == t;
    hide Interrupted, Earned, Guards;
  }

  lemma BodyGuards(d: Decision, content: string)
    requires d == Ready || d == NeedsInfo
    ensures Guards(Body(d, content)) && Grounds(Wrote(Body(d, content)), Tag(d))
  {
    assert LineStartsAt(Body(d, content), if d == Ready then PLAN else QUESTION, 0);
  }

  lemma CommentKeeps(t: seq<Event>, d: Decision, content: string)
    requires Fine(t) && MayWrite(t) && (d == Ready || d == NeedsInfo)
    ensures var t' := t + [Event(Triager, Wrote(Body(d, content)))];
      Fine(t') && Earned(t', |t'|, Tag(d))
  {
    var e := Event(Triager, Wrote(Body(d, content)));
    var t' := t + [e];
    OldStays(t, e);
    BodyGuards(d, content);
    assert EarnedAt(t', |t|, |t'|, Tag(d));
    forall i | 0 <= i < |t| && ByTriager(t[i]) ensures Interrupted(t', i, |t|) {
      assert i <= LastWrote(t);
      assert t'[LastWrote(t)] == t[LastWrote(t)];
    }
    hide Guards, EarnedAt, Body, Tag;
  }

  lemma TagKeeps(t: seq<Event>, tag: string)
    requires Fine(t) && Earned(t, |t|, tag)
    ensures Fine(t + [Event(Triager, Tagged(tag))])
  {
    var t' := t + [Event(Triager, Tagged(tag))];
    OldStays(t, Event(Triager, Tagged(tag)));
    var i :| 0 <= i < |t| && EarnedAt(t, i, |t|, tag);
    assert EarnedAt(t', i, |t|, tag);
    hide Interrupted, Guards, EarnedAt;
  }

  // ---------------------------------------------------------------- boards

  lemma AddKeeps(b: Board, issue: int, e: Event)
    requires FineBoard(b) && Fine(Timeline(b, issue) + [e])
    ensures FineBoard(Add(b, issue, e)) && Timeline(Add(b, issue, e), issue) == Timeline(b, issue) + [e]
  {
    hide Fine;
    forall n ensures Fine(Timeline(Add(b, issue, e), n)) {
      assert Fine(Timeline(b, n));
      assert n != issue ==> Timeline(Add(b, issue, e), n) == Timeline(b, n);
    }
  }

  lemma FineAt(b: Board, issue: int)
    requires FineBoard(b)
    ensures Fine(Timeline(b, issue))
  {
  }

  /** Whatever the script may do next on the one timeline, it may do on the other. */
  ghost predicate Allows(t: seq<Event>, t': seq<Event>) {
    && (MayWrite(t) ==> MayWrite(t'))
    && (forall tag :: Earned(t, |t|, tag) ==> Earned(t', |t'|, tag))
  }

  lemma SomeoneActs(b: Board, where: int, deed: Deed, issue: int)
    requires FineBoard(b)
    ensures var b' := Add(b, where, Event(Someone, deed));
      FineBoard(b') && Allows(Timeline(b, issue), Timeline(b', issue))
  {
    FineAt(b, where);
    SomeoneKeeps(Timeline(b, where), deed);
    AddKeeps(b, where, Event(Someone, deed));
    assert where != issue ==> Timeline(Add(b, where, Event(Someone, deed)), issue) == Timeline(b, issue);
    hide FineBoard, Fine, MayWrite, Earned, Timeline, Add;
  }

  lemma {:induction false} MeanwhileKeeps(b: Board, others: seq<(int, Deed)>, issue: int)
    requires FineBoard(b)
    ensures FineBoard(Meanwhile(b, others))
    ensures Allows(Timeline(b, issue), Timeline(Meanwhile(b, others), issue))
    decreases |others|
  {
    hide FineBoard, MayWrite, Earned, Timeline, Add;
    if others == [] {
    } else {
      var front, last := others[..|others| - 1], others[|others| - 1];
      MeanwhileKeeps(b, front, issue);
      SomeoneActs(Meanwhile(b, front), last.0, last.1, issue);
    }
  }

  lemma UntagRuns(b: Board, issue: int, turn: Turn)
    requires FineBoard(b)
    ensures var b' := Ran(b, issue, Untagged(NEEDS_TRIAGE), turn);
      FineBoard(b') && (MayWrite(Timeline(b, issue)) ==> MayWrite(Timeline(b', issue)))
  {
    var waited := Meanwhile(b, turn.others);
    MeanwhileKeeps(b, turn.others, issue);
    FineAt(waited, issue);
    UntagKeeps(Timeline(waited, issue), NEEDS_TRIAGE);
    AddKeeps(waited, issue, Event(Triager, Untagged(NEEDS_TRIAGE)));
    hide FineBoard, Fine, MayWrite, Timeline, Add, Meanwhile;
  }

  lemma CommentRuns(b: Board, issue: int, d: Decision, content: string, turn: Turn)
    requires FineBoard(b) && MayWrite(Timeline(b, issue)) && (d == Ready || d == NeedsInfo)
    ensures var b' := Ran(b, issue, Wrote(Body(d, content)), turn); var t := Timeline(b', issue);
      FineBoard(b') && (turn.fault != Lost ==> Earned(t, |t|, Tag(d)))
  {
    var waited := Meanwhile(b, turn.others);
    MeanwhileKeeps(b, turn.others, issue);
    FineAt(waited, issue);
    CommentKeeps(Timeline(waited, issue), d, content);
    AddKeeps(waited, issue, Event(Triager, Wrote(Body(d, content))));
    hide FineBoard, Fine, MayWrite, Timeline, Add, Meanwhile, Earned, Tag, Body;
  }

  lemma TagRuns(b: Board, issue: int, tag: string, turn: Turn)
    requires FineBoard(b) && Earned(Timeline(b, issue), |Timeline(b, issue)|, tag)
    ensures FineBoard(Ran(b, issue, Tagged(tag), turn))
  {
    var waited := Meanwhile(b, turn.others);
    MeanwhileKeeps(b, turn.others, issue);
    FineAt(waited, issue);
    TagKeeps(Timeline(waited, issue), tag);
    AddKeeps(waited, issue, Event(Triager, Tagged(tag)));
    hide FineBoard, Fine, MayWrite, Timeline, Add, Meanwhile, Earned;
  }

  lemma OneKeeps(b: Board, issue: int, t: IssueTurn)
    requires FineBoard(b)
    ensures FineBoard(TriageOne(b, issue, t).board)
  {
    hide Decide, Earned, Meanwhile, Timeline, FineBoard, Body, Tag, Ran, Guards, LastComment, MayWrite;
    var seen := Meanwhile(b, t.view.others);
    var d := Decide(t.answer);
    MeanwhileKeeps(b, t.view.others, issue);
    if !Guards(LastComment(Timeline(seen, issue))) && (d == Ready || d == NeedsInfo) {
      SpeaksAfterOthers(seen, issue);
      UntagRuns(seen, issue, t.untag);
      var untagged := Ran(seen, issue, Untagged(NEEDS_TRIAGE), t.untag);
      CommentRuns(untagged, issue, d, t.answer.content, t.comment);
      var commented := Ran(untagged, issue, Wrote(Body(d, t.answer.content)), t.comment);
      if t.comment.fault == Clean {
        TagRuns(commented, issue, Tag(d), t.tag);
      }
    }
  }

  /** Past the guard, the script did not have the last word. */
  lemma SpeaksAfterOthers(b: Board, issue: int)
    requires FineBoard(b) && !Guards(LastComment(Timeline(b, issue)))
    ensures MayWrite(Timeline(b, issue))
  {
    assert Fine(Timeline(b, issue));
    hide Guards, Alternates, LabelsEarned;
  }

  lemma {:induction false} AllKeep(b: Board, issues: seq<int>, turns: seq<IssueTurn>)
    requires FineBoard(b)
    ensures FineBoard(TriageAll(b, issues, turns).board)
    decreases |issues|
  {
    hide FineBoard, TriageOne;
    if issues != [] {
      var n := |issues| - 1;
      AllKeep(b, issues[..n], turns);
      if n < |turns| {
        OneKeeps(TriageAll(b, issues[..n], turns).board, issues[n], turns[n]);
      }
    }
  }

  /** Over any sequence of runs, each ended by whatever command fails or at any other point, and
      with anybody commenting and labelling at any time: the script never speaks twice in a row
      on an issue, and each of its labels follows a comment of its own that justifies it. */
  lemma {:induction false} RunsKeep(b: Board, runs: seq<RunTurn>)
    requires FineBoard(b)
    ensures FineBoard(TriageRuns(b, runs))
    decreases |runs|
  {
    hide FineBoard, TriageAll, Meanwhile;
    if runs != [] {
      var run, before := runs[|runs| - 1], TriageRuns(b, runs[..|runs| - 1]);
      RunsKeep(b, runs[..|runs| - 1]);
      MeanwhileKeeps(before, run.list.others, 0);
      AllKeep(Meanwhile(before, run.list.others), run.issues, run.turns);
    }
  }

  ghost predicate Untouched(b: Board) {
    forall n, i :: 0 <= i < |Timeline(b, n)| ==> Timeline(b, n)[i].actor == Someone
  }

  lemma AlternationHolds(b: Board, runs: seq<RunTurn>, issue: int)
    requires Untouched(b)
    ensures Alternates(Timeline(TriageRuns(b, runs), issue))
    ensures LabelsEarned(Timeline(TriageRuns(b, runs), issue))
  {
    forall n ensures Fine(Timeline(b, n)) {
      hide Interrupted, Earned, Guards;
    }
    RunsKeep(b, runs);
    FineAt(TriageRuns(b, runs), issue);
    hide Alternates, LabelsEarned, Timeline;
  }

  // ---------------------------------------------------------------- what the guard sees

  /** Some line of the text begins with `p`. */
  ghost predicate HasLine(text: string, p: string) {
    exists x: string, y: string :: text == x + p + y && (x == "" || x[|x| - 1] == '\n')
  }

  lemma LinesAreRead(text: string, p: string)
    ensures LineStarts(text, p) <==> HasLine(text, p)
  {
    if LineStarts(text, p) {
      var i :| 0 <= i <= |text| && LineStartsAt(text, p, i);
      assert text == text[..i] + p + text[i + |p|..];
    }
    if HasLine(text, p) {
      var x: string, y: string :| text == x + p + y && (x == "" || x[|x| - 1] == '\n');
      assert text[|x|..] == p + y;
      assert LineStartsAt(text, p, |x|);
    }
  }

  /** The last comment is the script's, or it is somebody else's and has a line that begins like
      one of the script's. */
  ghost predicate LooksTriaged(t: seq<Event>) {
    exists p :: 0 <= p < |t| && t[p].deed.Wrote? && (forall q :: p < q < |t| ==> !t[q].deed.Wrote?)
      && (t[p].actor == Triager
          || HasLine(t[p].deed.body, "Implementation plan") || HasLine(t[p].deed.body, "/clarification-needed"))
  }

  lemma NothingGuards()
    ensures !Guards("")
  {
  }

  /** What the guard takes for the script's own last word: exactly that, and in addition any
      comment of a person with a line that begins with one of the two marks. A round does nothing
      on such an issue. */
  lemma GuardGoesByText(b: Board, issue: int, t: IssueTurn)
    requires FineBoard(b) && t.view.fault == Clean
    ensures var seen := Meanwhile(b, t.view.others);
      && (Guards(LastComment(Timeline(seen, issue))) <==> LooksTriaged(Timeline(seen, issue)))
      && (LooksTriaged(Timeline(seen, issue)) ==> TriageOne(b, issue, t) == Outcome(seen, true))
  {
    hide LineStarts, Alternates, LabelsEarned, Meanwhile, Decide;
    var seen := Meanwhile(b, t.view.others);
    MeanwhileKeeps(b, t.view.others, issue);
    FineAt(seen, issue);
    NothingGuards();
    LinesAreRead(LastComment(Timeline(seen, issue)), PLAN);
    LinesAreRead(LastComment(Timeline(seen, issue)), QUESTION);
    hide HasLine;
    var tl := Timeline(seen, issue);
    assert LooksTriaged(tl) ==> LastWrote(tl) >= 0;
  }

  // ---------------------------------------------------------------- lost issues

  const NEEDS_INFO := "needs-info"

  /** Neither the next triage run nor the poller nor the author is told to look at the issue. */
  predicate Orphaned(labels: set<string>) {
    NEEDS_TRIAGE !in labels && READY_LABEL !in labels && NEEDS_INFO !in labels
  }

  predicate Quiet(t: IssueTurn) {
    t.view.others == [] && t.untag.others == [] && t.comment.others == [] && t.tag.others == []
  }

  lemma LabelsAfter(b: Board, issue: int, deed: Deed, turn: Turn)
    requires turn.others == []
    ensures
      var labels, labels' := Labels(Timeline(b, issue)), Labels(Timeline(Ran(b, issue, deed, turn), issue));
      labels' == if turn.fault == Lost || deed.Wrote? then labels
                 else if deed.Tagged? then labels + {deed.tag}
                 else labels - {deed.tag}
  {
    var tl, e := Timeline(b, issue), Event(Triager, deed);
    assert (tl + [e])[..|tl|] == tl;
  }

  /** Taking needs-triage off first does not make the round idempotent: an issue that carried
      only that label ends up with none exactly when the removal took effect and a later command
      failed, the comment in either way or the new label before it was set. */
  lemma OrphansIffCutAfterRemoval(b: Board, issue: int, t: IssueTurn)
    requires Quiet(t)
    requires var labels := Labels(Timeline(b, issue));
      NEEDS_TRIAGE in labels && READY_LABEL !in labels && NEEDS_INFO !in labels
    ensures Orphaned(Labels(Timeline(TriageOne(b, issue, t).board, issue))) <==>
      && t.view.fault == Clean
      && !Guards(LastComment(Timeline(b, issue)))
      && (Decide(t.answer) == Ready || Decide(t.answer) == NeedsInfo)
      && t.untag.fault != Lost
      && (t.comment.fault != Clean || t.tag.fault == Lost)
  {
    var d := Decide(t.answer);
    var untagged := Ran(b, issue, Untagged(NEEDS_TRIAGE), t.untag);
    var commented := Ran(untagged, issue, Wrote(Body(d, t.answer.content)), t.comment);
    LabelsAfter(b, issue, Untagged(NEEDS_TRIAGE), t.untag);
    LabelsAfter(untagged, issue, Wrote(Body(d, t.answer.content)), t.comment);
    LabelsAfter(commented, issue, Tagged(Tag(d)), t.tag);
    assert |NEEDS_TRIAGE| == 12 && |READY_LABEL| == 21 && |NEEDS_INFO| == 10;
    assert Meanwhile(b, t.view.others) == b;
    hide Ran, Meanwhile, Labels, Guards, LastComment, Decide, Timeline, Body;
  }

  // ---------------------------------------------------------------- the answer and the deeds

  /** The decision the script goes by: that of the whole answer, or, where that is JSON without one,
      that of what stands between the code fences. */
  predicate DecisionRead(a: Answer, text: string) {
    && a.whole.Field?
    && if a.whole.text != "" then text == a.whole.text else a.fenced.Field? && text == a.fenced.text
  }

  /** What the script does about an issue on an answer. */
  function PlanDeeds(content: string): seq<Event> {
    [Event(Triager, Untagged("needs-triage")), Event(Triager, Wrote("Implementation plan:\n\n" + content)),
     Event(Triager, Tagged("ready-for-development"))]
  }

  function QuestionDeeds(content: string): seq<Event> {
    [Event(Triager, Untagged("needs-triage")), Event(Triager, Wrote("/clarification-needed: " + content)),
     Event(Triager, Tagged("needs-info"))]
  }

  /** What of three deeds gets done: the removal of the label whatever it comes back with, and the new
      label only after a comment that went through. */
  function Done(t: IssueTurn, deeds: seq<Event>): seq<Event>
    requires |deeds| == 3
  {
    (if t.untag.fault == Lost then [] else [deeds[0]]) +
    (if t.comment.fault == Lost then [] else [deeds[1]]) +
    (if t.comment.fault != Clean || t.tag.fault == Lost then [] else [deeds[2]])
  }

  lemma DoesOne(b: Board, issue: int, deed: Deed, turn: Turn)
    requires turn.others == []
    ensures var b' := Ran(b, issue, deed, turn);
      forall n :: Timeline(b', n)
        == Timeline(b, n) + if n == issue && turn.fault != Lost then [Event(Triager, deed)] else []
  {
    assert forall n :: Timeline(b, n) + [] == Timeline(b, n);
    hide Timeline, Add;
  }

  lemma DoesThree(b: Board, issue: int, t: IssueTurn, deeds: seq<Event>)
    requires Quiet(t) && |deeds| == 3 && forall i :: 0 <= i < 3 ==> deeds[i].actor == Triager
    ensures var b2 := Ran(Ran(b, issue, deeds[0].deed, t.untag), issue, deeds[1].deed, t.comment);
      var b3 := if t.comment.fault != Clean then b2 else Ran(b2, issue, deeds[2].deed, t.tag);
      forall n :: Timeline(b3, n) == if n == issue then Timeline(b, n) + Done(t, deeds) else Timeline(b, n)
  {
    var b1 := Ran(b, issue, deeds[0].deed, t.untag);
    var b2 := Ran(b1, issue, deeds[1].deed, t.comment);
    var b3 := if t.comment.fault != Clean then b2 else Ran(b2, issue, deeds[2].deed, t.tag);
    DoesOne(b, issue, deeds[0].deed, t.untag);
    DoesOne(b1, issue, deeds[1].deed, t.comment);
    DoesOne(b2, issue, deeds[2].deed, t.tag);
    hide Timeline, Ran;
    forall n ensures Timeline(b3, n) == if n == issue then Timeline(b, n) + Done(t, deeds) else Timeline(b, n) {
      if n == issue {
        var one := if t.untag.fault == Lost then [] else [deeds[0]];
        var two := if t.comment.fault == Lost then [] else [deeds[1]];
        var three := if t.comment.fault != Clean || t.tag.fault == Lost then [] else [deeds[2]];
        assert Timeline(b, n) + (one + two + three) == Timeline(b, n) + one + two + three;
      }
    }
  }

  predicate AllClean(t: IssueTurn) {
    t.view.fault == Clean && t.untag.fault == Clean && t.comment.fault == Clean && t.tag.fault == Clean
  }

  lemma DeedsDiffer(tl: seq<Event>, content: string)
    ensures tl + PlanDeeds(content) != tl + QuestionDeeds(content)
    ensures tl != tl + PlanDeeds(content) && tl != tl + QuestionDeeds(content)
  {
    var plan, question := tl + PlanDeeds(content), tl + QuestionDeeds(content);
    assert plan[|tl| + 2].deed.tag[0] == 'r' && question[|tl| + 2].deed.tag[0] == 'n';
    assert |plan| == |tl| + 3 == |question|;
  }

  lemma DecisionsRead(a: Answer)
    ensures Decide(a) == Ready <==> DecisionRead(a, "ready")
    ensures Decide(a) == NeedsInfo <==> DecisionRead(a, "needs-info")
    ensures Decide(a) != Broken <==> exists text :: DecisionRead(a, text)
  {
    assert |"ready"| == 5 && |"needs-info"| == 10;
    if a.whole.Field? && (a.whole.text == "" ==> a.fenced.Field?) {
      assert DecisionRead(a, if a.whole.text != "" then a.whole.text else a.fenced.text);
    }
  }

  /** An undisturbed round on an issue the guard lets through, over all fates of its commands: where the
      decision read is "ready", the plan and its label; where it is "needs-info", the question and its
      label; otherwise nothing. The script goes on just when something could be read, and the comment
      and the new label, if there were any, went through. */
  lemma RoundFollowsAnswer(b: Board, issue: int, t: IssueTurn)
    requires Quiet(t) && t.view.fault == Clean && !Guards(LastComment(Timeline(b, issue)))
    ensures var o := TriageOne(b, issue, t);
      var before, after := Timeline(b, issue), Timeline(o.board, issue);
      var ready, unclear := DecisionRead(t.answer, "ready"), DecisionRead(t.answer, "needs-info");
      && (ready ==> after == before + Done(t, PlanDeeds(t.answer.content)))
      && (unclear ==> after == before + Done(t, QuestionDeeds(t.answer.content)))
      && (!ready && !unclear ==> o.board == b)
      && (forall n :: n != issue ==> Timeline(o.board, n) == Timeline(b, n))
      && (o.alive <==>
            && (exists text :: DecisionRead(t.answer, text))
            && (ready || unclear ==> t.comment.fault == Clean && t.tag.fault == Clean))
  {
    var a := t.answer;
    var plan, question := PlanDeeds(a.content), QuestionDeeds(a.content);
    assert plan[0].deed == question[0].deed == Untagged(NEEDS_TRIAGE);
    assert plan[1].deed == Wrote(Body(Ready, a.content)) && plan[2].deed == Tagged(Tag(Ready));
    assert question[1].deed == Wrote(Body(NeedsInfo, a.content)) && question[2].deed == Tagged(Tag(NeedsInfo));
    assert Meanwhile(b, t.view.others) == b;
    DoesThree(b, issue, t, plan);
    DoesThree(b, issue, t, question);
    DecisionsRead(a);
    hide Guards, LastComment, Timeline, Ran, Decide, DecisionRead, PlanDeeds, QuestionDeeds, Done;
  }

  /** Where every command goes through, plan and question tell the decision. */
  lemma CleanRoundTells(b: Board, issue: int, t: IssueTurn)
    requires Quiet(t) && AllClean(t) && !Guards(LastComment(Timeline(b, issue)))
    ensures var before, after := Timeline(b, issue), Timeline(TriageOne(b, issue, t).board, issue);
      && (after == before + PlanDeeds(t.answer.content) <==> DecisionRead(t.answer, "ready"))
      && (after == before + QuestionDeeds(t.answer.content) <==> DecisionRead(t.answer, "needs-info"))
  {
    RoundFollowsAnswer(b, issue, t);
    DeedsDiffer(Timeline(b, issue), t.answer.content);
    var plan, question := PlanDeeds(t.answer.content), QuestionDeeds(t.answer.content);
    assert Done(t, plan) == plan && Done(t, question) == question;
    hide TriageOne, Guards, LastComment, DecisionRead, PlanDeeds, QuestionDeeds, Done, Timeline;
  }

  /** The answer asks for the deed. */
  predicate Prompts(a: Answer, deed: Deed) {
    var ready, unclear := DecisionRead(a, "ready"), DecisionRead(a, "needs-info");
    match deed
    case Untagged(tag) => tag == "needs-triage" && (ready || unclear)
    case Wrote(body) =>
      || (ready && body == "Implementation plan:\n\n" + a.content)
      || (unclear && body == "/clarification-needed: " + a.content)
    case Tagged(tag) => (ready && tag == "ready-for-development") || (unclear && tag == "needs-info")
  }

  /** A round in which the issue was looked at had an answer that asks for the deed. */
  predicate Prompted(turns: seq<IssueTurn>, issues: seq<int>, issue: int, deed: Deed) {
    exists i :: 0 <= i < |issues| && i < |turns| && issues[i] == issue && Prompts(turns[i].answer, deed)
  }

  lemma {:induction false} MeanwhileAdds(b: Board, others: seq<(int, Deed)>, issue: int, e: Event)
    requires e in Timeline(Meanwhile(b, others), issue)
    ensures e in Timeline(b, issue) || e.actor == Someone
    decreases |others|
  {
    hide Timeline, Add;
    if others != [] {
      var front := others[..|others| - 1];
      if e in Timeline(Meanwhile(b, front), issue) {
        MeanwhileAdds(b, front, issue, e);
      }
    }
  }

  lemma RanAdds(b: Board, where: int, deed: Deed, turn: Turn, issue: int, e: Event)
    requires e in Timeline(Ran(b, where, deed, turn), issue)
    ensures e in Timeline(b, issue) || e.actor == Someone || (issue == where && e == Event(Triager, deed))
  {
    hide Timeline, Add, Meanwhile;
    if e in Timeline(Meanwhile(b, turn.others), issue) {
      MeanwhileAdds(b, turn.others, issue, e);
    }
  }

  lemma RoundAdds(b: Board, where: int, t: IssueTurn, issue: int, e: Event)
    requires e in Timeline(TriageOne(b, where, t).board, issue)
    ensures e in Timeline(b, issue) || e.actor == Someone || (issue == where && Prompts(t.answer, e.deed))
  {
    hide Timeline, Meanwhile, Ran, Guards, LastComment, Decide, DecisionRead;
    var seen, d := Meanwhile(b, t.view.others), Decide(t.answer);
    var untagged := Ran(seen, where, Untagged(NEEDS_TRIAGE), t.untag);
    var commented := Ran(untagged, where, Wrote(Body(d, t.answer.content)), t.comment);
    DecisionsRead(t.answer);
    if e in Timeline(Ran(commented, where, Tagged(Tag(d)), t.tag), issue) {
      RanAdds(commented, where, Tagged(Tag(d)), t.tag, issue, e);
    }
    if e in Timeline(commented, issue) {
      RanAdds(untagged, where, Wrote(Body(d, t.answer.content)), t.comment, issue, e);
    }
    if e in Timeline(untagged, issue) {
      RanAdds(seen, where, Untagged(NEEDS_TRIAGE), t.untag, issue, e);
    }
    if e in Timeline(seen, issue) {
      MeanwhileAdds(b, t.view.others, issue, e);
    }
  }

  lemma {:induction false} AllAdd(b: Board, issues: seq<int>, turns: seq<IssueTurn>, issue: int, e: Event)
    requires e in Timeline(TriageAll(b, issues, turns).board, issue)
    ensures e in Timeline(b, issue) || e.actor == Someone || Prompted(turns, issues, issue, e.deed)
    decreases |issues|
  {
    hide Timeline, TriageOne, Prompts;
    if issues != [] {
      var n := |issues| - 1;
      var before := TriageAll(b, issues[..n], turns);
      if before.alive && n < |turns| && e !in Timeline(before.board, issue) {
        RoundAdds(before.board, issues[n], turns[n], issue, e);
      } else {
        AllAdd(b, issues[..n], turns, issue, e);
        if Prompted(turns, issues[..n], issue, e.deed) {
          var i :| 0 <= i < n && i < |turns| && issues[..n][i] == issue && Prompts(turns[i].answer, e.deed);
          assert issues[i] == issue;
        }
      }
    }
  }

  /** Over any runs, disturbed and cut anywhere: whatever the script writes on an issue or does to its
      labels was asked for by an answer about that issue, a plan and ready-for-development by "ready",
      a question and needs-info by "needs-info". */
  lemma {:induction false} DeedsFollowAnswers(b: Board, runs: seq<RunTurn>, issue: int, e: Event)
    requires e in Timeline(TriageRuns(b, runs), issue) && e !in Timeline(b, issue) && e.actor == Triager
    ensures exists k :: 0 <= k < |runs| && Prompted(runs[k].turns, runs[k].issues, issue, e.deed)
    decreases |runs|
  {
    hide Timeline, TriageAll, Meanwhile, Prompted;
    if runs != [] {
      var k := |runs| - 1;
      var run, before := runs[k], TriageRuns(b, runs[..k]);
      var listed := Meanwhile(before, run.list.others);
      if e in Timeline(before, issue) {
        DeedsFollowAnswers(b, runs[..k], issue, e);
        var j :| 0 <= j < k && Prompted(runs[..k][j].turns, runs[..k][j].issues, issue, e.deed);
        assert runs[j] == runs[..k][j];
      } else {
        if e in Timeline(listed, issue) {
          MeanwhileAdds(before, run.list.others, issue, e);
        }
        AllAdd(listed, run.issues, run.turns, issue, e);
        assert Prompted(runs[k].turns, runs[k].issues, issue, e.deed);
      }
    }
  }
}
