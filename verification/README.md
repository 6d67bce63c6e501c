# The DevTask operator as a verified protocol

This project models the Kubernetes operator that turns labelled GitHub issues into sandboxed agent
pods and pull requests, and proves what its protocol keeps: over any API failure before or after the
effect, crashes, stale reads, slow and dropped deletes, other tasks in between, and people who
label, merge and comment at any time. Two smaller programs of the repository are modelled beside it:
the triage script and the `UncommentCode` rewrite.

How the files build on each other:

- `names.dfy`, `model.dfy`: names as real strings; tasks with their committed history, namespaces with
  policy, secrets and pods, pull requests, comments, credentials, and the API calls.
- `machine.dfy`: the operator as a machine over single API calls. `Next` is the call at a control
  point, `Resume` where its answer leads, `Attempt` what a call does under a fault (`Clean`, `Lost`
  before the effect, `Late` after it), `EnvStep` the moves of everybody else. `Run` folds any sequence
  of actions. The status write is a compare-and-swap that appends to the task's history.
- `controller.dfy`: Reconcile and its helpers as imperative code over a client object and a DevTask
  object whose status fields are assigned. Every method is proved to stay on the machine, so all
  results about runs hold of it; the client's invariant `Live` says that it has made one machine call
  for each turn of its script and nothing else.
- `texts.dfy`: what the operator reads in branch names and comments, said of the text itself.
- `base.dfy`, `history.dfy`: what every run keeps; the histories that can be committed.
- `isolation.dfy`, `invariants.dfy`: a step of the whole system is a step of each task by itself;
  properties of one task are carried to all runs this way. `commuting.dfy`, `solo.dfy`: attempts made
  for two tasks commute, and a run from which everything done for other tasks is left out is the same
  to the task, GitHub included.
- `answers.dfy`: what an attempt without faults makes of the pods, pull requests and comments it
  finds, and what it takes for anything to be committed.
- `exclusion.dfy`, `cycles.dfy`, `sandbox.dfy`, `secrets.dfy`, `pods.dfy`, `wakeups.dfy`, `ownership.dfy`, `revisions.dfy`,
  `comments.dfy`, `cleanup.dfy`, `convergence.dfy`: one result each about every run.
- `manning.dfy`: exactly when a task is left in Building or Running with nobody at work for it.
- `scenes.dfy`: runs from every initial world that end where the operator should not: what the
  conditions of the results above are needed for.
- `poller.dfy`: the polling loop, imperative, interleaved with everything above.
- `triage.dfy`, `uncomment.dfy`: the two independent programs.

The controller serves one task at a time (one worker, the default of its library). Reads of a task
may return any older version; a listing may be cut to one page. A theorem that needs the reads of its
task to be current says `FreshRun`, and other tasks may be read at any version; the one about comments
says which pages it needs (`HttpsAndShown`). Three things are recorded that the original does not
store: with a pod the task version it was built for, with a pull request how often needs-revision was
put on it and whether it was ever done, with a task its failed label removals.

Where the code and the words about it differ, the code is followed:

- operator/internal/controller/secrets.go:63 promises a fallback to environment variables; the code
  returns the error.
- ARCHITECTURE.md:87 has the namespace destroyed on Failed; the commit of Failed leaves it as it is
  (operator/internal/controller/devtask_controller.go:131-133, `FailedKeepsNamespace`). It can be on
  its way out already, from a delete whose status write was lost (`FailsOnItsWayOut`).
- ARCHITECTURE.md:77 has a task created for an issue without a non-terminal one; the code never
  creates a second task for an issue (`NeverRestarted`).
- operator/internal/controller/pod.go:344-345 takes any `agent-rev` pod for the current run; the create
  is backed by a new pod exactly when the old one is gone (`CreateIsFresh`), and if it is not, the
  whole revision can be lost (`RevisionIsLost`) or leave the task stuck (`StuckByRevision`). The same
  create makes nothing of a resumption when the delete before it was lost (`ResumptionIsLost`). If
  agent-rev cannot be read, the first agent is read for it, whatever cycle it is of
  (`PodsReadAreOfThisCycle`, `StaleAgentIsRead`).
- operator/internal/controller/devtask_controller.go:126-129 drops the error of the delete and then
  writes the status; if that write is lost, or the operator crashes before it, the task does not come
  back (`SticksIffNotWritten`). While reads of the task are current, this and the revision above are the only
  ways for a task to get stuck (`NeverStuck`, `StuckIffSlips`); a stale read is a third
  (`StaleReadSticks`).
- operator/internal/controller/github_poller.go:168 calls the comment idempotent; it is for https URLs
  (`OwnCommentRecognised`).
- deploy/triage/triage.sh:76 skips "if last comment is from the agent"; the guard looks at the text
  alone (`GuardGoesByText`). deploy/triage/triage.sh:163 takes the label off first for idempotency;
  that loses an issue when a later command fails (`OrphansIffCutAfterRemoval`). The fallback to code
  fences at deploy/triage/triage.sh:145-149 is not reached when the answer is not JSON, because the
  failing command before it ends the script.
- operator/test/utils/utils.go:177 lets the target span any lines; the scanner's error is ignored, so a
  line of 64 KiB or more loses the rest of the passage (`UncommentsLineByLine`).

## Model

The rows up to Reconcile are the results. The rows after it are the functions of the operator, the
poller, the script and the rewrite that Reconcile, PollRepo, Triage and UncommentCode are made of,
each proved against the machine or a specification function.

| member | source | states |
|---|---|---|
| Names.DecNatRoundTrip | operator/internal/controller/namespace.go:31 | reading a printed number back gives the number |
| Names.OneNumeral | operator/internal/controller/namespace.go:31 | the printed number is the only numeral of it without leading zeros |
| Names.SplitRepoRejoins | operator/api/v1alpha1/devtask_types.go:30-31 | on every repository the CRD pattern admits, the split has two parts, rejoins to the input, and both parts are words |
| Names.NamespaceInjective | operator/internal/controller/namespace.go:30-32 | two issues have the same namespace name iff they are the same |
| Names.NamespaceIsNotSystem | operator/internal/controller/secrets.go:30 | no task namespace is the one that holds the DevTasks and the credentials |
| Names.TaskNamesMeet | operator/internal/controller/github_poller.go:94 | over all numbers, two task names are the same iff short repository name and issue are, or a minus sign is taken for the dash, which the CRD's bound of one rules out |
| Names.BranchNamesOneIssue | operator/internal/controller/github_poller.go:139-154 | no head branch passes the branch test of two issues |
| Names.BranchTestReads | operator/internal/controller/github_poller.go:139-154 | a head passes the branch test of an issue iff it is "claude/issue-", the numeral of the issue, and then nothing or a dash and any slug |
| Names.NamesRead | operator/internal/controller/pod.go:52-58 | the short name of a repository is what follows its first slash, or all of it, and task, namespace and secret names are made of it and the numeral |
| Texts.SearchGivesFirst | operator/internal/controller/github_poller.go:149-155 | over every listing, the search gives the first entry on a branch of the issue, whatever its slug, and none iff there is none |
| Texts.HumanHasLastWord | operator/internal/controller/github_poller.go:222-232 | over all comments, the reply test holds iff there is a last comment and its author is neither of the two bot logins |
| Texts.RequestIsRead | operator/internal/controller/github_poller.go:205-209 | over all comments, a request is seen iff some comment is "/clarification:" and then any text |
| Texts.TriageQuestionIsNoRequest | operator/internal/controller/github_poller.go:206 | the triage script's "/clarification-needed" is not taken for one |
| Texts.LinkIsRead | operator/internal/controller/github_poller.go:182-186 | over all comments, a pull request counts as mentioned iff "PR: https://" stands somewhere in one of them |
| Base.BasicRun | operator/internal/controller/devtask_controller.go:48-232 | every run keeps: each history is a path of the transition graph with the namespace and pull request number a phase needs, and the control point of Reconcile fits the copy it holds |
| History.CommitsBounded | operator/internal/controller/devtask_controller.go:56-231 | committed phase changes are at most 4 + 4 per entry into AwaitingRevision + 3 per entry into BlockedOnClarification, less the rank still to be used |
| History.WrittenOnce | operator/internal/controller/devtask_controller.go:119 | a recorded pull request number never changes |
| History.CommittedHistory | operator/internal/controller/devtask_controller.go:48-232 | in every run, stale reads included, each history is a path of the transition graph from the empty status, bounded as above, with the number there when a phase needs it, and nothing follows Completed or Failed |
| History.HistoryOnlyGrows | operator/api/v1alpha1/devtask_types.go:63-85 | no action of any run takes back a committed status, changes a spec or drops a task |
| Isolation.CallStaysHome | operator/internal/controller/namespace.go:30-59 | a call made for one task leaves every other task's namespace alone |
| Isolation.StepProjects | operator/internal/controller/devtask_controller.go:56-231 | each step of the whole system is, for each task, a possible step of that task alone |
| Solo.RunsAlone | operator/internal/controller/devtask_controller.go:48-232 | non-interference: from every initial world, leaving out of any run all starts, calls and returns made for other tasks leaves a run of the machine that brings the task to the same record, namespace, comments, pull requests of its issue and place in the queue, and the worker to the same control point; in it the worker is never at another task |
| Solo.LaterRunsAlone | operator/internal/controller/devtask_controller.go:48-232 | the same from any reachable world on, whatever the worker has in hand there |
| Commuting.AttemptsCommute | operator/internal/controller/devtask_controller.go:56-231 | from every reachable world, whatever is done for one task and whatever is done for another, with any fates of the calls, give the same world in either order, GitHub, histories and queue included |
| Commuting.OthersLeaveListingAlone | operator/internal/controller/github_poller.go:139-155 | a call made for one task does not change which pull request another task's search finds on any page of the open ones |
| Invariants.Reachable | operator/internal/controller/namespace.go:34-46 | in every run each namespace that exists belongs to a stored task |
| Answers.ServedRuns | operator/internal/controller/devtask_controller.go:48-232 | the attempt the next rows are about is a run: the worker takes the task up and makes up to twelve calls without faults |
| Answers.WaitsForPod | operator/internal/controller/devtask_controller.go:88-135 | with no pod, a pending one, or a running one whose task is Running, an attempt without faults changes nothing and looks again in 30 s |
| Answers.NoticesStart | operator/internal/controller/devtask_controller.go:93-99 | a running pod takes its task from Building to Running |
| Answers.SuccessWithPR | operator/internal/controller/devtask_controller.go:100-122 | a succeeded pod with a pull request, recorded or the first open one on a branch of the issue with any slug: AwaitingReview with its number is committed, and "PR: " and the URL are posted iff there is a URL and no comment mentions one |
| Answers.SuccessWithoutPR | operator/internal/controller/devtask_controller.go:108-112 | a succeeded pod with none recorded and none open on such a branch: Failed is committed |
| Answers.FailureIsAnswered | operator/internal/controller/devtask_controller.go:123-133 | a failed pod: Blocked with the namespace deleted iff a comment begins with "/clarification:", else Failed with the namespace kept |
| Answers.ReviewIsAnswered | operator/internal/controller/devtask_controller.go:137-157 | a review: Completed with the namespace deleted iff the pull request is merged or closed, AwaitingRevision iff else it carries "needs-revision", otherwise nothing and again in two minutes |
| Answers.FinishedIsLeft | operator/internal/controller/devtask_controller.go:227-228 | a task read as Completed or Failed is left as it is and not looked at again |
| Answers.NoAnswerNoAttempt | operator/internal/controller/devtask_controller.go:193-197 | without comments, or with a known bot's as the last, a blocked task is left alone and looked at again in a minute; with any other an attempt goes on (Convergence.RetryConverges) |
| Answers.NothingWithoutAnswer | operator/internal/controller/github_poller.go:214-233 | in every run with current reads of the task in which no page read for it ends in a comment by anybody but the two bots, nothing is committed for a blocked task and no pod, policy or secret is made |
| Answers.AskingWhenFree | operator/internal/controller/devtask_controller.go:193-197 | such runs may start in any reachable world in which the task is Blocked and the worker is not at it |
| Answers.PodsWithoutCredentials | operator/internal/controller/github_poller.go:194-199 | without the pipeline secret a success waits with an error, and a failed pod means Failed even if it has asked |
| Answers.WaitsWithoutCredentials | operator/internal/controller/github_poller.go:123-127 | without it reviews, revisions and questions stay as they are, with the time or error of each branch |
| Answers.FailedCallEnds | operator/internal/controller/devtask_controller.go:48-232 | a call that fails, before or after its effect, commits nothing but by a status write, and ends the attempt with an error, except for the patient reads, which end it without one, and the tolerated calls, which go on as if done |
| Exclusion.NeverTwoAgents | operator/internal/controller/devtask_controller.go:88-225 | with current reads of the task, whatever fails, is dropped or is slow, agent and agent-rev of a task are never both live |
| Scenes.StaleReadMakesTwoAgents | operator/internal/controller/devtask_controller.go:51-56 | from every initial world there is a run with a stale read that ends with both pods of the task live |
| Cycles.PodsReadAreOfThisCycle | operator/internal/controller/pod.go:342-351 | in every run with current reads of the task, no lost delete of agent-rev or before BlockedOnClarification, and no create while its predecessor is still going, a pod read in Building or Running is of the current cycle iff it was read as agent-rev or the cycle is no revision |
| Cycles.EveryPodReadIsCurrent | operator/internal/controller/pod.go:342-351 | if moreover, in cycles that are revisions, agent-rev is read without a spurious error and does not leave a namespace on its way out before the agent while the task is in Building or Running, every pod read is of the current cycle |
| Scenes.StaleAgentIsRead | operator/internal/controller/pod.go:346-350 | from every initial world there is such a run, without the last condition, in which the pod read is of an older cycle |
| Sandbox.NoPodOutsideSandbox | operator/internal/controller/devtask_controller.go:59-80 | in every reachable state, mid-reconcile cuts and stale reads included, each pod's namespace has a policy that lets nothing in and traffic out iff it is for port 53, TCP 443, or TCP 8000 in llm-inference, and the secret with every key the pod refers to |
| Secrets.SecretsAreCopies | operator/internal/controller/secrets.go:45-77 | in every run each task secret holds, under exactly the five keys, what the pipeline secret had under the same keys at one point of the run, or nothing where it had none |
| Secrets.PodsSeeTheSecret | operator/internal/controller/pod.go:191-204 | so each variable of every pod's environment has the value of its key there: tokens, author and committer, and for Claude alone the Claude token and its mode |
| Secrets.FirstReadCounts | operator/internal/controller/devtask_controller.go:160-173 | credentials once read to be handed on are the ones handed on, a later read for the label notwithstanding |
| Pods.PodsFitTheirCycle | operator/internal/controller/devtask_controller.go:71-76 | in every run, stale reads included, each pod fits the phase of the version it was built for: slot, script, backend and pull request; a question is resumed by Claude and started over by Aider |
| Wakeups.NoLostWakeups | operator/internal/controller/devtask_controller.go:48-231 | after every action of every run a task is finished, queued, or in the hands of a Reconcile that will queue it |
| Ownership.PullRequestsAreNotShared | operator/internal/controller/github_poller.go:123-156 | in every run no two tasks record the same pull request, and a recorded one has a head branch that names the task's issue |
| Ownership.OthersLeaveGitHubAlone | operator/internal/controller/github_poller.go:167-191 | a call made for one task changes neither the comments of another task's issue nor the pull request it has recorded |
| Ownership.RevisionPodsKnowTheirPR | operator/internal/controller/pod.go:308-336 | in every run each agent-rev pod was built for the positive number its task has recorded |
| Revisions.RevisionsArePaidFor | operator/internal/controller/devtask_controller.go:148-166 | entries into AwaitingRevision are at most the applications of needs-revision plus the failed removals of it |
| Comments.OneCommentPerIssue | operator/internal/controller/github_poller.go:169-191 | with https URLs, and with no page read for the issue that stops short of the operator's own comment, the operator posts at most one comment per issue over any faults, and every task that has reached AwaitingReview has one on its issue |
| Scenes.PostsAgain | operator/internal/controller/github_poller.go:179-190 | from every initial world there is a run in which a cut listing makes the operator post a second comment |
| Comments.OwnCommentRecognised | operator/internal/controller/github_poller.go:183-188 | the operator recognises the comment it would post iff the URL is https or itself contains the mark |
| Cleanup.CompletedMeansDone | operator/internal/controller/devtask_controller.go:137-147 | in every run a completed task has a recorded pull request that was merged or closed |
| Cleanup.TerminalNamespaceIsFrozen | operator/internal/controller/devtask_controller.go:143-146 | after Completed or Failed no run with current reads of the task creates, deletes or changes the namespace: a deleted one never returns, one whose delete was lost stays |
| Scenes.StaleReadRecreates | operator/internal/controller/devtask_controller.go:51-61 | from every initial world there is a run with a stale read that makes the namespace of a completed task again |
| Cleanup.RetryCompletes | operator/internal/controller/devtask_controller.go:137-147 | from any reachable state in AwaitingReview with a closed pull request, a lost status write after the delete included, the next attempt commits Completed whatever becomes of its delete |
| Manning.NeverStuck | operator/internal/controller/devtask_controller.go:57-225 | in every run with current reads of the task and neither of two slips, a task in Building or Running has a pod that is not being deleted in a namespace that is not, unless Reconcile is just about to write BlockedOnClarification; so it is never stuck. The slips: a create acknowledged over a pod that is being deleted with no other pod beside it, and a write of BlockedOnClarification lost, or not reached for a crash, when nobody who stays is at work |
| Manning.StuckIffSlips | operator/internal/controller/devtask_controller.go:57-225 | after any run without a slip and any next action: once the status write it may lead to has gone through and what is on its way out has gone, the task is stuck iff that action was a slip |
| Manning.SticksIffNotWritten | operator/internal/controller/devtask_controller.go:123-129 | over all fates of the delete, and of the status write after it or a crash in its place: once what is on its way out is gone, the task is left in Building or Running without a pod iff nothing was written and no pod stays in a namespace that stays |
| Manning.SticksIffTakenForDone | operator/internal/controller/pod.go:338-340 | over all fates of the create of any provisioning branch, and of the status write after it or a crash in its place: the task is left so iff the create is acknowledged over a pod of the name that is being deleted, with no other beside it, and Building is written |
| Manning.OnlyRevisionsSlip | operator/internal/controller/devtask_controller.go:177-186 | in every run only a revision's create can be taken for done over a dying pod with no other beside it |
| Manning.FailedKeepsNamespace | operator/internal/controller/devtask_controller.go:131-133 | in every run the commit of Failed leaves the namespace as it is; with current reads of the task and no slip that is a namespace that stays, with a pod that stays |
| Scenes.FailsOnItsWayOut | operator/internal/controller/devtask_controller.go:123-133 | from every initial world there is a run that commits Failed on a namespace that is on its way out |
| Scenes.StuckIsReached | operator/internal/controller/devtask_controller.go:123-129 | from every initial world there is a run that ends in a stuck task |
| Scenes.StuckByCrash | operator/internal/controller/devtask_controller.go:126-129 | from every initial world there is one whose slip is a crash between the delete and the status write |
| Scenes.StuckByRevision | operator/internal/controller/devtask_controller.go:176-191 | from every initial world there is one that ends in a stuck task whose namespace is not on its way out: a revision committed on a dying agent-rev that was alone |
| Scenes.StaleReadSticks | operator/internal/controller/devtask_controller.go:137-147 | from every initial world there is a run that leaves a task stuck with no fault and no crash after its pods were at work: a closed pull request is reviewed from a stale read during a revision |
| Cleanup.StuckForever | operator/internal/controller/devtask_controller.go:88-92 | from a stuck task no run with current reads of the task ever commits anything for it again |
| Convergence.FullAttemptReaches | operator/internal/controller/devtask_controller.go:57-86 | an attempt without faults from any point of a provisioning branch commits Building with the namespace in the shape of its goal |
| Convergence.RetryConverges | operator/internal/controller/devtask_controller.go:159-225 | with constant credentials and current reads of the task, any number of attempts of a new, revision or resume branch cut at any call, errors after the effect included, with pods and the namespace going away meanwhile, then one full attempt, commit Building and leave the namespace of one full attempt in the first place, up to pod phase, start time and an agent-rev on its way out; the full attempt needs a namespace that is not on its way out, for a resumption a human's last word, and for a revision that the old agent-rev goes before the create |
| Convergence.CreateIsFresh | operator/internal/controller/pod.go:338-351 | of launch, revision and resumption alike: a create without a fault leads to the commit of Building iff the namespace exists and is not going, and the commit is backed by a new pod iff no pod of the name was left |
| Scenes.ResumptionIsLost | operator/internal/controller/devtask_controller.go:193-225 | from every initial world there is a run in which a resumption commits Building on the old failed agent, because the delete before was lost, and is blocked again by the question already answered, with no agent in between |
| Scenes.RevisionIsLost | operator/internal/controller/devtask_controller.go:176-191 | from every initial world there is a run in which a revision commits Building on a dying agent-rev, the first agent's old success sends the task back to review, the label is gone and no pod was made |
| Poller.PolledTasks | operator/internal/controller/github_poller.go:82-117 | a poll adds exactly the tasks of the listed issues that are not pull requests, each as new, and alters none |
| Poller.IssuesAreWanted | operator/internal/controller/github_poller.go:82-91 | those are the names of the entries with a number that are no pull requests, and no others |
| Poller.PolledAgain | operator/internal/controller/github_poller.go:96-101 | polling any part of the list again changes nothing |
| Poller.PollRepo | operator/internal/controller/github_poller.go:61-91 | with faults and other actions between any two calls: only listed issues get tasks, each issue whose calls go through has one whatever happens to the others, each one without is logged, and what is logged had a call that failed, was answered from behind, or has no number; without faults it is exactly the poll above |
| Poller.PollLoop | operator/internal/controller/github_poller.go:45-55 | over any sequence of polls tasks are only added, histories only grow, finished ones stay, and what a poll has served stays served |
| Poller.NeverRestarted | operator/internal/controller/github_poller.go:98-101 | no run changes the history of a finished task |
| Poller.OneTaskPerIssue | operator/internal/controller/github_poller.go:93-117 | in every run two tasks have the same issue iff they are the same |
| Triage.RunsKeep | deploy/triage/triage.sh:76-196 | any sequence of serial runs, aborted anywhere, with anybody commenting and labelling, keeps alternation and earned labels on all issues |
| Triage.AlternationHolds | deploy/triage/triage.sh:76-81 | two comments of the script always have somebody else's between them; each label it adds follows a comment of its own of the matching kind |
| Triage.GuardGoesByText | deploy/triage/triage.sh:76-81 | over all timelines, the guard holds iff the last comment is the script's, or is somebody else's and one of the two marks stands in it at the start or after a newline; then the round does nothing |
| Triage.RoundFollowsAnswer | deploy/triage/triage.sh:142-196 | an undisturbed round past the guard, over all fates of its commands: the plan with ready-for-development where the decision read, of the whole answer or else of what is fenced, is "ready", the question with needs-info where it is "needs-info", nothing otherwise; a failed removal of the label is passed over, and the script goes on iff something could be read and comment and label went through |
| Triage.CleanRoundTells | deploy/triage/triage.sh:142-196 | if every command goes through, the events added are exactly those of the plan iff "ready" was read, and those of the question iff "needs-info" was |
| Triage.DeedsFollowAnswers | deploy/triage/triage.sh:142-196 | over any runs, disturbed and cut anywhere, every comment and label change of the script was asked for by an answer about that issue |
| Triage.OrphansIffCutAfterRemoval | deploy/triage/triage.sh:157-196 | an undisturbed round leaves an issue with none of the three labels iff the removal took effect and a later command failed before the new label was set |
| Uncomment.UncommentCode | operator/test/utils/utils.go:178-226 | not found, untouched, or the first occurrence replaced by its trimmed lines joined by newlines |
| Uncomment.UncommentsLineByLine | operator/test/utils/utils.go:198-217 | for every target, given by its lines: each line up to the first of 64 KiB loses a carriage return at its end and the prefix if it has it, and their join stands in the target's place; a newline at the end of the target is lost, and nothing changes where no line can be read |
| Uncomment.BareStays | operator/test/utils/utils.go:203 | a passage in which no line has the prefix leaves the file as it was |
| Uncomment.UncommentRestores | operator/test/utils/utils.go:198-217 | for a passage that is the newline-join of marked lines, the marked lines are restored to the bare ones iff each fits the scanner and none ends in a carriage return |
| Controller.Reconcile | operator/internal/controller/devtask_controller.go:48-232 | makes exactly the machine's calls in order and returns the machine's result; if it dies it has made a prefix of them |
| Controller.LaunchTask | operator/internal/controller/devtask_controller.go:57-86 | the branch of a new task: ends where the machine ends after namespace, policy, credentials, secret, pod and status write |
| Controller.FollowPod | operator/internal/controller/devtask_controller.go:88-135 | the branch of Building and Running ends where the machine ends |
| Controller.CloseOut | operator/internal/controller/devtask_controller.go:100-122 | a succeeded pod: Failed without a pull request, else the comment before the status write |
| Controller.GiveUp | operator/internal/controller/devtask_controller.go:123-133 | a failed pod: Blocked with the namespace deleted if clarification was asked for, else Failed |
| Controller.AwaitReview | operator/internal/controller/devtask_controller.go:137-157 | the branch of AwaitingReview ends where the machine ends |
| Controller.ReviseTask | operator/internal/controller/devtask_controller.go:159-191 | the branch of AwaitingRevision, with the dropped errors of label removal and pod deletion |
| Controller.ContinueTask | operator/internal/controller/devtask_controller.go:193-225 | the branch of BlockedOnClarification, which reads the credentials twice |
| Controller.EnsureNamespace | operator/internal/controller/namespace.go:34-46 | one create; an existing namespace counts as created |
| Controller.EnsureNetworkPolicy | operator/internal/controller/networkpolicy.go:35-89 | read, then create, update or nothing by what was read; the result says whether the machine takes the policy as ready |
| Controller.ReadPipelineCredentials | operator/internal/controller/secrets.go:64-77 | the credentials of the secret, or none |
| Controller.EnsureTaskSecret | operator/internal/controller/secrets.go:45-60 | one create; an existing secret counts as created |
| Controller.DeleteRevisionPod | operator/internal/controller/namespace.go:54-59 | one delete whose outcome does not matter |
| Controller.DeleteTaskNamespace | operator/internal/controller/namespace.go:48-52 | one delete whose outcome does not matter |
| Controller.AgentPodResume | operator/internal/controller/pod.go:220-280 | overwriting the script of the first agent's pod gives the pod the machine creates on resume |
| Controller.AgentPodRevision | operator/internal/controller/pod.go:308-336 | overwriting name and script gives the machine's revision pod, for both backends |
| Controller.EnsurePod | operator/internal/controller/pod.go:338-340 | one create; an existing pod of the name counts as created |
| Controller.GetTaskPod | operator/internal/controller/pod.go:342-351 | agent-rev if it can be read, agent after any error |
| Controller.MatchBranch | operator/internal/controller/github_poller.go:149-155 | the loop over a listing: its first entry on a branch of the issue, or none when there is none |
| Controller.FindPRForTask | operator/internal/controller/github_poller.go:123-156 | by recorded number if there is one, else by branch; no pull request and no answer are told apart |
| Controller.HasPRComment | operator/internal/controller/github_poller.go:182-186 | the loop over the comments: true iff one has "PR: https://" in it |
| Controller.EnsurePRCommentOnIssue | operator/internal/controller/github_poller.go:169-191 | nothing for an empty URL or when a comment mentions a pull request, else one comment |
| Controller.HasClarification | operator/internal/controller/github_poller.go:205-209 | the loop over the comments: true iff one begins with "/clarification:" |
| Controller.HasRecentClarificationComment | operator/internal/controller/github_poller.go:194-211 | true only after a successful read that shows a request |
| Controller.LastCommentIsHuman | operator/internal/controller/github_poller.go:222-232 | the loop over the two bots: true iff there is a last comment and it is by neither |
| Controller.HumanRepliedAfterClarification | operator/internal/controller/github_poller.go:214-233 | true only after a successful read whose last comment is by neither known bot |
| Controller.PRNeedsRevision | operator/internal/controller/github_poller.go:236-256 | true only for a recorded pull request that was read and carries the label |
| Controller.RemovePRLabel | operator/internal/controller/github_poller.go:259-271 | reads the credentials again and removes the label, if a number is recorded |
| Poller.EnsureDevTask | operator/internal/controller/github_poller.go:93-118 | no error iff the read finds the task, or finds none where there is none and the create goes through; at most this one task is added |
| Triage.Repository.TriageIssue | deploy/triage/triage.sh:64-198 | one round of the loop under `set -e`: guard, decision, and the three commands in order |
| Triage.Repository.Triage | deploy/triage/triage.sh:14-199 | one run: the listing and the rounds up to the first command that fails |
| Uncomment.Index | operator/test/utils/utils.go:187-190 | the first occurrence, or none when there is none |
| Uncomment.Scanner.Scan | operator/test/utils/utils.go:198-201 | yields the lines one by one, without carriage returns, up to a line that is too long |

## Left out

- Exclusion.NeverTwoAgents: holds for runs with current reads of the task; StaleReadMakesTwoAgents is a run without.
- Cycles.PodsReadAreOfThisCycle: asks for the conditions of OrderlyRun, that the delete of agent-rev and the one before BlockedOnClarification are not lost and nothing is created while its predecessor is still going; ResumptionIsLost is a run without the first, RevisionIsLost one without the second.
- Convergence.RetryConverges: asks for current reads and constant credentials during the cuts; a revision attempt counts as full when the old revision pod is gone before the new one is made, because otherwise the create is taken for done, which CreateIsFresh and RevisionIsLost state.
- Manning.NeverStuck: assumes current reads of the task; StaleReadSticks is a run without. StuckIffSlips assumes them too.
- Comments.OneCommentPerIssue: assumes that comments are not deleted.
- Cleanup.TerminalNamespaceIsFrozen: assumes current reads of the task; StaleReadRecreates is a run without.
- Uncomment.UncommentCode: reading and writing the file are the caller's; their errors are returned by the original.
- Several configured repositories: two repositories with the same issue number share a namespace, and two with the same short name share task names; the model has one repository, as the poller's isolation needs.
- Deleting DevTasks and editing their specs: neither happens in the original's own code.
- The status message and everything in a pod but its name, script kind, pull request number, secret and phase: constants and prose.
- The pod phase Unknown: handled like Pending by the code and by the model.
- Reads of pods, policies and secrets are current; only task reads lag.
- A terminating namespace keeps its policy and secrets until it is gone; only its pods may go one by one.
- The validity of names: a repository name that is not a valid object name makes the create fail, which the model has as a lost call.
- Concurrent reconciles: the controller runs with one worker.
- What agents do in their pods: they appear as moves of pod phases, pull requests and comments.
- The model's call, URL fetching, and the text tools of the triage script: an answer is what the JSON tool makes of it, whole and between code fences. A pipe that breaks because grep stops reading early is not modelled.
- Flags, metrics, leader election, the ticker, HTTP and OAuth, deployment files and tests: wiring.
- GetNonEmptyLines and the other helpers of the test utilities: simple string functions and shell commands.
