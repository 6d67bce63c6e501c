/** What the operator reads in comments and branch names, said of the text itself. */
module Texts {
  import opened Names
  import opened Model
  import opened Machine

  lemma WholePage<T>(s: seq<T>)
    ensures Page(s, 0) == s
  {
  }

  /** Written under one of the two logins the operator knows for bots. */
  predicate FromBot(c: Comment) {
    c.author == Other("github-actions[bot]") || c.author == Other("app/github-actions")
  }

  /** Somebody has commented, and the last to do so was no known bot. */
  predicate Replied(comments: seq<Comment>) {
    |comments| > 0 && !FromBot(comments[|comments| - 1])
  }

  lemma HumanHasLastWord(comments: seq<Comment>)
    ensures LastIsHuman(comments) <==> Replied(comments)
  {
    assert |"github-actions[bot]"| == 19 && |"app/github-actions"| == 18 && |OPERATOR_LOGIN| == 17;
  }

  ghost predicate Requests(body: string) {
    exists x: string :: body == "/clarification:" + x
  }

  ghost predicate Requested(comments: seq<Comment>) {
    exists i :: 0 <= i < |comments| && Requests(comments[i].body)
  }

  lemma RequestIsRead(comments: seq<Comment>)
    ensures AnyAsksClarification(comments) <==> Requested(comments)
  {
    forall body: string ensures AsksClarification(body) <==> Requests(body) {
      if AsksClarification(body) {
        assert body == "/clarification:" + body[|"/clarification:"|..];
      }
    }
    hide AsksClarification, Requests;
  }

  /** The question of the triage script is none for the operator. */
  lemma TriageQuestionIsNoRequest(question: string)
    ensures !Requests("/clarification-needed: " + question)
  {
    assert ("/clarification-needed: " + question)[14] == '-';
    assert forall x: string :: ("/clarification:" + x)[14] == ':';
  }

  ghost predicate Links(body: string) {
    exists x: string, y: string :: body == x + "PR: https://" + y
  }

  ghost predicate Linked(comments: seq<Comment>) {
    exists i :: 0 <= i < |comments| && Links(comments[i].body)
  }

  lemma LinkIsFound(body: string)
    ensures MentionsPR(body) <==> Links(body)
  {
    var mark := "PR: https://";
    if MentionsPR(body) {
      var i :| 0 <= i <= |body| - |mark| && mark <= body[i..];
      assert body == body[..i] + mark + body[i + |mark|..];
    }
    if Links(body) {
      var x: string, y: string :| body == x + mark + y;
      assert body[|x|..] == mark + y;
    }
  }

  lemma LinkIsRead(comments: seq<Comment>)
    ensures AnyMentionsPR(comments) <==> Linked(comments)
  {
    forall body: string ensures MentionsPR(body) <==> Links(body) {
      LinkIsFound(body);
    }
    hide MentionsPR, Links;
  }

  /** Entry `i` is the first of a listing on a branch of issue `n`. */
  ghost predicate FirstOfIssue(prs: seq<PullRequest>, i: nat, n: nat) {
    i < |prs| && IssueHead(prs[i].head, n) && forall q :: 0 <= q < i ==> !IssueHead(prs[q].head, n)
  }

  ghost predicate NoneOfIssue(prs: seq<PullRequest>, n: nat) {
    forall q :: 0 <= q < |prs| ==> !IssueHead(prs[q].head, n)
  }

  /** The search of a listing gives its first pull request on a branch of the issue, and nothing only
      when there is none. */
  lemma {:induction false} SearchGivesFirst(prs: seq<PullRequest>, n: nat)
    ensures FirstMatch(prs, n).None? <==> NoneOfIssue(prs, n)
    ensures FirstMatch(prs, n).Some? <==> exists i: nat :: FirstOfIssue(prs, i, n)
    ensures forall i: nat :: FirstOfIssue(prs, i, n) ==> FirstMatch(prs, n) == Some(prs[i])
  {
    hide IssueHead, BranchOf;
    if prs != [] {
      BranchTestReads(prs[0].head, n);
      var rest := prs[1..];
      SearchGivesFirst(rest, n);
      assert forall q :: 0 < q < |prs| ==> prs[q] == rest[q - 1];
      forall i: nat | FirstOfIssue(prs, i, n) ensures FirstMatch(prs, n) == Some(prs[i]) {
        if i > 0 {
          assert FirstOfIssue(rest, i - 1, n) by {
            forall q | 0 <= q < i - 1 ensures !IssueHead(rest[q].head, n) {
              assert rest[q] == prs[q + 1];
            }
          }
        }
      }
      if IssueHead(prs[0].head, n) {
        assert FirstOfIssue(prs, 0, n);
      } else if exists i: nat :: FirstOfIssue(rest, i, n) {
        var i: nat :| FirstOfIssue(rest, i, n);
        assert FirstOfIssue(prs, i + 1, n);
      }
    }
  }
}
