/** Names the operator derives from an issue number and a repository, and the test that
    ties a pull request's head branch to an issue. Strings are real character sequences,
    so that the injectivity the protocol relies on is proved and not assumed. */
module Names {

  const SYSTEM_NAMESPACE := "devpipeline-system"

  predicate IsDigit(c: char) {
    '0' <= c <= '9'
  }

  function Digit(d: nat): (c: char)
    requires d < 10
    ensures IsDigit(c) && c as int - '0' as int == d
  {
    ('0' as int + d) as char
  }

  /** `%d` for a non-negative number. */
  function DecNat(n: nat): (s: string)
    ensures |s| > 0 && forall i :: 0 <= i < |s| ==> IsDigit(s[i])
  {
    if n < 10 then [Digit(n)] else DecNat(n / 10) + [Digit(n % 10)]
  }

  /** `%d`. */
  function Dec(n: int): string {
    if n < 0 then "-" + DecNat(-n) else DecNat(n)
  }

  /** Reads a decimal numeral back. */
  function Value(s: string): int {
    if |s| == 0 then 0 else 10 * Value(s[..|s| - 1]) + (s[|s| - 1] as int - '0' as int)
  }

  lemma {:induction false} DecNatRoundTrip(n: nat)
    ensures Value(DecNat(n)) == n
  {
    if n < 10 {
      assert DecNat(n)[..0] == [];
    } else {
      DecNatRoundTrip(n / 10);
      assert DecNat(n)[..|DecNat(n)| - 1] == DecNat(n / 10);
    }
  }

  predicate AllDigits(s: string) {
    forall i :: 0 <= i < |s| ==> IsDigit(s[i])
  }

  /** The decimal numeral of a number, without leading zeros. */
  predicate Numeral(s: string, n: nat) {
    s != "" && AllDigits(s) && Value(s) == n && (|s| > 1 ==> s[0] != '0')
  }

  lemma {:induction false} ValueGrows(s: string)
    requires s != "" && AllDigits(s)
    ensures Value(s) >= 0 && (s[0] != '0' ==> Value(s) > 0)
  {
    if |s| > 1 {
      ValueGrows(s[..|s| - 1]);
    } else {
      assert s[..0] == "";
    }
  }

  lemma {:induction false} PrintsNumeral(n: nat)
    ensures Numeral(DecNat(n), n)
  {
    DecNatRoundTrip(n);
    if n >= 10 {
      PrintsNumeral(n / 10);
      ValueGrows(DecNat(n / 10));
      assert DecNat(n)[0] == DecNat(n / 10)[0];
      assert DecNat(n / 10)[0] != '0' by {
        if |DecNat(n / 10)| == 1 {
          assert Value(DecNat(n / 10)[..0]) == 0;
        }
      }
    }
  }

  /** Every number has exactly one numeral, and it is the one that is printed. */
  lemma {:induction false} OneNumeral(s: string, n: nat)
    ensures Numeral(s, n) <==> s == DecNat(n)
  {
    PrintsNumeral(n);
    if Numeral(s, n) {
      var front, last := s[..|s| - 1], s[|s| - 1];
      if |s| == 1 {
        assert Value(front) == 0;
        assert s == [last];
      } else {
        ValueGrows(front);
        OneNumeral(front, n / 10);
        assert s == front + [last];
      }
    }
  }

  lemma DecInjective(n: int, m: int)
    requires Dec(n) == Dec(m)
    ensures n == m
  {
    DecNatRoundTrip(if n < 0 then -n else n);
    DecNatRoundTrip(if m < 0 then -m else m);
    assert n < 0 ==> Dec(n)[0] == '-' && Dec(n)[1..] == DecNat(-n);
    assert m < 0 ==> Dec(m)[0] == '-' && Dec(m)[1..] == DecNat(-m);
  }

  // ---------------------------------------------------------------- string searches

  /** Position of the first `c` in `s`, or -1. */
  function IndexOf(s: string, c: char): (i: int)
    ensures -1 <= i < |s|
    ensures i >= 0 ==> s[i] == c
    ensures forall q :: 0 <= q < (if i < 0 then |s| else i) ==> s[q] != c
  {
    if |s| == 0 then -1
    else if s[0] == c then 0
    else
      var rest := IndexOf(s[1..], c);
      if rest < 0 then -1
      else rest + 1
  }

  predicate Contains(s: string, sub: string) {
    exists i :: 0 <= i <= |s| - |sub| && sub <= s[i..]
  }

  // ---------------------------------------------------------------- repositories

  /** `strings.SplitN(repo, "/", 2)`. */
  function SplitRepo(repo: string): (parts: seq<string>)
    ensures 1 <= |parts| <= 2
  {
    var i := IndexOf(repo, '/');
    if i < 0 then [repo] else [repo[..i], repo[i + 1..]]
  }

  function RepoName(repo: string): string {
    var parts := SplitRepo(repo);
    if |parts| == 2 then parts[1] else repo
  }

  predicate RepoChar(c: char) {
    'a' <= c <= 'z' || 'A' <= c <= 'Z' || IsDigit(c) || c == '_' || c == '.' || c == '-'
  }

  predicate RepoWord(s: string) {
    |s| > 0 && forall i :: 0 <= i < |s| ==> RepoChar(s[i])
  }

  /** The validation pattern of DevTaskSpec.Repo: one word, a slash, one word. */
  ghost predicate RepoPattern(repo: string) {
    exists owner: string, name: string :: RepoWord(owner) && RepoWord(name) && repo == owner + "/" + name
  }

  /** On every repository the CRD admits the split is total, rejoins to the input, and both
      halves are words, so the `parts[1]` of every GitHub call is in range. */
  lemma SplitRepoRejoins(repo: string)
    requires RepoPattern(repo)
    ensures |SplitRepo(repo)| == 2
    ensures SplitRepo(repo)[0] + "/" + SplitRepo(repo)[1] == repo
    ensures RepoWord(SplitRepo(repo)[0]) && RepoWord(SplitRepo(repo)[1])
  {
    var owner: string, name: string :| RepoWord(owner) && RepoWord(name) && repo == owner + "/" + name;
    var i := IndexOf(repo, '/');
    assert forall q :: 0 <= q < |owner| ==> repo[q] == owner[q];
    assert repo[|owner|] == '/';
    assert i == |owner|;
    assert repo[..i] == owner && repo[i + 1..] == name;
  }

  // ---------------------------------------------------------------- object names

  function TaskName(repo: string, issue: int): string {
    RepoName(repo) + "-" + Dec(issue)
  }

  function NamespaceName(issue: int): string {
    "devtask-" + Dec(issue)
  }

  function SecretName(issue: int): string {
    "devtask-" + Dec(issue) + "-creds"
  }

  lemma NamespaceInjective(n: int, m: int)
    ensures NamespaceName(n) == NamespaceName(m) <==> n == m
  {
    if NamespaceName(n) == NamespaceName(m) {
      assert NamespaceName(n)[8..] == Dec(n) && NamespaceName(m)[8..] == Dec(m);
      DecInjective(n, m);
    }
  }

  /** No task namespace is the namespace the DevTasks and the credentials live in. */
  lemma NamespaceIsNotSystem(n: int)
    ensures NamespaceName(n) != SYSTEM_NAMESPACE
  {
    assert NamespaceName(n)[3] == 't' && SYSTEM_NAMESPACE[3] == 'p';
  }

  lemma LastDashSplits(x: string, u: string, y: string, v: string)
    requires x + "-" + u == y + "-" + v && AllDigits(u) && AllDigits(v)
    ensures x == y && u == v
  {
    var s := x + "-" + u;
    assert s[|x|] == '-' && s[|y|] == '-';
    assert forall q :: |x| < q < |s| ==> s[q] == u[q - |x| - 1];
    assert forall q :: |y| < q < |s| ==> s[q] == v[q - |y| - 1];
    assert |x| == |y|;
    assert x == s[..|x|] && y == s[..|y|];
    assert u == s[|x| + 1..] && v == s[|y| + 1..];
  }

  /** A task name determines the repository's short name and the issue number, although the
      short name may itself contain dashes and digits. */
  lemma TaskNameInjective(a: string, n: nat, b: string, m: nat)
    ensures TaskName(a, n) == TaskName(b, m) <==> RepoName(a) == RepoName(b) && n == m
  {
    if TaskName(a, n) == TaskName(b, m) {
      LastDashSplits(RepoName(a), DecNat(n), RepoName(b), DecNat(m));
      DecInjective(n, m);
    }
  }

  /** Everything before the last dash of a task name. A minus sign counts as that dash. */
  function Stem(repo: string, issue: int): string {
    if issue < 0 then RepoName(repo) + "-" else RepoName(repo)
  }

  lemma StemAndDigits(repo: string, issue: int)
    ensures TaskName(repo, issue) == Stem(repo, issue) + "-" + DecNat(if issue < 0 then -issue else issue)
  {
  }

  /** Exactly when two task names are the same, for all numbers: the bound of one that the CRD puts
      on issue numbers is what rules the other cases out. */
  lemma TaskNamesMeet(a: string, n: int, b: string, m: int)
    ensures TaskName(a, n) == TaskName(b, m) <==>
      || (n == m && RepoName(a) == RepoName(b))
      || (n == -m && n < 0 && RepoName(b) == RepoName(a) + "-")
      || (n == -m && m < 0 && RepoName(a) == RepoName(b) + "-")
  {
    StemAndDigits(a, n);
    StemAndDigits(b, m);
    hide TaskName, RepoName;
    if TaskName(a, n) == TaskName(b, m) {
      var p, q := if n < 0 then -n else n, if m < 0 then -m else m;
      LastDashSplits(Stem(a, n), DecNat(p), Stem(b, m), DecNat(q));
      DecNatRoundTrip(p);
      DecNatRoundTrip(q);
      if n < 0 && m < 0 {
        assert RepoName(a) == (RepoName(a) + "-")[..|RepoName(a)|];
        assert RepoName(b) == (RepoName(b) + "-")[..|RepoName(b)|];
      }
    }
  }

  // ---------------------------------------------------------------- branches

  function LegacyBranch(issue: int): string {
    "claude/issue-" + Dec(issue)
  }

  /** The head-branch test of findPRForTask: the legacy name, or the name with a slug. */
  predicate BranchOf(head: string, issue: int) {
    LegacyBranch(issue) + "-" <= head || head == LegacyBranch(issue)
  }

  /** No head branch passes the test for two different issues: issue 1 never claims the
      branch of issue 12. */
  lemma BranchNamesOneIssue(head: string, n: nat, m: nat)
    requires BranchOf(head, n) && BranchOf(head, m)
    ensures n == m
  {
    if |DecNat(n)| <= |DecNat(m)| {
      BranchDigitsAgree(head, n, m);
    } else {
      BranchDigitsAgree(head, m, n);
    }
    DecInjective(n, m);
  }

  lemma BranchDigitsAgree(head: string, n: nat, m: nat)
    requires BranchOf(head, n) && BranchOf(head, m) && |DecNat(n)| <= |DecNat(m)|
    ensures DecNat(n) == DecNat(m)
  {
    hide DecNat, Value;
    var k := |"claude/issue-"|;
    var a, b := |DecNat(n)|, |DecNat(m)|;
    assert head[k..k + a] == DecNat(n) by { assert LegacyBranch(n)[k..] == DecNat(n); }
    assert head[k..k + b] == DecNat(m) by { assert LegacyBranch(m)[k..] == DecNat(m); }
    assert |head| > k + a ==> head[k + a] == '-';
    assert forall q :: k <= q < k + b ==> head[q] == DecNat(m)[q - k];
    assert a == b;
  }

  /** `head` is the branch of issue `n`: the numeral, and after it nothing, or a dash and any slug. */
  predicate HeadReads(head: string, n: nat, numeral: string, rest: string) {
    && Numeral(numeral, n)
    && head == "claude/issue-" + numeral + rest
    && (rest == "" || rest[0] == '-')
  }

  ghost predicate IssueHead(head: string, n: nat) {
    exists numeral: string, rest: string :: HeadReads(head, n, numeral, rest)
  }

  /** The branch test accepts exactly the branches of the issue, whatever the slug. */
  lemma BranchTestReads(head: string, n: nat)
    ensures BranchOf(head, n) <==> IssueHead(head, n)
  {
    PrintsNumeral(n);
    if BranchOf(head, n) {
      assert HeadReads(head, n, DecNat(n), head[|LegacyBranch(n)|..]);
    }
    if IssueHead(head, n) {
      var numeral: string, rest: string :| HeadReads(head, n, numeral, rest);
      OneNumeral(numeral, n);
      assert rest != "" ==> LegacyBranch(n) + "-" <= head by {
        assert rest != "" ==> rest == "-" + rest[1..];
      }
    }
  }

  /** The names derived from a number and a repository, read as text: the short name of a
      repository is what follows the first slash, or all of it if there is none. */
  lemma NamesRead(owner: string, short: string, n: nat, numeral: string)
    requires '/' !in owner && Numeral(numeral, n)
    ensures TaskName(owner + "/" + short, n) == short + "-" + numeral
    ensures TaskName(owner, n) == owner + "-" + numeral
    ensures NamespaceName(n) == "devtask-" + numeral && SecretName(n) == "devtask-" + numeral + "-creds"
  {
    OneNumeral(numeral, n);
    var repo := owner + "/" + short;
    assert repo[|owner|] == '/';
    assert forall q :: 0 <= q < |owner| ==> repo[q] == owner[q];
    assert IndexOf(repo, '/') == |owner|;
    assert repo[|owner| + 1..] == short;
    assert IndexOf(owner, '/') == -1;
  }
}
