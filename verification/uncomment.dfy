/** UncommentCode: the first occurrence of a commented-out passage is replaced by the passage
    without its comment prefix, line by line, through a scanner with a bounded line length. */
module Uncomment {
  import opened Model

  // ---------------------------------------------------------------- searching

  /** `t` occurs in `s` at `i`. */
  predicate OccursAt(s: string, t: string, i: int) {
    0 <= i <= |s| - |t| && t <= s[i..]
  }

  predicate NotBefore(s: string, t: string, i: int) {
    forall q :: 0 <= q < i ==> !OccursAt(s, t, q)
  }

  predicate FirstAt(s: string, t: string, i: int) {
    OccursAt(s, t, i) && NotBefore(s, t, i)
  }

  /** `strings.Index`. */
  method Index(s: string, t: string) returns (i: int)
    ensures -1 <= i <= |s|
    ensures i >= 0 ==> FirstAt(s, t, i)
    ensures i < 0 ==> forall q :: !OccursAt(s, t, q)
  {
    i := 0;
    while i + |t| <= |s|
      invariant 0 <= i <= |s| + 1
      invariant NotBefore(s, t, i)
    {
      if t <= s[i..] {
        return i;
      }
      i := i + 1;
    }
    return -1;
  }

  // ---------------------------------------------------------------- lines

  /** A line of this many bytes, not counting its newline, no longer fits the scanner. */
  const MAX_LINE := 65536

  predicate NoNewline(s: string) {
    forall i :: 0 <= i < |s| ==> s[i] != '\n'
  }

  /** Where the first line of `s` ends. */
  function LineEnd(s: string): (n: nat)
    ensures n <= |s| && NoNewline(s[..n]) && (n < |s| ==> s[n] == '\n')
  {
    if s == [] || s[0] == '\n' then 0
    else
      var n := 1 + LineEnd(s[1..]);
      assert s[..n] == [s[0]] + s[1..][..n - 1];
      n
  }

  function AfterLine(s: string): string {
    var n := LineEnd(s);
    if n < |s| then s[n + 1..] else []
  }

  /** One carriage return before the newline belongs to the line end. */
  function DropCR(line: string): string {
    if |line| > 0 && line[|line| - 1] == '\r' then line[..|line| - 1] else line
  }

  /** The lines a bufio.Scanner yields. It stops at the end of the input, without a last empty
      line, and at a line that is too long. */
  function Lines(s: string): seq<string>
    decreases |s|
  {
    if s == [] || LineEnd(s) >= MAX_LINE then []
    else [DropCR(s[..LineEnd(s)])] + Lines(AfterLine(s))
  }

  /** A bufio.Scanner over a string: what is left of the input, and the current line. */
  class Scanner {
    var rest: string
    var text: string

    constructor (input: string)
      ensures rest == input
    {
      rest := input;
      text := "";
    }

    /** The next line, if there is one. */
    method Scan() returns (ok: bool)
      modifies this
      ensures ok == (Lines(old(rest)) != [])
      ensures ok ==> Lines(old(rest)) == [text] + Lines(rest)
      ensures ok ==> |rest| < |old(rest)|
    {
      hide Lines, LineEnd, DropCR;
      var n := 0;
      while n < |rest| && rest[n] != '\n'
        invariant 0 <= n <= |rest| && NoNewline(rest[..n])
      {
        n := n + 1;
      }
      LinesAre(rest, n);
      if rest == "" || n >= MAX_LINE {
        return false;
      }
      text := DropCR(rest[..n]);
      rest := if n < |rest| then rest[n + 1..] else [];
      return true;
    }
  }

  lemma {:induction false} LineEndIs(s: string, n: nat)
    requires n <= |s| && NoNewline(s[..n]) && (n < |s| ==> s[n] == '\n')
    ensures LineEnd(s) == n
  {
    var m := LineEnd(s);
    assert forall q :: 0 <= q < n ==> s[..n][q] == s[q];
    assert forall q :: 0 <= q < m ==> s[..m][q] == s[q];
  }

  lemma LinesAre(s: string, n: nat)
    requires n <= |s| && NoNewline(s[..n]) && (n < |s| ==> s[n] == '\n')
    ensures Lines(s) ==
      if s == "" || n >= MAX_LINE then []
      else [DropCR(s[..n])] + Lines(if n < |s| then s[n + 1..] else [])
  {
    LineEndIs(s, n);
  }

  // ---------------------------------------------------------------- the rewrite

  /** `strings.TrimPrefix`. */
  function TrimPrefix(s: string, prefix: string): string {
    if prefix <= s then s[|prefix|..] else s
  }

  function Trimmed(lines: seq<string>, prefix: string): seq<string> {
    seq(|lines|, i requires 0 <= i < |lines| => TrimPrefix(lines[i], prefix))
  }

  /** The lines with a newline between any two. */
  function Join(lines: seq<string>): string {
    if lines == [] then ""
    else if |lines| == 1 then lines[0]
    else lines[0] + "\n" + Join(lines[1..])
  }

  lemma {:induction false} JoinMore(lines: seq<string>, last: string)
    requires lines != []
    ensures Join(lines + [last]) == Join(lines) + "\n" + last
  {
    if |lines| == 1 {
      assert (lines + [last])[1..] == [last];
    } else {
      JoinMore(lines[1..], last);
      assert (lines + [last])[1..] == lines[1..] + [last];
    }
  }

  /** What a passage with the given lines is replaced by. */
  function Uncommented(lines: seq<string>, prefix: string): string {
    Join(Trimmed(lines, prefix))
  }

  lemma UncommentedMore(lines: seq<string>, last: string, prefix: string)
    ensures Uncommented(lines + [last], prefix)
         == (if lines == [] then "" else Uncommented(lines, prefix) + "\n") + TrimPrefix(last, prefix)
  {
    assert Trimmed(lines + [last], prefix) == Trimmed(lines, prefix) + [TrimPrefix(last, prefix)];
    if lines != [] {
      JoinMore(Trimmed(lines, prefix), TrimPrefix(last, prefix));
    }
  }

  /** The file after the occurrence at `idx` has been rewritten; it is not written at all when
      the scanner yields no line. */
  function Rewritten(content: string, idx: int, target: string, prefix: string): string
    requires OccursAt(content, target, idx)
  {
    if Lines(target) == [] then content
    else content[..idx] + Uncommented(Lines(target), prefix) + content[idx + |target|..]
  }

  /** None if the target is not found; else what the file holds afterwards. */
  method UncommentCode(content: string, target: string, prefix: string) returns (file: Option<string>)
    ensures file.None? <==> forall q :: !OccursAt(content, target, q)
    ensures file.Some? ==>
      exists idx :: FirstAt(content, target, idx) && file.value == Rewritten(content, idx, target, prefix)
  {
    hide Lines, Uncommented, TrimPrefix;
    var idx := Index(content, target);
    if idx < 0 {
      return None;
    }
    assert FirstAt(content, target, idx);
    var out := content[..idx];
    var scanner := new Scanner(target);
    var more := scanner.Scan();
    if !more {
      return Some(content);
    }
    ghost var done: seq<string> := [];
    while true
      invariant Lines(target) == done + [scanner.text] + Lines(scanner.rest)
      invariant out == content[..idx] + if done == [] then "" else Uncommented(done, prefix) + "\n"
      decreases |scanner.rest|
    {
      UncommentedMore(done, scanner.text, prefix);
      out := out + TrimPrefix(scanner.text, prefix);
      done := done + [scanner.text];
      assert out == content[..idx] + Uncommented(done, prefix);
      more := scanner.Scan();
      if !more {
        assert Lines(target) == done;
        break;
      }
      out := out + "\n";
    }
    out := out + content[idx + |target|..];
    assert out == Rewritten(content, idx, target, prefix);
    return Some(out);
  }

  // ---------------------------------------------------------------- round trip

  function Commented(lines: seq<string>, prefix: string): seq<string> {
    seq(|lines|, i requires 0 <= i < |lines| => prefix + lines[i])
  }

  /** A comment marker: not empty, on one line, not ending in a carriage return. */
  predicate Marker(prefix: string) {
    prefix != "" && NoNewline(prefix) && prefix[|prefix| - 1] != '\r'
  }

  predicate SingleLines(lines: seq<string>) {
    forall i :: 0 <= i < |lines| ==> NoNewline(lines[i])
  }

  /** The scanner hands the line on as it is. */
  predicate Scannable(line: string) {
    |line| < MAX_LINE && DropCR(line) == line
  }

  predicate AllScannable(lines: seq<string>, prefix: string) {
    forall i :: 0 <= i < |lines| ==> Scannable(prefix + lines[i])
  }

  /** What the scanner makes of given lines: line ends are trimmed, and nothing comes after a
      line that is too long. */
  function Scanned(lines: seq<string>): (r: seq<string>)
    ensures |r| <= |lines|
    ensures forall i :: 0 <= i < |r| ==> |lines[i]| < MAX_LINE && r[i] == DropCR(lines[i])
  {
    if lines == [] || |lines[0]| >= MAX_LINE then []
    else [DropCR(lines[0])] + Scanned(lines[1..])
  }

  lemma JoinStarts(lines: seq<string>)
    requires lines != [] && SingleLines(lines)
    ensures LineEnd(Join(lines)) == |lines[0]| && Join(lines)[..|lines[0]|] == lines[0]
    ensures |lines| > 1 ==> |lines[0]| < |Join(lines)| && AfterLine(Join(lines)) == Join(lines[1..])
    ensures |lines| == 1 ==> |lines[0]| == |Join(lines)| && AfterLine(Join(lines)) == ""
  {
    LineEndIs(Join(lines), |lines[0]|);
  }

  /** The lines the scanner sees: an empty last line is the end of the input and no line. */
  function Seen(lines: seq<string>): seq<string> {
    if lines != [] && lines[|lines| - 1] == "" then lines[..|lines| - 1] else lines
  }

  /** The scanner over any text, given by its lines. */
  lemma {:induction false} LinesOfJoin(lines: seq<string>)
    requires SingleLines(lines)
    ensures Lines(Join(lines)) == Scanned(Seen(lines))
  {
    if lines == [] || lines == [""] {
    } else {
      JoinStarts(lines);
      LinesOfJoin(lines[1..]);
      hide Join, LineEnd, DropCR, AfterLine;
      assert Seen(lines)[0] == lines[0] && Seen(lines)[1..] == Seen(lines[1..]);
    }
  }

  lemma {:induction false} JoinInjective(a: seq<string>, b: seq<string>)
    requires a != [] && b != [] && SingleLines(a) && SingleLines(b) && Join(a) == Join(b)
    ensures a == b
  {
    JoinStarts(a);
    JoinStarts(b);
    assert a[0] == b[0];
    if |a| > 1 {
      JoinInjective(a[1..], b[1..]);
      assert a == [a[0]] + a[1..] && b == [b[0]] + b[1..];
    } else {
      assert a == [a[0]] && b == [b[0]];
    }
  }

  lemma {:induction false} JoinGrows(lines: seq<string>, prefix: string)
    requires lines != [] && prefix != ""
    ensures |Join(Commented(lines, prefix))| > |Join(lines)|
  {
    if |lines| > 1 {
      JoinGrows(lines[1..], prefix);
      assert Commented(lines, prefix)[1..] == Commented(lines[1..], prefix);
    }
  }

  lemma {:induction false} ScannedAll(lines: seq<string>)
    requires forall i :: 0 <= i < |lines| ==> Scannable(lines[i])
    ensures Scanned(lines) == lines
  {
    if lines != [] {
      ScannedAll(lines[1..]);
    }
  }

  /** The passage comes back without its markers. */
  lemma ScannableRestored(lines: seq<string>, prefix: string)
    requires AllScannable(lines, prefix)
    ensures Trimmed(Scanned(Commented(lines, prefix)), prefix) == lines
  {
    ScannedAll(Commented(lines, prefix));
    assert Trimmed(Commented(lines, prefix), prefix) == lines;
  }

  lemma RestoredScannable(lines: seq<string>, prefix: string)
    requires Marker(prefix) && Trimmed(Scanned(Commented(lines, prefix)), prefix) == lines
    ensures AllScannable(lines, prefix)
  {
    var all := Commented(lines, prefix);
    forall i | 0 <= i < |lines| ensures Scannable(prefix + lines[i]) {
      assert Scanned(all)[i] == DropCR(all[i]);
      assert Trimmed(Scanned(all), prefix)[i] == TrimPrefix(DropCR(prefix + lines[i]), prefix) == lines[i];
    }
  }

  /** What stands in the place of the target afterwards. */
  function Replacement(target: string, prefix: string): string {
    if Lines(target) == [] then target else Uncommented(Lines(target), prefix)
  }

  lemma CommentedLines(lines: seq<string>, prefix: string)
    requires lines != [] && SingleLines(lines) && Marker(prefix)
    ensures SingleLines(Commented(lines, prefix))
    ensures Commented(lines, prefix)[|lines| - 1] != ""
  {
  }

  lemma ScannedLines(lines: seq<string>, prefix: string)
    requires SingleLines(lines)
    ensures SingleLines(Trimmed(Scanned(lines), prefix))
  {
    forall i | 0 <= i < |Scanned(lines)| ensures NoNewline(TrimPrefix(Scanned(lines)[i], prefix)) {
      assert NoNewline(lines[i]);
    }
  }

  lemma ReplacementRestores(lines: seq<string>, prefix: string)
    requires lines != [] && SingleLines(lines) && Marker(prefix)
    ensures Replacement(Join(Commented(lines, prefix)), prefix) == Join(lines) <==> AllScannable(lines, prefix)
  {
    var all := Commented(lines, prefix);
    var back := Scanned(all);
    CommentedLines(lines, prefix);
    ScannedLines(all, prefix);
    LinesOfJoin(all);
    JoinGrows(lines, prefix);
    assert Replacement(Join(all), prefix) == if back == [] then Join(all) else Join(Trimmed(back, prefix));
    assert |Trimmed(back, prefix)| == |back|;
    hide Join, Lines, Scanned, Trimmed, Scannable, TrimPrefix, SingleLines, AllScannable, Commented;
    if AllScannable(lines, prefix) {
      ScannableRestored(lines, prefix);
    } else if back != [] && Join(Trimmed(back, prefix)) == Join(lines) {
      JoinInjective(Trimmed(back, prefix), lines);
      RestoredScannable(lines, prefix);
    }
  }

  lemma SameMiddle(before: string, a: string, b: string, after: string)
    requires before + a + after == before + b + after
    ensures a == b
  {
    assert |a| == |b|;
    assert (before + a + after)[|before|..|before| + |a|] == a;
    assert (before + b + after)[|before|..|before| + |a|] == b;
  }

  /** The rewrite undoes commenting out, and it does so exactly when every commented line fits
      the scanner and does not end in a carriage return. A line that is too long is not an
      error: it and the rest of the passage disappear, or nothing is written. */
  lemma UncommentRestores(content: string, idx: int, lines: seq<string>, prefix: string)
    requires lines != [] && SingleLines(lines) && Marker(prefix)
    requires OccursAt(content, Join(Commented(lines, prefix)), idx)
    ensures
      var target := Join(Commented(lines, prefix));
      var restored := content[..idx] + Join(lines) + content[idx + |target|..];
      Rewritten(content, idx, target, prefix) == restored <==> AllScannable(lines, prefix)
  {
    var target := Join(Commented(lines, prefix));
    var before, after := content[..idx], content[idx + |target|..];
    ReplacementRestores(lines, prefix);
    hide Join, Uncommented, AllScannable;
    assert content == before + target + after;
    assert Rewritten(content, idx, target, prefix) == before + Replacement(target, prefix) + after;
    if before + Replacement(target, prefix) + after == before + Join(lines) + after {
      SameMiddle(before, Replacement(target, prefix), Join(lines), after);
    }
  }

  // ---------------------------------------------------------------- line by line

  /** `bare` is the line without a carriage return at its end. */
  predicate Bares(line: string, bare: string) {
    line == bare + "\r" || (line == bare && (line != "" ==> line[|line| - 1] != '\r'))
  }

  /** `r` is the line without the prefix, if it has it, and the line if not. */
  predicate LosesPrefix(line: string, prefix: string, r: string) {
    line == prefix + r || (r == line && !(prefix <= line))
  }

  /** What becomes of one line. */
  ghost predicate Becomes(line: string, prefix: string, r: string) {
    exists bare: string :: Bares(line, bare) && LosesPrefix(bare, prefix, r)
  }

  lemma LineBecomes(line: string, prefix: string, r: string)
    requires Becomes(line, prefix, r)
    ensures TrimPrefix(DropCR(line), prefix) == r
  {
    var bare: string :| Bares(line, bare) && LosesPrefix(bare, prefix, r);
    assert line == bare + "\r" ==> line[..|line| - 1] == bare;
    assert prefix <= prefix + r && (prefix + r)[|prefix|..] == r;
  }

  /** The scanner stops at the first line that is too long. */
  lemma {:induction false} ScansUpTo(lines: seq<string>, n: nat)
    requires n <= |lines| && forall i :: 0 <= i < n ==> |lines[i]| < 65536
    requires n < |lines| ==> |lines[n]| >= 65536
    ensures |Scanned(lines)| == n
  {
    if n > 0 {
      ScansUpTo(lines[1..], n - 1);
    }
  }

  lemma LinesBecome(lines: seq<string>, results: seq<string>, prefix: string)
    requires |results| <= |lines|
    requires forall i :: 0 <= i < |results| ==> |lines[i]| < 65536 && Becomes(lines[i], prefix, results[i])
    requires |results| < |lines| ==> |lines[|results|]| >= 65536
    ensures |Scanned(lines)| == |results| && Trimmed(Scanned(lines), prefix) == results
  {
    hide Becomes, TrimPrefix;
    ScansUpTo(lines, |results|);
    forall i | 0 <= i < |results| ensures TrimPrefix(Scanned(lines)[i], prefix) == results[i] {
      LineBecomes(lines[i], prefix, results[i]);
    }
  }

  /** Whatever lines the target has, commented out or not, up to one that is too long: each loses a
      carriage return at its end, and the prefix if it has it, and that is what stands in the target's
      place afterwards, without the rest of it; nothing else in the file changes, and nothing at all
      where the first line is too long or there is none. */
  lemma UncommentsLineByLine(content: string, idx: int, lines: seq<string>, results: seq<string>, prefix: string)
    requires SingleLines(lines) && |results| <= |Seen(lines)|
    requires var seen := Seen(lines);
      && (forall i :: 0 <= i < |results| ==> |seen[i]| < 65536 && Becomes(seen[i], prefix, results[i]))
      && (|results| < |seen| ==> |seen[|results|]| >= 65536)
    requires OccursAt(content, Join(lines), idx)
    ensures Rewritten(content, idx, Join(lines), prefix)
         == if results == [] then content else content[..idx] + Join(results) + content[idx + |Join(lines)|..]
  {
    hide Join, Lines, Scanned, Trimmed, Becomes, SingleLines, Seen;
    LinesOfJoin(lines);
    LinesBecome(Seen(lines), results, prefix);
  }

  /** A passage in which no line has the prefix leaves the file as it was. */
  lemma BareStays(content: string, idx: int, lines: seq<string>, prefix: string)
    requires lines != [] && SingleLines(lines) && lines[|lines| - 1] != ""
    requires forall i :: 0 <= i < |lines| ==> |lines[i]| < 65536 && Bares(lines[i], lines[i]) && !(prefix <= lines[i])
    requires OccursAt(content, Join(lines), idx)
    ensures Rewritten(content, idx, Join(lines), prefix) == content
  {
    hide Join, Rewritten, SingleLines;
    assert forall i :: 0 <= i < |lines| ==> Bares(lines[i], lines[i]) && LosesPrefix(lines[i], prefix, lines[i]);
    UncommentsLineByLine(content, idx, lines, lines, prefix);
    Resplit(content, idx, Join(lines));
  }

  lemma Resplit(s: string, i: int, t: string)
    requires OccursAt(s, t, i)
    ensures s == s[..i] + t + s[i + |t|..]
  {
  }
}
