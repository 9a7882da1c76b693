/** What LoadRules (internal/app/app.go) reads: `filepath.Walk` over the rules
    directory, seen as the ordered list of entries it visits, and the line splitting of
    `bufio.ScanLines` applied to every regular file. */
module RuleFiles {

  /** One entry visited by the walk, in walk order. A file that cannot be opened and a
      directory whose listing fails both make the walk callback return an error. */
  datatype WalkEntry =
    | Directory
    | RegularFile(contents: string)
    | UnopenableFile
    | UnreadableDirectory

  predicate EntryFails(e: WalkEntry) {
    e.UnopenableFile? || e.UnreadableDirectory?
  }

  /** Index of the first '\n' of `s`, or |s| when there is none. */
  function IndexOfNewline(s: string): (i: nat)
    ensures i <= |s|
    ensures i < |s| ==> s[i] == '\n'
    ensures forall j :: 0 <= j < i ==> s[j] != '\n'
  {
    if s == [] then 0
    else if s[0] == '\n' then 0
    else 1 + IndexOfNewline(s[1..])
  }

  /** bufio's dropCR: one trailing carriage return is removed. */
  function DropCR(s: string): string {
    if |s| > 0 && s[|s| - 1] == '\r' then s[..|s| - 1] else s
  }

  /** One call of `scanner.Scan()` with the ScanLines split function on the input that
      remains: the token and how many characters it consumes. */
  function ScanLine(s: string): (r: (string, nat))
    requires s != []
    ensures 0 < r.1 <= |s|
  {
    var i := IndexOfNewline(s);
    if i < |s| then (DropCR(s[..i]), i + 1) else (DropCR(s), |s|)
  }

  /** The tokens `scanner.Text()` yields for the whole input, in order. */
  function ScanLines(s: string): seq<string>
    decreases |s|
  {
    if s == [] then []
    else
      var i := IndexOfNewline(s);
      if i < |s| then [DropCR(s[..i])] + ScanLines(s[i + 1..]) else [DropCR(s)]
  }

  /** One Scan step is the head of ScanLines: the loop of LoadRules walks ScanLines. */
  lemma ScanLineIsFirstToken(s: string)
    requires s != []
    ensures ScanLines(s) == [ScanLine(s).0] + ScanLines(s[ScanLine(s).1..])
  {
    if IndexOfNewline(s) == |s| {
      assert s[|s|..] == [];
    }
  }

  /** Every token followed by a newline: the inverse of ScanLines on input without '\r'. */
  function Unlines(lines: seq<string>): string {
    if lines == [] then "" else lines[0] + "\n" + Unlines(lines[1..])
  }

  predicate NoCarriageReturn(s: string) {
    forall i :: 0 <= i < |s| ==> s[i] != '\r'
  }

  function CountNewlines(s: string): nat {
    if s == [] then 0 else (if s[0] == '\n' then 1 else 0) + CountNewlines(s[1..])
  }

  lemma {:induction false} CountNewlinesAppend(a: string, b: string)
    ensures CountNewlines(a + b) == CountNewlines(a) + CountNewlines(b)
  {
    if a != [] {
      assert (a + b)[1..] == a[1..] + b;
      CountNewlinesAppend(a[1..], b);
    } else {
      assert a + b == b;
    }
  }

  /** The input with a final newline added when it lacks one. */
  function Terminated(s: string): string {
    if s == [] || s[|s| - 1] == '\n' then s else s + "\n"
  }

  /** Round trip: re-joining the scanned lines with newlines gives the input back,
      with a final newline added when the input lacks one. So every line is kept,
      blank lines included, and nothing else is produced. */
  lemma {:induction false} ScanLinesRoundTrip(s: string)
    requires NoCarriageReturn(s)
    ensures Unlines(ScanLines(s)) == Terminated(s)
    decreases |s|
  {
    if s != [] {
      var i := IndexOfNewline(s);
      if i < |s| {
        var rest := s[i + 1..];
        assert NoCarriageReturn(rest) by {
          forall j | 0 <= j < |rest| ensures rest[j] != '\r' { assert rest[j] == s[i + 1 + j]; }
        }
        ScanLinesRoundTrip(rest);
        RoundTripFirstLine(s, i);
      } else {
        assert DropCR(s) == s by { assert s[|s| - 1] != '\r'; }
        assert ScanLines(s) == [s];
        UnlinesCons(s, []);
        assert s[|s| - 1] != '\n';
      }
    }
  }

  /** The inductive step of ScanLinesRoundTrip: the input has a first newline at i. */
  lemma RoundTripFirstLine(s: string, i: nat)
    requires NoCarriageReturn(s)
    requires i == IndexOfNewline(s) < |s|
    requires Unlines(ScanLines(s[i + 1..])) == Terminated(s[i + 1..])
    ensures Unlines(ScanLines(s)) == Terminated(s)
  {
    var head := s[..i];
    var rest := s[i + 1..];
    FirstLineKept(s, i);
    UnlinesCons(head, ScanLines(rest));
    SplitAtNewline(s, i);
    TerminatedAfterLine(head, rest);
  }

  lemma SplitAtNewline(s: string, i: nat)
    requires i < |s| && s[i] == '\n'
    ensures s == s[..i] + "\n" + s[i + 1..]
  {
  }

  lemma TerminatedAfterLine(head: string, rest: string)
    ensures Terminated(head + "\n" + rest) == head + "\n" + Terminated(rest)
  {
    var s := head + "\n" + rest;
    if rest == [] {
      assert s[|s| - 1] == '\n';
    } else {
      assert s[|s| - 1] == rest[|rest| - 1];
      if rest[|rest| - 1] != '\n' {
        assert s + "\n" == head + "\n" + (rest + "\n");
      }
    }
  }

  /** Without carriage returns the first line is yielded as it is. */
  lemma FirstLineKept(s: string, i: nat)
    requires NoCarriageReturn(s)
    requires i == IndexOfNewline(s) < |s|
    ensures ScanLines(s) == [s[..i]] + ScanLines(s[i + 1..])
  {
    var head := s[..i];
    if i > 0 {
      assert head[i - 1] == s[i - 1];
      assert s[i - 1] != '\r';
    }
    assert DropCR(head) == head;
  }

  lemma UnlinesCons(x: string, ys: seq<string>)
    ensures Unlines([x] + ys) == x + "\n" + Unlines(ys)
  {
    assert ([x] + ys)[0] == x && ([x] + ys)[1..] == ys;
  }

  /** ScanLines yields one line per newline, plus one for a last line without newline. */
  lemma {:induction false} ScanLinesCount(s: string)
    ensures |ScanLines(s)| == CountNewlines(s) + (if s != [] && s[|s| - 1] != '\n' then 1 else 0)
    decreases |s|
  {
    if s != [] {
      var i := IndexOfNewline(s);
      NewlinesBeforeIndex(s, i);
      if i < |s| {
        var rest := s[i + 1..];
        ScanLinesCount(rest);
        SplitAtNewline(s, i);
        CountNewlinesAppend(s[..i] + "\n", rest);
        CountNewlinesAppend(s[..i], "\n");
        assert CountNewlines("\n") == 1 by { assert "\n"[1..] == []; }
        if rest != [] { assert rest[|rest| - 1] == s[|s| - 1]; }
      } else {
        assert s[..i] == s;
        assert s[|s| - 1] != '\n';
      }
    }
  }

  lemma {:induction false} NewlinesBeforeIndex(s: string, i: nat)
    requires i <= |s|
    requires forall j :: 0 <= j < i ==> s[j] != '\n'
    ensures CountNewlines(s[..i]) == 0
  {
    if i > 0 {
      assert s[..i][1..] == s[1..][..i - 1];
      NewlinesBeforeIndex(s[1..], i - 1);
    }
  }

  /** What the walk contributes to the rules: the lines of every regular file visited
      before the first failing entry, and whether the walk failed. */
  datatype WalkResult = WalkResult(rules: seq<string>, failed: bool)

  function Walk(entries: seq<WalkEntry>): WalkResult {
    if entries == [] then WalkResult([], false)
    else
      var w := Walk(entries[..|entries| - 1]);
      var e := entries[|entries| - 1];
      if w.failed then w
      else if EntryFails(e) then WalkResult(w.rules, true)
      else WalkResult(w.rules + EntryRules(e), false)
  }

  /** One more entry visited. */
  lemma WalkSnoc(p: seq<WalkEntry>, e: WalkEntry)
    ensures Walk(p + [e]) ==
              if Walk(p).failed then Walk(p)
              else if EntryFails(e) then WalkResult(Walk(p).rules, true)
              else WalkResult(Walk(p).rules + EntryRules(e), false)
  {
    assert (p + [e])[..|p|] == p;
  }

  function EntryRules(e: WalkEntry): seq<string> {
    if e.RegularFile? then ScanLines(e.contents) else []
  }

  /** Reference reading of the walk: the lines of all regular files, in walk order. */
  function AllRules(entries: seq<WalkEntry>): seq<string> {
    if entries == [] then [] else EntryRules(entries[0]) + AllRules(entries[1..])
  }

  lemma {:induction false} AllRulesAppend(a: seq<WalkEntry>, b: seq<WalkEntry>)
    ensures AllRules(a + b) == AllRules(a) + AllRules(b)
  {
    if a == [] {
      assert a + b == b;
    } else {
      assert (a + b)[1..] == a[1..] + b;
      AllRulesAppend(a[1..], b);
    }
  }

  /** The walk fails iff some entry fails; without a failure it yields the lines of all
      files, and with one it yields the lines of the files before the first failure. */
  lemma {:induction false} WalkCharacterization(entries: seq<WalkEntry>)
    ensures Walk(entries).failed <==> exists i :: 0 <= i < |entries| && EntryFails(entries[i])
    ensures !Walk(entries).failed ==> Walk(entries).rules == AllRules(entries)
    ensures Walk(entries).failed ==>
              exists k :: 0 <= k < |entries| && EntryFails(entries[k]) &&
                          (forall j :: 0 <= j < k ==> !EntryFails(entries[j])) &&
                          Walk(entries).rules == AllRules(entries[..k])
  {
    if entries != [] {
      var n := |entries| - 1;
      var p := entries[..n];
      var e := entries[n];
      WalkCharacterization(p);
      assert entries == p + [e];
      WalkSnoc(p, e);
      if Walk(p).failed {
        var k :| 0 <= k < |p| && EntryFails(p[k]) && (forall j :: 0 <= j < k ==> !EntryFails(p[j])) &&
                 Walk(p).rules == AllRules(p[..k]);
        assert entries[k] == p[k] && entries[..k] == p[..k];
      } else if EntryFails(e) {
        assert entries[..n] == p;
      } else {
        AllRulesAppend(p, [e]);
        assert AllRules([e]) == EntryRules(e) + AllRules([]);
        forall i | 0 <= i < |entries| ensures !EntryFails(entries[i]) {
          if i < n { assert entries[i] == p[i]; }
        }
      }
    }
  }

  /** The walk stops at its first failure: later entries are not visited. */
  lemma {:induction false} WalkStopsAtFailure(entries: seq<WalkEntry>, i: nat)
    requires i <= |entries|
    requires Walk(entries[..i]).failed
    ensures Walk(entries) == Walk(entries[..i])
    decreases |entries| - i
  {
    if i < |entries| {
      var n := |entries| - 1;
      assert entries[..n][..i] == entries[..i];
      WalkStopsAtFailure(entries[..n], i);
    } else {
      assert entries[..i] == entries;
    }
  }

  lemma {:induction false} IndexOfNewlineAfterLine(a: string, b: string)
    requires forall j :: 0 <= j < |a| ==> a[j] != '\n'
    ensures IndexOfNewline(a + "\n" + b) == |a|
  {
    if a != [] {
      assert (a + "\n" + b)[1..] == a[1..] + "\n" + b;
      IndexOfNewlineAfterLine(a[1..], b);
    }
  }

  /** A line without newline nor trailing '\r', then a newline, scans to that line first. */
  lemma ScanLinesOfLine(a: string, b: string)
    requires forall j :: 0 <= j < |a| ==> a[j] != '\n'
    requires a == [] || a[|a| - 1] != '\r'
    ensures ScanLines(a + "\n" + b) == [a] + ScanLines(b)
  {
    var s := a + "\n" + b;
    IndexOfNewlineAfterLine(a, b);
    assert s[..|a|] == a && s[|a| + 1..] == b;
  }

  const DebugRule: string := "^DEBUG:.*"
  const InfoRule: string := "^INFO:.*"
  const TraceRule: string := "^TRACE:.*"

  /** The file `^DEBUG:.*\n^INFO:.*\n` scans to its two lines. */
  lemma DebugInfoFileScan()
    ensures ScanLines(DebugRule + "\n" + InfoRule + "\n") == [DebugRule, InfoRule]
  {
    var info := InfoRule + "\n";
    InfoFileScan();
    ScanLinesOfLine(DebugRule, info);
    assert DebugRule + "\n" + InfoRule + "\n" == DebugRule + "\n" + info;
  }

  lemma InfoFileScan()
    ensures ScanLines(InfoRule + "\n") == [InfoRule]
  {
    ScanLinesOfLine(InfoRule, "");
    assert InfoRule + "\n" + "" == InfoRule + "\n";
  }

  lemma TraceFileScan()
    ensures ScanLines(TraceRule + "\n") == [TraceRule]
  {
    ScanLinesOfLine(TraceRule, "");
    assert TraceRule + "\n" + "" == TraceRule + "\n";
  }

  /** A directory, two files, a sub-directory: the rules are the two files' lines. */
  lemma WalkTwoFiles(a: string, b: string)
    ensures Walk([Directory, RegularFile(a), RegularFile(b), Directory]) == WalkResult(ScanLines(a) + ScanLines(b), false)
  {
    var es := [Directory, RegularFile(a), RegularFile(b), Directory];
    assert es[..3] == [Directory, RegularFile(a), RegularFile(b)];
    assert es[..3][..2] == [Directory, RegularFile(a)];
    assert es[..3][..2][..1] == [Directory];
    assert [Directory][..0] == [];
    assert Walk([Directory]) == WalkResult([], false);
    assert Walk([Directory, RegularFile(a)]) == WalkResult(ScanLines(a), false);
    assert Walk(es[..3]) == WalkResult(ScanLines(a) + ScanLines(b), false);
  }

  /** Two files `^DEBUG:.*\n^INFO:.*\n` and `^TRACE:.*\n` below the rules directory,
      next to a sub-directory, give three rules in file order. */
  lemma DebugInfoTraceGiveThreeRules()
    ensures Walk([Directory, RegularFile(DebugRule + "\n" + InfoRule + "\n"), RegularFile(TraceRule + "\n"), Directory]).rules
            == [DebugRule, InfoRule, TraceRule]
  {
    DebugInfoFileScan();
    TraceFileScan();
    WalkTwoFiles(DebugRule + "\n" + InfoRule + "\n", TraceRule + "\n");
  }

  /** An empty file adds no rule; a blank line is kept as an empty rule. */
  lemma EmptyFileNoRuleBlankLineKept()
    ensures ScanLines("") == []
    ensures ScanLines("a\n\nb") == ["a", "", "b"]
  {
    ScanLinesOfLine("", "b");
    assert "\nb" == "" + "\n" + "b";
    ScanLinesOfLine("a", "\nb");
    assert "a\n\nb" == "a" + "\n" + "\nb";
    assert IndexOfNewline("b") == 1;
  }
}
