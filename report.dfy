/** The output half of internal/app/cloudwatchlogs.go: sorted stream keys, the
    per-stream section of the report and the whole report, as the lines the producer
    pushes into the channel in order. */
module Report {
  import opened Aggregation

  // ---------------------------------------------------------------------------
  // sort.Strings order. Go compares strings byte by byte; UTF-8 preserves code point
  // order, so comparing characters lexicographically is the same order.

  predicate StrLess(a: string, b: string) {
    if a == [] then b != []
    else if b == [] then false
    else if a[0] != b[0] then a[0] < b[0]
    else StrLess(a[1..], b[1..])
  }

  lemma {:induction false} StrLessIrreflexive(a: string)
    ensures !StrLess(a, a)
  {
    if a != [] { StrLessIrreflexive(a[1..]); }
  }

  lemma {:induction false} StrLessTransitive(a: string, b: string, c: string)
    requires StrLess(a, b) && StrLess(b, c)
    ensures StrLess(a, c)
  {
    if a != [] && b != [] && c != [] && a[0] == b[0] && b[0] == c[0] {
      StrLessTransitive(a[1..], b[1..], c[1..]);
    }
  }

  lemma {:induction false} StrLessTotal(a: string, b: string)
    requires a != b
    ensures StrLess(a, b) || StrLess(b, a)
  {
    if a != [] && b != [] && a[0] == b[0] {
      assert a == [a[0]] + a[1..] && b == [b[0]] + b[1..];
      StrLessTotal(a[1..], b[1..]);
    }
  }

  lemma StrLessAsymmetric(a: string, b: string)
    requires StrLess(a, b)
    ensures !StrLess(b, a)
  {
    if StrLess(b, a) {
      StrLessTransitive(a, b, a);
      StrLessIrreflexive(a);
    }
  }

  predicate StrictlySorted(s: seq<string>) {
    forall i, j :: 0 <= i < j < |s| ==> StrLess(s[i], s[j])
  }

  /** Inserting a new key into a sorted key list. */
  function InsertSorted(s: seq<string>, k: string): (r: seq<string>)
    requires StrictlySorted(s) && k !in s
    ensures StrictlySorted(r)
    ensures |r| == |s| + 1
    ensures forall x :: x in r <==> x in s || x == k
  {
    if s == [] then [k]
    else if StrLess(k, s[0]) then
      assert forall j :: 0 < j < |s| ==> StrLess(k, s[j]) by {
        forall j | 0 < j < |s| { StrLessTransitive(k, s[0], s[j]); }
      }
      [k] + s
    else
      StrLessTotal(k, s[0]);
      var t := InsertSorted(s[1..], k);
      assert forall x :: x in s[1..] ==> StrLess(s[0], x) by {
        forall x | x in s[1..]
          ensures StrLess(s[0], x)
        {
          var j :| 0 <= j < |s[1..]| && s[1..][j] == x;
          assert s[j + 1] == x;
        }
      }
      assert forall x :: x in s <==> x == s[0] || x in s[1..] by {
        assert s == [s[0]] + s[1..];
      }
      assert forall j :: 0 <= j < |t| ==> StrLess(s[0], t[j]) by {
        forall j | 0 <= j < |t|
          ensures StrLess(s[0], t[j])
        {
          assert t[j] in t;
        }
      }
      [s[0]] + t
  }

  /** Two strictly sorted lists with the same elements are equal: the sorted key list
      does not depend on the map's iteration order. */
  lemma {:induction false} SortedUnique(a: seq<string>, b: seq<string>)
    requires StrictlySorted(a) && StrictlySorted(b)
    requires forall x :: x in a <==> x in b
    ensures a == b
  {
    if a != [] && b != [] {
      assert a[0] in b && b[0] in a;
      var i :| 0 <= i < |b| && b[i] == a[0];
      var j :| 0 <= j < |a| && a[j] == b[0];
      if a[0] != b[0] {
        assert i > 0 && j > 0;
        StrLessAsymmetric(b[0], b[i]);
      }
      assert a[0] == b[0];
      forall x
        ensures x in a[1..] <==> x in b[1..]
      {
        if x in a[1..] {
          var k :| 0 <= k < |a[1..]| && a[1..][k] == x;
          assert a[k + 1] == x;
          StrLessIrreflexive(x);
          assert x in b && x != b[0];
          var m :| 0 <= m < |b| && b[m] == x;
          assert b[1..][m - 1] == x;
        }
        if x in b[1..] {
          var k :| 0 <= k < |b[1..]| && b[1..][k] == x;
          assert b[k + 1] == x;
          StrLessIrreflexive(x);
          assert x in a && x != a[0];
          var m :| 0 <= m < |a| && a[m] == x;
          assert a[1..][m - 1] == x;
        }
      }
      SortedUnique(a[1..], b[1..]);
      assert a == [a[0]] + a[1..] && b == [b[0]] + b[1..];
    } else if a != [] {
      ElementAt(a, 0);
    } else if b != [] {
      ElementAt(b, 0);
    }
  }

  lemma ElementAt(s: seq<string>, i: nat)
    requires i < |s|
    ensures s[i] in s
  {
  }

  /** The keys of a set in ascending order. */
  ghost function SortedKeys(ks: set<string>): (r: seq<string>)
    ensures StrictlySorted(r)
    ensures forall x :: x in r <==> x in ks
    decreases ks
  {
    if ks == {} then []
    else
      var k :| k in ks;
      InsertSorted(SortedKeys(ks - {k}), k)
  }

  /** getSortedStreamKeys: collect the keys in the map's own order, then sort. */
  method GetSortedStreamKeys(groups: StreamGroups) returns (keys: seq<string>)
    ensures StrictlySorted(keys)
    ensures forall k :: k in keys <==> k in groups
    ensures |keys| == |groups|
    ensures keys == SortedKeys(groups.Keys)
  {
    keys := [];
    var rest := groups.Keys;
    while rest != {}
      invariant StrictlySorted(keys)
      invariant rest <= groups.Keys
      invariant forall k :: k in keys <==> k in groups && k !in rest
      invariant |keys| + |rest| == |groups|
      decreases |rest|
    {
      var k :| k in rest;
      keys := InsertSorted(keys, k);
      rest := rest - {k};
    }
    SortedUnique(keys, SortedKeys(groups.Keys));
  }

  // ---------------------------------------------------------------------------
  // Events of one stream by timestamp.

  predicate ByTimestamp(s: seq<LogEvent>) {
    forall i, j :: 0 <= i < j < |s| ==> s[i].timestamp <= s[j].timestamp
  }

  function InsertByTimestamp(s: seq<LogEvent>, e: LogEvent): (r: seq<LogEvent>)
    requires ByTimestamp(s)
    ensures ByTimestamp(r)
    ensures multiset(r) == multiset(s) + multiset{e}
    ensures |r| == |s| + 1
  {
    if s == [] || s[|s| - 1].timestamp <= e.timestamp then s + [e]
    else
      var n := |s| - 1;
      assert s == s[..n] + [s[n]];
      var t := InsertByTimestamp(s[..n], e);
      AllAtMost(t, s[..n], e, s[n].timestamp);
      t + [s[n]]
  }

  lemma AllAtMost(t: seq<LogEvent>, s: seq<LogEvent>, e: LogEvent, bound: int)
    requires multiset(t) == multiset(s) + multiset{e}
    requires forall k :: 0 <= k < |s| ==> s[k].timestamp <= bound
    requires e.timestamp <= bound
    ensures forall j :: 0 <= j < |t| ==> t[j].timestamp <= bound
  {
    forall j | 0 <= j < |t|
      ensures t[j].timestamp <= bound
    {
      assert t[j] in multiset(t);
      if t[j] != e {
        assert t[j] in multiset(s);
        var k :| 0 <= k < |s| && s[k] == t[j];
      }
    }
  }

  /** sort.Slice by timestamp. The library sort is not stable; this one is, and only
      the ordering and the permutation are claimed about it. */
  function SortByTimestamp(evs: seq<LogEvent>): (r: seq<LogEvent>)
    ensures ByTimestamp(r)
    ensures multiset(r) == multiset(evs)
    ensures |r| == |evs|
  {
    if evs == [] then []
    else
      var n := |evs| - 1;
      assert evs == evs[..n] + [evs[n]];
      InsertByTimestamp(SortByTimestamp(evs[..n]), evs[n])
  }

  // ---------------------------------------------------------------------------
  // Report lines.

  /** Go's `/` truncates toward zero (Dafny's rounds toward minus infinity for a
      positive divisor). */
  function GoDiv(a: int, b: int): (q: int)
    requires b > 0
    ensures a >= 0 ==> q * b <= a < q * b + b
    ensures a < 0 ==> q * b - b < a <= q * b
  {
    if a >= 0 then a / b else -((-a) / b)
  }

  const MillisecondsMultiplier: int := 1000

  /** One event line; `fmt` stands for `time.Unix(sec, 0).UTC().Format("2006-01-02 15:04:05")`. */
  function EventLine(fmt: int -> string, e: LogEvent): string {
    fmt(GoDiv(e.timestamp, MillisecondsMultiplier)) + " UTC: " + e.message + "<br>\n"
  }

  function EventLines(fmt: int -> string, evs: seq<LogEvent>): (r: seq<string>)
    ensures |r| == |evs|
  {
    if evs == [] then []
    else EventLines(fmt, evs[..|evs| - 1]) + [EventLine(fmt, evs[|evs| - 1])]
  }

  lemma EventLinesStep(fmt: int -> string, evs: seq<LogEvent>, i: nat)
    requires i < |evs|
    ensures EventLines(fmt, evs[..i + 1]) == EventLines(fmt, evs[..i]) + [EventLine(fmt, evs[i])]
  {
    assert evs[..i + 1][..i] == evs[..i];
  }

  /** Line i is the line of event i. */
  lemma {:induction false} EventLinesAt(fmt: int -> string, evs: seq<LogEvent>, i: nat)
    requires i < |evs|
    ensures EventLines(fmt, evs)[i] == EventLine(fmt, evs[i])
  {
    if i < |evs| - 1 {
      EventLinesAt(fmt, evs[..|evs| - 1], i);
    }
  }

  const StreamLabel: string := "<b>Parse stream</b> :"
  const ImageLabel: string := "<b>Container Image</b> :"
  const NameLabel: string := "<b>Container Name</b> :"
  const LineBreak: string := "<br>"

  function Headers(s: StreamEvents): (r: seq<string>)
    ensures |r| == 3
  {
    [StreamLabel + s.streamName + LineBreak,
     ImageLabel + s.firstContainerInfo.containerImage + LineBreak,
     NameLabel + s.firstContainerInfo.containerName + LineBreak]
  }

  const SectionEnd: string := "<br>\n"

  /** The lines outputSingleStream pushes for one bucket. */
  function StreamSection(fmt: int -> string, s: StreamEvents): seq<string> {
    Headers(s) + EventLines(fmt, SortByTimestamp(s.events)) + [SectionEnd]
  }

  lemma IndexPastPrefix<T>(a: seq<T>, b: seq<T>, c: seq<T>, i: nat)
    requires i < |b|
    ensures (a + b + c)[|a| + i] == b[i]
  {
  }

  /** A section is three header lines, one line per event in timestamp order, then the
      closing line. */
  lemma StreamSectionShape(fmt: int -> string, s: StreamEvents)
    ensures |StreamSection(fmt, s)| == |s.events| + 4
    ensures StreamSection(fmt, s)[0] == StreamLabel + s.streamName + LineBreak
    ensures StreamSection(fmt, s)[1] == ImageLabel + s.firstContainerInfo.containerImage + LineBreak
    ensures StreamSection(fmt, s)[2] == NameLabel + s.firstContainerInfo.containerName + LineBreak
    ensures StreamSection(fmt, s)[|s.events| + 3] == SectionEnd
  {
  }

  /** Between the headers and the closing line come the event lines, in the order of
      SortByTimestamp (non-decreasing timestamps, a permutation of the bucket). */
  lemma StreamSectionEvents(fmt: int -> string, s: StreamEvents, i: nat)
    requires i < |s.events|
    ensures StreamSection(fmt, s)[i + 3] == EventLine(fmt, SortByTimestamp(s.events)[i])
  {
    var sorted := SortByTimestamp(s.events);
    IndexPastPrefix(Headers(s), EventLines(fmt, sorted), [SectionEnd], i);
    EventLinesAt(fmt, sorted, i);
  }

  /** The loop of outputSingleStream: one formatted line per event, in the given order. */
  method FormatEvents(fmt: int -> string, evs: seq<LogEvent>) returns (lines: seq<string>)
    ensures lines == EventLines(fmt, evs)
  {
    lines := [];
    var i := 0;
    while i < |evs|
      invariant 0 <= i <= |evs|
      invariant lines == EventLines(fmt, evs[..i])
    {
      EventLinesStep(fmt, evs, i);
      lines := lines + [EventLine(fmt, evs[i])];
      i := i + 1;
    }
    assert evs[..i] == evs;
  }

  /** outputSingleStream: the lines, and the number of event lines it returns. */
  method OutputSingleStream(fmt: int -> string, s: StreamEvents) returns (lines: seq<string>, n: nat)
    ensures lines == StreamSection(fmt, s)
    ensures n == |s.events|
  {
    var sorted := SortByTimestamp(s.events);
    var eventLines := FormatEvents(fmt, sorted);
    lines := Headers(s) + eventLines + [SectionEnd];
    n := |sorted|;
  }

  /** A bucket is written iff it is not poisoned and has events. */
  predicate Emitted(s: StreamEvents) {
    !s.hasIgnoredContainer && |s.events| != 0
  }

  predicate AllIn(groups: StreamGroups, ks: seq<string>) {
    forall i :: 0 <= i < |ks| ==> ks[i] in groups
  }

  /** The keys among ks whose bucket is written, in order. */
  function EmittedKeys(groups: StreamGroups, ks: seq<string>): seq<string>
    requires AllIn(groups, ks)
  {
    if ks == [] then []
    else
      var k := ks[|ks| - 1];
      EmittedKeys(groups, ks[..|ks| - 1]) + (if Emitted(groups[k]) then [k] else [])
  }

  /** The report lines for the buckets of ks, in the order of ks. */
  function Sections(fmt: int -> string, groups: StreamGroups, ks: seq<string>): seq<string>
    requires AllIn(groups, ks)
  {
    if ks == [] then []
    else
      var k := ks[|ks| - 1];
      Sections(fmt, groups, ks[..|ks| - 1]) + (if Emitted(groups[k]) then StreamSection(fmt, groups[k]) else [])
  }

  /** The number of events over the written buckets of ks. */
  function EmittedEventCount(groups: StreamGroups, ks: seq<string>): nat
    requires AllIn(groups, ks)
  {
    if ks == [] then 0
    else
      var k := ks[|ks| - 1];
      EmittedEventCount(groups, ks[..|ks| - 1]) + (if Emitted(groups[k]) then |groups[k].events| else 0)
  }

  lemma SectionsSnoc(fmt: int -> string, groups: StreamGroups, ks: seq<string>, k: string)
    requires AllIn(groups, ks) && k in groups
    ensures AllIn(groups, ks + [k])
    ensures Sections(fmt, groups, ks + [k]) ==
              Sections(fmt, groups, ks) + (if Emitted(groups[k]) then StreamSection(fmt, groups[k]) else [])
    ensures EmittedEventCount(groups, ks + [k]) ==
              EmittedEventCount(groups, ks) + (if Emitted(groups[k]) then |groups[k].events| else 0)
  {
    assert (ks + [k])[..|ks|] == ks;
  }

  /** The whole report for a set of buckets. */
  ghost function ReportLines(fmt: int -> string, groups: StreamGroups): seq<string> {
    Sections(fmt, groups, SortedKeys(groups.Keys))
  }

  ghost function ReportEventCount(groups: StreamGroups): nat {
    EmittedEventCount(groups, SortedKeys(groups.Keys))
  }

  /** outputStreamEvents: the lines of every written bucket in ascending key order, and
      the number of event lines. */
  method OutputStreamEvents(fmt: int -> string, groups: StreamGroups) returns (lines: seq<string>, count: nat)
    ensures lines == ReportLines(fmt, groups)
    ensures count == ReportEventCount(groups)
  {
    var keys := GetSortedStreamKeys(groups);
    assert AllIn(groups, keys) by {
      forall i | 0 <= i < |keys| ensures keys[i] in groups { assert keys[i] in keys; }
    }
    lines, count := OutputInKeyOrder(fmt, groups, keys);
  }

  /** The loop of outputStreamEvents over the sorted keys: a poisoned or empty bucket is
      skipped, any other one is written whole. */
  method OutputInKeyOrder(fmt: int -> string, groups: StreamGroups, keys: seq<string>) returns (lines: seq<string>, count: nat)
    requires AllIn(groups, keys)
    ensures lines == Sections(fmt, groups, keys)
    ensures count == EmittedEventCount(groups, keys)
  {
    lines := [];
    count := 0;
    for i := 0 to |keys|
      invariant lines == Sections(fmt, groups, keys[..i])
      invariant count == EmittedEventCount(groups, keys[..i])
    {
      assert keys[..i + 1] == keys[..i] + [keys[i]];
      SectionsSnoc(fmt, groups, keys[..i], keys[i]);
      var stream := groups[keys[i]];
      if !(stream.hasIgnoredContainer || |stream.events| == 0) {
        var section, n := OutputSingleStream(fmt, stream);
        lines := lines + section;
        count := count + n;
      }
    }
    assert keys[..|keys|] == keys;
  }

  /** Exactly the written buckets appear, in ascending key order. */
  lemma {:induction false} EmittedKeysCharacterization(groups: StreamGroups, ks: seq<string>)
    requires AllIn(groups, ks) && StrictlySorted(ks)
    ensures StrictlySorted(EmittedKeys(groups, ks))
    ensures forall k :: k in EmittedKeys(groups, ks) <==> k in ks && Emitted(groups[k])
  {
    if ks != [] {
      var n := |ks| - 1;
      var p := ks[..n];
      assert StrictlySorted(p);
      EmittedKeysCharacterization(groups, p);
      var e := EmittedKeys(groups, p);
      assert forall x :: x in ks <==> x in p || x == ks[n] by {
        assert ks == p + [ks[n]];
      }
      forall i | 0 <= i < |e|
        ensures StrLess(e[i], ks[n])
      {
        assert e[i] in e;
        var j :| 0 <= j < n && p[j] == e[i];
      }
    }
  }

  /** The report has four lines per written bucket plus one per event of those buckets. */
  lemma {:induction false} SectionsLength(fmt: int -> string, groups: StreamGroups, ks: seq<string>)
    requires AllIn(groups, ks)
    ensures |Sections(fmt, groups, ks)| == 4 * |EmittedKeys(groups, ks)| + EmittedEventCount(groups, ks)
  {
    if ks != [] {
      SectionsLength(fmt, groups, ks[..|ks| - 1]);
      StreamSectionShape(fmt, groups[ks[|ks| - 1]]);
    }
  }

  /** The report for the written buckets only is the same report: poisoned and empty
      buckets contribute nothing. */
  lemma {:induction false} SectionsOnlyEmitted(fmt: int -> string, groups: StreamGroups, ks: seq<string>)
    requires AllIn(groups, ks)
    ensures AllIn(groups, EmittedKeys(groups, ks))
    ensures Sections(fmt, groups, ks) == Sections(fmt, groups, EmittedKeys(groups, ks))
  {
    if ks != [] {
      var n := |ks| - 1;
      SectionsOnlyEmitted(fmt, groups, ks[..n]);
      var e := EmittedKeys(groups, ks[..n]);
      var k := ks[n];
      assert ks[..n] + [k] == ks;
      if Emitted(groups[k]) {
        var e' := e + [k];
        assert EmittedKeys(groups, ks) == e';
        assert e'[..|e'| - 1] == e && e'[|e'| - 1] == k;
        assert Sections(fmt, groups, e') == Sections(fmt, groups, e) + StreamSection(fmt, groups[k]);
      } else {
        assert EmittedKeys(groups, ks) == e;
      }
    }
  }
}
