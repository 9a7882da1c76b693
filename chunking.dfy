/** The report writer of internal/app/logcheck.go (collectLinesOfReportAndSendReport)
    as a state machine over the lines it receives: the temporary report file is the
    list of lines written to it since the last flush. */
module Chunking {

  /** The text of a list of lines written one after the other. */
  function Concat(lines: seq<string>): string {
    if lines == [] then "" else Concat(lines[..|lines| - 1]) + lines[|lines| - 1]
  }

  lemma Concat1(x: string)
    ensures Concat([x]) == x
  {
    assert [x][..0] == [];
  }

  lemma ConcatSnoc(lines: seq<string>, x: string)
    ensures Concat(lines + [x]) == Concat(lines) + x
  {
    assert (lines + [x])[..|lines|] == lines;
  }

  lemma {:induction false} ConcatAppend(a: seq<string>, b: seq<string>)
    ensures Concat(a + b) == Concat(a) + Concat(b)
    decreases |b|
  {
    if b == [] {
      assert a + b == a;
    } else {
      var n := |b| - 1;
      assert a + b == (a + b[..n]) + [b[n]];
      assert b == b[..n] + [b[n]];
      ConcatSnoc(a + b[..n], b[n]);
      ConcatSnoc(b[..n], b[n]);
      ConcatAppend(a, b[..n]);
    }
  }

  /** Bytes written for a list of lines (one byte per character here). */
  function Size(lines: seq<string>): nat {
    |Concat(lines)|
  }

  /** The loop's variables after some lines: the chunks already sent, the lines of the
      current report file, `sizeFile` and `emptyReport`. */
  datatype WriterState = WriterState(flushed: seq<seq<string>>, open: seq<string>, sizeFile: int, emptyReport: bool)

  const Initial: WriterState := WriterState([], [], 0, true)

  /** One received line: write it, count it, and flush when the size strictly exceeds
      the limit. */
  function Receive(maxReportSize: int, st: WriterState, line: string): WriterState {
    var open := st.open + [line];
    var size := st.sizeFile + |line|;
    if size > maxReportSize then WriterState(st.flushed + [open], [], 0, true)
    else WriterState(st.flushed, open, size, false)
  }

  function Run(maxReportSize: int, lines: seq<string>): WriterState {
    if lines == [] then Initial
    else Receive(maxReportSize, Run(maxReportSize, lines[..|lines| - 1]), lines[|lines| - 1])
  }

  function Flatten(chunks: seq<seq<string>>): seq<string> {
    if chunks == [] then [] else Flatten(chunks[..|chunks| - 1]) + chunks[|chunks| - 1]
  }

  /** The bodies of the flushed chunks, in order. */
  function Bodies(chunks: seq<seq<string>>): seq<string> {
    if chunks == [] then [] else Bodies(chunks[..|chunks| - 1]) + [Concat(chunks[|chunks| - 1])]
  }

  /** Every report the writer sends, in order: the flushed ones, then the remainder
      when a line arrived after the last flush. */
  function ReportBodies(maxReportSize: int, lines: seq<string>): seq<string> {
    var st := Run(maxReportSize, lines);
    Bodies(st.flushed) + (if !st.emptyReport then [Concat(st.open)] else [])
  }

  /** What holds between two received lines. */
  predicate WriterInvariant(maxReportSize: int, st: WriterState) {
    st.sizeFile == Size(st.open) &&
    (st.emptyReport <==> st.open == []) &&
    (st.open != [] ==> Size(st.open) <= maxReportSize) &&
    forall i :: 0 <= i < |st.flushed| ==>
      var c := st.flushed[i];
      c != [] && Size(c) > maxReportSize && (|c| == 1 || Size(c[..|c| - 1]) <= maxReportSize)
  }

  lemma ReceiveKeepsInvariant(maxReportSize: int, st: WriterState, line: string)
    requires WriterInvariant(maxReportSize, st)
    ensures WriterInvariant(maxReportSize, Receive(maxReportSize, st, line))
    ensures Flatten(Receive(maxReportSize, st, line).flushed) + Receive(maxReportSize, st, line).open ==
              Flatten(st.flushed) + st.open + [line]
  {
    var open := st.open + [line];
    ConcatSnoc(st.open, line);
    assert open[..|open| - 1] == st.open;
    var f := st.flushed + [open];
    assert f[..|f| - 1] == st.flushed;
    assert Flatten(f) == Flatten(st.flushed) + open;
    if st.open == [] {
      assert |open| == 1;
    }
  }

  /** The writer's variables always satisfy the invariant, and the chunks sent followed
      by the current file are exactly the lines received. */
  lemma {:induction false} RunInvariant(maxReportSize: int, lines: seq<string>)
    ensures WriterInvariant(maxReportSize, Run(maxReportSize, lines))
    ensures Flatten(Run(maxReportSize, lines).flushed) + Run(maxReportSize, lines).open == lines
  {
    if lines != [] {
      var n := |lines| - 1;
      var prev := Run(maxReportSize, lines[..n]);
      var st := Run(maxReportSize, lines);
      assert st == Receive(maxReportSize, prev, lines[n]);
      RunInvariant(maxReportSize, lines[..n]);
      ReceiveKeepsInvariant(maxReportSize, prev, lines[n]);
      assert Flatten(st.flushed) + st.open == lines[..n] + [lines[n]];
      assert lines[..n] + [lines[n]] == lines;
    }
  }

  lemma {:induction false} BodiesConcat(chunks: seq<seq<string>>)
    ensures Concat(Bodies(chunks)) == Concat(Flatten(chunks))
  {
    if chunks != [] {
      var n := |chunks| - 1;
      BodiesConcat(chunks[..n]);
      ConcatSnoc(Bodies(chunks[..n]), Concat(chunks[n]));
      ConcatAppend(Flatten(chunks[..n]), chunks[n]);
    }
  }

  /** Nothing is lost or reordered: the reports sent, put end to end, are the received
      lines put end to end. */
  lemma ReportBodiesConcat(maxReportSize: int, lines: seq<string>)
    ensures Concat(ReportBodies(maxReportSize, lines)) == Concat(lines)
  {
    var st := Run(maxReportSize, lines);
    RunInvariant(maxReportSize, lines);
    BodiesConcat(st.flushed);
    ConcatAppend(Flatten(st.flushed), st.open);
    if !st.emptyReport {
      ConcatSnoc(Bodies(st.flushed), Concat(st.open));
    } else {
      assert Bodies(st.flushed) + [] == Bodies(st.flushed);
    }
  }

  /** The last report is sent iff at least one line arrived after the last flush; it
      then holds exactly those lines and stays within the limit. */
  lemma LastReport(maxReportSize: int, lines: seq<string>)
    ensures var st := Run(maxReportSize, lines);
            !st.emptyReport <==> exists k :: 0 <= k < |lines| && lines[k..] == st.open && st.open != []
    ensures var st := Run(maxReportSize, lines);
            !st.emptyReport ==> Size(st.open) <= maxReportSize
  {
    var st := Run(maxReportSize, lines);
    RunInvariant(maxReportSize, lines);
    if st.open != [] {
      var k := |Flatten(st.flushed)|;
      assert lines[k..] == st.open;
    }
  }

  /** No line is dropped: a received empty line still starts a report, and nothing is
      sent for no input. */
  lemma NoInputNoReport(maxReportSize: int)
    ensures ReportBodies(maxReportSize, []) == []
  {
  }

  /** With a non-negative limit, a flushed report holds as few lines as possible: before
      its last line it was within the limit. Every line longer than the limit is sent on
      its own or closes the report it ends. */
  lemma FlushedReports(maxReportSize: int, lines: seq<string>, i: nat)
    requires i < |Run(maxReportSize, lines).flushed|
    ensures var c := Run(maxReportSize, lines).flushed[i];
            c != [] && Size(c) > maxReportSize &&
            (maxReportSize >= 0 ==> Size(c[..|c| - 1]) <= maxReportSize)
  {
    RunInvariant(maxReportSize, lines);
    var c := Run(maxReportSize, lines).flushed[i];
    if |c| == 1 {
      assert c[..0] == [];
    }
  }
}
