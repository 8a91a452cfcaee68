/**
 From network chunks to react's tool calls: the line buffer, the decoder and
 the demultiplexer put together.
 */
module StreamPipeline {
  import opened Prelude
  import opened ReactModel
  import opened ToolStream
  import opened ToolDemux
  import opened SseStream

  function Parse(decode: string -> Option<ToolStream.Chunk>): (Progress, string) -> Flow<Progress, LiveVerdict> {
    (p: Progress, line: string) => LiveLine(decode, p, line)
  }

  /** A wire payload: one line, no blanks at its ends, not the end marker. */
  predicate Payload(s: string) {
    s != "" && NoNewline(s) && !IsSpace(s[0]) && !IsSpace(s[|s| - 1]) && s != "[DONE]"
  }

  /** A line in front of more text. */
  function Line(line: string, rest: string): string { line + "\n" + rest }

  /** Lines on the wire, each followed by an empty one, closed by `marker`. */
  function WireOf(lines: seq<string>, marker: string): string {
    if lines == [] then Line(marker, Line([], [])) else Line(lines[0], Line([], WireOf(lines[1..], marker)))
  }

  function DataLines(payloads: seq<string>): seq<string> {
    seq(|payloads|, i requires 0 <= i < |payloads| => "data: " + payloads[i])
  }

  /** A stream on the wire, closed by the line `marker`. */
  function Wire(payloads: seq<string>, marker: string): string { WireOf(DataLines(payloads), marker) }

  const DONE_LINE := "data: [DONE]"

  lemma {:induction false} FirstLine(line: string, rest: string)
    requires NoNewline(line)
    ensures CompleteLines(Line(line, rest)) == [line] + CompleteLines(rest)
    ensures Residue(Line(line, rest)) == Residue(rest)
  {
    var text := Line(line, rest);
    assert text[|line|] == '\n' && forall i :: 0 <= i < |line| ==> text[i] == line[i];
    assert FirstNewline(text) == |line|;
    assert text[..|line|] == line && text[|line| + 1..] == rest;
  }

  /** `data: <payload>` yields the payload back. */
  lemma {:induction false} DataLine(decode: string -> Option<ToolStream.Chunk>, p: Progress, s: string)
    requires s != "" && !IsSpace(s[0]) && !IsSpace(s[|s| - 1])
    ensures LiveLine(decode, p, "data: " + s) ==
      if s == "[DONE]" then Stop(Ended(p), Completed)
      else match decode(s) case None => Stop(p, InvalidJson) case Some(c) => Go(OnChunk(p, c))
  {
    var line := "data: " + s;
    assert line[|line| - 1] == s[|s| - 1];
    assert TrimEndCr(line) == line;
    assert line[..5] == DATA_PREFIX && line[5..] == " " + s;
    assert (" " + s)[1..] == s;
    assert TrimStart(" " + s) == TrimStart(s) == s;
    assert TrimEnd(s) == s;
  }

  lemma {:induction false} TwoLines(line: string, rest: string)
    requires NoNewline(line)
    ensures CompleteLines(Line(line, Line("", rest))) == [line, ""] + CompleteLines(rest)
  {
    FirstLine(line, Line("", rest));
    FirstLine("", rest);
  }

  lemma {:induction false} SpacedCons(line: string, lines: seq<string>, tail: seq<string>)
    ensures Spaced([line] + lines) + tail == [line, ""] + (Spaced(lines) + tail)
  {
    assert ([line] + lines)[1..] == lines;
  }

  lemma {:induction false} WireOfLines(lines: seq<string>, marker: string)
    requires NoNewline(marker) && forall i :: 0 <= i < |lines| ==> NoNewline(lines[i])
    ensures CompleteLines(WireOf(lines, marker)) == Spaced(lines) + [marker, []]
    decreases |lines|
  {
    if lines == [] {
      TwoLines(marker, []);
    } else {
      TwoLines(lines[0], WireOf(lines[1..], marker));
      WireOfLines(lines[1..], marker);
      assert lines == [lines[0]] + lines[1..];
      SpacedCons(lines[0], lines[1..], [marker, []]);
    }
  }

  lemma {:induction false} WireLines(payloads: seq<string>, marker: string)
    requires NoNewline(marker) && forall i :: 0 <= i < |payloads| ==> NoNewline(payloads[i])
    ensures CompleteLines(Wire(payloads, marker)) == Spaced(DataLines(payloads)) + [marker, []]
  {
    WireOfLines(DataLines(payloads), marker);
  }

  lemma {:induction false} OnChunksNext(p: Progress, cs: seq<ToolStream.Chunk>, i: nat)
    requires i < |cs|
    ensures OnChunks(p, cs[..i + 1]) == OnChunk(OnChunks(p, cs[..i]), cs[i])
  {
    assert cs[..i + 1][..i] == cs[..i];
  }

  lemma {:induction false} WireRuns(decode: string -> Option<ToolStream.Chunk>, p: Progress, payloads: seq<string>, cs: seq<ToolStream.Chunk>)
    requires |cs| == |payloads|
    requires forall i :: 0 <= i < |payloads| ==> Payload(payloads[i]) && decode(payloads[i]) == Some(cs[i])
    ensures Feed(Parse(decode), p, CompleteLines(Wire(payloads, DONE_LINE))) == Stop(Ended(OnChunks(p, cs)), Completed)
  {
    var h := Parse(decode);
    var states := seq(|cs| + 1, i requires 0 <= i <= |cs| => OnChunks(p, cs[..i]));
    var lines := DataLines(payloads);
    forall i | 0 <= i < |lines| ensures h(states[i], lines[i]) == Go(states[i + 1]) {
      DataLine(decode, states[i], payloads[i]);
      OnChunksNext(p, cs, i);
    }
    forall i | 0 <= i < |states| ensures h(states[i], "") == Go(states[i]) { BlankLine(decode, states[i]); }
    WireLines(payloads, DONE_LINE);
    FeedSpaced(h, states, lines, [DONE_LINE, ""]);
    assert cs[..|cs|] == cs && cs[..0] == [];
    FeedEnd(decode, states[|lines|]);
  }

  lemma {:induction false} BlankLine(decode: string -> Option<ToolStream.Chunk>, p: Progress)
    ensures Parse(decode)(p, "") == Go(p)
  {
  }

  lemma {:induction false} FeedEnd(decode: string -> Option<ToolStream.Chunk>, p: Progress)
    ensures Feed(Parse(decode), p, [DONE_LINE, ""]) == Stop(Ended(p), Completed)
  {
    DataLine(decode, p, "[DONE]");
    assert "data: " + "[DONE]" == "data: [DONE]";
  }

  lemma {:induction false} PipelineRuns(decode: string -> Option<ToolStream.Chunk>, payloads: seq<string>, cs: seq<ToolStream.Chunk>, pieces: seq<string>)
    requires |cs| == |payloads|
    requires forall i :: 0 <= i < |payloads| ==> Payload(payloads[i]) && decode(payloads[i]) == Some(cs[i])
    requires Flatten(pieces) == Wire(payloads, DONE_LINE) && Fits("", pieces)
    ensures Chunked(Parse(decode), Start, "", pieces) == Outcome(Ended(OnChunks(Start, cs)), Handler(Completed))
  {
    ChunkedIsWhole(Parse(decode), Start, [], pieces);
    assert [] + Flatten(pieces) == Flatten(pieces);
    WireRuns(decode, Start, payloads, cs);
  }

  lemma {:induction false} EndIsQuiet(p: Progress)
    ensures Pending(Ended(p).events) == Pending(p.events)
  {
    PendingSnoc(p.events, StreamEvent.Done);
  }

  /** End to end: however the network cuts a complete stream (as long as the
      pieces fit the line buffer), the parser ends with success, has published
      exactly the events of the decoded chunks in order and then the end of the
      stream, and, when the chunks carry well-formed parallel tool calls each
      named once, react holds exactly those calls, complete, each with its own
      arguments. */
  lemma {:induction false} PipelineDelivers(decode: string -> Option<ToolStream.Chunk>, payloads: seq<string>, cs: seq<ToolStream.Chunk>, pieces: seq<string>, k: nat)
    requires |cs| == |payloads|
    requires forall i :: 0 <= i < |payloads| ==> Payload(payloads[i]) && decode(payloads[i]) == Some(cs[i])
    requires Flatten(pieces) == Wire(payloads, DONE_LINE) && Fits("", pieces)
    ensures Chunked(Parse(decode), Start, "", pieces) == Outcome(Ended(OnChunks(Start, cs)), Handler(Completed))
    ensures FinishesAt(cs, k) && WellFormed(FragmentsOf(cs)) ==>
      (Pending(Ended(OnChunks(Start, cs)).events) == Calls(FragmentsOf(cs), true) <==> NamedOnce(FragmentsOf(cs)))
  {
    PipelineRuns(decode, payloads, cs, pieces);
    if FinishesAt(cs, k) && WellFormed(FragmentsOf(cs)) {
      EndIsQuiet(OnChunks(Start, cs));
      DemultiplexedIff(cs, k);
    }
  }
}
