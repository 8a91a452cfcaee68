/**
 The streaming parsers' line buffer: text chunks are appended to a buffer,
 complete lines are taken out and handed to a line handler, and the rest waits
 for the next chunk. Text is the sequence of its UTF-8 code units.
 */
module SseStream {
  import opened Prelude
  import opened ReactModel
  import opened ToolStream

  const MAX_LINE_BUFFER_SIZE: nat := 1024 * 1024

  /** What handling one line leads to. */
  datatype Flow<S, V> = Go(state: S) | Stop(state: S, verdict: V)

  datatype Verdict<V> = Handler(verdict: V) | TooLong | EndOfStream(residue: string)

  datatype Outcome<S, V> = Outcome(state: S, verdict: Verdict<V>)

  // ---- Lines of a text ----

  function FirstNewline(text: string): (p: nat)
    ensures p <= |text| && (forall i :: 0 <= i < p ==> text[i] != '\n') && (p < |text| ==> text[p] == '\n')
  {
    if text == [] || text[0] == '\n' then 0 else 1 + FirstNewline(text[1..])
  }

  predicate HasNewline(text: string) { FirstNewline(text) < |text| }

  /** The newline-terminated lines, without their newlines. */
  function CompleteLines(text: string): seq<string>
    decreases |text|
  {
    if HasNewline(text) then [text[..FirstNewline(text)]] + CompleteLines(text[FirstNewline(text) + 1..]) else []
  }

  /** What follows the last newline. */
  function Residue(text: string): string
    decreases |text|
  {
    if HasNewline(text) then Residue(text[FirstNewline(text) + 1..]) else text
  }

  function Unlines(lines: seq<string>): string {
    if lines == [] then "" else lines[0] + "\n" + Unlines(lines[1..])
  }

  predicate NoNewline(line: string) { forall i :: 0 <= i < |line| ==> line[i] != '\n' }

  lemma {:induction false} SplitAtNewline(text: string)
    requires HasNewline(text)
    ensures text == text[..FirstNewline(text)] + "\n" + text[FirstNewline(text) + 1..]
  {
  }

  lemma {:induction false} UnlinesCons(line: string, lines: seq<string>, residue: string)
    ensures Unlines([line] + lines) + residue == line + "\n" + (Unlines(lines) + residue)
  {
    assert ([line] + lines)[1..] == lines;
  }

  /** The lines and the residue are the text. */
  lemma {:induction false} LinesAreTheText(text: string)
    ensures Unlines(CompleteLines(text)) + Residue(text) == text
    decreases |text|
  {
    if HasNewline(text) {
      var p := FirstNewline(text);
      LinesAreTheText(text[p + 1..]);
      UnlinesCons(text[..p], CompleteLines(text[p + 1..]), Residue(text[p + 1..]));
      SplitAtNewline(text);
    }
  }

  /** Neither a line nor the residue holds a newline. */
  lemma {:induction false} LinesHoldNoNewline(text: string)
    ensures NoNewline(Residue(text))
    ensures forall k :: 0 <= k < |CompleteLines(text)| ==> NoNewline(CompleteLines(text)[k])
    decreases |text|
  {
    if HasNewline(text) {
      LinesHoldNoNewline(text[FirstNewline(text) + 1..]);
    }
  }

  lemma {:induction false} FirstNewlineOfConcat(a: string, b: string)
    requires HasNewline(a)
    ensures FirstNewline(a + b) == FirstNewline(a) && HasNewline(a + b)
  {
    var p := FirstNewline(a);
    assert (a + b)[p] == '\n' && forall i :: 0 <= i < p ==> (a + b)[i] == a[i];
  }

  /** Cutting a text anywhere: the first part's lines, then the lines of its
      residue joined to the second part. */
  lemma {:induction false} LinesOfConcat(a: string, b: string)
    ensures CompleteLines(a + b) == CompleteLines(a) + CompleteLines(Residue(a) + b)
    ensures Residue(a + b) == Residue(Residue(a) + b)
    decreases |a|
  {
    if HasNewline(a) {
      var p := FirstNewline(a);
      FirstNewlineOfConcat(a, b);
      assert (a + b)[p + 1..] == a[p + 1..] + b;
      assert (a + b)[..p] == a[..p];
      LinesOfConcat(a[p + 1..], b);
    }
  }

  // ---- Feeding a handler ----

  function Feed<S, V>(h: (S, string) -> Flow<S, V>, s: S, lines: seq<string>): Flow<S, V> {
    if lines == [] then Go(s)
    else
      match h(s, lines[0])
      case Stop(s1, v) => Stop(s1, v)
      case Go(s1) => Feed(h, s1, lines[1..])
  }

  lemma {:induction false} FeedAppend<S, V>(h: (S, string) -> Flow<S, V>, s: S, a: seq<string>, b: seq<string>)
    ensures Feed(h, s, a + b) == match Feed(h, s, a) case Stop(s1, v) => Stop(s1, v) case Go(s1) => Feed(h, s1, b)
    decreases |a|
  {
    if a == [] { assert a + b == b; }
    else {
      assert (a + b)[0] == a[0] && (a + b)[1..] == a[1..] + b;
      if h(s, a[0]).Go? { FeedAppend(h, h(s, a[0]).state, a[1..], b); }
    }
  }

  /** Data lines, each followed by a blank one. */
  function Spaced(lines: seq<string>): seq<string> {
    if lines == [] then [] else [lines[0], ""] + Spaced(lines[1..])
  }

  /** A handler that goes through the given states on the given lines and passes
      over blank lines. */
  lemma {:induction false} FeedSpaced<S, V>(h: (S, string) -> Flow<S, V>, states: seq<S>, lines: seq<string>, tail: seq<string>)
    requires |states| == |lines| + 1
    requires forall i :: 0 <= i < |lines| ==> h(states[i], lines[i]) == Go(states[i + 1])
    requires forall i :: 0 <= i < |states| ==> h(states[i], "") == Go(states[i])
    ensures Feed(h, states[0], Spaced(lines) + tail) == Feed(h, states[|lines|], tail)
    decreases |lines|
  {
    if lines == [] {
      assert Spaced(lines) + tail == tail;
    } else {
      var rest := Spaced(lines[1..]) + tail;
      assert Spaced(lines) + tail == [lines[0]] + ([""] + rest);
      assert ([lines[0]] + ([""] + rest))[1..] == [""] + rest && ([""] + rest)[1..] == rest;
      assert h(states[0], lines[0]) == Go(states[1]) && h(states[1], "") == Go(states[1]);
      FeedSpaced(h, states[1..], lines[1..], tail);
    }
  }

  /** The reference meaning: hand over the lines of the whole text. */
  function Whole<S, V>(h: (S, string) -> Flow<S, V>, s: S, text: string): Outcome<S, V> {
    match Feed(h, s, CompleteLines(text))
    case Stop(s1, v) => Outcome(s1, Handler(v))
    case Go(s1) => Outcome(s1, EndOfStream(Residue(text)))
  }

  /** What the buffered parser does, chunk by chunk. */
  function Chunked<S, V>(h: (S, string) -> Flow<S, V>, s: S, buffer: string, chunks: seq<string>): Outcome<S, V>
    decreases |chunks|
  {
    if chunks == [] then Outcome(s, EndOfStream(buffer))
    else
      var text := buffer + chunks[0];
      if |text| > MAX_LINE_BUFFER_SIZE then Outcome(s, TooLong)
      else
        match Feed(h, s, CompleteLines(text))
        case Stop(s1, v) => Outcome(s1, Handler(v))
        case Go(s1) => Chunked(h, s1, Residue(text), chunks[1..])
  }

  /** The parser itself: one buffer, two nested loops. */
  method ParseStream<S, V>(h: (S, string) -> Flow<S, V>, s0: S, chunks: seq<string>) returns (o: Outcome<S, V>)
    ensures o == Chunked(h, s0, "", chunks)
  {
    var s := s0;
    var buffer := "";
    var i := 0;
    while i < |chunks|
      invariant 0 <= i <= |chunks|
      invariant Chunked(h, s, buffer, chunks[i..]) == Chunked(h, s0, "", chunks)
    {
      assert chunks[i..][0] == chunks[i] && chunks[i..][1..] == chunks[i + 1..];
      buffer := buffer + chunks[i];
      if |buffer| > MAX_LINE_BUFFER_SIZE { return Outcome(s, TooLong); }
      ghost var text := buffer;
      ghost var s1 := s;
      while HasNewline(buffer)
        invariant Feed(h, s, CompleteLines(buffer)) == Feed(h, s1, CompleteLines(text))
        invariant Residue(buffer) == Residue(text)
        decreases |buffer|
      {
        var pos := FirstNewline(buffer);
        var line := buffer[..pos];
        ghost var rest := CompleteLines(buffer[pos + 1..]);
        assert CompleteLines(buffer) == [line] + rest && ([line] + rest)[1..] == rest;
        buffer := buffer[pos + 1..];
        match h(s, line) {
          case Stop(next, v) => return Outcome(next, Handler(v));
          case Go(next) => s := next;
        }
      }
      i := i + 1;
    }
    o := Outcome(s, EndOfStream(buffer));
  }

  // ---- Independence of chunking ----

  /** At no chunk that is read does the waiting text plus the chunk exceed the limit. */
  predicate Fits(buffer: string, chunks: seq<string>)
    decreases |chunks|
  {
    chunks == [] || (|buffer + chunks[0]| <= MAX_LINE_BUFFER_SIZE && Fits(Residue(buffer + chunks[0]), chunks[1..]))
  }

  lemma {:induction false} ChunkedIsWhole<S, V>(h: (S, string) -> Flow<S, V>, s: S, buffer: string, chunks: seq<string>)
    requires Fits(buffer, chunks) && !HasNewline(buffer)
    ensures Chunked(h, s, buffer, chunks) == Whole(h, s, buffer + Flatten(chunks))
    decreases |chunks|
  {
    if chunks == [] {
      assert buffer + Flatten(chunks) == buffer;
    } else {
      var text := buffer + chunks[0];
      var rest := Flatten(chunks[1..]);
      assert buffer + Flatten(chunks) == text + rest;
      LinesOfConcat(text, rest);
      FeedAppend(h, s, CompleteLines(text), CompleteLines(Residue(text) + rest));
      if Feed(h, s, CompleteLines(text)).Go? {
        NoNewlineInResidue(text);
        ChunkedIsWhole(h, Feed(h, s, CompleteLines(text)).state, Residue(text), chunks[1..]);
      }
    }
  }

  lemma {:induction false} NoNewlineInResidue(text: string)
    ensures !HasNewline(Residue(text))
  {
    LinesHoldNoNewline(text);
  }

  /** Chunking does not matter: two ways of cutting the same text into chunks
      that fit the buffer give the same handler state (so the same emitted
      events) and the same verdict. */
  lemma {:induction false} ChunkingIrrelevant<S, V>(h: (S, string) -> Flow<S, V>, s: S, a: seq<string>, b: seq<string>)
    requires Flatten(a) == Flatten(b) && Fits("", a) && Fits("", b)
    ensures Chunked(h, s, "", a) == Chunked(h, s, "", b) == Whole(h, s, Flatten(a))
  {
    ChunkedIsWhole(h, s, "", a);
    ChunkedIsWhole(h, s, "", b);
    assert "" + Flatten(a) == Flatten(a);
  }

  /** The waiting text just before chunk `i`. */
  function Waiting(chunks: seq<string>, i: nat): string
    requires i <= |chunks|
  {
    Residue(Flatten(chunks[..i]))
  }

  function FeedText<S, V>(h: (S, string) -> Flow<S, V>, s: S, text: string): Flow<S, V> {
    Feed(h, s, CompleteLines(text))
  }

  /** Chunk `i` is read (nothing before it stopped the parser) and overflows. */
  predicate Overflows<S, V>(h: (S, string) -> Flow<S, V>, s: S, chunks: seq<string>, i: nat)
    requires i < |chunks|
  {
    && |Waiting(chunks, i) + chunks[i]| > MAX_LINE_BUFFER_SIZE
    && FeedText(h, s, Flatten(chunks[..i])).Go?
  }

  /** One more chunk: its lines are those of the waiting text plus the chunk. */
  lemma {:induction false} OneMoreChunk<S, V>(h: (S, string) -> Flow<S, V>, s: S, chunks: seq<string>, i: nat)
    requires i < |chunks|
    ensures Waiting(chunks, i + 1) == Residue(Waiting(chunks, i) + chunks[i])
    ensures FeedText(h, s, Flatten(chunks[..i + 1])) ==
              match FeedText(h, s, Flatten(chunks[..i]))
              case Stop(s1, v) => Stop(s1, v)
              case Go(s1) => Feed(h, s1, CompleteLines(Waiting(chunks, i) + chunks[i]))
  {
    var before := Flatten(chunks[..i]);
    assert chunks[..i + 1] == chunks[..i] + [chunks[i]];
    FlattenSnoc(chunks[..i], chunks[i]);
    LinesOfConcat(before, chunks[i]);
    FeedAppend(h, s, CompleteLines(before), CompleteLines(Waiting(chunks, i) + chunks[i]));
  }

  lemma {:induction false} StopsForGood<S, V>(h: (S, string) -> Flow<S, V>, s: S, chunks: seq<string>, i: nat, j: nat)
    requires i <= j <= |chunks| && FeedText(h, s, Flatten(chunks[..i])).Stop?
    ensures FeedText(h, s, Flatten(chunks[..j])).Stop?
    decreases j
  {
    if i < j {
      StopsForGood(h, s, chunks, i, j - 1);
      OneMoreChunk(h, s, chunks, j - 1);
    }
  }

  ghost predicate OverflowsFrom<S, V>(h: (S, string) -> Flow<S, V>, s: S, chunks: seq<string>, i: nat) {
    exists j :: i <= j < |chunks| && Overflows(h, s, chunks, j)
  }

  lemma {:induction false} TooLongFrom<S, V>(h: (S, string) -> Flow<S, V>, s: S, chunks: seq<string>, i: nat, s1: S)
    requires i <= |chunks| && FeedText(h, s, Flatten(chunks[..i])) == Go(s1)
    ensures Chunked(h, s1, Waiting(chunks, i), chunks[i..]).verdict.TooLong? <==> OverflowsFrom(h, s, chunks, i)
    decreases |chunks| - i
  {
    if i < |chunks| {
      var text := Waiting(chunks, i) + chunks[i];
      assert chunks[i..][0] == chunks[i] && chunks[i..][1..] == chunks[i + 1..];
      OneMoreChunk(h, s, chunks, i);
      if |text| > MAX_LINE_BUFFER_SIZE {
        assert Overflows(h, s, chunks, i);
      } else {
        match Feed(h, s1, CompleteLines(text))
        case Go(s2) =>
          TooLongFrom(h, s, chunks, i + 1, s2);
        case Stop(_, _) =>
          forall j | i < j < |chunks| ensures !Overflows(h, s, chunks, j) { StopsForGood(h, s, chunks, i + 1, j); }
      }
    }
  }

  /** The size error is exactly this: some chunk, reached before anything
      stopped the parser, does not fit behind the text waiting for a newline. */
  lemma {:induction false} TooLongIff<S, V>(h: (S, string) -> Flow<S, V>, s: S, chunks: seq<string>)
    ensures Chunked(h, s, "", chunks).verdict.TooLong? <==> OverflowsFrom(h, s, chunks, 0)
  {
    assert chunks[..0] == [] && chunks[0..] == chunks;
    TooLongFrom(h, s, chunks, 0, s);
  }

  // ---- The two line handlers ----

  /** `trim_end_matches('\\r')`. */
  function TrimEndCr(line: string): string {
    if line != "" && line[|line| - 1] == '\r' then TrimEndCr(line[..|line| - 1]) else line
  }

  const DATA_PREFIX := "data:"

  function DataPayload(line: string): Option<string> {
    if DATA_PREFIX <= line then
      var data := TrimStart(line[|DATA_PREFIX|..]);
      if IsBlank(data) then None else Some(data)
    else None
  }

  datatype LiveVerdict = Completed | InvalidJson

  /** The end marker publishes the end of the stream. */
  function Ended(p: Progress): Progress { p.(events := p.events + [StreamEvent.Done]) }

  /** The OpenAI-compatible parser; `decode` is the JSON decoder. */
  function LiveLine(decode: string -> Option<Chunk>, p: Progress, raw: string): Flow<Progress, LiveVerdict> {
    var line := TrimEndCr(raw);
    if line == "" then Go(p)
    else
      match DataPayload(line)
      case None => Go(p)
      case Some(payload) =>
        var data := TrimEnd(TrimStart(payload));
        if data == "[DONE]" then Stop(Ended(p), Completed)
        else
          match decode(data)
          case None => Stop(p, InvalidJson)
          case Some(c) => Go(OnChunk(p, c))
  }

  datatype Named = Named(current: Option<string>, events: seq<(string, string)>)

  const EVENT_FIELD := "event: "
  const DATA_FIELD := "data: "

  /** The native parser: named events, each data line dispatched under the
      event name in force. */
  function EventLine(n: Named, raw: string): Flow<Named, LiveVerdict> {
    var line := TrimEndCr(raw);
    if line == "" then Go(n.(current := None))
    else if EVENT_FIELD <= line then Go(n.(current := Some(line[|EVENT_FIELD|..])))
    else if DATA_FIELD <= line && n.current.Some? then
      Go(n.(events := n.events + [(n.current.value, line[|DATA_FIELD|..])]))
    else Go(n)
  }

  /** What a line leaves after its line end: carriage returns at the end go. */
  predicate EndsCleanly(line: string) { line == "" || line[|line| - 1] != '\r' }

  lemma {:induction false} CleanLine(line: string)
    requires EndsCleanly(line)
    ensures TrimEndCr(line) == line
  {
  }

  /** The native parser, line by line: a named event's data line adds exactly its
      pair, every time; without a name it adds nothing; a blank line ends the
      name, and no other line changes anything. */
  lemma {:induction false} EventLineIs(n: Named, name: string, data: string, other: string)
    requires EndsCleanly(EVENT_FIELD + name) && EndsCleanly(DATA_FIELD + data) && EndsCleanly(other)
    requires other != "" && !(EVENT_FIELD <= other) && !(DATA_FIELD <= other)
    ensures EventLine(n, EVENT_FIELD + name) == Go(Named(Some(name), n.events))
    ensures EventLine(n, DATA_FIELD + data) ==
      Go(if n.current.Some? then Named(n.current, n.events + [(n.current.value, data)]) else n)
    ensures EventLine(n, "") == Go(Named(None, n.events))
    ensures EventLine(n, other) == Go(n)
  {
    CleanLine(EVENT_FIELD + name);
    CleanLine(DATA_FIELD + data);
    CleanLine(other);
    var e, d := EVENT_FIELD + name, DATA_FIELD + data;
    assert e[|EVENT_FIELD|..] == name && d[|DATA_FIELD|..] == data;
    assert d[0] == 'd' && EVENT_FIELD[0] == 'e';
  }

  /** The lines of one event: its name, its data lines, a blank line. */
  function EventBlock(name: string, datas: seq<string>): seq<string> {
    [EVENT_FIELD + name] + DataBlock(datas)
  }

  function DataBlock(datas: seq<string>): seq<string> {
    if datas == [] then [""] else [DATA_FIELD + datas[0]] + DataBlock(datas[1..])
  }

  function Pairs(name: string, datas: seq<string>): seq<(string, string)> {
    seq(|datas|, i requires 0 <= i < |datas| => (name, datas[i]))
  }

  lemma {:induction false} DataBlockFeeds(n: Named, name: string, datas: seq<string>)
    requires n.current == Some(name) && forall i :: 0 <= i < |datas| ==> EndsCleanly(DATA_FIELD + datas[i])
    ensures Feed(EventLine, n, DataBlock(datas)) == Go(Named(None, n.events + Pairs(name, datas)))
    decreases |datas|
  {
    var lines := DataBlock(datas);
    if datas == [] {
      assert lines[1..] == [] && n.events + Pairs(name, datas) == n.events;
    } else {
      assert lines[0] == DATA_FIELD + datas[0] && lines[1..] == DataBlock(datas[1..]);
      EventLineIs(n, "", datas[0], "x");
      DataBlockFeeds(Named(n.current, n.events + [(name, datas[0])]), name, datas[1..]);
      assert n.events + [(name, datas[0])] + Pairs(name, datas[1..]) == n.events + Pairs(name, datas);
    }
  }

  /** A whole event on the wire is dispatched data line by data line under its
      own name, which ends with it. */
  lemma {:induction false} EventBlockFeeds(n: Named, name: string, datas: seq<string>)
    requires EndsCleanly(EVENT_FIELD + name) && forall i :: 0 <= i < |datas| ==> EndsCleanly(DATA_FIELD + datas[i])
    ensures Feed(EventLine, n, EventBlock(name, datas)) == Go(Named(None, n.events + Pairs(name, datas)))
  {
    var lines := EventBlock(name, datas);
    assert lines[0] == EVENT_FIELD + name && lines[1..] == DataBlock(datas);
    EventLineIs(n, name, "", "x");
    DataBlockFeeds(Named(Some(name), n.events), name, datas);
  }

  /** Blanks only. */
  predicate AllSpace(s: string) { forall i :: 0 <= i < |s| ==> IsSpace(s[i]) }

  lemma {:induction false} TrimBetween(a: string, s: string, b: string)
    requires AllSpace(a) && AllSpace(b) && s != "" && !IsSpace(s[0]) && !IsSpace(s[|s| - 1])
    ensures TrimStart(a + s + b) == s + b && TrimEnd(s + b) == s && TrimStart(s + b) == s + b
    decreases |a| + |b|
  {
    if a != "" {
      assert (a + s + b)[1..] == a[1..] + s + b;
      TrimBetween(a[1..], s, b);
    } else if b != "" {
      assert "" + s + b == s + b && (s + b)[..|s + b| - 1] == s + b[..|b| - 1];
      TrimBetween("", s, b[..|b| - 1]);
    } else {
      assert "" + s + "" == s && s + "" == s;
    }
  }

  /** A data line with nothing but blanks changes nothing. */
  lemma {:induction false} BlankData(decode: string -> Option<Chunk>, p: Progress, a: string)
    requires AllSpace(a) && EndsCleanly(a)
    ensures LiveLine(decode, p, DATA_PREFIX + a) == Go(p)
  {
    var line := DATA_PREFIX + a;
    assert line[|line| - 1] == (if a != "" then a[|a| - 1] else ':');
    CleanLine(line);
    assert line[|DATA_PREFIX|..] == a;
    TrimBlank(a);
  }

  lemma {:induction false} TrimBlank(a: string)
    requires AllSpace(a)
    ensures TrimStart(a) == ""
  {
    if a != "" { TrimBlank(a[1..]); }
  }

  /** The OpenAI-compatible parser on a data line, whatever blanks surround the
      payload: the end marker publishes the end, anything else is decoded. A line
      of another kind changes nothing. */
  lemma {:induction false} LiveLineIs(decode: string -> Option<Chunk>, p: Progress, a: string, s: string, b: string, other: string)
    requires AllSpace(a) && AllSpace(b) && EndsCleanly(b) && s != "" && !IsSpace(s[0]) && !IsSpace(s[|s| - 1])
    requires !(DATA_PREFIX <= other) && EndsCleanly(other)
    ensures LiveLine(decode, p, DATA_PREFIX + (a + s + b)) ==
      if s == "[DONE]" then Stop(p.(events := p.events + [StreamEvent.Done]), Completed)
      else match decode(s) case None => Stop(p, InvalidJson) case Some(c) => Go(OnChunk(p, c))
    ensures LiveLine(decode, p, other) == Go(p)
  {
    CleanLine(other);
    TrimBetween(a, s, b);
    var line := DATA_PREFIX + (a + s + b);
    assert line[|line| - 1] == (if b != "" then b[|b| - 1] else s[|s| - 1]);
    CleanLine(line);
    assert line[|DATA_PREFIX|..] == a + s + b;
    assert (s + b)[0] == s[0];
  }

  /** `\\r\\n` and `\\n` line ends mean the same: feeding every line with a
      carriage return appended changes nothing. */
  lemma {:induction false} LineEndsAgree(decode: string -> Option<Chunk>, p: Progress, n: Named, lines: seq<string>)
    ensures var crlf := seq(|lines|, i requires 0 <= i < |lines| => lines[i] + "\r");
      && Feed((q: Progress, l: string) => LiveLine(decode, q, l), p, crlf) == Feed((q: Progress, l: string) => LiveLine(decode, q, l), p, lines)
      && Feed(EventLine, n, crlf) == Feed(EventLine, n, lines)
    decreases |lines|
  {
    if lines != [] {
      var crlf := seq(|lines|, i requires 0 <= i < |lines| => lines[i] + "\r");
      assert crlf[1..] == seq(|lines[1..]|, i requires 0 <= i < |lines[1..]| => lines[1..][i] + "\r");
      assert crlf[0][..|lines[0]|] == lines[0];
      assert TrimEndCr(crlf[0]) == TrimEndCr(lines[0]);
      var f := LiveLine(decode, p, lines[0]);
      LineEndsAgree(decode, if f.Go? then f.state else p, EventLine(n, lines[0]).state, lines[1..]);
    }
  }
}
