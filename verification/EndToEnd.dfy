/**
 The provider's stream and the turn machine put together: what network chunks
 make of a streaming turn.
 */
module EndToEnd {
  import opened Prelude
  import opened ReactModel
  import opened ReactProgress
  import opened ReactRounds
  import opened ToolStream
  import opened ToolDemux
  import opened SseStream
  import opened StreamPipeline

  /** The text of a stream: the contents of its chunks, concatenated. */
  function Contents(cs: seq<Chunk>): string {
    if cs == [] then "" else Contents(cs[..|cs| - 1]) + Content(cs[|cs| - 1])
  }

  function Content(c: Chunk): string {
    if c.choice.Some? && c.choice.value.content.Some? then c.choice.value.content.value else ""
  }

  lemma {:induction false} StreamedTextAppend(a: seq<StreamEvent>, b: seq<StreamEvent>)
    ensures StreamedText(a + b) == StreamedText(a) + StreamedText(b)
    decreases |b|
  {
    if b == [] {
      assert a + b == a;
    } else {
      assert (a + b)[..|a + b| - 1] == a + b[..|b| - 1];
      StreamedTextAppend(a, b[..|b| - 1]);
    }
  }

  lemma {:induction false} SilentText(es: seq<StreamEvent>)
    requires forall i :: 0 <= i < |es| ==> !es[i].TextDelta?
    ensures StreamedText(es) == ""
    decreases |es|
  {
    if es != [] { SilentText(es[..|es| - 1]); }
  }

  lemma {:induction false} PreambleText(c: Chunk)
    ensures StreamedText(Preamble(c)) == Content(c)
  {
    var a := if c.hasUsage then [Informational] else [];
    var b := if Content(c) != "" then [TextDelta(Content(c))] else [];
    assert Preamble(c) == a + b;
    StreamedTextAppend(a, b);
    SilentText(a);
    if b != [] { assert b[..0] == [] && "" + Content(c) == Content(c); }
  }

  predicate OnlyCalls(es: seq<StreamEvent>) {
    forall i :: 0 <= i < |es| ==> es[i].ToolCallStart? || es[i].ToolCallDelta? || es[i].ToolCallEnd?
  }

  lemma {:induction false} EndsAreCalls(slots: seq<Slot>)
    ensures OnlyCalls(Ends(slots))
  {
    if slots != [] { EndsAreCalls(slots[..|slots| - 1]); }
  }

  /** Tool fragments add no text and nothing that ends the stream. */
  lemma {:induction false} FragmentsAddCalls(p: Progress, fs: seq<Fragment>) returns (more: seq<StreamEvent>)
    ensures OnFragments(p, fs).events == p.events + more && OnlyCalls(more)
    decreases |fs|
  {
    if fs == [] {
      more := [];
    } else {
      var n := |fs| - 1;
      var q := OnFragments(p, fs[..n]);
      var before := FragmentsAddCalls(p, fs[..n]);
      var last := Announce(Track(q.slots, fs[n])[fs[n].index].id, fs[n]);
      more := before + last;
      assert p.events + before + last == p.events + more;
    }
  }

  lemma {:induction false} ChunkAdds(p: Progress, c: Chunk) returns (more: seq<StreamEvent>)
    ensures OnChunk(p, c).events == p.events + Preamble(c) + more && OnlyCalls(more)
  {
    var q := OnFragments(p.(events := p.events + Preamble(c)), Fragments(c));
    var calls := FragmentsAddCalls(p.(events := p.events + Preamble(c)), Fragments(c));
    EndsAreCalls(q.slots);
    more := calls + (if Finishes(c) then Ends(q.slots) else []);
    assert OnChunk(p, c).events == p.events + Preamble(c) + more;
  }

  lemma {:induction false} FlowingJoin(a: seq<StreamEvent>, b: seq<StreamEvent>, c: seq<StreamEvent>)
    requires Flowing(a) && Flowing(b) && OnlyCalls(c)
    ensures Flowing(a + b + c)
  {
  }

  lemma {:induction false} TextJoin(a: seq<StreamEvent>, b: seq<StreamEvent>, c: seq<StreamEvent>)
    requires OnlyCalls(c)
    ensures StreamedText(a + b + c) == StreamedText(a) + StreamedText(b)
  {
    StreamedTextAppend(a + b, c);
    StreamedTextAppend(a, b);
    SilentText(c);
  }

  /** A chunk's events carry its content and end nothing. */
  lemma {:induction false} ChunkText(p: Progress, c: Chunk)
    requires Flowing(p.events)
    ensures StreamedText(OnChunk(p, c).events) == StreamedText(p.events) + Content(c) && Flowing(OnChunk(p, c).events)
  {
    var more := ChunkAdds(p, c);
    assert StreamedText(OnChunk(p, c).events) == StreamedText(p.events) + Content(c) by {
      TextJoin(p.events, Preamble(c), more);
      PreambleText(c);
    }
    assert Flowing(OnChunk(p, c).events) by { FlowingJoin(p.events, Preamble(c), more); }
  }

  lemma {:induction false} ChunksText(p: Progress, cs: seq<Chunk>)
    requires Flowing(p.events)
    ensures StreamedText(OnChunks(p, cs).events) == StreamedText(p.events) + Contents(cs) && Flowing(OnChunks(p, cs).events)
    decreases |cs|
  {
    if cs != [] {
      var n := |cs| - 1;
      ChunksText(p, cs[..n]);
      ChunkText(OnChunks(p, cs[..n]), cs[n]);
      assert OnChunks(p, cs) == OnChunk(OnChunks(p, cs[..n]), cs[n]);
    }
  }

  function Count(es: seq<StreamEvent>): nat {
    if es == [] then 0 else Count(es[..|es| - 1]) + (if es[|es| - 1].Informational? then 1 else 0)
  }

  function UsageChunks(cs: seq<Chunk>): nat {
    if cs == [] then 0 else UsageChunks(cs[..|cs| - 1]) + (if cs[|cs| - 1].hasUsage then 1 else 0)
  }

  lemma {:induction false} CountAppend(a: seq<StreamEvent>, b: seq<StreamEvent>)
    ensures Count(a + b) == Count(a) + Count(b)
    decreases |b|
  {
    if b == [] {
      assert a + b == a;
    } else {
      assert (a + b)[..|a + b| - 1] == a + b[..|b| - 1];
      CountAppend(a, b[..|b| - 1]);
    }
  }

  lemma {:induction false} CallsCountNothing(es: seq<StreamEvent>)
    requires OnlyCalls(es)
    ensures Count(es) == 0
    decreases |es|
  {
    if es != [] { CallsCountNothing(es[..|es| - 1]); }
  }

  lemma {:induction false} PreambleCounts(c: Chunk)
    ensures Count(Preamble(c)) == if c.hasUsage then 1 else 0
  {
    var a := if c.hasUsage then [Informational] else [];
    var b := if Content(c) != "" then [TextDelta(Content(c))] else [];
    assert Preamble(c) == a + b;
    CountAppend(a, b);
    if a != [] { assert a[..0] == []; }
    if b != [] { assert b[..0] == []; }
  }

  /** One usage event per chunk that reports usage. */
  lemma {:induction false} UsageIsReported(p: Progress, cs: seq<Chunk>)
    ensures Count(OnChunks(p, cs).events) == Count(p.events) + UsageChunks(cs)
    decreases |cs|
  {
    if cs != [] {
      var n := |cs| - 1;
      UsageIsReported(p, cs[..n]);
      var q := OnChunks(p, cs[..n]);
      var more := ChunkAdds(q, cs[n]);
      CountAppend(q.events + Preamble(cs[n]), more);
      CountAppend(q.events, Preamble(cs[n]));
      CallsCountNothing(more);
      PreambleCounts(cs[n]);
      assert OnChunks(p, cs) == OnChunk(q, cs[n]);
    }
  }

  lemma {:induction false} NoFragmentsNoCalls(p: Progress, cs: seq<Chunk>)
    requires FragmentsOf(cs) == [] && Pending(p.events) == []
    ensures Pending(OnChunks(p, cs).events) == []
  {
    ChunkStarts(p, cs);
    PendingCountsStarts(p.events);
    PendingCountsStarts(OnChunks(p, cs).events);
  }

  /** A provider's stream closed by the end marker: payloads that decode to
      chunks, cut into pieces that fit the line buffer. */
  ghost predicate Sent(decode: string -> Option<Chunk>, payloads: seq<string>, cs: seq<Chunk>, pieces: seq<string>) {
    && |cs| == |payloads|
    && (forall i :: 0 <= i < |payloads| ==> Payload(payloads[i]) && decode(payloads[i]) == Some(cs[i]))
    && Flatten(pieces) == Wire(payloads, DONE_LINE) && Fits("", pieces)
  }

  /** What the provider publishes of the pieces it reads. */
  function Published(decode: string -> Option<Chunk>, pieces: seq<string>): seq<StreamEvent> {
    Chunked(Parse(decode), Start, "", pieces).state.events
  }

  lemma {:induction false} PublishedIs(decode: string -> Option<Chunk>, payloads: seq<string>, cs: seq<Chunk>, pieces: seq<string>)
    requires Sent(decode, payloads, cs, pieces)
    ensures Published(decode, pieces) == OnChunks(Start, cs).events + [StreamEvent.Done]
    ensures Flowing(OnChunks(Start, cs).events) && StreamedText(OnChunks(Start, cs).events) == Contents(cs)
  {
    PipelineRuns(decode, payloads, cs, pieces);
    ChunksText(Start, cs);
  }

  /** Every handler call of the stream in time, nothing failing at its end. */
  predicate StreamOk(cfg: Config, since: nat, ws: seq<World>) {
    && ws != [] && StaysInTime(cfg, since, ws)
    && ws[|ws| - 1].fetchOk && ws[|ws| - 1].publishOk && ws[|ws| - 1].dispatchFails.None?
  }

  lemma {:induction false} EndApart(s: SessionId, r: RequestId, body: seq<StreamEvent>, es: seq<StreamEvent>, ws: seq<World>)
    requires es == body + [StreamEvent.Done] && |ws| == |es|
    ensures var n := |body|;
      && StreamRun(r, es, ws) == StreamRun(r, body, ws[..n]) + [LlmStream(r, Done, ws[n])]
      && Tokens(s, r, es, ws) == Tokens(s, r, body, ws[..n])
  {
    assert es[..|body|] == body;
  }

  /** Feeding a streaming turn everything up to and including the end. */
  lemma {:induction false} FeedTurn(cfg: Config, k: Kv, s: SessionId, r: RequestId, since: nat,
                                    body: seq<StreamEvent>, es: seq<StreamEvent>, ws: seq<World>)
    requires es == body + [StreamEvent.Done] && Flowing(body) && |ws| == |es|
    requires StreamOk(cfg, since, ws) && StreamsFresh(k, s, r, since)
    ensures var k2 := Run(cfg, k, StreamRun(r, es, ws));
      Concluded(k2, s, r, body) && k2.log == k.log + Tokens(s, r, es, ws) + Conclusion(s, r, body)
  {
    var n := |body|;
    EndApart(s, r, body, es, ws);
    StaysInTimePrefix(cfg, since, ws);
    StreamConcludes(cfg, k, s, r, since, body, ws[..n], ws[n]);
  }

  /** The provider has read a whole stream without calls, or with well-formed
      calls each named once. */
  ghost predicate Replies(cs: seq<Chunk>) {
    var fs := FragmentsOf(cs);
    fs == [] || (WellFormed(fs) && NamedOnce(fs) && exists f :: FinishesAt(cs, f))
  }

  lemma {:induction false} RepliesPending(cs: seq<Chunk>)
    requires Replies(cs)
    ensures Pending(OnChunks(Start, cs).events) == Calls(FragmentsOf(cs), true)
  {
    if FragmentsOf(cs) == [] {
      NoFragmentsNoCalls(Start, cs);
    } else {
      var f :| FinishesAt(cs, f);
      Demultiplexed(cs, f);
    }
  }

  lemma {:induction false} CallsOfFragments(fs: seq<Fragment>)
    ensures Calls(fs, true) == [] <==> fs == []
  {
    OrderFacts(fs);
    if fs != [] {
      IdOfSnoc(fs, fs[|fs| - 1].index);
      assert Seen(fs, fs[|fs| - 1].index);
    }
  }

  /** What a complete stream is worth: its calls, or else its text. */
  function Worth(s: SessionId, r: RequestId, cs: seq<Chunk>): seq<Event> {
    var calls := DispatchAll(Calls(FragmentsOf(cs), true), r);
    if FragmentsOf(cs) != [] then [Round(s, r)] + ToolRequests(s, calls, |calls|)
    else if Contents(cs) != "" then [Answer(s, r, Contents(cs))]
    else []
  }

  /** The turn after a stream: over, or waiting for exactly the stream's calls,
      in order of first appearance, each with its own arguments, in a round that
      results can complete. */
  ghost predicate Settled(k: Kv, s: SessionId, r: RequestId, cs: seq<Chunk>) {
    && s in k.turns && r !in k.requests
    && if FragmentsOf(cs) == [] then k.turns[s].phase.Idle?
       else
         && Waits(k, s) && k.turns[s].requestId == r
         && k.turns[s].dispatched == DispatchAll(Calls(FragmentsOf(cs), true), r)
         && NoneAnswered(k.turns[s].dispatched) && DistinctIds(k.turns[s].dispatched)
         && ItsCalls(k.turns[s].dispatched, FragmentsOf(cs), r)
  }

  /** One call per index, in order of first appearance, with the id and name of
      its first fragment and the arguments of all its fragments. */
  predicate ItsCalls(dispatched: seq<ToolCall>, fs: seq<Fragment>, r: RequestId) {
    && |dispatched| == |Order(fs)|
    && forall j :: 0 <= j < |Order(fs)| ==>
         dispatched[j] == ToolCall(IdOf(fs, Order(fs)[j]), NameOf(fs, Order(fs)[j]), ArgsOf(fs, Order(fs)[j]), None, r)
  }

  lemma {:induction false} CallsCompletable(fs: seq<Fragment>, r: RequestId)
    requires WellFormed(fs) && fs != []
    ensures var calls := DispatchAll(Calls(fs, true), r); NoneAnswered(calls) && DistinctIds(calls) && ItsCalls(calls, fs, r) && forall i :: 0 <= i < |calls| ==> calls[i].turn == r
  {
    CallsOfFragments(fs);
    CallIdsDistinct(fs, true);
  }

  /** From the network to the tools and the user. A complete stream is cut into
      pieces anywhere and read by the provider, and what the provider publishes
      is handled by the turn that asked for it. Then that turn has requested
      each of the stream's calls and waits for them; or, when there are none, it
      is over and has answered with the contents of all chunks. */
  lemma {:induction false} ReplyArrives(cfg: Config, decode: string -> Option<Chunk>, payloads: seq<string>, cs: seq<Chunk>, pieces: seq<string>,
                                        k: Kv, s: SessionId, r: RequestId, since: nat, ws: seq<World>)
    requires Sent(decode, payloads, cs, pieces) && Replies(cs)
    requires StreamsFresh(k, s, r, since) && |ws| == |Published(decode, pieces)| && StreamOk(cfg, since, ws)
    ensures var k2 := Run(cfg, k, StreamRun(r, Published(decode, pieces), ws));
      k2.log == k.log + Tokens(s, r, Published(decode, pieces), ws) + Worth(s, r, cs) && Settled(k2, s, r, cs)
  {
    PublishedIs(decode, payloads, cs, pieces);
    RepliesPending(cs);
    CallsOfFragments(FragmentsOf(cs));
    FeedReply(cfg, OnChunks(Start, cs).events, Published(decode, pieces), cs, k, s, r, since, ws);
  }

  lemma {:induction false} FeedReply(cfg: Config, body: seq<StreamEvent>, es: seq<StreamEvent>, cs: seq<Chunk>,
                                     k: Kv, s: SessionId, r: RequestId, since: nat, ws: seq<World>)
    requires es == body + [StreamEvent.Done] && Flowing(body) && StreamedText(body) == Contents(cs) && Replies(cs)
    requires Pending(body) == Calls(FragmentsOf(cs), true) && (Pending(body) == [] <==> FragmentsOf(cs) == [])
    requires StreamsFresh(k, s, r, since) && |ws| == |es| && StreamOk(cfg, since, ws)
    ensures var k2 := Run(cfg, k, StreamRun(r, es, ws));
      k2.log == k.log + Tokens(s, r, es, ws) + Worth(s, r, cs) && Settled(k2, s, r, cs)
  {
    FeedTurn(cfg, k, s, r, since, body, es, ws);
    if FragmentsOf(cs) != [] { CallsCompletable(FragmentsOf(cs), r); }
  }
}
