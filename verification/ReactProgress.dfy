/** That turns do get somewhere, and that re-driven replies do not run forever. */
module ReactProgress {
  import opened Prelude
  import opened ReactModel
  import opened ReactInvariant
  import opened ReactSteps
  import opened ReactTheorems

  /** A phase entered at `since` has not timed out at `now` (0: no clock). */
  predicate InTime(cfg: Config, phase: Phase, since: nat, now: nat) {
    now == 0 || since == 0 || SatSub(now, since) / 1000 < PhaseLimit(cfg, phase)
  }

  lemma {:induction false} RunAppend(cfg: Config, k: Kv, a: seq<Action>, b: seq<Action>)
    ensures Run(cfg, k, a + b) == Run(cfg, Run(cfg, k, a), b)
    decreases |a|
  {
    if a == [] { assert a + b == b; }
    else {
      assert (a + b)[0] == a[0] && (a + b)[1..] == a[1..] + b;
      RunAppend(cfg, Apply(cfg, k, a[0]), a[1..], b);
    }
  }

  lemma {:induction false} RunOne(cfg: Config, k: Kv, a: Action)
    ensures Run(cfg, k, [a]) == Apply(cfg, k, a)
  {
    assert [a][1..] == [];
  }

  // ---- From the prompt to the LLM request ----

  /** What the handlers of a turn see up to its LLM request. */
  datatype Opening = Opening(text: string, requested: Option<string>, now: nat,
                             prompt: string, retry: nat, w: World,
                             assembled: Option<string>, tools: seq<string>, retry2: nat, w2: World)

  function OpeningRun(s: SessionId, o: Opening): seq<Action> {
    [UserPrompt(s, o.text, o.requested, true, o.now), IdentityResponse(s, o.prompt, o.retry, o.w),
     PromptResponse(s, o.assembled, o.tools, o.retry2, o.w2)]
  }

  /** Nothing fails: the clock may run and the selection may change, as long as
      no phase times out and some usable model is asked for or selected. */
  predicate OpeningOk(cfg: Config, o: Opening) {
    && !IsBlank(o.text) && o.w.fetchOk && o.w2.publishOk
    && InTime(cfg, AwaitingIdentity, o.now, o.w.now) && InTime(cfg, AwaitingPromptBuild, o.w.now, o.w2.now)
    && ResolveModel(o.requested, o.w.selected).Some? && ResolveModel(o.requested, o.w2.selected).Some?
  }

  /** The system prompt the model gets: the prompt builder's, or else the identity's. */
  function FinalPrompt(o: Opening): string { if o.assembled.Some? then o.assembled.value else o.prompt }

  /** `s` streams request `r` and is the session to which its events go. */
  predicate Streams(k: Kv, s: SessionId, r: RequestId) {
    && r in k.requests && k.requests[r] == s
    && s in k.turns && k.turns[s].phase.Streaming? && k.turns[s].requestId == r
  }

  /** Nothing has arrived yet. */
  predicate StreamsFresh(k: Kv, s: SessionId, r: RequestId, since: nat) {
    Streams(k, s, r) && k.turns[s].pending == [] && k.turns[s].responseText == "" && k.turns[s].enteredAt == since
  }

  /** A turn on its way to its LLM request `r`. */
  predicate OnItsWay(k: Kv, s: SessionId, r: RequestId, phase: Phase, since: nat, requested: Option<string>) {
    && s in k.turns && k.turns[s].phase == phase && k.turns[s].requestId == r && k.turns[s].enteredAt == since
    && k.turns[s].pending == [] && k.turns[s].responseText == ""
    && k.turns[s].modelOverride == (if Usable(requested) then requested else None)
  }

  lemma {:induction false} PromptStarts(cfg: Config, k: Kv, s: SessionId, o: Opening)
    requires OpeningOk(cfg, o)
    ensures var k1 := Apply(cfg, k, OpeningRun(s, o)[0]);
      OnItsWay(k1, s, k.nextRequest, AwaitingIdentity, o.now, o.requested) && k1.log == k.log + [Prompt(s)] + [IdentityRequest(s)]
  {
  }

  lemma {:induction false} IdentityAsks(cfg: Config, k: Kv, s: SessionId, r: RequestId, o: Opening)
    requires OpeningOk(cfg, o) && OnItsWay(k, s, r, AwaitingIdentity, o.now, o.requested)
    ensures var k1 := Apply(cfg, k, OpeningRun(s, o)[1]);
      && OnItsWay(k1, s, r, AwaitingPromptBuild, o.w.now, o.requested)
      && k1.turns[s].systemPrompt == o.prompt
      && k1.log == k.log + [Assemble(s, ResolveModel(o.requested, o.w.selected).value, o.prompt)]
  {
    assert !TimedOut(cfg, k.turns[s], o.w.now);
  }

  lemma {:induction false} AssembledAsks(cfg: Config, k: Kv, s: SessionId, r: RequestId, o: Opening)
    requires OpeningOk(cfg, o) && OnItsWay(k, s, r, AwaitingPromptBuild, o.w.now, o.requested) && k.turns[s].systemPrompt == o.prompt
    ensures var k1 := Apply(cfg, k, OpeningRun(s, o)[2]);
      && StreamsFresh(k1, s, r, o.w2.now)
      && k1.log == k.log + [LlmRequest(s, r, ResolveModel(o.requested, o.w2.selected).value, FinalPrompt(o), o.tools)]
  {
    assert !TimedOut(cfg, k.turns[s], o.w2.now);
  }

  lemma {:induction false} RunThree(cfg: Config, k: Kv, acts: seq<Action>)
    requires |acts| == 3
    ensures Run(cfg, k, acts) == Apply(cfg, Apply(cfg, Apply(cfg, k, acts[0]), acts[1]), acts[2])
  {
    assert acts == [acts[0]] + ([acts[1]] + [acts[2]]);
    RunAppend(cfg, k, [acts[0]], [acts[1]] + [acts[2]]);
    RunOne(cfg, k, acts[0]);
    RunAppend(cfg, Apply(cfg, k, acts[0]), [acts[1]], [acts[2]]);
    RunOne(cfg, Apply(cfg, k, acts[0]), acts[1]);
    RunOne(cfg, Apply(cfg, Apply(cfg, k, acts[0]), acts[1]), acts[2]);
  }

  /** What is published between a prompt and its stream. */
  function Preliminaries(s: SessionId, r: RequestId, o: Opening): seq<Event>
    requires ResolveModel(o.requested, o.w.selected).Some? && ResolveModel(o.requested, o.w2.selected).Some?
  {
    [Prompt(s), IdentityRequest(s), Assemble(s, ResolveModel(o.requested, o.w.selected).value, o.prompt),
     LlmRequest(s, r, ResolveModel(o.requested, o.w2.selected).value, FinalPrompt(o), o.tools)]
  }

  lemma {:induction false} OpeningStreams(cfg: Config, k: Kv, s: SessionId, o: Opening)
    requires OpeningOk(cfg, o)
    ensures var k3 := Run(cfg, k, OpeningRun(s, o));
      StreamsFresh(k3, s, k.nextRequest, o.w2.now) && k3.log == k.log + Preliminaries(s, k.nextRequest, o)
  {
    var acts := OpeningRun(s, o);
    RunThree(cfg, k, acts);
    PromptStarts(cfg, k, s, o);
    IdentityAsks(cfg, Apply(cfg, k, acts[0]), s, k.nextRequest, o);
    AssembledAsks(cfg, Apply(cfg, Apply(cfg, k, acts[0]), acts[1]), s, k.nextRequest, o);
  }

  // ---- The stream ----

  function StreamRun(r: RequestId, es: seq<StreamEvent>, ws: seq<World>): seq<Action>
    requires |es| == |ws|
  {
    seq(|es|, i requires 0 <= i < |es| => LlmStream(r, es[i], ws[i]))
  }

  /** Neither the end nor an error. */
  predicate Flowing(es: seq<StreamEvent>) { forall i :: 0 <= i < |es| ==> !es[i].Done? && !es[i].Error? }

  /** When the event before number `i` arrived, or the phase began. */
  function Since(start: nat, ws: seq<World>, i: nat): nat
    requires i <= |ws|
  {
    if i == 0 then start else ws[i - 1].now
  }

  predicate StaysInTime(cfg: Config, start: nat, ws: seq<World>) {
    forall i :: 0 <= i < |ws| ==> InTime(cfg, Streaming, Since(start, ws, i), ws[i].now)
  }

  function TurnAfter(t: Turn, es: seq<StreamEvent>, ws: seq<World>): Turn
    requires |es| == |ws|
  {
    if es == [] then t
    else
      var n := |es| - 1;
      Accumulate(TurnAfter(t, es[..n], ws[..n]).(enteredAt := ws[n].now), es[n])
  }

  /** One publication per non-empty text, taken or refused. */
  function Tokens(s: SessionId, r: RequestId, es: seq<StreamEvent>, ws: seq<World>): seq<Event>
    requires |es| == |ws|
  {
    if es == [] then []
    else
      var n := |es| - 1;
      Tokens(s, r, es[..n], ws[..n]) +
      (if es[n].TextDelta? && es[n].text != "" then [Token(s, r, es[n].text, ws[n].publishOk)] else [])
  }

  function StreamedText(es: seq<StreamEvent>): string {
    if es == [] then ""
    else StreamedText(es[..|es| - 1]) + (if es[|es| - 1].TextDelta? then es[|es| - 1].text else "")
  }

  function AfterEvents(k: Kv, s: SessionId, r: RequestId, es: seq<StreamEvent>, ws: seq<World>): Kv
    requires |es| == |ws|
  {
    k.(turns := k.turns[s := TurnAfter(Load(k, s), es, ws)], log := k.log + Tokens(s, r, es, ws))
  }

  /** The events move nothing but the turn's accumulators and its timer. */
  lemma {:induction false} TurnAfterIs(t: Turn, es: seq<StreamEvent>, ws: seq<World>)
    requires |es| == |ws| && t.pending == [] && t.responseText == ""
    ensures TurnAfter(t, es, ws) == t.(pending := Pending(es), responseText := StreamedText(es), enteredAt := Since(t.enteredAt, ws, |ws|))
    decreases |es|
  {
    if es != [] {
      var n := |es| - 1;
      TurnAfterIs(t, es[..n], ws[..n]);
    }
  }

  lemma {:induction false} TurnAfterFrame(t: Turn, es: seq<StreamEvent>, ws: seq<World>)
    requires |es| == |ws|
    ensures var t2 := TurnAfter(t, es, ws);
      t2.phase == t.phase && t2.requestId == t.requestId && t2.enteredAt == Since(t.enteredAt, ws, |ws|)
    decreases |es|
  {
    if es != [] { TurnAfterFrame(t, es[..|es| - 1], ws[..|es| - 1]); }
  }

  lemma {:induction false} OneEvent(cfg: Config, k: Kv, s: SessionId, r: RequestId, e: StreamEvent, w: World)
    requires Streams(k, s, r) && InTime(cfg, Streaming, k.turns[s].enteredAt, w.now) && !e.Done? && !e.Error?
    ensures Apply(cfg, k, LlmStream(r, e, w)) ==
      k.(turns := k.turns[s := Accumulate(k.turns[s].(enteredAt := w.now), e)],
         log := k.log + (if e.TextDelta? && e.text != "" then [Token(s, r, e.text, w.publishOk)] else []))
  {
    assert !TimedOut(cfg, k.turns[s], w.now);
    assert k.log + [] == k.log;
  }

  lemma {:induction false} AfterEventsStreams(k: Kv, s: SessionId, r: RequestId, es: seq<StreamEvent>, ws: seq<World>)
    requires |es| == |ws| && Streams(k, s, r)
    ensures var k2 := AfterEvents(k, s, r, es, ws);
      Streams(k2, s, r) && k2.turns[s].enteredAt == Since(k.turns[s].enteredAt, ws, |ws|)
  {
    TurnAfterFrame(k.turns[s], es, ws);
  }

  lemma {:induction false} StaysInTimePrefix(cfg: Config, start: nat, ws: seq<World>)
    requires ws != [] && StaysInTime(cfg, start, ws)
    ensures var n := |ws| - 1;
      && StaysInTime(cfg, start, ws[..n])
      && InTime(cfg, Streaming, Since(start, ws[..n], n), ws[n].now)
  {
    var n := |ws| - 1;
    forall i | 0 <= i < n ensures InTime(cfg, Streaming, Since(start, ws[..n], i), ws[..n][i].now) {
      assert Since(start, ws[..n], i) == Since(start, ws, i);
    }
  }

  /** Any stretch of events, in time: the turn accumulates all of them. */
  lemma {:induction false} EventsRun(cfg: Config, k: Kv, s: SessionId, r: RequestId, es: seq<StreamEvent>, ws: seq<World>)
    requires |es| == |ws| && Flowing(es)
    requires Streams(k, s, r) && StaysInTime(cfg, k.turns[s].enteredAt, ws)
    ensures Run(cfg, k, StreamRun(r, es, ws)) == AfterEvents(k, s, r, es, ws)
    decreases |es|
  {
    if es == [] {
      assert k.turns[s := k.turns[s]] == k.turns && k.log + [] == k.log;
    } else {
      var n := |es| - 1;
      var last := LlmStream(r, es[n], ws[n]);
      StaysInTimePrefix(cfg, k.turns[s].enteredAt, ws);
      EventsRun(cfg, k, s, r, es[..n], ws[..n]);
      AfterEventsStreams(k, s, r, es[..n], ws[..n]);
      assert StreamRun(r, es, ws) == StreamRun(r, es[..n], ws[..n]) + [last];
      RunAppend(cfg, k, StreamRun(r, es[..n], ws[..n]), [last]);
      RunOne(cfg, AfterEvents(k, s, r, es[..n], ws[..n]), last);
      OneEvent(cfg, AfterEvents(k, s, r, es[..n], ws[..n]), s, r, es[n], ws[n]);
      EventsJoin(k, s, r, es, ws);
    }
  }

  lemma {:induction false} EventsJoin(k: Kv, s: SessionId, r: RequestId, es: seq<StreamEvent>, ws: seq<World>)
    requires |es| == |ws| && es != [] && s in k.turns
    ensures var n := |es| - 1; var k1 := AfterEvents(k, s, r, es[..n], ws[..n]);
      AfterEvents(k, s, r, es, ws) ==
      k1.(turns := k1.turns[s := Accumulate(k1.turns[s].(enteredAt := ws[n].now), es[n])],
          log := k1.log + (if es[n].TextDelta? && es[n].text != "" then [Token(s, r, es[n].text, ws[n].publishOk)] else []))
  {
  }

  // ---- The end of the stream ----

  /** What a whole stream leads to: its texts, each taken or refused, and then
      the requests of its tool calls, or its text as the answer. */
  function Conclusion(s: SessionId, r: RequestId, es: seq<StreamEvent>): seq<Event> {
    if Pending(es) != [] then
      [Round(s, r)] + ToolRequests(s, DispatchAll(Pending(es), r), |Pending(es)|)
    else if StreamedText(es) != "" then [Answer(s, r, StreamedText(es))]
    else []
  }

  /** Nothing fails when the stream ends. */
  predicate EndOk(cfg: Config, since: nat, w: World) {
    InTime(cfg, Streaming, since, w.now) && w.fetchOk && w.publishOk && w.dispatchFails.None?
  }

  /** The turn after the stream: waiting for its calls, or over. */
  predicate Concluded(k: Kv, s: SessionId, r: RequestId, es: seq<StreamEvent>) {
    && r !in k.requests && s in k.turns
    && var t := k.turns[s];
       if Pending(es) == [] then t.phase.Idle?
       else
         && t.phase.AwaitingTools? && t.requestId == r && t.dispatched == DispatchAll(Pending(es), r)
         && forall c :: c in CallIds(t.dispatched) ==> c in k.calls && k.calls[c] == s
  }

  lemma {:induction false} DoneConcludes(cfg: Config, k: Kv, s: SessionId, r: RequestId, es: seq<StreamEvent>, w: World)
    requires Streams(k, s, r) && k.turns[s].pending == Pending(es) && k.turns[s].responseText == StreamedText(es)
    requires EndOk(cfg, k.turns[s].enteredAt, w)
    ensures var k2 := Apply(cfg, k, LlmStream(r, Done, w));
      Concluded(k2, s, r, es) && k2.log == k.log + Conclusion(s, r, es)
  {
    assert !TimedOut(cfg, k.turns[s], w.now);
  }

  /** A whole stream, in time and whatever happens to its single texts. */
  lemma {:induction false} StreamConcludes(cfg: Config, k: Kv, s: SessionId, r: RequestId, since: nat,
                                           es: seq<StreamEvent>, ws: seq<World>, w: World)
    requires |es| == |ws| && Flowing(es) && StreamsFresh(k, s, r, since)
    requires StaysInTime(cfg, since, ws) && EndOk(cfg, Since(since, ws, |ws|), w)
    ensures var k2 := Run(cfg, k, StreamRun(r, es, ws) + [LlmStream(r, Done, w)]);
      Concluded(k2, s, r, es) && k2.log == k.log + Tokens(s, r, es, ws) + Conclusion(s, r, es)
  {
    var last := LlmStream(r, Done, w);
    var k1 := AfterEvents(k, s, r, es, ws);
    RunAppend(cfg, k, StreamRun(r, es, ws), [last]);
    EventsRun(cfg, k, s, r, es, ws);
    RunOne(cfg, k1, last);
    AfterEventsStreams(k, s, r, es, ws);
    TurnAfterIs(k.turns[s], es, ws);
    DoneConcludes(cfg, k1, s, r, es, w);
  }

  /** A turn in which nothing fails and nothing times out gets to its
      conclusion: from any store, on any clock, with any selected or requested
      model, a prompt publishes exactly one LLM request, then the texts the
      model streams in order, and then either exactly the requests of the
      streamed tool calls, on which the turn waits, or their concatenation as
      the one final answer, and the turn is over. */
  lemma {:induction false} TurnDelivers(cfg: Config, k: Kv, s: SessionId, o: Opening,
                                        es: seq<StreamEvent>, ws: seq<World>, w: World)
    requires OpeningOk(cfg, o) && |es| == |ws| && Flowing(es)
    requires StaysInTime(cfg, o.w2.now, ws) && EndOk(cfg, Since(o.w2.now, ws, |ws|), w)
    ensures var r := k.nextRequest;
      var k2 := Run(cfg, k, OpeningRun(s, o) + (StreamRun(r, es, ws) + [LlmStream(r, Done, w)]));
      Concluded(k2, s, r, es) && k2.log == k.log + Preliminaries(s, r, o) + Tokens(s, r, es, ws) + Conclusion(s, r, es)
  {
    var r := k.nextRequest;
    RunAppend(cfg, k, OpeningRun(s, o), StreamRun(r, es, ws) + [LlmStream(r, Done, w)]);
    OpeningStreams(cfg, k, s, o);
    StreamConcludes(cfg, Run(cfg, k, OpeningRun(s, o)), s, r, o.w2.now, es, ws, w);
  }

  lemma {:induction false} OneToken(s: SessionId, r: RequestId, text: string, w: World)
    requires text != ""
    ensures var es := [TextDelta(text)];
      && Tokens(s, r, es, [w]) == [Token(s, r, text, w.publishOk)]
      && StreamedText(es) == text && Pending(es) == []
  {
    var es := [TextDelta(text)];
    assert es[..0] == [];
    assert "" + text == text;
  }

  lemma {:induction false} NothingPublished(log: seq<Event>, s: SessionId, r: RequestId)
    requires forall i :: 0 <= i < |log| ==> !log[i].Delta?
    ensures PublishedText(log, s, r) == ""
    decreases |log|
  {
    if log != [] { NothingPublished(log[..|log| - 1], s, r); }
  }

  /** An answer that no listener saw streamed: the bus refuses the one text of
      a turn, which the capsule only logs, and the text is answered all the same. */
  lemma {:induction false} RefusedTextIsAnswered(cfg: Config, s: SessionId, prompt: string, text: string, model: string) returns (acts: seq<Action>)
    requires text != "" && !IsBlank(prompt) && !IsBlank(model)
    ensures var log := Run(cfg, Boot, acts).log; var n := |log| - 1;
      n >= 0 && log[n] == Answer(s, 1, text) && PublishedText(log[..n], s, 1) == "" && Lost(log[..n], s, 1)
  {
    var w := World(0, true, true, None, Some(model));
    var o := Opening(prompt, None, 0, "", 0, w, None, [], 0, w);
    var es, ws := [TextDelta(text)], [w.(publishOk := false)];
    acts := OpeningRun(s, o) + (StreamRun(1, es, ws) + [LlmStream(1, Done, w)]);
    TurnDelivers(cfg, Boot, s, o, es, ws, w);
    OneToken(s, 1, text, ws[0]);
    var before := Boot.log + Preliminaries(s, 1, o) + [Refused(s, 1, text)];
    var log := Run(cfg, Boot, acts).log;
    assert log == before + [Answer(s, 1, text)];
    assert log[..|log| - 1] == before;
    assert before[4] == Refused(s, 1, text);
    NothingPublished(before, s, 1);
  }

  /** The last missing tool result starts the next round: whatever happened
      before, once every other call of the turn is answered, the result of
      call `c` makes the model be asked again, under a new request id that is
      the only thing the turn now waits for. */
  lemma {:induction false} LastResultContinues(cfg: Config, k: Kv, c: CallId, result: string, w: World)
    requires c in k.calls && w.fetchOk && w.publishOk
    requires var t := Load(k, k.calls[c]);
      && t.phase.AwaitingTools? && t.iteration + 1 < cfg.maxIterations && !StaleResult(t, c)
      && AllAnswered(RecordResult(t.dispatched, c, result))
      && InTime(cfg, AwaitingTools, t.enteredAt, w.now) && ResolveModel(t.modelOverride, w.selected).Some?
    ensures var s := k.calls[c]; var t := Load(k, s); var r := k.nextRequest;
      var k2 := HandleToolResult(cfg, k, c, result, w);
      && k2.log == k.log + [LlmRequest(s, r, ResolveModel(t.modelOverride, w.selected).value, t.systemPrompt, t.tools)]
      && StreamsFresh(k2, s, r, w.now)
      && Load(k2, s).iteration == t.iteration + 1 && Load(k2, s).tools == t.tools && Load(k2, s).modelOverride == t.modelOverride
      && (forall d :: d in CallIds(RecordResult(t.dispatched, c, result)) ==> d !in k2.calls)
  {
    assert !TimedOut(cfg, Load(k, k.calls[c]), w.now);
  }

  // ---- Re-driven replies ----

  datatype Mail = Mail(session: SessionId, fromPromptBuilder: bool, retry: nat)

  /** The store together with the orchestration replies in flight, each under
      its own delivery id, and how often each has been republished. */
  datatype Post = Post(k: Kv, inflight: map<nat, Mail>, republished: map<nat, nat>)

  datatype PostAction =
    | Send(id: nat, mail: Mail)          // a reply enters the bus, under a new id
    | Deliver(id: nat, w: World)
    | Other(action: Action)

  function Handle(cfg: Config, k: Kv, m: Mail, w: World): Kv {
    if m.fromPromptBuilder then HandlePromptResponse(cfg, k, m.session, None, [], m.retry, w.selected, w.publishOk, w.now)
    else HandleIdentityResponse(cfg, k, m.session, "", m.retry, w.fetchOk, w.selected, w.now)
  }

  /** The handler answered by republishing the reply it was given. */
  predicate Republished(k: Kv, k2: Kv, m: Mail) {
    k2.log == k.log + [Redriven(m.session, if m.fromPromptBuilder then PROMPT_TOPIC else IDENTITY_TOPIC, m.retry + 1)]
  }

  function ApplyPost(cfg: Config, p: Post, a: PostAction): Post {
    match a
    case Send(id, mail) =>
      if id in p.republished then p
      else p.(inflight := p.inflight[id := mail], republished := p.republished[id := 0])
    case Other(action) => p.(k := Apply(cfg, p.k, action))
    case Deliver(id, w) =>
      if id !in p.inflight || id !in p.republished then p
      else
        var m := p.inflight[id];
        var k2 := Handle(cfg, p.k, m, w);
        if Republished(p.k, k2, m) then
          Post(k2, p.inflight[id := m.(retry := m.retry + 1)], p.republished[id := p.republished[id] + 1])
        else Post(k2, p.inflight - {id}, p.republished)
  }

  function RunPost(cfg: Config, p: Post, acts: seq<PostAction>): Post
    decreases |acts|
  {
    if acts == [] then p else RunPost(cfg, ApplyPost(cfg, p, acts[0]), acts[1..])
  }

  predicate PostOk(p: Post) {
    && (forall id :: id in p.inflight ==> id in p.republished && p.republished[id] <= p.inflight[id].retry)
    && (forall id :: id in p.republished ==> p.republished[id] <= MAX_REDRIVE_RETRIES)
  }

  /** Only a session with no turn under way makes a reply bounce, and only
      while its retry count is below the limit; a bounce changes nothing. */
  lemma {:induction false} RepublishedOnlyWhenIdle(cfg: Config, k: Kv, m: Mail, w: World)
    requires Republished(k, Handle(cfg, k, m, w), m)
    ensures m.retry < MAX_REDRIVE_RETRIES && Load(k, m.session).phase.Idle?
    ensures Handle(cfg, k, m, w).(log := k.log) == k
  {
    var k2 := Handle(cfg, k, m, w);
    assert k2.log[|k.log|].Redriven?;
  }

  /** And then it always does: a reply for an Idle session is republished once,
      with its count one higher, until it has been twenty times; a reply that
      finds its turn in another wrong phase is dropped. Neither changes anything
      else. */
  lemma {:induction false} RedrivenIffIdle(cfg: Config, k: Kv, m: Mail, w: World)
    requires var p := Load(k, m.session).phase;
      !TimedOut(cfg, Load(k, m.session), w.now) && p != (if m.fromPromptBuilder then AwaitingPromptBuild else AwaitingIdentity)
    ensures var topic := if m.fromPromptBuilder then "prompt_builder.v1.response.assemble" else "spark.v1.response.ready";
      Handle(cfg, k, m, w) ==
        if Load(k, m.session).phase == Idle && m.retry < 20 then k.(log := k.log + [Redriven(m.session, topic, m.retry + 1)]) else k
  {
  }

  lemma {:induction false} RedriveBounded(cfg: Config, p: Post, acts: seq<PostAction>)
    requires PostOk(p)
    ensures PostOk(RunPost(cfg, p, acts))
    decreases |acts|
  {
    if acts != [] {
      var p1 := ApplyPost(cfg, p, acts[0]);
      if acts[0].Deliver? && acts[0].id in p.inflight {
        var m := p.inflight[acts[0].id];
        if Republished(p.k, Handle(cfg, p.k, m, acts[0].w), m) { RepublishedOnlyWhenIdle(cfg, p.k, m, acts[0].w); }
      }
      RedriveBounded(cfg, p1, acts[1..]);
    }
  }

  /** In any run of the store and the bus together, no reply is republished
      more than twenty times. */
  lemma {:induction false} RedrivenAtMostTwenty(cfg: Config, acts: seq<PostAction>, id: nat)
    requires id in RunPost(cfg, Post(Boot, map[], map[]), acts).republished
    ensures RunPost(cfg, Post(Boot, map[], map[]), acts).republished[id] <= 20
  {
    RedriveBounded(cfg, Post(Boot, map[], map[]), acts);
  }
}
