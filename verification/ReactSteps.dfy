/** Every handler of the turn machine keeps its invariant. */
module ReactSteps {
  import opened Prelude
  import opened ReactModel
  import opened ReactInvariant

  lemma {:induction false} KeptTrans(cfg: Config, a: Kv, b: Kv, c: Kv)
    requires Kept(cfg, a, b) && Kept(cfg, b, c)
    ensures Kept(cfg, a, c)
  {
  }

  lemma {:induction false} HistTwo(log: seq<Event>, e: Event, f: Event, s: SessionId)
    requires e.session == s && f.session == s
    ensures Hist(log + [e] + [f], s) == Observe(Observe(Hist(log, s), e), f)
    ensures log + [e] + [f] == log + [e, f]
  {
    HistSnoc(log, e, s);
    HistSnoc(log + [e], f, s);
  }

  /** A new turn under a new request id, with the old turn's entries gone. */
  lemma {:induction false} FreshTurnKept(cfg: Config, k: Kv, k2: Kv, s: SessionId, es: seq<Event>)
    requires Inv(cfg, k)
    requires k2.turns == k.turns[s := Load(k2, s)] && !Load(k2, s).phase.Idle? && Load(k2, s).requestId == k.nextRequest
    requires k2.nextRequest == k.nextRequest + 1 && k2.active == Register(k.active, s)
    requires var t := Load(k, s);
      && k2.requests == (if t.phase.Idle? then k.requests else k.requests - {t.requestId})
      && k2.calls == (if t.phase.Idle? then k.calls else k.calls - CallIds(t.dispatched))
    requires k2.log == k.log + es && About(es, s)
    requires SessionOk(cfg, k2.nextRequest, Load(k2, s), Hist(k2.log, s))
    ensures Kept(cfg, k, k2)
  {
    assert LocalStep(k, k2, s, es);
    forall r | r in k2.requests && k2.requests[r] == s ensures RequestOk(k2, r) { assert RequestOk(k, r); }
    LocalKeepsInv(cfg, k, k2, s, es);
    if Live(k) {
      forall r | r in k2.requests ensures k2.requests[r] != s { assert LiveRequest(k, r); }
      forall c | c in k2.calls ensures k2.calls[c] != s { assert LiveCall(k, c); }
      LocalKeepsLive(k, k2, s, es);
    }
  }

  lemma {:induction false} PromptKept(cfg: Config, k: Kv, s: SessionId, text: string, requested: Option<string>, appendOk: bool, now: nat)
    requires Inv(cfg, k)
    ensures Kept(cfg, k, HandleUserPrompt(k, s, text, requested, appendOk, now))
  {
    if !IsBlank(text) && appendOk {
      HistTwo(k.log, Prompt(s), IdentityRequest(s), s);
      assert SessionOk(cfg, k.nextRequest, Load(k, s), Hist(k.log, s));
      FreshTurnKept(cfg, k, HandleUserPrompt(k, s, text, requested, appendOk, now), s, [Prompt(s), IdentityRequest(s)]);
    }
  }

  lemma {:induction false} EmitLive(k: Kv, e: Event)
    requires Live(k)
    ensures Live(Emit(k, e))
  {
    var k2 := Emit(k, e);
    forall r | r in k2.requests ensures LiveRequest(k2, r) { assert LiveRequest(k, r); }
    forall c | c in k2.calls ensures LiveCall(k2, c) { assert LiveCall(k, c); }
  }

  /** A handler that only publishes something the history does not count. */
  lemma {:induction false} EmitKept(cfg: Config, k: Kv, e: Event)
    requires Inv(cfg, k)
    requires Observe(Hist(k.log, e.session), e) == Hist(k.log, e.session)
    ensures Kept(cfg, k, Emit(k, e))
  {
    var k2 := Emit(k, e);
    HistSnoc(k.log, e, e.session);
    RegisterKeeps(k.active, e.session);
    assert LocalStep(k, k2, e.session, [e]);
    forall r | r in k2.requests && k2.requests[r] == e.session ensures RequestOk(k2, r) { assert RequestOk(k, r); }
    LocalKeepsInv(cfg, k, k2, e.session, [e]);
    if Live(k) { EmitLive(k, e); }
  }

  /** Saving a changed turn that keeps its phase class: nothing published,
      same request id, same calls. */
  lemma {:induction false} SaveKept(cfg: Config, k: Kv, s: SessionId, t: Turn)
    requires Inv(cfg, k) && !Load(k, s).phase.Idle? && !t.phase.Idle?
    requires t.requestId == Load(k, s).requestId
    requires Load(k, s).phase.Streaming? ==> t.phase.Streaming?
    requires Load(k, s).phase.AwaitingTools? ==> t.phase.AwaitingTools? && CallIds(t.dispatched) == CallIds(Load(k, s).dispatched)
    requires SessionOk(cfg, k.nextRequest, t, Hist(k.log, s))
    ensures Kept(cfg, k, Save(k, s, t))
  {
    var k2 := Save(k, s, t);
    assert k.log + [] == k.log;
    assert LocalStep(k, k2, s, []);
    forall r | r in k2.requests && k2.requests[r] == s ensures RequestOk(k2, r) { assert RequestOk(k, r); }
    LocalKeepsInv(cfg, k, k2, s, []);
    if Live(k) {
      forall r | r in k2.requests ensures k2.requests[r] == s ==> LiveRequest(k2, r) { assert LiveRequest(k, r); }
      forall c | c in k2.calls ensures k2.calls[c] == s ==> LiveCall(k2, c) { assert LiveCall(k, c); }
      LocalKeepsLive(k, k2, s, []);
    }
  }

  lemma {:induction false} RedriveKept(cfg: Config, k: Kv, actual: Phase, topic: string, s: SessionId, retry: nat)
    requires Inv(cfg, k)
    ensures Kept(cfg, k, Redrive(k, actual, topic, s, retry))
  {
    if actual.Idle? && retry < MAX_REDRIVE_RETRIES { EmitKept(cfg, k, Redriven(s, topic, retry + 1)); }
  }

  lemma {:induction false} IdentityKept(cfg: Config, k: Kv, s: SessionId, prompt: string, retry: nat, fetchOk: bool, selected: Option<string>, now: nat)
    requires Inv(cfg, k)
    ensures Kept(cfg, k, HandleIdentityResponse(cfg, k, s, prompt, retry, fetchOk, selected, now))
  {
    var t := Load(k, s);
    if TimedOut(cfg, t, now) { TimeoutKept(cfg, k, s, now); }
    else if !t.phase.AwaitingIdentity? { RedriveKept(cfg, k, t.phase, IDENTITY_TOPIC, s, retry); }
    else if fetchOk {
      var t1 := t.(systemPrompt := prompt, phase := AwaitingPromptBuild, enteredAt := now);
      var k1 := Save(k, s, t1);
      assert SessionOk(cfg, k.nextRequest, t, Hist(k.log, s));
      SaveKept(cfg, k, s, t1);
      match ResolveModel(t1.modelOverride, selected)
      case None => NoticeAbortKept(cfg, k1, s, NO_MODEL_TEXT, t1, now);
      case Some(m) => EmitKept(cfg, k1, Assemble(s, m, prompt));
    }
  }

  /** `k2` is `k` with a step inside the streaming turn of `s`: it may publish
      and may register its own request. */
  ghost predicate StreamingStep(k: Kv, k2: Kv, s: SessionId, es: seq<Event>) {
    && Load(k, s).phase.Streaming? && Load(k2, s).phase.Streaming? && Load(k2, s).requestId == Load(k, s).requestId
    && k2.turns == k.turns[s := Load(k2, s)]
    && k2.calls == k.calls && k2.active == k.active && k2.nextRequest == k.nextRequest
    && (k2.requests == k.requests || k2.requests == k.requests[Load(k, s).requestId := s])
    && k2.log == k.log + es && About(es, s)
  }

  lemma {:induction false} StreamingStepKeepsInv(cfg: Config, k: Kv, k2: Kv, s: SessionId, es: seq<Event>)
    requires Inv(cfg, k) && StreamingStep(k, k2, s, es)
    requires SessionOk(cfg, k2.nextRequest, Load(k2, s), Hist(k2.log, s))
    requires var r := Load(k, s).requestId; r in k2.requests && k2.requests[r] == s ==> Hist(k2.log, s).last == r
    ensures Inv(cfg, k2)
  {
    var t := Load(k, s);
    assert SessionOk(cfg, k.nextRequest, t, Hist(k.log, s));
    assert LocalStep(k, k2, s, es);
    forall r | r in k2.requests && k2.requests[r] == s ensures RequestOk(k2, r) {
      if r != t.requestId { assert RequestOk(k, r); }
    }
    LocalKeepsInv(cfg, k, k2, s, es);
  }

  lemma {:induction false} StreamingStepKeepsLive(k: Kv, k2: Kv, s: SessionId, es: seq<Event>)
    requires Live(k) && StreamingStep(k, k2, s, es) && s in k.active
    ensures Live(k2)
  {
    assert LocalStep(k, k2, s, es);
    forall r | r in k2.requests ensures k2.requests[r] == s ==> LiveRequest(k2, r) {
      assert r in k.requests ==> LiveRequest(k, r);
    }
    forall c | c in k2.calls ensures k2.calls[c] == s ==> LiveCall(k2, c) { assert LiveCall(k, c); }
    LocalKeepsLive(k, k2, s, es);
  }

  lemma {:induction false} StreamingStepKept(cfg: Config, k: Kv, k2: Kv, s: SessionId, es: seq<Event>)
    requires Inv(cfg, k) && StreamingStep(k, k2, s, es)
    requires SessionOk(cfg, k2.nextRequest, Load(k2, s), Hist(k2.log, s))
    requires var r := Load(k, s).requestId; r in k2.requests && k2.requests[r] == s ==> Hist(k2.log, s).last == r
    ensures Kept(cfg, k, k2)
  {
    StreamingStepKeepsInv(cfg, k, k2, s, es);
    if Live(k) { StreamingStepKeepsLive(k, k2, s, es); }
  }

  lemma {:induction false} RequestKept(cfg: Config, k: Kv, s: SessionId, m: string)
    requires Inv(cfg, k) && Load(k, s).phase.Streaming?
    requires Hist(k.log, s).requests <= Load(k, s).iteration && Load(k, s).responseText == ""
    ensures var r := Load(k, s).requestId;
      Kept(cfg, k, Emit(k.(requests := k.requests[r := s]), LlmRequest(s, r, m, Load(k, s).systemPrompt, Load(k, s).tools)))
  {
    var t := Load(k, s);
    var e := LlmRequest(s, t.requestId, m, t.systemPrompt, t.tools);
    assert SessionOk(cfg, k.nextRequest, t, Hist(k.log, s));
    HistSnoc(k.log, e, s);
    StreamingStepKept(cfg, k, Emit(k.(requests := k.requests[t.requestId := s]), e), s, [e]);
  }

  /** A streaming turn that has not yet asked for its current request. */
  lemma {:induction false} PublishKept(cfg: Config, k: Kv, s: SessionId, selected: Option<string>, publishOk: bool, now: nat)
    requires Inv(cfg, k) && Load(k, s).phase.Streaming?
    requires Hist(k.log, s).requests <= Load(k, s).iteration && Load(k, s).responseText == ""
    ensures Kept(cfg, k, PublishLlmRequest(k, s, Load(k, s), selected, publishOk, now))
  {
    var t := Load(k, s);
    match ResolveModel(t.modelOverride, selected)
    case None => NoticeAbortKept(cfg, k, s, NO_MODEL_TEXT, t, now);
    case Some(m) => if publishOk { RequestKept(cfg, k, s, m); } else { DropEntryKept(cfg, k, s, t.requestId); }
  }

  lemma {:induction false} PromptResponseKept(cfg: Config, k: Kv, s: SessionId, prompt: Option<string>, tools: seq<string>,
                           retry: nat, selected: Option<string>, publishOk: bool, now: nat)
    requires Inv(cfg, k)
    ensures Kept(cfg, k, HandlePromptResponse(cfg, k, s, prompt, tools, retry, selected, publishOk, now))
  {
    var t := Load(k, s);
    if TimedOut(cfg, t, now) { TimeoutKept(cfg, k, s, now); }
    else if !t.phase.AwaitingPromptBuild? { RedriveKept(cfg, k, t.phase, PROMPT_TOPIC, s, retry); }
    else {
      var k1 := StartStreaming(k, s, prompt, tools, now);
      assert SessionOk(cfg, k.nextRequest, t, Hist(k.log, s));
      SaveKept(cfg, k, s, Load(k1, s));
      PublishKept(cfg, k1, s, selected, publishOk, now);
    }
  }

  // ---- Streaming ----

  lemma {:induction false} StreamSaveKept(cfg: Config, k: Kv, s: SessionId, t: Turn, r: RequestId, e: StreamEvent, taken: bool, now: nat)
    requires Inv(cfg, k) && r in k.requests && k.requests[r] == s && t == Load(k, s)
    requires t.phase.Streaming? && t.requestId == r && !e.Done? && !e.Error?
    ensures var t1 := Accumulate(t.(enteredAt := now), e);
      Kept(cfg, k, if e.TextDelta? && e.text != "" then Emit(Save(k, s, t1), Token(s, r, e.text, taken)) else Save(k, s, t1))
  {
    var h := Hist(k.log, s);
    var t1 := Accumulate(t.(enteredAt := now), e);
    assert SessionOk(cfg, k.nextRequest, t, h);
    assert RequestOk(k, r);
    if e.TextDelta? && e.text != "" {
      var ev := Token(s, r, e.text, taken);
      HistSnoc(k.log, ev, s);
      StreamingStepKept(cfg, k, Emit(Save(k, s, t1), ev), s, [ev]);
    } else {
      if e.TextDelta? { assert t1.responseText == t.responseText; }
      SaveKept(cfg, k, s, t1);
    }
  }

  lemma {:induction false} OneToolRequestQuiet(log: seq<Event>, s: SessionId, e: Event)
    requires e.ToolRequest? && e.session == s && Hist(log, s).last == e.request && Hist(log, s).finals == 0
    ensures Hist(log + [e], s) == Hist(log, s)
  {
    HistSnoc(log, e, s);
  }

  lemma {:induction false} ToolRequestsQuiet(log: seq<Event>, s: SessionId, dispatched: seq<ToolCall>, n: nat, r: RequestId)
    requires n <= |dispatched| && AllOfRequest(dispatched, r)
    requires Hist(log, s).last == r && Hist(log, s).finals == 0
    ensures Hist(log + ToolRequests(s, dispatched, n), s) == Hist(log, s)
    decreases n
  {
    var es := ToolRequests(s, dispatched, n);
    if n == 0 {
      assert log + es == log;
    } else {
      ToolRequestsQuiet(log, s, dispatched, n - 1, r);
      var before := ToolRequests(s, dispatched, n - 1);
      assert log + es == (log + before) + [es[n - 1]] by { assert es == before + [es[n - 1]]; }
      OneToolRequestQuiet(log + before, s, es[n - 1]);
    }
  }

  /** The turn leaves Streaming for AwaitingTools. */
  lemma {:induction false} AwaitToolsStep(cfg: Config, k: Kv, s: SessionId, t: Turn, now: nat)
    requires Inv(cfg, k) && t == Load(k, s).(enteredAt := t.enteredAt) && t.phase.Streaming? && t.pending != []
    requires Hist(k.log, s).last == t.requestId
    ensures var k2 := AwaitTools(k.(requests := k.requests - {t.requestId}), s, t, now);
      && LocalStep(k, k2, s, [Round(s, t.requestId)])
      && SessionOk(cfg, k2.nextRequest, Load(k2, s), Hist(k2.log, s))
      && Hist(k2.log, s).last == t.requestId && Hist(k2.log, s).finals == 0
  {
    var k2 := AwaitTools(k.(requests := k.requests - {t.requestId}), s, t, now);
    HistSnoc(k.log, Round(s, t.requestId), s);
    assert SessionOk(cfg, k.nextRequest, Load(k, s), Hist(k.log, s));
    assert Load(k2, s).dispatched[0].result.None?;
  }

  lemma {:induction false} AwaitToolsLive(k: Kv, s: SessionId, t: Turn, now: nat)
    requires Live(k) && t == Load(k, s).(enteredAt := t.enteredAt) && t.phase.Streaming?
    requires var k2 := AwaitTools(k.(requests := k.requests - {t.requestId}), s, t, now); LocalStep(k, k2, s, [Round(s, t.requestId)])
    ensures Live(AwaitTools(k.(requests := k.requests - {t.requestId}), s, t, now))
  {
    var k2 := AwaitTools(k.(requests := k.requests - {t.requestId}), s, t, now);
    forall r | r in k2.requests ensures k2.requests[r] != s { assert LiveRequest(k, r); }
    forall c | c in k2.calls ensures k2.calls[c] == s ==> LiveCall(k2, c) {
      assert c in k.calls ==> LiveCall(k, c);
    }
    LocalKeepsLive(k, k2, s, [Round(s, t.requestId)]);
  }

  lemma {:induction false} AwaitToolsKept(cfg: Config, k: Kv, s: SessionId, t: Turn, now: nat)
    requires Inv(cfg, k) && t == Load(k, s).(enteredAt := t.enteredAt) && t.phase.Streaming? && t.pending != []
    requires Hist(k.log, s).last == t.requestId
    ensures var k2 := AwaitTools(k.(requests := k.requests - {t.requestId}), s, t, now);
      Kept(cfg, k, k2) && Hist(k2.log, s).last == t.requestId && Hist(k2.log, s).finals == 0
  {
    var k2 := AwaitTools(k.(requests := k.requests - {t.requestId}), s, t, now);
    AwaitToolsStep(cfg, k, s, t, now);
    forall r | r in k2.requests && k2.requests[r] == s ensures RequestOk(k2, r) { assert RequestOk(k, r); }
    LocalKeepsInv(cfg, k, k2, s, [Round(s, t.requestId)]);
    if Live(k) { AwaitToolsLive(k, s, t, now); }
  }

  /** Publishing the tool requests, all of them or up to a refusal. */
  lemma {:induction false} RequestToolsKept(cfg: Config, k: Kv, s: SessionId, n: nat)
    requires Inv(cfg, k) && Load(k, s).phase.AwaitingTools? && n <= |Load(k, s).dispatched|
    requires Hist(k.log, s).last == Load(k, s).requestId && Hist(k.log, s).finals == 0
    ensures var k2 := k.(log := k.log + ToolRequests(s, Load(k, s).dispatched, n));
      Kept(cfg, k, k2) && Hist(k2.log, s) == Hist(k.log, s)
  {
    var t := Load(k, s);
    var es := ToolRequests(s, t.dispatched, n);
    var k2 := k.(log := k.log + es);
    assert SessionOk(cfg, k.nextRequest, t, Hist(k.log, s));
    ToolRequestsQuiet(k.log, s, t.dispatched, n, t.requestId);
    assert LocalStep(k, k2, s, es);
    forall r | r in k2.requests && k2.requests[r] == s ensures RequestOk(k2, r) { assert RequestOk(k, r); }
    LocalKeepsInv(cfg, k, k2, s, es);
    if Live(k) {
      forall r | r in k2.requests ensures k2.requests[r] == s ==> LiveRequest(k2, r) { assert LiveRequest(k, r); }
      forall c | c in k2.calls ensures k2.calls[c] == s ==> LiveCall(k2, c) { assert LiveCall(k, c); }
      LocalKeepsLive(k, k2, s, es);
    }
  }

  /** Going Idle with an optional final event, once the turn's own entries are gone. */
  lemma {:induction false} GoIdleKept(cfg: Config, k: Kv, k2: Kv, s: SessionId, es: seq<Event>, t: Turn)
    requires Inv(cfg, k) && !Load(k, s).phase.Idle?
    requires t.requestId == Load(k, s).requestId && t.phase.Idle?
    requires k2 == k.(turns := k.turns[s := t], active := Unregister(k.active, s), log := k.log + es,
                      requests := k.requests - {t.requestId}, calls := k.calls - CallIds(Load(k, s).dispatched))
    requires About(es, s) && SessionOk(cfg, k.nextRequest, t, Hist(k2.log, s))
    ensures Kept(cfg, k, k2)
  {
    assert LocalStep(k, k2, s, es);
    forall r | r in k2.requests && k2.requests[r] == s ensures RequestOk(k2, r) { assert RequestOk(k, r); }
    LocalKeepsInv(cfg, k, k2, s, es);
    if Live(k) {
      forall r | r in k2.requests ensures k2.requests[r] != s { assert LiveRequest(k, r); }
      forall c | c in k2.calls ensures k2.calls[c] != s { assert LiveCall(k, c); }
      LocalKeepsLive(k, k2, s, es);
    }
  }

  /** A refused tool request ends the turn. */
  lemma {:induction false} DispatchFailedKept(cfg: Config, k: Kv, s: SessionId, now: nat)
    requires Inv(cfg, k) && Load(k, s).phase.AwaitingTools? && Hist(k.log, s).finals == 0
    requires Load(k, s).requestId !in k.requests
    ensures var t := Load(k, s);
      Kept(cfg, k, GoIdle(Emit(k.(calls := k.calls - CallIds(t.dispatched)), Notice(s, DISPATCH_TEXT)), s, t, now))
  {
    var t := Load(k, s);
    var e := Notice(s, DISPATCH_TEXT);
    var k2 := GoIdle(Emit(k.(calls := k.calls - CallIds(t.dispatched)), e), s, t, now);
    HistSnoc(k.log, e, s);
    assert SessionOk(cfg, k.nextRequest, t, Hist(k.log, s));
    assert k.requests - {t.requestId} == k.requests;
    GoIdleKept(cfg, k, k2, s, [e], t.(phase := Idle, enteredAt := now));
  }

  lemma {:induction false} DispatchKept(cfg: Config, k: Kv, s: SessionId, t: Turn, w: World)
    requires Inv(cfg, k) && t == Load(k, s).(enteredAt := t.enteredAt) && t.phase.Streaming? && t.pending != []
    requires Hist(k.log, s).last == t.requestId
    ensures Kept(cfg, k, DispatchTools(k.(requests := k.requests - {t.requestId}), s, t, w))
  {
    var k0 := k.(requests := k.requests - {t.requestId});
    AwaitToolsKept(cfg, k, s, t, w.now);
    var k1 := AwaitTools(k0, s, t, w.now);
    var t1 := Load(k1, s);
    assert t1.phase.AwaitingTools? && t1.requestId == t.requestId && t.requestId !in k1.requests;
    var n := if w.dispatchFails.Some? && w.dispatchFails.value < |t1.dispatched| then w.dispatchFails.value else |t1.dispatched|;
    var k2 := k1.(log := k1.log + ToolRequests(s, t1.dispatched, n));
    RequestToolsKept(cfg, k1, s, n);
    assert Load(k2, s) == t1;
    if n < |t1.dispatched| {
      DispatchFailedKept(cfg, k2, s, w.now);
      assert DispatchTools(k0, s, t, w) ==
             GoIdle(Emit(k2.(calls := k2.calls - CallIds(t1.dispatched)), Notice(s, DISPATCH_TEXT)), s, t1, w.now);
    } else {
      assert DispatchTools(k0, s, t, w) == k2;
    }
  }

  /** The reply could not be stored or published: only the entry is gone. */
  lemma {:induction false} DropEntryLive(k: Kv, r: RequestId)
    requires Live(k)
    ensures Live(k.(requests := k.requests - {r}))
  {
    var k2 := k.(requests := k.requests - {r});
    forall q | q in k2.requests ensures LiveRequest(k2, q) { assert LiveRequest(k, q); }
    forall c | c in k2.calls ensures LiveCall(k2, c) { assert LiveCall(k, c); }
  }

  lemma {:induction false} DropEntryKept(cfg: Config, k: Kv, s: SessionId, r: RequestId)
    requires Inv(cfg, k)
    ensures Kept(cfg, k, k.(requests := k.requests - {r}))
  {
    var k2 := k.(requests := k.requests - {r});
    forall q | q in k2.requests ensures RequestOk(k2, q) { assert RequestOk(k, q); }
    if Live(k) { DropEntryLive(k, r); }
  }

  lemma {:induction false} FinishKept(cfg: Config, k: Kv, s: SessionId, t: Turn, now: nat)
    requires Inv(cfg, k) && t == Load(k, s).(enteredAt := t.enteredAt) && t.phase.Streaming?
    requires Hist(k.log, s).last == t.requestId
    ensures var k1 := k.(requests := k.requests - {t.requestId});
      Kept(cfg, k, GoIdle(if t.responseText != "" then Emit(k1, Answer(s, t.requestId, t.responseText)) else k1, s, t, now))
  {
    var k1 := k.(requests := k.requests - {t.requestId});
    var es := if t.responseText != "" then [Answer(s, t.requestId, t.responseText)] else [];
    var k2 := GoIdle(if t.responseText != "" then Emit(k1, es[0]) else k1, s, t, now);
    assert SessionOk(cfg, k.nextRequest, Load(k, s), Hist(k.log, s));
    if es != [] { HistSnoc(k.log, es[0], s); }
    assert k.log + [] == k.log;
    assert k.calls - CallIds(Load(k, s).dispatched) == k.calls;
    GoIdleKept(cfg, k, k2, s, es, t.(phase := Idle, enteredAt := now));
  }

  lemma {:induction false} StreamDoneKept(cfg: Config, k: Kv, s: SessionId, t: Turn, w: World)
    requires Inv(cfg, k) && t == Load(k, s).(enteredAt := t.enteredAt) && t.phase.Streaming?
    requires Hist(k.log, s).last == t.requestId
    ensures Kept(cfg, k, HandleStreamDone(k, s, t, w))
  {
    if t.pending != [] { DispatchKept(cfg, k, s, t, w); }
    else if t.responseText != "" && !(w.fetchOk && w.publishOk) { DropEntryKept(cfg, k, s, t.requestId); }
    else { FinishKept(cfg, k, s, t, w.now); }
  }

  lemma {:induction false} StreamKept(cfg: Config, k: Kv, r: RequestId, e: StreamEvent, w: World)
    requires Inv(cfg, k)
    ensures Kept(cfg, k, HandleLlmStream(cfg, k, r, e, w))
  {
    if r in k.requests {
      var s := k.requests[r];
      var t := Load(k, s);
      assert RequestOk(k, r);
      if TimedOut(cfg, t, w.now) { TimeoutKept(cfg, k, s, w.now); }
      else if t.phase.Streaming? && t.requestId == r {
        var t1 := t.(enteredAt := w.now);
        match e
        case Done => StreamDoneKept(cfg, k, s, t1, w);
        case Error(m) => NoticeAbortKept(cfg, k, s, m, t1, w.now);
        case _ => StreamSaveKept(cfg, k, s, t, r, e, w.publishOk, w.now);
      }
    }
  }

  // ---- Tool results ----

  lemma {:induction false} RecordResultShape(dispatched: seq<ToolCall>, c: CallId, result: string)
    ensures var out := RecordResult(dispatched, c, result);
      && |out| == |dispatched|
      && forall i :: 0 <= i < |out| ==> out[i].id == dispatched[i].id && out[i].turn == dispatched[i].turn
  {
    if dispatched != [] && dispatched[0].id != c { RecordResultShape(dispatched[1..], c, result); }
  }

  lemma {:induction false} SameIds(a: seq<ToolCall>, b: seq<ToolCall>)
    requires |a| == |b| && forall i :: 0 <= i < |a| ==> a[i].id == b[i].id
    ensures CallIds(a) == CallIds(b)
  {
    forall c | c in CallIds(a) ensures c in CallIds(b) { var i :| 0 <= i < |a| && a[i].id == c; assert b[i].id == c; }
    forall c | c in CallIds(b) ensures c in CallIds(a) { var i :| 0 <= i < |b| && b[i].id == c; assert a[i].id == c; }
  }

  lemma {:induction false} NextRoundKept(cfg: Config, k: Kv, s: SessionId, t: Turn, now: nat)
    requires Inv(cfg, k) && Load(k, s).phase.AwaitingTools?
    requires t.requestId == Load(k, s).requestId && CallIds(t.dispatched) == CallIds(Load(k, s).dispatched)
    requires t.iteration == Load(k, s).iteration + 1 < Cap(cfg)
    ensures var k2 := NextRound(k, s, t, now);
      Kept(cfg, k, k2) && Load(k2, s).phase.Streaming? && Load(k2, s).responseText == ""
      && Hist(k2.log, s).requests <= Load(k2, s).iteration
  {
    var k2 := NextRound(k, s, t, now);
    var t0 := Load(k, s);
    assert SessionOk(cfg, k.nextRequest, t0, Hist(k.log, s));
    assert k.log + [] == k.log;
    assert LocalStep(k, k2, s, []);
    forall r | r in k2.requests && k2.requests[r] == s ensures RequestOk(k2, r) { assert RequestOk(k, r); }
    LocalKeepsInv(cfg, k, k2, s, []);
    if Live(k) {
      forall r | r in k2.requests ensures k2.requests[r] != s { assert LiveRequest(k, r); }
      forall c | c in k2.calls ensures k2.calls[c] != s { assert LiveCall(k, c); }
      LocalKeepsLive(k, k2, s, []);
    }
  }

  lemma {:induction false} CapStopKept(cfg: Config, k: Kv, s: SessionId, t: Turn, now: nat)
    requires Inv(cfg, k) && Load(k, s).phase.AwaitingTools?
    requires t.requestId == Load(k, s).requestId && CallIds(t.dispatched) == CallIds(Load(k, s).dispatched)
    ensures Kept(cfg, k, Settle(Emit(k, Notice(s, CAP_TEXT)), s, t, now).(calls := k.calls - CallIds(t.dispatched)))
  {
    var e := Notice(s, CAP_TEXT);
    var k2 := Settle(Emit(k, e), s, t, now).(calls := k.calls - CallIds(t.dispatched));
    HistSnoc(k.log, e, s);
    assert SessionOk(cfg, k.nextRequest, Load(k, s), Hist(k.log, s));
    assert LocalStep(k, k2, s, [e]);
    forall r | r in k2.requests && k2.requests[r] == s ensures RequestOk(k2, r) { assert RequestOk(k, r); }
    LocalKeepsInv(cfg, k, k2, s, [e]);
    if Live(k) {
      forall r | r in k2.requests ensures k2.requests[r] != s { assert LiveRequest(k, r); }
      forall c | c in k2.calls ensures k2.calls[c] != s { assert LiveCall(k, c); }
      LocalKeepsLive(k, k2, s, [e]);
    }
  }

  lemma {:induction false} RecordKept(cfg: Config, k: Kv, s: SessionId, c: CallId, result: string)
    requires Inv(cfg, k) && Load(k, s).phase.AwaitingTools?
    ensures var t1 := Load(k, s).(dispatched := RecordResult(Load(k, s).dispatched, c, result));
      && CallIds(t1.dispatched) == CallIds(Load(k, s).dispatched)
      && (!AllAnswered(t1.dispatched) ==> Kept(cfg, k, Save(k, s, t1)))
  {
    var t := Load(k, s);
    var t1 := t.(dispatched := RecordResult(t.dispatched, c, result));
    assert SessionOk(cfg, k.nextRequest, t, Hist(k.log, s));
    RecordResultShape(t.dispatched, c, result);
    SameIds(t1.dispatched, t.dispatched);
    if !AllAnswered(t1.dispatched) {
      assert Unanswered(t1.dispatched);
      SaveKept(cfg, k, s, t1);
    }
  }

  lemma {:induction false} FinishRoundKept(cfg: Config, k: Kv, s: SessionId, t: Turn, w: World)
    requires Inv(cfg, k) && Load(k, s).phase.AwaitingTools?
    requires t.requestId == Load(k, s).requestId && CallIds(t.dispatched) == CallIds(Load(k, s).dispatched)
    requires t.iteration == Load(k, s).iteration + 1
    ensures Kept(cfg, k, FinishRound(cfg, k, s, t, w))
  {
    if t.iteration >= cfg.maxIterations { CapStopKept(cfg, k, s, t, w.now); }
    else if w.fetchOk {
      var k1 := NextRound(k, s, t, w.now);
      NextRoundKept(cfg, k, s, t, w.now);
      PublishKept(cfg, k1, s, w.selected, w.publishOk, w.now);
      KeptTrans(cfg, k, k1, PublishLlmRequest(k1, s, Load(k1, s), w.selected, w.publishOk, w.now));
    }
  }

  predicate Fresh(cfg: Config, k: Kv, c: CallId, w: World) {
    && c in k.calls && !TimedOut(cfg, Load(k, k.calls[c]), w.now)
    && Load(k, k.calls[c]).phase.AwaitingTools? && !StaleResult(Load(k, k.calls[c]), c)
  }

  function Recorded(k: Kv, c: CallId, result: string): Turn
    requires c in k.calls
  {
    Load(k, k.calls[c]).(dispatched := RecordResult(Load(k, k.calls[c]).dispatched, c, result))
  }

  function Counted(k: Kv, c: CallId, result: string): Turn
    requires c in k.calls
  {
    Recorded(k, c, result).(iteration := Recorded(k, c, result).iteration + 1)
  }

  lemma {:induction false} LastResultIs(cfg: Config, k: Kv, c: CallId, result: string, w: World)
    requires Fresh(cfg, k, c, w) && AllAnswered(Recorded(k, c, result).dispatched)
    ensures HandleToolResult(cfg, k, c, result, w) == FinishRound(cfg, k, k.calls[c], Counted(k, c, result), w)
  {
  }

  lemma {:induction false} CountedIs(cfg: Config, k: Kv, c: CallId, result: string)
    requires c in k.calls && Inv(cfg, k) && Load(k, k.calls[c]).phase.AwaitingTools?
    ensures var t, t1 := Load(k, k.calls[c]), Counted(k, c, result);
      t1.requestId == t.requestId && CallIds(t1.dispatched) == CallIds(t.dispatched) && t1.iteration == t.iteration + 1
  {
    RecordKept(cfg, k, k.calls[c], c, result);
  }

  lemma {:induction false} LastResultKept(cfg: Config, k: Kv, c: CallId, result: string, w: World)
    requires Inv(cfg, k) && Fresh(cfg, k, c, w) && AllAnswered(Recorded(k, c, result).dispatched)
    ensures Kept(cfg, k, HandleToolResult(cfg, k, c, result, w))
  {
    CountedIs(cfg, k, c, result);
    LastResultIs(cfg, k, c, result, w);
    FinishRoundKept(cfg, k, k.calls[c], Counted(k, c, result), w);
  }

  lemma {:induction false} EarlyResultKept(cfg: Config, k: Kv, c: CallId, result: string, w: World)
    requires Inv(cfg, k) && Fresh(cfg, k, c, w) && !AllAnswered(Recorded(k, c, result).dispatched)
    ensures Kept(cfg, k, HandleToolResult(cfg, k, c, result, w))
  {
    RecordKept(cfg, k, k.calls[c], c, result);
    assert HandleToolResult(cfg, k, c, result, w) == Save(k, k.calls[c], Recorded(k, c, result));
  }

  lemma {:induction false} ToolResultKept(cfg: Config, k: Kv, c: CallId, result: string, w: World)
    requires Inv(cfg, k)
    ensures Kept(cfg, k, HandleToolResult(cfg, k, c, result, w))
  {
    if Fresh(cfg, k, c, w) {
      if AllAnswered(Recorded(k, c, result).dispatched) {
        LastResultKept(cfg, k, c, result, w);
      } else {
        EarlyResultKept(cfg, k, c, result, w);
      }
    } else if c in k.calls {
      TimeoutKept(cfg, k, k.calls[c], w.now);
    }
  }

  // ---- Restart and clear ----

  lemma {:induction false} RestartKept(cfg: Config, k: Kv)
    requires Inv(cfg, k)
    ensures Kept(cfg, k, HandleRestart(k))
  {
    var k2 := HandleRestart(k);
    forall s ensures SessionOk(cfg, k2.nextRequest, Load(k2, s), Hist(k2.log, s)) {
      assert SessionOk(cfg, k.nextRequest, Load(k, s), Hist(k.log, s));
    }
  }

  lemma {:induction false} ClearKeepsInv(cfg: Config, k: Kv, s: SessionId, replacement: SessionId)
    requires Inv(cfg, k) && Enabled(k, SessionClear(s, replacement))
    ensures Inv(cfg, HandleSessionClear(k, s, replacement))
  {
    var k2 := HandleSessionClear(k, s, replacement);
    var e := SessionChanged(s, replacement);
    HistSnoc(k.log, e, s);
    assert SessionOk(cfg, k.nextRequest, Load(k, s), Hist(k.log, s));
    assert LocalStep(k, k2, s, [e]);
    forall r | r in k2.requests && k2.requests[r] == s ensures RequestOk(k2, r) { assert RequestOk(k, r); }
    LocalKeepsInv(cfg, k, k2, s, [e]);
  }

  lemma {:induction false} ApplyKept(cfg: Config, k: Kv, a: Action)
    requires Inv(cfg, k)
    ensures Inv(cfg, Apply(cfg, k, a))
    ensures Live(k) && !a.SessionClear? ==> Live(Apply(cfg, k, a))
  {
    if Enabled(k, a) {
      match a
      case UserPrompt(s, text, requested, appendOk, now) => PromptKept(cfg, k, s, text, requested, appendOk, now);
      case Cancel(s, now) => CancelKept(cfg, k, s, now);
      case IdentityResponse(s, prompt, retry, w) => IdentityKept(cfg, k, s, prompt, retry, w.fetchOk, w.selected, w.now);
      case PromptResponse(s, p, tools, retry, w) => PromptResponseKept(cfg, k, s, p, tools, retry, w.selected, w.publishOk, w.now);
      case LlmStream(r, e, w) => StreamKept(cfg, k, r, e, w);
      case ToolResult(c, result, w) => ToolResultKept(cfg, k, c, result, w);
      case WatchdogTick(now) => SweepKept(cfg, k, k.active, now);
      case BusLag(now) => InterruptAllKept(cfg, k, k.active, now);
      case Restart => RestartKept(cfg, k);
      case SessionClear(s, replacement) => ClearKeepsInv(cfg, k, s, replacement);
    }
  }

  lemma {:induction false} RunKept(cfg: Config, k: Kv, acts: seq<Action>)
    requires Inv(cfg, k)
    ensures Inv(cfg, Run(cfg, k, acts))
    ensures Live(k) && (forall i :: 0 <= i < |acts| ==> !acts[i].SessionClear?) ==> Live(Run(cfg, k, acts))
    decreases |acts|
  {
    if acts != [] {
      ApplyKept(cfg, k, acts[0]);
      RunKept(cfg, Apply(cfg, k, acts[0]), acts[1..]);
    }
  }
}
