/**
 The handlers as the capsule runs them: loops and in-place updates of the
 stored turns, the active-session list and the correlation maps. Each is proved
 to compute the step function of the turn machine.
 */
module ReactLoop {
  import opened Prelude
  import opened ReactModel
  import ReactInvariant
  import ReactSteps

  class Capsule {
    const cfg: Config
    var turns: map<SessionId, Turn>
    var active: seq<SessionId>
    var requests: map<RequestId, SessionId>
    var calls: map<CallId, SessionId>
    var nextRequest: RequestId
    var log: seq<Event>

    function State(): Kv
      reads this
    {
      Kv(turns, active, requests, calls, nextRequest, log)
    }

    /** The invariant of the turn machine, on the object. */
    ghost predicate Sound()
      reads this
    {
      ReactInvariant.Inv(cfg, State())
    }

    constructor (config: Config)
      ensures cfg == config && State() == Boot && Sound()
    {
      cfg := config;
      turns, active, requests, calls, nextRequest, log := map[], [], map[], map[], 1, [];
    }

    /** One message of any kind: the handler it goes to makes exactly the
        machine's step, keeps the invariant and, unless the message is a clear,
        leaves no correlation entry stale. */
    method Handle(a: Action)
      requires Sound() && Enabled(State(), a)
      modifies this
      ensures State() == Apply(cfg, old(State()), a) && Sound()
      ensures ReactInvariant.Live(old(State())) && !a.SessionClear? ==> ReactInvariant.Live(State())
    {
      ReactSteps.ApplyKept(cfg, State(), a);
      if a.LlmStream? || a.ToolResult? || a.IdentityResponse? || a.PromptResponse? { HandleReply(a); } else { HandleOther(a); }
    }

    /** Replies from other capsules. */
    method HandleReply(a: Action)
      requires a.LlmStream? || a.ToolResult? || a.IdentityResponse? || a.PromptResponse?
      modifies this
      ensures State() == Apply(cfg, old(State()), a)
    {
      ghost var before := State();
      match a {
        case IdentityResponse(s, prompt, retry, w) =>
          IdentityResponded(s, prompt, retry, w);
          AppliesIdentity(cfg, before, s, prompt, retry, w);
        case PromptResponse(s, p, tools, retry, w) =>
          PromptAssembled(s, p, tools, retry, w);
          AppliesPrompt(cfg, before, s, p, tools, retry, w);
        case LlmStream(r, e, w) =>
          LlmStreamed(r, e, w);
          AppliesStream(cfg, before, r, e, w);
        case ToolResult(c, result, w) =>
          ToolResulted(c, result, w);
          AppliesResult(cfg, before, c, result, w);
      }
    }

    /** Users and the host. */
    method HandleOther(a: Action)
      requires !a.LlmStream? && !a.ToolResult? && !a.IdentityResponse? && !a.PromptResponse? && Enabled(State(), a)
      modifies this
      ensures State() == Apply(cfg, old(State()), a)
    {
      match a {
        case UserPrompt(s, text, requested, appendOk, now) => UserPrompted(s, text, requested, appendOk, now);
        case Cancel(s, now) => CancelTurn(s, now);
        case WatchdogTick(now) => WatchdogTick(now);
        case BusLag(now) => BusLagged(now);
        case Restart => LifecycleRestart();
        case SessionClear(s, replacement) => SessionCleared(s, replacement);
      }
    }

    method Publish(e: Event)
      modifies this`log
      ensures log == old(log) + [e]
    {
      log := log + [e];
    }

    method LoadTurn(s: SessionId) returns (t: Turn)
      ensures t == Load(State(), s)
    {
      if s in turns { t := turns[s]; } else { t := DefaultTurn; }
    }

    method SaveTurn(s: SessionId, t: Turn)
      modifies this`turns
      ensures turns == old(turns)[s := t]
    {
      turns := turns[s := t];
    }

    /** `position(..)` over the list: the first match, or the length. */
    method Position(s: SessionId) returns (pos: nat)
      ensures pos <= |active| && s !in active[..pos]
      ensures pos < |active| ==> active[pos] == s
    {
      pos := 0;
      while pos < |active| && active[pos] != s
        invariant pos <= |active| && s !in active[..pos]
      {
        pos := pos + 1;
      }
    }

    method RegisterActive(s: SessionId)
      modifies this`active
      ensures active == Register(old(active), s)
    {
      var pos := Position(s);
      if pos == |active| { active := active + [s]; }
    }

    method UnregisterActive(s: SessionId)
      modifies this`active
      ensures active == Unregister(old(active), s)
    {
      var pos := Position(s);
      if pos < |active| {
        FirstIsUnique(active, s, pos);
        active := active[pos := active[|active| - 1]][..|active| - 1];
      }
    }

    method DeleteRequestSession(r: RequestId)
      modifies this`requests
      ensures requests == old(requests) - {r}
    {
      requests := requests - {r};
    }

    method DeleteCallSessions(dispatched: seq<ToolCall>)
      modifies this`calls
      ensures calls == old(calls) - CallIds(dispatched)
    {
      var i := 0;
      while i < |dispatched|
        invariant 0 <= i <= |dispatched|
        invariant calls == old(calls) - CallIds(dispatched[..i])
      {
        CallIdsSnoc(dispatched, i);
        calls := calls - {dispatched[i].id};
        i := i + 1;
      }
      assert dispatched[..i] == dispatched;
    }

    method StoreCallSessions(dispatched: seq<ToolCall>, s: SessionId)
      modifies this`calls
      ensures calls == old(calls) + (map c | c in CallIds(dispatched) :: s)
    {
      var i := 0;
      while i < |dispatched|
        invariant 0 <= i <= |dispatched|
        invariant calls == old(calls) + (map c | c in CallIds(dispatched[..i]) :: s)
      {
        CallIdsSnoc(dispatched, i);
        calls := calls[dispatched[i].id := s];
        i := i + 1;
      }
      assert dispatched[..i] == dispatched;
    }

    method CleanupInflightMappings(t: Turn)
      modifies this`requests, this`calls
      ensures State() == CleanMappings(old(State()), t)
    {
      if t.requestId != 0 { DeleteRequestSession(t.requestId); }
      if t.dispatched != [] { DeleteCallSessions(t.dispatched); }
      assert old(calls) - {} == old(calls);
    }

    method FreshRequest() returns (r: RequestId)
      modifies this`nextRequest
      ensures r == old(nextRequest) && nextRequest == r + 1
    {
      r := nextRequest;
      nextRequest := nextRequest + 1;
    }

    /** reset_conversation_turn, set_phase(Idle), save. */
    method SettleTurn(s: SessionId, turn: Turn, now: nat)
      modifies this
      ensures State() == Settle(old(State()), s, turn, now)
    {
      var t := turn.(responseText := "", pending := [], dispatched := []);
      var r := FreshRequest();
      t := t.(requestId := r);
      t := t.(tools := [], iteration := 0, modelOverride := None);
      t := t.(phase := Idle, enteredAt := now);
      UnregisterActive(s);
      SaveTurn(s, t);
    }

    method CheckTimeoutWithCleanup(s: SessionId, now: nat) returns (fired: bool)
      modifies this
      ensures State() == CheckTimeout(cfg, old(State()), s, now)
      ensures fired == TimedOut(cfg, Load(old(State()), s), now)
    {
      var t := LoadTurn(s);
      if t.phase == Idle { return false; }
      if now == 0 || t.enteredAt == 0 { return false; }
      var elapsed := SatSub(now, t.enteredAt) / 1000;
      if elapsed < PhaseLimit(cfg, t.phase) { return false; }
      Publish(Notice(s, TIMEOUT_TEXT));
      SettleTurn(s, t, now);
      if t.requestId != 0 { DeleteRequestSession(t.requestId); }
      DeleteCallSessions(t.dispatched);
      fired := true;
    }

    method WatchdogTick(now: nat)
      modifies this
      ensures State() == HandleWatchdogTick(cfg, old(State()), now)
    {
      var sessions := active;
      var i := 0;
      while i < |sessions|
        invariant 0 <= i <= |sessions|
        invariant Sweep(cfg, State(), sessions[i..], now) == Sweep(cfg, old(State()), sessions, now)
      {
        assert sessions[i..][0] == sessions[i] && sessions[i..][1..] == sessions[i + 1..];
        var _ := CheckTimeoutWithCleanup(sessions[i], now);
        i := i + 1;
      }
    }

    method BusLagged(now: nat)
      modifies this
      ensures State() == HandleBusLag(old(State()), now)
    {
      var sessions := active;
      var i := 0;
      while i < |sessions|
        invariant 0 <= i <= |sessions|
        invariant InterruptAll(State(), sessions[i..], now) == InterruptAll(old(State()), sessions, now)
      {
        assert sessions[i..][0] == sessions[i] && sessions[i..][1..] == sessions[i + 1..];
        ghost var before := State();
        var t := LoadTurn(sessions[i]);
        if t.phase == Streaming || t.phase == AwaitingTools {
          Publish(Notice(sessions[i], LAG_TEXT));
          CleanupInflightMappings(t);
          SettleTurn(sessions[i], t, now);
        }
        assert State() == Interrupt(before, sessions[i], now);
        i := i + 1;
      }
    }

    method CancelTurn(s: SessionId, now: nat)
      modifies this
      ensures State() == HandleCancel(old(State()), s, now)
    {
      var t := LoadTurn(s);
      if t.phase == Idle { return; }
      if t.phase == AwaitingTools && t.dispatched != [] { Publish(ToolCancel(s, Ids(t.dispatched))); }
      CleanupInflightMappings(t);
      SettleTurn(s, t, now);
    }

    method LifecycleRestart()
      modifies this
      ensures State() == HandleRestart(old(State()))
    {
      turns := map[];
      requests := map[];
      calls := map[];
      active := [];
    }

    method SessionCleared(s: SessionId, replacement: SessionId)
      modifies this
      ensures State() == HandleSessionClear(old(State()), s, replacement)
    {
      turns := turns - {s};
      UnregisterActive(s);
      SaveTurn(replacement, DefaultTurn);
      Publish(SessionChanged(s, replacement));
    }

    method UserPrompted(s: SessionId, text: string, requested: Option<string>, appendOk: bool, now: nat)
      modifies this
      ensures State() == HandleUserPrompt(old(State()), s, text, requested, appendOk, now)
    {
      if IsBlank(text) { return; }
      var t := LoadTurn(s);
      if !appendOk { return; }
      if t.phase != Idle { CleanupInflightMappings(t); }
      var r := FreshRequest();
      t := ResetConversation(t, r);
      t := t.(modelOverride := if Usable(requested) then requested else None);
      t := t.(phase := AwaitingIdentity, enteredAt := now);
      RegisterActive(s);
      SaveTurn(s, t);
      Publish(Prompt(s));
      Publish(IdentityRequest(s));
    }

    /** Returns true when the caller must stop. */
    method RedriveIfUnready(expected: Phase, actual: Phase, topic: string, s: SessionId, retry: nat) returns (stop: bool)
      modifies this`log
      ensures stop == (actual != expected)
      ensures State() == if stop then Redrive(old(State()), actual, topic, s, retry) else old(State())
    {
      if actual == expected { return false; }
      if actual == Idle && retry < MAX_REDRIVE_RETRIES { Publish(Redriven(s, topic, retry + 1)); }
      stop := true;
    }

    method FailNoModelSelected(s: SessionId, t: Turn, now: nat)
      modifies this
      ensures State() == FailNoModel(old(State()), s, t, now)
    {
      Publish(Notice(s, NO_MODEL_TEXT));
      CleanupInflightMappings(t);
      SettleTurn(s, t, now);
    }

    method IdentityResponded(s: SessionId, prompt: string, retry: nat, w: World)
      modifies this
      ensures State() == HandleIdentityResponse(cfg, old(State()), s, prompt, retry, w.fetchOk, w.selected, w.now)
    {
      var t := LoadTurn(s);
      var fired := CheckTimeoutWithCleanup(s, w.now);
      if fired { return; }
      var stop := RedriveIfUnready(AwaitingIdentity, t.phase, IDENTITY_TOPIC, s, retry);
      if stop { return; }
      t := t.(systemPrompt := prompt);
      t := t.(phase := AwaitingPromptBuild, enteredAt := w.now);
      if !w.fetchOk { return; }
      SaveTurn(s, t);
      var model := ResolveModel(t.modelOverride, w.selected);
      if model.None? { FailNoModelSelected(s, t, w.now); }
      else { Publish(Assemble(s, model.value, prompt)); }
    }

    method RequestCompletion(s: SessionId, t: Turn, w: World)
      modifies this
      ensures State() == PublishLlmRequest(old(State()), s, t, w.selected, w.publishOk, w.now)
    {
      var model := ResolveModel(t.modelOverride, w.selected);
      if model.None? { FailNoModelSelected(s, t, w.now); return; }
      requests := requests[t.requestId := s];
      if w.publishOk { Publish(LlmRequest(s, t.requestId, model.value, t.systemPrompt, t.tools)); }
      else {
        DeleteRequestSession(t.requestId);
        assert old(requests)[t.requestId := s] - {t.requestId} == old(requests) - {t.requestId};
      }
    }

    method PromptAssembled(s: SessionId, prompt: Option<string>, tools: seq<string>, retry: nat, w: World)
      modifies this
      ensures State() == HandlePromptResponse(cfg, old(State()), s, prompt, tools, retry, w.selected, w.publishOk, w.now)
    {
      var t := LoadTurn(s);
      var fired := CheckTimeoutWithCleanup(s, w.now);
      if fired { return; }
      var stop := RedriveIfUnready(AwaitingPromptBuild, t.phase, PROMPT_TOPIC, s, retry);
      if stop { return; }
      if prompt.Some? { t := t.(systemPrompt := prompt.value); }
      t := t.(tools := tools);
      t := t.(phase := Streaming, enteredAt := w.now);
      SaveTurn(s, t);
      RequestCompletion(s, t, w);
    }

    method StreamDone(s: SessionId, turn: Turn, w: World)
      modifies this
      ensures State() == HandleStreamDone(old(State()), s, turn, w)
    {
      DeleteRequestSession(turn.requestId);
      if turn.pending != [] {
        DispatchPending(s, turn, w);
      } else if turn.responseText != "" {
        if !w.fetchOk || !w.publishOk { return; }
        Publish(Answer(s, turn.requestId, turn.responseText));
        UnregisterActive(s);
        SaveTurn(s, turn.(phase := Idle, enteredAt := w.now));
      } else {
        UnregisterActive(s);
        SaveTurn(s, turn.(phase := Idle, enteredAt := w.now));
      }
    }

    /** Two-phase tool dispatch: park the turn first, then publish one request
        per call until one is refused. */
    method DispatchPending(s: SessionId, turn: Turn, w: World)
      modifies this
      ensures State() == DispatchTools(old(State()), s, turn, w)
    {
      var dispatched: seq<ToolCall> := [];
      var i := 0;
      while i < |turn.pending|
        invariant 0 <= i <= |turn.pending| && dispatched == DispatchAll(turn.pending, turn.requestId)[..i]
        invariant State() == old(State())
      {
        var p := turn.pending[i];
        dispatched := dispatched + [ToolCall(p.id, p.name, p.args, None, turn.requestId)];
        i := i + 1;
      }
      assert dispatched == DispatchAll(turn.pending, turn.requestId);
      StoreCallSessions(dispatched, s);
      var t := turn.(dispatched := dispatched, pending := []);
      t := t.(phase := AwaitingTools, enteredAt := w.now);
      SaveTurn(s, t);
      Publish(Round(s, turn.requestId));
      ghost var parked := State();
      assert parked == AwaitTools(old(State()), s, turn, w.now);
      var j := 0;
      while j < |dispatched|
        invariant 0 <= j <= |dispatched|
        invariant w.dispatchFails.Some? && w.dispatchFails.value < |dispatched| ==> j <= w.dispatchFails.value
        invariant State() == parked.(log := parked.log + ToolRequests(s, dispatched, j))
      {
        if w.dispatchFails == Some(j) {
          DeleteCallSessions(dispatched);
          Publish(Notice(s, DISPATCH_TEXT));
          UnregisterActive(s);
          SaveTurn(s, t.(phase := Idle, enteredAt := w.now));
          return;
        }
        var e := ToolRequest(s, dispatched[j].turn, dispatched[j].id, dispatched[j].name, dispatched[j].args);
        assert ToolRequests(s, dispatched, j + 1) == ToolRequests(s, dispatched, j) + [e];
        Publish(e);
        j := j + 1;
      }
    }

    method LlmStreamed(r: RequestId, e: StreamEvent, w: World)
      modifies this
      ensures State() == HandleLlmStream(cfg, old(State()), r, e, w)
    {
      if r !in requests { return; }
      var s := requests[r];
      var t := LoadTurn(s);
      var fired := CheckTimeoutWithCleanup(s, w.now);
      if fired { return; }
      if t.phase != Streaming || t.requestId != r { return; }
      t := t.(enteredAt := w.now);
      match e {
        case TextDelta(text) =>
          t := t.(responseText := t.responseText + text);
          SaveTurn(s, t);
          if text != "" {
            if w.publishOk { Publish(Delta(s, r, text)); } else { Publish(Refused(s, r, text)); }
          }
        case ToolCallStart(id, name) =>
          SaveTurn(s, t.(pending := t.pending + [PendingTool(id, name, "", false)]));
        case ToolCallDelta(id, args) =>
          var pending := AmendFirst(t.pending, id, args, false);
          SaveTurn(s, t.(pending := pending));
        case ToolCallEnd(id) =>
          var pending := AmendFirst(t.pending, id, "", true);
          SaveTurn(s, t.(pending := pending));
        case Done =>
          StreamDone(s, t, w);
        case Error(message) =>
          Publish(Notice(s, message));
          CleanupInflightMappings(t);
          SettleTurn(s, t, w.now);
        case Informational =>
          SaveTurn(s, t);
      }
    }

    /** The round is answered and counted: stop at the cap, or ask the model again. */
    method RoundFinished(s: SessionId, turn: Turn, w: World)
      modifies this
      ensures State() == FinishRound(cfg, old(State()), s, turn, w)
    {
      if turn.iteration >= cfg.maxIterations {
        Publish(Notice(s, CAP_TEXT));
        SettleTurn(s, turn, w.now);
        DeleteCallSessions(turn.dispatched);
        return;
      }
      if !w.fetchOk { return; }
      var t := turn.(responseText := "", pending := [], dispatched := []);
      var r := FreshRequest();
      t := t.(requestId := r);
      t := t.(phase := Streaming, enteredAt := w.now);
      SaveTurn(s, t);
      DeleteCallSessions(turn.dispatched);
      assert State() == NextRound(old(State()), s, turn, w.now);
      RequestCompletion(s, t, w);
    }

    method ToolResulted(c: CallId, result: string, w: World)
      modifies this
      ensures State() == HandleToolResult(cfg, old(State()), c, result, w)
    {
      if c !in calls { return; }
      var s := calls[c];
      var t := LoadTurn(s);
      var fired := CheckTimeoutWithCleanup(s, w.now);
      if fired { return; }
      if t.phase != AwaitingTools { return; }
      var stale, dispatched := RecordFirst(t, c, result);
      if stale { return; }
      t := t.(dispatched := dispatched);
      var allDone := EveryAnswered(t.dispatched);
      if !allDone { SaveTurn(s, t); return; }
      t := t.(iteration := t.iteration + 1);
      RoundFinished(s, t, w);
    }
  }

  lemma {:induction false} AppliesIdentity(cfg: Config, k: Kv, s: SessionId, prompt: string, retry: nat, w: World)
    ensures Apply(cfg, k, IdentityResponse(s, prompt, retry, w)) == HandleIdentityResponse(cfg, k, s, prompt, retry, w.fetchOk, w.selected, w.now)
  {
  }

  lemma {:induction false} AppliesPrompt(cfg: Config, k: Kv, s: SessionId, p: Option<string>, tools: seq<string>, retry: nat, w: World)
    ensures Apply(cfg, k, PromptResponse(s, p, tools, retry, w)) == HandlePromptResponse(cfg, k, s, p, tools, retry, w.selected, w.publishOk, w.now)
  {
  }

  lemma {:induction false} AppliesStream(cfg: Config, k: Kv, r: RequestId, e: StreamEvent, w: World)
    ensures Apply(cfg, k, LlmStream(r, e, w)) == HandleLlmStream(cfg, k, r, e, w)
  {
  }

  lemma {:induction false} AppliesResult(cfg: Config, k: Kv, c: CallId, result: string, w: World)
    ensures Apply(cfg, k, ToolResult(c, result, w)) == HandleToolResult(cfg, k, c, result, w)
  {
  }

  /** Fill in the first dispatched call with this id, unless it is left over
      from an earlier request. */
  method RecordFirst(t: Turn, c: CallId, result: string) returns (stale: bool, dispatched: seq<ToolCall>)
    ensures stale == StaleResult(t, c)
    ensures !stale ==> dispatched == RecordResult(t.dispatched, c, result)
  {
    var pos := FindCall(t.dispatched, c);
    if pos == |t.dispatched| { return false, t.dispatched; }
    var tc := t.dispatched[pos];
    if tc.turn != 0 && tc.turn != t.requestId { return true, t.dispatched; }
    return false, t.dispatched[pos := tc.(result := Some(result))];
  }

  method EveryAnswered(dispatched: seq<ToolCall>) returns (all: bool)
    ensures all == AllAnswered(dispatched)
  {
    all := dispatched != [];
    var i := 0;
    while i < |dispatched|
      invariant 0 <= i <= |dispatched|
      invariant all <==> dispatched != [] && forall j :: 0 <= j < i ==> dispatched[j].result.Some?
    {
      if dispatched[i].result.None? { all := false; }
      i := i + 1;
    }
  }

  lemma {:induction false} CallIdsSnoc(dispatched: seq<ToolCall>, i: nat)
    requires i < |dispatched|
    ensures CallIds(dispatched[..i + 1]) == CallIds(dispatched[..i]) + {dispatched[i].id}
  {
    var a, b := dispatched[..i], dispatched[..i + 1];
    forall c | c in CallIds(b) ensures c in CallIds(a) + {dispatched[i].id} {
      var j :| 0 <= j < |b| && b[j].id == c;
      if j < i { assert a[j].id == c; }
    }
    forall c | c in CallIds(a) ensures c in CallIds(b) {
      var j :| 0 <= j < |a| && a[j].id == c;
      assert b[j].id == c;
    }
    assert b[i].id in CallIds(b);
  }

  lemma {:induction false} FirstIsUnique(xs: seq<SessionId>, s: SessionId, pos: nat)
    requires pos < |xs| && xs[pos] == s && s !in xs[..pos]
    ensures IndexOf(xs, s) == pos
  {
    var i := IndexOf(xs, s);
    assert forall j :: 0 <= j < pos ==> xs[j] != s by { assert forall j :: 0 <= j < pos ==> xs[..pos][j] == xs[j]; }
    assert forall j :: 0 <= j < i ==> xs[j] != s by { assert forall j :: 0 <= j < i ==> xs[..i][j] == xs[j]; }
  }

  /** The first match, or none at all. */
  lemma {:induction false} UpdateFirstAt(pending: seq<PendingTool>, id: CallId, args: string, complete: bool, i: nat)
    requires i <= |pending| && (forall j :: 0 <= j < i ==> pending[j].id != id) && (i < |pending| ==> pending[i].id == id)
    ensures UpdateFirst(pending, id, args, complete) ==
      if i == |pending| then pending
      else pending[i := pending[i].(args := pending[i].args + args, complete := pending[i].complete || complete)]
    decreases i
  {
    if i > 0 { UpdateFirstAt(pending[1..], id, args, complete, i - 1); }
  }

  /** `iter_mut().find(..)` and amend: in place on the first match. */
  method AmendFirst(pending: seq<PendingTool>, id: CallId, args: string, complete: bool) returns (out: seq<PendingTool>)
    ensures out == UpdateFirst(pending, id, args, complete)
  {
    var i := 0;
    while i < |pending| && pending[i].id != id
      invariant 0 <= i <= |pending| && forall j :: 0 <= j < i ==> pending[j].id != id
    {
      i := i + 1;
    }
    UpdateFirstAt(pending, id, args, complete, i);
    out := pending;
    if i < |pending| {
      var p := pending[i];
      out := pending[i := p.(args := p.args + args, complete := p.complete || complete)];
    }
  }

  method FindCall(dispatched: seq<ToolCall>, c: CallId) returns (pos: nat)
    ensures pos <= |dispatched|
    ensures FirstCall(dispatched, c) == if pos < |dispatched| then Some(dispatched[pos]) else None
    ensures forall result :: RecordResult(dispatched, c, result) ==
              if pos < |dispatched| then dispatched[pos := dispatched[pos].(result := Some(result))] else dispatched
  {
    pos := 0;
    while pos < |dispatched| && dispatched[pos].id != c
      invariant pos <= |dispatched|
      invariant FirstCall(dispatched, c) == FirstCall(dispatched[pos..], c)
      invariant forall result :: RecordResult(dispatched, c, result) == dispatched[..pos] + RecordResult(dispatched[pos..], c, result)
    {
      assert dispatched[pos..][1..] == dispatched[pos + 1..];
      pos := pos + 1;
    }
    if pos < |dispatched| { assert dispatched[pos..][1..] == dispatched[pos + 1..]; }
  }
}
