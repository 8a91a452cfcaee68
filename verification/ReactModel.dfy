/**
 The turn machine of the react capsule as functions on its stored state: one
 function per handler, each a single atomic step. `log` is the sequence of
 publications the capsule has attempted; for streamed text, tool requests, LLM
 requests and answers it says which the bus took.
 */
module ReactModel {
  import opened Prelude

  type SessionId = string
  type CallId = string
  type RequestId = nat     // 0 is the nil id; fresh ids are never reused

  const MAX_REDRIVE_RETRIES: nat := 20

  datatype Phase = Idle | AwaitingIdentity | AwaitingPromptBuild | Streaming | AwaitingTools

  datatype PendingTool = PendingTool(id: CallId, name: string, args: string, complete: bool)

  datatype ToolCall = ToolCall(id: CallId, name: string, args: string, result: Option<string>, turn: RequestId)

  datatype Turn = Turn(
    phase: Phase,
    systemPrompt: string,
    requestId: RequestId,
    responseText: string,
    pending: seq<PendingTool>,
    dispatched: seq<ToolCall>,
    tools: seq<string>,
    iteration: nat,
    enteredAt: nat,
    modelOverride: Option<string>)

  const DefaultTurn: Turn := Turn(Idle, "", 0, "", [], [], [], 0, 0, None)

  datatype Event =
    | Prompt(session: SessionId)
    | IdentityRequest(session: SessionId)
    | Assemble(session: SessionId, model: string, prompt: string)
    | LlmRequest(session: SessionId, request: RequestId, model: string, prompt: string, tools: seq<string>)
    | Delta(session: SessionId, request: RequestId, text: string)    // a streamed text the bus has taken
    | Refused(session: SessionId, request: RequestId, text: string)  // one it refused, which the capsule only logs
    | Answer(session: SessionId, request: RequestId, text: string)   // final response: the model's text
    | Notice(session: SessionId, text: string)                       // final response: why the turn ended
    | Round(session: SessionId, request: RequestId)                  // a tool-dispatch round starts
    | ToolRequest(session: SessionId, request: RequestId, call: CallId, name: string, args: string)
    | ToolCancel(session: SessionId, calls: seq<CallId>)
    | Redriven(session: SessionId, topic: string, retry: nat)
    | SessionChanged(session: SessionId, replacement: SessionId)

  datatype Kv = Kv(
    turns: map<SessionId, Turn>,
    active: seq<SessionId>,
    requests: map<RequestId, SessionId>,
    calls: map<CallId, SessionId>,
    nextRequest: RequestId,
    log: seq<Event>)

  const Boot: Kv := Kv(map[], [], map[], map[], 1, [])

  datatype Config = Config(maxIterations: nat, identityTimeout: nat, streamingTimeout: nat, toolTimeout: nat)

  // ---- Stored state ----

  function Load(k: Kv, s: SessionId): Turn { if s in k.turns then k.turns[s] else DefaultTurn }

  function Save(k: Kv, s: SessionId, t: Turn): Kv { k.(turns := k.turns[s := t]) }

  function Emit(k: Kv, e: Event): Kv { k.(log := k.log + [e]) }

  function Register(active: seq<SessionId>, s: SessionId): seq<SessionId> {
    if s in active then active else active + [s]
  }

  function IndexOf(xs: seq<SessionId>, s: SessionId): (i: nat)
    requires s in xs
    ensures i < |xs| && xs[i] == s && s !in xs[..i]
  {
    if xs[0] == s then 0 else 1 + IndexOf(xs[1..], s)
  }

  /** `swap_remove` of the first occurrence. */
  function Unregister(active: seq<SessionId>, s: SessionId): seq<SessionId> {
    if s in active
    then active[IndexOf(active, s) := active[|active| - 1]][..|active| - 1]
    else active
  }

  function CallIds(dispatched: seq<ToolCall>): set<CallId> {
    set i | 0 <= i < |dispatched| :: dispatched[i].id
  }

  /** `cleanup_inflight_mappings`. */
  function CleanMappings(k: Kv, t: Turn): Kv {
    k.(requests := if t.requestId != 0 then k.requests - {t.requestId} else k.requests,
       calls := k.calls - CallIds(t.dispatched))
  }

  function ResetTurn(t: Turn, id: RequestId): Turn {
    t.(responseText := "", pending := [], dispatched := [], requestId := id)
  }

  function ResetConversation(t: Turn, id: RequestId): Turn {
    ResetTurn(t, id).(tools := [], iteration := 0, modelOverride := None)
  }

  /** Reset the conversation turn, go Idle (leaving the active list) and save. */
  function Settle(k: Kv, s: SessionId, t: Turn, now: nat): Kv {
    Save(k, s, ResetConversation(t, k.nextRequest).(phase := Idle, enteredAt := now)).(
      active := Unregister(k.active, s), nextRequest := k.nextRequest + 1)
  }

  /** The terminal teardown every failure path uses. */
  function Abort(k: Kv, s: SessionId, t: Turn, now: nat): Kv { Settle(CleanMappings(k, t), s, t, now) }

  // ---- Timeouts ----

  function PhaseLimit(cfg: Config, p: Phase): nat {
    match p
    case Streaming => cfg.streamingTimeout
    case AwaitingTools => cfg.toolTimeout
    case _ => cfg.identityTimeout
  }

  predicate TimedOut(cfg: Config, t: Turn, now: nat) {
    && t.phase != Idle && now != 0 && t.enteredAt != 0
    && SatSub(now, t.enteredAt) / 1000 >= PhaseLimit(cfg, t.phase)
  }

  const TIMEOUT_TEXT := "Request timed out"

  function CheckTimeout(cfg: Config, k: Kv, s: SessionId, now: nat): Kv {
    if TimedOut(cfg, Load(k, s), now) then Abort(Emit(k, Notice(s, TIMEOUT_TEXT)), s, Load(k, s), now) else k
  }

  function Sweep(cfg: Config, k: Kv, sessions: seq<SessionId>, now: nat): Kv
    decreases |sessions|
  {
    if sessions == [] then k else Sweep(cfg, CheckTimeout(cfg, k, sessions[0], now), sessions[1..], now)
  }

  function HandleWatchdogTick(cfg: Config, k: Kv, now: nat): Kv { Sweep(cfg, k, k.active, now) }

  // ---- Bus lag, cancel, restart, clear ----

  const LAG_TEXT := "Response interrupted"

  function Interrupt(k: Kv, s: SessionId, now: nat): Kv {
    var t := Load(k, s);
    if t.phase.Streaming? || t.phase.AwaitingTools? then Abort(Emit(k, Notice(s, LAG_TEXT)), s, t, now) else k
  }

  function InterruptAll(k: Kv, sessions: seq<SessionId>, now: nat): Kv
    decreases |sessions|
  {
    if sessions == [] then k else InterruptAll(Interrupt(k, sessions[0], now), sessions[1..], now)
  }

  function HandleBusLag(k: Kv, now: nat): Kv { InterruptAll(k, k.active, now) }

  function Ids(dispatched: seq<ToolCall>): seq<CallId> {
    seq(|dispatched|, i requires 0 <= i < |dispatched| => dispatched[i].id)
  }

  function HandleCancel(k: Kv, s: SessionId, now: nat): Kv {
    var t := Load(k, s);
    if t.phase.Idle? then k
    else
      var k1 := if t.phase.AwaitingTools? && t.dispatched != [] then Emit(k, ToolCancel(s, Ids(t.dispatched))) else k;
      Abort(k1, s, t, now)
  }

  function HandleRestart(k: Kv): Kv {
    k.(turns := map[], requests := map[], calls := map[], active := [])
  }

  /** `replacement` is the session id the session capsule minted. */
  function HandleSessionClear(k: Kv, s: SessionId, replacement: SessionId): Kv {
    Emit(k.(turns := (k.turns - {s})[replacement := DefaultTurn], active := Unregister(k.active, s)),
         SessionChanged(s, replacement))
  }

  // ---- The turn ----

  function Usable(model: Option<string>): bool { model.Some? && !IsBlank(model.value) }

  function ResolveModel(requested: Option<string>, selected: Option<string>): Option<string> {
    if Usable(requested) then requested else if Usable(selected) then selected else None
  }

  const NO_MODEL_TEXT := "No LLM model is selected"

  function HandleUserPrompt(k: Kv, s: SessionId, text: string, requested: Option<string>, appendOk: bool, now: nat): Kv {
    if IsBlank(text) || !appendOk then k
    else
      var t := Load(k, s);
      var k1 := if t.phase.Idle? then k else CleanMappings(k, t);
      var t1 := ResetConversation(t, k.nextRequest).(
        modelOverride := if Usable(requested) then requested else None,
        phase := AwaitingIdentity, enteredAt := now);
      var k2 := Save(k1, s, t1).(active := Register(k.active, s), nextRequest := k.nextRequest + 1);
      Emit(Emit(k2, Prompt(s)), IdentityRequest(s))
  }

  /** `redrive_if_unready` when the phase is not the expected one. */
  function Redrive(k: Kv, actual: Phase, topic: string, s: SessionId, retry: nat): Kv {
    if actual.Idle? && retry < MAX_REDRIVE_RETRIES then Emit(k, Redriven(s, topic, retry + 1)) else k
  }

  const IDENTITY_TOPIC := "spark.v1.response.ready"
  const PROMPT_TOPIC := "prompt_builder.v1.response.assemble"

  function FailNoModel(k: Kv, s: SessionId, t: Turn, now: nat): Kv {
    Abort(Emit(k, Notice(s, NO_MODEL_TEXT)), s, t, now)
  }

  function HandleIdentityResponse(cfg: Config, k: Kv, s: SessionId, prompt: string, retry: nat,
                                  fetchOk: bool, selected: Option<string>, now: nat): Kv
  {
    var t := Load(k, s);
    if TimedOut(cfg, t, now) then CheckTimeout(cfg, k, s, now)
    else if !t.phase.AwaitingIdentity? then Redrive(k, t.phase, IDENTITY_TOPIC, s, retry)
    else if !fetchOk then k
    else
      var t1 := t.(systemPrompt := prompt, phase := AwaitingPromptBuild, enteredAt := now);
      var k1 := Save(k, s, t1);
      match ResolveModel(t1.modelOverride, selected)
      case None => FailNoModel(k1, s, t1, now)
      case Some(m) => Emit(k1, Assemble(s, m, prompt))
  }

  function PublishLlmRequest(k: Kv, s: SessionId, t: Turn, selected: Option<string>, publishOk: bool, now: nat): Kv {
    match ResolveModel(t.modelOverride, selected)
    case None => FailNoModel(k, s, t, now)
    case Some(m) =>
      if publishOk then Emit(k.(requests := k.requests[t.requestId := s]), LlmRequest(s, t.requestId, m, t.systemPrompt, t.tools))
      else k.(requests := k.requests - {t.requestId})
  }

  /** The prompt builder's reply puts the turn into Streaming. */
  function StartStreaming(k: Kv, s: SessionId, prompt: Option<string>, tools: seq<string>, now: nat): Kv {
    var t := Load(k, s);
    Save(k, s, t.(systemPrompt := if prompt.Some? then prompt.value else t.systemPrompt,
                  tools := tools, phase := Streaming, enteredAt := now))
  }

  function HandlePromptResponse(cfg: Config, k: Kv, s: SessionId, prompt: Option<string>, tools: seq<string>,
                                retry: nat, selected: Option<string>, publishOk: bool, now: nat): Kv
  {
    var t := Load(k, s);
    if TimedOut(cfg, t, now) then CheckTimeout(cfg, k, s, now)
    else if !t.phase.AwaitingPromptBuild? then Redrive(k, t.phase, PROMPT_TOPIC, s, retry)
    else
      var k1 := StartStreaming(k, s, prompt, tools, now);
      PublishLlmRequest(k1, s, Load(k1, s), selected, publishOk, now)
  }

  // ---- Streaming ----

  datatype StreamEvent =
    | TextDelta(text: string)
    | ToolCallStart(id: CallId, name: string)
    | ToolCallDelta(id: CallId, args: string)
    | ToolCallEnd(id: CallId)
    | Done
    | Error(message: string)
    | Informational

  /** What the bus and the session capsule do during one handler call:
      `dispatchFails` is the position of the first refused tool request. */
  datatype World = World(now: nat, fetchOk: bool, publishOk: bool, dispatchFails: Option<nat>, selected: Option<string>)

  function UpdateFirst(pending: seq<PendingTool>, id: CallId, args: string, complete: bool): seq<PendingTool> {
    if pending == [] then []
    else if pending[0].id == id then
      [pending[0].(args := pending[0].args + args, complete := pending[0].complete || complete)] + pending[1..]
    else [pending[0]] + UpdateFirst(pending[1..], id, args, complete)
  }

  /** How a streamed event changes the accumulators of a turn. */
  function Accumulate(t: Turn, e: StreamEvent): Turn {
    match e
    case TextDelta(text) => t.(responseText := t.responseText + text)
    case ToolCallStart(id, name) => t.(pending := t.pending + [PendingTool(id, name, "", false)])
    case ToolCallDelta(id, args) => t.(pending := UpdateFirst(t.pending, id, args, false))
    case ToolCallEnd(id) => t.(pending := UpdateFirst(t.pending, id, "", true))
    case _ => t
  }

  /** react's accumulation of the pending calls over a stream of events. */
  function Pending(events: seq<StreamEvent>): seq<PendingTool> {
    if events == [] then []
    else Accumulate(DefaultTurn.(pending := Pending(events[..|events| - 1])), events[|events| - 1]).pending
  }

  lemma {:induction false} PendingSnoc(events: seq<StreamEvent>, e: StreamEvent)
    ensures Pending(events + [e]) == Accumulate(DefaultTurn.(pending := Pending(events)), e).pending
  {
    assert (events + [e])[..|events|] == events;
  }

  function DispatchAll(pending: seq<PendingTool>, request: RequestId): seq<ToolCall> {
    seq(|pending|, i requires 0 <= i < |pending| =>
      ToolCall(pending[i].id, pending[i].name, pending[i].args, None, request))
  }

  function ToolRequests(s: SessionId, dispatched: seq<ToolCall>, n: nat): seq<Event>
    requires n <= |dispatched|
  {
    seq(n, i requires 0 <= i < n => ToolRequest(s, dispatched[i].turn, dispatched[i].id, dispatched[i].name, dispatched[i].args))
  }

  const DISPATCH_TEXT := "Failed to dispatch tool"

  function GoIdle(k: Kv, s: SessionId, t: Turn, now: nat): Kv {
    Save(k, s, t.(phase := Idle, enteredAt := now)).(active := Unregister(k.active, s))
  }

  /** Park the turn on its tool calls before the first request goes out. */
  function AwaitTools(k: Kv, s: SessionId, t: Turn, now: nat): Kv {
    var dispatched := DispatchAll(t.pending, t.requestId);
    Emit(Save(k, s, t.(dispatched := dispatched, pending := [], phase := AwaitingTools, enteredAt := now)).(
           calls := k.calls + (map c | c in CallIds(dispatched) :: s)),
         Round(s, t.requestId))
  }

  function DispatchTools(k: Kv, s: SessionId, t: Turn, w: World): Kv {
    var k1 := AwaitTools(k, s, t, w.now);
    var t1 := Load(k1, s);
    if w.dispatchFails.Some? && w.dispatchFails.value < |t1.dispatched| then
      var k2 := k1.(log := k1.log + ToolRequests(s, t1.dispatched, w.dispatchFails.value),
                    calls := k1.calls - CallIds(t1.dispatched));
      GoIdle(Emit(k2, Notice(s, DISPATCH_TEXT)), s, t1, w.now)
    else
      k1.(log := k1.log + ToolRequests(s, t1.dispatched, |t1.dispatched|))
  }

  function HandleStreamDone(k: Kv, s: SessionId, t: Turn, w: World): Kv {
    var k1 := k.(requests := k.requests - {t.requestId});
    if t.pending != [] then DispatchTools(k1, s, t, w)
    else if t.responseText != "" then
      if w.fetchOk && w.publishOk then GoIdle(Emit(k1, Answer(s, t.requestId, t.responseText)), s, t, w.now) else k1
    else GoIdle(k1, s, t, w.now)
  }

  function Token(s: SessionId, r: RequestId, text: string, taken: bool): Event {
    if taken then Delta(s, r, text) else Refused(s, r, text)
  }

  function HandleLlmStream(cfg: Config, k: Kv, r: RequestId, e: StreamEvent, w: World): Kv {
    if r !in k.requests then k
    else
      var s := k.requests[r];
      var t := Load(k, s);
      if TimedOut(cfg, t, w.now) then CheckTimeout(cfg, k, s, w.now)
      else if !t.phase.Streaming? || t.requestId != r then k
      else
        var t1 := t.(enteredAt := w.now);
        match e
        case Done => HandleStreamDone(k, s, t1, w)
        case Error(m) => Abort(Emit(k, Notice(s, m)), s, t1, w.now)
        case TextDelta(text) =>
          var k1 := Save(k, s, Accumulate(t1, e));
          if text != "" then Emit(k1, Token(s, r, text, w.publishOk)) else k1
        case _ => Save(k, s, Accumulate(t1, e))
  }

  // ---- Tool results ----

  function RecordResult(dispatched: seq<ToolCall>, c: CallId, result: string): seq<ToolCall> {
    if dispatched == [] then []
    else if dispatched[0].id == c then [dispatched[0].(result := Some(result))] + dispatched[1..]
    else [dispatched[0]] + RecordResult(dispatched[1..], c, result)
  }

  function FirstCall(dispatched: seq<ToolCall>, c: CallId): Option<ToolCall> {
    if dispatched == [] then None
    else if dispatched[0].id == c then Some(dispatched[0])
    else FirstCall(dispatched[1..], c)
  }

  predicate StaleResult(t: Turn, c: CallId) {
    var tc := FirstCall(t.dispatched, c);
    tc.Some? && tc.value.turn != 0 && tc.value.turn != t.requestId
  }

  predicate AllAnswered(dispatched: seq<ToolCall>) {
    dispatched != [] && forall i :: 0 <= i < |dispatched| ==> dispatched[i].result.Some?
  }

  const CAP_TEXT := "Stopped: ReAct loop exceeded maximum iterations"

  /** All tools answered and the results appended to history: the next round. */
  function NextRound(k: Kv, s: SessionId, t: Turn, now: nat): Kv {
    var t1 := ResetTurn(t, k.nextRequest).(phase := Streaming, enteredAt := now);
    Save(k, s, t1).(calls := k.calls - CallIds(t.dispatched), nextRequest := k.nextRequest + 1)
  }

  /** Every dispatched call has a result and the round is counted in `t`. */
  function FinishRound(cfg: Config, k: Kv, s: SessionId, t: Turn, w: World): Kv {
    if t.iteration >= cfg.maxIterations then
      Settle(Emit(k, Notice(s, CAP_TEXT)), s, t, w.now).(calls := k.calls - CallIds(t.dispatched))
    else if !w.fetchOk then k
    else
      var k1 := NextRound(k, s, t, w.now);
      PublishLlmRequest(k1, s, Load(k1, s), w.selected, w.publishOk, w.now)
  }

  function HandleToolResult(cfg: Config, k: Kv, c: CallId, result: string, w: World): Kv {
    if c !in k.calls then k
    else
      var s := k.calls[c];
      var t := Load(k, s);
      if TimedOut(cfg, t, w.now) then CheckTimeout(cfg, k, s, w.now)
      else if !t.phase.AwaitingTools? || StaleResult(t, c) then k
      else
        var t1 := t.(dispatched := RecordResult(t.dispatched, c, result));
        if !AllAnswered(t1.dispatched) then Save(k, s, t1)
        else FinishRound(cfg, k, s, t1.(iteration := t1.iteration + 1), w)
  }

  // ---- Runs ----

  datatype Action =
    | UserPrompt(session: SessionId, text: string, requested: Option<string>, appendOk: bool, now: nat)
    | Cancel(session: SessionId, now: nat)
    | IdentityResponse(session: SessionId, prompt: string, retry: nat, w: World)
    | PromptResponse(session: SessionId, assembled: Option<string>, tools: seq<string>, retry: nat, w: World)
    | LlmStream(request: RequestId, event: StreamEvent, w: World)
    | ToolResult(call: CallId, result: string, w: World)
    | WatchdogTick(now: nat)
    | BusLag(now: nat)
    | Restart
    | SessionClear(session: SessionId, replacement: SessionId)

  /** The session capsule mints a new session id on clear. */
  predicate Enabled(k: Kv, a: Action) {
    a.SessionClear? ==> a.replacement !in k.turns && a.replacement != a.session
  }

  function Apply(cfg: Config, k: Kv, a: Action): Kv {
    if !Enabled(k, a) then k
    else
      match a
      case UserPrompt(s, text, requested, appendOk, now) => HandleUserPrompt(k, s, text, requested, appendOk, now)
      case Cancel(s, now) => HandleCancel(k, s, now)
      case IdentityResponse(s, prompt, retry, w) => HandleIdentityResponse(cfg, k, s, prompt, retry, w.fetchOk, w.selected, w.now)
      case PromptResponse(s, p, tools, retry, w) => HandlePromptResponse(cfg, k, s, p, tools, retry, w.selected, w.publishOk, w.now)
      case LlmStream(r, e, w) => HandleLlmStream(cfg, k, r, e, w)
      case ToolResult(c, result, w) => HandleToolResult(cfg, k, c, result, w)
      case WatchdogTick(now) => HandleWatchdogTick(cfg, k, now)
      case BusLag(now) => HandleBusLag(k, now)
      case Restart => HandleRestart(k)
      case SessionClear(s, replacement) => HandleSessionClear(k, s, replacement)
  }

  function Run(cfg: Config, k: Kv, acts: seq<Action>): Kv
    decreases |acts|
  {
    if acts == [] then k else Run(cfg, Apply(cfg, k, acts[0]), acts[1..])
  }
}
