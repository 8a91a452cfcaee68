/**
 What each handler that ends or begins a turn leaves behind, on every store: by
 the fields of the store alone, not through the step functions.
 */
module ReactEffects {
  import opened Prelude
  import opened ReactModel
  import opened ReactInvariant
  import opened ReactSteps

  // ---- Tearing a turn down ----

  /** A turn over and empty. */
  predicate Ended(t: Turn) {
    && t.phase == Idle && t.responseText == "" && t.pending == [] && t.dispatched == []
    && t.tools == [] && t.iteration == 0 && t.modelOverride == None
  }

  /** No entry under the request id or the call ids of the turn. */
  predicate NoEntries(k: Kv, t: Turn) {
    && (t.requestId != 0 ==> t.requestId !in k.requests)
    && forall i :: 0 <= i < |t.dispatched| ==> t.dispatched[i].id !in k.calls
  }

  /** Every entry that is not the turn's is as it was, and there is no new one. */
  ghost predicate OtherEntriesKept(k: Kv, k2: Kv, t: Turn) {
    && (forall r :: r in k2.requests ==> r in k.requests && k2.requests[r] == k.requests[r])
    && (forall r :: r in k.requests && r != t.requestId ==> r in k2.requests)
    && (forall c :: c in k2.calls ==> c in k.calls && k2.calls[c] == k.calls[c])
    && (forall c :: c in k.calls && (forall i :: 0 <= i < |t.dispatched| ==> t.dispatched[i].id != c) ==> c in k2.calls)
  }

  /** Of the turns only that of `s` changed. */
  predicate OtherTurnsKept(k: Kv, k2: Kv, s: SessionId) {
    s in k2.turns && k2.turns == k.turns[s := k2.turns[s]]
  }

  /** The active list lost `s` and nothing else. */
  ghost predicate LeftActive(k: Kv, k2: Kv, s: SessionId) {
    NoDuplicates(k2.active) && forall x :: x in k2.active <==> x in k.active && x != s
  }

  /** `k2` is `k` with the turn of `s` torn down and `es` published. */
  ghost predicate TornDown(k: Kv, k2: Kv, s: SessionId, es: seq<Event>) {
    && OtherTurnsKept(k, k2, s) && Ended(k2.turns[s])
    && k2.turns[s].requestId == k.nextRequest && k2.nextRequest == k.nextRequest + 1
    && NoEntries(k2, Load(k, s)) && OtherEntriesKept(k, k2, Load(k, s))
    && LeftActive(k, k2, s)
    && k2.log == k.log + es
  }

  lemma {:induction false} AbortTearsDown(k: Kv, s: SessionId, t: Turn, now: nat, es: seq<Event>)
    requires NoDuplicates(k.active) && t.requestId == Load(k, s).requestId && t.dispatched == Load(k, s).dispatched
    ensures TornDown(k, Abort(k.(log := k.log + es), s, t, now), s, es)
  {
    var k2 := Abort(k.(log := k.log + es), s, t, now);
    UnregisterKeeps(k.active, s);
    forall i | 0 <= i < |t.dispatched| ensures t.dispatched[i].id in CallIds(t.dispatched) {}
    assert k2.calls == k.calls - CallIds(t.dispatched);
  }

  /** A cancel ends any turn under way, whatever it is doing; a turn waiting for
      tools also cancels exactly its calls. Without a turn nothing happens. */
  lemma {:induction false} CancelEnds(k: Kv, s: SessionId, now: nat)
    requires NoDuplicates(k.active)
    ensures var t, k2 := Load(k, s), HandleCancel(k, s, now);
      if t.phase == Idle then k2 == k
      else if t.phase == AwaitingTools && t.dispatched != [] then
        exists ids :: TornDown(k, k2, s, [ToolCancel(s, ids)]) && Lists(ids, t.dispatched)
      else TornDown(k, k2, s, [])
  {
    var t := Load(k, s);
    if t.phase == AwaitingTools && t.dispatched != [] {
      AbortTearsDown(k, s, t, now, [ToolCancel(s, Ids(t.dispatched))]);
      assert Lists(Ids(t.dispatched), t.dispatched);
    } else if t.phase != Idle {
      AbortTearsDown(k, s, t, now, []);
      assert k.log + [] == k.log;
    }
  }

  /** The ids of the calls, in order. */
  predicate Lists(ids: seq<CallId>, dispatched: seq<ToolCall>) {
    |ids| == |dispatched| && forall i :: 0 <= i < |ids| ==> ids[i] == dispatched[i].id
  }

  /** The number of seconds a phase may last. */
  function Allowed(cfg: Config, p: Phase): nat {
    if p == Streaming then cfg.streamingTimeout else if p == AwaitingTools then cfg.toolTimeout else cfg.identityTimeout
  }

  /** By a running clock, the turn has been in its phase for as long as it may. */
  predicate Overdue(cfg: Config, t: Turn, now: nat) {
    && t.phase != Idle && now > 0 && t.enteredAt > 0
    && (Allowed(cfg, t.phase) == 0 || now >= t.enteredAt + 1000 * Allowed(cfg, t.phase))
  }

  lemma {:induction false} TimedOutIff(cfg: Config, t: Turn, now: nat)
    ensures TimedOut(cfg, t, now) <==> Overdue(cfg, t, now)
  {
  }

  /** A timeout check ends the turn, with a notice, exactly when it is overdue. */
  lemma {:induction false} TimeoutEnds(cfg: Config, k: Kv, s: SessionId, now: nat)
    requires NoDuplicates(k.active)
    ensures var k2 := CheckTimeout(cfg, k, s, now);
      if Overdue(cfg, Load(k, s), now) then TornDown(k, k2, s, [Notice(s, "Request timed out")]) else k2 == k
  {
    TimedOutIff(cfg, Load(k, s), now);
    AbortTearsDown(k, s, Load(k, s), now, [Notice(s, "Request timed out")]);
  }

  /** Mid-turn: what a bus lag ends. */
  predicate MidTurn(t: Turn) { t.phase == Streaming || t.phase == AwaitingTools }

  lemma {:induction false} InterruptEnds(k: Kv, s: SessionId, now: nat)
    requires NoDuplicates(k.active)
    ensures var k2 := Interrupt(k, s, now);
      if MidTurn(Load(k, s)) then TornDown(k, k2, s, [Notice(s, "Response interrupted")]) else k2 == k
  {
    AbortTearsDown(k, s, Load(k, s), now, [Notice(s, "Response interrupted")]);
  }

  // ---- All sessions at once ----

  /** The sessions among `xs` whose turn must go. */
  ghost function Doomed(k: Kv, xs: seq<SessionId>, must: Turn -> bool): seq<SessionId> {
    if xs == [] then [] else Doomed(k, xs[..|xs| - 1], must) + (if must(Load(k, xs[|xs| - 1])) then [xs[|xs| - 1]] else [])
  }

  function Notices(xs: seq<SessionId>, text: string): seq<Event> {
    seq(|xs|, i requires 0 <= i < |xs| => Notice(xs[i], text))
  }

  /** From `k` to `k2` exactly the turns of `gone` were ended, one notice each, in
      order; all other turns, and the entries of sessions not in `gone`, stay. */
  ghost predicate EndedAll(k: Kv, k2: Kv, gone: seq<SessionId>, text: string) {
    && (forall x :: Load(k2, x) == Load(k, x) || (x in gone && Ended(Load(k2, x))))
    && (forall x :: x in gone ==> Ended(Load(k2, x)) && NoEntries(k2, Load(k, x)))
    && NoDuplicates(k2.active) && (forall x :: x in k2.active <==> x in k.active && x !in gone)
    && k2.log == k.log + Notices(gone, text)
    && (forall r :: r in k2.requests ==> r in k.requests && k2.requests[r] == k.requests[r])
    && (forall c :: c in k2.calls ==> c in k.calls && k2.calls[c] == k.calls[c])
  }

  lemma {:induction false} EndOneMore(k: Kv, mid: Kv, k2: Kv, gone: seq<SessionId>, s: SessionId, text: string)
    requires EndedAll(k, mid, gone, text) && s !in gone && TornDown(mid, k2, s, [Notice(s, text)])
    ensures EndedAll(k, k2, gone + [s], text)
  {
    var all := gone + [s];
    assert Load(mid, s) == Load(k, s) by { assert Load(mid, s) == Load(k, s) || (s in gone && Ended(Load(mid, s))); }
    assert Notices(all, text) == Notices(gone, text) + [Notice(s, text)];
    assert k.log + Notices(gone, text) + [Notice(s, text)] == k.log + Notices(all, text);
    forall x | x in all ensures Ended(Load(k2, x)) && NoEntries(k2, Load(k, x)) {
      if x != s { assert x in gone && NoEntries(mid, Load(k, x)); }
    }
  }

  lemma {:induction false} NothingEnded(k: Kv, text: string)
    requires NoDuplicates(k.active)
    ensures EndedAll(k, k, [], text)
  {
    assert k.log + [] == k.log;
  }

  lemma {:induction false} DoomedAmong(k: Kv, xs: seq<SessionId>, must: Turn -> bool)
    ensures forall x :: x in Doomed(k, xs, must) <==> x in xs && must(Load(k, x))
  {
    if xs != [] {
      DoomedAmong(k, xs[..|xs| - 1], must);
      assert xs == xs[..|xs| - 1] + [xs[|xs| - 1]];
    }
  }

  lemma {:induction false} SweepSnoc(cfg: Config, k: Kv, xs: seq<SessionId>, s: SessionId, now: nat)
    ensures Sweep(cfg, k, xs + [s], now) == CheckTimeout(cfg, Sweep(cfg, k, xs, now), s, now)
    decreases |xs|
  {
    if xs == [] {
      assert [] + [s] == [s] && [s][1..] == [];
    } else {
      assert (xs + [s])[0] == xs[0] && (xs + [s])[1..] == xs[1..] + [s];
      SweepSnoc(cfg, CheckTimeout(cfg, k, xs[0], now), xs[1..], s, now);
    }
  }

  lemma {:induction false} InterruptSnoc(k: Kv, xs: seq<SessionId>, s: SessionId, now: nat)
    ensures InterruptAll(k, xs + [s], now) == Interrupt(InterruptAll(k, xs, now), s, now)
    decreases |xs|
  {
    if xs == [] {
      assert [] + [s] == [s] && [s][1..] == [];
    } else {
      assert (xs + [s])[0] == xs[0] && (xs + [s])[1..] == xs[1..] + [s];
      InterruptSnoc(Interrupt(k, xs[0], now), xs[1..], s, now);
    }
  }

  lemma {:induction false} SweepEnds(cfg: Config, k: Kv, xs: seq<SessionId>, now: nat)
    requires NoDuplicates(k.active) && NoDuplicates(xs)
    ensures EndedAll(k, Sweep(cfg, k, xs, now), Doomed(k, xs, (t: Turn) => Overdue(cfg, t, now)), "Request timed out")
    decreases |xs|
  {
    var must := (t: Turn) => Overdue(cfg, t, now);
    if xs == [] {
      NothingEnded(k, "Request timed out");
    } else {
      var n := |xs| - 1;
      var mid := Sweep(cfg, k, xs[..n], now);
      SweepEnds(cfg, k, xs[..n], now);
      DoomedAmong(k, xs[..n], must);
      assert xs == xs[..n] + [xs[n]];
      SweepSnoc(cfg, k, xs[..n], xs[n], now);
      assert xs[n] !in xs[..n];
      TimeoutEnds(cfg, mid, xs[n], now);
      assert Load(mid, xs[n]) == Load(k, xs[n]);
      if must(Load(k, xs[n])) {
        EndOneMore(k, mid, Sweep(cfg, k, xs, now), Doomed(k, xs[..n], must), xs[n], "Request timed out");
      } else {
        assert Doomed(k, xs, must) == Doomed(k, xs[..n], must) + [] == Doomed(k, xs[..n], must);
      }
    }
  }

  lemma {:induction false} InterruptAllEnds(k: Kv, xs: seq<SessionId>, now: nat)
    requires NoDuplicates(k.active) && NoDuplicates(xs)
    ensures EndedAll(k, InterruptAll(k, xs, now), Doomed(k, xs, MidTurn), "Response interrupted")
    decreases |xs|
  {
    if xs == [] {
      NothingEnded(k, "Response interrupted");
    } else {
      var n := |xs| - 1;
      var mid := InterruptAll(k, xs[..n], now);
      InterruptAllEnds(k, xs[..n], now);
      DoomedAmong(k, xs[..n], MidTurn);
      assert xs == xs[..n] + [xs[n]];
      InterruptSnoc(k, xs[..n], xs[n], now);
      assert xs[n] !in xs[..n];
      InterruptEnds(mid, xs[n], now);
      assert Load(mid, xs[n]) == Load(k, xs[n]);
      if MidTurn(Load(k, xs[n])) {
        EndOneMore(k, mid, InterruptAll(k, xs, now), Doomed(k, xs[..n], MidTurn), xs[n], "Response interrupted");
      } else {
        assert Doomed(k, xs, MidTurn) == Doomed(k, xs[..n], MidTurn) + [] == Doomed(k, xs[..n], MidTurn);
      }
    }
  }

  /** A watchdog tick in any reachable state ends exactly the overdue turns. */
  lemma {:induction false} TickEndsOverdue(cfg: Config, k: Kv, now: nat) returns (gone: seq<SessionId>)
    requires Inv(cfg, k)
    ensures EndedAll(k, HandleWatchdogTick(cfg, k, now), gone, "Request timed out")
    ensures forall x :: x in gone <==> Overdue(cfg, Load(k, x), now)
  {
    gone := Doomed(k, k.active, (t: Turn) => Overdue(cfg, t, now));
    SweepEnds(cfg, k, k.active, now);
    DoomedAmong(k, k.active, (t: Turn) => Overdue(cfg, t, now));
    forall x ensures Overdue(cfg, Load(k, x), now) ==> x in k.active { assert x in k.active <==> !Load(k, x).phase.Idle?; }
  }

  /** A bus lag in any reachable state ends exactly the turns that are streaming
      or waiting for tools. */
  lemma {:induction false} LagEndsMidTurn(cfg: Config, k: Kv, now: nat) returns (gone: seq<SessionId>)
    requires Inv(cfg, k)
    ensures EndedAll(k, HandleBusLag(k, now), gone, "Response interrupted")
    ensures forall x :: x in gone <==> MidTurn(Load(k, x))
  {
    gone := Doomed(k, k.active, MidTurn);
    InterruptAllEnds(k, k.active, now);
    DoomedAmong(k, k.active, MidTurn);
    forall x ensures MidTurn(Load(k, x)) ==> x in k.active { assert x in k.active <==> !Load(k, x).phase.Idle?; }
  }

  /** After a restart nothing is under way and no entry is left. */
  lemma {:induction false} RestartEndsAll(k: Kv)
    ensures var k2 := HandleRestart(k);
      && (forall x :: Load(k2, x).phase == Idle) && k2.active == []
      && (forall r :: r !in k2.requests) && (forall c :: c !in k2.calls) && k2.log == k.log
  {
  }

  /** A clear forgets the session, prepares its replacement and says so. */
  lemma {:induction false} ClearForgets(k: Kv, s: SessionId, replacement: SessionId)
    requires NoDuplicates(k.active) && Enabled(k, SessionClear(s, replacement))
    ensures var k2 := HandleSessionClear(k, s, replacement);
      && s !in k2.turns && replacement in k2.turns && Ended(k2.turns[replacement])
      && (forall x :: x != s && x != replacement ==> (x in k2.turns <==> x in k.turns) && Load(k2, x) == Load(k, x))
      && LeftActive(k, k2, s) && k2.requests == k.requests && k2.calls == k.calls
      && k2.log == k.log + [SessionChanged(s, replacement)]
  {
    UnregisterKeeps(k.active, s);
  }

  // ---- Ends and beginnings within a turn ----

  /** An error event of the model's stream ends the turn with its message. */
  lemma {:induction false} StreamErrorEnds(cfg: Config, k: Kv, r: RequestId, message: string, w: World)
    requires NoDuplicates(k.active) && r in k.requests
    requires var t := Load(k, k.requests[r]); t.phase == Streaming && t.requestId == r && !TimedOut(cfg, t, w.now)
    ensures TornDown(k, HandleLlmStream(cfg, k, r, Error(message), w), k.requests[r], [Notice(k.requests[r], message)])
  {
    var s := k.requests[r];
    AbortTearsDown(k, s, Load(k, s).(enteredAt := w.now), w.now, [Notice(s, message)]);
  }

  /** The model a turn asks for: the requested one unless it is blank, else the
      selected one, blank ones never. */
  lemma {:induction false} ResolvedModel(requested: Option<string>, selected: Option<string>)
    ensures ResolveModel(requested, selected).None? <==> NoModel(requested, selected)
    ensures requested.Some? && !IsBlank(requested.value) ==> ResolveModel(requested, selected) == requested
    ensures requested.None? || IsBlank(requested.value) ==> ResolveModel(requested, selected).None? || ResolveModel(requested, selected) == selected
  {
  }

  predicate NoModel(requested: Option<string>, selected: Option<string>) {
    (requested.None? || IsBlank(requested.value)) && (selected.None? || IsBlank(selected.value))
  }

  /** Without a usable model the turn ends at the identity reply. */
  lemma {:induction false} NoModelEndsAtIdentity(cfg: Config, k: Kv, s: SessionId, prompt: string, retry: nat, selected: Option<string>, now: nat)
    requires NoDuplicates(k.active) && Load(k, s).phase == AwaitingIdentity && !TimedOut(cfg, Load(k, s), now)
    requires NoModel(Load(k, s).modelOverride, selected)
    ensures TornDown(k, HandleIdentityResponse(cfg, k, s, prompt, retry, true, selected, now), s, [Notice(s, "No LLM model is selected")])
  {
    var t := Load(k, s).(systemPrompt := prompt, phase := AwaitingPromptBuild, enteredAt := now);
    AbortTearsDown(k, s, t, now, [Notice(s, "No LLM model is selected")]);
    AbortAfterSave(k, s, t, t, now, [Notice(s, "No LLM model is selected")]);
  }

  lemma {:induction false} AbortAfterSave(k: Kv, s: SessionId, saved: Turn, t: Turn, now: nat, es: seq<Event>)
    ensures Abort(Save(k, s, saved).(log := k.log + es), s, t, now) == Abort(k.(log := k.log + es), s, t, now)
  {
    var last := ResetConversation(t, k.nextRequest).(phase := Idle, enteredAt := now);
    assert k.turns[s := saved][s := last] == k.turns[s := last];
  }

  /** Or when the request would go out. */
  lemma {:induction false} NoModelEndsAtRequest(k: Kv, s: SessionId, selected: Option<string>, publishOk: bool, now: nat)
    requires NoDuplicates(k.active) && NoModel(Load(k, s).modelOverride, selected)
    ensures TornDown(k, PublishLlmRequest(k, s, Load(k, s), selected, publishOk, now), s, [Notice(s, "No LLM model is selected")])
  {
    AbortTearsDown(k, s, Load(k, s), now, [Notice(s, "No LLM model is selected")]);
  }

  /** With a usable model a refused request leaves only its own entry gone. */
  lemma {:induction false} RefusedRequest(k: Kv, s: SessionId, selected: Option<string>, now: nat)
    requires !NoModel(Load(k, s).modelOverride, selected)
    ensures var k2 := PublishLlmRequest(k, s, Load(k, s), selected, false, now);
      && k2 == k.(requests := k2.requests)
      && forall r :: r in k2.requests <==> r in k.requests && r != Load(k, s).requestId
  {
  }

  /** The last result at the iteration cap ends the turn instead of starting
      another round. */
  lemma {:induction false} CapEnds(cfg: Config, k: Kv, c: CallId, result: string, w: World)
    requires NoDuplicates(k.active) && c in k.calls
    requires var t := Load(k, k.calls[c]);
      && t.phase == AwaitingTools && !TimedOut(cfg, t, w.now) && !StaleResult(t, c)
      && AllAnswered(RecordResult(t.dispatched, c, result)) && t.iteration + 1 >= cfg.maxIterations
    ensures var s, t, k2 := k.calls[c], Load(k, k.calls[c]), HandleToolResult(cfg, k, c, result, w);
      && OtherTurnsKept(k, k2, s) && Ended(k2.turns[s]) && LeftActive(k, k2, s)
      && (forall i :: 0 <= i < |t.dispatched| ==> t.dispatched[i].id !in k2.calls)
      && k2.requests == k.requests
      && k2.log == k.log + [Notice(s, "Stopped: ReAct loop exceeded maximum iterations")]
  {
    var s := k.calls[c];
    var t := Load(k, s);
    UnregisterKeeps(k.active, s);
    RecordResultShape(t.dispatched, c, result);
    SameIds(RecordResult(t.dispatched, c, result), t.dispatched);
    forall i | 0 <= i < |t.dispatched| ensures t.dispatched[i].id in CallIds(t.dispatched) {}
  }

  /** The requests of the first `n` calls, each with its own name and arguments. */
  predicate RequestsOf(es: seq<Event>, s: SessionId, r: RequestId, pending: seq<PendingTool>, n: nat) {
    |es| == n <= |pending| && forall i :: 0 <= i < n ==> es[i] == ToolRequest(s, r, pending[i].id, pending[i].name, pending[i].args)
  }

  /** The turn is parked on all its calls, in order, none of them answered. */
  predicate Parked(t: Turn, pending: seq<PendingTool>, r: RequestId) {
    && |t.dispatched| == |pending|
    && forall i :: 0 <= i < |pending| ==> t.dispatched[i] == ToolCall(pending[i].id, pending[i].name, pending[i].args, None, r)
  }

  /** The state between parking the turn and requesting its tools. */
  lemma {:induction false} ParkingIs(k: Kv, s: SessionId, t: Turn, now: nat)
    ensures var k1 := AwaitTools(k, s, t, now);
      && OtherTurnsKept(k, k1, s) && Parked(k1.turns[s], t.pending, t.requestId) && k1.turns[s].phase == AwaitingTools
      && k1.active == k.active && k1.requests == k.requests && k1.log == k.log + [Round(s, t.requestId)]
      && CallIds(k1.turns[s].dispatched) == CallIds(DispatchAll(t.pending, t.requestId))
      && forall i :: 0 <= i < |t.pending| ==> t.pending[i].id in k1.calls && k1.calls[t.pending[i].id] == s
                                              && t.pending[i].id in CallIds(k1.turns[s].dispatched)
  {
    var d := DispatchAll(t.pending, t.requestId);
    forall i | 0 <= i < |t.pending| ensures t.pending[i].id in CallIds(d) { assert d[i].id == t.pending[i].id; }
  }

  lemma {:induction false} RequestsAre(s: SessionId, d: seq<ToolCall>, pending: seq<PendingTool>, r: RequestId, n: nat)
    requires d == DispatchAll(pending, r) && n <= |pending|
    ensures RequestsOf(ToolRequests(s, d, n), s, r, pending, n)
  {
  }

  /** Dispatching parks the turn on all its calls and requests them in order. */
  lemma {:induction false} DispatchParks(k: Kv, s: SessionId, t: Turn, w: World) returns (es: seq<Event>)
    requires t.pending != [] && (w.dispatchFails.Some? ==> w.dispatchFails.value >= |t.pending|)
    ensures var k2 := DispatchTools(k, s, t, w);
      && OtherTurnsKept(k, k2, s) && k2.requests == k.requests && k2.active == k.active
      && Parked(k2.turns[s], t.pending, t.requestId) && k2.turns[s].phase == AwaitingTools
      && (forall i :: 0 <= i < |t.pending| ==> t.pending[i].id in k2.calls && k2.calls[t.pending[i].id] == s)
      && RequestsOf(es, s, t.requestId, t.pending, |t.pending|)
      && k2.log == k.log + [Round(s, t.requestId)] + es
  {
    ParkingIs(k, s, t, w.now);
    es := ToolRequests(s, DispatchAll(t.pending, t.requestId), |t.pending|);
    RequestsAre(s, DispatchAll(t.pending, t.requestId), t.pending, t.requestId, |t.pending|);
  }

  /** With one request refused, those before it went out, the turn is over with
      a notice, and none of its calls can be answered any more. */
  lemma {:induction false} RefusedToolEnds(k: Kv, s: SessionId, t: Turn, w: World) returns (es: seq<Event>)
    requires NoDuplicates(k.active) && t.pending != []
    requires w.dispatchFails.Some? && w.dispatchFails.value < |t.pending|
    ensures var k2 := DispatchTools(k, s, t, w);
      && OtherTurnsKept(k, k2, s) && k2.requests == k.requests
      && k2.turns[s].phase == Idle && LeftActive(k, k2, s)
      && (forall i :: 0 <= i < |t.pending| ==> t.pending[i].id !in k2.calls)
      && RequestsOf(es, s, t.requestId, t.pending, w.dispatchFails.value)
      && k2.log == k.log + [Round(s, t.requestId)] + es + [Notice(s, "Failed to dispatch tool")]
  {
    var k1 := AwaitTools(k, s, t, w.now);
    ParkingIs(k, s, t, w.now);
    UnregisterKeeps(k.active, s);
    es := ToolRequests(s, DispatchAll(t.pending, t.requestId), w.dispatchFails.value);
    RequestsAre(s, DispatchAll(t.pending, t.requestId), t.pending, t.requestId, w.dispatchFails.value);
  }

  /** A stream that ends with nothing ends the turn without a word. */
  lemma {:induction false} EmptyStreamEnds(cfg: Config, k: Kv, r: RequestId, w: World)
    requires NoDuplicates(k.active) && r in k.requests
    requires var t := Load(k, k.requests[r]);
      t.phase == Streaming && t.requestId == r && !TimedOut(cfg, t, w.now) && t.pending == [] && t.responseText == ""
    ensures var s, k2 := k.requests[r], HandleLlmStream(cfg, k, r, Done, w);
      && OtherTurnsKept(k, k2, s) && k2.turns[s].phase == Idle && LeftActive(k, k2, s)
      && r !in k2.requests && k2.calls == k.calls && k2.log == k.log
  {
    UnregisterKeeps(k.active, k.requests[r]);
  }

  /** An identity reply in time, its history fetched and a usable model at hand,
      takes the turn on and asks the prompt builder; without the history nothing
      changes. */
  lemma {:induction false} IdentityTakesOn(cfg: Config, k: Kv, s: SessionId, prompt: string, retry: nat, fetchOk: bool, selected: Option<string>, now: nat)
    requires Load(k, s).phase == AwaitingIdentity && !TimedOut(cfg, Load(k, s), now) && !NoModel(Load(k, s).modelOverride, selected)
    ensures var k2 := HandleIdentityResponse(cfg, k, s, prompt, retry, fetchOk, selected, now);
      if !fetchOk then k2 == k
      else
        && k2 == k.(turns := k.turns[s := Load(k, s).(systemPrompt := prompt, phase := AwaitingPromptBuild, enteredAt := now)], log := k2.log)
        && exists m :: k2.log == k.log + [Assemble(s, m, prompt)] && Some(m) in {Load(k, s).modelOverride, selected}
  {
    ResolvedModel(Load(k, s).modelOverride, selected);
  }

  /** A result left over from another request of the session is dropped. */
  lemma {:induction false} LeftoverDropped(cfg: Config, k: Kv, c: CallId, result: string, w: World, i: nat)
    requires c in k.calls && !TimedOut(cfg, Load(k, k.calls[c]), w.now)
    requires var t := Load(k, k.calls[c]);
      && i < |t.dispatched| && t.dispatched[i].id == c && (forall j :: 0 <= j < i ==> t.dispatched[j].id != c)
      && t.dispatched[i].turn != 0 && t.dispatched[i].turn != t.requestId
    ensures HandleToolResult(cfg, k, c, result, w) == k
  {
    FirstCallAt(Load(k, k.calls[c]).dispatched, c, i);
  }

  lemma {:induction false} FirstCallAt(dispatched: seq<ToolCall>, c: CallId, i: nat)
    requires i < |dispatched| && dispatched[i].id == c && forall j :: 0 <= j < i ==> dispatched[j].id != c
    ensures FirstCall(dispatched, c) == Some(dispatched[i])
    decreases i
  {
    if i > 0 { FirstCallAt(dispatched[1..], c, i - 1); }
  }

  /** When the answered calls cannot be appended to the history the round stays
      open: nothing changes, and the same result can come again. */
  lemma {:induction false} UnstoredRoundStaysOpen(cfg: Config, k: Kv, c: CallId, result: string, w: World)
    requires c in k.calls && !w.fetchOk
    requires var t := Load(k, k.calls[c]);
      && t.phase == AwaitingTools && !TimedOut(cfg, t, w.now)
      && AllAnswered(RecordResult(t.dispatched, c, result)) && t.iteration + 1 < cfg.maxIterations
    ensures HandleToolResult(cfg, k, c, result, w) == k
  {
  }

  /** An answer that cannot be stored or published is not given: the turn stays
      where it is, without its entry. */
  lemma {:induction false} UndeliveredAnswer(cfg: Config, k: Kv, r: RequestId, w: World)
    requires r in k.requests && !(w.fetchOk && w.publishOk)
    requires var t := Load(k, k.requests[r]);
      t.phase == Streaming && t.requestId == r && !TimedOut(cfg, t, w.now) && t.pending == [] && t.responseText != ""
    ensures var k2 := HandleLlmStream(cfg, k, r, Done, w);
      k2 == k.(requests := k2.requests) && forall q :: q in k2.requests <==> q in k.requests && q != r
  {
  }

  /** A prompt begins a turn of its own under a fresh request id, whatever was
      under way before: the old turn's entries are gone, the session is active
      and its two publications are out. Blank text, or a session that does not
      take the message, changes nothing. */
  lemma {:induction false} PromptBegins(k: Kv, s: SessionId, text: string, requested: Option<string>, appendOk: bool, now: nat)
    requires NoDuplicates(k.active)
    ensures var k2 := HandleUserPrompt(k, s, text, requested, appendOk, now);
      if (forall i :: 0 <= i < |text| ==> IsSpace(text[i])) || !appendOk then k2 == k
      else
        && OtherTurnsKept(k, k2, s)
        && Ended(k2.turns[s].(phase := Idle, modelOverride := None))
        && k2.turns[s].phase == AwaitingIdentity && k2.turns[s].enteredAt == now
        && k2.turns[s].requestId == k.nextRequest && k2.nextRequest == k.nextRequest + 1
        && k2.turns[s].modelOverride == (if requested.Some? && !IsBlank(requested.value) then requested else None)
        && NoDuplicates(k2.active) && (forall x :: x in k2.active <==> x in k.active || x == s)
        && OtherEntriesKept(k, k2, Load(k, s)) && (Load(k, s).phase != Idle ==> NoEntries(k2, Load(k, s)))
        && k2.log == k.log + [Prompt(s), IdentityRequest(s)]
  {
    RegisterKeeps(k.active, s);
    var t := Load(k, s);
    forall i | 0 <= i < |t.dispatched| ensures t.dispatched[i].id in CallIds(t.dispatched) {}
  }

  // ---- What comes too late ----

  /** Nobody will ever use request id `r` again. */
  ghost predicate Gone(k: Kv, r: RequestId) {
    && 0 < r < k.nextRequest && r !in k.requests
    && forall x :: Load(k, x).requestId != r
  }

  /** No two stored turns share a request id. */
  ghost predicate OwnIds(k: Kv) {
    && 0 < k.nextRequest
    && (forall x :: Load(k, x).requestId < k.nextRequest)
    && (forall r :: r in k.requests ==> 0 < r < k.nextRequest)
    && (forall x, y :: x != y && Load(k, x).requestId != 0 ==> Load(k, x).requestId != Load(k, y).requestId)
  }

  /** A step that changes at most the turn of `s`, keeping its request id or
      giving it the next fresh one, and enters at most that turn's id. */
  ghost predicate IdStep(k: Kv, k2: Kv, s: SessionId) {
    && (forall x :: x != s ==> Load(k2, x) == Load(k, x))
    && k.nextRequest <= k2.nextRequest
    && (Load(k2, s).requestId == Load(k, s).requestId || k.nextRequest <= Load(k2, s).requestId < k2.nextRequest)
    && (forall r :: r in k2.requests ==> r in k.requests || (r == Load(k2, s).requestId && r != 0))
  }

  lemma {:induction false} IdStepKeeps(k: Kv, k2: Kv, s: SessionId, r: RequestId)
    requires IdStep(k, k2, s)
    ensures OwnIds(k) ==> OwnIds(k2)
    ensures Gone(k, r) ==> Gone(k2, r)
  {
  }

  lemma {:induction false} IdStepTrans(k: Kv, mid: Kv, k2: Kv, s: SessionId)
    requires IdStep(k, mid, s) && IdStep(mid, k2, s) && (forall r :: r in mid.requests ==> r in k.requests)
    ensures IdStep(k, k2, s)
  {
  }

  lemma {:induction false} AbortIds(k: Kv, s: SessionId, t: Turn, now: nat, es: seq<Event>)
    ensures IdStep(k, Abort(k.(log := k.log + es), s, t, now), s)
  {
  }

  lemma {:induction false} TimeoutIds(cfg: Config, k: Kv, s: SessionId, now: nat)
    ensures IdStep(k, CheckTimeout(cfg, k, s, now), s)
  {
    AbortIds(k, s, Load(k, s), now, [Notice(s, TIMEOUT_TEXT)]);
  }

  lemma {:induction false} SweepIds(cfg: Config, k: Kv, xs: seq<SessionId>, now: nat, r: RequestId)
    ensures OwnIds(k) ==> OwnIds(Sweep(cfg, k, xs, now))
    ensures Gone(k, r) ==> Gone(Sweep(cfg, k, xs, now), r)
    decreases |xs|
  {
    if xs != [] {
      TimeoutIds(cfg, k, xs[0], now);
      IdStepKeeps(k, CheckTimeout(cfg, k, xs[0], now), xs[0], r);
      SweepIds(cfg, CheckTimeout(cfg, k, xs[0], now), xs[1..], now, r);
    }
  }

  lemma {:induction false} InterruptIds(k: Kv, xs: seq<SessionId>, now: nat, r: RequestId)
    ensures OwnIds(k) ==> OwnIds(InterruptAll(k, xs, now))
    ensures Gone(k, r) ==> Gone(InterruptAll(k, xs, now), r)
    decreases |xs|
  {
    if xs != [] {
      AbortIds(k, xs[0], Load(k, xs[0]), now, [Notice(xs[0], LAG_TEXT)]);
      IdStepKeeps(k, Interrupt(k, xs[0], now), xs[0], r);
      InterruptIds(Interrupt(k, xs[0], now), xs[1..], now, r);
    }
  }

  lemma {:induction false} PublishIds(k: Kv, s: SessionId, selected: Option<string>, publishOk: bool, now: nat)
    requires Load(k, s).requestId != 0
    ensures IdStep(k, PublishLlmRequest(k, s, Load(k, s), selected, publishOk, now), s)
  {
    AbortIds(k, s, Load(k, s), now, [Notice(s, NO_MODEL_TEXT)]);
  }

  lemma {:induction false} PromptResponseIds(cfg: Config, k: Kv, s: SessionId, prompt: Option<string>, tools: seq<string>,
                                             retry: nat, selected: Option<string>, publishOk: bool, now: nat)
    requires !Load(k, s).phase.Idle? ==> Load(k, s).requestId != 0
    ensures IdStep(k, HandlePromptResponse(cfg, k, s, prompt, tools, retry, selected, publishOk, now), s)
  {
    TimeoutIds(cfg, k, s, now);
    if Load(k, s).phase.AwaitingPromptBuild? {
      var k1 := StartStreaming(k, s, prompt, tools, now);
      PublishIds(k1, s, selected, publishOk, now);
      IdStepTrans(k, k1, PublishLlmRequest(k1, s, Load(k1, s), selected, publishOk, now), s);
    }
  }

  lemma {:induction false} IdentityIds(cfg: Config, k: Kv, s: SessionId, prompt: string, retry: nat, fetchOk: bool, selected: Option<string>, now: nat)
    ensures IdStep(k, HandleIdentityResponse(cfg, k, s, prompt, retry, fetchOk, selected, now), s)
  {
    TimeoutIds(cfg, k, s, now);
    var t := Load(k, s).(systemPrompt := prompt, phase := AwaitingPromptBuild, enteredAt := now);
    AbortIds(Save(k, s, t), s, t, now, [Notice(s, NO_MODEL_TEXT)]);
  }

  lemma {:induction false} StreamIds(cfg: Config, k: Kv, r: RequestId, e: StreamEvent, w: World)
    requires r in k.requests
    ensures IdStep(k, HandleLlmStream(cfg, k, r, e, w), k.requests[r])
  {
    var s := k.requests[r];
    TimeoutIds(cfg, k, s, w.now);
    if e.Error? { AbortIds(k, s, Load(k, s).(enteredAt := w.now), w.now, [Notice(s, e.message)]); }
  }

  lemma {:induction false} FinishRoundIds(cfg: Config, k: Kv, s: SessionId, t: Turn, w: World)
    requires 0 < k.nextRequest && t.requestId == Load(k, s).requestId
    ensures IdStep(k, FinishRound(cfg, k, s, t, w), s)
  {
    if t.iteration < cfg.maxIterations && w.fetchOk {
      var k1 := NextRound(k, s, t, w.now);
      PublishIds(k1, s, w.selected, w.publishOk, w.now);
      IdStepTrans(k, k1, PublishLlmRequest(k1, s, Load(k1, s), w.selected, w.publishOk, w.now), s);
    }
  }

  lemma {:induction false} ResultIds(cfg: Config, k: Kv, c: CallId, result: string, w: World)
    requires c in k.calls && 0 < k.nextRequest
    ensures IdStep(k, HandleToolResult(cfg, k, c, result, w), k.calls[c])
  {
    var s := k.calls[c];
    var t := Load(k, s);
    TimeoutIds(cfg, k, s, w.now);
    var t1 := t.(dispatched := RecordResult(t.dispatched, c, result));
    if Fresh(cfg, k, c, w) && AllAnswered(t1.dispatched) {
      LastResultIs(cfg, k, c, result, w);
      FinishRoundIds(cfg, k, s, Counted(k, c, result), w);
    }
  }

  lemma {:induction false} PromptIds(k: Kv, s: SessionId, text: string, requested: Option<string>, appendOk: bool, now: nat)
    ensures IdStep(k, HandleUserPrompt(k, s, text, requested, appendOk, now), s)
  {
  }

  lemma {:induction false} CancelIds(k: Kv, s: SessionId, now: nat)
    ensures IdStep(k, HandleCancel(k, s, now), s)
  {
    AbortIds(k, s, Load(k, s), now, [ToolCancel(s, Ids(Load(k, s).dispatched))]);
    AbortIds(k, s, Load(k, s), now, []);
    assert k.log + [] == k.log;
  }

  lemma {:induction false} ClearIds(k: Kv, s: SessionId, replacement: SessionId, r: RequestId)
    ensures OwnIds(k) ==> OwnIds(HandleSessionClear(k, s, replacement))
    ensures Gone(k, r) ==> Gone(HandleSessionClear(k, s, replacement), r)
  {
    var k1 := HandleSessionClear(k, s, replacement);
    assert forall x :: Load(k1, x) == DefaultTurn || Load(k1, x) == Load(k, x);
  }

  lemma {:induction false} RestartIds(k: Kv, r: RequestId)
    ensures OwnIds(k) ==> OwnIds(HandleRestart(k))
    ensures Gone(k, r) ==> Gone(HandleRestart(k), r)
  {
  }

  /** A message about one session changes ids in that session only. */
  lemma {:induction false} OneSessionIds(cfg: Config, k: Kv, a: Action) returns (s: SessionId)
    requires Inv(cfg, k) && !a.WatchdogTick? && !a.BusLag? && !a.Restart? && !a.SessionClear?
    ensures IdStep(k, Apply(cfg, k, a), s)
  {
    match a
    case UserPrompt(x, text, requested, appendOk, now) => s := x; PromptIds(k, x, text, requested, appendOk, now);
    case Cancel(x, now) => s := x; CancelIds(k, x, now);
    case IdentityResponse(x, prompt, retry, w) => s := x; IdentityIds(cfg, k, x, prompt, retry, w.fetchOk, w.selected, w.now);
    case PromptResponse(x, p, tools, retry, w) =>
      s := x;
      assert SessionOk(cfg, k.nextRequest, Load(k, x), Hist(k.log, x));
      PromptResponseIds(cfg, k, x, p, tools, retry, w.selected, w.publishOk, w.now);
    case LlmStream(q, e, w) =>
      s := if q in k.requests then k.requests[q] else "";
      if q in k.requests { StreamIds(cfg, k, q, e, w); }
    case ToolResult(c, result, w) =>
      s := if c in k.calls then k.calls[c] else "";
      if c in k.calls { ResultIds(cfg, k, c, result, w); }
  }

  /** Every step of the machine keeps request ids apart, and an id that is gone
      stays gone. */
  lemma {:induction false} ApplyIds(cfg: Config, k: Kv, a: Action, r: RequestId)
    requires Inv(cfg, k)
    ensures OwnIds(k) ==> OwnIds(Apply(cfg, k, a))
    ensures Gone(k, r) ==> Gone(Apply(cfg, k, a), r)
  {
    if Enabled(k, a) {
      match a
      case WatchdogTick(now) => SweepIds(cfg, k, k.active, now, r);
      case BusLag(now) => InterruptIds(k, k.active, now, r);
      case Restart => RestartIds(k, r);
      case SessionClear(s, replacement) => ClearIds(k, s, replacement, r);
      case _ =>
        var s := OneSessionIds(cfg, k, a);
        IdStepKeeps(k, Apply(cfg, k, a), s, r);
    }
  }

  lemma {:induction false} RunIds(cfg: Config, k: Kv, acts: seq<Action>, r: RequestId)
    requires Inv(cfg, k)
    ensures OwnIds(k) ==> OwnIds(Run(cfg, k, acts))
    ensures Gone(k, r) ==> Gone(Run(cfg, k, acts), r)
    decreases |acts|
  {
    if acts != [] {
      ApplyKept(cfg, k, acts[0]);
      ApplyIds(cfg, k, acts[0], r);
      RunIds(cfg, Apply(cfg, k, acts[0]), acts[1..], r);
    }
  }

  /** What is cancelled stays cancelled: from any reachable store, after a
      cancel and whatever comes next, no event of the old request changes
      anything any more; nor does, right after the cancel, a result of any of
      the old calls. */
  lemma {:induction false} CancelIsFinal(cfg: Config, acts: seq<Action>, s: SessionId, now: nat, later: seq<Action>,
                                         e: StreamEvent, result: string, w: World)
    requires Load(Run(cfg, Boot, acts), s).phase != Idle
    ensures var k := Run(cfg, Boot, acts); var t := Load(k, s);
      var k2 := HandleCancel(k, s, now);
      && HandleLlmStream(cfg, Run(cfg, k2, later), t.requestId, e, w) == Run(cfg, k2, later)
      && forall i :: 0 <= i < |t.dispatched| ==> HandleToolResult(cfg, k2, t.dispatched[i].id, result, w) == k2
  {
    RunKept(cfg, Boot, acts);
    RunIds(cfg, Boot, acts, 0);
    var k := Run(cfg, Boot, acts);
    assert OwnIds(k);
    var r := CancelGone(cfg, k, s, now);
    var k2 := HandleCancel(k, s, now);
    CancelKept(cfg, k, s, now);
    RunIds(cfg, k2, later, r);
    assert Gone(Run(cfg, k2, later), r);
  }

  lemma {:induction false} CancelGone(cfg: Config, k: Kv, s: SessionId, now: nat) returns (r: RequestId)
    requires Inv(cfg, k) && OwnIds(k) && Load(k, s).phase != Idle
    ensures r == Load(k, s).requestId && Gone(HandleCancel(k, s, now), r)
    ensures forall i :: 0 <= i < |Load(k, s).dispatched| ==> Load(k, s).dispatched[i].id !in HandleCancel(k, s, now).calls
  {
    var t, k2 := Load(k, s), HandleCancel(k, s, now);
    r := t.requestId;
    assert SessionOk(cfg, k.nextRequest, t, Hist(k.log, s));
    CancelEnds(k, s, now);
    if t.phase == AwaitingTools && t.dispatched != [] {
      var ids :| TornDown(k, k2, s, [ToolCancel(s, ids)]) && Lists(ids, t.dispatched);
      TornDownGone(k, k2, s, [ToolCancel(s, ids)]);
    } else {
      TornDownGone(k, k2, s, []);
    }
  }

  lemma {:induction false} TornDownGone(k: Kv, k2: Kv, s: SessionId, es: seq<Event>)
    requires OwnIds(k) && Load(k, s).requestId != 0 && TornDown(k, k2, s, es)
    ensures Gone(k2, Load(k, s).requestId)
    ensures forall i :: 0 <= i < |Load(k, s).dispatched| ==> Load(k, s).dispatched[i].id !in k2.calls
  {
    forall x ensures Load(k2, x).requestId != Load(k, s).requestId {
      if x != s { assert Load(k2, x) == Load(k, x); }
    }
  }
}
