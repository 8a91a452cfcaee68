/**
 The invariant of the turn machine, and the proof that every handler keeps it.
 What has been published for a session since its last prompt is summarised by
 a `History`, computed from the bus log.
 */
module ReactInvariant {
  import opened Prelude
  import opened ReactModel

  /** Published for one session since its last prompt. `texts` is the text
      received per request id; `good` turns false at the first event that breaks
      the reply discipline; the peaks are the largest counts any prompt reached. */
  datatype History = History(finals: nat, requests: nat, rounds: nat, last: RequestId,
                             texts: map<RequestId, string>, peakRequests: nat, peakRounds: nat, good: bool)

  const NoHistory: History := History(0, 0, 0, 0, map[], 0, 0, true)

  function Max(a: nat, b: nat): nat { if a >= b then a else b }

  function TextOf(h: History, r: RequestId): string { if r in h.texts then h.texts[r] else "" }

  function ObserveText(h: History, r: RequestId, text: string): History {
    h.(texts := h.texts[r := TextOf(h, r) + text], good := h.good && h.finals == 0 && h.last == r && r != 0 && text != "")
  }

  function Observe(h: History, e: Event): History {
    match e
    case Prompt(_) => h.(finals := 0, requests := 0, rounds := 0, last := 0)
    case LlmRequest(_, r, _, _, _) => h.(requests := h.requests + 1, last := r, peakRequests := Max(h.peakRequests, h.requests + 1),
                                   good := h.good && TextOf(h, r) == "")
    case Round(_, r) => h.(rounds := h.rounds + 1, peakRounds := Max(h.peakRounds, h.rounds + 1), good := h.good && h.finals == 0 && h.last == r)
    case ToolRequest(_, r, _, _, _) => h.(good := h.good && h.finals == 0 && h.last == r)
    case Delta(_, r, text) => ObserveText(h, r, text)
    case Refused(_, r, text) => ObserveText(h, r, text)
    case Answer(_, r, text) =>
      h.(finals := h.finals + 1, good := h.good && h.finals == 0 && h.last == r && r != 0 && text == TextOf(h, r) && text != "")
    case Notice(_, _) => h.(finals := h.finals + 1, good := h.good && h.finals == 0)
    case _ => h
  }

  function Hist(log: seq<Event>, s: SessionId): History {
    if log == [] then NoHistory
    else
      var h := Hist(log[..|log| - 1], s);
      var e := log[|log| - 1];
      if e.session == s then Observe(h, e) else h
  }

  lemma {:induction false} HistSnoc(log: seq<Event>, e: Event, s: SessionId)
    ensures Hist(log + [e], s) == if e.session == s then Observe(Hist(log, s), e) else Hist(log, s)
  {
    assert (log + [e])[..|log|] == log;
  }

  lemma {:induction false} HistOther(log: seq<Event>, es: seq<Event>, s: SessionId)
    requires forall i :: 0 <= i < |es| ==> es[i].session != s
    ensures Hist(log + es, s) == Hist(log, s)
    decreases |es|
  {
    if es == [] {
      assert log + es == log;
    } else {
      var n := |es| - 1;
      HistOther(log, es[..n], s);
      HistSnoc(log + es[..n], es[n], s);
      assert log + es == (log + es[..n]) + [es[n]];
    }
  }

  // ---- The invariant ----

  function Cap(cfg: Config): nat { if cfg.maxIterations >= 1 then cfg.maxIterations else 1 }

  /** What one session's turn and its history say about each other. */
  predicate SessionOk(cfg: Config, next: RequestId, t: Turn, h: History) {
    && h.good
    && h.finals <= (if t.phase.Idle? then 1 else 0)
    && h.requests <= h.peakRequests <= Cap(cfg) && h.rounds <= h.peakRounds <= Cap(cfg)
    && t.requestId < next
    && (forall r :: r in h.texts ==> r < next)
    && (!t.phase.Idle? ==> t.requestId != 0 && t.iteration < Cap(cfg))
    && (t.phase.AwaitingIdentity? || t.phase.AwaitingPromptBuild? ==>
          h.requests == 0 && h.rounds == 0 && t.iteration == 0 && t.pending == [] && t.responseText == "")
    && (t.phase.Streaming? ==> h.requests <= t.iteration + 1 && h.rounds <= t.iteration)
    && (t.phase.AwaitingTools? ==> h.requests <= t.iteration + 1 && h.rounds <= t.iteration + 1)
    && (t.phase.AwaitingIdentity? || t.phase.AwaitingPromptBuild? || t.phase.Streaming? ==>
          t.dispatched == [] && t.responseText == TextOf(h, t.requestId))
    && (t.phase.AwaitingTools? ==> Unanswered(t.dispatched) && AllOfRequest(t.dispatched, t.requestId))
  }

  predicate Unanswered(dispatched: seq<ToolCall>) {
    exists i :: 0 <= i < |dispatched| && dispatched[i].result.None?
  }

  predicate AllOfRequest(dispatched: seq<ToolCall>, r: RequestId) {
    forall i :: 0 <= i < |dispatched| ==> dispatched[i].turn == r
  }

  predicate NoDuplicates(xs: seq<SessionId>) {
    forall i, j :: 0 <= i < j < |xs| ==> xs[i] != xs[j]
  }

  /** The active list is exactly the sessions with a turn under way. */
  ghost predicate ActiveExact(k: Kv) {
    NoDuplicates(k.active) && forall s :: s in k.active <==> !Load(k, s).phase.Idle?
  }

  /** An entry for a turn's current request id means the turn is streaming it;
      any other entry is for an id its session will never use again. */
  ghost predicate RequestOk(k: Kv, r: RequestId)
    requires r in k.requests
  {
    && 0 < r < k.nextRequest
    && var s := k.requests[r];
       Load(k, s).requestId == r ==> Load(k, s).phase.Streaming? && Hist(k.log, s).last == r
  }

  ghost predicate Inv(cfg: Config, k: Kv) {
    && 0 < k.nextRequest
    && ActiveExact(k)
    && (forall s :: SessionOk(cfg, k.nextRequest, Load(k, s), Hist(k.log, s)))
    && (forall r :: r in k.requests ==> RequestOk(k, r))
  }

  /** No stale entry at all: every request entry is the current request of a
      Streaming turn, every call entry a call of an AwaitingTools turn. */
  predicate LiveRequest(k: Kv, r: RequestId)
    requires r in k.requests
  {
    var t := Load(k, k.requests[r]); t.phase.Streaming? && t.requestId == r
  }

  predicate LiveCall(k: Kv, c: CallId)
    requires c in k.calls
  {
    var t := Load(k, k.calls[c]); t.phase.AwaitingTools? && c in CallIds(t.dispatched)
  }

  predicate Live(k: Kv) {
    && (forall r :: r in k.requests ==> LiveRequest(k, r))
    && (forall c :: c in k.calls ==> LiveCall(k, c))
  }

  // ---- The active list ----

  lemma {:induction false} RegisterKeeps(active: seq<SessionId>, s: SessionId)
    requires NoDuplicates(active)
    ensures NoDuplicates(Register(active, s))
    ensures forall x :: x in Register(active, s) <==> x in active || x == s
  {
  }

  lemma {:induction false} UnregisterKeeps(active: seq<SessionId>, s: SessionId)
    requires NoDuplicates(active)
    ensures NoDuplicates(Unregister(active, s))
    ensures forall x :: x in Unregister(active, s) <==> x in active && x != s
  {
    if s in active {
      var i := IndexOf(active, s);
      var n := |active| - 1;
      var out := Unregister(active, s);
      assert forall j :: 0 <= j < n ==> out[j] == if j == i then active[n] else active[j];
      forall x | x in active && x != s ensures x in out {
        var j :| 0 <= j <= n && active[j] == x;
        if j == n { assert out[i] == x; } else { assert out[j] == x; }
      }
      forall x | x in out ensures x in active && x != s {
        var j :| 0 <= j < n && out[j] == x;
        assert x == if j == i then active[n] else active[j];
      }
    }
  }

  // ---- One session changes ----

  predicate About(es: seq<Event>, s: SessionId) { forall i :: 0 <= i < |es| ==> es[i].session == s }

  /** `k2` differs from `k` only in what belongs to session `s`. */
  ghost predicate LocalStep(k: Kv, k2: Kv, s: SessionId, es: seq<Event>) {
    && (forall x :: x != s ==> Load(k2, x) == Load(k, x))
    && k2.log == k.log + es && About(es, s)
    && k.nextRequest <= k2.nextRequest
    && k2.active == (if Load(k2, s).phase.Idle? then Unregister(k.active, s) else Register(k.active, s))
    && (forall r :: r in k2.requests && k2.requests[r] != s ==> r in k.requests && k.requests[r] == k2.requests[r])
    && (forall c :: c in k2.calls && k2.calls[c] != s ==> c in k.calls && k.calls[c] == k2.calls[c])
  }

  lemma {:induction false} LocalKeepsInv(cfg: Config, k: Kv, k2: Kv, s: SessionId, es: seq<Event>)
    requires Inv(cfg, k) && LocalStep(k, k2, s, es)
    requires SessionOk(cfg, k2.nextRequest, Load(k2, s), Hist(k2.log, s))
    requires forall r :: r in k2.requests && k2.requests[r] == s ==> RequestOk(k2, r)
    ensures Inv(cfg, k2)
  {
    RegisterKeeps(k.active, s);
    UnregisterKeeps(k.active, s);
    forall x ensures SessionOk(cfg, k2.nextRequest, Load(k2, x), Hist(k2.log, x)) {
      if x != s { HistOther(k.log, es, x); assert SessionOk(cfg, k.nextRequest, Load(k, x), Hist(k.log, x)); }
    }
    forall r | r in k2.requests ensures RequestOk(k2, r) {
      var x := k2.requests[r];
      if x != s { HistOther(k.log, es, x); assert RequestOk(k, r); }
    }
  }

  lemma {:induction false} LocalKeepsLive(k: Kv, k2: Kv, s: SessionId, es: seq<Event>)
    requires Live(k) && LocalStep(k, k2, s, es)
    requires forall r :: r in k2.requests && k2.requests[r] == s ==> LiveRequest(k2, r)
    requires forall c :: c in k2.calls && k2.calls[c] == s ==> LiveCall(k2, c)
    ensures Live(k2)
  {
    forall r | r in k2.requests ensures LiveRequest(k2, r) {
      if k2.requests[r] != s { assert LiveRequest(k, r); }
    }
    forall c | c in k2.calls ensures LiveCall(k2, c) {
      if k2.calls[c] != s { assert LiveCall(k, c); }
    }
  }

  /** `Inv`, and `Live` when it held before: what each handler is shown to keep. */
  ghost predicate Kept(cfg: Config, k: Kv, k2: Kv) { Inv(cfg, k2) && (Live(k) ==> Live(k2)) }

  // ---- Teardown ----

  /** The terminal teardown after a last notice. */
  lemma {:induction false} NoticeAbortKept(cfg: Config, k: Kv, s: SessionId, text: string, t: Turn, now: nat)
    requires Inv(cfg, k) && !Load(k, s).phase.Idle?
    requires t.requestId == Load(k, s).requestId && t.dispatched == Load(k, s).dispatched
    ensures Kept(cfg, k, Abort(Emit(k, Notice(s, text)), s, t, now))
  {
    var k2 := Abort(Emit(k, Notice(s, text)), s, t, now);
    HistSnoc(k.log, Notice(s, text), s);
    assert SessionOk(cfg, k.nextRequest, Load(k, s), Hist(k.log, s));
    AbortKept(cfg, k, k2, s, [Notice(s, text)], t);
  }

  lemma {:induction false} AbortKept(cfg: Config, k: Kv, k2: Kv, s: SessionId, es: seq<Event>, t: Turn)
    requires Inv(cfg, k) && !Load(k, s).phase.Idle?
    requires t.requestId == Load(k, s).requestId && t.dispatched == Load(k, s).dispatched
    requires k2.turns == k.turns[s := Load(k2, s)] && Load(k2, s).phase.Idle? && Load(k2, s).requestId == k.nextRequest
    requires k2.nextRequest == k.nextRequest + 1 && k2.active == Unregister(k.active, s)
    requires k2.requests == k.requests - {t.requestId} && k2.calls == k.calls - CallIds(t.dispatched)
    requires k2.log == k.log + es && About(es, s)
    requires SessionOk(cfg, k2.nextRequest, Load(k2, s), Hist(k2.log, s))
    ensures Kept(cfg, k, k2)
  {
    assert LocalStep(k, k2, s, es);
    forall r | r in k2.requests && k2.requests[r] == s ensures RequestOk(k2, r) { assert RequestOk(k, r); }
    LocalKeepsInv(cfg, k, k2, s, es);
    if Live(k) {
      forall r | r in k2.requests ensures k2.requests[r] != s { assert LiveRequest(k, r); }
      forall c | c in k2.calls ensures k2.calls[c] != s { assert LiveCall(k, c); }
      LocalKeepsLive(k, k2, s, es);
    }
  }

  lemma {:induction false} TimeoutKept(cfg: Config, k: Kv, s: SessionId, now: nat)
    requires Inv(cfg, k)
    ensures Kept(cfg, k, CheckTimeout(cfg, k, s, now))
  {
    if TimedOut(cfg, Load(k, s), now) { NoticeAbortKept(cfg, k, s, TIMEOUT_TEXT, Load(k, s), now); }
  }

  lemma {:induction false} SweepKept(cfg: Config, k: Kv, sessions: seq<SessionId>, now: nat)
    requires Inv(cfg, k)
    ensures Kept(cfg, k, Sweep(cfg, k, sessions, now))
    decreases |sessions|
  {
    if sessions != [] {
      TimeoutKept(cfg, k, sessions[0], now);
      SweepKept(cfg, CheckTimeout(cfg, k, sessions[0], now), sessions[1..], now);
    }
  }

  lemma {:induction false} InterruptAllKept(cfg: Config, k: Kv, sessions: seq<SessionId>, now: nat)
    requires Inv(cfg, k)
    ensures Kept(cfg, k, InterruptAll(k, sessions, now))
    decreases |sessions|
  {
    if sessions != [] {
      var t := Load(k, sessions[0]);
      if t.phase.Streaming? || t.phase.AwaitingTools? { NoticeAbortKept(cfg, k, sessions[0], LAG_TEXT, t, now); }
      InterruptAllKept(cfg, Interrupt(k, sessions[0], now), sessions[1..], now);
    }
  }

  lemma {:induction false} CancelKept(cfg: Config, k: Kv, s: SessionId, now: nat)
    requires Inv(cfg, k)
    ensures Kept(cfg, k, HandleCancel(k, s, now))
  {
    var t := Load(k, s);
    if !t.phase.Idle? {
      var k2 := HandleCancel(k, s, now);
      assert SessionOk(cfg, k.nextRequest, t, Hist(k.log, s));
      if t.phase.AwaitingTools? && t.dispatched != [] {
        var e := ToolCancel(s, Ids(t.dispatched));
        HistSnoc(k.log, e, s);
        AbortKept(cfg, k, k2, s, [e], t);
      } else {
        AbortKept(cfg, k, k2, s, [], t);
      }
    }
  }
}
