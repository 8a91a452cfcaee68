/** What every run of the turn machine guarantees. */
module ReactTheorems {
  import opened Prelude
  import opened ReactModel
  import opened ReactInvariant
  import opened ReactSteps

  lemma {:induction false} ReachableInv(cfg: Config, acts: seq<Action>)
    ensures Inv(cfg, Run(cfg, Boot, acts))
  {
    RunKept(cfg, Boot, acts);
  }

  /** The active list has no duplicates and is exactly the set of sessions with
      a stored turn that is not Idle, in every reachable state. */
  lemma {:induction false} ActiveListExact(cfg: Config, acts: seq<Action>)
    ensures var k := Run(cfg, Boot, acts);
      NoDuplicates(k.active) && forall s :: s in k.active <==> s in k.turns && !k.turns[s].phase.Idle?
  {
    ReachableInv(cfg, acts);
  }

  /** Without session-clear, no correlation entry ever outlives its use. */
  lemma {:induction false} CorrelationsLive(cfg: Config, acts: seq<Action>)
    requires forall i :: 0 <= i < |acts| ==> !acts[i].SessionClear?
    ensures var k := Run(cfg, Boot, acts);
      && (forall r :: r in k.requests ==> (
            && k.requests[r] in k.turns
            && k.turns[k.requests[r]].phase.Streaming?
            && k.turns[k.requests[r]].requestId == r))
      && (forall c :: c in k.calls ==> (
            && k.calls[c] in k.turns
            && k.turns[k.calls[c]].phase.AwaitingTools?
            && c in CallIds(k.turns[k.calls[c]].dispatched)))
  {
    RunKept(cfg, Boot, acts);
    var k := Run(cfg, Boot, acts);
    forall r | r in k.requests ensures k.requests[r] in k.turns
      && k.turns[k.requests[r]].phase.Streaming? && k.turns[k.requests[r]].requestId == r { assert LiveRequest(k, r); }
    forall c | c in k.calls ensures k.calls[c] in k.turns
      && k.turns[k.calls[c]].phase.AwaitingTools? && c in CallIds(k.turns[k.calls[c]].dispatched) { assert LiveCall(k, c); }
  }

  predicate NamedByNoEntry(k: Kv, s: SessionId) {
    && (forall r :: r in k.requests ==> k.requests[r] != s)
    && (forall c :: c in k.calls ==> k.calls[c] != s)
  }

  /** Session-clear keeps the correlation maps live exactly when none of their
      entries names the cleared session. */
  lemma {:induction false} ClearKeepsLiveIff(k: Kv, s: SessionId, replacement: SessionId)
    requires Live(k) && Enabled(k, SessionClear(s, replacement))
    ensures Live(HandleSessionClear(k, s, replacement)) <==> NamedByNoEntry(k, s)
  {
    var k2 := HandleSessionClear(k, s, replacement);
    assert Load(k2, s) == DefaultTurn && forall x :: x != s ==> Load(k2, x) == Load(k, x);
    if Live(k2) {
      forall r | r in k.requests ensures k.requests[r] != s { assert LiveRequest(k2, r); }
      forall c | c in k.calls ensures k.calls[c] != s { assert LiveCall(k2, c); }
    }
    if NamedByNoEntry(k, s) {
      forall r | r in k2.requests ensures LiveRequest(k2, r) { assert LiveRequest(k, r); }
      forall c | c in k2.calls ensures LiveCall(k2, c) { assert LiveCall(k, c); }
    }
  }

  /** Even after clears, a stale entry never changes anything: an event or a
      result arriving through one leaves the whole store as it was, unless the
      session it names has just timed out. */
  lemma {:induction false} StaleEntriesHarmless(cfg: Config, acts: seq<Action>, r: RequestId, c: CallId, e: StreamEvent, result: string, w: World)
    ensures var k := Run(cfg, Boot, acts);
      && (r in k.requests && !LiveRequest(k, r) && !TimedOut(cfg, Load(k, k.requests[r]), w.now) ==>
            HandleLlmStream(cfg, k, r, e, w) == k)
      && (c in k.calls && !LiveCall(k, c) && !TimedOut(cfg, Load(k, k.calls[c]), w.now) ==>
            HandleToolResult(cfg, k, c, result, w) == k)
  {
    ReachableInv(cfg, acts);
    var k := Run(cfg, Boot, acts);
    if c in k.calls && !LiveCall(k, c) && !TimedOut(cfg, Load(k, k.calls[c]), w.now) {
      var s := k.calls[c];
      var t := Load(k, s);
      if t.phase.AwaitingTools? {
        assert SessionOk(cfg, k.nextRequest, t, Hist(k.log, s));
        NotDispatched(t.dispatched, c, result);
        var i :| 0 <= i < |t.dispatched| && t.dispatched[i].result.None?;
        assert t.(dispatched := RecordResult(t.dispatched, c, result)) == t;
        assert k.turns[s := t] == k.turns;
      }
    }
  }

  lemma {:induction false} NotDispatched(dispatched: seq<ToolCall>, c: CallId, result: string)
    requires c !in CallIds(dispatched)
    ensures FirstCall(dispatched, c) == None && RecordResult(dispatched, c, result) == dispatched
  {
    if dispatched != [] {
      assert dispatched[0].id in CallIds(dispatched);
      forall x | x in CallIds(dispatched[1..]) ensures x in CallIds(dispatched) {
        var i :| 0 <= i < |dispatched| - 1 && dispatched[1..][i].id == x;
        assert dispatched[i + 1].id == x;
      }
      NotDispatched(dispatched[1..], c, result);
    }
  }

  /** A stored AwaitingTools turn still waits for something, and all it waits
      for was dispatched under its current request id. */
  lemma {:induction false} AwaitingToolsAwaits(cfg: Config, acts: seq<Action>, s: SessionId)
    requires var k := Run(cfg, Boot, acts); s in k.turns && k.turns[s].phase.AwaitingTools?
    ensures var t := Run(cfg, Boot, acts).turns[s];
      && (exists i :: 0 <= i < |t.dispatched| && t.dispatched[i].result.None?)
      && forall i :: 0 <= i < |t.dispatched| ==> t.dispatched[i].turn == t.requestId
  {
    ReachableInv(cfg, acts);
    var k := Run(cfg, Boot, acts);
    assert SessionOk(cfg, k.nextRequest, Load(k, s), Hist(k.log, s));
  }

  // ---- What reaches the user ----

  predicate IsFinal(e: Event) { e.Answer? || e.Notice? }

  lemma {:induction false} GoodPrefix(log: seq<Event>, s: SessionId, j: nat)
    requires Hist(log, s).good && j <= |log|
    ensures Hist(log[..j], s).good
    decreases |log| - j
  {
    if j == |log| {
      assert log[..j] == log;
    } else {
      GoodPrefix(log, s, j + 1);
      assert log[..j + 1][..j] == log[..j];
    }
  }

  lemma {:induction false} FinalStillCounted(log: seq<Event>, s: SessionId, i: nat, j: nat)
    requires i < j <= |log| && IsFinal(log[i]) && log[i].session == s
    requires forall m :: i < m < j ==> log[m] != Prompt(s)
    ensures Hist(log[..j], s).finals >= 1
    decreases j
  {
    assert log[..j][..j - 1] == log[..j - 1];
    if j > i + 1 { FinalStillCounted(log, s, i, j - 1); }
  }

  /** One final response per prompt, and nothing after it: in every run,
      between a session's final response and any later delta, tool request or
      final response of that session there is a new prompt. */
  lemma {:induction false} OneFinalPerPrompt(cfg: Config, acts: seq<Action>, i: nat, j: nat) returns (m: nat)
    requires var log := Run(cfg, Boot, acts).log;
      && i < j < |log| && log[i].session == log[j].session
      && IsFinal(log[i]) && (IsFinal(log[j]) || log[j].Delta? || log[j].Refused? || log[j].ToolRequest? || log[j].Round?)
    ensures i < m < j && Run(cfg, Boot, acts).log[m] == Prompt(Run(cfg, Boot, acts).log[i].session)
  {
    ReachableInv(cfg, acts);
    var k := Run(cfg, Boot, acts);
    var s := k.log[i].session;
    assert SessionOk(cfg, k.nextRequest, Load(k, s), Hist(k.log, s));
    GoodPrefix(k.log, s, j + 1);
    assert k.log[..j + 1][..j] == k.log[..j];
    if forall x :: i < x < j ==> k.log[x] != Prompt(s) {
      FinalStillCounted(k.log, s, i, j);
      assert false;
    }
    m :| i < m < j && k.log[m] == Prompt(s);
  }

  // ---- Text: received, published, answered ----

  /** The text the model has streamed to the capsule under one request id. */
  function ReceivedText(log: seq<Event>, s: SessionId, r: RequestId): string {
    if log == [] then ""
    else
      var e := log[|log| - 1];
      ReceivedText(log[..|log| - 1], s, r) + (if (e.Delta? || e.Refused?) && e.session == s && e.request == r then e.text else "")
  }

  /** The part of it that the bus took: what a listener accumulates. */
  function PublishedText(log: seq<Event>, s: SessionId, r: RequestId): string {
    if log == [] then ""
    else
      var e := log[|log| - 1];
      PublishedText(log[..|log| - 1], s, r) + (if e.Delta? && e.session == s && e.request == r then e.text else "")
  }

  /** Some text of the request was refused. */
  ghost predicate Lost(log: seq<Event>, s: SessionId, r: RequestId) {
    exists j :: 0 <= j < |log| && log[j].Refused? && log[j].session == s && log[j].request == r
  }

  lemma {:induction false} TextIsReceived(log: seq<Event>, s: SessionId, r: RequestId)
    ensures TextOf(Hist(log, s), r) == ReceivedText(log, s, r)
  {
    if log != [] { TextIsReceived(log[..|log| - 1], s, r); }
  }

  lemma {:induction false} LostSnoc(log: seq<Event>, s: SessionId, r: RequestId)
    requires log != []
    ensures var e := log[|log| - 1];
      Lost(log, s, r) <==> Lost(log[..|log| - 1], s, r) || (e.Refused? && e.session == s && e.request == r)
  {
    var n := |log| - 1;
    if Lost(log[..n], s, r) {
      var j :| 0 <= j < n && log[..n][j].Refused? && log[..n][j].session == s && log[..n][j].request == r;
      assert log[j].Refused?;
    }
    if Lost(log, s, r) {
      var j :| 0 <= j < |log| && log[j].Refused? && log[j].session == s && log[j].request == r;
      if j < n { assert log[..n][j].Refused?; }
    }
  }

  /** What is published is never longer, and shorter exactly when text was lost. */
  lemma {:induction false} LossShortens(log: seq<Event>, s: SessionId, r: RequestId)
    requires Hist(log, s).good
    ensures |PublishedText(log, s, r)| <= |ReceivedText(log, s, r)|
    ensures PublishedText(log, s, r) == ReceivedText(log, s, r) <==> !Lost(log, s, r)
    ensures Lost(log, s, r) ==> |PublishedText(log, s, r)| < |ReceivedText(log, s, r)|
    decreases |log|
  {
    if log != [] {
      LossShortens(log[..|log| - 1], s, r);
      LostSnoc(log, s, r);
    }
  }

  /** The id of the last LLM request made for a session. */
  function LastRequest(log: seq<Event>, s: SessionId): RequestId {
    if log == [] then 0
    else if log[|log| - 1].LlmRequest? && log[|log| - 1].session == s then log[|log| - 1].request
    else LastRequest(log[..|log| - 1], s)
  }

  lemma {:induction false} LastIsLastRequest(log: seq<Event>, s: SessionId)
    ensures Hist(log, s).last == LastRequest(log, s) || Hist(log, s).last == 0
  {
    if log != [] { LastIsLastRequest(log[..|log| - 1], s); }
  }

  /** The authoritative text is what the model streamed: in every run an answer
      is non-empty and equals the concatenation of the texts received under its
      request id, which is the session's last LLM request. It equals what the
      bus carried as deltas exactly when the bus refused none of them. */
  lemma {:induction false} AnswerIsWhatWasStreamed(cfg: Config, acts: seq<Action>, i: nat)
    requires i < |Run(cfg, Boot, acts).log| && Run(cfg, Boot, acts).log[i].Answer?
    ensures var log := Run(cfg, Boot, acts).log; var Answer(s, r, text) := log[i];
      && text != "" && text == ReceivedText(log[..i], s, r) && r == LastRequest(log[..i], s)
      && (text == PublishedText(log[..i], s, r) <==> !Lost(log[..i], s, r))
  {
    ReachableInv(cfg, acts);
    var k := Run(cfg, Boot, acts);
    var s := k.log[i].session;
    assert SessionOk(cfg, k.nextRequest, Load(k, s), Hist(k.log, s));
    GoodPrefix(k.log, s, i + 1);
    assert k.log[..i + 1][..i] == k.log[..i];
    TextIsReceived(k.log[..i], s, k.log[i].request);
    LastIsLastRequest(k.log[..i], s);
    LossShortens(k.log[..i], s, k.log[i].request);
  }

  // ---- Bounded work ----

  /** LLM requests (or tool rounds) of session `s` among log entries `i..j`. */
  function CountRequests(log: seq<Event>, s: SessionId, i: nat, j: nat): nat
    requires i <= j <= |log|
    decreases j
  {
    if i == j then 0 else CountRequests(log, s, i, j - 1) + (if log[j - 1].LlmRequest? && log[j - 1].session == s then 1 else 0)
  }

  function CountRounds(log: seq<Event>, s: SessionId, i: nat, j: nat): nat
    requires i <= j <= |log|
    decreases j
  {
    if i == j then 0 else CountRounds(log, s, i, j - 1) + (if log[j - 1].Round? && log[j - 1].session == s then 1 else 0)
  }

  lemma {:induction false} SegmentCounted(log: seq<Event>, s: SessionId, i: nat, j: nat)
    requires i <= j <= |log|
    requires forall m :: i <= m < j ==> log[m] != Prompt(s)
    ensures CountRequests(log, s, i, j) <= Hist(log[..j], s).requests
    ensures CountRounds(log, s, i, j) <= Hist(log[..j], s).rounds
    decreases j
  {
    if i < j {
      SegmentCounted(log, s, i, j - 1);
      assert log[..j][..j - 1] == log[..j - 1];
    }
  }

  lemma {:induction false} PeaksDominate(log: seq<Event>, s: SessionId, j: nat)
    requires j <= |log|
    ensures Hist(log[..j], s).requests <= Hist(log[..j], s).peakRequests <= Hist(log, s).peakRequests
    ensures Hist(log[..j], s).rounds <= Hist(log[..j], s).peakRounds <= Hist(log, s).peakRounds
    decreases |log|
  {
    if j == |log| {
      assert log[..j] == log;
      if log != [] { PeaksDominate(log[..j - 1], s, j - 1); assert log[..j - 1][..j - 1] == log[..j - 1]; }
    } else {
      var n := |log| - 1;
      PeaksDominate(log[..n], s, j);
      assert log[..n][..j] == log[..j];
    }
  }

  /** Bounded work: between two prompts of a session there are at most
      max(1, max_iterations) LLM requests and as many tool-dispatch rounds, in
      any stretch of any run. */
  lemma {:induction false} WorkPerPromptBounded(cfg: Config, acts: seq<Action>, s: SessionId, i: nat, j: nat)
    requires i <= j <= |Run(cfg, Boot, acts).log|
    requires forall m :: i <= m < j ==> Run(cfg, Boot, acts).log[m] != Prompt(s)
    ensures CountRequests(Run(cfg, Boot, acts).log, s, i, j) <= Cap(cfg)
    ensures CountRounds(Run(cfg, Boot, acts).log, s, i, j) <= Cap(cfg)
  {
    ReachableInv(cfg, acts);
    var k := Run(cfg, Boot, acts);
    assert SessionOk(cfg, k.nextRequest, Load(k, s), Hist(k.log, s));
    SegmentCounted(k.log, s, i, j);
    PeaksDominate(k.log, s, j);
  }
}
