/** Tool rounds: results in any order bring the model back, and what stalls a round. */
module ReactRounds {
  import opened Prelude
  import opened ReactModel
  import opened ReactInvariant
  import opened ReactSteps
  import opened ReactProgress

  /** One tool result as its handler sees it. */
  datatype Reply = Reply(call: CallId, text: string, w: World)

  function ReplyRun(rs: seq<Reply>): seq<Action> {
    seq(|rs|, i requires 0 <= i < |rs| => ToolResult(rs[i].call, rs[i].text, rs[i].w))
  }

  function RecordAll(dispatched: seq<ToolCall>, rs: seq<Reply>): seq<ToolCall> {
    if rs == [] then dispatched
    else RecordResult(RecordAll(dispatched, rs[..|rs| - 1]), rs[|rs| - 1].call, rs[|rs| - 1].text)
  }

  predicate DistinctIds(dispatched: seq<ToolCall>) {
    forall i, j :: 0 <= i < j < |dispatched| ==> dispatched[i].id != dispatched[j].id
  }

  predicate NoneAnswered(dispatched: seq<ToolCall>) {
    dispatched != [] && forall i :: 0 <= i < |dispatched| ==> dispatched[i].result.None?
  }

  predicate Names(rs: seq<Reply>, c: CallId) { exists i :: 0 <= i < |rs| && rs[i].call == c }

  lemma {:induction false} NamesSnoc(rs: seq<Reply>, c: CallId)
    requires rs != []
    ensures Names(rs, c) <==> Names(rs[..|rs| - 1], c) || rs[|rs| - 1].call == c
  {
    var n := |rs| - 1;
    if Names(rs, c) {
      var i :| 0 <= i < |rs| && rs[i].call == c;
      if i < n { assert rs[..n][i].call == c; }
    }
    if Names(rs[..n], c) {
      var i :| 0 <= i < n && rs[..n][i].call == c;
      assert rs[i].call == c;
    }
  }

  // ---- What results record ----

  /** A result goes to the first call with its id, and to no other. */
  lemma {:induction false} RecordAt(dispatched: seq<ToolCall>, c: CallId, text: string, j: nat)
    requires j < |dispatched|
    ensures var out := RecordResult(dispatched, c, text);
      && |out| == |dispatched| && out[j].id == dispatched[j].id && out[j].turn == dispatched[j].turn
      && (out[j].result.Some? <==> dispatched[j].result.Some? || (dispatched[j].id == c && forall i :: 0 <= i < j ==> dispatched[i].id != c))
  {
    RecordResultShape(dispatched, c, text);
    if dispatched[0].id != c && j > 0 {
      RecordAt(dispatched[1..], c, text, j - 1);
      if forall i :: 0 <= i < j - 1 ==> dispatched[1..][i].id != c {
        forall i | 0 <= i < j ensures dispatched[i].id != c { assert i > 0 ==> dispatched[1..][i - 1] == dispatched[i]; }
      }
    }
  }

  /** The text it is answered with is the result's, and others keep theirs. */
  lemma {:induction false} RecordedText(dispatched: seq<ToolCall>, c: CallId, text: string, j: nat)
    requires DistinctIds(dispatched) && j < |dispatched|
    ensures |RecordResult(dispatched, c, text)| == |dispatched|
    ensures RecordResult(dispatched, c, text)[j] == dispatched[j].(result := if dispatched[j].id == c then Some(text) else dispatched[j].result)
  {
    RecordResultShape(dispatched, c, text);
    if dispatched[0].id != c && j > 0 { RecordedText(dispatched[1..], c, text, j - 1); }
    else if j > 0 { assert dispatched[0].id != dispatched[j].id; }
  }

  /** The latest result that names a call. */
  function LatestText(rs: seq<Reply>, c: CallId): Option<string> {
    if rs == [] then None
    else if rs[|rs| - 1].call == c then Some(rs[|rs| - 1].text)
    else LatestText(rs[..|rs| - 1], c)
  }

  /** After any results each call is itself, with the latest result that names it. */
  lemma {:induction false} RecordedAll(dispatched: seq<ToolCall>, rs: seq<Reply>, j: nat)
    requires DistinctIds(dispatched) && NoneAnswered(dispatched) && j < |dispatched|
    ensures |RecordAll(dispatched, rs)| == |dispatched|
    ensures RecordAll(dispatched, rs)[j] == dispatched[j].(result := LatestText(rs, dispatched[j].id))
    decreases |rs|
  {
    if rs != [] {
      var n := |rs| - 1;
      var before := RecordAll(dispatched, rs[..n]);
      RecordedAll(dispatched, rs[..n], j);
      RecordAllShape(dispatched, rs[..n]);
      RecordedText(before, rs[n].call, rs[n].text, j);
    }
  }

  lemma {:induction false} RecordAllShape(dispatched: seq<ToolCall>, rs: seq<Reply>)
    ensures var out := RecordAll(dispatched, rs);
      && |out| == |dispatched|
      && forall i :: 0 <= i < |out| ==> out[i].id == dispatched[i].id && out[i].turn == dispatched[i].turn
    decreases |rs|
  {
    if rs != [] {
      var n := |rs| - 1;
      RecordAllShape(dispatched, rs[..n]);
      RecordResultShape(RecordAll(dispatched, rs[..n]), rs[n].call, rs[n].text);
    }
  }

  /** With distinct ids, a call is answered exactly when some result names it. */
  lemma {:induction false} AnsweredIff(dispatched: seq<ToolCall>, rs: seq<Reply>, j: nat)
    requires DistinctIds(dispatched) && NoneAnswered(dispatched) && j < |dispatched|
    ensures |RecordAll(dispatched, rs)| == |dispatched|
    ensures RecordAll(dispatched, rs)[j].result.Some? <==> Names(rs, dispatched[j].id)
    decreases |rs|
  {
    if rs != [] {
      var n := |rs| - 1;
      var before := RecordAll(dispatched, rs[..n]);
      AnsweredIff(dispatched, rs[..n], j);
      RecordAllShape(dispatched, rs[..n]);
      RecordAt(before, rs[n].call, rs[n].text, j);
      NamesSnoc(rs, dispatched[j].id);
    }
  }

  lemma {:induction false} AllAnsweredIff(dispatched: seq<ToolCall>, rs: seq<Reply>)
    requires DistinctIds(dispatched) && NoneAnswered(dispatched)
    ensures AllAnswered(RecordAll(dispatched, rs)) <==> forall j :: 0 <= j < |dispatched| ==> Names(rs, dispatched[j].id)
  {
    RecordAllShape(dispatched, rs);
    forall j | 0 <= j < |dispatched| ensures RecordAll(dispatched, rs)[j].result.Some? <==> Names(rs, dispatched[j].id) {
      AnsweredIff(dispatched, rs, j);
    }
  }

  /** The second of two calls with one id is never answered. */
  lemma {:induction false} SecondNeverAnswered(dispatched: seq<ToolCall>, rs: seq<Reply>, i: nat, j: nat)
    requires NoneAnswered(dispatched) && i < j < |dispatched| && dispatched[i].id == dispatched[j].id
    ensures |RecordAll(dispatched, rs)| == |dispatched| && RecordAll(dispatched, rs)[j].result.None?
    decreases |rs|
  {
    if rs != [] {
      var n := |rs| - 1;
      SecondNeverAnswered(dispatched, rs[..n], i, j);
      RecordAllShape(dispatched, rs[..n]);
      RecordAt(RecordAll(dispatched, rs[..n]), rs[n].call, rs[n].text, j);
    }
  }

  /** A round can be completed at all exactly when its calls have distinct ids:
      two calls with one id, as a provider that repeats a name makes react
      dispatch, leave the second unanswered for ever. */
  lemma {:induction false} CompletableIff(dispatched: seq<ToolCall>, w: World)
    requires NoneAnswered(dispatched)
    ensures (exists rs :: AllAnswered(RecordAll(dispatched, rs))) <==> DistinctIds(dispatched)
  {
    if DistinctIds(dispatched) {
      var rs := seq(|dispatched|, i requires 0 <= i < |dispatched| => Reply(dispatched[i].id, "", w));
      forall j | 0 <= j < |dispatched| ensures Names(rs, dispatched[j].id) { assert rs[j].call == dispatched[j].id; }
      AllAnsweredIff(dispatched, rs);
    } else {
      var i, j :| 0 <= i < j < |dispatched| && dispatched[i].id == dispatched[j].id;
      forall rs ensures !AllAnswered(RecordAll(dispatched, rs)) { SecondNeverAnswered(dispatched, rs, i, j); }
    }
  }

  // ---- The round ----

  /** `s` waits for the calls it dispatched under its request id. */
  predicate Waits(k: Kv, s: SessionId) {
    && s in k.turns && k.turns[s].phase.AwaitingTools?
    && AllOfRequest(k.turns[s].dispatched, k.turns[s].requestId)
    && forall c :: c in CallIds(k.turns[s].dispatched) ==> c in k.calls && k.calls[c] == s
  }

  /** The result of a dispatched call, in time. */
  predicate Timely(cfg: Config, t: Turn, r: Reply) {
    r.call in CallIds(t.dispatched) && InTime(cfg, AwaitingTools, t.enteredAt, r.w.now)
  }

  function Recording(k: Kv, s: SessionId, rs: seq<Reply>): Kv
    requires s in k.turns
  {
    Save(k, s, k.turns[s].(dispatched := RecordAll(k.turns[s].dispatched, rs)))
  }

  lemma {:induction false} FirstIsOfRequest(dispatched: seq<ToolCall>, c: CallId, r: RequestId)
    requires AllOfRequest(dispatched, r)
    ensures FirstCall(dispatched, c).Some? ==> FirstCall(dispatched, c).value.turn == r
  {
    if dispatched != [] && dispatched[0].id != c { FirstIsOfRequest(dispatched[1..], c, r); }
  }

  lemma {:induction false} RecordingWaits(k: Kv, s: SessionId, rs: seq<Reply>)
    requires Waits(k, s)
    ensures Waits(Recording(k, s, rs), s)
    ensures CallIds(RecordAll(k.turns[s].dispatched, rs)) == CallIds(k.turns[s].dispatched)
  {
    RecordAllShape(k.turns[s].dispatched, rs);
    SameIds(RecordAll(k.turns[s].dispatched, rs), k.turns[s].dispatched);
  }

  lemma {:induction false} OneReply(cfg: Config, k: Kv, s: SessionId, r: Reply)
    requires Waits(k, s) && Timely(cfg, k.turns[s], r)
    requires !AllAnswered(RecordResult(k.turns[s].dispatched, r.call, r.text))
    ensures Apply(cfg, k, ToolResult(r.call, r.text, r.w)) ==
      Save(k, s, k.turns[s].(dispatched := RecordResult(k.turns[s].dispatched, r.call, r.text)))
  {
    FirstIsOfRequest(k.turns[s].dispatched, r.call, k.turns[s].requestId);
    assert !TimedOut(cfg, k.turns[s], r.w.now);
  }

  /** No beginning of the results answers all calls. */
  ghost predicate NeverAll(dispatched: seq<ToolCall>, rs: seq<Reply>) {
    forall i :: 0 <= i <= |rs| ==> !AllAnswered(RecordAll(dispatched, rs[..i]))
  }

  lemma {:induction false} NeverAllPrefix(dispatched: seq<ToolCall>, rs: seq<Reply>)
    requires rs != [] && NeverAll(dispatched, rs)
    ensures NeverAll(dispatched, rs[..|rs| - 1]) && !AllAnswered(RecordAll(dispatched, rs))
  {
    var n := |rs| - 1;
    assert rs[..|rs|] == rs;
    forall i | 0 <= i <= n ensures !AllAnswered(RecordAll(dispatched, rs[..n][..i])) { assert rs[..n][..i] == rs[..i]; }
  }

  /** One more result on top of what is recorded. */
  lemma {:induction false} NextReply(cfg: Config, k: Kv, s: SessionId, rs: seq<Reply>)
    requires Waits(k, s) && rs != [] && Timely(cfg, k.turns[s], rs[|rs| - 1])
    requires !AllAnswered(RecordAll(k.turns[s].dispatched, rs))
    ensures var n := |rs| - 1;
      Apply(cfg, Recording(k, s, rs[..n]), ToolResult(rs[n].call, rs[n].text, rs[n].w)) == Recording(k, s, rs)
  {
    var n := |rs| - 1;
    RecordingWaits(k, s, rs[..n]);
    OneReply(cfg, Recording(k, s, rs[..n]), s, rs[n]);
  }

  /** Results that do not complete the round are recorded, and nothing else. */
  lemma {:induction false} RepliesRun(cfg: Config, k: Kv, s: SessionId, rs: seq<Reply>)
    requires Waits(k, s) && forall i :: 0 <= i < |rs| ==> Timely(cfg, k.turns[s], rs[i])
    requires NeverAll(k.turns[s].dispatched, rs)
    ensures Run(cfg, k, ReplyRun(rs)) == Recording(k, s, rs)
    decreases |rs|
  {
    if rs == [] {
      assert k.turns[s := k.turns[s]] == k.turns;
    } else {
      var n := |rs| - 1;
      var last := ToolResult(rs[n].call, rs[n].text, rs[n].w);
      NeverAllPrefix(k.turns[s].dispatched, rs);
      RepliesRun(cfg, k, s, rs[..n]);
      assert ReplyRun(rs) == ReplyRun(rs[..n]) + [last];
      RunAppend(cfg, k, ReplyRun(rs[..n]), [last]);
      RunOne(cfg, Recording(k, s, rs[..n]), last);
      NextReply(cfg, k, s, rs);
    }
  }

  lemma {:induction false} NamesPrefix(rs: seq<Reply>, i: nat, c: CallId)
    requires i <= |rs|
    ensures Names(rs[..i], c) ==> Names(rs, c)
  {
    if Names(rs[..i], c) {
      var m :| 0 <= m < i && rs[..i][m].call == c;
      assert rs[m].call == c;
    }
  }

  lemma {:induction false} NotYetAll(dispatched: seq<ToolCall>, rs: seq<Reply>, c: CallId, i: nat)
    requires DistinctIds(dispatched) && NoneAnswered(dispatched) && i <= |rs|
    requires c in CallIds(dispatched) && !Names(rs, c)
    ensures !AllAnswered(RecordAll(dispatched, rs[..i]))
  {
    AllAnsweredIff(dispatched, rs[..i]);
    var j :| 0 <= j < |dispatched| && dispatched[j].id == c;
    NamesPrefix(rs, i, c);
  }

  /** A tool round completes. The results of its calls, ids distinct, arrive in
      any order and any number of times, each in time; with the one that was
      still missing the model is asked again, exactly then and once, under a
      fresh request id; the calls' entries are gone and the turn waits for the
      new stream. */
  lemma {:induction false} RoundCompletes(cfg: Config, k: Kv, s: SessionId, rs: seq<Reply>, last: Reply)
    requires Waits(k, s) && DistinctIds(k.turns[s].dispatched) && NoneAnswered(k.turns[s].dispatched)
    requires (forall i :: 0 <= i < |rs| ==> Timely(cfg, k.turns[s], rs[i])) && Timely(cfg, k.turns[s], last)
    requires !Names(rs, last.call) && forall c :: c in CallIds(k.turns[s].dispatched) && c != last.call ==> Names(rs, c)
    requires last.w.fetchOk && last.w.publishOk && k.turns[s].iteration + 1 < cfg.maxIterations
    requires ResolveModel(k.turns[s].modelOverride, last.w.selected).Some?
    ensures var t, r := k.turns[s], k.nextRequest;
      var k1 := Run(cfg, k, ReplyRun(rs)); var k2 := Run(cfg, k, ReplyRun(rs + [last]));
      && k1.log == k.log
      && k2.log == k.log + [LlmRequest(s, r, ResolveModel(t.modelOverride, last.w.selected).value, t.systemPrompt, t.tools)]
      && StreamsFresh(k2, s, r, last.w.now) && k2.turns[s].iteration == t.iteration + 1
      && forall c :: c in CallIds(t.dispatched) ==> c !in k2.calls
  {
    var t := k.turns[s];
    var k1 := Recording(k, s, rs);
    forall i | 0 <= i <= |rs| ensures !AllAnswered(RecordAll(t.dispatched, rs[..i])) { NotYetAll(t.dispatched, rs, last.call, i); }
    RepliesRun(cfg, k, s, rs);
    RecordingWaits(k, s, rs);
    Completing(t.dispatched, rs, last);
    assert ReplyRun(rs + [last]) == ReplyRun(rs) + [ToolResult(last.call, last.text, last.w)];
    RunAppend(cfg, k, ReplyRun(rs), [ToolResult(last.call, last.text, last.w)]);
    RunOne(cfg, k1, ToolResult(last.call, last.text, last.w));
    FirstIsOfRequest(k1.turns[s].dispatched, last.call, t.requestId);
    LastResultContinues(cfg, k1, last.call, last.text, last.w);
  }

  lemma {:induction false} Completing(dispatched: seq<ToolCall>, rs: seq<Reply>, last: Reply)
    requires DistinctIds(dispatched) && NoneAnswered(dispatched)
    requires forall c :: c in CallIds(dispatched) && c != last.call ==> Names(rs, c)
    ensures var out := RecordResult(RecordAll(dispatched, rs), last.call, last.text);
      AllAnswered(out) && CallIds(out) == CallIds(dispatched)
  {
    var all := rs + [last];
    assert all[..|rs|] == rs;
    forall j | 0 <= j < |dispatched| ensures Names(all, dispatched[j].id) {
      NamesSnoc(all, dispatched[j].id);
      assert dispatched[j].id in CallIds(dispatched);
    }
    AllAnsweredIff(dispatched, all);
    RecordAllShape(dispatched, all);
    SameIds(RecordAll(dispatched, all), dispatched);
  }
}
