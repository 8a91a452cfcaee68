/**
 What the terminal shows of a run of the turn machine: react's publications
 fed to the proxy's reconciler.
 */
module Terminal {
  import opened Prelude
  import opened ReactModel
  import opened ReactInvariant
  import opened ReactTheorems
  import opened CliProxy

  /** The chat message an event is on the bus, if it is one. */
  function Chat(e: Event): Option<Message> {
    match e
    case Delta(s, _, text) => Some(Message(ChatDelta, Payload(Some(s), Some(text), false)))
    case Answer(s, _, text) => Some(Message(ChatResponse, Payload(Some(s), Some(text), true)))
    case Notice(s, text) => Some(Message(ChatResponse, Payload(Some(s), Some(text), true)))
    case _ => None
  }

  function Chats(log: seq<Event>): seq<Message> {
    if log == [] then []
    else Chats(log[..|log| - 1]) + (if Chat(log[|log| - 1]).Some? then [Chat(log[|log| - 1]).value] else [])
  }

  /** The proxy's accumulator after a run, nothing having been evicted. */
  function Proxy(log: seq<Event>): Accum { Final(map[], Chats(log)) }

  // ---- One more message ----

  lemma {:induction false} FinalSnoc(a: Accum, ms: seq<Message>, m: Message)
    ensures Final(a, ms + [m]) == Reconcile(Final(a, ms), m, "").0
    ensures Roomy(a, ms + [m]) <==> Roomy(a, ms) && !NeedsRoom(Final(a, ms), m)
    decreases |ms|
  {
    if ms == [] {
      assert [] + [m] == [m] && [m][1..] == [];
    } else {
      assert (ms + [m])[0] == ms[0] && (ms + [m])[1..] == ms[1..] + [m];
      FinalSnoc(Reconcile(a, ms[0], "").0, ms[1..], m);
    }
  }

  lemma {:induction false} RenderedSnoc(a: Accum, ms: seq<Message>, m: Message, s: string)
    ensures Rendered(a, ms + [m], s) == Rendered(a, ms, s) + Shown(Final(a, ms), m, s)
    decreases |ms|
  {
    if ms == [] {
      assert [] + [m] == [m] && [m][1..] == [];
      assert Shown(a, m, s) + "" == Shown(a, m, s) == "" + Shown(a, m, s);
    } else {
      assert (ms + [m])[0] == ms[0] && (ms + [m])[1..] == ms[1..] + [m];
      RenderedSnoc(Reconcile(a, ms[0], "").0, ms[1..], m, s);
    }
  }

  /** What has been streamed to a session since its last final response. */
  function SinceFinal(log: seq<Event>, s: SessionId): string {
    if log == [] then ""
    else
      var e, before := log[|log| - 1], SinceFinal(log[..|log| - 1], s);
      if e.session != s then before
      else if IsFinal(e) then ""
      else if e.Delta? then before + e.text
      else before
  }

  lemma {:induction false} StepKeeps(a: Accum, e: Event, s: SessionId)
    requires Chat(e).Some? && !NeedsRoom(a, Chat(e).value)
    ensures Streamed(Reconcile(a, Chat(e).value, "").0, s) ==
      if e.session != s then Streamed(a, s) else if IsFinal(e) then "" else Streamed(a, s) + e.text
  {
  }

  /** The proxy holds exactly what react has streamed since the last final. */
  lemma {:induction false} ProxyHoldsStream(log: seq<Event>, s: SessionId)
    requires Roomy(map[], Chats(log))
    ensures Streamed(Proxy(log), s) == SinceFinal(log, s)
    decreases |log|
  {
    if log != [] {
      var n := |log| - 1;
      if Chat(log[n]).Some? {
        FinalSnoc(map[], Chats(log[..n]), Chat(log[n]).value);
        ProxyHoldsStream(log[..n], s);
        StepKeeps(Proxy(log[..n]), log[n], s);
      } else {
        assert Chats(log) == Chats(log[..n]);
        ProxyHoldsStream(log[..n], s);
      }
    }
  }

  lemma {:induction false} NothingReceived(log: seq<Event>, s: SessionId, r: RequestId)
    requires Hist(log, s).good && TextOf(Hist(log, s), r) == ""
    ensures PublishedText(log, s, r) == ""
  {
    TextIsReceived(log, s, r);
    LossShortens(log, s, r);
  }

  /** Since the last final response: first what earlier rounds streamed, then
      what the current request did, and nothing else. */
  lemma {:induction false} RoundsInOrder(log: seq<Event>, s: SessionId) returns (m: nat)
    requires var h := Hist(log, s); h.good && h.finals == 0 && h.last != 0
    ensures m < |log| && log[m].LlmRequest? && log[m].session == s && log[m].request == Hist(log, s).last
    ensures SinceFinal(log, s) == SinceFinal(log[..m], s) + PublishedText(log, s, Hist(log, s).last)
    decreases |log|
  {
    var n, r := |log| - 1, Hist(log, s).last;
    if log[n].session == s && log[n].LlmRequest? {
      m := n;
      NothingReceived(log[..n], s, r);
      assert PublishedText(log, s, r) == "";
    } else {
      m := RoundsInOrder(log[..n], s);
      assert log[..n][..m] == log[..m] && log[..n][m] == log[m];
    }
  }

  /** Every answer of every run, at the terminal. Before it the proxy holds what
      the turn's earlier rounds streamed, followed by what was streamed of the
      answer itself. When the bus refused none of that, the answer adds nothing:
      what is shown already ends with it, whole and once. In any case the
      session's text since its last final response becomes the answer if what
      was shown is a beginning of it, and otherwise stays as it was. */
  lemma {:induction false} AnswerAtTheTerminal(cfg: Config, acts: seq<Action>, i: nat) returns (m: nat)
    requires i < |Run(cfg, Boot, acts).log| && Run(cfg, Boot, acts).log[i].Answer?
    requires Roomy(map[], Chats(Run(cfg, Boot, acts).log[..i]))
    ensures var log := Run(cfg, Boot, acts).log; var Answer(s, r, text) := log[i];
      var streamed := Streamed(Proxy(log[..i]), s);
      var added := Shown(Proxy(log[..i]), Chat(log[i]).value, s);
      && m < i && log[m].LlmRequest? && log[m].session == s && log[m].request == r
      && streamed == SinceFinal(log[..m], s) + PublishedText(log[..i], s, r)
      && (!Lost(log[..i], s, r) ==> streamed == SinceFinal(log[..m], s) + text && added == "")
      && streamed + added == (if streamed <= text then text else streamed)
      && Rendered(map[], Chats(log[..i + 1]), s) == Rendered(map[], Chats(log[..i]), s) + added
  {
    ReachableInv(cfg, acts);
    var k := Run(cfg, Boot, acts);
    var s := k.log[i].session;
    assert SessionOk(cfg, k.nextRequest, Load(k, s), Hist(k.log, s));
    m := AnswerShown(k.log, i);
    ChatRendered(k.log, i, s);
  }

  lemma {:induction false} ChatRendered(log: seq<Event>, i: nat, s: SessionId)
    requires i < |log| && Chat(log[i]).Some?
    ensures Rendered(map[], Chats(log[..i + 1]), s) == Rendered(map[], Chats(log[..i]), s) + Shown(Proxy(log[..i]), Chat(log[i]).value, s)
  {
    assert log[..i + 1][..i] == log[..i];
    RenderedSnoc(map[], Chats(log[..i]), Chat(log[i]).value, s);
  }

  lemma {:induction false} AnswerShown(log: seq<Event>, i: nat) returns (m: nat)
    requires i < |log| && log[i].Answer? && Hist(log, log[i].session).good && Roomy(map[], Chats(log[..i]))
    ensures var Answer(s, r, text) := log[i];
      var streamed := Streamed(Proxy(log[..i]), s);
      var added := Shown(Proxy(log[..i]), Chat(log[i]).value, s);
      && m < i && log[m].LlmRequest? && log[m].session == s && log[m].request == r
      && streamed == SinceFinal(log[..m], s) + PublishedText(log[..i], s, r)
      && (!Lost(log[..i], s, r) ==> streamed == SinceFinal(log[..m], s) + text && added == "")
      && streamed + added == (if streamed <= text then text else streamed)
  {
    var Answer(s, r, text) := log[i];
    AnswerIsGood(log, i);
    m := RoundsInOrder(log[..i], s);
    assert log[..i][..m] == log[..m];
    ProxyHoldsStream(log[..i], s);
    LossShortens(log[..i], s, r);
    TextIsReceived(log[..i], s, r);
    TerminalAdds(Proxy(log[..i]), log[i]);
    if !Lost(log[..i], s, r) { StreamedReplyAddsNothing(SinceFinal(log[..m], s), text); }
  }

  lemma {:induction false} AnswerIsGood(log: seq<Event>, i: nat)
    requires i < |log| && log[i].Answer? && Hist(log, log[i].session).good
    ensures var Answer(s, r, text) := log[i]; var h := Hist(log[..i], s);
      h.good && h.finals == 0 && h.last == r && r != 0 && text == TextOf(h, r) && text != ""
  {
    GoodPrefix(log, log[i].session, i + 1);
    GoodPrefix(log, log[i].session, i);
    assert log[..i + 1][..i] == log[..i];
  }

  lemma {:induction false} TerminalAdds(a: Accum, e: Event)
    requires e.Answer? && e.text != ""
    ensures var streamed, added := Streamed(a, e.session), Shown(a, Chat(e).value, e.session);
      && streamed + added == (if streamed <= e.text then e.text else streamed)
      && (streamed != "" ==> added == Remainder(streamed, e.text))
  {
    if e.session !in a { assert "" + e.text == e.text; }
    else if !(a[e.session] <= e.text) { assert a[e.session] + "" == a[e.session]; }
  }
}
