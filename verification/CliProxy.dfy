/**
 The CLI proxy: reconciling streamed chat text so that every reply is rendered
 once, binding connections to principals, and dropping dead clients.
 */
module CliProxy {
  import opened Prelude

  const MAX_STREAM_SESSIONS: nat := 64

  datatype Topic = ChatDelta | ChatResponse | OtherTopic

  datatype Payload = Payload(session: Option<string>, text: Option<string>, isFinal: bool)

  datatype Message = Message(topic: Topic, payload: Payload)

  type Accum = map<string, string>

  function Streamed(a: Accum, s: string): string { if s in a then a[s] else "" }

  function Full(p: Payload): string { if p.text.Some? then p.text.value else "" }

  /** Whether recording a delta of session `s` must first evict some entry. */
  predicate AtCap(a: Accum, s: string) { |a| >= MAX_STREAM_SESSIONS && s !in a }

  /** What is forwarded in place of a terminal whose streamed prefix is known. */
  function Remainder(streamed: string, full: string): string {
    if streamed <= full then full[|streamed|..] else ""
  }

  /** One message: the new accumulator and the forwarded payload. `victim` is
      the entry evicted when there is no room. */
  function Reconcile(a: Accum, m: Message, victim: string): (Accum, Payload) {
    var p := m.payload;
    if p.session.None? then (a, p)
    else
      var s := p.session.value;
      match m.topic
      case ChatDelta =>
        if p.text.None? then (a, p)
        else
          var a1 := if AtCap(a, s) then a - {victim} else a;
          (a1[s := Streamed(a1, s) + p.text.value], p)
      case ChatResponse =>
        if p.isFinal && s in a then (a - {s}, p.(text := Some(Remainder(a[s], Full(p))))) else (a, p)
      case OtherTopic => (a, p)
  }

  class Reconciler {
    var accum: Accum

    constructor ()
      ensures accum == map[]
    {
      accum := map[];
    }

    /** `reconcile_stream_payload`. */
    method ReconcilePayload(m: Message) returns (forwarded: Payload, ghost victim: string)
      modifies this
      ensures NeedsRoom(old(accum), m) ==> victim in old(accum)
      ensures (accum, forwarded) == Reconcile(old(accum), m, victim)
    {
      forwarded := m.payload;
      victim := "";
      if m.payload.session.None? { return; }
      var s := m.payload.session.value;
      if m.topic == ChatDelta {
        if m.payload.text.Some? {
          if |accum| >= MAX_STREAM_SESSIONS && s !in accum {
            var stale :| stale in accum;
            victim := stale;
            accum := accum - {stale};
          }
          ghost var room := accum;
          if s !in accum { accum := accum[s := ""]; }
          accum := accum[s := accum[s] + m.payload.text.value];
          assert accum == room[s := Streamed(room, s) + m.payload.text.value];
        }
        return;
      }
      if m.topic == ChatResponse && m.payload.isFinal && s in accum {
        var streamed := accum[s];
        accum := accum - {s};
        forwarded := forwarded.(text := Some(Remainder(streamed, Full(m.payload))));
      }
    }
  }

  // ---- Whole runs ----

  predicate On(m: Message, s: string) { m.payload.session == Some(s) && !m.topic.OtherTopic? }

  /** The accumulator after the messages, with victim `v(i)` at message `i`. */
  function After(a: Accum, ms: seq<Message>, v: seq<string>): Accum
    requires |v| == |ms|
    decreases |ms|
  {
    if ms == [] then a else After(Reconcile(a, ms[0], v[0]).0, ms[1..], v[1..])
  }

  lemma {:induction false} RemoveSmaller(a: Accum, s: string)
    requires s in a
    ensures |a - {s}| == |a| - 1
  {
    assert (a - {s}).Keys == a.Keys - {s};
    assert |(a - {s}).Keys| == |a - {s}|;
  }

  lemma {:induction false} AddLarger(a: Accum, s: string, t: string)
    requires s !in a
    ensures |a[s := t]| == |a| + 1
  {
    assert a[s := t].Keys == a.Keys + {s};
    assert |a[s := t].Keys| == |a[s := t]| && |a.Keys| == |a|;
  }

  /** The accumulator is bounded in every run, evictions included. */
  lemma {:induction false} AccumulatorBounded(a: Accum, ms: seq<Message>, v: seq<string>)
    requires |v| == |ms| && |a| <= MAX_STREAM_SESSIONS
    requires VictimsPresent(a, ms, v)
    ensures |After(a, ms, v)| <= 64
    decreases |ms|
  {
    if ms != [] {
      var p := ms[0].payload;
      var a1 := Reconcile(a, ms[0], v[0]).0;
      if p.session.Some? {
        var s := p.session.value;
        if ms[0].topic.ChatDelta? && p.text.Some? {
          if AtCap(a, s) {
            RemoveSmaller(a, v[0]);
            AddLarger(a - {v[0]}, s, Streamed(a - {v[0]}, s) + p.text.value);
          } else if s !in a {
            AddLarger(a, s, p.text.value);
            assert "" + p.text.value == p.text.value;
          } else {
            assert a1.Keys == a.Keys && |a1.Keys| == |a1| && |a.Keys| == |a|;
          }
        } else if s in a {
          RemoveSmaller(a, s);
        }
      }
      AccumulatorBounded(a1, ms[1..], v[1..]);
    }
  }

  /** A delta of a session with no entry while the map is full. */
  predicate NeedsRoom(a: Accum, m: Message) {
    m.topic.ChatDelta? && m.payload.session.Some? && m.payload.text.Some? && AtCap(a, m.payload.session.value)
  }

  /** `keys().next()` picks an entry that is there. */
  predicate VictimsPresent(a: Accum, ms: seq<Message>, v: seq<string>)
    requires |v| == |ms|
    decreases |ms|
  {
    if ms == [] then true
    else (NeedsRoom(a, ms[0]) ==> v[0] in a) && VictimsPresent(Reconcile(a, ms[0], v[0]).0, ms[1..], v[1..])
  }

  /** The run never has to evict. */
  predicate Roomy(a: Accum, ms: seq<Message>)
    decreases |ms|
  {
    if ms == [] then true else !NeedsRoom(a, ms[0]) && Roomy(Reconcile(a, ms[0], "").0, ms[1..])
  }

  function Final(a: Accum, ms: seq<Message>): Accum
    decreases |ms|
  {
    if ms == [] then a else Final(Reconcile(a, ms[0], "").0, ms[1..])
  }

  /** What message `m` makes the client of session `s` append. */
  function Shown(a: Accum, m: Message, s: string): string {
    if On(m, s) then Full(Reconcile(a, m, "").1) else ""
  }

  /** Everything the client of session `s` is handed to append, in order. */
  function Rendered(a: Accum, ms: seq<Message>, s: string): string
    decreases |ms|
  {
    if ms == [] then "" else Shown(a, ms[0], s) + Rendered(Reconcile(a, ms[0], "").0, ms[1..], s)
  }

  function Reply(m: Message, s: string): string { if On(m, s) && m.topic.ChatResponse? then Full(m.payload) else "" }

  /** What should be read: the full texts of the session's final responses. */
  function Replies(ms: seq<Message>, s: string): string {
    if ms == [] then "" else Reply(ms[0], s) + Replies(ms[1..], s)
  }

  /** A terminal of session `s` extends what was streamed since the last one. */
  predicate ExtendsStreamed(a: Accum, m: Message, s: string) {
    On(m, s) && m.topic.ChatResponse? ==> m.payload.isFinal && Streamed(a, s) <= Full(m.payload)
  }

  predicate Extends(a: Accum, ms: seq<Message>, s: string)
    decreases |ms|
  {
    if ms == [] then true else ExtendsStreamed(a, ms[0], s) && Extends(Reconcile(a, ms[0], "").0, ms[1..], s)
  }

  lemma {:induction false} OneMessageBalance(a: Accum, m: Message, s: string)
    requires !NeedsRoom(a, m) && ExtendsStreamed(a, m, s)
    ensures Streamed(a, s) + Shown(a, m, s) == Reply(m, s) + Streamed(Reconcile(a, m, "").0, s)
  {
    if On(m, s) && m.topic.ChatResponse? {
      assert Streamed(Reconcile(a, m, "").0, s) == "";
      assert Full(m.payload) + "" == Full(m.payload);
    } else {
      assert Streamed(a, s) + "" == Streamed(a, s) == "" + Streamed(a, s);
    }
  }

  lemma {:induction false} Balance(a: string, b: string, c: string, d: string, e: string, f: string, g: string)
    requires a + b == c + d && d + e == f + g
    ensures a + (b + e) == (c + f) + g
  {
    assert a + (b + e) == (a + b) + e == (c + d) + e == c + (d + e) == c + (f + g) == (c + f) + g;
  }

  /** Each reply is rendered exactly once. For any interleaving of deltas and
      terminals over any sessions in which nothing is evicted and the session's
      terminals extend its streamed text: what was pending before plus all text
      forwarded since equals the full replies plus what is pending now. */
  lemma {:induction false} RenderedOnce(a: Accum, ms: seq<Message>, s: string)
    requires Roomy(a, ms) && Extends(a, ms, s)
    ensures Streamed(a, s) + Rendered(a, ms, s) == Replies(ms, s) + Streamed(Final(a, ms), s)
    decreases |ms|
  {
    if ms == [] {
      assert Streamed(a, s) + "" == "" + Streamed(a, s);
    } else {
      var a1 := Reconcile(a, ms[0], "").0;
      RenderedOnce(a1, ms[1..], s);
      OneMessageBalance(a, ms[0], s);
      Balance(Streamed(a, s), Shown(a, ms[0], s), Reply(ms[0], s), Streamed(a1, s),
              Rendered(a1, ms[1..], s), Replies(ms[1..], s), Streamed(Final(a, ms), s));
    }
  }

  /** The condition is needed at each terminal: a streamed reply comes out whole
      exactly when what was streamed is a prefix of it; otherwise the terminal
      is forwarded empty. */
  lemma {:induction false} TerminalWholeIff(a: Accum, m: Message, s: string)
    requires m == Message(ChatResponse, m.payload) && m.payload.session == Some(s) && m.payload.isFinal && s in a
    ensures var p := Reconcile(a, m, "").1;
      && (a[s] + Full(p) == Full(m.payload) <==> a[s] <= Full(m.payload))
      && (!(a[s] <= Full(m.payload)) ==> Full(p) == "")
  {
    if a[s] + Full(Reconcile(a, m, "").1) == Full(m.payload) {
      assert Full(m.payload)[..|a[s]|] == a[s];
    }
  }

  /** A reply that was streamed to its end is never shown twice: if the
      streamed text ends with the whole reply (after, say, the text of earlier
      tool rounds), the terminal adds nothing. */
  lemma {:induction false} StreamedReplyAddsNothing(before: string, full: string)
    ensures Remainder(before + full, full) == ""
  {
    if before + full <= full { assert |before + full| <= |full|; }
  }

  function Only(ms: seq<Message>, s: string): seq<Message> {
    if ms == [] then [] else (if On(ms[0], s) then [ms[0]] else []) + Only(ms[1..], s)
  }

  /** Sessions do not affect each other: as long as nothing is evicted, a
      session's text is what it would be if it were alone on the proxy. */
  lemma {:induction false} SessionsIndependent(a: Accum, b: Accum, ms: seq<Message>, s: string)
    requires Roomy(a, ms) && (s in a <==> s in b) && Streamed(a, s) == Streamed(b, s)
    requires b.Keys <= {s}
    ensures Rendered(a, ms, s) == Rendered(b, Only(ms, s), s)
    ensures Streamed(Final(a, ms), s) == Streamed(Final(b, Only(ms, s)), s)
    decreases |ms|
  {
    if ms != [] {
      var (a1, p) := Reconcile(a, ms[0], "");
      if On(ms[0], s) {
        SmallKeys(b, s);
        var (b1, q) := Reconcile(b, ms[0], "");
        assert Only(ms, s) == [ms[0]] + Only(ms[1..], s) && Only(ms, s)[1..] == Only(ms[1..], s);
        assert p == q;
        SessionsIndependent(a1, b1, ms[1..], s);
      } else {
        assert Only(ms, s) == Only(ms[1..], s);
        SessionsIndependent(a1, b, ms[1..], s);
      }
    }
  }

  lemma {:induction false} SmallKeys(b: Accum, s: string)
    requires b.Keys <= {s}
    ensures |b| <= 1
  {
    assert |b.Keys| == |b|;
    if s in b { assert b.Keys == {s}; } else { assert b.Keys == {}; }
  }

  // ---- Connections ----

  const DEFAULT_PRINCIPAL := "default"

  predicate PrincipalChar(c: char) { 'A' <= c <= 'Z' || 'a' <= c <= 'z' || '0' <= c <= '9' || c == '_' || c == '-' }

  predicate ValidPrincipal(p: string) { 0 < |p| <= 64 && forall i :: 0 <= i < |p| ==> PrincipalChar(p[i]) }

  datatype Decision = Bind(principal: string) | ForwardAs(principal: string) | Drop

  function DecideIngress(bound: Option<string>, claimed: Option<string>): Decision {
    match (bound, claimed)
    case (None, Some(p)) => if ValidPrincipal(p) then Bind(p) else Drop
    case (None, None) => Bind(DEFAULT_PRINCIPAL)
    case (Some(b), None) => ForwardAs(b)
    case (Some(b), Some(p)) => if p == b then ForwardAs(b) else Drop
  }

  const CHAT_REQUEST_TOPIC := "user.v1.prompt"
  const ALLOWED_EXACT: seq<string> := [CHAT_REQUEST_TOPIC, "cli.v1.command.execute"]
  const ALLOWED_PREFIXES: seq<string> := [
    "astrid.v1.request.", "astrid.v1.admin.", "astrid.v1.elicit.response.", "astrid.v1.approval.response.",
    "registry.v1.selection.", "session.v1.request.", "cli.v1.command.run."]
  const BLOCKED_PREFIX := "astrid.v1.admin.response."

  predicate AllowedTopic(t: string) {
    !(BLOCKED_PREFIX <= t) && (t in ALLOWED_EXACT || exists i :: 0 <= i < |ALLOWED_PREFIXES| && ALLOWED_PREFIXES[i] <= t)
  }

  /** A message from a client socket; `topic` is absent when there is no
      forwardable body. */
  datatype Ingress = Ingress(principal: Option<string>, topic: Option<string>, session: Option<string>)

  datatype Conn = Conn(principal: Option<string>, session: Option<string>)

  datatype Forward = Forward(topic: string, principal: string)

  /** `handle_ingress` folded onto the connection. */
  function Ingest(c: Conn, m: Ingress): (Conn, Option<Forward>) {
    var d := DecideIngress(c.principal, m.principal);
    if d.Drop? then (c, None)
    else
      var c1 := c.(principal := Some(d.principal));
      if m.topic.None? || !AllowedTopic(m.topic.value) then (c1, None)
      else
        (if m.topic.value == CHAT_REQUEST_TOPIC && m.session.Some? then c1.(session := m.session) else c1,
         Some(Forward(m.topic.value, d.principal)))
  }

  function Connection(c: Conn, ms: seq<Ingress>): Conn
    decreases |ms|
  {
    if ms == [] then c else Connection(Ingest(c, ms[0]).0, ms[1..])
  }

  function Forwards(c: Conn, ms: seq<Ingress>): seq<Forward>
    decreases |ms|
  {
    if ms == [] then []
    else
      var (c1, f) := Ingest(c, ms[0]);
      (if f.Some? then [f.value] else []) + Forwards(c1, ms[1..])
  }

  /** One connection, one principal: over a connection's whole life everything
      it publishes carries the single principal it ends up bound to, on allowed
      topics only, and a binding once made never changes. */
  lemma {:induction false} OnePrincipal(c: Conn, ms: seq<Ingress>)
    ensures var e := Connection(c, ms);
      && (c.principal.Some? ==> e.principal == c.principal)
      && (forall i :: 0 <= i < |Forwards(c, ms)| ==>
            Some(Forwards(c, ms)[i].principal) == e.principal && AllowedTopic(Forwards(c, ms)[i].topic))
    ensures var p := Connection(c, ms).principal;
      c.principal.None? && p.Some? ==> ValidPrincipal(p.value)
    decreases |ms|
  {
    if ms != [] { OnePrincipal(Ingest(c, ms[0]).0, ms[1..]); }
  }

  // ---- What gets through ----

  /** A topic clients may publish on. */
  predicate MayPublish(t: string) {
    || t == "user.v1.prompt" || t == "cli.v1.command.execute"
    || "astrid.v1.request." <= t || ("astrid.v1.admin." <= t && !("astrid.v1.admin.response." <= t))
    || "astrid.v1.elicit.response." <= t || "astrid.v1.approval.response." <= t
    || "registry.v1.selection." <= t || "session.v1.request." <= t || "cli.v1.command.run." <= t
  }

  /** The topic test is that list. */
  lemma {:induction false} AllowedTopicIff(t: string)
    ensures AllowedTopic(t) <==> MayPublish(t)
  {
    assert |ALLOWED_PREFIXES| == 7;
    assert ALLOWED_PREFIXES[0] == "astrid.v1.request." && ALLOWED_PREFIXES[1] == "astrid.v1.admin.";
    assert ALLOWED_PREFIXES[2] == "astrid.v1.elicit.response." && ALLOWED_PREFIXES[3] == "astrid.v1.approval.response.";
    assert ALLOWED_PREFIXES[4] == "registry.v1.selection." && ALLOWED_PREFIXES[5] == "session.v1.request.";
    assert ALLOWED_PREFIXES[6] == "cli.v1.command.run.";
    assert ALLOWED_EXACT[0] == "user.v1.prompt" && ALLOWED_EXACT[1] == "cli.v1.command.execute";
    if BLOCKED_PREFIX <= t {
      assert t[0] == 'a' && t[10] == 'a' && t[11] == 'd';
      assert "astrid.v1.request."[10] == 'r' && "astrid.v1.elicit.response."[10] == 'e' && "astrid.v1.approval.response."[11] == 'p';
      assert "user.v1.prompt"[0] == 'u' && "cli.v1.command.execute"[0] == 'c' && "registry.v1.selection."[0] == 'r';
      assert "session.v1.request."[0] == 's' && "cli.v1.command.run."[0] == 'c';
    }
  }

  /** Whether a message is accepted on a connection bound to `p`: it claims no
      other principal. */
  predicate Accepts(p: string, m: Ingress) { m.principal.None? || m.principal.value == p }

  /** What a connection bound to `p` publishes of some messages: each accepted
      one on an allowed topic, unchanged, as `p`, in order. */
  function PublishedAs(p: string, ms: seq<Ingress>): seq<Forward> {
    if ms == [] then []
    else
      (if Accepts(p, ms[0]) && ms[0].topic.Some? && AllowedTopic(ms[0].topic.value) then [Forward(ms[0].topic.value, p)] else [])
      + PublishedAs(p, ms[1..])
  }

  /** The session of the last published chat prompt that names one. */
  function LastSession(p: string, ms: seq<Ingress>, was: Option<string>): Option<string> {
    if ms == [] then was
    else
      var m := ms[0];
      LastSession(p, ms[1..],
        if Accepts(p, m) && m.topic == Some("user.v1.prompt") && m.session.Some? then m.session else was)
  }

  lemma {:induction false} ChatIsAllowed()
    ensures AllowedTopic("user.v1.prompt")
  {
    var t := "user.v1.prompt";
    assert t in ALLOWED_EXACT by { assert ALLOWED_EXACT[0] == t; }
    assert t[0] == 'u' && BLOCKED_PREFIX[0] == 'a';
  }

  /** A bound connection publishes every accepted message on an allowed topic,
      once, in order and as itself, and nothing else; it follows the session of
      its last chat prompt. */
  lemma {:induction false} BoundConnection(c: Conn, p: string, ms: seq<Ingress>)
    requires c.principal == Some(p)
    ensures Forwards(c, ms) == PublishedAs(p, ms)
    ensures Connection(c, ms) == Conn(Some(p), LastSession(p, ms, c.session))
    decreases |ms|
  {
    if ms != [] {
      ChatIsAllowed();
      BoundConnection(Ingest(c, ms[0]).0, p, ms[1..]);
    }
  }

  /** A principal: up to 64 letters, digits, underscores and hyphens. */
  predicate PrincipalLike(p: string) {
    1 <= |p| <= 64 && forall i :: 0 <= i < |p| ==>
      'a' <= p[i] <= 'z' || 'A' <= p[i] <= 'Z' || '0' <= p[i] <= '9' || p[i] == '_' || p[i] == '-'
  }

  /** An unbound connection ignores malformed claims and is bound by its first
      other message: to the principal it claims, or to the default one. */
  lemma {:induction false} FirstMessageBinds(c: Conn, m: Ingress)
    requires c.principal.None?
    ensures var (c1, f) := Ingest(c, m);
      if m.principal.Some? && !PrincipalLike(m.principal.value) then c1 == c && f.None?
      else
        var p := if m.principal.Some? then m.principal.value else "default";
        && c1.principal == Some(p)
        && f == if m.topic.Some? && AllowedTopic(m.topic.value) then Some(Forward(m.topic.value, p)) else None
  {
  }

  // ---- What reconciling leaves alone ----

  /** Only the text of a final response whose session has streamed is changed;
      every other message is passed on as it is, and a session's record changes
      only with its own deltas and final responses. */
  lemma {:induction false} PassThrough(a: Accum, m: Message, s: string)
    requires !NeedsRoom(a, m)
    ensures var (a1, p) := Reconcile(a, m, "");
      && p.session == m.payload.session && p.isFinal == m.payload.isFinal
      && (p == m.payload || (m.topic == ChatResponse && m.payload.isFinal && m.payload.session.Some? && m.payload.session.value in a))
      && (m.payload.session != Some(s) ==> (s in a1 <==> s in a) && Streamed(a1, s) == Streamed(a, s))
      && (m.topic == OtherTopic || (m.topic == ChatResponse && !m.payload.isFinal) ==> a1 == a)
      && (m.topic == ChatDelta && m.payload.session == Some(s) && m.payload.text.Some? ==>
            s in a1 && a1[s] == Streamed(a, s) + m.payload.text.value)
      && (m.topic == ChatResponse && m.payload.isFinal && m.payload.session == Some(s) ==> s !in a1)
  {
  }

  // ---- Removing dead clients ----

  predicate Increasing(xs: seq<nat>) { forall i, j :: 0 <= i < j < |xs| ==> xs[i] < xs[j] }

  /** The clients whose index is not listed, in order. */
  function Survivors<T>(clients: seq<T>, dead: seq<nat>): seq<T> {
    if clients == [] then []
    else
      var n := |clients| - 1;
      Survivors(clients[..n], dead) + (if n in dead then [] else [clients[n]])
  }

  lemma {:induction false} SurvivorsSame<T>(clients: seq<T>, d1: seq<nat>, d2: seq<nat>)
    requires forall i :: 0 <= i < |clients| ==> (i in d1 <==> i in d2)
    ensures Survivors(clients, d1) == Survivors(clients, d2)
  {
    if clients != [] { SurvivorsSame(clients[..|clients| - 1], d1, d2); }
  }

  lemma {:induction false} SurvivorsAppend<T>(a: seq<T>, b: seq<T>, dead: seq<nat>)
    requires forall i :: |a| <= i < |a| + |b| ==> i !in dead
    ensures Survivors(a + b, dead) == Survivors(a, dead) + b
    decreases |b|
  {
    if b == [] { assert a + b == a; }
    else {
      var n := |b| - 1;
      assert (a + b)[..|a + b| - 1] == a + b[..n];
      SurvivorsAppend(a, b[..n], dead);
      assert b == b[..n] + [b[n]];
    }
  }

  /** `for &i in dead.iter().rev() { clients.remove(i) }`. */
  method RemoveDead<T>(clients: seq<T>, dead: seq<nat>) returns (live: seq<T>)
    requires Increasing(dead) && forall i :: 0 <= i < |dead| ==> dead[i] < |clients|
    ensures live == Survivors(clients, dead)
  {
    live := clients;
    var j := |dead|;
    SurvivorsAppend([], clients, dead[j..]);
    assert [] + clients == clients;
    while j > 0
      invariant 0 <= j <= |dead| && live == Survivors(clients, dead[j..])
    {
      DropOne(clients, dead, j - 1);
      live := live[..dead[j - 1]] + live[dead[j - 1] + 1..];
      j := j - 1;
    }
    assert dead[0..] == dead;
  }

  /** Removing index `dead[k]` from the survivors of the later ones. */
  lemma {:induction false} DropOne<T>(clients: seq<T>, dead: seq<nat>, k: nat)
    requires Increasing(dead) && k < |dead| && dead[k] < |clients|
    ensures var i := dead[k]; var later := Survivors(clients, dead[k + 1..]);
      |later| > i && Survivors(clients, dead[k..]) == later[..i] + later[i + 1..]
  {
    var i := dead[k];
    var head, tail := clients[..i], clients[i + 1..];
    assert clients == head + [clients[i]] + tail;
    assert dead[k..] == [i] + dead[k + 1..];
    SplitSurvivors(head, clients[i], tail, dead[k + 1..], i);
  }

  lemma {:induction false} SplitSurvivors<T>(head: seq<T>, c: T, tail: seq<T>, later: seq<nat>, i: nat)
    requires i == |head| && forall x :: x in later ==> x > i
    ensures |Survivors(head + [c] + tail, later)| > i && Survivors(head + [c] + tail, later)[..i] == head
    ensures Survivors(head + [c] + tail, [i] + later) == head + Survivors(head + [c] + tail, later)[i + 1..]
    decreases |tail|
  {
    if tail == [] {
      assert head + [c] + tail == head + [c];
      OneSurvivor(head, c, later, i);
    } else {
      var front, last := head + [c] + tail[..|tail| - 1], tail[|tail| - 1];
      assert head + [c] + tail == front + [last];
      SplitSurvivors(head, c, tail[..|tail| - 1], later, i);
      SurvivorsSnoc(front, last, later);
      SurvivorsSnoc(front, last, [i] + later);
      assert |front| in [i] + later <==> |front| in later;
      Beyond(head, Survivors(front, later), if |front| in later then [] else [last], i);
    }
  }

  lemma {:induction false} SurvivorsSnoc<T>(clients: seq<T>, c: T, dead: seq<nat>)
    ensures Survivors(clients + [c], dead) == Survivors(clients, dead) + (if |clients| in dead then [] else [c])
  {
    assert (clients + [c])[..|clients|] == clients;
  }

  lemma {:induction false} OneSurvivor<T>(head: seq<T>, c: T, later: seq<nat>, i: nat)
    requires i == |head| && forall x :: x in later ==> x > i
    ensures Survivors(head + [c], later) == head + [c] && Survivors(head + [c], [i] + later) == head
  {
    assert [] + head == head;
    SurvivorsAppend([], head, later);
    SurvivorsAppend([], head, [i] + later);
    SurvivorsSnoc(head, c, later);
    SurvivorsSnoc(head, c, [i] + later);
  }

  lemma {:induction false} Beyond<T>(head: seq<T>, all: seq<T>, more: seq<T>, i: nat)
    requires i == |head| && |all| > i && all[..i] == head
    ensures (all + more)[..i] == head && head + all[i + 1..] + more == head + (all + more)[i + 1..]
  {
  }

  /** `sort_unstable` followed by `dedup`, one element at a time. */
  function InsertSorted(xs: seq<nat>, x: nat): seq<nat> {
    if xs == [] then [x]
    else if x < xs[0] then [x] + xs
    else if x == xs[0] then xs
    else [xs[0]] + InsertSorted(xs[1..], x)
  }

  function SortDedup(xs: seq<nat>): seq<nat> {
    if xs == [] then [] else InsertSorted(SortDedup(xs[..|xs| - 1]), xs[|xs| - 1])
  }

  lemma {:induction false} InsertSortedIs(xs: seq<nat>, x: nat)
    requires Increasing(xs)
    ensures Increasing(InsertSorted(xs, x)) && forall y :: y in InsertSorted(xs, x) <==> y in xs || y == x
    decreases |xs|
  {
    if xs != [] && x > xs[0] {
      var rest := InsertSorted(xs[1..], x);
      InsertSortedIs(xs[1..], x);
      assert xs == [xs[0]] + xs[1..];
      forall i | 0 <= i < |rest| ensures xs[0] < rest[i] { assert rest[i] in rest; }
    }
  }

  /** The distinct elements, in increasing order. */
  lemma {:induction false} SortDedupIs(xs: seq<nat>)
    ensures Increasing(SortDedup(xs)) && forall y :: y in SortDedup(xs) <==> y in xs
  {
    if xs != [] {
      var n := |xs| - 1;
      SortDedupIs(xs[..n]);
      InsertSortedIs(SortDedup(xs[..n]), xs[n]);
      assert xs == xs[..n] + [xs[n]];
    }
  }

  /** Streams flagged dead by several subscriptions in one pass: each is removed
      once, no other client is lost or moved. */
  method RemoveBroadcastDead<T>(clients: seq<T>, flagged: seq<nat>) returns (live: seq<T>)
    requires forall i :: 0 <= i < |flagged| ==> flagged[i] < |clients|
    ensures live == Survivors(clients, flagged)
  {
    var dead := SortDedup(flagged);
    SortDedupIs(flagged);
    forall i | 0 <= i < |dead| ensures dead[i] < |clients| { assert dead[i] in flagged; }
    live := RemoveDead(clients, dead);
    SurvivorsSame(clients, dead, flagged);
  }
}
