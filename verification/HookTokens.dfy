/**
 Host-hook routes: requests that register or present a session's token, racing
 each other and the responses that retire it, over a shared key-value store.
 */
module HookTokens {
  import opened Prelude

  type Bytes = seq<bv8>
  type Store = map<string, Bytes>

  const TOKEN_MIN_BYTES: nat := 32
  const TOKEN_MAX_BYTES: nat := 128

  /** What the code calls out to: the route hash, and whether bytes are UTF-8. */
  datatype Env = Env(route: (string, string, Bytes) -> string, utf8: Bytes -> bool)

  /** The fields that decide what a hook message does. `caller` is the verified
      principal of the sender. */
  datatype Hook =
    | Request(topicHost: string, host: string, session: string, event: string, correlation: string,
              route: string, delivery: string, token: Bytes, principal: string, caller: Option<string>)
    | Response(host: string, session: string, retires: bool, correlation: string,
               route: string, delivery: string, principal: string, caller: Option<string>)

  // ---- Comparing tokens ----

  lemma {:induction false} XorZeroIffEqual(a: bv8, b: bv8)
    ensures a ^ b == 0 <==> a == b
  {
  }

  lemma {:induction false} OrZeroIffBoth(a: bv8, b: bv8)
    ensures a | b == 0 <==> a == 0 && b == 0
  {
  }

  /** `tokens_match`: the accumulating comparison is equality of the bytes. */
  method TokensMatch(claimed: Bytes, expected: Bytes) returns (same: bool)
    ensures same <==> claimed == expected
  {
    if |claimed| != |expected| { return false; }
    var difference: bv8 := 0;
    for i := 0 to |claimed|
      invariant difference == 0 <==> claimed[..i] == expected[..i]
    {
      XorZeroIffEqual(claimed[i], expected[i]);
      OrZeroIffBoth(difference, claimed[i] ^ expected[i]);
      assert claimed[..i + 1] == claimed[..i] + [claimed[i]];
      assert expected[..i + 1] == expected[..i] + [expected[i]];
      difference := difference | (claimed[i] ^ expected[i]);
    }
    assert claimed[..|claimed|] == claimed && expected[..|expected|] == expected;
    same := difference == 0;
  }

  // ---- Validation and keys ----

  predicate IsHost(s: string) { s == "codex" || s == "claude" || s == "grok" }

  predicate IsSegmentChar(c: char) { 'a' <= c <= 'z' || 'A' <= c <= 'Z' || '0' <= c <= '9' || c == '_' || c == '-' }

  predicate IsSegment(s: string, max: nat) { 0 < |s| <= max && forall i :: 0 <= i < |s| ==> IsSegmentChar(s[i]) }

  predicate IsLowerHex(s: string, n: nat) { |s| == n && forall i :: 0 <= i < |s| ==> '0' <= s[i] <= '9' || 'a' <= s[i] <= 'f' }

  predicate IsAlphanumeric(b: bv8) { 48 <= b <= 57 || 65 <= b <= 90 || 97 <= b <= 122 }

  predicate IsToken(t: Bytes) {
    TOKEN_MIN_BYTES <= |t| <= TOKEN_MAX_BYTES && forall i :: 0 <= i < |t| ==> IsAlphanumeric(t[i])
  }

  /** `validate_delivery_fields`. */
  predicate IsDelivery(session: string, correlation: string, route: string, delivery: string) {
    && IsSegment(session, 128) && IsSegment(delivery, 128)
    && IsLowerHex(correlation, 32) && IsLowerHex(route, 64)
    && delivery == route + "-" + correlation
  }

  /** What a message must pass before its token cell is looked at. */
  predicate Admitted(env: Env, h: Hook) {
    && IsHost(h.host) && IsDelivery(h.session, h.correlation, h.route, h.delivery) && h.caller == Some(h.principal)
    && (h.Request? ==>
          h.host == h.topicHost && IsSegment(h.event, 128) && IsToken(h.token) && env.route(h.host, h.session, h.token) == h.route)
  }

  /** A name of the given kind: letters, digits, underscores and hyphens. */
  predicate NameLike(s: string, max: nat) {
    1 <= |s| <= max && forall i :: 0 <= i < |s| ==>
      'a' <= s[i] <= 'z' || 'A' <= s[i] <= 'Z' || '0' <= s[i] <= '9' || s[i] == '_' || s[i] == '-'
  }

  predicate HexLike(s: string, n: nat) {
    |s| == n && forall i :: 0 <= i < |s| ==> '0' <= s[i] <= '9' || 'a' <= s[i] <= 'f'
  }

  /** What a message must be, by its fields. A delivery id is its route and its
      correlation, so it needs no check of its own. */
  predicate Proper(env: Env, h: Hook) {
    && (h.host == "codex" || h.host == "claude" || h.host == "grok")
    && NameLike(h.session, 128) && HexLike(h.correlation, 32) && HexLike(h.route, 64)
    && h.delivery == h.route + "-" + h.correlation && h.caller == Some(h.principal)
    && (h.Request? ==>
          && h.topicHost == h.host && NameLike(h.event, 128) && env.route(h.host, h.session, h.token) == h.route
          && 32 <= |h.token| <= 128
          && forall i :: 0 <= i < |h.token| ==>
               48 <= h.token[i] <= 57 || 65 <= h.token[i] <= 90 || 97 <= h.token[i] <= 122)
  }

  /** Admission is exactly that. */
  lemma {:induction false} AdmittedIff(env: Env, h: Hook)
    ensures Admitted(env, h) <==> Proper(env, h)
  {
    if Proper(env, h) {
      assert forall i :: 0 <= i < |h.delivery| ==>
        h.delivery[i] == if i < 64 then h.route[i] else if i == 64 then '-' else h.correlation[i - 65];
    }
  }

  predicate CanRegister(event: string) { event == "session_start" || event == "user_prompt_submit" }

  function TokenKey(host: string, session: string): string { "oracle.hook_token." + host + "." + session }

  function Key(h: Hook): string { TokenKey(h.host, h.session) }

  /** A separator neither first part contains can be found again. */
  lemma {:induction false} JoinInjective(p: string, a: string, x: string, b: string, y: string)
    requires '.' !in a && '.' !in b && p + a + "." + x == p + b + "." + y
    ensures a == b && x == y
  {
    var whole := p + a + "." + x;
    var tail := whole[|p|..];
    assert tail == a + "." + x && tail == b + "." + y;
    assert tail[|a|] == '.' && tail[|b|] == '.';
    assert forall i :: 0 <= i < |a| ==> tail[i] == a[i] != '.';
    assert forall i :: 0 <= i < |b| ==> tail[i] == b[i] != '.';
    assert a == tail[..|a|] && b == tail[..|b|];
    assert x == tail[|a| + 1..] && y == tail[|b| + 1..];
  }

  /** Admitted messages of different sessions, or of different hosts, never
      share a cell: neither name can contain the separator. */
  lemma {:induction false} KeysApart(env: Env, g: Hook, h: Hook)
    requires Admitted(env, g) && Admitted(env, h) && Key(g) == Key(h)
    ensures g.host == h.host && g.session == h.session
  {
    JoinInjective("oracle.hook_token.", g.host, g.session, h.host, h.session);
  }

  // ---- One message, one store access at a time ----

  /** Where a message stands. `since` is the instant of its first access. */
  datatype Pc =
    | Start
    | Vacant(since: nat)
    | Lost(since: nat)
    | Accepted(since: nat, until: nat)
    | Routed(since: nat, token: Bytes)
    | Over

  datatype Cause = Quiet | Registered(actor: nat) | Retired(actor: nat, since: nat, token: Bytes)

  datatype Move = Move(kv: Store, pc: Pc, cause: Cause)

  predicate Holds(kv: Store, key: string, token: Bytes) { key in kv && kv[key] == token }

  /** The next store access of message `me`, at instant `now`; `fails` is a
      host error of that access. */
  function Advance(env: Env, me: nat, h: Hook, kv: Store, pc: Pc, now: nat, fails: bool): Move {
    var key := Key(h);
    match pc
    case Start =>
      if fails || !Admitted(env, h) then Move(kv, Over, Quiet)
      else if h.Request? then
        if key in kv then Move(kv, if kv[key] == h.token then Accepted(now, now) else Over, Quiet)
        else Move(kv, if CanRegister(h.event) then Vacant(now) else Over, Quiet)
      else if key in kv && env.utf8(kv[key]) && env.route(h.host, h.session, kv[key]) == h.route then
        Move(kv, if h.retires then Routed(now, kv[key]) else Over, Quiet)
      else Move(kv, Over, Quiet)
    case Vacant(since) =>
      if fails || h.Response? then Move(kv, Over, Quiet)
      else if key in kv then Move(kv, Lost(since), Quiet)
      else Move(kv[key := h.token], Accepted(since, now + 1), Registered(me))
    case Lost(since) =>
      if !fails && h.Request? && Holds(kv, key, h.token) then Move(kv, Accepted(since, now), Quiet)
      else Move(kv, Over, Quiet)
    case Routed(since, token) =>
      if fails then Move(kv, Over, Quiet) else Move(kv - {key}, Over, Retired(me, since, token))
    case Accepted(_, _) => Move(kv, pc, Quiet)
    case Over => Move(kv, pc, Quiet)
  }

  /** `kvs` lists the store at every instant; `causes` says what led from each
      to the next. */
  datatype World = World(pcs: seq<Pc>, kvs: seq<Store>, causes: seq<Cause>)

  datatype Action = Action(who: nat, fails: bool)

  function Initial(n: nat, kv: Store): World { World(seq(n, i => Start), [kv], []) }

  function Apply(env: Env, hooks: seq<Hook>, w: World, a: Action): World {
    if a.who >= |hooks| || |w.pcs| != |hooks| || w.kvs == [] then w
    else
      var now := |w.kvs| - 1;
      var m := Advance(env, a.who, hooks[a.who], w.kvs[now], w.pcs[a.who], now, a.fails);
      World(w.pcs[a.who := m.pc], w.kvs + [m.kv], w.causes + [m.cause])
  }

  function Run(env: Env, hooks: seq<Hook>, w: World, acts: seq<Action>): World {
    if acts == [] then w else Apply(env, hooks, Run(env, hooks, w, acts[..|acts| - 1]), acts[|acts| - 1])
  }

  // ---- What every run keeps ----

  /** The token was the stored one at some instant from `a` to `b`. */
  ghost predicate StoredWithin(kvs: seq<Store>, key: string, token: Bytes, a: nat, b: nat) {
    exists k :: a <= k <= b && k < |kvs| && Holds(kvs[k], key, token)
  }

  ghost predicate PcOk(env: Env, h: Hook, kvs: seq<Store>, pc: Pc) {
    match pc
    case Start => true
    case Over => true
    case Vacant(since) => since < |kvs| && h.Request? && Admitted(env, h) && CanRegister(h.event)
    case Lost(since) => since < |kvs| && h.Request? && Admitted(env, h)
    case Accepted(since, until) =>
      h.Request? && Admitted(env, h) && since <= until < |kvs| && StoredWithin(kvs, Key(h), h.token, since, until)
    case Routed(since, token) => Recognised(env, h, kvs, since, token)
  }

  /** A retiring response that found its own route's token stored. */
  ghost predicate Recognised(env: Env, h: Hook, kvs: seq<Store>, since: nat, token: Bytes) {
    && h.Response? && Admitted(env, h) && h.retires
    && since < |kvs| && Holds(kvs[since], Key(h), token)
    && env.route(h.host, h.session, token) == h.route
  }

  /** What a change of the store is due to. */
  ghost predicate Explained(env: Env, hooks: seq<Hook>, kvs: seq<Store>, j: nat, cause: Cause)
    requires j + 1 < |kvs|
  {
    match cause
    case Quiet => kvs[j + 1] == kvs[j]
    case Registered(i) =>
      && i < |hooks| && hooks[i].Request? && Admitted(env, hooks[i]) && CanRegister(hooks[i].event)
      && Key(hooks[i]) !in kvs[j] && kvs[j + 1] == kvs[j][Key(hooks[i]) := hooks[i].token]
    case Retired(i, since, token) =>
      i < |hooks| && since <= j && Recognised(env, hooks[i], kvs, since, token) && kvs[j + 1] == kvs[j] - {Key(hooks[i])}
  }

  ghost predicate Inv(env: Env, hooks: seq<Hook>, w: World) {
    && |w.pcs| == |hooks| && |w.kvs| == |w.causes| + 1
    && (forall i {:trigger w.pcs[i]} :: 0 <= i < |hooks| ==> PcOk(env, hooks[i], w.kvs, w.pcs[i]))
    && (forall j {:trigger w.causes[j]} :: 0 <= j < |w.causes| ==> Explained(env, hooks, w.kvs, j, w.causes[j]))
  }

  lemma {:induction false} PcOkLater(env: Env, h: Hook, kvs: seq<Store>, kv: Store, pc: Pc)
    requires PcOk(env, h, kvs, pc)
    ensures PcOk(env, h, kvs + [kv], pc)
  {
    if pc.Accepted? {
      var k :| pc.since <= k <= pc.until && k < |kvs| && Holds(kvs[k], Key(h), h.token);
      assert (kvs + [kv])[k] == kvs[k];
    }
  }

  lemma {:induction false} AdvanceOk(env: Env, hooks: seq<Hook>, me: nat, kvs: seq<Store>, pc: Pc, fails: bool)
    requires me < |hooks| && kvs != [] && PcOk(env, hooks[me], kvs, pc)
    ensures var now := |kvs| - 1;
      var m := Advance(env, me, hooks[me], kvs[now], pc, now, fails);
      PcOk(env, hooks[me], kvs + [m.kv], m.pc) && Explained(env, hooks, kvs + [m.kv], now, m.cause)
  {
    var now := |kvs| - 1;
    var m := Advance(env, me, hooks[me], kvs[now], pc, now, fails);
    var kvs' := kvs + [m.kv];
    assert kvs'[now] == kvs[now] && kvs'[now + 1] == m.kv;
    if pc.Accepted? {
      PcOkLater(env, hooks[me], kvs, m.kv, pc);
    } else if m.pc.Accepted? {
      assert Holds(kvs'[m.pc.until], Key(hooks[me]), hooks[me].token);
    }
  }

  lemma {:induction false} ExplainedLater(env: Env, hooks: seq<Hook>, kvs: seq<Store>, kv: Store, j: nat, cause: Cause)
    requires j + 1 < |kvs| && Explained(env, hooks, kvs, j, cause)
    ensures Explained(env, hooks, kvs + [kv], j, cause)
  {
    var kvs' := kvs + [kv];
    assert kvs'[j] == kvs[j] && kvs'[j + 1] == kvs[j + 1];
    if cause.Retired? { assert kvs'[cause.since] == kvs[cause.since]; }
  }

  lemma {:induction false} ApplyKeepsInv(env: Env, hooks: seq<Hook>, w: World, a: Action)
    requires Inv(env, hooks, w)
    ensures Inv(env, hooks, Apply(env, hooks, w, a))
  {
    if a.who < |hooks| {
      var now := |w.kvs| - 1;
      var m := Advance(env, a.who, hooks[a.who], w.kvs[now], w.pcs[a.who], now, a.fails);
      var w' := Apply(env, hooks, w, a);
      AdvanceOk(env, hooks, a.who, w.kvs, w.pcs[a.who], a.fails);
      forall i | 0 <= i < |hooks| ensures PcOk(env, hooks[i], w'.kvs, w'.pcs[i]) {
        if i != a.who { PcOkLater(env, hooks[i], w.kvs, m.kv, w.pcs[i]); }
      }
      forall j | 0 <= j < |w'.causes| ensures Explained(env, hooks, w'.kvs, j, w'.causes[j]) {
        if j < now { ExplainedLater(env, hooks, w.kvs, m.kv, j, w.causes[j]); }
      }
    }
  }

  lemma {:induction false} RunKeepsInv(env: Env, hooks: seq<Hook>, kv: Store, acts: seq<Action>)
    ensures Inv(env, hooks, Run(env, hooks, Initial(|hooks|, kv), acts))
    decreases |acts|
  {
    if acts != [] {
      RunKeepsInv(env, hooks, kv, acts[..|acts| - 1]);
      ApplyKeepsInv(env, hooks, Run(env, hooks, Initial(|hooks|, kv), acts[..|acts| - 1]), acts[|acts| - 1]);
    }
  }

  // ---- What follows for every run ----

  predicate AcceptedIn(hooks: seq<Hook>, w: World, i: nat) {
    i < |hooks| && i < |w.pcs| && hooks[i].Request? && w.pcs[i].Accepted?
  }

  /** An accepted request presented a token that was the stored one at one
      instant of its own call. */
  lemma {:induction false} AcceptedTokenWasStored(env: Env, hooks: seq<Hook>, kv: Store, acts: seq<Action>, i: nat)
    requires AcceptedIn(hooks, Run(env, hooks, Initial(|hooks|, kv), acts), i)
    ensures var w := Run(env, hooks, Initial(|hooks|, kv), acts);
      && Admitted(env, hooks[i])
      && w.pcs[i].since <= w.pcs[i].until < |w.kvs|
      && StoredWithin(w.kvs, Key(hooks[i]), hooks[i].token, w.pcs[i].since, w.pcs[i].until)
  {
    RunKeepsInv(env, hooks, kv, acts);
  }

  /** Step `r` retires the binding of `key`. */
  predicate RetiresAt(hooks: seq<Hook>, w: World, key: string, r: nat) {
    && r < |w.causes| && r < |w.kvs| && w.causes[r].Retired? && w.causes[r].actor < |hooks|
    && Key(hooks[w.causes[r].actor]) == key && key in w.kvs[r]
  }

  /** A stored token stays until a retirement of its own cell. */
  lemma {:induction false} StaysUntilRetired(env: Env, hooks: seq<Hook>, w: World, key: string, a: nat, b: nat) returns (r: nat)
    requires Inv(env, hooks, w) && a <= b < |w.kvs| && key in w.kvs[a]
    ensures !Holds(w.kvs[b], key, w.kvs[a][key]) ==> a <= r < b && RetiresAt(hooks, w, key, r)
    decreases b - a
  {
    r := a;
    if a < b && !RetiresAt(hooks, w, key, a) {
      assert Explained(env, hooks, w.kvs, a, w.causes[a]);
      assert Holds(w.kvs[a + 1], key, w.kvs[a][key]);
      r := StaysUntilRetired(env, hooks, w, key, a + 1, b);
    }
  }

  /** Two accepted requests of one host and session with different tokens: a
      retirement of that session's binding lies between the instants at which
      their tokens were stored. */
  lemma {:induction false} DifferentTokensNeedRetirement(env: Env, hooks: seq<Hook>, kv: Store, acts: seq<Action>, i: nat, j: nat)
    returns (at_i: nat, at_j: nat, r: nat)
    requires var w := Run(env, hooks, Initial(|hooks|, kv), acts); AcceptedIn(hooks, w, i) && AcceptedIn(hooks, w, j)
    requires Key(hooks[i]) == Key(hooks[j])
    ensures var w := Run(env, hooks, Initial(|hooks|, kv), acts);
      && w.pcs[i].since <= at_i <= w.pcs[i].until < |w.kvs| && Holds(w.kvs[at_i], Key(hooks[i]), hooks[i].token)
      && w.pcs[j].since <= at_j <= w.pcs[j].until < |w.kvs| && Holds(w.kvs[at_j], Key(hooks[j]), hooks[j].token)
      && (hooks[i].token != hooks[j].token ==>
            RetiresAt(hooks, w, Key(hooks[i]), r) && Min(at_i, at_j) <= r < at_i + at_j - Min(at_i, at_j))
  {
    RunKeepsInv(env, hooks, kv, acts);
    var w := Run(env, hooks, Initial(|hooks|, kv), acts);
    var key := Key(hooks[i]);
    at_i :| w.pcs[i].since <= at_i <= w.pcs[i].until && at_i < |w.kvs| && Holds(w.kvs[at_i], key, hooks[i].token);
    at_j :| w.pcs[j].since <= at_j <= w.pcs[j].until && at_j < |w.kvs| && Holds(w.kvs[at_j], key, hooks[j].token);
    if at_i <= at_j {
      r := StaysUntilRetired(env, hooks, w, key, at_i, at_j);
    } else {
      r := StaysUntilRetired(env, hooks, w, key, at_j, at_i);
    }
  }

  /** A binding comes into being only through an admitted request of its own
      host and session with a registering event, and only with its token. */
  lemma {:induction false} OnlyRegistrationCreates(env: Env, hooks: seq<Hook>, kv: Store, acts: seq<Action>, key: string, j: nat)
    requires var w := Run(env, hooks, Initial(|hooks|, kv), acts); j + 1 < |w.kvs| && key !in w.kvs[j] && key in w.kvs[j + 1]
    ensures var w := Run(env, hooks, Initial(|hooks|, kv), acts);
      && j < |w.causes| && w.causes[j].Registered? && w.causes[j].actor < |hooks|
      && var h := hooks[w.causes[j].actor];
         h.Request? && Admitted(env, h) && CanRegister(h.event) && Key(h) == key && w.kvs[j + 1][key] == h.token
  {
    RunKeepsInv(env, hooks, kv, acts);
    var w := Run(env, hooks, Initial(|hooks|, kv), acts);
    assert Explained(env, hooks, w.kvs, j, w.causes[j]);
  }

  /** A binding ends only through an admitted retiring response of its host and
      session that, at an earlier instant of its call, found a token of its own
      route stored. It ends that very token unless another retirement of the
      cell came in between. */
  lemma {:induction false} OnlyItsResponseRetires(env: Env, hooks: seq<Hook>, kv: Store, acts: seq<Action>, key: string, j: nat)
    returns (other: nat)
    requires var w := Run(env, hooks, Initial(|hooks|, kv), acts); j + 1 < |w.kvs| && key in w.kvs[j] && key !in w.kvs[j + 1]
    ensures var w := Run(env, hooks, Initial(|hooks|, kv), acts);
      && RetiresAt(hooks, w, key, j) && w.causes[j].since <= j
      && Recognised(env, hooks[w.causes[j].actor], w.kvs, w.causes[j].since, w.causes[j].token)
      && (w.kvs[j][key] == w.causes[j].token || (w.causes[j].since <= other < j && RetiresAt(hooks, w, key, other)))
  {
    RunKeepsInv(env, hooks, kv, acts);
    var w := Run(env, hooks, Initial(|hooks|, kv), acts);
    assert Explained(env, hooks, w.kvs, j, w.causes[j]);
    other := StaysUntilRetired(env, hooks, w, key, w.causes[j].since, j);
  }

  /** Step `r` registers a token for `key`. */
  predicate RegistersAt(hooks: seq<Hook>, w: World, key: string, r: nat) {
    && r < |w.causes| && w.causes[r].Registered? && w.causes[r].actor < |hooks|
    && hooks[w.causes[r].actor].Request? && Key(hooks[w.causes[r].actor]) == key
  }

  /** Between the read at `since` and step `j` a registration of another token
      came in, the last word on `key` before `j`. */
  ghost predicate Overtaken(hooks: seq<Hook>, w: World, key: string, since: nat, j: nat, r: nat, read: Bytes) {
    && since <= r < j && RegistersAt(hooks, w, key, r) && hooks[w.causes[r].actor].token != read
    && forall q: nat :: r < q < j ==> !RetiresAt(hooks, w, key, q)
  }

  lemma {:induction false} StepBehind(env: Env, hooks: seq<Hook>, w: World, key: string, b: nat)
    requires Inv(env, hooks, w) && 0 < b < |w.kvs| && key in w.kvs[b]
    ensures !RetiresAt(hooks, w, key, b - 1)
    ensures Holds(w.kvs[b - 1], key, w.kvs[b][key]) || (RegistersAt(hooks, w, key, b - 1) && hooks[w.causes[b - 1].actor].token == w.kvs[b][key])
  {
    assert Explained(env, hooks, w.kvs, b - 1, w.causes[b - 1]);
  }

  lemma {:induction false} LastRegistration(env: Env, hooks: seq<Hook>, w: World, key: string, a: nat, b: nat, read: Bytes) returns (r: nat)
    requires Inv(env, hooks, w) && a <= b < |w.kvs| && Holds(w.kvs[a], key, read)
    requires key in w.kvs[b] && w.kvs[b][key] != read
    ensures Overtaken(hooks, w, key, a, b, r, read)
    decreases b - a
  {
    StepBehind(env, hooks, w, key, b);
    if Holds(w.kvs[b - 1], key, w.kvs[b][key]) {
      r := LastRegistration(env, hooks, w, key, a, b - 1, read);
    } else {
      r := b - 1;
    }
  }

  /** Exactly when a retirement ends another token than the one its response
      recognised: when, since that recognition, another token was registered
      and not retired in between. */
  lemma {:induction false} RetiresNewerIff(env: Env, hooks: seq<Hook>, kv: Store, acts: seq<Action>, key: string, j: nat)
    requires RetiresAt(hooks, Run(env, hooks, Initial(|hooks|, kv), acts), key, j)
    ensures var w := Run(env, hooks, Initial(|hooks|, kv), acts); var Retired(_, since, read) := w.causes[j];
      w.kvs[j][key] != read <==> exists r: nat :: Overtaken(hooks, w, key, since, j, r, read)
  {
    RunKeepsInv(env, hooks, kv, acts);
    var w := Run(env, hooks, Initial(|hooks|, kv), acts);
    var Retired(_, since, read) := w.causes[j];
    assert Explained(env, hooks, w.kvs, j, w.causes[j]);
    if w.kvs[j][key] != read {
      var r := LastRegistration(env, hooks, w, key, since, j, read);
    } else if exists r: nat :: Overtaken(hooks, w, key, since, j, r, read) {
      var r: nat :| Overtaken(hooks, w, key, since, j, r, read);
      assert Explained(env, hooks, w.kvs, r, w.causes[r]);
      var q := StaysUntilRetired(env, hooks, w, key, r + 1, j);
      assert false;
    }
  }

  /** It happens: two responses of one route may both read the old
      token; after the first deletes it a new session start registers another,
      which the second response then deletes. */
  lemma {:induction false} RetirementCanTakeNewerToken(env: Env, first: Hook, second: Hook, fresher: Hook, old_: Bytes)
    requires Admitted(env, first) && Admitted(env, second) && Admitted(env, fresher)
    requires first.Response? && second.Response? && first.retires && second.retires
    requires fresher.Request? && CanRegister(fresher.event) && fresher.token != old_
    requires Key(first) == Key(second) == Key(fresher)
    requires env.utf8(old_) && env.route(first.host, first.session, old_) == first.route == second.route
    ensures var hooks, key := [first, second, fresher], Key(first);
      exists acts ::
        var w := Run(env, hooks, Initial(3, map[key := old_]), acts);
        && |w.kvs| == 7 && |w.causes| == 6 && |w.pcs| == 3
        && w.pcs[2].Accepted? && Holds(w.kvs[5], key, fresher.token)
        && w.causes[5] == Retired(1, 1, old_) && key !in w.kvs[6]
  {
    KeysApart(env, first, second);
    var hooks, key := [first, second, fresher], Key(first);
    var full, none, newer := map[key := old_], map[], map[key := fresher.token];
    assert full - {key} == none && newer - {key} == none && none[key := fresher.token] == newer;
    var w0 := Initial(3, full);
    assert w0 == World([Start, Start, Start], [full], []);
    ReadsRoute(env, 0, first, full, 0, old_);
    var w1 := Stepped(env, hooks, w0, 0, Move(full, Routed(0, old_), Quiet));
    ReadsRoute(env, 1, second, full, 1, old_);
    var w2 := Stepped(env, hooks, w1, 1, Move(full, Routed(1, old_), Quiet));
    var w3 := Stepped(env, hooks, w2, 0, Move(none, Over, Retired(0, 0, old_)));
    FindsNone(env, 2, fresher, none, 3);
    var w4 := Stepped(env, hooks, w3, 2, Move(none, Vacant(3), Quiet));
    var w5 := Stepped(env, hooks, w4, 2, Move(newer, Accepted(3, 5), Registered(2)));
    var w6 := Stepped(env, hooks, w5, 1, Move(none, Over, Retired(1, 1, old_)));
    SixSteps(env, hooks, w0, w1, w2, w3, w4, w5, w6);
  }

  lemma {:induction false} ReadsRoute(env: Env, me: nat, h: Hook, kv: Store, now: nat, token: Bytes)
    requires Admitted(env, h) && h.Response? && h.retires && Holds(kv, Key(h), token)
    requires env.utf8(token) && env.route(h.host, h.session, token) == h.route
    ensures Advance(env, me, h, kv, Start, now, false) == Move(kv, Routed(now, token), Quiet)
  {
  }

  lemma {:induction false} FindsNone(env: Env, me: nat, h: Hook, kv: Store, now: nat)
    requires Admitted(env, h) && h.Request? && CanRegister(h.event) && Key(h) !in kv
    ensures Advance(env, me, h, kv, Start, now, false) == Move(kv, Vacant(now), Quiet)
    ensures Advance(env, me, h, kv, Vacant(now), now + 1, false) == Move(kv[Key(h) := h.token], Accepted(now, now + 2), Registered(me))
  {
  }

  lemma {:induction false} SixSteps(env: Env, hooks: seq<Hook>, w0: World, w1: World, w2: World, w3: World, w4: World, w5: World, w6: World)
    requires w1 == Apply(env, hooks, w0, Action(0, false)) && w2 == Apply(env, hooks, w1, Action(1, false))
    requires w3 == Apply(env, hooks, w2, Action(0, false)) && w4 == Apply(env, hooks, w3, Action(2, false))
    requires w5 == Apply(env, hooks, w4, Action(2, false)) && w6 == Apply(env, hooks, w5, Action(1, false))
    ensures exists acts :: Run(env, hooks, w0, acts) == w6
  {
    var a1 := RunOn(env, hooks, w0, [], w0, Action(0, false));
    var a2 := RunOn(env, hooks, w0, a1, w1, Action(1, false));
    var a3 := RunOn(env, hooks, w0, a2, w2, Action(0, false));
    var a4 := RunOn(env, hooks, w0, a3, w3, Action(2, false));
    var a5 := RunOn(env, hooks, w0, a4, w4, Action(2, false));
    var a6 := RunOn(env, hooks, w0, a5, w5, Action(1, false));
  }

  lemma {:induction false} RunOn(env: Env, hooks: seq<Hook>, w0: World, acts: seq<Action>, w: World, a: Action) returns (more: seq<Action>)
    requires Run(env, hooks, w0, acts) == w
    ensures Run(env, hooks, w0, more) == Apply(env, hooks, w, a)
  {
    more := acts + [a];
    assert more[..|acts|] == acts;
  }

  /** One step of a run, spelled out. */
  lemma {:induction false} Stepped(env: Env, hooks: seq<Hook>, w: World, who: nat, m: Move) returns (w': World)
    requires who < |hooks| == |w.pcs| && w.kvs != []
    requires var now := |w.kvs| - 1; Advance(env, who, hooks[who], w.kvs[now], w.pcs[who], now, false) == m
    ensures w' == World(w.pcs[who := m.pc], w.kvs + [m.kv], w.causes + [m.cause]) == Apply(env, hooks, w, Action(who, false))
  {
    w' := World(w.pcs[who := m.pc], w.kvs + [m.kv], w.causes + [m.cause]);
  }

  /** A retiring response that carries the route of an admitted request only
      ever recognised that request's own token, unless the route hash maps these
      two tokens alike. */
  lemma {:induction false} RouteNamesItsToken(env: Env, hooks: seq<Hook>, kvs: seq<Store>, i: nat, j: nat, since: nat, token: Bytes)
    requires i < |hooks| && j < |hooks| && hooks[i].Request? && Admitted(env, hooks[i])
    requires Recognised(env, hooks[j], kvs, since, token)
    requires Key(hooks[i]) == Key(hooks[j]) && hooks[i].route == hooks[j].route
    requires var h := hooks[i]; env.route(h.host, h.session, token) == env.route(h.host, h.session, h.token) ==> token == h.token
    ensures token == hooks[i].token
  {
    KeysApart(env, hooks[i], hooks[j]);
  }

  // ---- The handlers on the store ----

  function Settled(kv: Store, rivals: seq<Store>): Store { if rivals == [] then kv else rivals[0] }

  function Later(rivals: seq<Store>): seq<Store> { if rivals == [] then [] else rivals[1..] }

  function Rank(pc: Pc): nat {
    match pc case Start => 3 case Vacant(_) => 2 case Lost(_) => 1 case Routed(_, _) => 1 case _ => 0
  }

  /** A message run to its end, with what the others leave in the store before
      each of its accesses. */
  function Serve(env: Env, h: Hook, kv: Store, rivals: seq<Store>, pc: Pc, now: nat): Move
    decreases Rank(pc)
  {
    if Rank(pc) == 0 || !Admitted(env, h) then Move(kv, pc, Quiet)
    else
      var m := Advance(env, 0, h, Settled(kv, rivals), pc, now, false);
      Serve(env, h, m.kv, Later(rivals), m.pc, now + 1)
  }

  /** The store that a message finds at its access number `n`, if it changes
      nothing itself. */
  function Met(kv: Store, rivals: seq<Store>, n: nat): Store
    decreases n
  {
    if n == 0 then Settled(kv, rivals) else Met(Settled(kv, rivals), Later(rivals), n - 1)
  }

  /** What a request comes to when nobody else touches the store. */
  predicate Alone(h: Hook, before: Store, ok: bool, after: Store)
    requires h.Request?
  {
    var key := Key(h);
    if key in before then (ok <==> before[key] == h.token) && after == before
    else if h.event == "session_start" || h.event == "user_prompt_submit" then ok && after == before[key := h.token]
    else !ok && after == before
  }

  /** In a run, a request whose next two accesses nobody else comes between. */
  lemma {:induction false} UndisturbedRequest(env: Env, hooks: seq<Hook>, w: World, i: nat)
    requires Inv(env, hooks, w) && i < |hooks| && hooks[i].Request? && Admitted(env, hooks[i]) && w.pcs[i] == Start
    ensures var w' := Run(env, hooks, w, [Action(i, false), Action(i, false)]);
      && w'.kvs != [] && |w'.pcs| == |hooks|
      && Alone(hooks[i], w.kvs[|w.kvs| - 1], w'.pcs[i].Accepted?, w'.kvs[|w'.kvs| - 1])
  {
    var a := Action(i, false);
    RunTwo(env, hooks, w, a, a);
    var w1, now := Apply(env, hooks, w, a), |w.kvs| - 1;
    var m := Advance(env, i, hooks[i], w.kvs[now], Start, now, false);
    assert w1 == World(w.pcs[i := m.pc], w.kvs + [m.kv], w.causes + [m.cause]);
    assert w1.pcs[i] == m.pc && w1.kvs[|w1.kvs| - 1] == m.kv;
    var m2 := Advance(env, i, hooks[i], m.kv, m.pc, now + 1, false);
    assert Apply(env, hooks, w1, a) == World(w1.pcs[i := m2.pc], w1.kvs + [m2.kv], w1.causes + [m2.cause]);
  }

  lemma {:induction false} RunTwo(env: Env, hooks: seq<Hook>, w: World, a: Action, b: Action)
    ensures Run(env, hooks, w, [a, b]) == Apply(env, hooks, Apply(env, hooks, w, a), b)
  {
    var one, two := [a], [a, b];
    assert two[..1] == one && one[..0] == [];
    assert Run(env, hooks, w, one) == Apply(env, hooks, w, a);
  }

  /** A final response whose next two accesses nobody else comes between ends
      the binding exactly when its token derives the response's route. */
  lemma {:induction false} UndisturbedResponse(env: Env, hooks: seq<Hook>, w: World, i: nat)
    requires Inv(env, hooks, w) && i < |hooks| && hooks[i].Response? && hooks[i].retires && Admitted(env, hooks[i]) && w.pcs[i] == Start
    ensures var w' := Run(env, hooks, w, [Action(i, false), Action(i, false)]); var h, kv := hooks[i], w.kvs[|w.kvs| - 1];
      && w'.kvs != []
      && w'.kvs[|w'.kvs| - 1] ==
           if Key(h) in kv && env.utf8(kv[Key(h)]) && env.route(h.host, h.session, kv[Key(h)]) == h.route then kv - {Key(h)} else kv
  {
    RunTwo(env, hooks, w, Action(i, false), Action(i, false));
  }

  class TokenStore {
    var kv: Store
    var rivals: seq<Store>

    constructor (initial: Store, others: seq<Store>)
      ensures kv == initial && rivals == others
    {
      kv, rivals := initial, others;
    }

    method Interfere()
      modifies this
      ensures kv == Settled(old(kv), old(rivals)) && rivals == Later(old(rivals))
    {
      if rivals != [] {
        kv := rivals[0];
        rivals := rivals[1..];
      }
    }

    method GetBytesOpt(key: string) returns (r: Option<Bytes>)
      modifies this
      ensures kv == Settled(old(kv), old(rivals)) && rivals == Later(old(rivals))
      ensures r == if key in kv then Some(kv[key]) else None
    {
      Interfere();
      r := if key in kv then Some(kv[key]) else None;
    }

    method CasAbsent(key: string, token: Bytes) returns (won: bool)
      modifies this
      ensures rivals == Later(old(rivals))
      ensures var seen := Settled(old(kv), old(rivals));
        won == (key !in seen) && kv == if won then seen[key := token] else seen
    {
      Interfere();
      won := key !in kv;
      if won { kv := kv[key := token]; }
    }

    method Delete(key: string)
      modifies this
      ensures kv == Settled(old(kv), old(rivals)) - {key} && rivals == Later(old(rivals))
    {
      Interfere();
      kv := kv - {key};
    }

    /** `authenticate_token`: get; on a miss compare-and-swap; on a lost race
        get again. The token is accepted exactly when it is the one found first,
        or none was found and the event may register and either nobody was
        quicker, in which case it is stored, or whoever was stored the same. */
    method AuthenticateToken(env: Env, h: Hook) returns (ok: bool)
      requires h.Request? && Admitted(env, h)
      modifies this
      ensures var key, first, second, third := Key(h), Met(old(kv), old(rivals), 0), Met(old(kv), old(rivals), 1), Met(old(kv), old(rivals), 2);
        var registers := h.event == "session_start" || h.event == "user_prompt_submit";
        && (ok <==> if key in first then first[key] == h.token
                    else registers && (key in second ==> key in third && third[key] == h.token))
        && kv == if key in first || !registers then first else if key in second then third else second[key := h.token]
      ensures old(rivals) == [] ==> Alone(h, old(kv), ok, kv)
      ensures var m := Serve(env, h, old(kv), old(rivals), Start, 0); ok == m.pc.Accepted? && kv == m.kv
    {
      var key := Key(h);
      ghost var first, second := Settled(kv, rivals), Settled(Settled(kv, rivals), Later(rivals));
      assert Met(kv, rivals, 0) == first && Met(kv, rivals, 1) == second by { assert Met(first, Later(rivals), 0) == second; }
      assert Met(kv, rivals, 2) == Settled(second, Later(Later(rivals))) by {
        assert Met(first, Later(rivals), 1) == Met(second, Later(Later(rivals)), 0);
      }
      var expected := GetBytesOpt(key);
      if expected.Some? {
        ok := TokensMatch(h.token, expected.value);
      } else if CanRegister(h.event) {
        assert Serve(env, h, old(kv), old(rivals), Start, 0) == Serve(env, h, kv, rivals, Vacant(0), 1);
        ok := CasAbsent(key, h.token);
        if !ok {
          assert Serve(env, h, old(kv), old(rivals), Start, 0) == Serve(env, h, kv, rivals, Lost(0), 2);
          expected := GetBytesOpt(key);
          if expected.Some? { ok := TokensMatch(h.token, expected.value); }
        }
      } else {
        ok := false;
      }
    }

    /** `relay_response`: publish when the stored token derives the response's
        route, then retire the binding on a final event. */
    method RelayResponse(env: Env, h: Hook) returns (published: bool)
      requires h.Response?
      modifies this
      ensures kv == if !Admitted(env, h) then old(kv)
                    else if published && h.retires then Met(old(kv), old(rivals), 1) - {Key(h)}
                    else Met(old(kv), old(rivals), 0)
      ensures var m := Serve(env, h, old(kv), old(rivals), Start, 0); kv == m.kv
      ensures published <==>
                && Admitted(env, h)
                && var seen := Settled(old(kv), old(rivals));
                   Key(h) in seen && env.utf8(seen[Key(h)]) && env.route(h.host, h.session, seen[Key(h)]) == h.route
    {
      if !Admitted(env, h) { return false; }
      var key := Key(h);
      var token := GetBytesOpt(key);
      if token.None? || !env.utf8(token.value) || env.route(h.host, h.session, token.value) != h.route { return false; }
      published := true;
      if h.retires {
        assert Serve(env, h, old(kv), old(rivals), Start, 0) == Serve(env, h, kv, rivals, Routed(0, token.value), 1);
        Delete(key);
      }
    }
  }
}
