/**
 The time windows of hook collection: how long the compaction, prompt-build and
 lifecycle fan-outs wait, on a clock that only receiving advances.
 */
module HookWindows {
  import opened Prelude

  const MAX_HOOK_RESPONSES: nat := 50
  const HOOK_QUIESCENCE_MS: nat := 25
  const HOOK_COLLECT_DEADLINE_MS: nat := 5_000
  const HOST_HOOK_COLLECT_DEADLINE_MS: nat := 1_000
  const MAX_HOST_CONTEXT_BYTES: nat := 64 * 1024

  /** Nanoseconds in some milliseconds, and whole milliseconds in some
      nanoseconds. */
  function Ns(ms: nat): nat { ms * 1_000_000 }

  function Ms(ns: nat): nat { ns / 1_000_000 }

  predicate Whole(ns: nat) { ns % 1_000_000 == 0 }

  /** What one `recv` brings: a batch of messages, each `None` when it holds no
      usable response, or an error; and how long it would take, in nanoseconds,
      were it not cut off by its timeout. */
  datatype Poll<R> =
    | Batch(messages: seq<Option<R>>, took: nat)
    | Timeout(took: nat)
    | Failed(took: nat)

  datatype Outcome<R> = Outcome(responses: seq<R>, elapsed: nat, unread: seq<Poll<R>>, failed: bool)

  function Usable<R>(ms: seq<Option<R>>): seq<R> {
    if ms == [] then []
    else Usable(ms[..|ms| - 1]) + (if ms[|ms| - 1].Some? then [ms[|ms| - 1].value] else [])
  }

  /** All usable responses, in order: an unusable one adds nothing, a usable one
      itself, and batches add up. */
  lemma {:induction false} UsableIs<R>(a: seq<Option<R>>, b: seq<Option<R>>, r: R)
    ensures Usable<R>([]) == [] && Usable<R>([None]) == [] && Usable([Some(r)]) == [r]
    ensures Usable(a + b) == Usable(a) + Usable(b)
    decreases |b|
  {
    var none: seq<Option<R>>, one: seq<Option<R>> := [None], [Some(r)];
    assert none[..0] == [] && one[..0] == [];
    if b == [] { assert a + b == a; }
    else {
      assert (a + b)[..|a + b| - 1] == a + b[..|b| - 1];
      UsableIs(a, b[..|b| - 1], r);
    }
  }

  /** Time after waiting for `p` under a timeout. */
  function After<R>(elapsed: nat, p: Poll<R>, waitMs: nat): nat { elapsed + Min(p.took, Ns(waitMs)) }

  // ---- Collecting ----

  /** The next wait, in milliseconds, given the nanoseconds elapsed and the
      number of responses so far; `None` to stop. */
  type Policy = (nat, nat) -> Option<nat>

  /** How the usable responses of a batch add to what was collected. */
  type Absorb<!R> = (seq<R>, seq<R>) -> seq<R>

  function Append<R>(got: seq<R>, more: seq<R>): seq<R> { got + more }

  /** A collection run to its end: it stops when the policy says so, and at an
      empty batch, a timeout or an error. When the script of polls is used up
      nothing more arrives. */
  function Collect<R>(policy: Policy, absorb: Absorb<R>, polls: seq<Poll<R>>, elapsed: nat, got: seq<R>): Outcome<R>
    decreases |polls|
  {
    match policy(elapsed, |got|)
    case None => Outcome(got, elapsed, polls, false)
    case Some(t) =>
      if polls == [] then Outcome(got, elapsed + Ns(t), [], false)
      else if polls[0].Batch? && polls[0].messages != [] then
        Collect(policy, absorb, polls[1..], After(elapsed, polls[0], t), absorb(got, Usable(polls[0].messages)))
      else Outcome(got, After(elapsed, polls[0], t), polls[1..], polls[0].Failed?)
  }

  // ---- The policies ----

  datatype Windows = Windows(timeoutMs: nat, firstMs: nat, graceMs: nat)

  /** `hook_recv_timeout`: never past the outer cap, nor, before the first
      response, past the first-response window counted from the start. */
  function HookRecvTimeout(have: bool, elapsedMs: nat, remainingMs: nat, firstMs: nat, graceMs: nat): (r: Option<nat>)
    ensures r.None? <==> remainingMs == 0 || (!have && elapsedMs >= firstMs)
    ensures r.Some? ==> r.value <= remainingMs && (have ==> r.value <= graceMs) && (!have ==> elapsedMs + r.value <= firstMs)
  {
    if remainingMs == 0 then None
    else if have then Some(Min(graceMs, remainingMs))
    else if SatSub(firstMs, elapsedMs) == 0 then None
    else Some(Min(SatSub(firstMs, elapsedMs), remainingMs))
  }

  /** And it is as long as that allows: no longer wait would stay in the windows. */
  lemma {:induction false} WaitIsLongest(have: bool, elapsedMs: nat, remainingMs: nat, firstMs: nat, graceMs: nat, wait: nat)
    requires HookRecvTimeout(have, elapsedMs, remainingMs, firstMs, graceMs).Some?
    requires wait <= remainingMs && (have ==> wait <= graceMs) && (!have ==> elapsedMs + wait <= firstMs)
    ensures wait <= HookRecvTimeout(have, elapsedMs, remainingMs, firstMs, graceMs).value
  {
  }

  /** The choice the prompt builder makes inline. */
  function InlineWait(have: bool, elapsedMs: nat, remainingMs: nat, firstMs: nat, graceMs: nat): Option<nat> {
    if remainingMs == 0 then None
    else if !have then
      var firstRemaining := SatSub(firstMs, elapsedMs);
      if firstRemaining == 0 then None else Some(Min(firstRemaining, remainingMs))
    else Some(Min(graceMs, remainingMs))
  }

  /** It is the same on all inputs. */
  lemma {:induction false} InlineWaitAgrees(have: bool, elapsedMs: nat, remainingMs: nat, firstMs: nat, graceMs: nat)
    ensures InlineWait(have, elapsedMs, remainingMs, firstMs, graceMs) == HookRecvTimeout(have, elapsedMs, remainingMs, firstMs, graceMs)
  {
  }

  /** Before compaction, and before a prompt build. */
  function FanoutWait(w: Windows, elapsed: nat, count: nat): Option<nat> {
    if elapsed >= Ns(w.timeoutMs) || count >= MAX_HOOK_RESPONSES then None
    else HookRecvTimeout(count > 0, Ms(elapsed), Ms(Ns(w.timeoutMs) - elapsed), w.firstMs, w.graceMs)
  }

  /** It stops exactly when less than a millisecond of the cap is left, fifty
      responses are in, or none came within the first-response window. */
  lemma {:induction false} FanoutStopsIff(w: Windows, elapsed: nat, count: nat)
    ensures FanoutWait(w, elapsed, count).None? <==>
      elapsed + 1_000_000 > w.timeoutMs * 1_000_000 || count >= 50 || (count == 0 && elapsed >= w.firstMs * 1_000_000)
  {
  }

  function FanoutPolicy(w: Windows): Policy { (elapsed, count) => FanoutWait(w, elapsed, count) }

  /** The two collectors of the hook bridge: one deadline, and a short
      quiescence wait once anything is collected. */
  function BridgeWait(deadlineMs: nat, elapsed: nat, count: nat): Option<nat> {
    if Ms(elapsed) >= deadlineMs then None
    else Some(if count == 0 then deadlineMs - Ms(elapsed) else Min(HOOK_QUIESCENCE_MS, deadlineMs - Ms(elapsed)))
  }

  /** They wait for a first response until the deadline, and for each further one
      at most 25 milliseconds, in any case no longer than the deadline allows. */
  lemma {:induction false} BridgeWaitIs(deadlineMs: nat, elapsed: nat, count: nat)
    ensures BridgeWait(deadlineMs, elapsed, count).None? <==> elapsed >= deadlineMs * 1_000_000
    ensures var t := BridgeWait(deadlineMs, elapsed, count);
      t.Some? ==>
        && Ms(elapsed) + t.value <= deadlineMs && (count > 0 ==> t.value <= 25)
        && (Ms(elapsed) + t.value == deadlineMs || (count > 0 && t.value == 25))
  {
  }

  function BridgePolicy(deadlineMs: nat): Policy { (elapsed, count) => BridgeWait(deadlineMs, elapsed, count) }

  // ---- The loops ----

  /** What `recv(t)` returns next: with the script used up, a timeout. */
  function Upcoming<R>(script: seq<Poll<R>>, t: nat): Poll<R> { if script == [] then Timeout(Ns(t)) else script[0] }

  function Rest<R>(script: seq<Poll<R>>): seq<Poll<R>> { if script == [] then [] else script[1..] }

  /** One round of a collection. */
  lemma {:induction false} CollectStep<R>(policy: Policy, absorb: Absorb<R>, polls: seq<Poll<R>>, elapsed: nat, got: seq<R>, t: nat)
    requires policy(elapsed, |got|) == Some(t)
    ensures var p := Upcoming(polls, t);
      Collect(policy, absorb, polls, elapsed, got) ==
        if p.Batch? && p.messages != [] then
          Collect(policy, absorb, Rest(polls), After(elapsed, p, t), absorb(got, Usable(p.messages)))
        else Outcome(got, After(elapsed, p, t), Rest(polls), p.Failed?)
  {
  }

  /** The collection loop of `fire_before_compaction`. */
  method FireBeforeCompaction<R>(w: Windows, script: seq<Poll<R>>) returns (responses: seq<R>, elapsed: nat, unread: seq<Poll<R>>)
    ensures var o := Collect(FanoutPolicy(w), Append, script, 0, []);
      responses == o.responses && elapsed == o.elapsed && unread == o.unread
  {
    responses, elapsed, unread := [], 0, script;
    while elapsed < Ns(w.timeoutMs) && |responses| < MAX_HOOK_RESPONSES
      invariant Collect(FanoutPolicy(w), Append, script, 0, []) == Collect(FanoutPolicy(w), Append, unread, elapsed, responses)
      decreases |unread|
    {
      var remaining := Ms(Ns(w.timeoutMs) - elapsed);
      match HookRecvTimeout(responses != [], Ms(elapsed), remaining, w.firstMs, w.graceMs) {
        case None => return;
        case Some(t) =>
          CollectStep(FanoutPolicy(w), Append, unread, elapsed, responses, t);
          var p := Upcoming(unread, t);
          elapsed, unread := After(elapsed, p, t), Rest(unread);
          if !p.Batch? || p.messages == [] { return; }
          responses := responses + Usable(p.messages);
      }
    }
  }

  /** The collection loop of `fire_before_prompt_build`: it picks its waits
      itself, and is the same collection on every script. */
  method FireBeforePromptBuild<R>(w: Windows, script: seq<Poll<R>>) returns (responses: seq<R>, elapsed: nat, unread: seq<Poll<R>>)
    ensures var o := Collect(FanoutPolicy(w), Append, script, 0, []);
      responses == o.responses && elapsed == o.elapsed && unread == o.unread
  {
    responses, elapsed, unread := [], 0, script;
    while elapsed < Ns(w.timeoutMs) && |responses| < MAX_HOOK_RESPONSES
      invariant Collect(FanoutPolicy(w), Append, script, 0, []) == Collect(FanoutPolicy(w), Append, unread, elapsed, responses)
      decreases |unread|
    {
      var remaining := Ms(Ns(w.timeoutMs) - elapsed);
      InlineWaitAgrees(responses != [], Ms(elapsed), remaining, w.firstMs, w.graceMs);
      match InlineWait(responses != [], Ms(elapsed), remaining, w.firstMs, w.graceMs) {
        case None => return;
        case Some(t) =>
          CollectStep(FanoutPolicy(w), Append, unread, elapsed, responses, t);
          var p := Upcoming(unread, t);
          elapsed, unread := After(elapsed, p, t), Rest(unread);
          if !p.Batch? || p.messages == [] { return; }
          responses := responses + Usable(p.messages);
      }
    }
  }

  /** The collection loop of `dispatch_hook`; an error that is no timeout fails
      the dispatch. */
  method DispatchHook<R>(script: seq<Poll<R>>) returns (responses: seq<R>, elapsed: nat, unread: seq<Poll<R>>, failed: bool)
    ensures Outcome(responses, elapsed, unread, failed) == Collect(BridgePolicy(HOOK_COLLECT_DEADLINE_MS), Append, script, 0, [])
  {
    responses, elapsed, unread, failed := [], 0, script, false;
    while Ms(elapsed) < HOOK_COLLECT_DEADLINE_MS
      invariant !failed
      invariant Collect(BridgePolicy(HOOK_COLLECT_DEADLINE_MS), Append, script, 0, [])
             == Collect(BridgePolicy(HOOK_COLLECT_DEADLINE_MS), Append, unread, elapsed, responses)
      decreases |unread|
    {
      var remaining := HOOK_COLLECT_DEADLINE_MS - Ms(elapsed);
      if responses != [] { remaining := Min(HOOK_QUIESCENCE_MS, remaining); }
      var p := Upcoming(unread, remaining);
      elapsed, unread := After(elapsed, p, remaining), Rest(unread);
      if !p.Batch? || p.messages == [] { return responses, elapsed, unread, p.Failed?; }
      responses := responses + Usable(p.messages);
    }
  }

  // ---- How long a collection takes ----

  ghost predicate AllWhole<R>(polls: seq<Poll<R>>) { forall i :: 0 <= i < |polls| ==> Whole(polls[i].took) }

  /** No wait of the policy, begun within `cap`, ends after it. With `whole`,
      only instants at whole milliseconds are looked at; with `silent`, only
      waits for a first response. */
  ghost predicate Respects(policy: Policy, cap: nat, whole: bool, silent: bool) {
    forall e: nat, c: nat {:trigger policy(e, c)} ::
      e <= cap && (whole ==> Whole(e)) && (silent ==> c == 0) && policy(e, c).Some? ==> e + Ns(policy(e, c).value) <= cap
  }

  lemma {:induction false} CollectWithin<R>(
      policy: Policy, absorb: Absorb<R>, polls: seq<Poll<R>>, elapsed: nat, got: seq<R>, cap: nat, whole: bool)
    requires Respects(policy, cap, whole, false) && elapsed <= cap
    requires whole ==> Whole(elapsed) && AllWhole(polls)
    ensures elapsed <= Collect(policy, absorb, polls, elapsed, got).elapsed <= cap
    decreases |polls|
  {
    var wait := policy(elapsed, |got|);
    if wait.Some? && polls != [] && polls[0].Batch? && polls[0].messages != [] {
      CollectWithin(policy, absorb, polls[1..], After(elapsed, polls[0], wait.value), absorb(got, Usable(polls[0].messages)), cap, whole);
    }
  }

  /** The same while nothing usable arrives. */
  lemma {:induction false} SilentCollectWithin<R>(policy: Policy, polls: seq<Poll<R>>, elapsed: nat, cap: nat, whole: bool)
    requires Respects(policy, cap, whole, true) && elapsed <= cap
    requires whole ==> Whole(elapsed) && AllWhole(polls)
    requires Collect(policy, Append, polls, elapsed, []).responses == []
    ensures Collect(policy, Append, polls, elapsed, []).elapsed <= cap
    decreases |polls|
  {
    var wait := policy(elapsed, 0);
    if wait.Some? && polls != [] && polls[0].Batch? && polls[0].messages != [] {
      var next := After(elapsed, polls[0], wait.value);
      SilentStep(policy, polls, elapsed, wait.value);
      assert next <= cap && (whole ==> Whole(next) && AllWhole(polls[1..]));
      SilentCollectWithin(policy, polls[1..], next, cap, whole);
    }
  }

  /** A silent collection goes on as one. */
  lemma {:induction false} SilentStep<R>(policy: Policy, polls: seq<Poll<R>>, elapsed: nat, wait: nat)
    requires policy(elapsed, 0) == Some(wait) && polls != [] && polls[0].Batch? && polls[0].messages != []
    requires Collect(policy, Append, polls, elapsed, []).responses == []
    ensures Collect(policy, Append, polls, elapsed, []) == Collect(policy, Append, polls[1..], After(elapsed, polls[0], wait), [])
  {
    var none: seq<R>, usable := [], Usable(polls[0].messages);
    CollectStep(policy, Append, polls, elapsed, none, wait);
    CollectKeeps(policy, polls[1..], After(elapsed, polls[0], wait), none + usable);
    assert none + usable == usable == none;
  }

  lemma {:induction false} CollectKeeps<R>(policy: Policy, polls: seq<Poll<R>>, elapsed: nat, got: seq<R>)
    ensures got <= Collect(policy, Append, polls, elapsed, got).responses
    decreases |polls|
  {
    var wait := policy(elapsed, |got|);
    if wait.Some? && polls != [] && polls[0].Batch? && polls[0].messages != [] {
      CollectKeeps(policy, polls[1..], After(elapsed, polls[0], wait.value), got + Usable(polls[0].messages));
    }
  }

  /** The compaction and prompt-build collectors end within their outer cap, to
      the nanosecond, whatever arrives. */
  lemma {:induction false} FanoutWithinCap<R>(w: Windows, polls: seq<Poll<R>>)
    ensures Collect(FanoutPolicy(w), Append, polls, 0, []).elapsed <= Ns(w.timeoutMs)
  {
    CollectWithin(FanoutPolicy(w), Append, polls, 0, [], Ns(w.timeoutMs), false);
  }

  /** With no usable response they end within the first-response window, counted
      from the start, however many unrelated messages keep arriving: exactly so
      on a whole-millisecond clock, short of one millisecond more on any. */
  lemma {:induction false} SilentFanoutEndsEarly<R>(w: Windows, polls: seq<Poll<R>>)
    requires Collect(FanoutPolicy(w), Append, polls, 0, []).responses == []
    ensures Collect(FanoutPolicy(w), Append, polls, 0, []).elapsed < Ns(w.firstMs + 1)
    ensures AllWhole(polls) ==> Collect(FanoutPolicy(w), Append, polls, 0, []).elapsed <= Ns(w.firstMs)
  {
    assert Respects(FanoutPolicy(w), Ns(w.firstMs + 1) - 1, false, true);
    SilentCollectWithin(FanoutPolicy(w), polls, 0, Ns(w.firstMs + 1) - 1, false);
    if AllWhole(polls) {
      assert Respects(FanoutPolicy(w), Ns(w.firstMs), true, true);
      SilentCollectWithin(FanoutPolicy(w), polls, 0, Ns(w.firstMs), true);
    }
  }

  /** The extra fraction is real: elapsed time is rounded down to milliseconds,
      so an unrelated message half a millisecond in stretches a window of 1 ms
      to 1.5 ms. */
  lemma {:induction false} WindowCanStretch()
    ensures var w, polls: seq<Poll<nat>> := Windows(10, 1, 100), [Batch([None], 500_000)];
      Collect(FanoutPolicy(w), Append, polls, 0, []) == Outcome([], 1_500_000, [], false)
  {
    var w, polls: seq<Poll<nat>> := Windows(10, 1, 100), [Batch([None], 500_000)];
    var one: seq<Option<nat>> := [None];
    assert one[..0] == [] && Usable(one) == [];
    assert Collect(FanoutPolicy(w), Append, polls[1..], 500_000, []) == Outcome([], 1_500_000, [], false);
  }

  /** Arrivals on a clock that ticks every `u` nanoseconds. */
  ghost predicate InUnits<R>(polls: seq<Poll<R>>, u: nat)
    requires u > 0
  {
    forall i :: 0 <= i < |polls| ==> polls[i].took % u == 0
  }

  predicate EndsInWindow<R(==)>(w: Windows, polls: seq<Poll<R>>) {
    var o := Collect(FanoutPolicy(w), Append, polls, 0, []);
    o.responses == [] ==> o.elapsed <= Ns(w.firstMs)
  }

  /** A window that can be stretched: it is the outer cap that is longer, and
      the clock ticks in it, but not at whole milliseconds. */
  predicate Stretchable(w: Windows, u: nat) {
    w.firstMs < w.timeoutMs && !Whole(u) && u < Ns(w.firstMs)
  }

  /** Exactly when silence always ends within the first-response window. */
  lemma {:induction false} WindowHoldsIff<R>(w: Windows, u: nat)
    requires u > 0
    ensures (forall polls: seq<Poll<R>> :: InUnits(polls, u) ==> EndsInWindow(w, polls)) <==> !Stretchable(w, u)
  {
    if Stretchable(w, u) {
      var polls := Stretches<R>(w, u);
      assert InUnits(polls, u) && !EndsInWindow(w, polls);
    } else {
      forall polls: seq<Poll<R>> | InUnits(polls, u) ensures EndsInWindow(w, polls) { NotStretched(w, u, polls); }
    }
  }

  lemma {:induction false} SecondWait(w: Windows, u: nat) returns (t: nat)
    requires Stretchable(w, u)
    ensures FanoutWait(w, 0, 0) == Some(w.firstMs) && FanoutWait(w, u, 0) == Some(t) && u + Ns(t) > Ns(w.firstMs)
  {
    var q, f := u / 1_000_000, u % 1_000_000;
    assert u == Ns(q) + f && 0 < f < 1_000_000;
    t := w.firstMs - q;
    assert Ns(w.timeoutMs) - u == Ns(w.timeoutMs - q - 1) + (1_000_000 - f);
    assert Ms(Ns(w.timeoutMs) - u) == w.timeoutMs - q - 1 >= t;
    assert Ms(Ns(w.timeoutMs)) == w.timeoutMs;
  }

  lemma {:induction false} Stretches<R>(w: Windows, u: nat) returns (polls: seq<Poll<R>>)
    requires u > 0 && Stretchable(w, u)
    ensures InUnits(polls, u) && !EndsInWindow(w, polls)
  {
    var t := SecondWait(w, u);
    polls := [Batch([None], u)];
    OneTick(polls[0], u);
    TwoWaits(FanoutPolicy(w), polls, u, w.firstMs, t);
    TooLate(w, polls, u + Ns(t));
  }

  lemma {:induction false} OneTick<R>(p: Poll<R>, u: nat)
    requires u > 0 && p.took == u
    ensures InUnits([p], u)
  {
  }

  lemma {:induction false} TooLate<R>(w: Windows, polls: seq<Poll<R>>, elapsed: nat)
    requires Collect(FanoutPolicy(w), Append, polls, 0, []) == Outcome([], elapsed, [], false) && elapsed > Ns(w.firstMs)
    ensures !EndsInWindow(w, polls)
  {
  }

  lemma {:induction false} TwoWaits<R>(policy: Policy, polls: seq<Poll<R>>, u: nat, t: nat, t2: nat)
    requires policy(0, 0) == Some(t) && u < Ns(t) && policy(u, 0) == Some(t2) && polls == [Batch([None], u)]
    ensures Collect(policy, Append, polls, 0, []) == Outcome([], u + Ns(t2), [], false)
  {
    var one: seq<Option<R>>, none: seq<R> := [None], [];
    assert one[..0] == [] && Usable(one) == none && none + none == none;
    CollectStep(policy, Append, polls, 0, none, t);
    CollectStep(policy, Append, Rest(polls), u, none, t2);
  }

  lemma {:induction false} NotStretched<R>(w: Windows, u: nat, polls: seq<Poll<R>>)
    requires u > 0 && !Stretchable(w, u) && InUnits(polls, u)
    ensures EndsInWindow(w, polls)
  {
    if w.firstMs >= w.timeoutMs {
      FanoutWithinCap(w, polls);
    } else if Whole(u) {
      forall i | 0 <= i < |polls| ensures Whole(polls[i].took) { MultipleOfWhole(polls[i].took, u); }
      if Collect(FanoutPolicy(w), Append, polls, 0, []).responses == [] { SilentFanoutEndsEarly(w, polls); }
    } else {
      CoarseClock(w, u, polls, 0);
    }
  }

  lemma {:induction false} MultipleOfWhole(n: nat, u: nat)
    requires u > 0 && n % u == 0 && Whole(u)
    ensures Whole(n)
  {
    var a, b := n / u, u / 1_000_000;
    assert n == a * u && u == b * 1_000_000;
    assert n == (a * b) * 1_000_000;
  }

  /** A clock with no tick inside the window: nothing happens before its end. */
  lemma {:induction false} CoarseClock<R>(w: Windows, u: nat, polls: seq<Poll<R>>, elapsed: nat)
    requires w.firstMs < w.timeoutMs && u > 0 && u >= Ns(w.firstMs) && InUnits(polls, u)
    requires elapsed == 0 || elapsed == Ns(w.firstMs)
    ensures var o := Collect(FanoutPolicy(w), Append, polls, elapsed, []); o.responses == [] ==> o.elapsed <= Ns(w.firstMs)
    decreases |polls|
  {
    var wait := FanoutWait(w, elapsed, 0);
    if wait.Some? && polls != [] && polls[0].Batch? && polls[0].messages != [] {
      var next := After(elapsed, polls[0], wait.value);
      var usable := Usable(polls[0].messages);
      assert [] + usable == usable;
      CollectKeeps(FanoutPolicy(w), polls[1..], next, usable);
      if usable == [] {
        NoTickInside(polls[0].took, u);
        CoarseClock(w, u, polls[1..], next);
      }
    } else if wait.Some? && polls != [] {
      NoTickInside(polls[0].took, u);
    }
  }

  lemma {:induction false} NoTickInside(n: nat, u: nat)
    requires u > 0 && n % u == 0
    ensures n == 0 || n >= u
  {
  }

  /** The bridge collectors end within their deadline, whatever arrives, short
      of one millisecond; exactly on a whole-millisecond clock. */
  lemma {:induction false} BridgeWithinDeadline<R>(deadlineMs: nat, absorb: Absorb<R>, polls: seq<Poll<R>>)
    ensures Collect(BridgePolicy(deadlineMs), absorb, polls, 0, []).elapsed < Ns(deadlineMs + 1)
    ensures AllWhole(polls) ==> Collect(BridgePolicy(deadlineMs), absorb, polls, 0, []).elapsed <= Ns(deadlineMs)
  {
    CollectWithin(BridgePolicy(deadlineMs), absorb, polls, 0, [], Ns(deadlineMs + 1) - 1, false);
    if AllWhole(polls) {
      CollectWithin(BridgePolicy(deadlineMs), absorb, polls, 0, [], Ns(deadlineMs), true);
    }
  }

  // ---- What a collection returns ----

  function Arrived<R>(polls: seq<Poll<R>>): seq<R> {
    if polls == [] then []
    else (if polls[0].Batch? then Usable(polls[0].messages) else []) + Arrived(polls[1..])
  }

  /** A collection reads some first polls and returns every usable response in
      them, in order. */
  lemma {:induction false} CollectsInOrder<R>(policy: Policy, polls: seq<Poll<R>>, elapsed: nat, got: seq<R>) returns (k: nat)
    ensures k <= |polls| && Collect(policy, Append, polls, elapsed, got).unread == polls[k..]
    ensures Collect(policy, Append, polls, elapsed, got).responses == got + Arrived(polls[..k])
    decreases |polls|
  {
    k := 0;
    var wait := policy(elapsed, |got|);
    if wait.Some? && polls != [] {
      var p := polls[0];
      if p.Batch? && p.messages != [] {
        k := CollectsInOrder(policy, polls[1..], After(elapsed, p, wait.value), got + Usable(p.messages));
        assert polls[..k + 1][1..] == polls[1..][..k];
        assert polls[1..][k..] == polls[k + 1..];
      } else {
        assert polls[..1][1..] == [];
      }
      k := k + 1;
    }
  }

  /** A poll after which the loops go on: some messages, usable or not. */
  predicate Continues<R>(p: Poll<R>) { p.Batch? && p.messages != [] }

  /** When the poll before number `k` was over, and how much had arrived by then. */
  function ElapsedAt<R>(policy: Policy, polls: seq<Poll<R>>, k: nat): nat
    requires k <= |polls|
  {
    if k == 0 then 0
    else
      var e := ElapsedAt(policy, polls, k - 1);
      var wait := policy(e, |Arrived(polls[..k - 1])|);
      if wait.None? then e else After(e, polls[k - 1], wait.value)
  }

  lemma {:induction false} ArrivedSnoc<R>(polls: seq<Poll<R>>, p: Poll<R>)
    ensures Arrived(polls + [p]) == Arrived(polls) + (if p.Batch? then Usable(p.messages) else [])
    decreases |polls|
  {
    if polls == [] {
      assert [] + [p] == [p] && [p][1..] == [];
    } else {
      assert (polls + [p])[0] == polls[0] && (polls + [p])[1..] == polls[1..] + [p];
      ArrivedSnoc(polls[1..], p);
    }
  }

  /** `o` has read on to poll `k` from poll `i`, for as long as it could. */
  ghost predicate StopsAt<R>(policy: Policy, polls: seq<Poll<R>>, i: nat, k: nat, o: Outcome<R>) {
    && i <= k <= |polls| && (forall j :: i <= j < k - 1 ==> Continues(polls[j]))
    && o.unread == polls[k..] && o.responses == Arrived(polls[..k])
    && (o.failed <==> k > i && polls[k - 1].Failed?)
    && ((k > i && !Continues(polls[k - 1])) || policy(ElapsedAt(policy, polls, k), |Arrived(polls[..k])|).None? || k == |polls|)
  }

  lemma {:induction false} StopsLater<R>(policy: Policy, polls: seq<Poll<R>>, i: nat, k: nat, o: Outcome<R>)
    requires i < |polls| && Continues(polls[i]) && StopsAt(policy, polls, i + 1, k, o)
    ensures StopsAt(policy, polls, i, k, o)
  {
  }

  lemma {:induction false} StopsNow<R>(policy: Policy, polls: seq<Poll<R>>, i: nat, o: Outcome<R>)
    requires i <= |polls| && (policy(ElapsedAt(policy, polls, i), |Arrived(polls[..i])|).None? || i == |polls|)
    requires o == Collect(policy, Append, polls[i..], ElapsedAt(policy, polls, i), Arrived(polls[..i]))
    ensures StopsAt(policy, polls, i, i, o)
  {
  }

  lemma {:induction false} StopsNext<R>(policy: Policy, polls: seq<Poll<R>>, i: nat, wait: nat, o: Outcome<R>)
    requires i < |polls| && policy(ElapsedAt(policy, polls, i), |Arrived(polls[..i])|) == Some(wait) && !Continues(polls[i])
    requires o == Collect(policy, Append, polls[i..], ElapsedAt(policy, polls, i), Arrived(polls[..i]))
    ensures StopsAt(policy, polls, i, i + 1, o)
  {
    NextPoll(policy, polls, i, wait);
    CollectStep(policy, Append, polls[i..], ElapsedAt(policy, polls, i), Arrived(polls[..i]), wait);
  }

  lemma {:induction false} GoesOn<R>(policy: Policy, polls: seq<Poll<R>>, i: nat, wait: nat)
    requires i < |polls| && policy(ElapsedAt(policy, polls, i), |Arrived(polls[..i])|) == Some(wait) && Continues(polls[i])
    ensures Collect(policy, Append, polls[i..], ElapsedAt(policy, polls, i), Arrived(polls[..i]))
         == Collect(policy, Append, polls[i + 1..], ElapsedAt(policy, polls, i + 1), Arrived(polls[..i + 1]))
  {
    NextPoll(policy, polls, i, wait);
    CollectStep(policy, Append, polls[i..], ElapsedAt(policy, polls, i), Arrived(polls[..i]), wait);
  }

  /** A collection begun after the first `i` polls. */
  lemma {:induction false} StopsFrom<R>(policy: Policy, polls: seq<Poll<R>>, i: nat, o: Outcome<R>) returns (k: nat)
    requires i <= |polls| && o == Collect(policy, Append, polls[i..], ElapsedAt(policy, polls, i), Arrived(polls[..i]))
    ensures StopsAt(policy, polls, i, k, o)
    decreases |polls| - i
  {
    var wait := policy(ElapsedAt(policy, polls, i), |Arrived(polls[..i])|);
    if wait.None? || i == |polls| {
      StopsNow(policy, polls, i, o);
      k := i;
    } else if Continues(polls[i]) {
      GoesOn(policy, polls, i, wait.value);
      k := StopsFrom(policy, polls, i + 1, o);
      StopsLater(policy, polls, i, k, o);
    } else {
      StopsNext(policy, polls, i, wait.value, o);
      k := i + 1;
    }
  }

  /** Where the collection is after one more poll. */
  lemma {:induction false} NextPoll<R>(policy: Policy, polls: seq<Poll<R>>, i: nat, wait: nat)
    requires i < |polls| && policy(ElapsedAt(policy, polls, i), |Arrived(polls[..i])|) == Some(wait)
    ensures Upcoming(polls[i..], wait) == polls[i] && Rest(polls[i..]) == polls[i + 1..]
    ensures ElapsedAt(policy, polls, i + 1) == After(ElapsedAt(policy, polls, i), polls[i], wait)
    ensures Continues(polls[i]) ==> Arrived(polls[..i + 1]) == Append(Arrived(polls[..i]), Usable(polls[i].messages))
    ensures !Continues(polls[i]) ==> Arrived(polls[..i + 1]) == Arrived(polls[..i])
  {
    assert polls[i..][0] == polls[i] && polls[i..][1..] == polls[i + 1..];
    assert polls[..i + 1] == polls[..i] + [polls[i]];
    ArrivedSnoc(polls[..i], polls[i]);
    if polls[i].Batch? && polls[i].messages == [] { assert Usable(polls[i].messages) == []; }
  }

  /** No collection gives up early: it reads polls for as long as its windows
      allow another wait and each brings something, returns every usable
      response of those it read, and stops only at the first that brings nothing
      (or when no window is left, or nothing more is to come). */
  lemma {:induction false} CollectsUntilTheEnd<R>(policy: Policy, polls: seq<Poll<R>>) returns (k: nat)
    ensures k <= |polls| && Collect(policy, Append, polls, 0, []).unread == polls[k..]
    ensures Collect(policy, Append, polls, 0, []).responses == Arrived(polls[..k])
    ensures Collect(policy, Append, polls, 0, []).failed <==> k > 0 && polls[k - 1].Failed?
    ensures forall j :: 0 <= j < k - 1 ==> Continues(polls[j])
    ensures (k > 0 && !Continues(polls[k - 1])) || policy(ElapsedAt(policy, polls, k), |Arrived(polls[..k])|).None? || k == |polls|
  {
    assert polls[0..] == polls && polls[..0] == [];
    k := StopsFrom(policy, polls, 0, Collect(policy, Append, polls, 0, []));
  }

  // ---- Additional context ----

  const SEPARATOR: string := "\n\n"

  /** `join("\n\n")`. */
  function Join(sep: string, cs: seq<string>): string {
    if cs == [] then [] else if |cs| == 1 then cs[0] else Join(sep, cs[..|cs| - 1]) + sep + cs[|cs| - 1]
  }

  /** One text stands for itself; two joined lists are joined with the separator. */
  lemma {:induction false} JoinIs(sep: string, a: seq<string>, b: seq<string>, c: string)
    requires a != [] && b != []
    ensures Join(sep, [c]) == c && Join(sep, a + b) == Join(sep, a) + sep + Join(sep, b)
    decreases |b|
  {
    var n := |b| - 1;
    assert a + b == (a + b[..n]) + [b[n]] && b == b[..n] + [b[n]];
    JoinSnoc(sep, a + b[..n], b[n]);
    if n == 0 {
      assert a + b[..n] == a;
    } else {
      JoinSnoc(sep, b[..n], b[n]);
      JoinIs(sep, a, b[..n], c);
      Regroup(Join(sep, a) + sep, Join(sep, b[..n]), sep + b[n]);
    }
  }

  lemma {:induction false} JoinSnoc(sep: string, cs: seq<string>, c: string)
    requires cs != []
    ensures Join(sep, cs + [c]) == Join(sep, cs) + (sep + c)
  {
    assert (cs + [c])[..|cs|] == cs;
  }

  lemma {:induction false} Regroup(a: string, b: string, c: string)
    ensures (a + b) + c == a + (b + c)
  {
  }

  /** The length of the joined text. */
  function JoinedLength(cs: seq<string>): nat {
    if cs == [] then 0 else JoinedLength(cs[..|cs| - 1]) + (if |cs| == 1 then 0 else 2) + |cs[|cs| - 1]|
  }

  lemma {:induction false} JoinLength(cs: seq<string>)
    ensures |Join(SEPARATOR, cs)| == JoinedLength(cs)
  {
    if |cs| > 1 { JoinLength(cs[..|cs| - 1]); }
    else if |cs| == 1 { assert cs[..0] == []; }
  }

  /** Keep a context if the joined text still fits, else drop it alone. */
  function Push(cs: seq<string>, c: string): seq<string> {
    if JoinedLength(cs) + (if cs == [] then 0 else 2) + |c| <= MAX_HOST_CONTEXT_BYTES then cs + [c] else cs
  }

  function PushAll(cs: seq<string>, more: seq<string>): seq<string>
    decreases |more|
  {
    if more == [] then cs else PushAll(Push(cs, more[0]), more[1..])
  }

  /** `push_context`: its running total is the joined length. */
  method PushContext(contexts: seq<string>, total: nat, c: string) returns (ok: bool, contexts': seq<string>, total': nat)
    requires total == JoinedLength(contexts) <= MAX_HOST_CONTEXT_BYTES
    ensures ok <==> JoinedLength(contexts + [c]) <= MAX_HOST_CONTEXT_BYTES
    ensures contexts' == (if ok then contexts + [c] else contexts) == Push(contexts, c)
    ensures total' == JoinedLength(contexts') <= MAX_HOST_CONTEXT_BYTES
  {
    JoinGrows(contexts, c);
    var separator := if contexts != [] then 2 else 0;
    var next := total + separator + |c|;
    if next > MAX_HOST_CONTEXT_BYTES { return false, contexts, total; }
    return true, contexts + [c], next;
  }

  /** The messages of one batch. */
  method PushBatch(contexts0: seq<string>, total0: nat, more: seq<string>) returns (contexts: seq<string>, total: nat)
    requires Tallied(contexts0, total0)
    ensures contexts == PushAll(contexts0, more) && Tallied(contexts, total)
  {
    contexts, total := contexts0, total0;
    var i := 0;
    while i < |more|
      invariant 0 <= i <= |more| && Tallied(contexts, total)
      invariant PushAll(contexts0, more) == PushAll(contexts, more[i..])
    {
      var ok;
      ok, contexts, total := PushContext(contexts, total, more[i]);
      assert more[i..][1..] == more[i + 1..];
      i := i + 1;
    }
  }

  /** `collect_additional_context`, once blank contexts are set aside: `None`
      on a failing channel. */
  method CollectAdditionalContext(script: seq<Poll<string>>) returns (r: Option<Option<string>>, elapsed: nat)
    ensures var o := Collect(BridgePolicy(HOST_HOOK_COLLECT_DEADLINE_MS), PushAll, script, 0, []);
      && elapsed == o.elapsed
      && r == if o.failed then None else Some(if o.responses == [] then None else Some(Join(SEPARATOR, o.responses)))
  {
    var o := CollectContexts(script);
    r := if o.failed then None else Some(if o.responses == [] then None else Some(Join(SEPARATOR, o.responses)));
    elapsed := o.elapsed;
  }

  /** The running total is the joined length, and within the limit. */
  ghost predicate Tallied(contexts: seq<string>, total: nat) { total == JoinedLength(contexts) <= MAX_HOST_CONTEXT_BYTES }

  /** Its loop. */
  method CollectContexts(script: seq<Poll<string>>) returns (o: Outcome<string>)
    ensures o == Collect(BridgePolicy(HOST_HOOK_COLLECT_DEADLINE_MS), PushAll, script, 0, [])
  {
    var contexts: seq<string>, total, elapsed, unread := [], 0, 0, script;
    while Ms(elapsed) < HOST_HOOK_COLLECT_DEADLINE_MS
      invariant Tallied(contexts, total)
      invariant Collect(BridgePolicy(HOST_HOOK_COLLECT_DEADLINE_MS), PushAll, script, 0, [])
             == Collect(BridgePolicy(HOST_HOOK_COLLECT_DEADLINE_MS), PushAll, unread, elapsed, contexts)
      decreases |unread|
    {
      var remaining := HOST_HOOK_COLLECT_DEADLINE_MS - Ms(elapsed);
      if contexts != [] { remaining := Min(HOOK_QUIESCENCE_MS, remaining); }
      var p := Upcoming(unread, remaining);
      elapsed, unread := After(elapsed, p, remaining), Rest(unread);
      if !p.Batch? || p.messages == [] { return Outcome(contexts, elapsed, unread, p.Failed?); }
      contexts, total := PushBatch(contexts, total, Usable(p.messages));
    }
    o := Outcome(contexts, elapsed, unread, false);
  }

  lemma {:induction false} JoinGrows(cs: seq<string>, c: string)
    ensures JoinedLength(cs + [c]) == JoinedLength(cs) + (if cs == [] then 0 else 2) + |c|
  {
    assert (cs + [c])[..|cs|] == cs;
  }

  /** Whatever arrives, the text handed back fits its limit. */
  lemma {:induction false} ContextFits(polls: seq<Poll<string>>)
    ensures |Join(SEPARATOR, Collect(BridgePolicy(HOST_HOOK_COLLECT_DEADLINE_MS), PushAll, polls, 0, []).responses)| <= 65536
  {
    CollectFits(BridgePolicy(HOST_HOOK_COLLECT_DEADLINE_MS), polls, 0, []);
    JoinLength(Collect(BridgePolicy(HOST_HOOK_COLLECT_DEADLINE_MS), PushAll, polls, 0, []).responses);
  }

  lemma {:induction false} CollectFits(policy: Policy, polls: seq<Poll<string>>, elapsed: nat, got: seq<string>)
    requires JoinedLength(got) <= MAX_HOST_CONTEXT_BYTES
    ensures JoinedLength(Collect(policy, PushAll, polls, elapsed, got).responses) <= MAX_HOST_CONTEXT_BYTES
    decreases |polls|
  {
    var wait := policy(elapsed, |got|);
    if wait.Some? && polls != [] && polls[0].Batch? && polls[0].messages != [] {
      PushAllFits(got, Usable(polls[0].messages));
      CollectFits(policy, polls[1..], After(elapsed, polls[0], wait.value), PushAll(got, Usable(polls[0].messages)));
    }
  }

  lemma {:induction false} PushAllFits(cs: seq<string>, more: seq<string>)
    requires JoinedLength(cs) <= MAX_HOST_CONTEXT_BYTES
    ensures JoinedLength(PushAll(cs, more)) <= MAX_HOST_CONTEXT_BYTES
    decreases |more|
  {
    if more != [] { PushAllFits(Push(cs, more[0]), more[1..]); }
  }
}
