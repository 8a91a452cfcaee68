/**
 Greedy context compaction: token estimates, the truncation loop, the merge of
 plugin responses, and the request as the reasoning loop sends it.
 */
module Compaction {
  import opened Prelude

  const U32_MAX: nat := 0xFFFF_FFFF
  const COMPACTION_TARGET_NUM: nat := 9
  const COMPACTION_TARGET_DENOM: nat := 10

  /** A field of a JSON message: absent, a string, or some other value. */
  datatype Field = Absent | Str(s: string) | Other

  /** A message: its two identifier fields, the length of its serialized text,
      and whatever else tells it apart. */
  datatype Msg = Msg(id: Field, messageId: Field, size: nat, rest: nat)

  function MessageId(m: Msg): Option<string> {
    var f := if m.id.Absent? then m.messageId else m.id;
    if f.Str? then Some(f.s) else None
  }

  /** The text a message can be pinned by: its id when it has one, else its
      message id; only text counts. */
  predicate PinnedBy(m: Msg, pin: string) {
    m.id == Str(pin) || (m.id == Absent && m.messageId == Str(pin))
  }

  lemma {:induction false} MessageIdIs(m: Msg, pin: string)
    ensures MessageId(m) == Some(pin) <==> PinnedBy(m, pin)
  {
  }

  // ---- Estimates ----

  /** `estimate_tokens`: a quarter of the serialized length, rounded up. */
  function EstimateTokens(m: Msg): nat { (Min(m.size, U64_MAX) + 3) / 4 }

  /** Four bytes are one token, begun. */
  lemma {:induction false} EstimateIsQuarter(m: Msg)
    requires m.size <= U64_MAX
    ensures m.size <= 4 * EstimateTokens(m) < m.size + 4
  {
  }

  /** `estimate_total_tokens`: a saturating sum. */
  function EstimateTotal(ms: seq<Msg>): nat {
    if ms == [] then 0 else SatAdd64(EstimateTotal(ms[..|ms| - 1]), EstimateTokens(ms[|ms| - 1]))
  }

  /** The true sum. */
  function Sum(ms: seq<Msg>): nat {
    if ms == [] then 0 else Sum(ms[..|ms| - 1]) + EstimateTokens(ms[|ms| - 1])
  }

  lemma {:induction false} EstimateIsCappedSum(ms: seq<Msg>)
    ensures EstimateTotal(ms) == Min(Sum(ms), U64_MAX)
  {
    if ms != [] { EstimateIsCappedSum(ms[..|ms| - 1]); }
  }

  // ---- What may go, and what stays after a cut ----

  /** Older than the recent ones and not pinned. */
  predicate Removable(ms: seq<Msg>, pins: set<string>, start: nat, i: nat) {
    i < |ms| && i < start && !(MessageId(ms[i]).Some? && MessageId(ms[i]).value in pins)
  }

  /** Of the first `n` messages, those that stay when every removable one
      before `cut` goes. */
  function Kept(ms: seq<Msg>, pins: set<string>, start: nat, cut: nat, n: nat): seq<Msg>
    requires n <= |ms|
  {
    if n == 0 then []
    else Kept(ms, pins, start, cut, n - 1) + (if n - 1 < cut && Removable(ms, pins, start, n - 1) then [] else [ms[n - 1]])
  }

  function Remaining(ms: seq<Msg>, pins: set<string>, start: nat, cut: nat): seq<Msg> { Kept(ms, pins, start, cut, |ms|) }

  /** Where the truncation stops, reading on from message `i` with `running`
      tokens left: at the first removable message it finds no need to remove. */
  function CutFrom(ms: seq<Msg>, target: nat, pins: set<string>, start: nat, running: nat, i: nat): (c: nat)
    ensures i <= |ms| ==> i <= c <= |ms|
    decreases |ms| - i
  {
    if i >= |ms| then i
    else if !Removable(ms, pins, start, i) then CutFrom(ms, target, pins, start, running, i + 1)
    else if running <= target then i
    else CutFrom(ms, target, pins, start, SatSub(running, EstimateTokens(ms[i])), i + 1)
  }

  function CutOf(ms: seq<Msg>, target: nat, pins: set<string>, keepRecent: nat): (c: nat)
    ensures c <= |ms|
  {
    CutFrom(ms, target, pins, SatSub(|ms|, keepRecent), EstimateTotal(ms), 0)
  }

  function Truncate(ms: seq<Msg>, target: nat, pins: set<string>, keepRecent: nat): seq<Msg> {
    Remaining(ms, pins, SatSub(|ms|, keepRecent), CutOf(ms, target, pins, keepRecent))
  }

  lemma {:induction false} CutSkips(ms: seq<Msg>, target: nat, pins: set<string>, start: nat, running: nat, i: nat, j: nat)
    requires i <= j <= |ms| && forall k :: i <= k < j ==> !Removable(ms, pins, start, k)
    ensures CutFrom(ms, target, pins, start, running, i) == CutFrom(ms, target, pins, start, running, j)
    decreases j - i
  {
    if i < j { CutSkips(ms, target, pins, start, running, i + 1, j); }
  }

  /** A cut before which nothing is removable keeps everything. */
  lemma {:induction false} NothingRemoved(ms: seq<Msg>, pins: set<string>, start: nat, cut: nat, n: nat)
    requires n <= |ms| && forall k :: 0 <= k < cut ==> !Removable(ms, pins, start, k)
    ensures Kept(ms, pins, start, cut, n) == ms[..n]
  {
    if n > 0 { NothingRemoved(ms, pins, start, cut, n - 1); }
  }

  /** Under budget from the beginning, the cut is at the first removable one. */
  lemma {:induction false} CutWhenUnder(ms: seq<Msg>, target: nat, pins: set<string>, start: nat, running: nat, i: nat)
    requires i <= |ms| && running <= target && forall k :: 0 <= k < i ==> !Removable(ms, pins, start, k)
    ensures forall k :: 0 <= k < CutFrom(ms, target, pins, start, running, i) ==> !Removable(ms, pins, start, k)
    decreases |ms| - i
  {
    if i < |ms| && !Removable(ms, pins, start, i) { CutWhenUnder(ms, target, pins, start, running, i + 1); }
  }

  // ---- The loops ----

  /** `indices` lists the removable indices below `n`, in order. */
  ghost predicate ListsRemovable(indices: seq<nat>, ms: seq<Msg>, pins: set<string>, start: nat, n: nat) {
    && (forall a, b :: 0 <= a < b < |indices| ==> indices[a] < indices[b])
    && (forall i: nat :: i in indices <==> i < n && Removable(ms, pins, start, i))
  }

  function At(indices: seq<nat>, k: nat, end: nat): nat { if k < |indices| then indices[k] else end }

  /** Nothing removable lies between consecutive listed indices. */
  lemma {:induction false} NoneBetween(indices: seq<nat>, ms: seq<Msg>, pins: set<string>, start: nat, k: nat)
    requires ListsRemovable(indices, ms, pins, start, |ms|) && k <= |indices|
    ensures forall i :: (if k == 0 then 0 else indices[k - 1] + 1) <= i < At(indices, k, |ms|) ==> !Removable(ms, pins, start, i)
  {
    forall a | 0 <= a < |indices|
      ensures a < k ==> indices[a] <= indices[k - 1]
      ensures a >= k ==> indices[k] <= indices[a]
    {
    }
  }

  /** `summarize_and_truncate`: list the removable indices, remove oldest first
      while over the target, and keep the rest in order. */
  method SummarizeAndTruncate(ms: seq<Msg>, target: nat, pins: set<string>, keepRecent: nat) returns (kept: seq<Msg>)
    ensures kept == Truncate(ms, target, pins, keepRecent)
  {
    if ms == [] { return []; }
    ghost var start := SatSub(|ms|, keepRecent);
    var current := EstimateTotal(ms);
    if current <= target {
      CutWhenUnder(ms, target, pins, start, current, 0);
      NothingRemoved(ms, pins, start, CutOf(ms, target, pins, keepRecent), |ms|);
      return ms;
    }
    var indices := RemovableIndices(ms, pins, SatSub(|ms|, keepRecent));
    var removed := RemoveOldest(ms, target, pins, current, indices, start);
    kept := [];
    for i := 0 to |ms|
      invariant kept == Kept(ms, pins, start, CutOf(ms, target, pins, keepRecent), i)
    {
      if i !in removed { kept := kept + [ms[i]]; }
    }
  }

  /** Its second loop: remove oldest first while over the target. */
  method RemoveOldest(ms: seq<Msg>, target: nat, pins: set<string>, current: nat, indices: seq<nat>, ghost start: nat)
    returns (removed: set<nat>)
    requires ListsRemovable(indices, ms, pins, start, |ms|)
    ensures forall i: nat :: i in removed <==> i < CutFrom(ms, target, pins, start, current, 0) && Removable(ms, pins, start, i)
  {
    removed := {};
    var running: nat := current;
    var k := 0;
    NoneBetween(indices, ms, pins, start, 0);
    assert forall j :: 0 <= j < |indices| ==> indices[j] in indices;
    CutSkips(ms, target, pins, start, running, 0, At(indices, 0, |ms|));
    while k < |indices| && running > target
      invariant 0 <= k <= |indices| && At(indices, k, |ms|) <= |ms|
      invariant forall i: nat :: i in removed <==> i < At(indices, k, |ms|) && Removable(ms, pins, start, i)
      invariant CutFrom(ms, target, pins, start, current, 0) == CutFrom(ms, target, pins, start, running, At(indices, k, |ms|))
    {
      var i := indices[k];
      running := SatSub(running, EstimateTokens(ms[i]));
      removed := removed + {i};
      NoneBetween(indices, ms, pins, start, k + 1);
      CutSkips(ms, target, pins, start, running, i + 1, At(indices, k + 1, |ms|));
      k := k + 1;
    }
  }

  method RemovableIndices(ms: seq<Msg>, pins: set<string>, start: nat) returns (indices: seq<nat>)
    ensures ListsRemovable(indices, ms, pins, start, |ms|)
  {
    indices := [];
    for i := 0 to |ms|
      invariant ListsRemovable(indices, ms, pins, start, i)
    {
      if i < start {
        var id := MessageId(ms[i]);
        if !(id.Some? && id.value in pins) {
          assert forall a :: 0 <= a < |indices| ==> indices[a] in indices;
          indices := indices + [i];
        }
      }
    }
  }

  // ---- What truncation guarantees ----

  lemma {:induction false} CutAgrees(ms: seq<Msg>, pins: set<string>, start: nat, a: nat, b: nat, n: nat)
    requires n <= |ms| && n <= a && n <= b
    ensures Kept(ms, pins, start, a, n) == Kept(ms, pins, start, b, n)
  {
    if n > 0 { CutAgrees(ms, pins, start, a, b, n - 1); }
  }

  /** Moving the cut past one message drops it if removable, and only it. */
  lemma {:induction false} CutOneMore(ms: seq<Msg>, pins: set<string>, start: nat, cut: nat, n: nat)
    requires cut < n <= |ms|
    ensures var gone := Removable(ms, pins, start, cut);
      && Sum(Kept(ms, pins, start, cut, n)) == Sum(Kept(ms, pins, start, cut + 1, n)) + (if gone then EstimateTokens(ms[cut]) else 0)
      && |Kept(ms, pins, start, cut, n)| == |Kept(ms, pins, start, cut + 1, n)| + (if gone then 1 else 0)
      && (!gone ==> Kept(ms, pins, start, cut, n) == Kept(ms, pins, start, cut + 1, n))
    decreases n
  {
    var x, y := Kept(ms, pins, start, cut, n - 1), Kept(ms, pins, start, cut + 1, n - 1);
    var m := ms[n - 1];
    assert (x + [m])[..|x|] == x && (y + [m])[..|y|] == y;
    assert x + [] == x && y + [] == y;
    if cut + 1 == n {
      CutAgrees(ms, pins, start, cut, cut + 1, n - 1);
    } else {
      CutOneMore(ms, pins, start, cut, n - 1);
    }
  }

  /** Any cut from `i` up to `c` that removes less than `c` leaves too much. */
  ghost predicate ShorterIsTooMuch(ms: seq<Msg>, target: nat, pins: set<string>, start: nat, i: nat, c: nat) {
    forall d :: i <= d < c && |Remaining(ms, pins, start, d)| > |Remaining(ms, pins, start, c)|
      ==> Sum(Remaining(ms, pins, start, d)) > target
  }

  lemma {:induction false} ShorterFromOneBefore(ms: seq<Msg>, target: nat, pins: set<string>, start: nat, i: nat, c: nat)
    requires i < c && ShorterIsTooMuch(ms, target, pins, start, i + 1, c)
    requires Sum(Remaining(ms, pins, start, i)) > target || Remaining(ms, pins, start, i) == Remaining(ms, pins, start, i + 1)
    ensures ShorterIsTooMuch(ms, target, pins, start, i, c)
  {
  }

  /** Reaching the cut `c` from `i`: it meets the target or is the end, and
      nothing shorter would have done. */
  ghost predicate Shortest(ms: seq<Msg>, target: nat, pins: set<string>, start: nat, i: nat, c: nat) {
    && (Sum(Remaining(ms, pins, start, c)) <= target || c == |ms|)
    && ShorterIsTooMuch(ms, target, pins, start, i, c)
  }

  lemma {:induction false} RemainingStep(ms: seq<Msg>, pins: set<string>, start: nat, i: nat)
    requires i < |ms|
    ensures !Removable(ms, pins, start, i) ==> Remaining(ms, pins, start, i) == Remaining(ms, pins, start, i + 1)
    ensures Removable(ms, pins, start, i) ==>
              Sum(Remaining(ms, pins, start, i)) == Sum(Remaining(ms, pins, start, i + 1)) + EstimateTokens(ms[i])
  {
    CutOneMore(ms, pins, start, i, |ms|);
  }

  lemma {:induction false} ShortestFromOneBefore(ms: seq<Msg>, target: nat, pins: set<string>, start: nat, i: nat, c: nat)
    requires i < |ms| && i < c && Shortest(ms, target, pins, start, i + 1, c)
    requires Removable(ms, pins, start, i) ==> Sum(Remaining(ms, pins, start, i)) > target
    ensures Shortest(ms, target, pins, start, i, c)
  {
    RemainingStep(ms, pins, start, i);
    ShorterFromOneBefore(ms, target, pins, start, i, c);
  }

  /** The cut found from message `i` on, when `running` is what is left. */
  lemma {:induction false} CutIsShortest(ms: seq<Msg>, target: nat, pins: set<string>, start: nat, running: nat, i: nat)
    requires i <= |ms| && running == Sum(Remaining(ms, pins, start, i))
    ensures Shortest(ms, target, pins, start, i, CutFrom(ms, target, pins, start, running, i))
    decreases |ms| - i
  {
    if i < |ms| && !(Removable(ms, pins, start, i) && running <= target) {
      RemainingStep(ms, pins, start, i);
      var left := if Removable(ms, pins, start, i) then running - EstimateTokens(ms[i]) else running;
      CutIsShortest(ms, target, pins, start, left, i + 1);
      ShortestFromOneBefore(ms, target, pins, start, i, CutFrom(ms, target, pins, start, left, i + 1));
    }
  }

  /** Compaction, when the true sum fits u64: what stays is within the target,
      or everything removable is gone; and removing any shorter oldest-first
      run of removable messages would have left too much. */
  lemma {:induction false} TruncateIsShortest(ms: seq<Msg>, target: nat, pins: set<string>, keepRecent: nat)
    requires Sum(ms) <= U64_MAX
    ensures var start, c, kept := SatSub(|ms|, keepRecent), CutOf(ms, target, pins, keepRecent), Truncate(ms, target, pins, keepRecent);
      && kept == Remaining(ms, pins, start, c)
      && (Sum(kept) <= target || kept == Remaining(ms, pins, start, |ms|))
      && ShorterIsTooMuch(ms, target, pins, start, 0, c)
  {
    var start := SatSub(|ms|, keepRecent);
    EstimateIsCappedSum(ms);
    NothingRemoved(ms, pins, start, 0, |ms|);
    assert ms[..|ms|] == ms;
    CutIsShortest(ms, target, pins, start, EstimateTotal(ms), 0);
  }

  /** The positions, among the first `n`, of the messages that stay. */
  function Positions(ms: seq<Msg>, pins: set<string>, start: nat, cut: nat, n: nat): seq<nat>
    requires n <= |ms|
  {
    if n == 0 then []
    else Positions(ms, pins, start, cut, n - 1) + (if n - 1 < cut && Removable(ms, pins, start, n - 1) then [] else [n - 1])
  }

  lemma {:induction false} PositionsHold(ms: seq<Msg>, pins: set<string>, start: nat, cut: nat, n: nat)
    requires n <= |ms|
    ensures var at := Positions(ms, pins, start, cut, n);
      && (forall i :: 0 <= i < |at| ==> at[i] < n)
      && (forall i, j :: 0 <= i < j < |at| ==> at[i] < at[j])
      && (forall p: nat :: p in at <==> p < n && (p >= cut || !Removable(ms, pins, start, p)))
  {
    if n > 0 { PositionsHold(ms, pins, start, cut, n - 1); }
  }

  lemma {:induction false} KeptIsAtPositions(ms: seq<Msg>, pins: set<string>, start: nat, cut: nat, n: nat)
    requires n <= |ms|
    ensures var at := Positions(ms, pins, start, cut, n);
      && |Kept(ms, pins, start, cut, n)| == |at|
      && forall i :: 0 <= i < |at| ==> at[i] < |ms| && Kept(ms, pins, start, cut, n)[i] == ms[at[i]]
  {
    if n > 0 { KeptIsAtPositions(ms, pins, start, cut, n - 1); }
  }

  /** Order is kept, and so is every recent and every pinned message: what
      remains are the messages at increasing positions `at`, all of which but
      removable ones before the cut. */
  lemma {:induction false} TruncateKeeps(ms: seq<Msg>, target: nat, pins: set<string>, keepRecent: nat) returns (at: seq<nat>)
    ensures var kept, start := Truncate(ms, target, pins, keepRecent), SatSub(|ms|, keepRecent);
      && |at| == |kept|
      && (forall i :: 0 <= i < |at| ==> at[i] < |ms| && kept[i] == ms[at[i]])
      && (forall i, j :: 0 <= i < j < |at| ==> at[i] < at[j])
      && (forall p: nat :: p in at <==>
            p < |ms| && (p >= CutOf(ms, target, pins, keepRecent) || p >= start || (MessageId(ms[p]).Some? && MessageId(ms[p]).value in pins)))
      && (forall p: nat :: p < |ms| && (p + keepRecent >= |ms| || exists pin :: pin in pins && PinnedBy(ms[p], pin)) ==> p in at)
  {
    forall p: nat | p < |ms| && exists pin :: pin in pins && PinnedBy(ms[p], pin)
      ensures MessageId(ms[p]).Some? && MessageId(ms[p]).value in pins
    {
      var pin :| pin in pins && PinnedBy(ms[p], pin);
      MessageIdIs(ms[p], pin);
    }
    var start, cut := SatSub(|ms|, keepRecent), CutOf(ms, target, pins, keepRecent);
    at := Positions(ms, pins, start, cut, |ms|);
    PositionsHold(ms, pins, start, cut, |ms|);
    KeptIsAtPositions(ms, pins, start, cut, |ms|);
  }

  /** What a capsule can hold: it runs as a 32-bit guest, so lists and texts are
      shorter than 2^32. */
  predicate GuestHolds(ms: seq<Msg>) {
    |ms| <= U32_MAX && forall i :: 0 <= i < |ms| ==> ms[i].size <= U32_MAX
  }

  /** The running total never saturates in a capsule: it is the true sum. */
  lemma {:induction false} GuestSumFits(ms: seq<Msg>)
    requires GuestHolds(ms)
    ensures Sum(ms) <= U64_MAX && EstimateTotal(ms) == Sum(ms)
  {
    SumBounded(ms);
    EstimateIsCappedSum(ms);
    assert |ms| * 0x4000_0000 <= U32_MAX * 0x4000_0000 <= U64_MAX;
  }

  lemma {:induction false} SumBounded(ms: seq<Msg>)
    requires forall i :: 0 <= i < |ms| ==> ms[i].size <= U32_MAX
    ensures Sum(ms) <= |ms| * 0x4000_0000
  {
    if ms != [] {
      SumBounded(ms[..|ms| - 1]);
      assert EstimateTokens(ms[|ms| - 1]) <= 0x4000_0000;
    }
  }

  // ---- The request ----

  datatype HookResponse = HookResponse(skip: Option<bool>, pins: seq<string>)

  function AnySkip(rs: seq<HookResponse>): bool { exists i :: 0 <= i < |rs| && rs[i].skip == Some(true) }

  function AllPins(rs: seq<HookResponse>): set<string> { set i, p | 0 <= i < |rs| && p in rs[i].pins :: p }

  datatype Reply = Reply(messages: seq<Msg>, compacted: bool, removed: nat)

  /** `handle_compact`, given the responses its hook collected. */
  function HandleCompact(ms: seq<Msg>, maxTokens: nat, targetTokens: nat, rs: seq<HookResponse>, keepRecent: nat): Reply {
    if AnySkip(rs) then Reply(ms, false, 0)
    else
      var kept := Truncate(ms, Min(targetTokens, maxTokens), AllPins(rs), keepRecent);
      var removed := SatSub(Min(|ms|, U32_MAX), Min(|kept|, U32_MAX));
      Reply(kept, removed > 0, removed)
  }

  /** The budget react asks for: nine tenths, computed in u64. A release build
      wraps the product. */
  function ReactTarget(maxTokens: nat): nat {
    maxTokens * COMPACTION_TARGET_NUM % (U64_MAX + 1) / COMPACTION_TARGET_DENOM
  }

  /** The wrap never asks for more than the budget; it asks for nine tenths of
      it exactly when the product does not wrap past a tenth. */
  lemma {:induction false} ReactTargetWithinMax(maxTokens: nat)
    requires maxTokens <= U64_MAX
    ensures ReactTarget(maxTokens) <= maxTokens * 9 / 10 <= maxTokens
    ensures ReactTarget(maxTokens) == maxTokens * 9 / 10 <==> maxTokens * 9 <= U64_MAX
  {
    var p, q := maxTokens * 9, U64_MAX + 1;
    if p < q {
      assert p % q == p;
    } else {
      assert p / q >= 1 && p == p / q * q + p % q;
      assert p % q <= p - q;
    }
  }

  /** `compact_messages` in react: what it sends on, given the cached context
      window, if any, and whether the engine's reply arrives. */
  function ReactCompacts(ms: seq<Msg>, window: Option<nat>, maxOutput: nat, rs: seq<HookResponse>, keepRecent: nat, replied: bool): seq<Msg> {
    if window.None? || window.value == 0 then ms
    else
      var maxTokens := SatSub(window.value, maxOutput);
      if maxTokens == 0 || !replied then ms
      else HandleCompact(ms, maxTokens, ReactTarget(maxTokens), rs, keepRecent).messages
  }

  /** End to end: when the window leaves a budget, the engine replies and no
      plugin skips, what react sends on is estimated within nine tenths of its
      budget or consists of recent and pinned messages only; in every other
      case it sends the full history. */
  lemma {:induction false} BudgetHolds(ms: seq<Msg>, window: Option<nat>, maxOutput: nat, rs: seq<HookResponse>, keepRecent: nat, replied: bool)
    requires GuestHolds(ms) && (window.Some? ==> window.value <= U64_MAX)
    ensures var kept := ReactCompacts(ms, window, maxOutput, rs, keepRecent, replied);
      if window.Some? && maxOutput < window.value && replied && !AnySkip(rs) then
        || EstimateTotal(kept) <= (window.value - maxOutput) * 9 / 10
        || kept == OnlyProtected(ms, AllPins(rs), keepRecent)
      else kept == ms
  {
    if window.Some? && maxOutput < window.value && replied && !AnySkip(rs) {
      var maxTokens := window.value - maxOutput;
      ReactTargetWithinMax(maxTokens);
      GuestSumFits(ms);
      TruncateIsShortest(ms, ReactTarget(maxTokens), AllPins(rs), keepRecent);
      EstimateIsCappedSum(ReactCompacts(ms, window, maxOutput, rs, keepRecent, replied));
    }
  }

  /** A reply's count is the number of messages that went, and it says
      "compacted" exactly when some did. */
  lemma {:induction false} ReportIsExact(ms: seq<Msg>, maxTokens: nat, target: nat, rs: seq<HookResponse>, keepRecent: nat)
    requires |ms| <= U32_MAX
    ensures var r := HandleCompact(ms, maxTokens, target, rs, keepRecent);
      r.removed == |ms| - |r.messages| && (r.compacted <==> r.messages != ms)
  {
    var pins, goal := AllPins(rs), Min(target, maxTokens);
    SameLengthSame(ms, pins, SatSub(|ms|, keepRecent), CutOf(ms, goal, pins, keepRecent), |ms|);
    assert ms[..|ms|] == ms;
  }

  /** The recent and the pinned messages. */
  function OnlyProtected(ms: seq<Msg>, pins: set<string>, keepRecent: nat): seq<Msg> {
    Remaining(ms, pins, SatSub(|ms|, keepRecent), |ms|)
  }

  lemma {:induction false} SameLengthSame(ms: seq<Msg>, pins: set<string>, start: nat, cut: nat, n: nat)
    requires n <= |ms|
    ensures |Kept(ms, pins, start, cut, n)| <= n
    ensures |Kept(ms, pins, start, cut, n)| == n ==> Kept(ms, pins, start, cut, n) == ms[..n]
  {
    if n > 0 { SameLengthSame(ms, pins, start, cut, n - 1); }
  }

  /** One plugin is enough: a response that asks to skip keeps the whole
      history, and a message that any response pins stays. */
  lemma {:induction false} OneResponseIsEnough(ms: seq<Msg>, maxTokens: nat, target: nat, rs: seq<HookResponse>, keepRecent: nat, i: nat)
    requires i < |rs|
    ensures rs[i].skip == Some(true) ==> HandleCompact(ms, maxTokens, target, rs, keepRecent) == Reply(ms, false, 0)
    ensures forall m, pin :: m in ms && pin in rs[i].pins && PinnedBy(m, pin) ==> m in HandleCompact(ms, maxTokens, target, rs, keepRecent).messages
  {
    var pins, goal := AllPins(rs), Min(target, maxTokens);
    var at := TruncateKeeps(ms, goal, pins, keepRecent);
    forall m, pin | m in ms && pin in rs[i].pins && PinnedBy(m, pin) ensures m in Truncate(ms, goal, pins, keepRecent) {
      var p :| 0 <= p < |ms| && ms[p] == m;
      assert pin in pins && p in at;
      var j :| 0 <= j < |at| && at[j] == p;
      assert Truncate(ms, goal, pins, keepRecent)[j] == m;
    }
  }

  /** Without any, compaction is free to remove what is old: nothing is pinned
      and nothing skipped. */
  lemma {:induction false} NoResponses(rs: seq<HookResponse>)
    requires forall i :: 0 <= i < |rs| ==> rs[i].skip != Some(true) && rs[i].pins == []
    ensures !AnySkip(rs) && AllPins(rs) == {}
  {
  }

  /** Which responses came first, or twice, changes nothing. */
  lemma {:induction false} MergeIgnoresOrder(rs: seq<HookResponse>, qs: seq<HookResponse>)
    requires forall r :: r in rs <==> r in qs
    ensures AnySkip(rs) == AnySkip(qs) && AllPins(rs) == AllPins(qs)
  {
    MergeContained(rs, qs);
    MergeContained(qs, rs);
  }

  lemma {:induction false} MergeContained(rs: seq<HookResponse>, qs: seq<HookResponse>)
    requires forall r :: r in rs ==> r in qs
    ensures AnySkip(rs) ==> AnySkip(qs)
    ensures AllPins(rs) <= AllPins(qs)
  {
    if AnySkip(rs) {
      var i :| 0 <= i < |rs| && rs[i].skip == Some(true);
      assert rs[i] in qs;
    }
    forall p | p in AllPins(rs) ensures p in AllPins(qs) {
      var i :| 0 <= i < |rs| && p in rs[i].pins;
      assert rs[i] in qs;
    }
  }
}
