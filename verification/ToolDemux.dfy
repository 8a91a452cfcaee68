/**
 Parallel tool calls are demultiplexed exactly: from fragments interleaved in
 any way to one start, the call's own deltas in order and one end per call on
 the bus, and to whole calls in react.
 */
module ToolDemux {
  import opened Prelude
  import opened ReactModel
  import opened ToolStream

  function FragmentsOf(cs: seq<Chunk>): seq<Fragment> {
    if cs == [] then [] else FragmentsOf(cs[..|cs| - 1]) + Fragments(cs[|cs| - 1])
  }

  lemma {:induction false} PrefixWellFormed(a: seq<Fragment>, b: seq<Fragment>)
    requires WellFormed(a + b)
    ensures WellFormed(a)
    decreases |b|
  {
    if b == [] { assert a + b == a; }
    else {
      var n := |b| - 1;
      assert (a + b)[..|a + b| - 1] == a + b[..n];
      PrefixWellFormed(a, b[..n]);
    }
  }

  // ---- What one call's listeners see ----

  predicate Concerns(e: StreamEvent, id: string) {
    (e.ToolCallStart? || e.ToolCallDelta? || e.ToolCallEnd?) && e.id == id
  }

  /** The tool events of one call id, in bus order. */
  function CallEvents(events: seq<StreamEvent>, id: string): seq<StreamEvent> {
    if events == [] then []
    else
      var rest := CallEvents(events[..|events| - 1], id);
      if Concerns(events[|events| - 1], id) then rest + [events[|events| - 1]] else rest
  }

  lemma {:induction false} CallEventsAppend(a: seq<StreamEvent>, b: seq<StreamEvent>, id: string)
    ensures CallEvents(a + b, id) == CallEvents(a, id) + CallEvents(b, id)
    decreases |b|
  {
    if b == [] { assert a + b == a; }
    else {
      var n := |b| - 1;
      assert (a + b)[..|a + b| - 1] == a + b[..n];
      CallEventsAppend(a, b[..n], id);
    }
  }

  lemma {:induction false} CallEventsOne(e: StreamEvent, id: string)
    ensures CallEvents([e], id) == if Concerns(e, id) then [e] else []
  {
    assert [e][..0] == [];
  }

  /** The argument deltas of call `i`, one per fragment with any. */
  function DeltasOf(fs: seq<Fragment>, i: nat, id: string): seq<StreamEvent> {
    if fs == [] then []
    else
      var f := fs[|fs| - 1];
      DeltasOf(fs[..|fs| - 1], i, id) + (if f.index == i && ArgsText(f) != "" then [ToolCallDelta(id, ArgsText(f))] else [])
  }

  /** What the fragments of call `i` announce under an id, in order. */
  function Announced(fs: seq<Fragment>, i: nat, id: string): seq<StreamEvent> {
    if fs == [] then []
    else Announced(fs[..|fs| - 1], i, id) + (if fs[|fs| - 1].index == i then Announce(id, fs[|fs| - 1]) else [])
  }

  lemma {:induction false} AnnounceEvents(f: Fragment, id: string, other: string)
    ensures CallEvents(Announce(id, f), other) == if id == other then Announce(id, f) else []
  {
    var a := if f.name.Some? then [ToolCallStart(id, f.name.value)] else [];
    var b := if ArgsText(f) != "" then [ToolCallDelta(id, ArgsText(f))] else [];
    CallEventsAppend(a, b, other);
    assert Announce(id, f) == a + b;
    if a != [] { CallEventsOne(a[0], other); }
    if b != [] { CallEventsOne(b[0], other); }
  }

  /** What the bus carries for call `i` until its end. */
  function Started(fs: seq<Fragment>, i: nat): seq<StreamEvent> { Announced(fs, i, IdOf(fs, i)) }

  ghost predicate KnownId(fs: seq<Fragment>, id: string) { exists i :: Seen(fs, i) && IdOf(fs, i) == id }

  /** Everything the stream has said so far is what the fragments mean. */
  ghost predicate Tracks(fs: seq<Fragment>, p: Progress) {
    && SlotsOk(fs, p.slots)
    && (NamedOnce(fs) ==> Pending(p.events) == Calls(fs, false))
    && (forall i :: Seen(fs, i) ==> CallEvents(p.events, IdOf(fs, i)) == Started(fs, i))
    && (forall id :: CallEvents(p.events, id) != [] ==> KnownId(fs, id))
  }

  lemma {:induction false} NothingUnseen(fs: seq<Fragment>, i: nat, id: string)
    requires !Seen(fs, i)
    ensures Announced(fs, i, id) == [] && DeltasOf(fs, i, id) == []
    decreases |fs|
  {
    if fs != [] { NothingUnseen(fs[..|fs| - 1], i, id); }
  }

  /** What a call has started with, after one more fragment of the stream. */
  lemma {:induction false} StartedSnoc(fs: seq<Fragment>, i: nat)
    requires fs != [] && Seen(fs, i)
    ensures var before, f := fs[..|fs| - 1], fs[|fs| - 1];
      Started(fs, i) == (if Seen(before, i) then Started(before, i) else []) + (if f.index == i then Announce(IdOf(fs, i), f) else [])
  {
    var before := fs[..|fs| - 1];
    if Seen(before, i) {
      CallAtSnoc(fs, i, false);
      assert IdOf(before, i) == IdOf(fs, i);
    } else {
      NothingUnseen(before, i, IdOf(fs, i));
    }
  }

  /** The events of one call after one more fragment. */
  lemma {:induction false} EventsStep(fs: seq<Fragment>, events: seq<StreamEvent>, i: nat)
    requires fs != [] && WellFormed(fs) && Seen(fs, i)
    requires CallEvents(events, IdOf(fs, i)) == if Seen(fs[..|fs| - 1], i) then Started(fs[..|fs| - 1], i) else []
    ensures CallEvents(events + Announce(IdOf(fs, fs[|fs| - 1].index), fs[|fs| - 1]), IdOf(fs, i)) == Started(fs, i)
  {
    var f := fs[|fs| - 1];
    CallEventsAppend(events, Announce(IdOf(fs, f.index), f), IdOf(fs, i));
    AnnounceEvents(f, IdOf(fs, f.index), IdOf(fs, i));
    IdOfSnoc(fs, f.index);
    IdsDistinct(fs, i, f.index);
    StartedSnoc(fs, i);
  }

  lemma {:induction false} KnownIdsStep(fs: seq<Fragment>, events: seq<StreamEvent>, id: string)
    requires fs != []
    requires CallEvents(events, id) != [] ==> KnownId(fs[..|fs| - 1], id)
    requires CallEvents(events + Announce(IdOf(fs, fs[|fs| - 1].index), fs[|fs| - 1]), id) != []
    ensures KnownId(fs, id)
  {
    var before, f := fs[..|fs| - 1], fs[|fs| - 1];
    var fid := IdOf(fs, f.index);
    CallEventsAppend(events, Announce(fid, f), id);
    AnnounceEvents(f, fid, id);
    if CallEvents(events, id) != [] {
      var i :| Seen(before, i) && IdOf(before, i) == id;
      CallAtSnoc(fs, i, false);
      assert Seen(fs, i) && IdOf(fs, i) == id;
    } else {
      IdOfSnoc(fs, f.index);
      assert Seen(fs, f.index) && fid == id;
    }
  }

  /** A call's id was silent before its first fragment. */
  lemma {:induction false} SilentBefore(fs: seq<Fragment>, p: Progress, i: nat)
    requires fs != [] && WellFormed(fs) && Tracks(fs[..|fs| - 1], p) && Seen(fs, i)
    ensures CallEvents(p.events, IdOf(fs, i)) == if Seen(fs[..|fs| - 1], i) then Started(fs[..|fs| - 1], i) else []
  {
    var before := fs[..|fs| - 1];
    if Seen(before, i) { CallAtSnoc(fs, i, false); }
    else if CallEvents(p.events, IdOf(fs, i)) != [] {
      var j :| Seen(before, j) && IdOf(before, j) == IdOf(fs, i);
      CallAtSnoc(fs, j, false);
      IdsDistinct(fs, i, j);
      assert false;
    }
  }

  lemma {:induction false} FragmentStep(fs: seq<Fragment>, p: Progress)
    requires fs != [] && WellFormed(fs) && Tracks(fs[..|fs| - 1], p)
    ensures Tracks(fs, OnFragment(p, fs[|fs| - 1]))
  {
    var before, f := fs[..|fs| - 1], fs[|fs| - 1];
    var q := OnFragment(p, f);
    SlotsStep(fs, p.slots);
    IdOfSnoc(fs, f.index);
    assert q.events == p.events + Announce(IdOf(fs, f.index), f);
    if NamedOnce(fs) {
      if Seen(before, f.index) { PendingExtends(fs, p.events); } else { PendingAdds(fs, p.events); }
    }
    forall i | Seen(fs, i) ensures CallEvents(q.events, IdOf(fs, i)) == Started(fs, i) {
      SilentBefore(fs, p, i);
      EventsStep(fs, p.events, i);
    }
    forall id | CallEvents(q.events, id) != [] ensures KnownId(fs, id) {
      KnownIdsStep(fs, p.events, id);
    }
  }

  lemma {:induction false} FragmentNext(fs: seq<Fragment>, p: Progress, f: Fragment)
    requires WellFormed(fs + [f]) && Tracks(fs, p)
    ensures Tracks(fs + [f], OnFragment(p, f))
  {
    assert (fs + [f])[..|fs|] == fs;
    FragmentStep(fs + [f], p);
  }

  lemma {:induction false} FragmentsStep(fs: seq<Fragment>, p: Progress, more: seq<Fragment>)
    requires WellFormed(fs + more) && Tracks(fs, p)
    ensures Tracks(fs + more, OnFragments(p, more))
    decreases |more|
  {
    if more == [] {
      assert fs + more == fs;
    } else {
      var n := |more| - 1;
      assert fs + more == (fs + more[..n]) + [more[n]];
      PrefixWellFormed(fs + more[..n], [more[n]]);
      FragmentsStep(fs, p, more[..n]);
      FragmentNext(fs + more[..n], OnFragments(p, more[..n]), more[n]);
    }
  }

  /** Text and usage say nothing about calls. */
  lemma {:induction false} PreambleQuiet(events: seq<StreamEvent>, c: Chunk)
    ensures Pending(events + Preamble(c)) == Pending(events)
    ensures forall id :: CallEvents(events + Preamble(c), id) == CallEvents(events, id)
  {
    var a := if c.hasUsage then [Informational] else [];
    var b := Preamble(c)[|a|..];
    assert Preamble(c) == a + b;
    if a != [] { PendingSnoc(events, Informational); } else { assert events + a == events; }
    if b != [] { PendingSnoc(events + a, b[0]); assert b == [b[0]]; }
    assert events + a + b == events + Preamble(c);
    if b == [] { assert events + Preamble(c) == events + a; }
    forall id ensures CallEvents(events + Preamble(c), id) == CallEvents(events, id) {
      CallEventsAppend(events, Preamble(c), id);
      CallEventsAppend(a, b, id);
    }
  }

  lemma {:induction false} PreambleStep(fs: seq<Fragment>, p: Progress, c: Chunk)
    requires Tracks(fs, p)
    ensures Tracks(fs, p.(events := p.events + Preamble(c)))
  {
    PreambleQuiet(p.events, c);
  }

  lemma {:induction false} BodyTracks(cs: seq<Chunk>)
    requires WellFormed(FragmentsOf(cs))
    requires forall j :: 0 <= j < |cs| ==> !Finishes(cs[j])
    ensures Tracks(FragmentsOf(cs), OnChunks(Start, cs))
    decreases |cs|
  {
    if cs != [] {
      var n := |cs| - 1;
      var fs, p, c := FragmentsOf(cs[..n]), OnChunks(Start, cs[..n]), cs[n];
      PrefixWellFormed(fs, Fragments(c));
      BodyTracks(cs[..n]);
      PreambleStep(fs, p, c);
      FragmentsStep(fs, p.(events := p.events + Preamble(c)), Fragments(c));
    }
  }

  // ---- The end of the calls ----

  /** The calls with those of index below `m` marked complete. */
  function CallsUpTo(fs: seq<Fragment>, m: nat): seq<PendingTool> {
    seq(|Order(fs)|, j requires 0 <= j < |Order(fs)| => CallAt(fs, Order(fs)[j], Order(fs)[j] < m))
  }

  function EndOf(id: string): seq<StreamEvent> { if id != "" then [ToolCallEnd(id)] else [] }

  lemma {:induction false} EndsSnoc(slots: seq<Slot>, m: nat)
    requires 0 < m <= |slots|
    ensures Ends(slots[..m]) == Ends(slots[..m - 1]) + EndOf(slots[m - 1].id)
  {
    assert slots[..m][..m - 1] == slots[..m - 1];
  }

  /** Marking the next index complete changes its own call, if there is one. */
  lemma {:induction false} MarkNext(fs: seq<Fragment>, i: nat, j: nat)
    requires j < |Order(fs)| && Order(fs)[j] == i
    ensures var was := CallsUpTo(fs, i);
      CallsUpTo(fs, i + 1) == was[j := was[j].(complete := true)] && !was[j].complete
  {
    OrderFacts(fs);
    forall a | 0 <= a < |Order(fs)| && a != j ensures Order(fs)[a] != i {}
  }

  lemma {:induction false} MarkNone(fs: seq<Fragment>, i: nat)
    requires !Seen(fs, i)
    ensures CallsUpTo(fs, i + 1) == CallsUpTo(fs, i)
  {
    OrderFacts(fs);
    forall a | 0 <= a < |Order(fs)| ensures Order(fs)[a] != i { assert Order(fs)[a] in Order(fs); }
  }

  /** An end event completes the one call with its id. */
  lemma {:induction false} EndMarks(events: seq<StreamEvent>, was: seq<PendingTool>, j: nat, id: string)
    requires Pending(events) == was && j < |was| && was[j].id == id
    requires forall a :: 0 <= a < |was| && a != j ==> was[a].id != id
    ensures Pending(events + [ToolCallEnd(id)]) == was[j := was[j].(complete := true)]
  {
    UpdateUnique(was, j, id, "", true);
    PendingSnoc(events, ToolCallEnd(id));
    assert was[j].args + "" == was[j].args;
  }

  lemma {:induction false} EndCompletes(fs: seq<Fragment>, events: seq<StreamEvent>, i: nat)
    requires WellFormed(fs) && Pending(events) == CallsUpTo(fs, i)
    ensures Pending(events + EndOf(IdOf(fs, i))) == CallsUpTo(fs, i + 1)
  {
    OrderFacts(fs);
    if Seen(fs, i) {
      IdsDistinct(fs, i, i);
      var j :| 0 <= j < |Order(fs)| && Order(fs)[j] == i;
      MarkNext(fs, i, j);
      OthersDiffer(fs, i, j);
      EndMarks(events, CallsUpTo(fs, i), j, IdOf(fs, i));
    } else {
      MarkNone(fs, i);
      assert events + [] == events;
    }
  }

  lemma {:induction false} OthersDiffer(fs: seq<Fragment>, i: nat, j: nat)
    requires WellFormed(fs) && j < |Order(fs)| && Order(fs)[j] == i
    ensures forall a :: 0 <= a < |CallsUpTo(fs, i)| && a != j ==> CallsUpTo(fs, i)[a].id != IdOf(fs, i)
  {
    OrderFacts(fs);
    forall a | 0 <= a < |Order(fs)| && a != j ensures IdOf(fs, Order(fs)[a]) != IdOf(fs, i) {
      assert Order(fs)[a] in Order(fs) && i in Order(fs);
      IdsDistinct(fs, Order(fs)[a], i);
    }
  }

  lemma {:induction false} Assoc<T>(a: seq<T>, b: seq<T>, c: seq<T>)
    ensures a + b + c == a + (b + c)
  {
  }

  lemma {:induction false} EndsComplete(fs: seq<Fragment>, events: seq<StreamEvent>, slots: seq<Slot>, m: nat)
    requires WellFormed(fs) && Pending(events) == CallsUpTo(fs, 0) && m <= |slots|
    requires forall i: nat :: i < |slots| ==> slots[i].id == IdOf(fs, i)
    ensures Pending(events + Ends(slots[..m])) == CallsUpTo(fs, m)
    decreases m
  {
    if m == 0 {
      assert events + [] == events;
    } else {
      EndsComplete(fs, events, slots, m - 1);
      EndsSnoc(slots, m);
      assert slots[m - 1].id == IdOf(fs, m - 1);
      Assoc(events, Ends(slots[..m - 1]), EndOf(slots[m - 1].id));
      EndCompletes(fs, events + Ends(slots[..m - 1]), m - 1);
    }
  }

  lemma {:induction false} EndConcerns(other: string, id: string)
    requires id != ""
    ensures CallEvents(EndOf(other), id) == if other == id then [ToolCallEnd(id)] else []
  {
    CallEventsOne(ToolCallEnd(other), id);
  }

  /** Of slots of which only `i` holds `id`, one end event concerns it. */
  lemma {:induction false} EndsOfCall(slots: seq<Slot>, m: nat, i: nat, id: string)
    requires m <= |slots| && id != ""
    requires forall x: nat :: x < |slots| ==> (slots[x].id == id <==> x == i)
    ensures CallEvents(Ends(slots[..m]), id) == if i < m then [ToolCallEnd(id)] else []
    decreases m
  {
    if m > 0 {
      EndsOfCall(slots, m - 1, i, id);
      EndsSnoc(slots, m);
      CallEventsAppend(Ends(slots[..m - 1]), EndOf(slots[m - 1].id), id);
      EndConcerns(slots[m - 1].id, id);
    }
  }

  /** Everything at the moment of the finishing chunk. */
  lemma {:induction false} FinishTracks(cs: seq<Chunk>) returns (q: Progress)
    requires cs != [] && Finishes(cs[|cs| - 1]) && WellFormed(FragmentsOf(cs))
    requires forall j :: 0 <= j < |cs| - 1 ==> !Finishes(cs[j])
    ensures Tracks(FragmentsOf(cs), q) && OnChunks(Start, cs) == Progress([], q.events + Ends(q.slots))
  {
    var n := |cs| - 1;
    var before, c := FragmentsOf(cs[..n]), cs[n];
    var p0 := OnChunks(Start, cs[..n]);
    PrefixWellFormed(before, Fragments(c));
    BodyTracks(cs[..n]);
    PreambleStep(before, p0, c);
    var p1 := p0.(events := p0.events + Preamble(c));
    FragmentsStep(before, p1, Fragments(c));
    q := OnFragments(p1, Fragments(c));
  }

  lemma {:induction false} FinishedCalls(fs: seq<Fragment>, q: Progress)
    requires WellFormed(fs) && NamedOnce(fs) && Tracks(fs, q)
    ensures Pending(q.events + Ends(q.slots)) == Calls(fs, true)
  {
    var n := |q.slots|;
    assert q.slots[..n] == q.slots;
    assert CallsUpTo(fs, 0) == Calls(fs, false);
    EndsComplete(fs, q.events, q.slots, n);
    OrderFacts(fs);
    forall j | 0 <= j < |Order(fs)| ensures CallsUpTo(fs, n)[j] == Calls(fs, true)[j] {
      assert Order(fs)[j] in Order(fs);
    }
  }

  lemma {:induction false} FinishedEvents(fs: seq<Fragment>, q: Progress, i: nat)
    requires WellFormed(fs) && Tracks(fs, q) && Seen(fs, i)
    ensures CallEvents(q.events + Ends(q.slots), IdOf(fs, i)) == Started(fs, i) + [ToolCallEnd(IdOf(fs, i))]
  {
    assert q.slots[..|q.slots|] == q.slots;
    CallEventsAppend(q.events, Ends(q.slots), IdOf(fs, i));
    IdsDistinct(fs, i, i);
    forall x: nat | x < |q.slots| ensures q.slots[x].id == IdOf(fs, i) <==> x == i {
      if Seen(fs, x) { IdsDistinct(fs, x, i); }
    }
    EndsOfCall(q.slots, |q.slots|, i, IdOf(fs, i));
  }

  /** The fragments are fully delivered: no call is open; each call's id has on
      the bus exactly what the call's own fragments announce, in order, and one
      end; and unless a name was repeated, react holds exactly one pending call
      per index, in order of first appearance, complete, with its arguments
      equal to its own fragments concatenated. */
  ghost predicate Delivered(fs: seq<Fragment>, p: Progress) {
    && p.slots == []
    && (forall i :: Seen(fs, i) ==> CallEvents(p.events, IdOf(fs, i)) == Started(fs, i) + [ToolCallEnd(IdOf(fs, i))])
    && (NamedOnce(fs) ==> Pending(p.events) == Calls(fs, true))
  }

  /** A stream up to its finishing chunk. */
  lemma {:induction false} FinishedStream(cs: seq<Chunk>)
    requires cs != [] && Finishes(cs[|cs| - 1]) && WellFormed(FragmentsOf(cs))
    requires forall j :: 0 <= j < |cs| - 1 ==> !Finishes(cs[j])
    ensures Delivered(FragmentsOf(cs), OnChunks(Start, cs))
  {
    var fs := FragmentsOf(cs);
    var q := FinishTracks(cs);
    if NamedOnce(fs) { FinishedCalls(fs, q); }
    forall i | Seen(fs, i)
      ensures CallEvents(q.events + Ends(q.slots), IdOf(fs, i)) == Started(fs, i) + [ToolCallEnd(IdOf(fs, i))]
    {
      FinishedEvents(fs, q, i);
    }
  }

  /** Chunk `k` is the one that finishes with `tool_calls`; what follows it, such
      as the usage chunk the provider asks for, carries no fragments. */
  ghost predicate FinishesAt(cs: seq<Chunk>, k: nat) {
    && k < |cs| && Finishes(cs[k])
    && (forall j :: 0 <= j < |cs| && j != k ==> !Finishes(cs[j]))
    && (forall j :: k < j < |cs| ==> Fragments(cs[j]) == [])
  }

  /** A chunk after the end: its text and usage only. */
  lemma {:induction false} TailChunk(p: Progress, c: Chunk)
    requires p.slots == [] && Fragments(c) == [] && !Finishes(c)
    ensures OnChunk(p, c) == Progress([], p.events + Preamble(c))
  {
  }

  /** No calls are open and the two streams say the same about them. */
  ghost predicate SameCalls(p: Progress, q: Progress) {
    && p.slots == [] && Pending(p.events) == Pending(q.events)
    && forall id :: CallEvents(p.events, id) == CallEvents(q.events, id)
  }

  lemma {:induction false} TailSameCalls(p: Progress, c: Chunk, q: Progress)
    requires SameCalls(p, q) && Fragments(c) == [] && !Finishes(c)
    ensures SameCalls(OnChunk(p, c), q)
  {
    TailChunk(p, c);
    PreambleQuiet(p.events, c);
  }

  lemma {:induction false} WithTail(p: Progress, tail: seq<Chunk>)
    requires p.slots == [] && forall j :: 0 <= j < |tail| ==> Fragments(tail[j]) == [] && !Finishes(tail[j])
    ensures SameCalls(OnChunks(p, tail), p)
    decreases |tail|
  {
    if tail != [] {
      var n := |tail| - 1;
      WithTail(p, tail[..n]);
      TailSameCalls(OnChunks(p, tail[..n]), tail[n], p);
      assert OnChunks(p, tail) == OnChunk(OnChunks(p, tail[..n]), tail[n]);
    }
  }

  lemma {:induction false} OnChunksAppend(p: Progress, a: seq<Chunk>, b: seq<Chunk>)
    ensures OnChunks(p, a + b) == OnChunks(OnChunks(p, a), b)
    decreases |b|
  {
    if b == [] {
      assert a + b == a;
    } else {
      assert (a + b)[..|a + b| - 1] == a + b[..|b| - 1];
      OnChunksAppend(p, a, b[..|b| - 1]);
    }
  }

  lemma {:induction false} FragmentsWithTail(cs: seq<Chunk>, k: nat)
    requires FinishesAt(cs, k)
    ensures FragmentsOf(cs) == FragmentsOf(cs[..k + 1])
    decreases |cs|
  {
    var n := |cs| - 1;
    if k == n {
      assert cs[..k + 1] == cs;
    } else {
      assert cs[..n][..k + 1] == cs[..k + 1];
      assert FragmentsOf(cs) == FragmentsOf(cs[..n]) + [] == FragmentsOf(cs[..n]);
      FragmentsWithTail(cs[..n], k);
    }
  }

  lemma {:induction false} Rejoin<T>(s: seq<T>, i: nat)
    requires i <= |s|
    ensures s[..i] + s[i..] == s
  {
  }

  lemma {:induction false} SameAtFinish(start: Progress, cs: seq<Chunk>, k: nat)
    requires FinishesAt(cs, k) && OnChunks(start, cs[..k + 1]).slots == []
    ensures SameCalls(OnChunks(start, cs), OnChunks(start, cs[..k + 1]))
  {
    var tail, q := cs[k + 1..], OnChunks(start, cs[..k + 1]);
    WithTail(q, tail);
    assert OnChunks(start, cs) == OnChunks(q, tail) by {
      OnChunksAppend(start, cs[..k + 1], tail);
      Rejoin(cs, k + 1);
    }
  }

  /** The demultiplexing theorem. Chunks whose tool fragments are well formed,
      interleaved in any way and mixed with text, one of them finishing with
      `tool_calls`, deliver all of them. When no fragment repeats a name, a
      call's events are one start with the call's name, its non-empty argument
      fragments in order and one end. */
  lemma {:induction false} Demultiplexed(cs: seq<Chunk>, k: nat)
    requires FinishesAt(cs, k) && WellFormed(FragmentsOf(cs))
    ensures Delivered(FragmentsOf(cs), OnChunks(Start, cs))
    ensures var fs := FragmentsOf(cs);
      NamedOnce(fs) ==> forall i :: Seen(fs, i) ==>
        Started(fs, i) == [ToolCallStart(IdOf(fs, i), NameOf(fs, i))] + DeltasOf(fs, i, IdOf(fs, i))
  {
    var fs := FragmentsOf(cs);
    assert cs[..k + 1][k] == cs[k];
    FragmentsWithTail(cs, k);
    FinishedStream(cs[..k + 1]);
    SameAtFinish(Start, cs, k);
    if NamedOnce(fs) {
      forall i | Seen(fs, i) ensures Started(fs, i) == [ToolCallStart(IdOf(fs, i), NameOf(fs, i))] + DeltasOf(fs, i, IdOf(fs, i)) {
        StartedOnce(fs, i);
      }
    }
  }

  lemma {:induction false} StartedOnce(fs: seq<Fragment>, i: nat)
    requires WellFormed(fs) && NamedOnce(fs) && Seen(fs, i)
    ensures Started(fs, i) == [ToolCallStart(IdOf(fs, i), NameOf(fs, i))] + DeltasOf(fs, i, IdOf(fs, i))
    decreases |fs|
  {
    var before := fs[..|fs| - 1];
    StartedSnoc(fs, i);
    if Seen(before, i) {
      CallAtSnoc(fs, i, false);
      StartedOnce(before, i);
    } else {
      NothingUnseen(before, i, IdOf(fs, i));
    }
  }

  // ---- Repeated names ----

  function StartCount(events: seq<StreamEvent>): nat {
    if events == [] then 0 else StartCount(events[..|events| - 1]) + (if events[|events| - 1].ToolCallStart? then 1 else 0)
  }

  lemma {:induction false} StartCountAppend(a: seq<StreamEvent>, b: seq<StreamEvent>)
    ensures StartCount(a + b) == StartCount(a) + StartCount(b)
    decreases |b|
  {
    if b == [] { assert a + b == a; }
    else {
      assert (a + b)[..|a + b| - 1] == a + b[..|b| - 1];
      StartCountAppend(a, b[..|b| - 1]);
    }
  }

  lemma {:induction false} UpdateKeepsLength(pending: seq<PendingTool>, id: string, args: string, complete: bool)
    ensures |UpdateFirst(pending, id, args, complete)| == |pending|
  {
    if pending != [] { UpdateKeepsLength(pending[1..], id, args, complete); }
  }

  /** react holds one pending call per start event, whatever the stream. */
  lemma {:induction false} PendingCountsStarts(events: seq<StreamEvent>)
    ensures |Pending(events)| == StartCount(events)
  {
    if events != [] {
      var n := |events| - 1;
      PendingCountsStarts(events[..n]);
      match events[n]
      case ToolCallDelta(id, args) => UpdateKeepsLength(Pending(events[..n]), id, args, false);
      case ToolCallEnd(id) => UpdateKeepsLength(Pending(events[..n]), id, "", true);
      case _ =>
    }
  }

  /** How many fragments (of call `i`) carry a name. */
  function NamesOf(fs: seq<Fragment>, i: nat): nat {
    if fs == [] then 0 else NamesOf(fs[..|fs| - 1], i) + (if fs[|fs| - 1].index == i && fs[|fs| - 1].name.Some? then 1 else 0)
  }

  function Names(fs: seq<Fragment>): nat {
    if fs == [] then 0 else Names(fs[..|fs| - 1]) + (if fs[|fs| - 1].name.Some? then 1 else 0)
  }

  lemma {:induction false} AnnounceStarts(id: string, f: Fragment)
    ensures StartCount(Announce(id, f)) == if f.name.Some? then 1 else 0
  {
    var a := if f.name.Some? then [ToolCallStart(id, f.name.value)] else [];
    var b := if f.args.Some? && f.args.value != "" then [ToolCallDelta(id, f.args.value)] else [];
    assert Announce(id, f) == a + b;
    StartCountAppend(a, b);
    if a != [] { assert a[..0] == []; }
    if b != [] { assert b[..0] == []; }
  }

  lemma {:induction false} AnnouncedStarts(fs: seq<Fragment>, i: nat, id: string)
    ensures StartCount(Announced(fs, i, id)) == NamesOf(fs, i)
  {
    if fs != [] {
      var n := |fs| - 1;
      AnnouncedStarts(fs[..n], i, id);
      var last := if fs[n].index == i then Announce(id, fs[n]) else [];
      StartCountAppend(Announced(fs[..n], i, id), last);
      if fs[n].index == i { AnnounceStarts(id, fs[n]); }
    }
  }

  lemma {:induction false} FragmentStarts(p: Progress, fs: seq<Fragment>)
    ensures StartCount(OnFragments(p, fs).events) == StartCount(p.events) + Names(fs)
    decreases |fs|
  {
    if fs != [] {
      var n := |fs| - 1;
      FragmentStarts(p, fs[..n]);
      var q := OnFragments(p, fs[..n]);
      var id := Track(q.slots, fs[n])[fs[n].index].id;
      StartCountAppend(q.events, Announce(id, fs[n]));
      AnnounceStarts(id, fs[n]);
    }
  }

  lemma {:induction false} NamesAppend(a: seq<Fragment>, b: seq<Fragment>)
    ensures Names(a + b) == Names(a) + Names(b)
    decreases |b|
  {
    if b == [] { assert a + b == a; }
    else {
      assert (a + b)[..|a + b| - 1] == a + b[..|b| - 1];
      NamesAppend(a, b[..|b| - 1]);
    }
  }

  lemma {:induction false} EndsStartNothing(slots: seq<Slot>)
    ensures StartCount(Ends(slots)) == 0
  {
    if slots != [] {
      var n := |slots| - 1;
      EndsStartNothing(slots[..n]);
      var last := if slots[n].id != "" then [ToolCallEnd(slots[n].id)] else [];
      StartCountAppend(Ends(slots[..n]), last);
      if last != [] { assert last[..0] == []; }
    }
  }

  lemma {:induction false} PreambleStartsNothing(c: Chunk)
    ensures StartCount(Preamble(c)) == 0
  {
    PreambleQuiet([], c);
    assert [] + Preamble(c) == Preamble(c);
    PendingCountsStarts(Preamble(c));
  }

  lemma {:induction false} ChunkStartsNames(p: Progress, c: Chunk)
    ensures StartCount(OnChunk(p, c).events) == StartCount(p.events) + Names(Fragments(c))
  {
    var p1 := p.(events := p.events + Preamble(c));
    StartCountAppend(p.events, Preamble(c));
    PreambleStartsNothing(c);
    var q := OnFragments(p1, Fragments(c));
    FragmentStarts(p1, Fragments(c));
    StartCountAppend(q.events, Ends(q.slots));
    EndsStartNothing(q.slots);
  }

  /** The bus carries one start per named fragment, whatever the chunks. */
  lemma {:induction false} ChunkStarts(p: Progress, cs: seq<Chunk>)
    ensures StartCount(OnChunks(p, cs).events) == StartCount(p.events) + Names(FragmentsOf(cs))
    decreases |cs|
  {
    if cs != [] {
      var n := |cs| - 1;
      ChunkStarts(p, cs[..n]);
      ChunkStartsNames(OnChunks(p, cs[..n]), cs[n]);
      NamesAppend(FragmentsOf(cs[..n]), Fragments(cs[n]));
      assert OnChunks(p, cs) == OnChunk(OnChunks(p, cs[..n]), cs[n]);
    }
  }

  lemma {:induction false} NamesAtLeastCalls(fs: seq<Fragment>)
    requires WellFormed(fs)
    ensures Names(fs) >= |Order(fs)| && (Names(fs) == |Order(fs)| <==> NamedOnce(fs))
  {
    if fs != [] { NamesAtLeastCalls(fs[..|fs| - 1]); }
  }

  lemma {:induction false} NamesOfCall(fs: seq<Fragment>, i: nat)
    requires WellFormed(fs)
    ensures Seen(fs, i) <==> NamesOf(fs, i) >= 1
    ensures NamedOnce(fs) ==> NamesOf(fs, i) <= 1
  {
    if fs != [] { NamesOfCall(fs[..|fs| - 1], i); }
  }

  lemma {:induction false} RepeatedBy(fs: seq<Fragment>)
    requires WellFormed(fs) && forall i :: Seen(fs, i) ==> NamesOf(fs, i) == 1
    ensures NamedOnce(fs)
    decreases |fs|
  {
    if fs != [] {
      var before, f := fs[..|fs| - 1], fs[|fs| - 1];
      forall i | Seen(before, i) ensures NamesOf(before, i) == 1 {
        NamesOfCall(before, i);
        CallAtSnoc(fs, i, false);
      }
      RepeatedBy(before);
      NamesOfCall(before, f.index);
      IdOfSnoc(fs, f.index);
    }
  }

  /** A repeated name is the exact limit of the promise: each call has one start
      on the bus, and react ends with one pending call per index, exactly when
      no later fragment carries a name. */
  lemma {:induction false} DemultiplexedIff(cs: seq<Chunk>, k: nat)
    requires FinishesAt(cs, k) && WellFormed(FragmentsOf(cs))
    ensures var fs := FragmentsOf(cs); var p := OnChunks(Start, cs);
      && (Pending(p.events) == Calls(fs, true) <==> NamedOnce(fs))
      && ((forall i :: Seen(fs, i) ==> StartCount(CallEvents(p.events, IdOf(fs, i))) == 1) <==> NamedOnce(fs))
  {
    var fs, p := FragmentsOf(cs), OnChunks(Start, cs);
    Demultiplexed(cs, k);
    PendingCountsStarts(p.events);
    ChunkStarts(Start, cs);
    NamesAtLeastCalls(fs);
    forall i | Seen(fs, i) ensures StartCount(CallEvents(p.events, IdOf(fs, i))) == NamesOf(fs, i) {
      var end := [ToolCallEnd(IdOf(fs, i))];
      StartCountAppend(Started(fs, i), end);
      assert end[..0] == [];
      AnnouncedStarts(fs, i, IdOf(fs, i));
    }
    forall i | Seen(fs, i) ensures NamesOf(fs, i) >= 1 && (NamedOnce(fs) ==> NamesOf(fs, i) == 1) { NamesOfCall(fs, i); }
    if forall i :: Seen(fs, i) ==> NamesOf(fs, i) == 1 { RepeatedBy(fs); }
  }

  /** Such a stream: the name comes twice, the bus starts the call twice, and
      react keeps a second pending call with the same id that never completes. */
  lemma {:induction false} RepeatedNameBreaks()
    ensures var f := Fragment(0, Some("a"), Some("n"), None);
      var cs := [Chunk(false, Some(Choice(None, [f, f], Some("tool_calls"))))];
      && FinishesAt(cs, 0) && WellFormed(FragmentsOf(cs)) && !NamedOnce(FragmentsOf(cs))
      && Pending(OnChunks(Start, cs).events) == [PendingTool("a", "n", "", true), PendingTool("a", "n", "", false)]
  {
    var f := Fragment(0, Some("a"), Some("n"), None);
    TwiceNamed(f);
    TwiceIsWellFormed(f);
    TwicePending("a", "n");
  }

  predicate FirstOfCall(f: Fragment) { f.index == 0 && f.id.Some? && f.id.value != "" && f.name.Some? && f.args.None? }

  lemma {:induction false} TwiceIsWellFormed(f: Fragment)
    requires FirstOfCall(f)
    ensures WellFormed([f, f]) && !NamedOnce([f, f])
  {
    var one: seq<Fragment>, none: seq<Fragment> := [f], [];
    assert one[..|one| - 1] == none && [f, f][..|[f, f]| - 1] == one;
    assert !Seen(none, 0) && Order(none) == [] && WellFormed(none);
    IdOfSnoc(one, 0);
    assert WellFormed(one);
  }

  lemma {:induction false} TwiceStarts(f: Fragment)
    requires FirstOfCall(f)
    ensures var start := ToolCallStart(f.id.value, f.name.value);
      OnFragments(Start, [f, f]) == Progress([Slot(f.id.value, f.name.value)], [start, start])
  {
    var one := [f];
    assert one[..0] == [] && [f, f][..1] == one;
    var start := ToolCallStart(f.id.value, f.name.value);
    assert OnFragments(Start, one) == OnFragment(Start, f) == Progress([Slot(f.id.value, f.name.value)], [start]);
  }

  lemma {:induction false} TwicePending(id: string, name: string)
    ensures var start := ToolCallStart(id, name);
      Pending([start, start, ToolCallEnd(id)]) == [PendingTool(id, name, "", true), PendingTool(id, name, "", false)]
  {
    var start, end, one := ToolCallStart(id, name), ToolCallEnd(id), PendingTool(id, name, "", false);
    PendingSnoc([], start);
    PendingSnoc([start], start);
    PendingSnoc([start, start], end);
    assert [] + [start] == [start] && [start] + [start] == [start, start] && [start, start] + [end] == [start, start, end];
    assert one.args + "" == one.args && [one, one][1..] == [one];
  }

  lemma {:induction false} TwiceNamed(f: Fragment)
    requires FirstOfCall(f)
    ensures var cs := [Chunk(false, Some(Choice(None, [f, f], Some("tool_calls"))))];
      && FinishesAt(cs, 0) && FragmentsOf(cs) == [f, f]
      && OnChunks(Start, cs).events == [ToolCallStart(f.id.value, f.name.value), ToolCallStart(f.id.value, f.name.value), ToolCallEnd(f.id.value)]
  {
    var c := Chunk(false, Some(Choice(None, [f, f], Some("tool_calls"))));
    var cs := [c];
    assert cs[..0] == [] && FragmentsOf(cs) == [] + [f, f];
    TwiceStarts(f);
    assert Start.events + Preamble(c) == [];
    var slots := [Slot(f.id.value, f.name.value)];
    assert slots[..0] == [] && Ends(slots) == [ToolCallEnd(f.id.value)];
  }
}
