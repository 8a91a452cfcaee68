/**
 Tool-call demultiplexing in the OpenAI-compatible provider: fragments of
 parallel calls arrive interleaved by index and leave as events keyed by call
 id, which react groups back into whole calls.
 */
module ToolStream {
  import opened Prelude
  import opened ReactModel

  /** One entry of `delta.tool_calls`; an absent `function` has no name and no arguments. */
  datatype Fragment = Fragment(index: nat, id: Option<string>, name: Option<string>, args: Option<string>)

  datatype Choice = Choice(content: Option<string>, calls: seq<Fragment>, finish: Option<string>)

  datatype Chunk = Chunk(hasUsage: bool, choice: Option<Choice>)

  datatype Slot = Slot(id: string, name: string)

  const EmptySlot: Slot := Slot("", "")

  function Grow(slots: seq<Slot>, index: nat): (r: seq<Slot>)
    ensures |r| > index && |r| >= |slots|
  {
    if |slots| > index then slots else slots + seq(index + 1 - |slots|, _ => EmptySlot)
  }

  /** The tracked slots after a fragment. */
  function Track(slots: seq<Slot>, f: Fragment): (r: seq<Slot>)
    ensures |r| > f.index
  {
    var s1 := Grow(slots, f.index);
    var s2 := if f.id.Some? then s1[f.index := Slot(f.id.value, s1[f.index].name)] else s1;
    if f.name.Some? then s2[f.index := Slot(s2[f.index].id, f.name.value)] else s2
  }

  /** What a fragment puts on the bus; `id` is its slot's id once tracked. */
  function Announce(id: string, f: Fragment): seq<StreamEvent> {
    (if f.name.Some? then [ToolCallStart(id, f.name.value)] else []) +
    (if f.args.Some? && f.args.value != "" then [ToolCallDelta(id, f.args.value)] else [])
  }

  function Ends(slots: seq<Slot>): seq<StreamEvent> {
    if slots == [] then []
    else Ends(slots[..|slots| - 1]) +
         (if slots[|slots| - 1].id != "" then [ToolCallEnd(slots[|slots| - 1].id)] else [])
  }

  datatype Progress = Progress(slots: seq<Slot>, events: seq<StreamEvent>)

  const Start: Progress := Progress([], [])

  function OnFragment(p: Progress, f: Fragment): Progress {
    var slots := Track(p.slots, f);
    Progress(slots, p.events + Announce(slots[f.index].id, f))
  }

  function OnFragments(p: Progress, fs: seq<Fragment>): Progress {
    if fs == [] then p else OnFragment(OnFragments(p, fs[..|fs| - 1]), fs[|fs| - 1])
  }

  predicate Finishes(c: Chunk) { c.choice.Some? && c.choice.value.finish == Some("tool_calls") }

  function Fragments(c: Chunk): seq<Fragment> { if c.choice.Some? then c.choice.value.calls else [] }

  /** Usage and text come before the tool calls of the same chunk. */
  function Preamble(c: Chunk): seq<StreamEvent> {
    (if c.hasUsage then [Informational] else []) +
    (if c.choice.Some? && c.choice.value.content.Some? && c.choice.value.content.value != ""
     then [TextDelta(c.choice.value.content.value)] else [])
  }

  function OnChunk(p: Progress, c: Chunk): Progress {
    var q := OnFragments(p.(events := p.events + Preamble(c)), Fragments(c));
    if Finishes(c) then Progress([], q.events + Ends(q.slots)) else q
  }

  function OnChunks(p: Progress, cs: seq<Chunk>): Progress {
    if cs == [] then p else OnChunk(OnChunks(p, cs[..|cs| - 1]), cs[|cs| - 1])
  }

  /** `process_chunk` itself, growing and clearing the slots in its loops. */
  class ChunkProcessor {
    var slots: seq<Slot>
    var events: seq<StreamEvent>

    function State(): Progress reads this { Progress(slots, events) }

    constructor ()
      ensures State() == Start
    {
      slots, events := [], [];
    }

    method ProcessFragment(f: Fragment)
      modifies this
      ensures State() == OnFragment(old(State()), f)
    {
      while |slots| <= f.index
        invariant |old(slots)| <= |slots| && (|slots| <= f.index + 1 || slots == old(slots))
        invariant slots == old(slots) + seq(|slots| - |old(slots)|, _ => EmptySlot)
        invariant events == old(events)
        decreases f.index + 1 - |slots|
      {
        slots := slots + [EmptySlot];
      }
      assert slots == Grow(old(slots), f.index);
      if f.id.Some? { slots := slots[f.index := slots[f.index].(id := f.id.value)]; }
      if f.name.Some? {
        slots := slots[f.index := slots[f.index].(name := f.name.value)];
        events := events + [ToolCallStart(slots[f.index].id, f.name.value)];
      }
      if f.args.Some? && f.args.value != "" {
        events := events + [ToolCallDelta(slots[f.index].id, f.args.value)];
      }
      assert slots == Track(old(slots), f);
    }

    method ProcessFragments(calls: seq<Fragment>)
      modifies this
      ensures State() == OnFragments(old(State()), calls)
    {
      var i := 0;
      while i < |calls|
        invariant 0 <= i <= |calls|
        invariant State() == OnFragments(old(State()), calls[..i])
      {
        ProcessFragment(calls[i]);
        assert calls[..i + 1][..i] == calls[..i];
        i := i + 1;
      }
      assert calls[..i] == calls;
    }

    method EndAll()
      modifies this
      ensures State() == Progress([], old(events) + Ends(old(slots)))
    {
      var j := 0;
      while j < |slots|
        invariant 0 <= j <= |slots| && slots == old(slots)
        invariant events == old(events) + Ends(slots[..j])
      {
        assert slots[..j + 1][..j] == slots[..j];
        if slots[j].id != "" { events := events + [ToolCallEnd(slots[j].id)]; }
        j := j + 1;
      }
      assert slots[..j] == slots;
      slots := [];
    }

    method ProcessChunk(c: Chunk)
      modifies this
      ensures State() == OnChunk(old(State()), c)
    {
      if c.hasUsage { events := events + [Informational]; }
      if c.choice.Some? {
        var choice := c.choice.value;
        if choice.content.Some? && choice.content.value != "" {
          events := events + [TextDelta(choice.content.value)];
        }
        assert State() == old(State()).(events := old(events) + Preamble(c));
        ProcessFragments(choice.calls);
        if choice.finish == Some("tool_calls") { EndAll(); }
      } else {
        assert State() == old(State()).(events := old(events) + Preamble(c));
      }
    }
  }

  // ---- The reference meaning: group by index ----

  /** The first fragment of call `i`, if there is one. */
  function FirstOf(fs: seq<Fragment>, i: nat): Option<Fragment> {
    if fs == [] then None
    else
      var r := FirstOf(fs[..|fs| - 1], i);
      if r.Some? then r else if fs[|fs| - 1].index == i then Some(fs[|fs| - 1]) else None
  }

  predicate Seen(fs: seq<Fragment>, i: nat) { FirstOf(fs, i).Some? }

  function IdOf(fs: seq<Fragment>, i: nat): string {
    if Seen(fs, i) && FirstOf(fs, i).value.id.Some? then FirstOf(fs, i).value.id.value else ""
  }

  function NameOf(fs: seq<Fragment>, i: nat): string {
    if Seen(fs, i) && FirstOf(fs, i).value.name.Some? then FirstOf(fs, i).value.name.value else ""
  }

  function ArgsText(f: Fragment): string { if f.args.Some? then f.args.value else "" }

  /** The arguments of call `i`: its own fragments concatenated. */
  function ArgsOf(fs: seq<Fragment>, i: nat): string {
    if fs == [] then ""
    else ArgsOf(fs[..|fs| - 1], i) + (if fs[|fs| - 1].index == i then ArgsText(fs[|fs| - 1]) else "")
  }

  /** Call indices in order of first appearance. */
  function Order(fs: seq<Fragment>): seq<nat> {
    if fs == [] then []
    else
      var n := |fs| - 1;
      if Seen(fs[..n], fs[n].index) then Order(fs[..n]) else Order(fs[..n]) + [fs[n].index]
  }

  /** What a provider promises: the first fragment of a call names it and gives
      a non-empty id no other call has; later ones carry no other id. */
  predicate WellFormed(fs: seq<Fragment>) {
    if fs == [] then true
    else
      var f, before := fs[|fs| - 1], fs[..|fs| - 1];
      && WellFormed(before)
      && if Seen(before, f.index)
         then f.id.None? || f.id.value == IdOf(before, f.index)
         else f.id.Some? && f.id.value != "" && f.name.Some? && forall i :: i in Order(before) ==> IdOf(before, i) != f.id.value
  }

  /** No later fragment of a call carries a name again. */
  predicate NamedOnce(fs: seq<Fragment>) {
    if fs == [] then true
    else NamedOnce(fs[..|fs| - 1]) && (Seen(fs[..|fs| - 1], fs[|fs| - 1].index) ==> fs[|fs| - 1].name.None?)
  }

  function CallAt(fs: seq<Fragment>, i: nat, complete: bool): PendingTool {
    PendingTool(IdOf(fs, i), NameOf(fs, i), ArgsOf(fs, i), complete)
  }

  /** The calls a reader should end up with, in order of first appearance. */
  function Calls(fs: seq<Fragment>, complete: bool): seq<PendingTool> {
    seq(|Order(fs)|, j requires 0 <= j < |Order(fs)| => CallAt(fs, Order(fs)[j], complete))
  }

  // ---- Facts about the grouping ----

  lemma {:induction false} OrderFacts(fs: seq<Fragment>)
    ensures forall i :: Seen(fs, i) <==> i in Order(fs)
    ensures forall a, b :: 0 <= a < b < |Order(fs)| ==> Order(fs)[a] != Order(fs)[b]
    decreases |fs|
  {
    if fs != [] { OrderFacts(fs[..|fs| - 1]); }
  }

  /** Distinct calls have distinct, non-empty ids. */
  lemma {:induction false} IdsDistinct(fs: seq<Fragment>, i: nat, j: nat)
    requires WellFormed(fs) && Seen(fs, i) && Seen(fs, j)
    ensures IdOf(fs, i) != ""
    ensures i != j ==> IdOf(fs, i) != IdOf(fs, j)
    decreases |fs|
  {
    var before := fs[..|fs| - 1];
    OrderFacts(before);
    if Seen(before, i) && Seen(before, j) { IdsDistinct(before, i, j); }
    else if Seen(before, i) { IdsDistinct(before, i, i); }
    else if Seen(before, j) { IdsDistinct(before, j, j); }
  }

  /** Each tracked slot holds the id of its call, every other slot is empty. */
  ghost predicate SlotsOk(fs: seq<Fragment>, slots: seq<Slot>) {
    && (forall i: nat :: Seen(fs, i) ==> i < |slots|)
    && (forall i: nat :: i < |slots| ==> slots[i].id == IdOf(fs, i))
  }

  /** A call seen before keeps its first fragment. */
  lemma {:induction false} CallAtSnoc(fs: seq<Fragment>, i: nat, complete: bool)
    requires fs != [] && Seen(fs[..|fs| - 1], i)
    ensures Seen(fs, i) && FirstOf(fs, i) == FirstOf(fs[..|fs| - 1], i)
    ensures CallAt(fs, i, complete) == CallAt(fs[..|fs| - 1], i, complete).(
              args := ArgsOf(fs[..|fs| - 1], i) + (if fs[|fs| - 1].index == i then ArgsText(fs[|fs| - 1]) else ""))
  {
  }

  lemma {:induction false} IdOfSnoc(fs: seq<Fragment>, i: nat)
    requires fs != []
    ensures IdOf(fs, i) ==
      if Seen(fs[..|fs| - 1], i) then IdOf(fs[..|fs| - 1], i)
      else if fs[|fs| - 1].index == i && fs[|fs| - 1].id.Some? then fs[|fs| - 1].id.value else ""
    ensures Seen(fs, i) <==> Seen(fs[..|fs| - 1], i) || fs[|fs| - 1].index == i
  {
  }

  lemma {:induction false} TrackIds(slots: seq<Slot>, f: Fragment, i: nat)
    requires i < |Track(slots, f)|
    ensures Track(slots, f)[i].id ==
      if i == f.index && f.id.Some? then f.id.value else if i < |slots| then slots[i].id else ""
    ensures |Track(slots, f)| >= |slots|
  {
  }

  lemma {:induction false} SlotsStep(fs: seq<Fragment>, slots: seq<Slot>)
    requires fs != [] && WellFormed(fs) && SlotsOk(fs[..|fs| - 1], slots)
    ensures SlotsOk(fs, Track(slots, fs[|fs| - 1]))
  {
    var before, f := fs[..|fs| - 1], fs[|fs| - 1];
    var out := Track(slots, f);
    forall i: nat ensures i < |out| ==> out[i].id == IdOf(fs, i) {
      IdOfSnoc(fs, i);
      if i < |out| { TrackIds(slots, f, i); }
    }
    forall i: nat ensures Seen(fs, i) ==> i < |out| {
      IdOfSnoc(fs, i);
      assert |out| >= |slots|;
    }
  }

  lemma {:induction false} UpdateUnique(pending: seq<PendingTool>, j: nat, id: string, args: string, complete: bool)
    requires j < |pending| && pending[j].id == id
    requires forall m :: 0 <= m < |pending| && m != j ==> pending[m].id != id
    ensures UpdateFirst(pending, id, args, complete) ==
              pending[j := pending[j].(args := pending[j].args + args, complete := pending[j].complete || complete)]
  {
    if j > 0 { UpdateUnique(pending[1..], j - 1, id, args, complete); }
  }

  lemma {:induction false} NoArgsUnseen(fs: seq<Fragment>, i: nat)
    requires !Seen(fs, i)
    ensures ArgsOf(fs, i) == ""
    decreases |fs|
  {
    if fs != [] { NoArgsUnseen(fs[..|fs| - 1], i); }
  }

  lemma {:induction false} CallIdsDistinct(fs: seq<Fragment>, complete: bool)
    requires WellFormed(fs)
    ensures var cs := Calls(fs, complete); forall a, b :: 0 <= a < |cs| && 0 <= b < |cs| && a != b ==> cs[a].id != cs[b].id
    ensures forall c :: c in Calls(fs, complete) ==> c.id != ""
  {
    OrderFacts(fs);
    forall a, b | 0 <= a < |Order(fs)| && 0 <= b < |Order(fs)| ensures IdOf(fs, Order(fs)[a]) != ""
      && (a != b ==> IdOf(fs, Order(fs)[a]) != IdOf(fs, Order(fs)[b]))
    {
      IdsDistinct(fs, Order(fs)[a], Order(fs)[b]);
    }
  }

  lemma {:induction false} CallsExtend(fs: seq<Fragment>, j: nat)
    requires fs != [] && WellFormed(fs) && Seen(fs[..|fs| - 1], fs[|fs| - 1].index)
    requires j < |Order(fs[..|fs| - 1])| && Order(fs[..|fs| - 1])[j] == fs[|fs| - 1].index
    ensures var was := Calls(fs[..|fs| - 1], false);
      Calls(fs, false) == was[j := was[j].(args := was[j].args + ArgsText(fs[|fs| - 1]))]
  {
    var before, f := fs[..|fs| - 1], fs[|fs| - 1];
    var was := Calls(before, false);
    OrderFacts(before);
    forall m | 0 <= m < |Order(before)|
      ensures CallAt(fs, Order(fs)[m], false) == if m == j then was[j].(args := was[j].args + ArgsText(f)) else was[m]
    {
      assert Order(before)[m] in Order(before);
      CallAtSnoc(fs, Order(before)[m], false);
      assert ArgsOf(before, Order(before)[m]) + "" == ArgsOf(before, Order(before)[m]);
    }
  }

  /** A fragment of another call leaves a known call as it was. */
  lemma {:induction false} CallKept(fs: seq<Fragment>, i: nat)
    requires fs != [] && Seen(fs[..|fs| - 1], i) && i != fs[|fs| - 1].index
    ensures CallAt(fs, i, false) == CallAt(fs[..|fs| - 1], i, false)
  {
    CallAtSnoc(fs, i, false);
    assert ArgsOf(fs[..|fs| - 1], i) + "" == ArgsOf(fs[..|fs| - 1], i);
  }

  lemma {:induction false} CallNew(fs: seq<Fragment>)
    requires fs != [] && WellFormed(fs) && !Seen(fs[..|fs| - 1], fs[|fs| - 1].index)
    ensures var f := fs[|fs| - 1]; CallAt(fs, f.index, false) == PendingTool(f.id.value, f.name.value, ArgsText(f), false)
  {
    var f := fs[|fs| - 1];
    NoArgsUnseen(fs[..|fs| - 1], f.index);
    assert "" + ArgsText(f) == ArgsText(f);
  }

  lemma {:induction false} CallsAppend(fs: seq<Fragment>, c: PendingTool)
    requires fs != [] && !Seen(fs[..|fs| - 1], fs[|fs| - 1].index) && CallAt(fs, fs[|fs| - 1].index, false) == c
    ensures Calls(fs, false) == Calls(fs[..|fs| - 1], false) + [c]
  {
    var before, f := fs[..|fs| - 1], fs[|fs| - 1];
    OrderFacts(before);
    forall m | 0 <= m < |Order(before)| ensures CallAt(fs, Order(before)[m], false) == CallAt(before, Order(before)[m], false) {
      assert Order(before)[m] in Order(before);
      CallKept(fs, Order(before)[m]);
    }
    assert Order(fs) == Order(before) + [f.index];
  }

  lemma {:induction false} CallsAdd(fs: seq<Fragment>)
    requires fs != [] && WellFormed(fs) && !Seen(fs[..|fs| - 1], fs[|fs| - 1].index)
    ensures var f := fs[|fs| - 1];
      Calls(fs, false) == Calls(fs[..|fs| - 1], false) + [PendingTool(f.id.value, f.name.value, ArgsText(f), false)]
  {
    CallNew(fs);
    CallsAppend(fs, CallAt(fs, fs[|fs| - 1].index, false));
  }

  /** A further fragment of a known call extends just that call's arguments. */
  lemma {:induction false} PendingExtends(fs: seq<Fragment>, events: seq<StreamEvent>)
    requires fs != [] && WellFormed(fs) && Seen(fs[..|fs| - 1], fs[|fs| - 1].index) && fs[|fs| - 1].name.None?
    requires Pending(events) == Calls(fs[..|fs| - 1], false)
    ensures Pending(events + Announce(IdOf(fs, fs[|fs| - 1].index), fs[|fs| - 1])) == Calls(fs, false)
  {
    var before, f := fs[..|fs| - 1], fs[|fs| - 1];
    var was := Calls(before, false);
    OrderFacts(before);
    var j :| 0 <= j < |Order(before)| && Order(before)[j] == f.index;
    CallsExtend(fs, j);
    CallAtSnoc(fs, f.index, false);
    if ArgsText(f) != "" {
      CallIdsDistinct(before, false);
      UpdateUnique(was, j, was[j].id, ArgsText(f), false);
      PendingSnoc(events, ToolCallDelta(was[j].id, ArgsText(f)));
    } else {
      assert was[j].args + "" == was[j].args;
      assert events + [] == events;
    }
  }

  /** Start and first arguments of a new id add one call at the end. */
  lemma {:induction false} AnnounceAdds(events: seq<StreamEvent>, was: seq<PendingTool>, id: string, name: string, args: string)
    requires Pending(events) == was && forall m :: 0 <= m < |was| ==> was[m].id != id
    ensures Pending(events + ([ToolCallStart(id, name)] + (if args != "" then [ToolCallDelta(id, args)] else [])))
         == was + [PendingTool(id, name, args, false)]
  {
    var start := ToolCallStart(id, name);
    StartAdds(events, was, id, name);
    if args != "" {
      DeltaFills(events + [start], was, id, name, args);
      assert events + [start] + [ToolCallDelta(id, args)] == events + ([start] + [ToolCallDelta(id, args)]);
    } else {
      assert [start] + [] == [start];
    }
  }

  lemma {:induction false} StartAdds(events: seq<StreamEvent>, was: seq<PendingTool>, id: string, name: string)
    requires Pending(events) == was
    ensures Pending(events + [ToolCallStart(id, name)]) == was + [PendingTool(id, name, "", false)]
  {
    PendingSnoc(events, ToolCallStart(id, name));
  }

  lemma {:induction false} DeltaFills(events: seq<StreamEvent>, was: seq<PendingTool>, id: string, name: string, args: string)
    requires Pending(events) == was + [PendingTool(id, name, "", false)] && forall m :: 0 <= m < |was| ==> was[m].id != id
    ensures Pending(events + [ToolCallDelta(id, args)]) == was + [PendingTool(id, name, args, false)]
  {
    UpdateUnique(was + [PendingTool(id, name, "", false)], |was|, id, args, false);
    PendingSnoc(events, ToolCallDelta(id, args));
    assert "" + args == args;
  }

  /** The first fragment of a call adds that call at the end. */
  lemma {:induction false} PendingAdds(fs: seq<Fragment>, events: seq<StreamEvent>)
    requires fs != [] && WellFormed(fs) && !Seen(fs[..|fs| - 1], fs[|fs| - 1].index)
    requires Pending(events) == Calls(fs[..|fs| - 1], false)
    ensures Pending(events + Announce(IdOf(fs, fs[|fs| - 1].index), fs[|fs| - 1])) == Calls(fs, false)
  {
    var before, f := fs[..|fs| - 1], fs[|fs| - 1];
    var was := Calls(before, false);
    CallsAdd(fs);
    IdOfSnoc(fs, f.index);
    forall m | 0 <= m < |was| ensures was[m].id != f.id.value { assert Order(before)[m] in Order(before); }
    AnnounceAdds(events, was, f.id.value, f.name.value, ArgsText(f));
  }

  // ---- Streams of any shape ----

  /** The id a call's slot holds: that of its latest fragment with one. */
  function LatestId(fs: seq<Fragment>, i: nat): string {
    if fs == [] then []
    else
      var f := fs[|fs| - 1];
      if f.index == i && f.id.Some? then f.id.value else LatestId(fs[..|fs| - 1], i)
  }

  /** Whatever the fragments are, each slot holds the latest id of its index,
      and so what a fragment announces goes out under it. */
  lemma {:induction false} SlotsHoldLatest(fs: seq<Fragment>, i: nat)
    ensures var slots := OnFragments(Start, fs).slots; (if i < |slots| then slots[i].id else []) == LatestId(fs, i)
  {
    if fs != [] {
      var n := |fs| - 1;
      SlotsHoldLatest(fs[..n], i);
      var before := OnFragments(Start, fs[..n]).slots;
      if i < |Track(before, fs[n])| { TrackIds(before, fs[n], i); }
      TrackGrows(before, fs[n]);
    }
  }

  lemma {:induction false} TrackGrows(slots: seq<Slot>, f: Fragment)
    ensures |Track(slots, f)| >= |slots| && |Track(slots, f)| > f.index
  {
    TrackIds(slots, f, f.index);
  }
}
