/**
 The life of a model id: the upstream catalogue, the provider's description,
 the registry's canonical id, an operator's selection, and the way back.
 */
module ModelIds {
  import opened Prelude

  const PROVIDER_ALIAS: string := "openai-compat"
  const LLM_REQUEST_GENERATE_PREFIX: string := "llm.v1.request.generate."
  const REQUEST_TOPIC: string := "llm.v1.request.generate.openai-compat"
  const COLON: string := ":"

  // ---- Splitting at the first colon ----

  function ColonFrom(s: string, i: nat): (k: nat)
    requires i <= |s|
    ensures i <= k <= |s| && (k < |s| ==> s[k] == ':') && forall j :: i <= j < k ==> s[j] != ':'
    decreases |s| - i
  {
    if i == |s| || s[i] == ':' then i else ColonFrom(s, i + 1)
  }

  predicate HasColon(s: string) { ColonFrom(s, 0) < |s| }

  /** `qualifier_of`: what is before the first colon, or everything. */
  function QualifierOf(id: string): string { id[..ColonFrom(id, 0)] }

  /** `bare_model_of`: what is after the first colon, or everything. */
  function BareOf(id: string): string { if HasColon(id) then id[ColonFrom(id, 0) + 1..] else id }

  /** A colon-free qualifier and any model, colons included, split back. */
  lemma {:induction false} SplitOfJoin(q: string, m: string)
    requires ':' !in q
    ensures HasColon(q + COLON + m) && QualifierOf(q + COLON + m) == q && BareOf(q + COLON + m) == m
  {
    var id := q + COLON + m;
    assert id[|q|] == ':' && forall j :: 0 <= j < |q| ==> id[j] == q[j] != ':';
    assert ColonFrom(id, 0) == |q|;
    assert id[..|q|] == q && id[|q| + 1..] == m;
  }

  /** And an id with a colon is the join of its halves. */
  lemma {:induction false} JoinOfSplit(id: string)
    requires HasColon(id)
    ensures id == QualifierOf(id) + COLON + BareOf(id)
  {
  }

  // ---- First occurrences ----

  /** Keep each element whose key did not occur before. */
  function Dedupe<T(!new)>(xs: seq<T>, key: T -> string): seq<T> {
    if xs == [] then []
    else Dedupe(xs[..|xs| - 1], key) + (if Occurs(xs[..|xs| - 1], key, key(xs[|xs| - 1])) then [] else [xs[|xs| - 1]])
  }

  predicate Occurs<T(!new)>(xs: seq<T>, key: T -> string, k: string) { exists i :: 0 <= i < |xs| && key(xs[i]) == k }

  ghost predicate DistinctKeys<T>(ys: seq<T>, key: T -> string) {
    forall i, j :: 0 <= i < j < |ys| ==> key(ys[i]) != key(ys[j])
  }

  /** No key is lost or invented. */
  lemma {:induction false} DedupeKeepsKeys<T(!new)>(xs: seq<T>, key: T -> string, k: string)
    ensures Occurs(Dedupe(xs, key), key, k) <==> Occurs(xs, key, k)
    decreases |xs|
  {
    if xs != [] {
      var before, x := xs[..|xs| - 1], xs[|xs| - 1];
      DedupeKeepsKeys(before, key, k);
      assert before + [x] == xs;
      OccursSnoc(before, x, key, k);
      if !Occurs(before, key, key(x)) { OccursSnoc(Dedupe(before, key), x, key, k); }
      else { assert Dedupe(xs, key) == Dedupe(before, key) + [] == Dedupe(before, key); }
    }
  }

  lemma {:induction false} DedupeDistinct<T(!new)>(xs: seq<T>, key: T -> string)
    ensures DistinctKeys(Dedupe(xs, key), key)
    decreases |xs|
  {
    if xs != [] {
      var before, x := xs[..|xs| - 1], xs[|xs| - 1];
      DedupeDistinct(before, key);
      DedupeKeepsKeys(before, key, key(x));
      var ys := Dedupe(before, key);
      if !Occurs(before, key, key(x)) {
        forall i | 0 <= i < |ys| ensures key(ys[i]) != key(x) {}
      }
    }
  }

  lemma {:induction false} DedupeFirsts<T(!new)>(xs: seq<T>, key: T -> string, y: T)
    requires y in Dedupe(xs, key)
    ensures IsFirst(xs, key, y)
    decreases |xs|
  {
    var n := |xs| - 1;
    var before := xs[..n];
    if y in Dedupe(before, key) {
      DedupeFirsts(before, key, y);
      var i :| 0 <= i < n && before[i] == y && !Occurs(before[..i], key, key(y));
      assert xs[..i] == before[..i] && xs[i] == y;
    } else {
      assert y == xs[n] && xs[..n] == before;
    }
  }

  /** What is kept has distinct keys, loses no key, and is for each key its
      first element. */
  lemma {:induction false} DedupeKeepsFirsts<T(!new)>(xs: seq<T>, key: T -> string)
    ensures var ys := Dedupe(xs, key);
      && DistinctKeys(ys, key)
      && (forall k :: Occurs(ys, key, k) <==> Occurs(xs, key, k))
      && (forall y :: y in ys ==> IsFirst(xs, key, y))
  {
    DedupeDistinct(xs, key);
    forall k ensures Occurs(Dedupe(xs, key), key, k) <==> Occurs(xs, key, k) { DedupeKeepsKeys(xs, key, k); }
    forall y | y in Dedupe(xs, key) ensures IsFirst(xs, key, y) { DedupeFirsts(xs, key, y); }
  }

  ghost predicate IsFirst<T(!new)>(xs: seq<T>, key: T -> string, y: T) {
    exists i :: 0 <= i < |xs| && xs[i] == y && !Occurs(xs[..i], key, key(y))
  }

  lemma {:induction false} OccursSnoc<T(!new)>(xs: seq<T>, x: T, key: T -> string, k: string)
    ensures Occurs(xs + [x], key, k) <==> Occurs(xs, key, k) || key(x) == k
  {
    if i :| 0 <= i < |xs| && key(xs[i]) == k { assert (xs + [x])[i] == xs[i]; }
    if key(x) == k { assert (xs + [x])[|xs|] == x; }
    if i :| 0 <= i < |xs + [x]| && key((xs + [x])[i]) == k { assert i < |xs| ==> (xs + [x])[i] == xs[i]; }
  }

  /** The positions whose key is new there. */
  function NewAt<T(!new)>(xs: seq<T>, key: T -> string): seq<nat> {
    if xs == [] then []
    else NewAt(xs[..|xs| - 1], key) + (if Occurs(xs[..|xs| - 1], key, key(xs[|xs| - 1])) then [] else [|xs| - 1])
  }

  /** `ys` are the elements of `xs` at the increasing positions `at`. */
  ghost predicate Selects<T>(at: seq<nat>, xs: seq<T>, ys: seq<T>) {
    && |at| == |ys| && (forall i :: 0 <= i < |at| ==> at[i] < |xs| && ys[i] == xs[at[i]])
    && (forall i, j :: 0 <= i < j < |at| ==> at[i] < at[j])
  }

  lemma {:induction false} SelectsOn<T>(at: seq<nat>, xs: seq<T>, ys: seq<T>, x: T)
    requires Selects(at, xs, ys)
    ensures Selects(at, xs + [x], ys) && Selects(at + [|xs|], xs + [x], ys + [x])
  {
  }

  /** Order is kept: what is left are the elements at increasing positions. */
  lemma {:induction false} DedupeInOrder<T(!new)>(xs: seq<T>, key: T -> string)
    ensures Selects(NewAt(xs, key), xs, Dedupe(xs, key))
  {
    if xs != [] {
      var n := |xs| - 1;
      DedupeInOrder(xs[..n], key);
      SelectsOn(NewAt(xs[..n], key), xs[..n], Dedupe(xs[..n], key), xs[n]);
      assert xs == xs[..n] + [xs[n]];
    }
  }

  /** Those whose key no earlier position has. */
  lemma {:induction false} NewAtIs<T(!new)>(xs: seq<T>, key: T -> string, p: nat)
    ensures p in NewAt(xs, key) <==> p < |xs| && !Occurs(xs[..p], key, key(xs[p]))
  {
    if xs != [] {
      var n := |xs| - 1;
      NewAtIs(xs[..n], key, p);
      if p < n { assert xs[..n][..p] == xs[..p]; }
    }
  }

  function Filter<T>(xs: seq<T>, p: T -> bool): seq<T> {
    if xs == [] then [] else Filter(xs[..|xs| - 1], p) + (if p(xs[|xs| - 1]) then [xs[|xs| - 1]] else [])
  }

  lemma {:induction false} FilterMembers<T>(xs: seq<T>, p: T -> bool)
    ensures forall x :: x in Filter(xs, p) <==> x in xs && p(x)
    ensures |Filter(xs, p)| <= |xs|
  {
    if xs != [] {
      FilterMembers(xs[..|xs| - 1], p);
      assert xs == xs[..|xs| - 1] + [xs[|xs| - 1]];
    }
  }

  function PassAt<T>(xs: seq<T>, p: T -> bool): seq<nat> {
    if xs == [] then [] else PassAt(xs[..|xs| - 1], p) + (if p(xs[|xs| - 1]) then [|xs| - 1] else [])
  }

  /** A filter keeps order too. */
  lemma {:induction false} FilterInOrder<T>(xs: seq<T>, p: T -> bool)
    ensures Selects(PassAt(xs, p), xs, Filter(xs, p))
  {
    if xs != [] {
      var n := |xs| - 1;
      FilterInOrder(xs[..n], p);
      SelectsOn(PassAt(xs[..n], p), xs[..n], Filter(xs[..n], p), xs[n]);
      assert xs == xs[..n] + [xs[n]];
    }
  }

  lemma {:induction false} PassAtIs<T>(xs: seq<T>, p: T -> bool, k: nat)
    ensures k in PassAt(xs, p) <==> k < |xs| && p(xs[k])
  {
    if xs != [] { PassAtIs(xs[..|xs| - 1], p, k); }
  }

  // ---- The provider's side ----

  function Self(id: string): string { id }

  /** `extract_model_ids`: drop blank ids and repeats; fail when none is left. */
  method ExtractModelIds(data: seq<string>) returns (r: Result<seq<string>>)
    ensures var ids := Dedupe(Filter(data, (id: string) => !IsBlank(id)), Self);
      r == if ids == [] then Err("/v1/models returned no models") else Ok(ids)
    ensures r.Err? <==> forall i :: 0 <= i < |data| ==> IsBlank(data[i])
    ensures r.Ok? ==> (forall id :: id in r.value <==> id in data && !IsBlank(id)) && forall i, j :: 0 <= i < j < |r.value| ==> r.value[i] != r.value[j]
  {
    ExtractedAre(data);
    var usable := Filter(data, (id: string) => !IsBlank(id));
    var seen: set<string> := {};
    var ids: seq<string> := [];
    for i := 0 to |usable|
      invariant ids == Dedupe(usable[..i], Self)
      invariant forall k :: k in seen <==> Occurs(usable[..i], Self, k)
    {
      var id := usable[i];
      assert usable[..i + 1] == usable[..i] + [id];
      forall k ensures Occurs(usable[..i + 1], Self, k) <==> Occurs(usable[..i], Self, k) || id == k { OccursSnoc(usable[..i], id, Self, k); }
      if id !in seen {
        seen := seen + {id};
        ids := ids + [id];
      }
    }
    assert usable[..|usable|] == usable;
    r := if ids == [] then Err("/v1/models returned no models") else Ok(ids);
  }

  /** What extraction is left with: every usable id of the answer, once. */
  lemma {:induction false} ExtractedAre(data: seq<string>)
    ensures var ids := Dedupe(Filter(data, (id: string) => !IsBlank(id)), Self);
      && (forall id :: id in ids <==> id in data && !IsBlank(id))
      && (forall i, j :: 0 <= i < j < |ids| ==> ids[i] != ids[j])
      && (ids == [] <==> forall i :: 0 <= i < |data| ==> IsBlank(data[i]))
  {
    var usable := Filter(data, (id: string) => !IsBlank(id));
    var ids := Dedupe(usable, Self);
    FilterMembers(data, (id: string) => !IsBlank(id));
    DedupeKeepsFirsts(usable, Self);
    forall id ensures id in ids <==> id in usable {
      assert Occurs(ids, Self, id) <==> Occurs(usable, Self, id);
      OccursIsMember(ids, id);
      OccursIsMember(usable, id);
    }
    assert DistinctKeys(ids, Self);
    forall i, j | 0 <= i < j < |ids| ensures ids[i] != ids[j] { assert Self(ids[i]) != Self(ids[j]); }
    if ids == [] {
      forall i | 0 <= i < |data| ensures IsBlank(data[i]) { assert data[i] in data && data[i] !in ids; }
    } else {
      assert ids[0] in ids;
    }
  }

  lemma {:induction false} OccursIsMember(ids: seq<string>, id: string)
    ensures Occurs(ids, Self, id) <==> id in ids
  {
    if id in ids { var i :| 0 <= i < |ids| && ids[i] == id; assert Self(ids[i]) == id; }
  }

  datatype Entry = Entry(id: string, topic: string, details: nat)

  function Describe(id: string, details: nat): Entry { Entry(id, REQUEST_TOPIC, details) }

  function DescribeAll(ids: seq<string>, details: nat): seq<Entry> {
    seq(|ids|, i requires 0 <= i < |ids| => Describe(ids[i], details))
  }

  /** The order of `describe_providers`: the default first, then the rest. */
  function Ordered(ids: seq<string>, default: string): seq<string> {
    Filter(ids, (id: string) => id == default) + Filter(ids, (id: string) => id != default)
  }

  function DescribeProviders(ids: seq<string>, default: string, details: nat): seq<Entry> {
    DescribeAll(Ordered(ids, default), details)
  }

  lemma {:induction false} FilterSplits(ids: seq<string>, default: string)
    ensures multiset(Ordered(ids, default)) == multiset(ids)
  {
    if ids != [] {
      var n := |ids| - 1;
      FilterSplits(ids[..n], default);
      assert ids == ids[..n] + [ids[n]];
    }
  }

  lemma {:induction false} OrderedHas(ids: seq<string>, default: string)
    ensures var os := Ordered(ids, default);
      |os| == |ids| && (default in ids ==> os[0] == default) && forall m :: m in os <==> m in ids
  {
    FilterSplits(ids, default);
    FilterMembers(ids, (id: string) => id == default);
    var os := Ordered(ids, default);
    assert |multiset(os)| == |multiset(ids)|;
    assert forall m :: m in os <==> m in multiset(os);
    if default in ids {
      assert default in Filter(ids, (id: string) => id == default);
      assert os[0] in Filter(ids, (id: string) => id == default);
    }
  }

  /** Every entry is described with the provider's own topic and details. */
  lemma {:induction false} DescribedAlike(ids: seq<string>, default: string, details: nat)
    ensures forall e :: e in DescribeProviders(ids, default, details) ==>
              e.topic == "llm.v1.request.generate.openai-compat" && e.details == details
  {
  }

  /** Nothing is lost or added, and a default that is offered comes first. */
  lemma {:induction false} DefaultComesFirst(ids: seq<string>, default: string, details: nat)
    ensures var es := DescribeProviders(ids, default, details);
      && |es| == |ids|
      && (default in ids ==> es[0].id == default)
      && (forall m :: m in ids <==> Describe(m, details) in es)
  {
    OrderedHas(ids, default);
    var os, es := Ordered(ids, default), DescribeProviders(ids, default, details);
    forall m ensures m in os <==> Describe(m, details) in es {
      if m in os { var i :| 0 <= i < |os| && os[i] == m; assert es[i] == Describe(m, details); }
      if Describe(m, details) in es { var i :| 0 <= i < |es| && es[i] == Describe(m, details); assert os[i] == m; }
    }
  }

  /** The rest keep their order. */
  lemma {:induction false} RestInOrder(ids: seq<string>, default: string) returns (first: seq<string>, rest: seq<string>)
    ensures Ordered(ids, default) == first + rest
    ensures (forall id :: id in first ==> id == default) && (forall id :: id in rest ==> id != default)
    ensures exists at :: Selects(at, ids, rest)
  {
    var same, other := (id: string) => id == default, (id: string) => id != default;
    first, rest := Filter(ids, same), Filter(ids, other);
    FilterMembers(ids, same);
    FilterMembers(ids, other);
    FilterInOrder(ids, other);
    assert Selects(PassAt(ids, other), ids, rest);
  }

  /** `provider_model_id`: drop the alias and its colon if both are there. */
  function ProviderModelId(model: string): string {
    if (PROVIDER_ALIAS + COLON) <= model then model[|PROVIDER_ALIAS| + 1..] else model
  }

  // ---- The registry's side ----

  predicate IsQualifierChar(c: char) { 'a' <= c <= 'z' || 'A' <= c <= 'Z' || '0' <= c <= '9' || c == '-' || c == '_' }

  /** Letters, digits, hyphens and underscores, at least one. */
  predicate IsQualifier(q: string) {
    q != "" && forall i :: 0 <= i < |q| ==>
      'a' <= q[i] <= 'z' || 'A' <= q[i] <= 'Z' || '0' <= q[i] <= '9' || q[i] == '-' || q[i] == '_'
  }

  /** `request_topic_qualifier`. */
  function RequestTopicQualifier(topic: string): (r: Option<string>)
    ensures r.Some? ==> r.value != "" && ':' !in r.value && topic == LLM_REQUEST_GENERATE_PREFIX + r.value
    ensures forall q :: topic == "llm.v1.request.generate." + q && IsQualifier(q) ==> r == Some(q)
  {
    if !(LLM_REQUEST_GENERATE_PREFIX <= topic) then None
    else
      var q := topic[|LLM_REQUEST_GENERATE_PREFIX|..];
      if q != "" && forall i :: 0 <= i < |q| ==> IsQualifierChar(q[i]) then Some(q) else None
  }

  /** `stamp_message_providers` on one entry and on one message. */
  function StampEntry(e: Entry): Option<Entry> {
    match RequestTopicQualifier(e.topic)
    case None => None
    case Some(q) => Some(e.(id := q + COLON + e.id))
  }

  function Stamp(es: seq<Entry>): seq<Entry> {
    if es == [] then []
    else
      var last := StampEntry(es[|es| - 1]);
      Stamp(es[..|es| - 1]) + (if last.Some? then [last.value] else [])
  }

  function StampAll(messages: seq<seq<Entry>>): seq<Entry> {
    if messages == [] then [] else StampAll(messages[..|messages| - 1]) + Stamp(messages[|messages| - 1])
  }

  function IdOf(e: Entry): string { e.id }

  /** What discovery stores, given the messages that arrived. */
  function Discover(messages: seq<seq<Entry>>): seq<Entry> { Dedupe(StampAll(messages), IdOf) }

  method DedupeProviders(es: seq<Entry>) returns (out: seq<Entry>)
    ensures out == Dedupe(es, IdOf)
  {
    var seen: set<string> := {};
    out := [];
    for i := 0 to |es|
      invariant out == Dedupe(es[..i], IdOf)
      invariant forall k :: k in seen <==> Occurs(es[..i], IdOf, k)
    {
      assert es[..i + 1] == es[..i] + [es[i]];
      forall k ensures Occurs(es[..i + 1], IdOf, k) <==> Occurs(es[..i], IdOf, k) || es[i].id == k { OccursSnoc(es[..i], es[i], IdOf, k); }
      if es[i].id !in seen {
        seen := seen + {es[i].id};
        out := out + [es[i]];
      }
    }
    assert es[..|es|] == es;
  }

  /** Entries as discovery leaves them. */
  ghost predicate Canonical(es: seq<Entry>) {
    && (forall i, j :: 0 <= i < j < |es| ==> es[i].id != es[j].id)
    && (forall e :: e in es ==> HasColon(e.id))
  }

  lemma {:induction false} StampHasColons(es: seq<Entry>)
    ensures forall e :: e in Stamp(es) ==> HasColon(e.id)
  {
    if es != [] {
      StampHasColons(es[..|es| - 1]);
      var last := es[|es| - 1];
      if StampEntry(last).Some? { SplitOfJoin(RequestTopicQualifier(last.topic).value, last.id); }
    }
  }

  lemma {:induction false} StampAllHasColons(messages: seq<seq<Entry>>)
    ensures forall e :: e in StampAll(messages) ==> HasColon(e.id)
  {
    if messages != [] {
      StampAllHasColons(messages[..|messages| - 1]);
      StampHasColons(messages[|messages| - 1]);
    }
  }

  lemma {:induction false} DiscoverIsCanonical(messages: seq<seq<Entry>>)
    ensures Canonical(Discover(messages))
  {
    StampAllHasColons(messages);
    DedupeKeepsFirsts(StampAll(messages), IdOf);
    var es := Discover(messages);
    assert DistinctKeys(es, IdOf);
    forall i, j | 0 <= i < j < |es| ensures es[i].id != es[j].id { assert IdOf(es[i]) != IdOf(es[j]); }
    forall e | e in es ensures HasColon(e.id) { assert IsFirst(StampAll(messages), IdOf, e); }
  }

  // ---- Selection ----

  datatype Resolution = Bound(entry: Entry) | Unknown(input: string) | Ambiguous(candidates: seq<string>)

  function Ids(es: seq<Entry>): seq<string> { seq(|es|, i requires 0 <= i < |es| => es[i].id) }

  /** One match binds, several are ambiguous. */
  function Decide(matches: seq<Entry>): Resolution
    requires matches != []
  {
    if |matches| == 1 then Bound(matches[0]) else Ambiguous(Ids(matches))
  }

  function WithId(input: string): Entry -> bool { (e: Entry) => e.id == input }

  function WithBare(input: string): Entry -> bool { (e: Entry) => BareOf(e.id) == input }

  function WithHalves(input: string): Entry -> bool {
    (e: Entry) => HasColon(input) && QualifierOf(e.id) == QualifierOf(input) && BareOf(e.id) == BareOf(input)
  }

  /** `resolve_selection`: exact, then bare, then qualified. */
  function ResolveSelection(input: string, es: seq<Entry>): Resolution {
    if Filter(es, WithId(input)) != [] then Bound(Filter(es, WithId(input))[0])
    else if Filter(es, WithBare(input)) != [] then Decide(Filter(es, WithBare(input)))
    else if Filter(es, WithHalves(input)) != [] then Decide(Filter(es, WithHalves(input)))
    else Unknown(input)
  }

  /** The qualified pass decides nothing the exact pass did not, but for one odd
      shape: it matches exactly on a colon-free id `x` and the input `x:x`. */
  lemma {:induction false} QualifiedPassIff(input: string, es: seq<Entry>)
    requires Filter(es, WithId(input)) == []
    ensures Filter(es, WithHalves(input)) != [] <==> exists e :: e in es && !HasColon(e.id) && input == e.id + COLON + e.id
  {
    FilterMembers(es, WithId(input));
    FilterMembers(es, WithHalves(input));
    if Filter(es, WithHalves(input)) != [] {
      var e := Filter(es, WithHalves(input))[0];
      assert e in es && WithHalves(input)(e) && !WithId(input)(e);
      HalvesOfOther(input, e);
    }
    if e :| e in es && !HasColon(e.id) && input == e.id + COLON + e.id {
      SplitOfJoin(e.id, e.id);
      assert WithHalves(input)(e);
    }
  }

  lemma {:induction false} HalvesOfOther(input: string, e: Entry)
    requires WithHalves(input)(e) && e.id != input
    ensures !HasColon(e.id) && input == e.id + COLON + e.id
  {
    JoinOfSplit(input);
    if HasColon(e.id) { JoinOfSplit(e.id); }
  }

  /** Selecting among discovered entries: an input binds `e` exactly when it is
      its canonical id, or, no entry having that id, when `e` is the only entry
      whose bare model it is. The qualified pass never decides. */
  lemma {:induction false} ResolveMeaning(input: string, es: seq<Entry>, e: Entry)
    requires Canonical(es)
    ensures ResolveSelection(input, es) == Bound(e) <==>
      && e in es
      && (|| e.id == input
          || (BareOf(e.id) == input && forall f :: f in es ==> f.id != input && (BareOf(f.id) == input ==> f == e)))
  {
    FilterMembers(es, WithId(input));
    FilterMembers(es, WithBare(input));
    var exact := Filter(es, WithId(input));
    if exact != [] {
      assert exact[0] in exact && WithId(input)(exact[0]);
      SameIdSame(es, exact[0], e);
    } else {
      assert forall f :: f in es ==> !WithId(input)(f) && f.id != input;
      QualifiedPassIff(input, es);
      if Filter(es, WithBare(input)) != [] {
        OnlyMatch(es, WithBare(input), e);
        assert forall f :: WithBare(input)(f) <==> BareOf(f.id) == input;
      } else {
        assert forall f :: f in es ==> !WithBare(input)(f) && BareOf(f.id) != input;
      }
    }
  }

  /** An input is unknown exactly when no entry has it as its id or as its bare
      model. */
  lemma {:induction false} UnknownIff(input: string, es: seq<Entry>)
    requires Canonical(es)
    ensures ResolveSelection(input, es) == Unknown(input) <==> forall e :: e in es ==> e.id != input && BareOf(e.id) != input
    ensures ResolveSelection(input, es).Unknown? ==> ResolveSelection(input, es) == Unknown(input)
  {
    if Filter(es, WithId(input)) != [] {
      Exact(input, es);
    } else {
      NoExact(input, es);
      Qualified(input, es);
      BareOnes(input, es);
    }
  }

  /** An ambiguous input is the bare model of several entries, all of which are
      listed, in order. */
  lemma {:induction false} AmbiguousLists(input: string, es: seq<Entry>)
    requires Canonical(es) && ResolveSelection(input, es).Ambiguous?
    ensures AmbiguousOver(input, es, ResolveSelection(input, es).candidates)
  {
    NoExact(input, es);
    Qualified(input, es);
    BareCandidates(input, es);
  }

  lemma {:induction false} Exact(input: string, es: seq<Entry>)
    requires Filter(es, WithId(input)) != []
    ensures exists e :: e in es && e.id == input
  {
    FilterMembers(es, WithId(input));
    var e := Filter(es, WithId(input))[0];
    assert e in Filter(es, WithId(input)) && WithId(input)(e);
  }

  /** Among canonical entries the qualified pass has nothing to add. */
  lemma {:induction false} Qualified(input: string, es: seq<Entry>)
    requires Canonical(es) && Filter(es, WithId(input)) == []
    ensures Filter(es, WithHalves(input)) == []
  {
    QualifiedPassIff(input, es);
  }

  lemma {:induction false} BareOnes(input: string, es: seq<Entry>)
    ensures Filter(es, WithBare(input)) == [] <==> forall e :: e in es ==> BareOf(e.id) != input
  {
    FilterMembers(es, WithBare(input));
    var bare := Filter(es, WithBare(input));
    if bare != [] { assert bare[0] in bare && WithBare(input)(bare[0]); }
    else { forall e | e in es ensures BareOf(e.id) != input { assert !WithBare(input)(e); } }
  }

  lemma {:induction false} NoExact(input: string, es: seq<Entry>)
    requires Filter(es, WithId(input)) == []
    ensures forall e :: e in es ==> e.id != input
  {
    FilterMembers(es, WithId(input));
    forall e | e in es ensures e.id != input { assert !WithId(input)(e); }
  }

  /** The candidates are the ids, in order, of all entries with that bare model. */
  ghost predicate AmbiguousOver(input: string, es: seq<Entry>, cs: seq<string>) {
    && |cs| > 1 && (forall e :: e in es ==> e.id != input)
    && exists at :: Selects(at, Ids(es), cs) && forall k: nat :: k in at <==> k < |es| && BareOf(es[k].id) == input
  }

  lemma {:induction false} BareCandidates(input: string, es: seq<Entry>)
    requires |Filter(es, WithBare(input))| > 1 && forall e :: e in es ==> e.id != input
    ensures AmbiguousOver(input, es, Ids(Filter(es, WithBare(input))))
  {
    var at := PassAt(es, WithBare(input));
    FilterInOrder(es, WithBare(input));
    assert Selects(at, Ids(es), Ids(Filter(es, WithBare(input))));
    forall k: nat ensures k in at <==> k < |es| && BareOf(es[k].id) == input { PassAtIs(es, WithBare(input), k); }
  }

  /** One pass binds its only match. */
  lemma {:induction false} OnlyMatch(es: seq<Entry>, p: Entry -> bool, e: Entry)
    requires Canonical(es) && Filter(es, p) != []
    ensures Decide(Filter(es, p)) == Bound(e) <==> e in es && p(e) && forall f :: f in es && p(f) ==> f == e
  {
    FilterMembers(es, p);
    FilterDistinct(es, p);
    var found := Filter(es, p);
    assert found[0] in found;
    if |found| > 1 { assert found[1] in found && found[0] != found[1]; } else { assert found == [found[0]]; }
  }

  lemma {:induction false} SameIdSame(es: seq<Entry>, a: Entry, b: Entry)
    requires Canonical(es) && a in es
    ensures b in es && b.id == a.id ==> a == b
  {
    if b in es && b.id == a.id {
      var i :| 0 <= i < |es| && es[i] == a;
      var j :| 0 <= j < |es| && es[j] == b;
      assert i == j;
    }
  }

  lemma {:induction false} FilterDistinct(es: seq<Entry>, p: Entry -> bool)
    requires forall i, j :: 0 <= i < j < |es| ==> es[i].id != es[j].id
    ensures forall i, j :: 0 <= i < j < |Filter(es, p)| ==> Filter(es, p)[i].id != Filter(es, p)[j].id
  {
    if es != [] {
      var n := |es| - 1;
      FilterDistinct(es[..n], p);
      FilterMembers(es[..n], p);
      var before := Filter(es[..n], p);
      forall i | 0 <= i < |before| ensures before[i].id != es[n].id {
        assert before[i] in es[..n];
        var k :| 0 <= k < n && es[..n][k] == before[i];
        assert es[k].id != es[n].id;
      }
    }
  }

  // ---- The stored selection ----

  class RegistryState {
    var providers: seq<Entry>
    var active: Option<string>

    constructor ()
      ensures providers == [] && active == None
    {
      providers, active := [], None;
    }

    /** `set_active_model_by_id`: only canonical ids are ever stored. */
    method SetActiveModel(input: string, discovered: seq<Entry>) returns (r: Resolution)
      modifies this
      ensures providers == if old(providers) == [] then discovered else old(providers)
      ensures r == ResolveSelection(input, providers)
      ensures active == if r.Bound? then Some(r.entry.id) else old(active)
    {
      if providers == [] { providers := discovered; }
      r := ResolveSelection(input, providers);
      if r.Bound? { active := Some(r.entry.id); }
    }

    /** `reconcile_active_model_in_place`. */
    method Reconcile()
      modifies this`active
      ensures active == Reconciled(old(active), providers)
    {
      if active.None? || providers == [] { return; }
      var id := active.value;
      var i := 0;
      while i < |providers|
        invariant 0 <= i <= |providers| && forall j :: 0 <= j < i ==> providers[j].id != id
        invariant active == old(active) && unchanged(`providers)
      {
        if providers[i].id == id { return; }
        i := i + 1;
      }
      i := 0;
      while i < |providers|
        invariant 0 <= i <= |providers| && active == old(active) && unchanged(`providers)
        invariant FirstWithQualifier(providers, id, 0) == FirstWithQualifier(providers, id, i)
      {
        if QualifierOf(providers[i].id) == id {
          active := Some(providers[i].id);
          return;
        }
        i := i + 1;
      }
      active := None;
    }

    /** `auto_select_defaults_in_place`. */
    method AutoSelect()
      modifies this`active
      ensures active == if old(active).Some? || providers == [] then old(active) else Some(providers[0].id)
    {
      if active.None? && providers != [] { active := Some(providers[0].id); }
    }

    /** `handle_get_active_model`. With any provider known, the stored id is
        listed afterwards and the reply is its entry; a listed id is kept. */
    method GetActiveModel(discovered: seq<Entry>) returns (reply: Option<Entry>)
      modifies this
      ensures providers == if old(providers) == [] then discovered else old(providers)
      ensures providers != [] ==>
                && reply.Some? && reply.value in providers && active == Some(reply.value.id)
                && (old(active).Some? && Listed(providers, old(active).value) ==> active == old(active))
      ensures providers == [] ==> reply.None? && active == old(active)
    {
      if providers == [] && discovered != [] { providers := discovered; }
      Reconcile();
      ReconciledListed(old(active), providers);
      AutoSelect();
      reply := None;
      if active.Some? {
        var i := 0;
        while i < |providers|
          invariant 0 <= i <= |providers| && forall j :: 0 <= j < i ==> providers[j].id != active.value
          invariant reply.None?
        {
          if providers[i].id == active.value { return Some(providers[i]); }
          i := i + 1;
        }
      }
    }
  }

  predicate Listed(es: seq<Entry>, id: string) { exists i :: 0 <= i < |es| && es[i].id == id }

  function FirstWithQualifier(es: seq<Entry>, q: string, i: nat): Option<Entry>
    decreases |es| - i
  {
    if i >= |es| then None else if QualifierOf(es[i].id) == q then Some(es[i]) else FirstWithQualifier(es, q, i + 1)
  }

  /** What reconciling leaves: a listed id stays, an old bare provider id moves
      to that provider's first entry, anything else goes; with no entries to
      judge by, nothing changes. */
  function Reconciled(active: Option<string>, es: seq<Entry>): Option<string> {
    if active.None? || es == [] || Listed(es, active.value) then active
    else
      match FirstWithQualifier(es, active.value, 0)
      case Some(e) => Some(e.id)
      case None => None
  }

  lemma {:induction false} FirstWithQualifierIs(es: seq<Entry>, q: string, i: nat)
    requires i <= |es|
    ensures var r := FirstWithQualifier(es, q, i);
      if r.Some? then r.value in es && QualifierOf(r.value.id) == q
      else forall j :: i <= j < |es| ==> QualifierOf(es[j].id) != q
    decreases |es| - i
  {
    if i < |es| && QualifierOf(es[i].id) != q { FirstWithQualifierIs(es, q, i + 1); }
  }

  lemma {:induction false} ReconciledListed(active: Option<string>, es: seq<Entry>)
    ensures es != [] && Reconciled(active, es).Some? ==> Listed(es, Reconciled(active, es).value)
  {
    if active.Some? { FirstWithQualifierIs(es, active.value, 0); }
  }

  /** The first entry of a provider. */
  predicate FirstOfProvider(es: seq<Entry>, q: string, i: nat) {
    i < |es| && QualifierOf(es[i].id) == q && forall j :: 0 <= j < i ==> QualifierOf(es[j].id) != q
  }

  lemma {:induction false} FirstWithQualifierAt(es: seq<Entry>, q: string, i: nat, k: nat)
    requires k <= i && FirstOfProvider(es, q, i)
    ensures FirstWithQualifier(es, q, k) == Some(es[i])
    decreases i - k
  {
    if k < i { FirstWithQualifierAt(es, q, i, k + 1); }
  }

  /** Reconciling a stored selection: a listed id stays; an id that names a
      provider moves to that provider's first entry; any other goes. */
  lemma {:induction false} ReconciledIs(id: string, es: seq<Entry>)
    requires es != []
    ensures (exists e :: e in es && e.id == id) ==> Reconciled(Some(id), es) == Some(id)
    ensures forall i: nat :: FirstOfProvider(es, id, i) && (forall e :: e in es ==> e.id != id) ==> Reconciled(Some(id), es) == Some(es[i].id)
    ensures (forall e :: e in es ==> e.id != id && QualifierOf(e.id) != id) ==> Reconciled(Some(id), es) == None
    ensures Reconciled(None, es) == None
  {
    FirstWithQualifierIs(es, id, 0);
    if e :| e in es && e.id == id { var i :| 0 <= i < |es| && es[i] == e; assert Listed(es, id); }
    forall i: nat | FirstOfProvider(es, id, i) ensures FirstWithQualifier(es, id, 0) == Some(es[i]) { FirstWithQualifierAt(es, id, i, 0); }
    if Listed(es, id) { var i :| 0 <= i < |es| && es[i].id == id; assert es[i] in es; }
    if FirstWithQualifier(es, id, 0).Some? { assert FirstWithQualifier(es, id, 0).value in es; }
  }

  /** A listed canonical id resolves to its own entry and survives reconciling. */
  lemma {:induction false} CanonicalIdIsStable(es: seq<Entry>, e: Entry)
    requires Canonical(es) && e in es
    ensures ResolveSelection(e.id, es) == Bound(e)
    ensures Reconciled(Some(e.id), es) == Some(e.id)
  {
    ResolveMeaning(e.id, es, e);
    var i :| 0 <= i < |es| && es[i] == e;
    assert Listed(es, e.id);
  }

  // ---- The whole trip ----

  lemma {:induction false} StampKeeps(es: seq<Entry>, e: Entry)
    requires e in es && StampEntry(e).Some?
    ensures StampEntry(e).value in Stamp(es)
  {
    if e != es[|es| - 1] {
      assert e in es[..|es| - 1];
      StampKeeps(es[..|es| - 1], e);
    }
  }

  lemma {:induction false} StampAllKeeps(messages: seq<seq<Entry>>, k: nat, e: Entry)
    requires k < |messages| && e in messages[k] && StampEntry(e).Some?
    ensures StampEntry(e).value in StampAll(messages)
  {
    var n := |messages| - 1;
    if k == n { StampKeeps(messages[n], e); } else { StampAllKeeps(messages[..n], k, e); }
  }

  /** An entry of some answer, stamped with the qualifier of its own topic. */
  ghost predicate Offered(messages: seq<seq<Entry>>, id: string) {
    exists k: nat, e, q :: k < |messages| && e in messages[k] && IsQualifier(q)
      && e.topic == "llm.v1.request.generate." + q && id == q + ":" + e.id
  }

  lemma {:induction false} StampedFrom(es: seq<Entry>, x: Entry)
    ensures x in Stamp(es) ==> exists e :: e in es && StampEntry(e) == Some(x)
  {
    if es != [] {
      StampedFrom(es[..|es| - 1], x);
      assert es == es[..|es| - 1] + [es[|es| - 1]];
    }
  }

  lemma {:induction false} StampedFromAll(messages: seq<seq<Entry>>, x: Entry)
    ensures x in StampAll(messages) ==> exists k: nat, e :: k < |messages| && e in messages[k] && StampEntry(e) == Some(x)
  {
    if messages != [] {
      var n := |messages| - 1;
      StampedFromAll(messages[..n], x);
      StampedFrom(messages[n], x);
      if x in StampAll(messages[..n]) {
        var k: nat, e :| k < n && e in messages[..n][k] && StampEntry(e) == Some(x);
        assert e in messages[k];
      }
    }
  }

  /** Discovery lists exactly the ids that some provider offers on a topic of its
      own: each under the qualifier of its topic, nobody left out. */
  lemma {:induction false} DiscoveredIff(messages: seq<seq<Entry>>, id: string)
    ensures (exists x :: x in Discover(messages) && x.id == id) <==> Offered(messages, id)
  {
    var all, es := StampAll(messages), Discover(messages);
    DedupeKeepsFirsts(all, IdOf);
    assert Occurs(es, IdOf, id) <==> Occurs(all, IdOf, id);
    if x :| x in es && x.id == id {
      var i :| 0 <= i < |es| && es[i] == x;
      assert IdOf(es[i]) == id;
      var j :| 0 <= j < |all| && IdOf(all[j]) == id;
      StampedFromAll(messages, all[j]);
      var k: nat, e :| k < |messages| && e in messages[k] && StampEntry(e) == Some(all[j]);
      var q := RequestTopicQualifier(e.topic).value;
      assert e in messages[k] && IsQualifier(q) && e.topic == "llm.v1.request.generate." + q && id == q + ":" + e.id;
    }
    if Offered(messages, id) {
      var k: nat, e, q :| k < |messages| && e in messages[k] && IsQualifier(q)
        && e.topic == "llm.v1.request.generate." + q && id == q + ":" + e.id;
      assert RequestTopicQualifier(e.topic) == Some(q);
      StampAllKeeps(messages, k, e);
      var x := StampEntry(e).value;
      var j :| 0 <= j < |all| && all[j] == x;
      assert IdOf(all[j]) == id;
      var i :| 0 <= i < |es| && IdOf(es[i]) == id;
      assert es[i] in es;
    }
  }

  lemma {:induction false} OwnTopicQualifies()
    ensures RequestTopicQualifier(REQUEST_TOPIC) == Some(PROVIDER_ALIAS)
  {
    var n := |LLM_REQUEST_GENERATE_PREFIX|;
    assert REQUEST_TOPIC == LLM_REQUEST_GENERATE_PREFIX + PROVIDER_ALIAS;
    assert REQUEST_TOPIC[n..] == PROVIDER_ALIAS;
    assert REQUEST_TOPIC[..n] == LLM_REQUEST_GENERATE_PREFIX;
  }

  lemma {:induction false} StripOfStamp(m: string)
    ensures ProviderModelId(PROVIDER_ALIAS + COLON + m) == m
  {
    var id := PROVIDER_ALIAS + COLON + m;
    assert (PROVIDER_ALIAS + COLON) == id[..|PROVIDER_ALIAS + COLON|];
    assert id[|PROVIDER_ALIAS| + 1..] == m;
  }

  /** Whatever other providers answer, and in whatever order: each model id the
      provider describes, colons and all, is discovered under its canonical id;
      selecting that id, or the bare id when it is unambiguous, binds that
      entry; and what is stored strips back to the upstream id. */
  lemma {:induction false} FullTrip(messages: seq<seq<Entry>>, k: nat, ids: seq<string>, default: string, details: nat, m: string) returns (e: Entry)
    requires k < |messages| && messages[k] == DescribeProviders(ids, default, details) && m in ids
    ensures var es := Discover(messages);
      && e in es && e.id == PROVIDER_ALIAS + COLON + m
      && ResolveSelection(e.id, es) == Bound(e)
      && (ResolveSelection(m, es) == Bound(e) <==> forall f :: f in es ==> f.id != m && (BareOf(f.id) == m ==> f == e))
      && Reconciled(Some(e.id), es) == Some(e.id)
      && ProviderModelId(e.id) == m
  {
    DefaultComesFirst(ids, default, details);
    OwnTopicQualifies();
    var d := Describe(m, details);
    StampAllKeeps(messages, k, d);
    DedupeKeepsFirsts(StampAll(messages), IdOf);
    var id := PROVIDER_ALIAS + COLON + m;
    var all, es := StampAll(messages), Discover(messages);
    var i :| 0 <= i < |all| && all[i] == StampEntry(d).value;
    assert IdOf(all[i]) == id;
    assert Occurs(all, IdOf, id);
    assert Occurs(es, IdOf, id);
    var j :| 0 <= j < |es| && IdOf(es[j]) == id;
    e := es[j];
    DiscoverIsCanonical(messages);
    CanonicalIdIsStable(es, e);
    assert ':' !in PROVIDER_ALIAS;
    SplitOfJoin(PROVIDER_ALIAS, m);
    ResolveMeaning(m, es, e);
    assert e.id != m by { assert |e.id| > |m|; }
    StripOfStamp(m);
  }
}
