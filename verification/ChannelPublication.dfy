/**
 Planning one publication attempt of a channel from the assets its release
 holds, and what any run of attempts keeps.
 */
module ChannelPublication {
  import opened Prelude
  import opened Decimal
  import Sorting

  predicate IsChannel(s: string) { s == "stable" || s == "dev" || s == "nightly" }

  predicate IsGeneration(g: int) { 0 < g <= MAX_GENERATION }

  // ---- Names ----

  const TRANSACTION: string := ".transaction.json"
  const HISTORY: string := ".toml"
  const BUNDLE: string := ".toml.sigstore.json"

  function Prefix(channel: string): string { "channel-" + channel + "-" }

  function TransactionName(channel: string, g: nat): string { Prefix(channel) + Print(g) + TRANSACTION }

  function HistoryName(channel: string, g: nat): string { Prefix(channel) + Print(g) + HISTORY }

  function BundleName(channel: string, g: nat): string { Prefix(channel) + Print(g) + BUNDLE }

  /** What stands between a prefix and a suffix. */
  function Middle(name: string, pre: string, post: string): (m: Option<string>)
    ensures forall x :: m == Some(x) <==> name == pre + x + post
  {
    MiddleIff(name, pre, post);
    if |pre| + |post| <= |name| && pre <= name && name[|name| - |post|..] == post then Some(name[|pre|..|name| - |post|]) else None
  }

  lemma {:induction false} MiddleIff(name: string, pre: string, post: string)
    ensures |pre| + |post| <= |name| && pre <= name && name[|name| - |post|..] == post ==>
              name == pre + name[|pre|..|name| - |post|] + post
    ensures forall x :: name == pre + x + post ==>
              |pre| + |post| <= |name| && pre <= name && name[|name| - |post|..] == post && name[|pre|..|name| - |post|] == x
  {
  }

  /** The pattern `prefix([1-9][0-9]{0,17})suffix` on the whole name. */
  function GenerationIn(name: string, pre: string, post: string): Option<nat> {
    match Middle(name, pre, post)
    case None => None
    case Some(m) => if IsGenerationText(m) then Some(Value(m)) else None
  }

  /** A name matches with generation `g` exactly when it is the one printed for
      `g`, and `g` is a valid generation. */
  lemma {:induction false} GenerationInIff(name: string, pre: string, post: string, g: nat)
    ensures GenerationIn(name, pre, post) == Some(g) <==> IsGeneration(g) && name == pre + Print(g) + post
  {
    GenerationTextIff(Print(g), g);
    var m := Middle(name, pre, post);
    if m.Some? { GenerationTextIff(m.value, g); }
  }

  function ParseTransaction(channel: string, name: string): Option<nat> { GenerationIn(name, Prefix(channel), TRANSACTION) }

  function ParseHistory(channel: string, name: string): Option<nat> {
    var pointer := GenerationIn(name, Prefix(channel), HISTORY);
    if pointer.Some? then pointer else GenerationIn(name, Prefix(channel), BUNDLE)
  }

  lemma {:induction false} TransactionNameIff(channel: string, name: string, g: nat)
    ensures ParseTransaction(channel, name) == Some(g) <==> IsGeneration(g) && name == TransactionName(channel, g)
  {
    GenerationInIff(name, Prefix(channel), TRANSACTION, g);
  }

  lemma {:induction false} EndingsDiffer(a: string, b: string)
    ensures a + TRANSACTION != b + HISTORY
    ensures a + TRANSACTION != b + BUNDLE
    ensures a + HISTORY != b + BUNDLE
  {
    var x, y, z := a + TRANSACTION, b + HISTORY, b + BUNDLE;
    assert x[|x| - 1] == 'n' && x[|x| - 6] == 'n';
    assert y[|y| - 1] == 'l';
    assert z[|z| - 1] == 'n' && z[|z| - 6] == 'e';
    var v := a + HISTORY;
    assert v[|v| - 1] == 'l';
  }

  lemma {:induction false} HistoryNameIff(channel: string, name: string, g: nat)
    ensures ParseHistory(channel, name) == Some(g) <==>
      IsGeneration(g) && (name == HistoryName(channel, g) || name == BundleName(channel, g))
  {
    var pre := Prefix(channel);
    GenerationInIff(name, pre, HISTORY, g);
    GenerationInIff(name, pre, BUNDLE, g);
    var pointer := GenerationIn(name, pre, HISTORY);
    if pointer.Some? {
      GenerationInIff(name, pre, HISTORY, pointer.value);
      EndingsDiffer(pre + Print(pointer.value), pre + Print(g));
    }
  }

  /** No name is read as both. */
  lemma {:induction false} NamesApart(channel: string, name: string)
    ensures ParseTransaction(channel, name).None? || ParseHistory(channel, name).None?
  {
    if ParseTransaction(channel, name).Some? && ParseHistory(channel, name).Some? {
      var g, h := ParseTransaction(channel, name).value, ParseHistory(channel, name).value;
      TransactionNameIff(channel, name, g);
      HistoryNameIff(channel, name, h);
      EndingsDiffer(Prefix(channel) + Print(g), Prefix(channel) + Print(h));
    }
  }

  // ---- The assets ----

  /** A field is `None` when it is absent or of the wrong type. */
  datatype Asset = Asset(id: Option<int>, name: Option<string>, state: Option<string>, size: Option<int>)

  datatype Element = Object(asset: Asset) | Junk
  datatype Item = One(element: Element) | Page(elements: seq<Element>)
  datatype Response = Array(items: seq<Item>) | NotArray

  function Elements(items: seq<Item>): seq<Element> {
    if items == [] then []
    else
      var last := items[|items| - 1];
      Elements(items[..|items| - 1]) + (match last case One(e) => [e] case Page(es) => es)
  }

  function Assets(es: seq<Element>): seq<Asset>
    requires forall i :: 0 <= i < |es| ==> es[i].Object?
  {
    seq(|es|, i requires 0 <= i < |es| => es[i].asset)
  }

  function FlatAssets(v: Response): Result<seq<Asset>> {
    if v.NotArray? then Err("GitHub assets response must be an array")
    else
      var es := Elements(v.items);
      if forall i :: 0 <= i < |es| ==> es[i].Object? then Ok(Assets(es)) else Err("every asset must be an object")
  }

  /** `flatten_assets`: one level of pages. */
  method FlattenAssets(v: Response) returns (r: Result<seq<Asset>>)
    ensures r == FlatAssets(v)
  {
    if v.NotArray? { return Err("GitHub assets response must be an array"); }
    var flattened: seq<Element> := [];
    for i := 0 to |v.items|
      invariant flattened == Elements(v.items[..i])
    {
      assert v.items[..i + 1][..i] == v.items[..i];
      match v.items[i] {
        case One(e) => flattened := flattened + [e];
        case Page(es) => flattened := flattened + es;
      }
    }
    assert v.items[..|v.items|] == v.items;
    if forall i :: 0 <= i < |flattened| ==> flattened[i].Object? {
      r := Ok(Assets(flattened));
    } else {
      r := Err("every asset must be an object");
    }
  }

  /** Flattening keeps everything in order: an item stands for itself, a page for
      its elements, and lists for their parts. */
  lemma {:induction false} ElementsAre(a: seq<Item>, b: seq<Item>, e: Element, es: seq<Element>)
    ensures Elements([One(e)]) == [e] && Elements([Page(es)]) == es && Elements([]) == []
    ensures Elements(a + b) == Elements(a) + Elements(b)
    decreases |b|
  {
    assert [One(e)][..0] == [] && [Page(es)][..0] == [] && [] + es == es;
    if b == [] { assert a + b == a; }
    else {
      assert (a + b)[..|a + b| - 1] == a + b[..|b| - 1];
      ElementsAre(a, b[..|b| - 1], e, es);
    }
  }

  /** And it succeeds exactly on a list whose elements are all objects. */
  lemma {:induction false} FlatAssetsIff(v: Response)
    ensures FlatAssets(v).Ok? <==> v.Array? && forall e :: e in Elements(v.items) ==> e.Object?
    ensures FlatAssets(v).Ok? ==>
              && |FlatAssets(v).value| == |Elements(v.items)|
              && forall i :: 0 <= i < |Elements(v.items)| ==> Elements(v.items)[i] == Object(FlatAssets(v).value[i])
  {
    if v.Array? {
      var es := Elements(v.items);
      if forall e :: e in es ==> e.Object? { forall i | 0 <= i < |es| ensures es[i].Object? { assert es[i] in es; } }
    }
  }

  datatype Scanned = Scanned(uploaded: seq<string>, cleanup: seq<int>)

  function ScanStep(s: Scanned, a: Asset): Result<Scanned> {
    if a.id.None? || a.id.value <= 0 then Err("asset id must be a positive integer")
    else if a.name.None? || a.name.value == "" then Err("asset name must be non-empty")
    else if a.state.None? || a.state.value == "" then Err("asset has no state")
    else if a.size.None? || a.size.value < 0 then Err("asset has an invalid size")
    else if a.state.value != "uploaded" then Ok(s.(cleanup := s.cleanup + [a.id.value]))
    else if a.size.value == 0 then Err("uploaded asset is empty; repair it manually")
    else if a.name.value in s.uploaded then Err("duplicate uploaded asset name")
    else Ok(s.(uploaded := s.uploaded + [a.name.value]))
  }

  function Scan(assets: seq<Asset>): Result<Scanned> {
    if assets == [] then Ok(Scanned([], []))
    else
      match Scan(assets[..|assets| - 1])
      case Err(e) => Err(e)
      case Ok(s) => ScanStep(s, assets[|assets| - 1])
  }

  lemma {:induction false} ScanFailsEarly(assets: seq<Asset>, i: nat)
    requires i <= |assets| && Scan(assets[..i]).Err?
    ensures Scan(assets) == Scan(assets[..i])
    decreases |assets|
  {
    if i < |assets| {
      assert assets[..|assets| - 1][..i] == assets[..i];
      ScanFailsEarly(assets[..|assets| - 1], i);
    } else {
      assert assets[..i] == assets;
    }
  }

  // ---- The plan ----

  /** The greatest generation read from some names, or zero. */
  function TransactionFloor(channel: string, names: seq<string>): nat {
    if names == [] then 0
    else
      var rest, last := TransactionFloor(channel, names[..|names| - 1]), ParseTransaction(channel, names[|names| - 1]);
      if last.Some? && last.value > rest then last.value else rest
  }

  function HistoryFloor(channel: string, names: seq<string>): nat {
    if names == [] then 0
    else
      var rest, last := HistoryFloor(channel, names[..|names| - 1]), ParseHistory(channel, names[|names| - 1]);
      if last.Some? && last.value > rest then last.value else rest
  }

  lemma {:induction false} TransactionFloorIs(channel: string, names: seq<string>)
    ensures var f := TransactionFloor(channel, names);
      && (forall g: nat :: IsGeneration(g) && TransactionName(channel, g) in names ==> g <= f)
      && (f > 0 ==> IsGeneration(f) && TransactionName(channel, f) in names)
  {
    if names != [] {
      var n := |names| - 1;
      TransactionFloorIs(channel, names[..n]);
      var last := ParseTransaction(channel, names[n]);
      if last.Some? { TransactionNameIff(channel, names[n], last.value); }
      forall g: nat | IsGeneration(g) && TransactionName(channel, g) in names ensures g <= TransactionFloor(channel, names) {
        if TransactionName(channel, g) !in names[..n] { TransactionNameIff(channel, names[n], g); }
      }
    }
  }

  lemma {:induction false} HistoryFloorIs(channel: string, names: seq<string>)
    ensures var f := HistoryFloor(channel, names);
      && (forall g: nat, x :: IsGeneration(g) && x in names && ParseHistory(channel, x) == Some(g) ==> g <= f)
      && (f > 0 ==> exists x :: x in names && ParseHistory(channel, x) == Some(f))
  {
    if names != [] {
      var n := |names| - 1;
      HistoryFloorIs(channel, names[..n]);
      assert names == names[..n] + [names[n]];
      if HistoryFloor(channel, names) > 0 && HistoryFloor(channel, names) == HistoryFloor(channel, names[..n]) {
        var x :| x in names[..n] && ParseHistory(channel, x) == Some(HistoryFloor(channel, names[..n]));
        assert x in names;
      }
    }
  }

  datatype Plan = Plan(
    generation: nat, uploaded: seq<string>, cleanup: seq<int>,
    transactionFloor: nat, historyFloor: nat,
    requestedPresent: bool, pointerPresent: bool, bundlePresent: bool)

  function SortedNames(names: seq<string>): seq<string> { Sorting.Sort(Sorting.TextLe, names) }

  function SortedIds(ids: seq<int>): seq<int> { Sorting.Sort(Sorting.IntLe, ids) }

  function Decide(channel: string, g: nat, s: Scanned): Result<Plan> {
    var top, history := TransactionFloor(channel, s.uploaded), HistoryFloor(channel, s.uploaded);
    var present := TransactionName(channel, g) in s.uploaded;
    if history > top then Err("history generation has no authenticated transaction")
    else if present && g != top then Err("an existing requested transaction must be the authenticated floor")
    else if !present && top != 0 && g <= top then Err("new generation must be greater than transaction floor")
    else
      Ok(Plan(g, SortedNames(s.uploaded), SortedIds(s.cleanup), top, history, present,
              "channel.toml" in s.uploaded, "channel.toml.sigstore.json" in s.uploaded))
  }

  function PlanOf(channel: string, g: int, v: Response): Result<Plan> {
    if !IsChannel(channel) then Err("channel must be stable, dev, or nightly")
    else if !IsGeneration(g) then Err("generation out of range")
    else
      match FlatAssets(v)
      case Err(e) => Err(e)
      case Ok(assets) =>
        match Scan(assets)
        case Err(e) => Err(e)
        case Ok(s) => Decide(channel, g, s)
  }

  /** Its loop over the assets. */
  method ScanAssets(assets: seq<Asset>) returns (r: Result<Scanned>)
    ensures r == Scan(assets)
  {
    var s := Scanned([], []);
    for i := 0 to |assets|
      invariant Scan(assets[..i]) == Ok(s)
    {
      assert assets[..i + 1][..i] == assets[..i];
      var next := ScanStep(s, assets[i]);
      if next.Err? {
        ScanFailsEarly(assets, i + 1);
        return Err(next.reason);
      }
      s := next.value;
    }
    assert assets[..|assets|] == assets;
    r := Ok(s);
  }

  /** Its two floors. */
  method Floors(channel: string, names: seq<string>) returns (top: nat, history: nat)
    ensures top == TransactionFloor(channel, names) && history == HistoryFloor(channel, names)
  {
    top, history := 0, 0;
    for i := 0 to |names|
      invariant top == TransactionFloor(channel, names[..i]) && history == HistoryFloor(channel, names[..i])
    {
      assert names[..i + 1][..i] == names[..i];
      var p, h := ParseTransaction(channel, names[i]), ParseHistory(channel, names[i]);
      if p.Some? && p.value > top { top := p.value; }
      if h.Some? && h.value > history { history := h.value; }
    }
    assert names[..|names|] == names;
  }

  /** `publication_plan`. */
  method PublicationPlan(channel: string, g: int, v: Response) returns (r: Result<Plan>)
    ensures r == PlanOf(channel, g, v)
  {
    if !IsChannel(channel) { return Err("channel must be stable, dev, or nightly"); }
    if !IsGeneration(g) { return Err("generation out of range"); }
    var flat := FlattenAssets(v);
    if flat.Err? { return Err(flat.reason); }
    var assets := flat.value;
    var scanned := ScanAssets(assets);
    if scanned.Err? { return Err(scanned.reason); }
    var s := scanned.value;
    var top, history := Floors(channel, s.uploaded);
    if history > top { return Err("history generation has no authenticated transaction"); }
    var present := TransactionName(channel, g) in s.uploaded;
    if present {
      if g != top { return Err("an existing requested transaction must be the authenticated floor"); }
    } else if top != 0 {
      if g <= top { return Err("new generation must be greater than transaction floor"); }
    }
    r := Ok(Plan(g, SortedNames(s.uploaded), SortedIds(s.cleanup), top, history, present,
                 "channel.toml" in s.uploaded, "channel.toml.sigstore.json" in s.uploaded));
  }

  /** When an attempt is accepted: no history without its transaction, and no
      uploaded transaction above the requested one. So an accepted generation is
      strictly above all of them, or is the top one and already uploaded. */
  lemma {:induction false} AcceptedIff(channel: string, g: nat, s: Scanned)
    requires IsGeneration(g)
    ensures Decide(channel, g, s).Ok? <==>
      && HistoryFloor(channel, s.uploaded) <= TransactionFloor(channel, s.uploaded)
      && forall h: nat :: IsGeneration(h) && TransactionName(channel, h) in s.uploaded ==> h <= g
    ensures Decide(channel, g, s).Ok? ==>
      var p := Decide(channel, g, s).value;
      if p.requestedPresent then g == p.transactionFloor
      else forall h: nat :: IsGeneration(h) && TransactionName(channel, h) in s.uploaded ==> h < g
  {
    TransactionFloorIs(channel, s.uploaded);
  }

  /** The names of the uploaded assets, and the ids of the others. */
  function Uploaded(assets: seq<Asset>): seq<string> {
    if assets == [] then []
    else
      var last := assets[|assets| - 1];
      Uploaded(assets[..|assets| - 1]) + (if last.state == Some("uploaded") && last.name.Some? then [last.name.value] else [])
  }

  function OtherIds(assets: seq<Asset>): seq<int> {
    if assets == [] then []
    else
      var last := assets[|assets| - 1];
      OtherIds(assets[..|assets| - 1]) + (if last.state != Some("uploaded") && last.id.Some? then [last.id.value] else [])
  }

  lemma {:induction false} ScanLists(assets: seq<Asset>)
    requires Scan(assets).Ok?
    ensures var s := Scan(assets).value;
      s.uploaded == Uploaded(assets) && s.cleanup == OtherIds(assets) && Distinct(s.uploaded)
  {
    if assets != [] { ScanLists(assets[..|assets| - 1]); }
  }

  /** The lists of an accepted plan: the uploaded names strictly increasing,
      exactly those of the uploaded assets; the clean-up ids in order, exactly
      those of all other assets. */
  lemma {:induction false} PlanLists(channel: string, g: int, v: Response)
    requires PlanOf(channel, g, v).Ok?
    ensures var plan, assets := PlanOf(channel, g, v).value, FlatAssets(v).value;
      && Sorting.SortedBy(Sorting.TextLe, plan.uploaded) && Distinct(plan.uploaded)
      && multiset(plan.uploaded) == multiset(Uploaded(assets))
      && Sorting.SortedBy(Sorting.IntLe, plan.cleanup) && multiset(plan.cleanup) == multiset(OtherIds(assets))
  {
    var assets := FlatAssets(v).value;
    ScanLists(assets);
    Sorting.Orders();
    Sorting.SortIs(Sorting.TextLe, Uploaded(assets));
    Sorting.SortIs(Sorting.IntLe, OtherIds(assets));
    DistinctIsMultiset(Uploaded(assets), SortedNames(Uploaded(assets)));
  }

  /** Listing distinct names in another order keeps them distinct. */
  lemma {:induction false} DistinctIsMultiset(a: seq<string>, b: seq<string>)
    requires Distinct(a) && multiset(a) == multiset(b)
    ensures Distinct(b)
  {
    forall i, j | 0 <= i < j < |b| ensures b[i] != b[j] {
      if b[i] == b[j] {
        TwiceCounts(b, i, j);
        OnceCounts(a, b[i]);
        assert false;
      }
    }
  }

  lemma {:induction false} TwiceCounts(b: seq<string>, i: nat, j: nat)
    requires i < j < |b| && b[i] == b[j]
    ensures multiset(b)[b[i]] >= 2
  {
    assert b == b[..j] + b[j..];
    assert b[i] in b[..j] && b[j] in b[j..];
    assert multiset(b) == multiset(b[..j]) + multiset(b[j..]);
    assert b[i] in multiset(b[..j]) && b[j] in multiset(b[j..]);
  }

  lemma {:induction false} OnceCounts(a: seq<string>, x: string)
    requires Distinct(a)
    ensures multiset(a)[x] <= 1
  {
    if a != [] {
      OnceCounts(a[1..], x);
      assert a == [a[0]] + a[1..];
      if x == a[0] { assert x !in a[1..] && x !in multiset(a[1..]); }
    }
  }

  /** What an asset must be: identified, named, in some state, and not an empty
      upload. */
  predicate WellFormedAsset(a: Asset) {
    && a.id.Some? && a.id.value >= 1 && a.name.Some? && a.name.value != "" && a.state.Some? && a.state.value != ""
    && a.size.Some? && a.size.value >= 0 && (a.state.value == "uploaded" ==> a.size.value > 0)
  }

  /** The assets are read without an error exactly when each is what it must be
      and no two uploads share a name. */
  lemma {:induction false} ScanOkIff(assets: seq<Asset>)
    ensures Scan(assets).Ok? <==> (forall i :: 0 <= i < |assets| ==> WellFormedAsset(assets[i])) && Distinct(Uploaded(assets))
    decreases |assets|
  {
    if assets != [] {
      var before, a := assets[..|assets| - 1], assets[|assets| - 1];
      ScanOkIff(before);
      if Scan(before).Ok? { ScanLists(before); }
      DistinctSnoc(Uploaded(before), if a.state == Some("uploaded") && a.name.Some? then [a.name.value] else []);
      assert assets == before + [a];
      AllSnoc(before, a);
    }
  }

  lemma {:induction false} AllSnoc(assets: seq<Asset>, a: Asset)
    ensures (forall i :: 0 <= i < |assets + [a]| ==> WellFormedAsset((assets + [a])[i])) <==>
              (forall i :: 0 <= i < |assets| ==> WellFormedAsset(assets[i])) && WellFormedAsset(a)
  {
    var all := assets + [a];
    assert all[|assets|] == a && forall i :: 0 <= i < |assets| ==> all[i] == assets[i];
  }

  lemma {:induction false} DistinctSnoc(a: seq<string>, b: seq<string>)
    requires |b| <= 1
    ensures Distinct(a + b) <==> Distinct(a) && (b != [] ==> b[0] !in a)
  {
    var all := a + b;
    if Distinct(all) {
      forall i, j | 0 <= i < j < |a| ensures a[i] != a[j] { assert all[i] == a[i] && all[j] == a[j]; }
      forall i | 0 <= i < |a| ensures b != [] ==> a[i] != b[0] { assert all[i] == a[i] && (b != [] ==> all[|a|] == b[0]); }
    }
  }

  /** When a plan is made at all: for a known channel and a generation in range,
      from a list of well-formed assets without repeated uploads, whose history is
      backed, and with no uploaded transaction above the generation. */
  lemma {:induction false} PlanOkIff(channel: string, g: int, v: Response)
    ensures PlanOf(channel, g, v).Ok? <==>
      && (channel == "stable" || channel == "dev" || channel == "nightly") && 1 <= g <= 999_999_999_999_999_999
      && FlatAssets(v).Ok?
      && var assets := FlatAssets(v).value;
         && (forall i :: 0 <= i < |assets| ==> WellFormedAsset(assets[i])) && Distinct(Uploaded(assets))
         && HistoryFloor(channel, Uploaded(assets)) <= TransactionFloor(channel, Uploaded(assets))
         && forall h: nat :: IsGeneration(h) && TransactionName(channel, h) in Uploaded(assets) ==> h <= g
  {
    if IsChannel(channel) && IsGeneration(g) && FlatAssets(v).Ok? {
      var assets := FlatAssets(v).value;
      ScanOkIff(assets);
      if Scan(assets).Ok? {
        ScanLists(assets);
        AcceptedIff(channel, g, Scan(assets).value);
      }
    }
  }

  /** What an accepted plan says besides its lists. */
  lemma {:induction false} PlanFlags(channel: string, g: nat, v: Response)
    requires PlanOf(channel, g, v).Ok?
    ensures var p, names := PlanOf(channel, g, v).value, Uploaded(FlatAssets(v).value);
      && p.generation == g
      && p.transactionFloor == TransactionFloor(channel, names) && p.historyFloor == HistoryFloor(channel, names)
      && (p.requestedPresent <==> TransactionName(channel, g) in names)
      && (p.pointerPresent <==> "channel.toml" in names)
      && (p.bundlePresent <==> "channel.toml.sigstore.json" in names)
  {
    ScanLists(FlatAssets(v).value);
  }

  /** The three names of a generation. */
  lemma {:induction false} NamesAre(channel: string, g: nat)
    ensures TransactionName(channel, g) == "channel-" + channel + "-" + Print(g) + ".transaction.json"
    ensures HistoryName(channel, g) == "channel-" + channel + "-" + Print(g) + ".toml"
    ensures BundleName(channel, g) == "channel-" + channel + "-" + Print(g) + ".toml.sigstore.json"
  {
  }

  // ---- Runs of attempts ----

  /** A release of one channel, and the next asset id. */
  datatype Release = Release(assets: seq<Asset>, nextId: nat)

  /** Deleting the clean-up ids: each asset has its own id, so what goes is what
      is not in the uploaded state. */
  function Cleaned(assets: seq<Asset>): seq<Asset> {
    if assets == [] then []
    else
      var last := assets[|assets| - 1];
      Cleaned(assets[..|assets| - 1]) + (if last.state == Some("uploaded") then [last] else [])
  }

  function Wanted(channel: string, g: nat): seq<string> { [TransactionName(channel, g), HistoryName(channel, g), BundleName(channel, g)] }

  function Missing(wanted: seq<string>, names: seq<string>): seq<string> {
    if wanted == [] then []
    else (if wanted[0] in names then [] else [wanted[0]]) + Missing(wanted[1..], names)
  }

  function Fresh(r: Release, names: seq<string>): Release
    decreases |names|
  {
    if names == [] then r
    else
      var id := r.nextId + 1;
      Fresh(Release(r.assets + [Asset(Some(id), Some(names[0]), Some("uploaded"), Some(1))], id), names[1..])
  }

  /** The response that lists some assets, as one page. */
  function Listing(assets: seq<Asset>): Response {
    Array([Page(seq(|assets|, i requires 0 <= i < |assets| => Object(assets[i])))])
  }

  /** An attempt at generation `g` that gets through `done` of its uploads; when
      `cut`, the next one is left half-way. */
  datatype Attempt = Attempt(g: nat, done: nat, cut: bool)

  function Promote(channel: string, r: Release, a: Attempt): Release {
    match PlanOf(channel, a.g, Listing(r.assets))
    case Err(_) => r
    case Ok(plan) =>
      Upload(r, Missing(Wanted(channel, a.g), plan.uploaded), a.done, a.cut)
  }

  function Upload(r: Release, missing: seq<string>, done: nat, cut: bool): Release {
    var k := Min(done, |missing|);
    var after := Fresh(r.(assets := Cleaned(r.assets)), missing[..k]);
    if cut && k < |missing| then
      var id := after.nextId + 1;
      Release(after.assets + [Asset(Some(id), Some(missing[k]), Some("starter"), Some(0))], id)
    else after
  }

  function Run(channel: string, attempts: seq<Attempt>): Release {
    if attempts == [] then Release([], 0)
    else Promote(channel, Run(channel, attempts[..|attempts| - 1]), attempts[|attempts| - 1])
  }

  predicate AssetOk(a: Asset) {
    && a.id.Some? && a.id.value > 0 && a.name.Some? && a.name.value != ""
    && (a.state == Some("uploaded") || a.state == Some("starter"))
    && a.size.Some? && a.size.value >= 0 && (a.state == Some("uploaded") ==> a.size.value > 0)
  }

  ghost predicate Distinct(names: seq<string>) { forall i, j :: 0 <= i < j < |names| ==> names[i] != names[j] }

  /** Every history name has its transaction beside it. */
  ghost predicate Backed(channel: string, names: seq<string>) {
    forall x {:trigger ParseHistory(channel, x)} :: x in names && ParseHistory(channel, x).Some? ==>
      TransactionName(channel, ParseHistory(channel, x).value) in names
  }

  ghost predicate Inv(channel: string, r: Release) {
    && (forall a :: a in r.assets ==> AssetOk(a))
    && Distinct(Uploaded(r.assets)) && Backed(channel, Uploaded(r.assets))
  }

  lemma {:induction false} ScanOfOk(assets: seq<Asset>)
    requires (forall a :: a in assets ==> AssetOk(a)) && Distinct(Uploaded(assets))
    ensures Scan(assets).Ok? && Scan(assets).value.uploaded == Uploaded(assets)
  {
    if assets != [] {
      var n := |assets| - 1;
      var before, all := Uploaded(assets[..n]), Uploaded(assets);
      assert assets[n] in assets;
      assert forall i :: 0 <= i < |before| ==> before[i] == all[i];
      ScanOfOk(assets[..n]);
      if assets[n].state == Some("uploaded") {
        assert all[|before|] == assets[n].name.value;
      }
    }
  }

  lemma {:induction false} CleanedKeeps(assets: seq<Asset>)
    ensures Uploaded(Cleaned(assets)) == Uploaded(assets)
    ensures forall a :: a in Cleaned(assets) ==> a in assets
  {
    if assets != [] {
      var n := |assets| - 1;
      CleanedKeeps(assets[..n]);
      var before, after := Cleaned(assets[..n]), Cleaned(assets);
      if assets[n].state == Some("uploaded") {
        assert after == before + [assets[n]] && after[..|before|] == before;
      } else {
        assert after == before + [] == before;
        assert Uploaded(assets) == Uploaded(assets[..n]) + [] == Uploaded(assets[..n]);
      }
    }
  }

  lemma {:induction false} FreshAdds(r: Release, names: seq<string>)
    requires forall x :: x in names ==> x != ""
    requires forall a :: a in r.assets ==> AssetOk(a)
    ensures Uploaded(Fresh(r, names).assets) == Uploaded(r.assets) + names
    ensures forall a :: a in Fresh(r, names).assets ==> AssetOk(a)
    decreases |names|
  {
    if names != [] {
      var id := r.nextId + 1;
      var x := Asset(Some(id), Some(names[0]), Some("uploaded"), Some(1));
      var next := Release(r.assets + [x], id);
      assert next.assets[..|r.assets|] == r.assets;
      assert names == [names[0]] + names[1..] && names[0] in names;
      forall y | y in names[1..] ensures y != "" { assert y in names; }
      FreshAdds(next, names[1..]);
      assert Uploaded(r.assets) + names == (Uploaded(r.assets) + [names[0]]) + names[1..];
    }
  }

  lemma {:induction false} ListingReadsBack(assets: seq<Asset>)
    ensures FlatAssets(Listing(assets)) == Ok(assets)
  {
    var es := seq(|assets|, i requires 0 <= i < |assets| => Object(assets[i]));
    var items := [Page(es)];
    assert items[..0] == [] && Elements(items) == [] + es == es;
    assert Assets(es) == assets;
  }

  lemma {:induction false} BackedFloors(channel: string, names: seq<string>)
    requires Backed(channel, names)
    ensures HistoryFloor(channel, names) <= TransactionFloor(channel, names)
  {
    TransactionFloorIs(channel, names);
    HistoryFloorIs(channel, names);
    if HistoryFloor(channel, names) > 0 {
      var x :| x in names && ParseHistory(channel, x) == Some(HistoryFloor(channel, names));
      HistoryNameIff(channel, x, HistoryFloor(channel, names));
    }
  }

  /** An attempt's plan, in a release that keeps the invariant: it is accepted
      exactly when its generation is valid and not below the floor. */
  lemma {:induction false} PlanInRun(channel: string, r: Release, g: nat)
    requires Inv(channel, r) && IsChannel(channel)
    ensures var plan := PlanOf(channel, g, Listing(r.assets));
      && (plan.Ok? <==> IsGeneration(g) && g >= TransactionFloor(channel, Uploaded(r.assets)))
      && (plan.Ok? ==> forall x :: x in plan.value.uploaded <==> x in Uploaded(r.assets))
    ensures HistoryFloor(channel, Uploaded(r.assets)) <= TransactionFloor(channel, Uploaded(r.assets))
  {
    ListingReadsBack(r.assets);
    ScanOfOk(r.assets);
    BackedFloors(channel, Uploaded(r.assets));
    var s := Scan(r.assets).value;
    if IsGeneration(g) { DecideAtFloor(channel, g, s); }
  }

  lemma {:induction false} DecideAtFloor(channel: string, g: nat, s: Scanned)
    requires IsGeneration(g)
    ensures Decide(channel, g, s).Ok? <==>
      HistoryFloor(channel, s.uploaded) <= TransactionFloor(channel, s.uploaded) <= g
    ensures Decide(channel, g, s).Ok? ==> forall x :: x in Decide(channel, g, s).value.uploaded <==> x in s.uploaded
  {
    TransactionFloorIs(channel, s.uploaded);
    Sorting.Orders();
    Sorting.SortKeepsElements(Sorting.TextLe, s.uploaded);
  }

  lemma {:induction false} WantedAre(channel: string, g: nat)
    requires IsGeneration(g)
    ensures Distinct(Wanted(channel, g)) && forall x :: x in Wanted(channel, g) ==> x != ""
    ensures forall x :: x in Wanted(channel, g) && ParseHistory(channel, x).Some? ==> ParseHistory(channel, x) == Some(g)
  {
    var stem := Prefix(channel) + Print(g);
    EndingsDiffer(stem, stem);
    HistoryNameIff(channel, HistoryName(channel, g), g);
    HistoryNameIff(channel, BundleName(channel, g), g);
    TransactionNameIff(channel, TransactionName(channel, g), g);
    NamesApart(channel, TransactionName(channel, g));
  }

  lemma {:induction false} MissingAre(wanted: seq<string>, names: seq<string>)
    requires Distinct(wanted)
    ensures var m := Missing(wanted, names);
      && Distinct(m) && (forall x :: x in m <==> x in wanted && x !in names)
      && (m != [] && wanted != [] && wanted[0] !in names ==> m[0] == wanted[0])
  {
    if wanted != [] {
      var rest := Missing(wanted[1..], names);
      MissingAre(wanted[1..], names);
      assert forall x :: x in wanted[1..] ==> x != wanted[0];
      assert wanted == [wanted[0]] + wanted[1..];
      assert forall x :: x in rest ==> x != wanted[0];
      assert forall i :: 0 <= i < |rest| ==> rest[i] in rest;
    }
  }

  lemma {:induction false} MissingSame(wanted: seq<string>, a: seq<string>, b: seq<string>)
    requires forall x :: x in a <==> x in b
    ensures Missing(wanted, a) == Missing(wanted, b)
  {
    if wanted != [] { MissingSame(wanted[1..], a, b); }
  }

  /** What an accepted attempt does to the uploaded names: it adds the first
      missing ones of its three, in order, and takes none away. */
  lemma {:induction false} PromoteAdds(channel: string, r: Release, a: Attempt)
    requires Inv(channel, r) && IsChannel(channel)
    ensures var names, names' := Uploaded(r.assets), Uploaded(Promote(channel, r, a).assets);
      if IsGeneration(a.g) && a.g >= TransactionFloor(channel, names) then
        var missing := Missing(Wanted(channel, a.g), names);
        names' == names + missing[..Min(a.done, |missing|)]
      else names' == names
    ensures forall x :: x in Promote(channel, r, a).assets ==> AssetOk(x)
  {
    PlanInRun(channel, r, a.g);
    var names := Uploaded(r.assets);
    if IsGeneration(a.g) && a.g >= TransactionFloor(channel, names) {
      WantedAre(channel, a.g);
      MissingAre(Wanted(channel, a.g), names);
      MissingSame(Wanted(channel, a.g), PlanOf(channel, a.g, Listing(r.assets)).value.uploaded, names);
      UploadAdds(r, Missing(Wanted(channel, a.g), names), a.done, a.cut);
    }
  }

  /** The uploads themselves. */
  lemma {:induction false} UploadAdds(r: Release, missing: seq<string>, done: nat, cut: bool)
    requires (forall a :: a in r.assets ==> AssetOk(a)) && forall x :: x in missing ==> x != ""
    ensures var r' := Upload(r, missing, done, cut);
      && Uploaded(r'.assets) == Uploaded(r.assets) + missing[..Min(done, |missing|)]
      && forall a :: a in r'.assets ==> AssetOk(a)
  {
    CleanedKeeps(r.assets);
    var k := Min(done, |missing|);
    assert forall x :: x in missing[..k] ==> x in missing;
    var base := r.(assets := Cleaned(r.assets));
    FreshAdds(base, missing[..k]);
    if cut && k < |missing| {
      assert missing[k] in missing;
      var all, after := Upload(r, missing, done, cut).assets, Fresh(base, missing[..k]).assets;
      assert all[..|after|] == after;
      assert Uploaded(all) == Uploaded(after) + [] == Uploaded(after);
    }
  }

  /** Uploading transaction first keeps every history name backed. */
  lemma {:induction false} PromoteKeepsInv(channel: string, r: Release, a: Attempt)
    requires Inv(channel, r) && IsChannel(channel)
    ensures Inv(channel, Promote(channel, r, a))
  {
    PromoteAdds(channel, r, a);
    var names, names' := Uploaded(r.assets), Uploaded(Promote(channel, r, a).assets);
    if IsGeneration(a.g) && a.g >= TransactionFloor(channel, names) {
      WantedAre(channel, a.g);
      var missing := Missing(Wanted(channel, a.g), names);
      MissingAre(Wanted(channel, a.g), names);
      AppendKeeps(channel, a.g, names, missing[..Min(a.done, |missing|)]);
    }
  }

  lemma {:induction false} AppendKeeps(channel: string, g: nat, names: seq<string>, more: seq<string>)
    requires IsGeneration(g) && Distinct(names) && Backed(channel, names)
    requires var missing := Missing(Wanted(channel, g), names); more <= missing
    ensures Distinct(names + more) && Backed(channel, names + more)
  {
    var missing := Missing(Wanted(channel, g), names);
    WantedAre(channel, g);
    MissingAre(Wanted(channel, g), names);
    assert forall i :: 0 <= i < |more| ==> more[i] == missing[i] && missing[i] in missing;
    forall x | x in names + more && ParseHistory(channel, x).Some?
      ensures TransactionName(channel, ParseHistory(channel, x).value) in names + more
    {
      if x !in names {
        assert x in missing && x in Wanted(channel, g) && ParseHistory(channel, x) == Some(g);
        if TransactionName(channel, g) !in names { assert more[0] == TransactionName(channel, g); }
      }
    }
  }

  lemma {:induction false} RunKeepsInv(channel: string, attempts: seq<Attempt>)
    requires IsChannel(channel)
    ensures Inv(channel, Run(channel, attempts))
  {
    if attempts != [] {
      RunKeepsInv(channel, attempts[..|attempts| - 1]);
      PromoteKeepsInv(channel, Run(channel, attempts[..|attempts| - 1]), attempts[|attempts| - 1]);
    }
  }

  /** Over any run of attempts, cut short anywhere: history never overtakes the
      authenticated transactions, and the next attempt never lowers the floor;
      it is accepted exactly when its generation is not below the floor, and
      uploaded names only ever grow. */
  lemma {:induction false} FloorNeverDecreases(channel: string, attempts: seq<Attempt>, a: Attempt)
    requires IsChannel(channel)
    ensures var names, names' := Uploaded(Run(channel, attempts).assets), Uploaded(Promote(channel, Run(channel, attempts), a).assets);
      && HistoryFloor(channel, names) <= TransactionFloor(channel, names) <= TransactionFloor(channel, names')
      && names <= names'
      && (names' != names ==> IsGeneration(a.g) && a.g == TransactionFloor(channel, names'))
  {
    RunKeepsInv(channel, attempts);
    var r := Run(channel, attempts);
    BackedFloors(channel, Uploaded(r.assets));
    PromoteAdds(channel, r, a);
    var names, names' := Uploaded(r.assets), Uploaded(Promote(channel, r, a).assets);
    if names' != names { TopIsRequested(channel, a.g, names, names'[|names|..]); }
  }

  /** Adding some of a generation's names, the transaction first, to names whose
      floor it reaches makes it the floor. */
  lemma {:induction false} TopIsRequested(channel: string, g: nat, names: seq<string>, more: seq<string>)
    requires IsGeneration(g) && g >= TransactionFloor(channel, names)
    requires var missing := Missing(Wanted(channel, g), names); more != [] && more <= missing
    ensures TransactionFloor(channel, names + more) == g
  {
    WantedAre(channel, g);
    MissingAre(Wanted(channel, g), names);
    TransactionFloorIs(channel, names);
    TransactionFloorIs(channel, names + more);
    var f, missing := TransactionFloor(channel, names + more), Missing(Wanted(channel, g), names);
    assert TransactionName(channel, g) in names || more[0] == TransactionName(channel, g);
    assert TransactionName(channel, g) in names + more;
    if TransactionName(channel, f) !in names {
      var i :| 0 <= i < |more| && more[i] == TransactionName(channel, f);
      assert missing[i] in missing;
      TransactionNameIff(channel, TransactionName(channel, f), f);
      NamesApart(channel, TransactionName(channel, f));
      HistoryNameIff(channel, HistoryName(channel, g), g);
      HistoryNameIff(channel, BundleName(channel, g), g);
      TransactionNameIff(channel, TransactionName(channel, g), g);
    }
  }

  /** An attempt run to its end leaves all three of its names uploaded, with
      both floors at its generation. */
  lemma {:induction false} CompleteAttempt(channel: string, r: Release, a: Attempt)
    requires Inv(channel, r) && IsChannel(channel) && IsGeneration(a.g) && a.done >= 3
    requires a.g >= TransactionFloor(channel, Uploaded(r.assets))
    ensures var names := Uploaded(Promote(channel, r, a).assets);
      && (forall x :: x in Wanted(channel, a.g) ==> x in names)
      && TransactionFloor(channel, names) == HistoryFloor(channel, names) == a.g
  {
    PromoteAdds(channel, r, a);
    PromoteKeepsInv(channel, r, a);
    var names := Uploaded(r.assets);
    var missing := Missing(Wanted(channel, a.g), names);
    AtMostThree(Wanted(channel, a.g), names);
    assert missing[..|missing|] == missing;
    CompleteNames(channel, a.g, names);
  }

  /** The same on names. */
  lemma {:induction false} CompleteNames(channel: string, g: nat, names: seq<string>)
    requires IsGeneration(g) && g >= TransactionFloor(channel, names)
    requires Backed(channel, names + Missing(Wanted(channel, g), names))
    ensures var all := names + Missing(Wanted(channel, g), names);
      && (forall x :: x in Wanted(channel, g) ==> x in all)
      && TransactionFloor(channel, all) == HistoryFloor(channel, all) == g
  {
    var missing := Missing(Wanted(channel, g), names);
    AllThreeUploaded(channel, g, names);
    if missing == [] {
      assert names + missing == names;
      TransactionFloorIs(channel, names);
    } else {
      TopIsRequested(channel, g, names, missing);
    }
    BackedFloors(channel, names + missing);
  }

  lemma {:induction false} AllThreeUploaded(channel: string, g: nat, names: seq<string>)
    requires IsGeneration(g)
    ensures var all := names + Missing(Wanted(channel, g), names);
      && (forall x :: x in Wanted(channel, g) ==> x in all)
      && TransactionName(channel, g) in all && HistoryFloor(channel, all) >= g
  {
    WantedAre(channel, g);
    MissingAre(Wanted(channel, g), names);
    var all := names + Missing(Wanted(channel, g), names);
    assert TransactionName(channel, g) in Wanted(channel, g) && HistoryName(channel, g) in Wanted(channel, g);
    HistoryNameIff(channel, HistoryName(channel, g), g);
    HistoryFloorIs(channel, all);
  }

  /** After an interruption anywhere, the same generation is accepted again and
      the new attempt completes it. */
  lemma {:induction false} RetryCompletes(channel: string, attempts: seq<Attempt>, a: Attempt, again: Attempt)
    requires IsChannel(channel) && IsGeneration(a.g) && again.g == a.g && again.done >= 3
    requires a.g >= TransactionFloor(channel, Uploaded(Run(channel, attempts).assets))
    ensures var names := Uploaded(Run(channel, attempts + [a] + [again]).assets);
      && (forall x :: x in Wanted(channel, a.g) ==> x in names)
      && TransactionFloor(channel, names) == HistoryFloor(channel, names) == a.g
  {
    var mid := attempts + [a];
    assert mid[..|attempts|] == attempts && (mid + [again])[..|mid|] == mid;
    FloorNeverDecreases(channel, attempts, a);
    RunKeepsInv(channel, mid);
    CompleteAttempt(channel, Run(channel, mid), again);
  }

  lemma {:induction false} AtMostThree(wanted: seq<string>, names: seq<string>)
    ensures |Missing(wanted, names)| <= |wanted|
  {
    if wanted != [] { AtMostThree(wanted[1..], names); }
  }
}
