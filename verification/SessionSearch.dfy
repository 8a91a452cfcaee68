/**
 Transcript search: matching one thread, scanning the key namespace page by
 page with two cut-offs, and draining it by the returned cursor.
 */
module SessionSearch {
  import opened Prelude
  import opened SessionModel

  const MAX_LIST_LIMIT: nat := 200
  const MAX_SEARCH_LIMIT: nat := 100
  const DEFAULT_SEARCH_LIMIT: nat := 20
  const SEARCH_KEY_SCAN_BUDGET: nat := 200
  const SNIPPET_MAX_CHARS: nat := 120
  const U32_MAX: nat := 0xFFFF_FFFF

  // ---- Matching one thread ----

  function LowerChar(c: char): char { if 'A' <= c <= 'Z' then (c as int + 32) as char else c }

  function Lower(s: string): string { seq(|s|, i requires 0 <= i < |s| => LowerChar(s[i])) }

  function FirstText(parts: seq<Part>): Option<string> {
    if parts == [] then None else if parts[0].TextPart? then Some(parts[0].text) else FirstText(parts[1..])
  }

  function MessageText(m: Message): Option<string> {
    match m.content
    case Text(t) => Some(t)
    case MultiPart(parts) => FirstText(parts)
    case ToolCalls(_) => None
    case ToolResult(_, _) => None
  }

  predicate OccursAt(text: string, q: string, p: nat) { p + |q| <= |text| && text[p..p + |q|] == q }

  /** `str::find`, looking from position `from` on. */
  function Find(text: string, q: string, from: nat): Option<nat>
    requires from <= |text|
    decreases |text| - from
  {
    if OccursAt(text, q, from) then Some(from)
    else if from == |text| then None
    else Find(text, q, from + 1)
  }

  /** It finds the first occurrence, and none only when there is none. */
  lemma {:induction false} FindIsFirst(text: string, q: string, from: nat)
    requires from <= |text|
    ensures var r := Find(text, q, from);
      if r.Some? then from <= r.value && OccursAt(text, q, r.value) && forall p :: from <= p < r.value ==> !OccursAt(text, q, p)
      else forall p :: from <= p ==> !OccursAt(text, q, p)
    decreases |text| - from
  {
    if !OccursAt(text, q, from) && from < |text| { FindIsFirst(text, q, from + 1); }
  }

  /** Where the query first occurs in a message's text, if at all. */
  function MatchAt(m: Message, q: string): Option<nat> {
    match MessageText(m)
    case None => None
    case Some(text) => Find(Lower(text), q, 0)
  }

  // ---- What it means to match ----

  /** `t` is the text a message is searched in: its plain text, or the first text
      among its parts. Tool calls and results have none. */
  predicate HasText(m: Message, t: string) {
    || m.content == Text(t)
    || (m.content.MultiPart? && exists i :: 0 <= i < |m.content.parts| && FirstPart(m.content.parts, i, t))
  }

  predicate FirstPart(parts: seq<Part>, i: nat, t: string)
    requires i < |parts|
  {
    parts[i] == TextPart(t) && forall j :: 0 <= j < i ==> parts[j].ImagePart?
  }

  lemma {:induction false} FirstTextIs(parts: seq<Part>, t: string)
    ensures FirstText(parts) == Some(t) <==> exists i :: 0 <= i < |parts| && FirstPart(parts, i, t)
    decreases |parts|
  {
    if parts != [] {
      FirstTextIs(parts[1..], t);
      if parts[0].TextPart? {
        if parts[0].text == t { assert FirstPart(parts, 0, t); }
      } else {
        if i :| 0 <= i < |parts| && FirstPart(parts, i, t) {
          assert FirstPart(parts[1..], i - 1, t);
        }
        if i :| 0 <= i < |parts| - 1 && FirstPart(parts[1..], i, t) {
          assert FirstPart(parts, i + 1, t);
        }
      }
    }
  }

  lemma {:induction false} MessageTextIs(m: Message, t: string)
    ensures MessageText(m) == Some(t) <==> HasText(m, t)
  {
    if m.content.MultiPart? { FirstTextIs(m.content.parts, t); }
  }

  /** Two letters that differ at most in case. */
  predicate SameLetter(a: char, b: char) {
    a == b || ('A' <= a <= 'Z' && b as int == a as int + 32) || ('A' <= b <= 'Z' && a as int == b as int + 32)
  }

  /** The query occurs in the text at `p`, letter case aside. */
  predicate ReadsAt(text: string, query: string, p: nat) {
    p + |query| <= |text| && forall i :: 0 <= i < |query| ==> SameLetter(text[p + i], query[i])
  }

  lemma {:induction false} LowerOccurs(text: string, query: string, p: nat)
    ensures OccursAt(Lower(text), Lower(query), p) <==> ReadsAt(text, query, p)
  {
    if p + |query| <= |text| {
      var part := Lower(text)[p..p + |query|];
      assert forall i :: 0 <= i < |query| ==> part[i] == LowerChar(text[p + i]) && Lower(query)[i] == LowerChar(query[i]);
      if OccursAt(Lower(text), Lower(query), p) {
        forall i | 0 <= i < |query| ensures SameLetter(text[p + i], query[i]) { assert part[i] == Lower(query)[i]; }
      }
      if ReadsAt(text, query, p) { assert part == Lower(query); }
    }
  }

  /** A message matches a query: the query occurs in its text, case aside. */
  ghost predicate Matches(m: Message, query: string) { exists t, p: nat :: HasText(m, t) && ReadsAt(t, query, p) }

  /** A message counts exactly when it matches. */
  lemma {:induction false} MatchAtIff(m: Message, query: string)
    ensures MatchAt(m, Lower(query)).Some? <==> Matches(m, query)
  {
    var text := MessageText(m);
    if text.Some? {
      MessageTextIs(m, text.value);
      FindIsFirst(Lower(text.value), Lower(query), 0);
      if MatchAt(m, Lower(query)).Some? { LowerOccurs(text.value, query, MatchAt(m, Lower(query)).value); }
    }
    if Matches(m, query) {
      var t, p: nat :| HasText(m, t) && ReadsAt(t, query, p);
      MessageTextIs(m, t);
      LowerOccurs(t, query, p);
    }
  }

  /** The positions of the matching messages among the first `n`. */
  ghost function MatchingAmong(ms: seq<Message>, query: string, n: nat): set<nat>
    requires n <= |ms|
  {
    set i: nat | i < n && Matches(ms[i], query)
  }

  /** The count is the number of matching messages. */
  lemma {:induction false} CountIsMatching(ms: seq<Message>, query: string, n: nat)
    requires n <= |ms|
    ensures CountMatches(ms[..n], Lower(query)) == |MatchingAmong(ms, query, n)|
    decreases n
  {
    if n == 0 {
      assert MatchingAmong(ms, query, 0) == {};
    } else {
      CountIsMatching(ms, query, n - 1);
      CountSnoc(ms, n - 1, Lower(query));
      MatchAtIff(ms[n - 1], query);
      var before := MatchingAmong(ms, query, n - 1);
      assert MatchingAmong(ms, query, n) == if Matches(ms[n - 1], query) then before + {n - 1} else before;
    }
  }

  function CountMatches(ms: seq<Message>, q: string): nat {
    if ms == [] then 0 else CountMatches(ms[..|ms| - 1], q) + (if MatchAt(ms[|ms| - 1], q).Some? then 1 else 0)
  }

  lemma {:induction false} CountSnoc(ms: seq<Message>, i: nat, q: string)
    requires i < |ms|
    ensures CountMatches(ms[..i + 1], q) == CountMatches(ms[..i], q) + (if MatchAt(ms[i], q).Some? then 1 else 0)
  {
    assert ms[..i + 1][..i] == ms[..i];
  }

  /** The count is positive exactly when some message matches. */
  lemma {:induction false} CountPositiveIff(ms: seq<Message>, q: string)
    ensures CountMatches(ms, q) > 0 <==> exists i :: 0 <= i < |ms| && MatchAt(ms[i], q).Some?
  {
    if ms != [] {
      var n := |ms| - 1;
      CountPositiveIff(ms[..n], q);
      if CountMatches(ms[..n], q) > 0 {
        var i :| 0 <= i < n && MatchAt(ms[..n][i], q).Some?;
        assert MatchAt(ms[i], q).Some?;
      }
      if i :| 0 <= i < |ms| && MatchAt(ms[i], q).Some? {
        assert i < n ==> ms[..n][i] == ms[i];
      }
    }
  }

  datatype Window = Window(start: nat, end: nat)

  /** The excerpt window of `snippet_around`, in characters of the text. */
  function SnippetWindow(total: nat, pos: nat): Window {
    var start := SatSub(pos, SNIPPET_MAX_CHARS / 2);
    var end := Min(start + SNIPPET_MAX_CHARS, total);
    Window(SatSub(end, SNIPPET_MAX_CHARS), end)
  }

  /** The window is as large as it can be and shows the match: all of it when
      the query is at most half a window long, its start in any case. */
  lemma {:induction false} WindowShowsMatch(total: nat, pos: nat, length: nat)
    requires 0 < length && pos + length <= total
    ensures var w := SnippetWindow(total, pos);
      && w.end <= total && w.end - w.start == Min(SNIPPET_MAX_CHARS, total)
      && w.start <= pos < w.end
      && (length <= SNIPPET_MAX_CHARS / 2 ==> pos + length <= w.end)
  {
  }

  const ELLIPSIS: char := '\U{2026}'

  function Trim(s: string): string { TrimEnd(TrimStart(s)) }

  /** `snippet_around`: the trimmed window, with an ellipsis where text is cut. */
  function SnippetAround(text: string, pos: nat): string
    requires pos <= |text|
  {
    var w := SnippetWindow(|text|, pos);
    (if w.start > 0 then [ELLIPSIS] else []) + Trim(text[w.start..w.end]) + (if w.end < |text| then [ELLIPSIS] else [])
  }

  /** The excerpt of a thread: around the first match of its first matching message. */
  function Excerpt(ms: seq<Message>, q: string): string {
    if ms == [] then ""
    else
      var n := |ms| - 1;
      if CountMatches(ms[..n], q) > 0 then Excerpt(ms[..n], q)
      else MessageExcerpt(ms[n], q)
  }

  function MessageExcerpt(m: Message, q: string): string {
    match MessageText(m)
    case None => ""
    case Some(text) =>
      FindIsFirst(Lower(text), q, 0);
      var at := Find(Lower(text), q, 0);
      if at.None? then "" else SnippetAround(text, at.value)
  }

  // ---- What an excerpt shows ----

  ghost predicate Contains(text: string, q: string) { exists p {:trigger OccursAt(text, q, p)} :: 0 <= p && OccursAt(text, q, p) }

  /** Trimming cuts blanks only: what remains lies between `a` and `b`. */
  lemma {:induction false} TrimStartCuts(s: string) returns (a: nat)
    ensures a <= |s| && TrimStart(s) == s[a..] && forall i :: 0 <= i < a ==> IsSpace(s[i])
  {
    a := 0;
    if s != "" && IsSpace(s[0]) {
      var b := TrimStartCuts(s[1..]);
      a := b + 1;
      assert s[1..][b..] == s[a..];
      forall i | 0 <= i < a ensures IsSpace(s[i]) { assert i > 0 ==> s[1..][i - 1] == s[i]; }
    }
  }

  lemma {:induction false} TrimEndCuts(s: string) returns (b: nat)
    ensures b <= |s| && TrimEnd(s) == s[..b] && forall i :: b <= i < |s| ==> IsSpace(s[i])
  {
    b := |s|;
    if s != "" && IsSpace(s[|s| - 1]) {
      b := TrimEndCuts(s[..|s| - 1]);
      assert s[..|s| - 1][..b] == s[..b];
      forall i | b <= i < |s| ensures IsSpace(s[i]) { assert i < |s| - 1 ==> s[..|s| - 1][i] == s[i]; }
    } else {
      assert s[..|s|] == s;
    }
  }

  lemma {:induction false} TrimCuts(s: string) returns (a: nat, b: nat)
    ensures a <= b <= |s| && Trim(s) == s[a..b]
    ensures forall i :: 0 <= i < |s| && !IsSpace(s[i]) ==> a <= i < b
  {
    a := TrimStartCuts(s);
    var c := TrimEndCuts(s[a..]);
    b := a + c;
    assert s[a..][..c] == s[a..b];
    forall i | 0 <= i < |s| && !IsSpace(s[i]) ensures a <= i < b { assert i >= a ==> s[a..][i - a] == s[i]; }
  }

  /** A query that begins and ends with something visible. */
  predicate Visible(q: string) { q != "" && !IsSpace(q[0]) && !IsSpace(q[|q| - 1]) }

  lemma {:induction false} LowerSlice(s: string, a: nat, b: nat)
    requires a <= b <= |s|
    ensures Lower(s)[a..b] == Lower(s[a..b])
  {
  }

  /** Trimming keeps an occurrence that begins and ends visibly. */
  lemma {:induction false} TrimKeepsMatch(s: string, q: string, p: nat)
    requires Visible(q) && OccursAt(Lower(s), q, p)
    ensures Contains(Lower(Trim(s)), q)
  {
    var a, b := TrimCuts(s);
    var last := p + |q| - 1;
    assert Lower(s)[p] == q[0] && Lower(s)[last] == q[|q| - 1] by {
      assert Lower(s)[p..p + |q|][0] == q[0] && Lower(s)[p..p + |q|][|q| - 1] == q[|q| - 1];
    }
    assert !IsSpace(s[p]) && !IsSpace(s[last]);
    LowerSlice(s, a, b);
    assert Lower(s)[a..b][p - a..p - a + |q|] == Lower(s)[p..p + |q|];
    assert OccursAt(Lower(Trim(s)), q, p - a);
  }

  lemma {:induction false} AroundKeepsMatch(before: string, s: string, after: string, q: string)
    requires Contains(Lower(s), q)
    ensures Contains(Lower(before + s + after), q)
  {
    var p :| 0 <= p && OccursAt(Lower(s), q, p);
    var whole := before + s + after;
    assert Lower(whole)[|before|..|before| + |s|] == Lower(s);
    assert Lower(whole)[|before| + p..|before| + p + |q|] == Lower(s)[p..p + |q|];
    assert OccursAt(Lower(whole), q, |before| + p);
  }

  lemma {:induction false} SliceOccurs(text: string, q: string, p: nat, a: nat, b: nat)
    requires OccursAt(text, q, p) && a <= p && p + |q| <= b <= |text|
    ensures OccursAt(text[a..b], q, p - a)
  {
    var here := text[a..b];
    forall j | 0 <= j < |q| ensures here[p - a + j] == q[j] { assert text[p..p + |q|][j] == q[j]; }
    assert here[p - a..p - a + |q|] == q;
  }

  /** The excerpt shows the match: a query of at most half a window that begins
      and ends visibly occurs in it. */
  lemma {:induction false} SnippetShowsMatch(text: string, q: string, pos: nat)
    requires Visible(q) && |q| <= SNIPPET_MAX_CHARS / 2 && OccursAt(Lower(text), q, pos)
    ensures Contains(Lower(SnippetAround(text, pos)), q)
  {
    var w := SnippetWindow(|text|, pos);
    WindowShowsMatch(|text|, pos, |q|);
    LowerSlice(text, w.start, w.end);
    SliceOccurs(Lower(text), q, pos, w.start, w.end);
    TrimKeepsMatch(text[w.start..w.end], q, pos - w.start);
    AroundKeepsMatch(if w.start > 0 then [ELLIPSIS] else [], Trim(text[w.start..w.end]), if w.end < |text| then [ELLIPSIS] else [], q);
  }

  /** So every thread that matches such a query is listed with an excerpt
      that shows it. */
  lemma {:induction false} ExcerptShowsMatch(ms: seq<Message>, q: string)
    requires CountMatches(ms, q) > 0 && Visible(q) && |q| <= SNIPPET_MAX_CHARS / 2
    ensures Contains(Lower(Excerpt(ms, q)), q)
  {
    var n := |ms| - 1;
    if CountMatches(ms[..n], q) > 0 {
      ExcerptShowsMatch(ms[..n], q);
    } else {
      var text := MessageText(ms[n]).value;
      FindIsFirst(Lower(text), q, 0);
      SnippetShowsMatch(text, q, Find(Lower(text), q, 0).value);
    }
  }

  datatype Found = Found(count: nat, snippet: string)

  /** `search_messages`: how many messages match (saturating at u32), and the
      excerpt around the first match. */
  method SearchMessages(ms: seq<Message>, q: string) returns (r: Option<Found>)
    ensures r.None? <==> CountMatches(ms, q) == 0
    ensures r.Some? ==> r.value == Found(Min(CountMatches(ms, q), U32_MAX), Excerpt(ms, q))
  {
    var count := 0;
    var snippet: Option<string> := None;
    var i := 0;
    while i < |ms|
      invariant 0 <= i <= |ms| && count == Min(CountMatches(ms[..i], q), U32_MAX)
      invariant snippet == if CountMatches(ms[..i], q) == 0 then None else Some(Excerpt(ms[..i], q))
    {
      CountSnoc(ms, i, q);
      assert ms[..i + 1][..i] == ms[..i];
      var text := MessageText(ms[i]);
      if text.Some? {
        var pos := Find(Lower(text.value), q, 0);
        if pos.Some? {
          count := Min(count + 1, U32_MAX);
          FindIsFirst(Lower(text.value), q, 0);
          if snippet.None? { snippet := Some(SnippetAround(text.value, pos.value)); }
        }
      }
      i := i + 1;
    }
    assert ms[..i] == ms;
    r := if count == 0 then None else Some(Found(count, snippet.value));
  }

  // ---- The namespace ----

  /** A stored thread under a key; keys are numbered by the host's key order. */
  datatype Thread = Thread(key: nat, data: SessionData)

  predicate InKeyOrder(ns: seq<Thread>) { forall i, j :: 0 <= i < j < |ns| ==> ns[i].key < ns[j].key }

  /** The threads strictly after a cursor. */
  function Following(ns: seq<Thread>, cursor: Option<nat>): seq<Thread> {
    if ns == [] || cursor.None? || ns[0].key > cursor.value then ns else Following(ns[1..], cursor)
  }

  function Keys(ns: seq<Thread>): seq<nat> { seq(|ns|, i requires 0 <= i < |ns| => ns[i].key) }

  datatype Page = Page(keys: seq<nat>, next: Option<nat>)

  type Pager = (Option<nat>, nat) -> Page

  /** What is assumed of `kv::list_keys_page`: a page holds the next keys after
      the cursor, at most `limit` but possibly fewer, none only at the end; its
      cursor is its last key, absent only when nothing follows. */
  ghost predicate HonestPager(ns: seq<Thread>, pager: Pager) {
    forall cursor, limit {:trigger pager(cursor, limit)} :: limit > 0 ==>
      var page, rest := pager(cursor, limit), Keys(Following(ns, cursor));
      && page.keys <= rest && |page.keys| <= limit
      && (page.keys == [] ==> rest == [])
      && (page.next.None? ==> page.keys == rest)
      && (page.keys != [] && page.next.Some? ==> page.next.value == page.keys[|page.keys| - 1])
  }

  datatype Query = Query(text: string, includeArchived: bool, requested: Option<nat>)

  /** `clamp_search_limit`: the effective limit of a call. */
  function Limit(q: Query): (n: nat)
    ensures 1 <= n <= 100
    ensures q.requested.None? ==> n == 20
    ensures q.requested.Some? && 1 <= q.requested.value <= 100 ==> n == q.requested.value
    ensures q.requested.Some? && q.requested.value > 100 ==> n == 100
  {
    match q.requested
    case None => DEFAULT_SEARCH_LIMIT
    case Some(n) => if n == 0 then 1 else Min(n, MAX_SEARCH_LIMIT)
  }

  /** Visible, and some message matches. */
  predicate IsHit(t: Thread, q: Query) {
    (!t.data.archived || q.includeArchived) && CountMatches(t.data.messages, Lower(q.text)) > 0
  }

  datatype Hit = Hit(key: nat, title: Option<string>, snippet: string, count: nat, updatedAt: Option<nat>)

  function HitOf(t: Thread, q: Query): Hit {
    Hit(t.key, t.data.title, Excerpt(t.data.messages, Lower(q.text)),
        Min(CountMatches(t.data.messages, Lower(q.text)), U32_MAX), t.data.updatedAt)
  }

  function Hits(ts: seq<Thread>, q: Query): seq<Hit> {
    if ts == [] then [] else Hits(ts[..|ts| - 1], q) + (if IsHit(ts[|ts| - 1], q) then [HitOf(ts[|ts| - 1], q)] else [])
  }

  datatype Batch = Batch(hits: seq<Hit>, next: Option<nat>)

  /** Whether the scan stops at `t`, its last key so far, having scanned `n`
      keys and collected `hits`. */
  predicate CutOff(t: Thread, hits: seq<Hit>, n: nat, q: Query) {
    (IsHit(t, q) && |hits| >= Limit(q)) || n >= SEARCH_KEY_SCAN_BUDGET
  }

  /** The reference meaning of one call: scan threads one by one, whatever the
      pages, until a cut-off or the end. */
  function Scan(ts: seq<Thread>, i: nat, q: Query): Batch
    requires i <= |ts|
    decreases |ts| - i
  {
    if i == |ts| then Batch(Hits(ts, q), None)
    else if CutOff(ts[i], Hits(ts[..i + 1], q), i + 1, q) then Batch(Hits(ts[..i + 1], q), Some(ts[i].key))
    else Scan(ts, i + 1, q)
  }

  lemma {:induction false} HitsSnoc(ts: seq<Thread>, i: nat, q: Query)
    requires i < |ts|
    ensures Hits(ts[..i + 1], q) == Hits(ts[..i], q) + (if IsHit(ts[i], q) then [HitOf(ts[i], q)] else [])
  {
    assert ts[..i + 1][..i] == ts[..i];
  }

  /** Following a key of the namespace is dropping everything up to it. */
  lemma {:induction false} FollowingKey(ns: seq<Thread>, cursor: Option<nat>, n: nat)
    requires InKeyOrder(ns)
    requires var rest := Following(ns, cursor); 0 < n <= |rest|
    ensures var rest := Following(ns, cursor); Following(ns, Some(rest[n - 1].key)) == rest[n..]
    decreases |ns|
  {
    var rest := Following(ns, cursor);
    if ns != [] && cursor.Some? && ns[0].key <= cursor.value {
      FollowingKey(ns[1..], cursor, n);
      FollowingSuffix(ns[1..], cursor);
      assert rest[n - 1] in ns[1..];
      var k :| 1 <= k < |ns| && ns[k] == rest[n - 1];
      assert ns[0].key < ns[k].key;
    } else {
      DropThrough(ns, n);
    }
  }

  lemma {:induction false} FollowingSuffix(ns: seq<Thread>, cursor: Option<nat>)
    ensures forall t :: t in Following(ns, cursor) ==> t in ns
    decreases |ns|
  {
    if ns != [] && cursor.Some? && ns[0].key <= cursor.value { FollowingSuffix(ns[1..], cursor); }
  }

  lemma {:induction false} DropThrough(ns: seq<Thread>, n: nat)
    requires InKeyOrder(ns) && 0 < n <= |ns|
    ensures Following(ns, Some(ns[n - 1].key)) == ns[n..]
    decreases n
  {
    if n == 1 {
      if |ns| > 1 { assert ns[0].key < ns[1].key; assert ns[1..][0] == ns[1]; }
    } else {
      assert ns[0].key < ns[n - 1].key;
      assert ns[1..][n - 2] == ns[n - 1];
      DropThrough(ns[1..], n - 1);
    }
  }

  /** What one page says about the rest of the namespace. */
  lemma {:induction false} PageCovers(ns: seq<Thread>, pager: Pager, cursor: Option<nat>, limit: nat)
    requires InKeyOrder(ns) && HonestPager(ns, pager) && limit > 0
    ensures var page, rest := pager(cursor, limit), Following(ns, cursor);
      && page.keys <= Keys(rest)
      && (page.keys == [] ==> rest == [])
      && (page.next.None? ==> |page.keys| == |rest|)
      && (page.keys != [] && page.next.Some? ==> Following(ns, page.next) == rest[|page.keys|..])
  {
    var page := pager(cursor, limit);
    if page.keys != [] && page.next.Some? { FollowingKey(ns, cursor, |page.keys|); }
  }

  /** `kv::list_keys_page`. */
  method NextPage(pager: Pager, cursor: Option<nat>, ghost ns: seq<Thread>, ghost rest: seq<Thread>) returns (page: Page)
    requires InKeyOrder(ns) && HonestPager(ns, pager) && Following(ns, cursor) == rest
    ensures Listing(page.keys, 0, rest)
    ensures page.keys == [] ==> rest == []
    ensures page.next.None? ==> |page.keys| == |rest|
    ensures page.keys != [] && page.next.Some? ==> Following(ns, page.next) == rest[|page.keys|..]
  {
    PageCovers(ns, pager, cursor, MAX_LIST_LIMIT);
    page := pager(cursor, MAX_LIST_LIMIT);
    PageIsListing(page.keys, rest);
  }

  lemma {:induction false} PageIsListing(keys: seq<nat>, rest: seq<Thread>)
    requires keys <= Keys(rest)
    ensures Listing(keys, 0, rest)
  {
    forall i | 0 <= i < |keys| ensures keys[i] == rest[i].key { assert keys[i] == Keys(rest)[i]; }
  }

  // ---- The store under the search ----

  type Cells = map<nat, Blob>

  /** The cells hold, for readers, the threads `ns`. */
  ghost predicate Shows(cells: Cells, ns: seq<Thread>) {
    forall t :: t in ns ==> t.key in cells && View(Some(cells[t.key])) == t.data
  }

  /** What a search may have made of the cells so far. */
  ghost predicate Searched(before: Cells, cells: Cells, ns: seq<Thread>) { Shows(cells, ns) && OnlyMigrated(before, cells) }

  /** At most migrations lead from `before` to `after`: each cell is as it was,
      or held an older version and now holds the same record upgraded. */
  ghost predicate OnlyMigrated(before: Cells, after: Cells) {
    && after.Keys == before.Keys
    && forall k :: k in before ==> after[k] == before[k] || Some(after[k]) == Upgraded(Some(before[k]))
  }

  /** Loading a key migrates an old version in place, if the swap goes through. */
  function AfterLoad(cells: Cells, key: nat, swapped: bool): Cells
    requires key in cells
  {
    if swapped && NeedsMigration(cells[key]) then cells[key := Serialize(View(Some(cells[key])))] else cells
  }

  lemma {:induction false} LoadKeeps(before: Cells, cells: Cells, ns: seq<Thread>, key: nat, swapped: bool)
    requires OnlyMigrated(before, cells) && Shows(cells, ns) && key in cells
    ensures OnlyMigrated(before, AfterLoad(cells, key, swapped)) && Shows(AfterLoad(cells, key, swapped), ns)
  {
    if swapped && NeedsMigration(cells[key]) {
      var after := AfterLoad(cells, key, swapped);
      ViewOfWritten(View(Some(cells[key])));
    }
  }

  /** The stored sessions of one principal, old schema versions included. */
  class Sessions {
    var cells: Cells

    constructor (initial: Cells)
      ensures cells == initial
    {
      cells := initial;
    }

    /** `SessionData::load`; a migration swap that does not happen is no error. */
    method Load(key: nat, swapped: bool) returns (data: SessionData)
      requires key in cells
      modifies this
      ensures data == View(Some(old(cells)[key])) && cells == AfterLoad(old(cells), key, swapped)
      ensures ReadsAs(Some(old(cells)[key]), data)
      ensures cells == if swapped then old(cells)[key := Upgraded(Some(old(cells)[key])).value] else old(cells)
    {
      ViewReads(Some(cells[key]));
      var bytes := cells[key];
      match Migrate(Parse(bytes))
      case Unrecognized(reset) =>
        data := reset;
      case Migrated(migrated, needsSave) =>
        data := migrated;
        if needsSave && swapped { cells := cells[key := Serialize(migrated)]; }
    }

    /** One key: its hit is added, if it is one. `swaps` are the keys whose
        migration would go through. */
    method ScanKey(key: nat, q: Query, hits: seq<Hit>, swaps: set<nat>, ghost t: Thread, ghost ns: seq<Thread>, ghost before: Cells) returns (hit: bool, more: seq<Hit>)
      requires Searched(before, cells, ns) && t in ns && key == t.key
      modifies this
      ensures Searched(before, cells, ns)
      ensures hit == IsHit(t, q) && more == if hit then hits + [HitOf(t, q)] else hits
    {
      LoadKeeps(before, cells, ns, key, key in swaps);
      var data := Load(key, key in swaps);
      hit, more := false, hits;
      if !data.archived || q.includeArchived {
        var found := SearchMessages(data.messages, Lower(q.text));
        hit := found.Some?;
        if hit {
          more := hits + [Hit(key, data.title, found.value.snippet, found.value.count, data.updatedAt)];
        }
      }
    }

    /** The key loop over one page: either it stops at a key, with the batch the
        scan gives, or the scan goes on after the page. `rest` are the threads
        from the page on, `goal` is what scanning them comes to. */
    method ScanPage(keys: seq<nat>, q: Query, hits0: seq<Hit>, scanned0: nat, swaps: set<nat>,
                    ghost ns: seq<Thread>, ghost rest0: seq<Thread>, ghost before: Cells, ghost goal: Batch)
      returns (hits: seq<Hit>, scanned: nat, stop: Option<nat>, ghost rest: seq<Thread>)
      requires Searched(before, cells, ns) && Among(rest0, ns) && Listing(keys, 0, rest0)
      requires ScanRest(rest0, scanned0, hits0, q) == goal
      modifies this
      ensures Searched(before, cells, ns)
      ensures stop.Some? ==> goal == Batch(hits, stop)
      ensures stop.None? ==> rest == rest0[|keys|..] && ScanRest(rest, scanned, hits, q) == goal
    {
      hits, scanned, stop, rest := hits0, scanned0, None, rest0;
      var i := 0;
      while i < |keys|
        invariant 0 <= i <= |keys| <= |rest0| && rest == rest0[i..]
        invariant Searched(before, cells, ns) && Among(rest, ns) && Listing(keys, i, rest)
        invariant ScanRest(rest, scanned, hits, q) == goal
      {
        ghost var t, sofar := rest[0], hits;
        var hit;
        hit, hits := ScanKey(keys[i], q, hits, swaps, t, ns, before);
        ScanOneMore(rest, scanned, sofar, hits, hit, q);
        scanned := scanned + 1;
        if hit && |hits| >= Limit(q) { return hits, scanned, Some(keys[i]), rest; }
        if scanned >= SEARCH_KEY_SCAN_BUDGET { return hits, scanned, Some(keys[i]), rest; }
        DropOne(rest0, i);
        ListingNext(keys, i, rest, ns);
        i, rest := i + 1, rest[1..];
      }
    }

    /** `do_search`: the nested page and key loop computes the scan, for every
        honest pager, so the way the host cuts its pages does not show, and
        readers see the same threads after it as before. */
    method DoSearch(pager: Pager, q: Query, cursor: Option<nat>, swaps: set<nat>, ghost ns: seq<Thread>) returns (b: Batch)
      requires Shows(cells, ns) && InKeyOrder(ns) && HonestPager(ns, pager)
      modifies this
      ensures Shows(cells, ns) && OnlyMigrated(old(cells), cells)
      ensures b == if q.text == "" then Batch([], None) else Scan(Following(ns, cursor), 0, q)
    {
      if |Lower(q.text)| == 0 { return Batch([], None); }
      FollowingSuffix(ns, cursor);
      b := ScanPages(pager, q, cursor, swaps, ns, cells, Scan(Following(ns, cursor), 0, q));
    }

    /** Its page loop. */
    method ScanPages(pager: Pager, q: Query, cursor: Option<nat>, swaps: set<nat>,
                     ghost ns: seq<Thread>, ghost before: Cells, ghost goal: Batch) returns (b: Batch)
      requires Searched(before, cells, ns) && InKeyOrder(ns) && HonestPager(ns, pager)
      requires Among(Following(ns, cursor), ns) && goal == Scan(Following(ns, cursor), 0, q)
      modifies this
      ensures Searched(before, cells, ns)
      ensures b == goal
    {
      var hits: seq<Hit> := [];
      var scanned := 0;
      var pageCursor := cursor;
      ghost var rest := Following(ns, cursor);
      ScanIsRest(rest, 0, q);
      while true
        invariant Following(ns, pageCursor) == rest && Among(rest, ns)
        invariant ScanRest(rest, scanned, hits, q) == goal
        invariant Searched(before, cells, ns)
        decreases |rest|
      {
        var page := NextPage(pager, pageCursor, ns, rest);
        if page.keys == [] { return Batch(hits, None); }
        var stop: Option<nat>;
        AmongLater(rest, |page.keys|, ns);
        hits, scanned, stop, rest := ScanPage(page.keys, q, hits, scanned, swaps, ns, rest, before, goal);
        if stop.Some? { return Batch(hits, stop); }
        if page.next.None? { return Batch(hits, None); }
        pageCursor := page.next;
      }
    }
  }

  ghost predicate Among(ts: seq<Thread>, ns: seq<Thread>) { forall t :: t in ts ==> t in ns }

  lemma {:induction false} AmongLater(ts: seq<Thread>, n: nat, ns: seq<Thread>)
    requires Among(ts, ns) && n <= |ts|
    ensures Among(ts[n..], ns)
  {
  }

  /** The keys from `i` on are those of the first threads of `rest`. */
  ghost predicate Listing(keys: seq<nat>, i: nat, rest: seq<Thread>) {
    i <= |keys| && |keys| - i <= |rest| && forall j :: i <= j < |keys| ==> keys[j] == rest[j - i].key
  }

  lemma {:induction false} ListingNext(keys: seq<nat>, i: nat, rest: seq<Thread>, ns: seq<Thread>)
    requires Listing(keys, i, rest) && i < |keys| && Among(rest, ns)
    ensures Listing(keys, i + 1, rest[1..]) && Among(rest[1..], ns)
  {
    AmongLater(rest, 1, ns);
  }

  lemma {:induction false} DropOne(ts: seq<Thread>, i: nat)
    requires i < |ts|
    ensures ts[i..][0] == ts[i] && ts[i..][1..] == ts[i + 1..]
  {
  }

  /** Scanning the threads `rest`, `n` keys and `hits` into the call. */
  function ScanRest(rest: seq<Thread>, n: nat, hits: seq<Hit>, q: Query): Batch {
    if rest == [] then Batch(hits, None)
    else
      var more := if IsHit(rest[0], q) then hits + [HitOf(rest[0], q)] else hits;
      if CutOff(rest[0], more, n + 1, q) then Batch(more, Some(rest[0].key)) else ScanRest(rest[1..], n + 1, more, q)
  }

  lemma {:induction false} ScanOneMore(rest: seq<Thread>, n: nat, before: seq<Hit>, hits: seq<Hit>, hit: bool, q: Query)
    requires rest != [] && hit == IsHit(rest[0], q) && hits == if hit then before + [HitOf(rest[0], q)] else before
    ensures ScanRest(rest, n, before, q) ==
      if (hit && |hits| >= Limit(q)) || n + 1 >= SEARCH_KEY_SCAN_BUDGET then Batch(hits, Some(rest[0].key))
      else ScanRest(rest[1..], n + 1, hits, q)
  {
  }

  lemma {:induction false} ScanIsRest(ts: seq<Thread>, i: nat, q: Query)
    requires i <= |ts|
    ensures Scan(ts, i, q) == ScanRest(ts[i..], i, Hits(ts[..i], q), q)
    ensures i == 0 ==> Scan(ts, 0, q) == ScanRest(ts, 0, [], q)
    decreases |ts| - i
  {
    assert i == 0 ==> ts[i..] == ts && ts[..i] == [];
    if i == |ts| {
      assert ts[..i] == ts;
    } else {
      HitsSnoc(ts, i, q);
      DropOne(ts, i);
      assert Hits(ts[..i], q) + [] == Hits(ts[..i], q);
      ScanIsRest(ts, i + 1, q);
    }
  }

  // ---- One call ----

  /** How far one scan got: it read the threads before `n`, at most the budget
      of them, and returned their hits, at most the limit. Its cursor is the
      last key it read, unless it read them all and met no cut-off; it stops
      before the end only for the budget or for a hit that fills the limit. */
  lemma {:induction false} ScanReads(ts: seq<Thread>, i: nat, q: Query) returns (n: nat)
    requires i <= |ts| && i < SEARCH_KEY_SCAN_BUDGET && |Hits(ts[..i], q)| < Limit(q)
    ensures i <= n <= |ts| && n <= SEARCH_KEY_SCAN_BUDGET
    ensures Scan(ts, i, q).hits == Hits(ts[..n], q) && |Scan(ts, i, q).hits| <= Limit(q)
    ensures Scan(ts, i, q).next.None? ==> n == |ts|
    ensures Scan(ts, i, q).next.Some? ==> i < n && Scan(ts, i, q).next == Some(ts[n - 1].key)
    ensures Scan(ts, i, q).next.Some? ==> n == 200 || (IsHit(ts[n - 1], q) && |Scan(ts, i, q).hits| == Limit(q))
    decreases |ts| - i
  {
    if i == |ts| {
      n := i;
      assert ts[..i] == ts;
    } else {
      HitsSnoc(ts, i, q);
      if CutOff(ts[i], Hits(ts[..i + 1], q), i + 1, q) {
        n := i + 1;
      } else {
        n := ScanReads(ts, i + 1, q);
      }
    }
  }

  // ---- Draining ----

  /** The chain of calls, each resuming at the cursor of the one before. */
  function Drain(ns: seq<Thread>, q: Query, cursor: Option<nat>, fuel: nat): seq<Batch>
    decreases fuel
  {
    var b := Scan(Following(ns, cursor), 0, q);
    if fuel == 0 || b.next.None? then [b] else [b] + Drain(ns, q, b.next, fuel - 1)
  }

  function AllHits(bs: seq<Batch>): seq<Hit> { if bs == [] then [] else bs[0].hits + AllHits(bs[1..]) }

  lemma {:induction false} HitsAppend(a: seq<Thread>, b: seq<Thread>, q: Query)
    ensures Hits(a + b, q) == Hits(a, q) + Hits(b, q)
    decreases |b|
  {
    if b == [] { assert a + b == a; }
    else {
      assert (a + b)[..|a + b| - 1] == a + b[..|b| - 1];
      HitsAppend(a, b[..|b| - 1], q);
    }
  }

  /** More fuel than threads left changes nothing. */
  lemma {:induction false} DrainFuel(ns: seq<Thread>, q: Query, cursor: Option<nat>, f: nat, g: nat)
    requires InKeyOrder(ns) && |Following(ns, cursor)| <= f <= g
    ensures Drain(ns, q, cursor, f) == Drain(ns, q, cursor, g)
    decreases f
  {
    var rest := Following(ns, cursor);
    var b := Scan(rest, 0, q);
    var n := ScanReads(rest, 0, q);
    if b.next.Some? {
      FollowingKey(ns, cursor, n);
      DrainFuel(ns, q, b.next, f - 1, g - 1);
    }
  }

  /** What a call returns, and how its cursor splits the remaining work. */
  lemma {:induction false} OneCall(ns: seq<Thread>, q: Query, cursor: Option<nat>)
    requires InKeyOrder(ns)
    ensures var rest, b := Following(ns, cursor), Scan(Following(ns, cursor), 0, q);
      && |b.hits| <= Limit(q)
      && (b.next.None? ==> b.hits == Hits(rest, q))
      && (b.next.Some? ==>
            && |rest| - SEARCH_KEY_SCAN_BUDGET <= |Following(ns, b.next)| < |rest|
            && Hits(rest, q) == b.hits + Hits(Following(ns, b.next), q))
  {
    var rest := Following(ns, cursor);
    var n := ScanReads(rest, 0, q);
    assert rest == rest[..n] + rest[n..];
    HitsAppend(rest[..n], rest[n..], q);
    if Scan(rest, 0, q).next.Some? {
      FollowingKey(ns, cursor, n);
    } else {
      assert rest[..n] == rest;
    }
  }

  /** A finished chain of calls with these hits in all, at most `limit` each. */
  ghost predicate Yields(bs: seq<Batch>, hits: seq<Hit>, limit: nat) {
    && AllHits(bs) == hits && bs != [] && bs[|bs| - 1].next.None?
    && forall i :: 0 <= i < |bs| ==> |bs[i].hits| <= limit
  }

  lemma {:induction false} YieldsCons(b: Batch, bs: seq<Batch>, hits: seq<Hit>, limit: nat)
    requires Yields(bs, hits, limit) && |b.hits| <= limit
    ensures Yields([b] + bs, b.hits + hits, limit)
  {
    assert ([b] + bs)[1..] == bs;
  }

  lemma {:induction false} YieldsOne(b: Batch, limit: nat)
    requires b.next.None? && |b.hits| <= limit
    ensures Yields([b], b.hits, limit)
  {
    assert [b][1..] == [];
  }

  /** The chain is its first call and the chain from that call's cursor. */
  lemma {:induction false} DrainStep(ns: seq<Thread>, q: Query, cursor: Option<nat>)
    requires InKeyOrder(ns) && Scan(Following(ns, cursor), 0, q).next.Some?
    ensures var b := Scan(Following(ns, cursor), 0, q);
      Drain(ns, q, cursor, |Following(ns, cursor)|) == [b] + Drain(ns, q, b.next, |Following(ns, b.next)|)
  {
    var b := Scan(Following(ns, cursor), 0, q);
    OneCall(ns, q, cursor);
    DrainFuel(ns, q, b.next, |Following(ns, b.next)|, |Following(ns, cursor)| - 1);
  }

  /** Draining. Over an unchanging store, calling again with the returned cursor
      until there is none yields every visible matching thread after the first
      cursor exactly once, in key order; each call returns at most `limit` hits,
      and the chain is over after at most one call more than there are threads
      left. */
  lemma {:induction false} DrainFindsAll(ns: seq<Thread>, q: Query, cursor: Option<nat>)
    requires InKeyOrder(ns)
    ensures var rest := Following(ns, cursor); var bs := Drain(ns, q, cursor, |rest|);
      Yields(bs, Hits(rest, q), Limit(q)) && |bs| <= |rest| + 1
    decreases |Following(ns, cursor)|
  {
    var b := Scan(Following(ns, cursor), 0, q);
    OneCall(ns, q, cursor);
    if b.next.None? {
      YieldsOne(b, Limit(q));
    } else {
      DrainFindsAll(ns, q, b.next);
      DrainStep(ns, q, cursor);
      YieldsCons(b, Drain(ns, q, b.next, |Following(ns, b.next)|), Hits(Following(ns, b.next), q), Limit(q));
    }
  }

  ghost predicate FromMatch(ts: seq<Thread>, q: Query, h: Hit) {
    exists i :: 0 <= i < |ts| && IsHit(ts[i], q) && h == HitOf(ts[i], q)
  }

  /** Hits are exactly the visible matching threads, once each, in key order. */
  lemma {:induction false} HitsAreTheMatches(ts: seq<Thread>, q: Query)
    requires InKeyOrder(ts)
    ensures forall i, j :: 0 <= i < j < |Hits(ts, q)| ==> Hits(ts, q)[i].key < Hits(ts, q)[j].key
    ensures forall h :: h in Hits(ts, q) <==> FromMatch(ts, q, h)
  {
    if ts != [] {
      var n := |ts| - 1;
      HitsAreTheMatches(ts[..n], q);
      var before := Hits(ts[..n], q);
      forall h ensures FromMatch(ts, q, h) <==> FromMatch(ts[..n], q, h) || (IsHit(ts[n], q) && h == HitOf(ts[n], q)) {
        FromMatchSnoc(ts, q, h);
      }
      forall i | 0 <= i < |before| ensures before[i].key < ts[n].key {
        assert before[i] in before;
        var k :| 0 <= k < n && IsHit(ts[..n][k], q) && before[i] == HitOf(ts[..n][k], q);
        assert ts[..n][k] == ts[k];
      }
    }
  }

  lemma {:induction false} FromMatchSnoc(ts: seq<Thread>, q: Query, h: Hit)
    requires ts != []
    ensures var n := |ts| - 1;
      FromMatch(ts, q, h) <==> FromMatch(ts[..n], q, h) || (IsHit(ts[n], q) && h == HitOf(ts[n], q))
  {
    var n := |ts| - 1;
    if FromMatch(ts, q, h) {
      var k :| 0 <= k < |ts| && IsHit(ts[k], q) && h == HitOf(ts[k], q);
      assert k < n ==> ts[..n][k] == ts[k];
    }
    if FromMatch(ts[..n], q, h) {
      var k :| 0 <= k < n && IsHit(ts[..n][k], q) && h == HitOf(ts[..n][k], q);
      assert ts[..n][k] == ts[k];
    }
  }

  /** From the start: the chain of calls lists each visible matching thread of
      the store once, in key order, and nothing else. */
  lemma {:induction false} DrainListsEachMatchOnce(ns: seq<Thread>, q: Query)
    requires InKeyOrder(ns)
    ensures var hits := AllHits(Drain(ns, q, None, |ns|));
      && (forall i, j :: 0 <= i < j < |hits| ==> hits[i].key < hits[j].key)
      && forall h :: h in hits <==> FromMatch(ns, q, h)
  {
    DrainFindsAll(ns, q, None);
    HitsAreTheMatches(ns, q);
  }

  /** Some message of a thread matches, and the thread may be shown. */
  ghost predicate Listed(t: Thread, query: string, includeArchived: bool) {
    (t.data.archived ==> includeArchived) && exists i :: 0 <= i < |t.data.messages| && Matches(t.data.messages[i], query)
  }

  lemma {:induction false} IsHitIff(t: Thread, q: Query)
    ensures IsHit(t, q) <==> Listed(t, q.text, q.includeArchived)
  {
    var ms := t.data.messages;
    CountPositiveIff(ms, Lower(q.text));
    forall i | 0 <= i < |ms| ensures MatchAt(ms[i], Lower(q.text)).Some? <==> Matches(ms[i], q.text) { MatchAtIff(ms[i], q.text); }
  }

  /** The entry of a thread: its own key, title and update time, how many of its
      messages match, and, for a query of at most 60 characters that begins and
      ends visibly, an excerpt that shows the query, case aside. */
  ghost predicate EntryOf(h: Hit, t: Thread, query: string) {
    && h.key == t.key && h.title == t.data.title && h.updatedAt == t.data.updatedAt
    && h.count == Min(|MatchingAmong(t.data.messages, query, |t.data.messages|)|, 0xFFFF_FFFF)
    && (Visible(query) && |query| <= 60 ==> exists p: nat :: ReadsAt(h.snippet, query, p))
  }

  lemma {:induction false} HitIsEntry(t: Thread, q: Query)
    requires IsHit(t, q)
    ensures EntryOf(HitOf(t, q), t, q.text)
  {
    var ms := t.data.messages;
    CountIsMatching(ms, q.text, |ms|);
    assert ms[..|ms|] == ms;
    if Visible(q.text) && |q.text| <= 60 {
      ExcerptShowsMatch(ms, Lower(q.text));
      var p :| 0 <= p && OccursAt(Lower(Excerpt(ms, Lower(q.text))), Lower(q.text), p);
      LowerOccurs(Excerpt(ms, Lower(q.text)), q.text, p);
    }
  }

  /** What a user can rely on, by the messages alone: following the cursor from
      the start lists a thread exactly when it may be shown and one of its
      messages holds the query in its text, case aside; each once, in key order,
      with the thread's own entry. */
  lemma {:induction false} DrainListsMatchingThreads(ns: seq<Thread>, q: Query)
    requires InKeyOrder(ns)
    ensures var hits := AllHits(Drain(ns, q, None, |ns|));
      && (forall i, j :: 0 <= i < j < |hits| ==> hits[i].key < hits[j].key)
      && (forall i :: 0 <= i < |ns| ==> ((exists h :: h in hits && h.key == ns[i].key) <==> Listed(ns[i], q.text, q.includeArchived)))
      && (forall h :: h in hits ==> exists i :: 0 <= i < |ns| && EntryOf(h, ns[i], q.text))
  {
    var hits := AllHits(Drain(ns, q, None, |ns|));
    DrainListsEachMatchOnce(ns, q);
    forall h | h in hits ensures exists i :: 0 <= i < |ns| && IsHit(ns[i], q) && h == HitOf(ns[i], q) && EntryOf(h, ns[i], q.text) {
      assert FromMatch(ns, q, h);
      var i :| 0 <= i < |ns| && IsHit(ns[i], q) && h == HitOf(ns[i], q);
      HitIsEntry(ns[i], q);
    }
    forall i | 0 <= i < |ns| ensures (exists h :: h in hits && h.key == ns[i].key) <==> Listed(ns[i], q.text, q.includeArchived) {
      IsHitIff(ns[i], q);
      if IsHit(ns[i], q) { assert FromMatch(ns, q, HitOf(ns[i], q)); assert HitOf(ns[i], q) in hits; }
      if h :| h in hits && h.key == ns[i].key {
        var j :| 0 <= j < |ns| && IsHit(ns[j], q) && h == HitOf(ns[j], q);
        assert i == j;
      }
    }
  }
}
