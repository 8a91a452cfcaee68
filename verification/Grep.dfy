/**
 The capped recursive search: a walk that updates the matches found and the
 number of files read, against its meaning on the whole tree.
 */
module Grep {
  import opened Prelude

  const GREP_MAX_MATCHES: nat := 100
  const GREP_MAX_FILES: nat := 1000
  const GREP_MAX_DEPTH: nat := 20

  /** What the file system answers for a path: a file with its text (`None`
      when it cannot be read), a directory with its entries (`None` when it
      cannot be listed), or a failed stat. */
  datatype Node =
    | File(path: string, content: Option<string>)
    | Dir(path: string, entries: Option<seq<Node>>)
    | Unstatted(path: string)

  datatype Match = Match(path: string, number: nat, line: string)

  // ---- One file ----

  predicate ContainsAt(line: string, pattern: string, i: nat) { i + |pattern| <= |line| && line[i..i + |pattern|] == pattern }

  /** `str::contains`. */
  predicate Contains(line: string, pattern: string) { exists i :: 0 <= i <= |line| && ContainsAt(line, pattern, i) }

  function NewlineFrom(s: string, i: nat): (k: nat)
    requires i <= |s|
    ensures i <= k <= |s| && (k < |s| ==> s[k] == '\n') && forall j :: i <= j < k ==> s[j] != '\n'
    decreases |s| - i
  {
    if i == |s| || s[i] == '\n' then i else NewlineFrom(s, i + 1)
  }

  function StripCr(s: string): string { if s != [] && s[|s| - 1] == '\r' then s[..|s| - 1] else s }

  /** `str::lines`: each line ends at a newline, a carriage return before it is
      dropped, and there is no empty line after the last newline. */
  function Lines(s: string): seq<string> {
    if s == [] then []
    else
      var k := NewlineFrom(s, 0);
      if k == |s| then [s] else [StripCr(s[..k])] + Lines(s[k + 1..])
  }

  /** The matches among the first `n` lines, with line numbers from one. */
  function LineHits(path: string, lines: seq<string>, n: nat, pattern: string): seq<Match>
    requires n <= |lines|
  {
    if n == 0 then []
    else
      LineHits(path, lines, n - 1, pattern)
      + (if Contains(lines[n - 1], pattern) then [Match(path, n, lines[n - 1])] else [])
  }

  function FileHits(f: Node, pattern: string): seq<Match> {
    if f.File? && f.content.Some? then LineHits(f.path, Lines(f.content.value), |Lines(f.content.value)|, pattern) else []
  }

  // ---- The tree ----

  /** The files below a directory's entries in depth-first order, looking into
      directories less than `GREP_MAX_DEPTH` deep. */
  function FilesOf(entries: seq<Node>, depth: nat): seq<Node>
    decreases GREP_MAX_DEPTH - depth, |entries| + 1
  {
    if entries == [] || depth >= GREP_MAX_DEPTH then []
    else FilesOf(entries[..|entries| - 1], depth) + FilesUnder(entries[|entries| - 1], depth)
  }

  function FilesUnder(entry: Node, depth: nat): seq<Node>
    requires depth < GREP_MAX_DEPTH
    decreases GREP_MAX_DEPTH - depth, 0
  {
    match entry
    case File(_, _) => [entry]
    case Dir(_, Some(entries)) => FilesOf(entries, depth + 1)
    case Dir(_, None) => []
    case Unstatted(_) => []
  }

  function AllHits(fs: seq<Node>, pattern: string): seq<Match> {
    if fs == [] then [] else AllHits(fs[..|fs| - 1], pattern) + FileHits(fs[|fs| - 1], pattern)
  }

  function Take<T>(n: nat, xs: seq<T>): seq<T> { if |xs| <= n then xs else xs[..n] }

  // ---- The walk, file by file ----

  datatype Progress = Progress(matches: seq<Match>, visited: nat)

  predicate Spent(p: Progress) { |p.matches| >= GREP_MAX_MATCHES || p.visited >= GREP_MAX_FILES }

  function Visit(p: Progress, f: Node, pattern: string): Progress {
    if Spent(p) then p
    else Progress(Take(GREP_MAX_MATCHES, p.matches + FileHits(f, pattern)), p.visited + 1)
  }

  function VisitAll(p: Progress, fs: seq<Node>, pattern: string): Progress {
    if fs == [] then p else Visit(VisitAll(p, fs[..|fs| - 1], pattern), fs[|fs| - 1], pattern)
  }

  lemma {:induction false} VisitAppend(p: Progress, a: seq<Node>, b: seq<Node>, pattern: string)
    ensures VisitAll(p, a + b, pattern) == VisitAll(VisitAll(p, a, pattern), b, pattern)
    decreases |b|
  {
    if b == [] { assert a + b == a; }
    else {
      assert (a + b)[..|a + b| - 1] == a + b[..|b| - 1];
      VisitAppend(p, a, b[..|b| - 1], pattern);
    }
  }

  lemma {:induction false} SpentStays(p: Progress, fs: seq<Node>, pattern: string)
    requires Spent(p)
    ensures VisitAll(p, fs, pattern) == p
  {
    if fs != [] { SpentStays(p, fs[..|fs| - 1], pattern); }
  }

  class Search {
    const pattern: string
    var matches: seq<Match>
    var filesVisited: nat

    constructor (p: string)
      ensures pattern == p && State() == Progress([], 0)
    {
      pattern, matches, filesVisited := p, [], 0;
    }

    function State(): Progress
      reads this
    {
      Progress(matches, filesVisited)
    }

    /** `grep_content`: push matching lines until there are enough. */
    method GrepContent(path: string, content: string)
      requires |matches| <= GREP_MAX_MATCHES
      modifies this`matches
      ensures matches == Take(GREP_MAX_MATCHES, old(matches) + FileHits(File(path, Some(content)), pattern))
    {
      var lines := Lines(content);
      var i := 0;
      while i < |lines|
        invariant 0 <= i <= |lines|
        invariant matches == old(matches) + LineHits(path, lines, i, pattern) && |matches| <= GREP_MAX_MATCHES
      {
        if |matches| >= GREP_MAX_MATCHES {
          HitsGrow(path, lines, i, |lines|, pattern);
          return;
        }
        if Contains(lines[i], pattern) { matches := matches + [Match(path, i + 1, lines[i])]; }
        i := i + 1;
      }
    }

    /** `walk_and_grep` on one directory. */
    method Walk(dir: Node, depth: nat)
      requires dir.Dir? && |matches| <= GREP_MAX_MATCHES
      modifies this
      ensures State() == VisitAll(old(State()), if dir.entries.Some? then FilesOf(dir.entries.value, depth) else [], pattern)
      ensures |matches| <= GREP_MAX_MATCHES
      decreases GREP_MAX_DEPTH - depth, 1
    {
      if dir.entries.Some? && Spent(State()) { SpentStays(State(), FilesOf(dir.entries.value, depth), pattern); }
      if depth >= GREP_MAX_DEPTH || filesVisited >= GREP_MAX_FILES || |matches| >= GREP_MAX_MATCHES { return; }
      if dir.entries.None? { return; }
      var entries := dir.entries.value;
      var i := 0;
      while i < |entries|
        invariant 0 <= i <= |entries| && |matches| <= GREP_MAX_MATCHES
        invariant State() == VisitAll(old(State()), FilesOf(entries[..i], depth), pattern)
      {
        if |matches| >= GREP_MAX_MATCHES || filesVisited >= GREP_MAX_FILES {
          WalkIsOver(old(State()), entries, i, depth, pattern);
          return;
        }
        WalkStep(old(State()), entries, i, depth, pattern);
        WalkEntry(entries[i], depth);
        i := i + 1;
      }
      assert entries[..|entries|] == entries;
    }

    /** The body of its loop. */
    method WalkEntry(entry: Node, depth: nat)
      requires depth < GREP_MAX_DEPTH && !Spent(State())
      modifies this
      ensures State() == VisitAll(old(State()), FilesUnder(entry, depth), pattern)
      ensures |matches| <= GREP_MAX_MATCHES
      decreases GREP_MAX_DEPTH - depth, 0
    {
      match entry
      case Unstatted(_) =>
      case Dir(_, _) =>
        Walk(entry, depth + 1);
      case File(path, content) =>
        filesVisited := filesVisited + 1;
        if content.Some? { GrepContent(path, content.value); }
        VisitOne(old(State()), entry, pattern);
    }
  }

  lemma {:induction false} VisitOne(p: Progress, f: Node, pattern: string)
    ensures VisitAll(p, [f], pattern) == Visit(p, f, pattern)
  {
    assert [f][..0] == [];
  }

  lemma {:induction false} FilesOneMore(entries: seq<Node>, i: nat, depth: nat)
    requires i < |entries| && depth < GREP_MAX_DEPTH
    ensures FilesOf(entries[..i + 1], depth) == FilesOf(entries[..i], depth) + FilesUnder(entries[i], depth)
  {
    assert entries[..i + 1][..i] == entries[..i];
  }

  /** What one more entry adds to the walk. */
  lemma {:induction false} WalkStep(p: Progress, entries: seq<Node>, i: nat, depth: nat, pattern: string)
    requires i < |entries| && depth < GREP_MAX_DEPTH
    ensures VisitAll(p, FilesOf(entries[..i + 1], depth), pattern)
         == VisitAll(VisitAll(p, FilesOf(entries[..i], depth), pattern), FilesUnder(entries[i], depth), pattern)
  {
    FilesOneMore(entries, i, depth);
    VisitAppend(p, FilesOf(entries[..i], depth), FilesUnder(entries[i], depth), pattern);
  }

  /** More lines only add hits at the end. */
  lemma {:induction false} HitsGrow(path: string, lines: seq<string>, i: nat, n: nat, pattern: string)
    requires i <= n <= |lines|
    ensures LineHits(path, lines, i, pattern) <= LineHits(path, lines, n, pattern)
    decreases n
  {
    if i < n { HitsGrow(path, lines, i, n - 1, pattern); }
  }

  /** Once a cap is met the remaining entries change nothing. */
  lemma {:induction false} WalkIsOver(p: Progress, entries: seq<Node>, i: nat, depth: nat, pattern: string)
    requires i <= |entries| && depth < GREP_MAX_DEPTH && Spent(VisitAll(p, FilesOf(entries[..i], depth), pattern))
    ensures VisitAll(p, FilesOf(entries, depth), pattern) == VisitAll(p, FilesOf(entries[..i], depth), pattern)
    decreases |entries|
  {
    if i == |entries| {
      assert entries[..i] == entries;
    } else {
      var n := |entries| - 1;
      assert entries[..n][..i] == entries[..i];
      WalkIsOver(p, entries[..n], i, depth, pattern);
      WalkStep(p, entries, n, depth, pattern);
      assert entries[..n + 1] == entries;
      SpentStays(VisitAll(p, FilesOf(entries[..n], depth), pattern), FilesUnder(entries[n], depth), pattern);
    }
  }

  // ---- The meaning of a search ----

  lemma {:induction false} AllHitsSnoc(fs: seq<Node>, f: Node, pattern: string)
    ensures AllHits(fs + [f], pattern) == AllHits(fs, pattern) + FileHits(f, pattern)
  {
    assert (fs + [f])[..|fs|] == fs;
  }

  lemma {:induction false} HitsPrefix(fs: seq<Node>, a: nat, b: nat, pattern: string)
    requires a <= b <= |fs|
    ensures AllHits(fs[..a], pattern) <= AllHits(fs[..b], pattern)
    decreases b
  {
    if a < b {
      HitsPrefix(fs, a, b - 1, pattern);
      assert fs[..b] == fs[..b - 1] + [fs[b - 1]];
      AllHitsSnoc(fs[..b - 1], fs[b - 1], pattern);
    }
  }

  /** `p` has read the first files of `fs` and kept their hits up to the cap;
      it read no file after the hundredth hit, and stopped only for a reason. */
  ghost predicate ReadSoFar(p: Progress, fs: seq<Node>, pattern: string) {
    && p.visited <= Min(GREP_MAX_FILES, |fs|)
    && p.matches == Take(GREP_MAX_MATCHES, AllHits(fs[..p.visited], pattern))
    && (p.visited > 0 ==> |AllHits(fs[..p.visited - 1], pattern)| < GREP_MAX_MATCHES)
    && (p.visited < Min(GREP_MAX_FILES, |fs|) ==> |p.matches| == GREP_MAX_MATCHES)
  }

  lemma {:induction false} ReadOneMore(p: Progress, fs: seq<Node>, pattern: string)
    requires fs != [] && ReadSoFar(p, fs[..|fs| - 1], pattern)
    ensures ReadSoFar(Visit(p, fs[|fs| - 1], pattern), fs, pattern)
  {
    var n := |fs| - 1;
    assert fs == fs[..n] + [fs[n]];
    if Spent(p) { ReadNoMore(p, fs[..n], fs[n], fs, pattern); } else { ReadLast(p, fs[..n], fs[n], fs, pattern); }
  }

  /** A file beyond the caps is not read. */
  lemma {:induction false} ReadNoMore(p: Progress, before: seq<Node>, f: Node, fs: seq<Node>, pattern: string)
    requires fs == before + [f] && ReadSoFar(p, before, pattern) && Spent(p)
    ensures ReadSoFar(p, fs, pattern)
  {
    assert fs[..p.visited] == before[..p.visited];
    if p.visited > 0 { assert fs[..p.visited - 1] == before[..p.visited - 1]; }
  }

  /** The last file is read as well. */
  lemma {:induction false} ReadLast(p: Progress, before: seq<Node>, f: Node, fs: seq<Node>, pattern: string)
    requires fs == before + [f] && ReadSoFar(p, before, pattern) && p.visited == |before| && !Spent(p)
    ensures ReadSoFar(Visit(p, f, pattern), fs, pattern)
  {
    assert before[..|before|] == before && fs[..|fs|] == fs && fs[..|before|] == before;
    assert AllHits(fs, pattern) == AllHits(before, pattern) + FileHits(f, pattern);
  }

  lemma {:induction false} ReadAll(fs: seq<Node>, pattern: string)
    ensures ReadSoFar(VisitAll(Progress([], 0), fs, pattern), fs, pattern)
  {
    if fs != [] {
      ReadAll(fs[..|fs| - 1], pattern);
      ReadOneMore(VisitAll(Progress([], 0), fs[..|fs| - 1], pattern), fs, pattern);
    }
  }

  /** The walk keeps exactly the first 100 matches of the first 1000 files. */
  lemma {:induction false} SearchMeaning(fs: seq<Node>, pattern: string)
    ensures VisitAll(Progress([], 0), fs, pattern).matches == Take(GREP_MAX_MATCHES, AllHits(Take(GREP_MAX_FILES, fs), pattern))
  {
    ReadAll(fs, pattern);
    var p := VisitAll(Progress([], 0), fs, pattern);
    var n := Min(GREP_MAX_FILES, |fs|);
    assert Take(GREP_MAX_FILES, fs) == fs[..n];
    HitsPrefix(fs, p.visited, n, pattern);
  }

  // ---- Which files a search reaches ----

  /** The file that a path of entry indices leads to, through listed
      directories only. */
  function FileAt(entries: seq<Node>, path: seq<nat>): Option<Node>
    decreases |path|
  {
    if path == [] || path[0] >= |entries| then None
    else
      var entry := entries[path[0]];
      if |path| == 1 then (if entry.File? then Some(entry) else None)
      else if entry.Dir? && entry.entries.Some? then FileAt(entry.entries.value, path[1..])
      else None
  }

  /** Lexicographic order of paths. */
  predicate Before(p: seq<nat>, q: seq<nat>)
    decreases |p|
  {
    q != [] && (p == [] || p[0] < q[0] || (p[0] == q[0] && Before(p[1..], q[1..])))
  }

  /** `paths` lead to the files `fs`, one by one: all files whose path has at
      most `deep` steps, in lexicographic order of their paths. */
  ghost predicate ReachesInOrder(entries: seq<Node>, deep: nat, paths: seq<seq<nat>>, fs: seq<Node>) {
    && |paths| == |fs|
    && (forall k :: 0 <= k < |paths| ==> FileAt(entries, paths[k]) == Some(fs[k]))
    && (forall p :: p in paths <==> FileAt(entries, p).Some? && |p| <= deep)
    && (forall j, k :: 0 <= j < k < |paths| ==> Before(paths[j], paths[k]))
  }

  /** Paths below entry `i`. */
  function Under(i: nat, paths: seq<seq<nat>>): seq<seq<nat>> {
    seq(|paths|, k requires 0 <= k < |paths| => [i] + paths[k])
  }

  function PathsOf(entries: seq<Node>, depth: nat): seq<seq<nat>>
    decreases GREP_MAX_DEPTH - depth, |entries| + 1
  {
    if entries == [] || depth >= GREP_MAX_DEPTH then []
    else PathsOf(entries[..|entries| - 1], depth) + PathsUnder(|entries| - 1, entries[|entries| - 1], depth)
  }

  function PathsUnder(i: nat, entry: Node, depth: nat): seq<seq<nat>>
    requires depth < GREP_MAX_DEPTH
    decreases GREP_MAX_DEPTH - depth, 0
  {
    if entry.File? then [[i]]
    else if entry.Dir? && entry.entries.Some? then Under(i, PathsOf(entry.entries.value, depth + 1))
    else []
  }

  /** The paths below entry `i` alone. */
  ghost predicate ReachesUnder(entries: seq<Node>, i: nat, deep: nat, paths: seq<seq<nat>>, fs: seq<Node>) {
    && |paths| == |fs|
    && (forall k :: 0 <= k < |paths| ==> FileAt(entries, paths[k]) == Some(fs[k]))
    && (forall p :: p in paths <==> p != [] && p[0] == i && FileAt(entries, p).Some? && |p| <= deep)
    && (forall j, k :: 0 <= j < k < |paths| ==> Before(paths[j], paths[k]))
  }

  lemma {:induction false} StepsInto(entries: seq<Node>, i: nat, p: seq<nat>)
    requires i < |entries| && p != [] && entries[i].Dir? && entries[i].entries.Some?
    ensures FileAt(entries, [i] + p) == FileAt(entries[i].entries.value, p)
  {
    assert ([i] + p)[1..] == p;
  }

  lemma {:induction false} NoEmptyPath(entries: seq<Node>)
    ensures FileAt(entries, []).None?
  {
  }

  /** Below a listed directory: its own paths, one step longer. */
  lemma {:induction false} UnderReaches(entries: seq<Node>, i: nat, deep: nat, inner: seq<seq<nat>>, fs: seq<Node>)
    requires i < |entries| && entries[i].Dir? && entries[i].entries.Some?
    requires ReachesInOrder(entries[i].entries.value, deep, inner, fs)
    ensures ReachesUnder(entries, i, deep + 1, Under(i, inner), fs)
  {
    var es, paths := entries[i].entries.value, Under(i, inner);
    forall k | 0 <= k < |paths| ensures FileAt(entries, paths[k]) == Some(fs[k]) {
      assert inner[k] in inner;
      NoEmptyPath(es);
      StepsInto(entries, i, inner[k]);
    }
    forall p ensures p in paths <==> p != [] && p[0] == i && FileAt(entries, p).Some? && |p| <= deep + 1 {
      UnderIff(entries, i, deep, inner, fs, p);
    }
    forall j, k | 0 <= j < k < |paths| ensures Before(paths[j], paths[k]) {
      assert paths[j][1..] == inner[j] && paths[k][1..] == inner[k];
    }
  }

  lemma {:induction false} UnderIff(entries: seq<Node>, i: nat, deep: nat, inner: seq<seq<nat>>, fs: seq<Node>, p: seq<nat>)
    requires i < |entries| && entries[i].Dir? && entries[i].entries.Some?
    requires ReachesInOrder(entries[i].entries.value, deep, inner, fs)
    ensures p in Under(i, inner) <==> p != [] && p[0] == i && FileAt(entries, p).Some? && |p| <= deep + 1
  {
    var es, paths := entries[i].entries.value, Under(i, inner);
    if p in paths {
      var k :| 0 <= k < |paths| && paths[k] == p;
      assert inner[k] in inner;
      NoEmptyPath(es);
      StepsInto(entries, i, inner[k]);
    }
    if p != [] && p[0] == i && FileAt(entries, p).Some? && |p| <= deep + 1 {
      assert p == [i] + p[1..] && |p| > 1;
      StepsInto(entries, i, p[1..]);
      assert p[1..] in inner;
      var k :| 0 <= k < |inner| && inner[k] == p[1..];
      assert paths[k] == p;
    }
  }

  lemma {:induction false} EntryReaches(entries: seq<Node>, i: nat, depth: nat)
    requires i < |entries| && depth < GREP_MAX_DEPTH
    requires entries[i].Dir? && entries[i].entries.Some? ==>
      ReachesInOrder(entries[i].entries.value, GREP_MAX_DEPTH - (depth + 1), PathsOf(entries[i].entries.value, depth + 1), FilesOf(entries[i].entries.value, depth + 1))
    ensures ReachesUnder(entries, i, GREP_MAX_DEPTH - depth, PathsUnder(i, entries[i], depth), FilesUnder(entries[i], depth))
  {
    if entries[i].Dir? && entries[i].entries.Some? {
      UnderReaches(entries, i, GREP_MAX_DEPTH - (depth + 1), PathsOf(entries[i].entries.value, depth + 1), FilesOf(entries[i].entries.value, depth + 1));
    } else {
      forall p: seq<nat> | p != [] && p[0] == i && FileAt(entries, p).Some? ensures entries[i].File? && p == [i] {}
    }
  }

  /** The first entries say the same as all of them about paths that begin there. */
  lemma {:induction false} PrefixPaths(entries: seq<Node>, n: nat, p: seq<nat>)
    requires n <= |entries|
    ensures FileAt(entries[..n], p) == if p != [] && p[0] < n then FileAt(entries, p) else None
  {
  }

  /** A directory's files: those below its first entries, then below the last. */
  lemma {:induction false} JoinReaches(entries: seq<Node>, n: nat, deep: nat, a: seq<seq<nat>>, fa: seq<Node>, b: seq<seq<nat>>, fb: seq<Node>)
    requires entries != [] && n == |entries| - 1
    requires ReachesInOrder(entries[..n], deep, a, fa) && ReachesUnder(entries, n, deep, b, fb)
    ensures ReachesInOrder(entries, deep, a + b, fa + fb)
  {
    var all, fs := a + b, fa + fb;
    forall k | 0 <= k < |all| ensures FileAt(entries, all[k]) == Some(fs[k]) {
      if k < |a| { PrefixPaths(entries, n, a[k]); }
    }
    forall p ensures p in all <==> FileAt(entries, p).Some? && |p| <= deep {
      PrefixPaths(entries, n, p);
      NoEmptyPath(entries);
      assert p in all <==> p in a || p in b;
    }
    forall j, k | 0 <= j < k < |all| ensures Before(all[j], all[k]) {
      if j < |a| && k >= |a| {
        assert all[j] in a && all[k] in b;
        PrefixPaths(entries, n, all[j]);
      }
    }
  }

  /** The files below a directory's entries, by position: a file is among them
      exactly when its path from here has at most as many steps as there is
      depth left, and they come in the order of their paths. */
  lemma {:induction false} FilesByPath(entries: seq<Node>, depth: nat)
    ensures ReachesInOrder(entries, SatSub(GREP_MAX_DEPTH, depth), PathsOf(entries, depth), FilesOf(entries, depth))
    decreases SatSub(GREP_MAX_DEPTH, depth), |entries|
  {
    if depth >= GREP_MAX_DEPTH || entries == [] {
      NothingReached(entries, SatSub(GREP_MAX_DEPTH, depth));
    } else {
      var n := |entries| - 1;
      FilesByPath(entries[..n], depth);
      if entries[n].Dir? && entries[n].entries.Some? { FilesByPath(entries[n].entries.value, depth + 1); }
      EntryReaches(entries, n, depth);
      JoinReaches(entries, n, GREP_MAX_DEPTH - depth, PathsOf(entries[..n], depth), FilesOf(entries[..n], depth),
                  PathsUnder(n, entries[n], depth), FilesUnder(entries[n], depth));
      FilesSnoc(entries, depth);
    }
  }

  lemma {:induction false} FilesSnoc(entries: seq<Node>, depth: nat)
    requires entries != [] && depth < GREP_MAX_DEPTH
    ensures var n := |entries| - 1;
      && PathsOf(entries, depth) == PathsOf(entries[..n], depth) + PathsUnder(n, entries[n], depth)
      && FilesOf(entries, depth) == FilesOf(entries[..n], depth) + FilesUnder(entries[n], depth)
  {
  }

  lemma {:induction false} NothingReached(entries: seq<Node>, deep: nat)
    requires entries == [] || deep == 0
    ensures ReachesInOrder(entries, deep, [], [])
  {
    NoEmptyPath(entries);
  }

  // ---- Which lines a search reports ----

  /** Line `n` of a readable file contains the pattern, and `m` reports it: under
      the file's path, with the line's number from one, and its text. */
  predicate Reports(f: Node, pattern: string, n: nat, m: Match) {
    && f.File? && f.content.Some?
    && n < |Lines(f.content.value)| && Contains(Lines(f.content.value)[n], pattern)
    && m == Match(f.path, n + 1, Lines(f.content.value)[n])
  }

  lemma {:induction false} LineHitsIff(path: string, lines: seq<string>, n: nat, pattern: string, m: Match)
    requires n <= |lines|
    ensures m in LineHits(path, lines, n, pattern) <==>
      exists i :: 0 <= i < n && Contains(lines[i], pattern) && m == Match(path, i + 1, lines[i])
    decreases n
  {
    if n > 0 { LineHitsIff(path, lines, n - 1, pattern, m); }
  }

  ghost predicate ReportedBy(f: Node, pattern: string, m: Match) { exists n: nat :: Reports(f, pattern, n, m) }

  lemma {:induction false} FileHitsIff(f: Node, pattern: string, m: Match)
    ensures m in FileHits(f, pattern) <==> ReportedBy(f, pattern, m)
  {
    if f.File? && f.content.Some? {
      var lines := Lines(f.content.value);
      LineHitsIff(f.path, lines, |lines|, pattern, m);
      if m in FileHits(f, pattern) {
        var i: nat :| i < |lines| && Contains(lines[i], pattern) && m == Match(f.path, i + 1, lines[i]);
        assert Reports(f, pattern, i, m);
      }
      if ReportedBy(f, pattern, m) {
        var i: nat :| Reports(f, pattern, i, m);
        assert Contains(lines[i], pattern);
      }
    }
  }

  ghost predicate SomeReports(fs: seq<Node>, pattern: string, m: Match) { exists k :: 0 <= k < |fs| && ReportedBy(fs[k], pattern, m) }

  lemma {:induction false} SomeReportsSnoc(fs: seq<Node>, f: Node, pattern: string, m: Match)
    ensures SomeReports(fs + [f], pattern, m) <==> SomeReports(fs, pattern, m) || ReportedBy(f, pattern, m)
  {
    var all := fs + [f];
    if SomeReports(fs, pattern, m) {
      var k :| 0 <= k < |fs| && ReportedBy(fs[k], pattern, m);
      assert all[k] == fs[k];
    }
    assert all[|fs|] == f;
  }

  lemma {:induction false} AllHitsIff(fs: seq<Node>, pattern: string, m: Match)
    ensures m in AllHits(fs, pattern) <==> SomeReports(fs, pattern, m)
    decreases |fs|
  {
    if fs != [] {
      var before, last := fs[..|fs| - 1], fs[|fs| - 1];
      AllHitsIff(before, pattern, m);
      FileHitsIff(last, pattern, m);
      SomeReportsSnoc(before, last, pattern, m);
      assert before + [last] == fs;
    }
  }

  /** What a search answers, by the tree alone: `paths` lead, in order, to the
      files `fs`, all those at most 20 steps deep. Every match reports a line of
      one of the first 1000 of them; and, with fewer than 100 matches, every such
      line is reported. */
  ghost predicate Answers(entries: seq<Node>, pattern: string, paths: seq<seq<nat>>, fs: seq<Node>, found: seq<Match>) {
    && ReachesInOrder(entries, 20, paths, fs)
    && |found| <= 100
    && (forall m :: m in found ==> exists k :: 0 <= k < |fs| && k < 1000 && ReportedBy(fs[k], pattern, m))
    && (|found| < 100 ==> forall k, m :: 0 <= k < |fs| && k < 1000 && ReportedBy(fs[k], pattern, m) ==> m in found)
  }

  lemma {:induction false} SearchAnswers(entries: seq<Node>, pattern: string, fs: seq<Node>, found: seq<Match>)
    requires fs == FilesOf(entries, 0) && found == Take(GREP_MAX_MATCHES, AllHits(Take(GREP_MAX_FILES, fs), pattern))
    ensures Answers(entries, pattern, PathsOf(entries, 0), fs, found)
  {
    FilesByPath(entries, 0);
    var first := Take(GREP_MAX_FILES, fs);
    forall m | m in found ensures exists k :: 0 <= k < |fs| && k < 1000 && ReportedBy(fs[k], pattern, m) {
      AllHitsIff(first, pattern, m);
      var k :| 0 <= k < |first| && ReportedBy(first[k], pattern, m);
      assert fs[k] == first[k];
    }
    if |found| < 100 {
      forall k, m | 0 <= k < |fs| && k < 1000 && ReportedBy(fs[k], pattern, m) ensures m in found {
        AllHitsIff(first, pattern, m);
        assert first[k] == fs[k];
      }
    }
  }

  /** `grep_search` from a fresh start; `paths` and `files` are what it reaches. */
  method GrepSearch(root: Node, pattern: string) returns (r: Result<seq<Match>>, ghost paths: seq<seq<nat>>, ghost files: seq<Node>)
    requires root.Dir?
    ensures pattern == "" ==> r.Err?
    ensures pattern != "" ==> r.Ok? && Answers(if root.entries.Some? then root.entries.value else [], pattern, paths, files, r.value)
    ensures pattern != "" ==>
              var fs := if root.entries.Some? then FilesOf(root.entries.value, 0) else [];
              r == Ok(Take(GREP_MAX_MATCHES, AllHits(Take(GREP_MAX_FILES, fs), pattern)))
  {
    paths, files := [], [];
    if pattern == "" { return Err("pattern must not be empty"), paths, files; }
    var s := new Search(pattern);
    s.Walk(root, 0);
    ghost var entries := if root.entries.Some? then root.entries.value else [];
    paths, files := PathsOf(entries, 0), FilesOf(entries, 0);
    SearchMeaning(files, pattern);
    SearchAnswers(entries, pattern, files, s.matches);
    r := Ok(s.matches);
  }

  // ---- Lines and whole texts ----

  function Newlines(s: string): nat { if s == [] then 0 else Newlines(s[..|s| - 1]) + (if s[|s| - 1] == '\n' then 1 else 0) }

  lemma {:induction false} NewlinesAppend(a: string, b: string)
    ensures Newlines(a + b) == Newlines(a) + Newlines(b)
    decreases |b|
  {
    if b == [] { assert a + b == a; }
    else {
      assert (a + b)[..|a + b| - 1] == a + b[..|b| - 1];
      NewlinesAppend(a, b[..|b| - 1]);
    }
  }

  lemma {:induction false} NoNewlines(s: string)
    requires '\n' !in s
    ensures Newlines(s) == 0
    decreases |s|
  {
    if s != [] { NoNewlines(s[..|s| - 1]); }
  }

  /** `s[a..b]` is line `n` of the text: `n` newlines come before it, it holds
      none, and it ends at the next one or with the text. */
  predicate IsLine(s: string, n: nat, a: nat, b: nat) {
    && a <= b <= |s| && Newlines(s[..a]) == n && (a == 0 || s[a - 1] == '\n')
    && '\n' !in s[a..b] && (b == |s| || s[b] == '\n')
  }

  /** The first line ends where `NewlineFrom` finds its newline. */
  lemma {:induction false} FirstLineIs(s: string, k: nat)
    requires k < |s| && s[k] == '\n' && forall j :: 0 <= j < k ==> s[j] != '\n'
    ensures IsLine(s, 0, 0, k) && Newlines(s[..k + 1]) == 1 && LineText(s, 0, k) == StripCr(s[..k])
  {
    assert s[0..k] == s[..k] && s[..k + 1] == s[..k] + ['\n'];
    assert forall c :: c in s[..k] ==> c != '\n';
    NoNewlines(s[..k]);
    assert s[..0] == [];
    NewlinesAppend(s[..k], ['\n']);
    var one := ['\n'];
    assert one[..0] == [];
  }

  lemma {:induction false} DropSlice(s: string, d: nat, a: nat, b: nat)
    requires d <= |s| && a <= b <= |s| - d
    ensures s[d..][a..b] == s[d + a..d + b] && s[..d + a] == s[..d] + s[d..][..a]
    ensures a > 0 ==> s[d..][a - 1] == s[d + a - 1]
    ensures b < |s| - d ==> s[d..][b] == s[d + b]
  {
  }

  /** A line of what follows the first newline is the next line of the text. */
  lemma {:induction false} LaterLineIs(s: string, d: nat, n: nat, a: nat, b: nat)
    requires 0 < d <= |s| && s[d - 1] == '\n' && Newlines(s[..d]) == 1 && IsLine(s[d..], n, a, b)
    ensures IsLine(s, n + 1, d + a, d + b) && LineText(s[d..], a, b) == LineText(s, d + a, d + b)
  {
    DropSlice(s, d, a, b);
    NewlinesAppend(s[..d], s[d..][..a]);
  }

  /** The text of the line `s[a..b]`. */
  function LineText(s: string, a: nat, b: nat): string
    requires a <= b <= |s|
  {
    if b < |s| then StripCr(s[a..b]) else s[a..b]
  }

  /** A text is one line, or a line, a newline and the lines of the rest. */
  lemma {:induction false} LinesCons(s: string) returns (k: nat)
    requires s != []
    ensures k <= |s| && forall j :: 0 <= j < k ==> s[j] != '\n'
    ensures k == |s| ==> Lines(s) == [s]
    ensures k < |s| ==> s[k] == '\n' && Lines(s) == [StripCr(s[..k])] + Lines(s[k + 1..])
  {
    k := NewlineFrom(s, 0);
  }

  lemma {:induction false} WholeLineIs(s: string)
    requires forall j :: 0 <= j < |s| ==> s[j] != '\n'
    ensures IsLine(s, 0, 0, |s|) && LineText(s, 0, |s|) == s
  {
    assert s[0..|s|] == s && s[..0] == [];
  }

  /** `lines` are the lines of the text, each the stretch it should be. */
  ghost predicate AreLines(s: string, lines: seq<string>) {
    forall n :: 0 <= n < |lines| ==> LineIs(s, n, lines[n])
  }

  ghost predicate LineIs(s: string, n: nat, line: string) { exists a, b :: IsLine(s, n, a, b) && line == LineText(s, a, b) }

  lemma {:induction false} OneLine(s: string)
    requires forall j :: 0 <= j < |s| ==> s[j] != '\n'
    ensures AreLines(s, [s])
  {
    WholeLineIs(s);
    assert LineIs(s, 0, s);
  }

  lemma {:induction false} LineMovesOn(s: string, d: nat, n: nat, line: string)
    requires 0 < d <= |s| && s[d - 1] == '\n' && Newlines(s[..d]) == 1 && LineIs(s[d..], n, line)
    ensures LineIs(s, n + 1, line)
  {
    var x, y :| IsLine(s[d..], n, x, y) && line == LineText(s[d..], x, y);
    LaterLineIs(s, d, n, x, y);
  }

  lemma {:induction false} OneMoreLine(s: string, k: nat, rest: seq<string>)
    requires k < |s| && s[k] == '\n' && forall j :: 0 <= j < k ==> s[j] != '\n'
    requires AreLines(s[k + 1..], rest)
    ensures AreLines(s, [StripCr(s[..k])] + rest)
  {
    var lines := [StripCr(s[..k])] + rest;
    FirstLineIs(s, k);
    assert LineIs(s, 0, lines[0]);
    forall n | 0 < n < |lines| ensures LineIs(s, n, lines[n]) {
      assert lines[n] == rest[n - 1];
      LineMovesOn(s, k + 1, n - 1, rest[n - 1]);
    }
  }

  /** The lines of a text: line `n` is the stretch after its first `n` newlines,
      without a carriage return before its newline. */
  lemma {:induction false} LinesAre(s: string)
    ensures AreLines(s, Lines(s))
    decreases |s|
  {
    if s != [] {
      var k := LinesCons(s);
      if k == |s| { OneLine(s); }
      else {
        LinesAre(s[k + 1..]);
        OneMoreLine(s, k, Lines(s[k + 1..]));
      }
    }
  }

  /** There are as many as newlines, and one more when the text does not end with one. */
  lemma {:induction false} LineCount(s: string)
    ensures |Lines(s)| == Newlines(s) + (if s != "" && s[|s| - 1] != '\n' then 1 else 0)
    decreases |s|
  {
    if s != [] {
      var k := NewlineFrom(s, 0);
      if k == |s| {
        assert forall c :: c in s ==> c != '\n';
        NoNewlines(s);
      } else {
        FirstLineIs(s, k);
        LineCount(s[k + 1..]);
        assert s == s[..k + 1] + s[k + 1..];
        NewlinesAppend(s[..k + 1], s[k + 1..]);
      }
    }
  }

  lemma {:induction false} SliceOfSlice(s: string, a: nat, b: nat, i: nat, n: nat)
    requires a <= b <= |s| && i + n <= b - a
    ensures s[a..b][i..i + n] == s[a + i..a + i + n]
  {
    var part := s[a..b];
    var here, there := part[i..i + n], s[a + i..a + i + n];
    forall j | 0 <= j < n ensures here[j] == there[j] { assert here[j] == part[i + j] == s[a + i + j]; }
    assert here == there;
  }

  lemma {:induction false} ContainsInPart(s: string, a: nat, b: nat, pattern: string)
    requires a <= b <= |s| && Contains(s[a..b], pattern)
    ensures Contains(s, pattern)
  {
    var i :| 0 <= i <= b - a && ContainsAt(s[a..b], pattern, i);
    SliceOfSlice(s, a, b, i, |pattern|);
    assert ContainsAt(s, pattern, a + i);
  }

  predicate SomeLineContains(lines: seq<string>, pattern: string) { exists i :: 0 <= i < |lines| && Contains(lines[i], pattern) }

  lemma {:induction false} SomeLineCons(line: string, rest: seq<string>, pattern: string)
    ensures SomeLineContains([line] + rest, pattern) <==> Contains(line, pattern) || SomeLineContains(rest, pattern)
  {
    var all := [line] + rest;
    if i :| 0 <= i < |all| && Contains(all[i], pattern) { assert i > 0 ==> rest[i - 1] == all[i]; }
    if Contains(line, pattern) { assert Contains(all[0], pattern); }
    if i :| 0 <= i < |rest| && Contains(rest[i], pattern) { assert all[i + 1] == rest[i]; }
  }

  /** For a pattern that holds no newline and does not end in a carriage return,
      some line of a text contains it exactly when the text does. */
  lemma {:induction false} SomeLineContainsIff(s: string, pattern: string)
    requires pattern != "" && '\n' !in pattern && pattern[|pattern| - 1] != '\r'
    ensures SomeLineContains(Lines(s), pattern) <==> Contains(s, pattern)
    decreases |s|
  {
    if s != [] {
      var k := NewlineFrom(s, 0);
      if k == |s| {
        assert Lines(s)[0] == s;
      } else {
        SomeLineContainsIff(s[k + 1..], pattern);
        SomeLineCons(StripCr(s[..k]), Lines(s[k + 1..]), pattern);
        ContainsSplit(s, k, pattern);
      }
    }
  }

  /** An occurrence lies within the first line or after its newline. */
  lemma {:induction false} ContainsSplit(s: string, k: nat, pattern: string)
    requires pattern != "" && '\n' !in pattern && pattern[|pattern| - 1] != '\r'
    requires k < |s| && s[k] == '\n'
    ensures Contains(s, pattern) <==> Contains(StripCr(s[..k]), pattern) || Contains(s[k + 1..], pattern)
  {
    var line, rest := StripCr(s[..k]), s[k + 1..];
    assert line == s[0..|line|] && rest == s[k + 1..|s|];
    if Contains(line, pattern) { ContainsInPart(s, 0, |line|, pattern); }
    if Contains(rest, pattern) { ContainsInPart(s, k + 1, |s|, pattern); }
    if i :| 0 <= i <= |s| && ContainsAt(s, pattern, i) { OccurrenceSplit(s, k, pattern, i); }
  }

  lemma {:induction false} OccurrenceSplit(s: string, k: nat, pattern: string, i: nat)
    requires pattern != "" && '\n' !in pattern && pattern[|pattern| - 1] != '\r'
    requires k < |s| && s[k] == '\n' && ContainsAt(s, pattern, i)
    ensures Contains(StripCr(s[..k]), pattern) || Contains(s[k + 1..], pattern)
  {
    var line, rest, e := StripCr(s[..k]), s[k + 1..], i + |pattern|;
    assert forall j :: i <= j < e ==> s[j] == pattern[j - i] && s[j] != '\n';
    if e <= k {
      assert s[e - 1] == pattern[|pattern| - 1];
      assert e <= |line| && forall j :: 0 <= j < |line| ==> line[j] == s[j];
      assert line[i..e] == s[i..e];
      assert ContainsAt(line, pattern, i);
    } else {
      assert rest[i - k - 1..e - k - 1] == s[i..e];
      assert ContainsAt(rest, pattern, i - k - 1);
    }
  }
}
