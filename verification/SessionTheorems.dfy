/**
 What every run of racing session calls guarantees.
 */
module SessionTheorems {
  import opened Prelude
  import opened SessionModel
  import opened SessionRuns

  lemma {:induction false} InitInv(start: Option<Blob>)
    ensures Inv(start, Init(start))
  {
  }

  lemma {:induction false} ReachableInv(start: Option<Blob>, acts: seq<Action>)
    ensures Inv(start, Run(Init(start), acts))
  {
    InitInv(start);
    RunKeepsInv(start, Init(start), acts);
  }

  /** The cell just before log entry `k`. */
  function CellAt(start: Option<Blob>, log: seq<Write>, k: nat): Option<Blob>
    requires k <= |log|
  {
    if k == 0 then start else log[k - 1].after
  }

  lemma {:induction false} ChainLinks(start: Option<Blob>, log: seq<Write>, cell: Option<Blob>)
    requires Chained(start, log, cell)
    ensures forall i {:trigger CellAt(start, log, i)} :: 0 <= i < |log| ==> log[i].before == CellAt(start, log, i)
    ensures cell == CellAt(start, log, |log|)
  {
    if log != [] {
      var n := |log| - 1;
      ChainLinks(start, log[..n], log[n].before);
      forall i | 0 <= i < |log| ensures log[i].before == CellAt(start, log, i) {
        if i < n {
          assert log[..n][i] == log[i];
          assert CellAt(start, log[..n], i) == CellAt(start, log, i);
        } else {
          assert CellAt(start, log[..n], n) == CellAt(start, log, n);
        }
      }
    }
  }

  lemma {:induction false} ReplayFromChain(start: Option<Blob>, procs: map<Pid, Proc>, log: seq<Write>, cell: Option<Blob>)
    requires Chained(start, log, cell)
    requires forall i :: 0 <= i < |log| ==> EntryOk(procs, log[i])
    ensures View(cell) == Replay(View(start), procs, log)
  {
    if log != [] {
      var n := |log| - 1;
      var e := log[n];
      ReplayFromChain(start, procs, log[..n], e.before);
      assert EntryOk(procs, e);
      match e.author
      case Foreign =>
      case Deleter(_) =>
      case Migrator(_) => ViewOfWritten(View(e.before));
      case Committer(pid) => MutatePreserves(procs[pid].call, e.before);
    }
  }

  /** Linearizability: in every reachable state the record a reader would see
      is the log of writes replayed one call at a time, in the order in which
      their swaps won. */
  lemma {:induction false} EveryRunReplays(start: Option<Blob>, acts: seq<Action>)
    ensures var w := Run(Init(start), acts);
      View(w.cell) == Replay(View(start), w.procs, w.log)
  {
    ReachableInv(start, acts);
    var w := Run(Init(start), acts);
    ReplayFromChain(start, w.procs, w.log, w.cell);
  }

  function AddedBy(procs: map<Pid, Proc>, e: Write): seq<Message> {
    if e.author.Committer? && e.author.pid in procs then Added(procs[e.author.pid].call) else []
  }

  /** The messages of the calls that won among log entries `k..n`, in win order. */
  function Committed(procs: map<Pid, Proc>, log: seq<Write>, k: nat, n: nat): seq<Message>
    requires k <= n <= |log|
    decreases n
  {
    if k == n then [] else Committed(procs, log, k, n - 1) + AddedBy(procs, log[n - 1])
  }

  /** Entries `k..n` are all written by calls other than deletes. */
  predicate OnlyCalls(log: seq<Write>, k: nat, n: nat)
    requires k <= n <= |log|
  {
    forall i :: k <= i < n ==> log[i].author.Migrator? || log[i].author.Committer?
  }

  /** `post` is `pre` with `added` appended, keeping creation time and parent. */
  predicate Grew(pre: SessionData, post: SessionData, added: seq<Message>) {
    && post.messages == pre.messages + added
    && (pre.createdAt.Some? ==> post.createdAt == pre.createdAt)
    && post.parent == pre.parent
  }

  /** One write by a call, seen through `View`. */
  lemma {:induction false} CallEntryGrows(procs: map<Pid, Proc>, e: Write)
    requires EntryOk(procs, e) && (e.author.Migrator? || e.author.Committer?)
    ensures Grew(View(e.before), View(e.after), AddedBy(procs, e))
  {
    if e.author.Migrator? { ViewOfWritten(View(e.before)); }
    else { MutatePreserves(procs[e.author.pid].call, e.before); }
  }

  lemma {:induction false} GrowthAdds(views: seq<SessionData>, procs: map<Pid, Proc>, log: seq<Write>, k: nat, n: nat)
    requires k <= n <= |log| && |views| == |log| + 1
    requires forall i :: k <= i < n ==> Grew(views[i], views[i + 1], AddedBy(procs, log[i]))
    ensures Grew(views[k], views[n], Committed(procs, log, k, n))
    decreases n
  {
    if k < n {
      GrowthAdds(views, procs, log, k, n - 1);
      assert Grew(views[n - 1], views[n - 1 + 1], AddedBy(procs, log[n - 1]));
    }
  }

  /** The same on a chain of writes. */
  lemma {:induction false} ChainGrows(start: Option<Blob>, procs: map<Pid, Proc>, log: seq<Write>, cell: Option<Blob>, k: nat)
    requires Chained(start, log, cell) && forall i :: 0 <= i < |log| ==> EntryOk(procs, log[i])
    requires k <= |log| && OnlyCalls(log, k, |log|)
    ensures Grew(View(CellAt(start, log, k)), View(cell), Committed(procs, log, k, |log|))
  {
    ChainLinks(start, log, cell);
    var views := Views(start, log);
    forall i | k <= i < |log| ensures Grew(views[i], views[i + 1], AddedBy(procs, log[i])) {
      assert log[i].before == CellAt(start, log, i);
      CallEntryGrows(procs, log[i]);
    }
    GrowthAdds(views, procs, log, k, |log|);
  }

  /** What readers saw before each entry, and at the end. */
  function Views(start: Option<Blob>, log: seq<Write>): (views: seq<SessionData>)
    ensures |views| == |log| + 1 && forall i :: 0 <= i <= |log| ==> views[i] == View(CellAt(start, log, i))
  {
    seq(|log| + 1, i requires 0 <= i <= |log| => View(CellAt(start, log, i)))
  }

  /** The transcript theorem. Take any reachable state and any point `k` of its
      history after which nobody deleted or overwrote the cell from outside:
      the stored transcript is the transcript at `k` followed by the messages
      of every winning call since, in win order, through all racing
      migrations; a set creation time and the parent link have not moved. */
  lemma {:induction false} TranscriptTheorem(start: Option<Blob>, acts: seq<Action>, k: nat)
    requires var log := Run(Init(start), acts).log; k <= |log| && OnlyCalls(log, k, |log|)
    ensures var w := Run(Init(start), acts);
      Grew(View(CellAt(start, w.log, k)), View(w.cell), Committed(w.procs, w.log, k, |w.log|))
  {
    ReachableInv(start, acts);
    var w := Run(Init(start), acts);
    ChainGrows(start, w.procs, w.log, w.cell, k);
  }

  // ---- Records of any age ----

  /** The last of the winning updates among entries `k..n` that set a field. */
  function LastTitle(procs: map<Pid, Proc>, log: seq<Write>, k: nat, n: nat, was: Option<string>): Option<string>
    requires k <= n <= |log|
    decreases n
  {
    if k == n then was
    else if log[n - 1].author.Committer? && log[n - 1].author.pid in procs && procs[log[n - 1].author.pid].call.Update? then
      Patched(procs[log[n - 1].author.pid].call.patch.title, LastTitle(procs, log, k, n - 1, was))
    else LastTitle(procs, log, k, n - 1, was)
  }

  function LastArchived(procs: map<Pid, Proc>, log: seq<Write>, k: nat, n: nat, was: bool): bool
    requires k <= n <= |log|
    decreases n
  {
    if k == n then was
    else if log[n - 1].author.Committer? && log[n - 1].author.pid in procs && procs[log[n - 1].author.pid].call.Update? then
      Patched(procs[log[n - 1].author.pid].call.patch.archived, LastArchived(procs, log, k, n - 1, was))
    else LastArchived(procs, log, k, n - 1, was)
  }

  function LastMeta(procs: map<Pid, Proc>, log: seq<Write>, k: nat, n: nat, was: Option<string>): Option<string>
    requires k <= n <= |log|
    decreases n
  {
    if k == n then was
    else if log[n - 1].author.Committer? && log[n - 1].author.pid in procs && procs[log[n - 1].author.pid].call.Update? then
      Patched(procs[log[n - 1].author.pid].call.patch.meta, LastMeta(procs, log, k, n - 1, was))
    else LastMeta(procs, log, k, n - 1, was)
  }

  /** One write by a call, seen through `View`, leaves what the call changes. */
  lemma {:induction false} CallEntryChanges(procs: map<Pid, Proc>, e: Write)
    requires EntryOk(procs, e) && (e.author.Migrator? || e.author.Committer?)
    ensures e.author.Migrator? ==> View(e.after) == View(e.before)
    ensures e.author.Committer? ==> e.author.pid in procs && Changes(procs[e.author.pid].call, View(e.before), View(e.after))
  {
    if e.author.Migrator? { ViewOfWritten(View(e.before)); }
    else {
      MutatePreserves(procs[e.author.pid].call, e.before);
      MutateChanges(procs[e.author.pid].call, View(e.before));
    }
  }

  lemma {:induction false} SettingsFold(views: seq<SessionData>, procs: map<Pid, Proc>, log: seq<Write>, n: nat)
    requires n <= |log| && |views| == |log| + 1
    requires forall i :: 0 <= i < n ==> StepShown(procs, log[i], views[i], views[i + 1])
    ensures views[n].title == LastTitle(procs, log, 0, n, views[0].title)
    ensures views[n].archived == LastArchived(procs, log, 0, n, views[0].archived)
    ensures views[n].meta == LastMeta(procs, log, 0, n, views[0].meta)
    decreases n
  {
    if n > 0 {
      SettingsFold(views, procs, log, n - 1);
      assert StepShown(procs, log[n - 1], views[n - 1], views[n - 1 + 1]);
    }
  }

  /** What readers saw before and after one write by a call. */
  predicate StepShown(procs: map<Pid, Proc>, e: Write, pre: SessionData, post: SessionData) {
    && (e.author.Migrator? || e.author.Committer?)
    && (e.author.Migrator? ==> post == pre)
    && (e.author.Committer? ==> e.author.pid in procs && Writes(procs[e.author.pid].call) && Changes(procs[e.author.pid].call, pre, post))
  }

  lemma {:induction false} SettingsOfChain(start: Option<Blob>, procs: map<Pid, Proc>, log: seq<Write>, cell: Option<Blob>)
    requires Chained(start, log, cell) && forall i :: 0 <= i < |log| ==> EntryOk(procs, log[i])
    requires OnlyCalls(log, 0, |log|)
    ensures View(cell).title == LastTitle(procs, log, 0, |log|, View(start).title)
    ensures View(cell).archived == LastArchived(procs, log, 0, |log|, View(start).archived)
    ensures View(cell).meta == LastMeta(procs, log, 0, |log|, View(start).meta)
  {
    ChainLinks(start, log, cell);
    var views := Views(start, log);
    forall i | 0 <= i < |log| ensures StepShown(procs, log[i], views[i], views[i + 1]) {
      assert log[i].before == CellAt(start, log, i);
      CallEntryChanges(procs, log[i]);
    }
    SettingsFold(views, procs, log, |log|);
  }

  /** The transcript theorem by what is stored, without the reader's own view.
      `was` is what the first stored value must read as: a record of version 2
      or older as it is, a new one for anything else. Whatever calls race and
      whoever migrates it, at the end the cell reads as a record with the
      original messages followed by those of every winning call in win order,
      with the original parent and creation time, and with each setting as the
      last winning update that set it left it. */
  lemma {:induction false} StoredRecordSurvives(start: Option<Blob>, was: SessionData, acts: seq<Action>) returns (now: SessionData)
    requires ReadsAs(start, was)
    requires var log := Run(Init(start), acts).log; OnlyCalls(log, 0, |log|)
    ensures var w := Run(Init(start), acts);
      && ReadsAs(w.cell, now)
      && now.messages == was.messages + Committed(w.procs, w.log, 0, |w.log|)
      && now.parent == was.parent && (was.createdAt.Some? ==> now.createdAt == was.createdAt)
      && now.title == LastTitle(w.procs, w.log, 0, |w.log|, was.title)
      && now.archived == LastArchived(w.procs, w.log, 0, |w.log|, was.archived)
      && now.meta == LastMeta(w.procs, w.log, 0, |w.log|, was.meta)
  {
    var w := Run(Init(start), acts);
    ReachableInv(start, acts);
    ViewReads(start);
    ViewReads(w.cell);
    now := View(w.cell);
    TranscriptTheorem(start, acts, 0);
    SettingsOfChain(start, w.procs, w.log, w.cell);
  }

  predicate CallOnly(a: Action) { !a.Interfere? && (a.Spawn? ==> !a.call.Delete?) }

  predicate NoDeleters(w: World) {
    && (forall pid :: pid in w.procs ==> !w.procs[pid].call.Delete?)
    && OnlyCalls(w.log, 0, |w.log|)
  }

  lemma {:induction false} CallStepOnlyCalls(w: World, a: Action)
    requires NoDeleters(w) && CallOnly(a)
    requires forall pid :: pid in w.procs ==> !w.procs[pid].pc.Deleting?
    ensures NoDeleters(Apply(w, a))
    ensures forall pid :: pid in Apply(w, a).procs ==> !Apply(w, a).procs[pid].pc.Deleting?
  {
  }

  lemma {:induction false} CallRunsOnlyCall(w: World, acts: seq<Action>)
    requires NoDeleters(w)
    requires forall pid :: pid in w.procs ==> !w.procs[pid].pc.Deleting?
    requires forall i :: 0 <= i < |acts| ==> CallOnly(acts[i])
    ensures NoDeleters(Run(w, acts))
    decreases |acts|
  {
    if acts != [] {
      CallStepOnlyCalls(w, acts[0]);
      CallRunsOnlyCall(Apply(w, acts[0]), acts[1..]);
    }
  }

  /** With no deletes and no outside writer, nothing is ever lost: the final
      transcript is the first one followed by the messages of all winners. */
  lemma {:induction false} NothingLost(start: Option<Blob>, acts: seq<Action>)
    requires forall i :: 0 <= i < |acts| ==> CallOnly(acts[i])
    ensures var w := Run(Init(start), acts);
      Grew(View(start), View(w.cell), Committed(w.procs, w.log, 0, |w.log|))
  {
    CallRunsOnlyCall(Init(start), acts);
    TranscriptTheorem(start, acts, 0);
  }

  /** Exactly once: a writing call that returned a record appears once in the
      log, with exactly that record; a call that is still running, failed, was
      rejected, found nothing or gave up appears nowhere. */
  lemma {:induction false} CommitExactlyOnce(start: Option<Blob>, acts: seq<Action>, pid: Pid)
    requires pid in Run(Init(start), acts).procs
    ensures var w := Run(Init(start), acts); var p := w.procs[pid]; var cs := CommitsOf(w.log, pid);
      if p.pc.Finished? && p.pc.outcome.Returned? && Writes(p.call)
      then |cs| == 1 && cs[0].after == Some(Serialize(p.pc.outcome.data))
      else cs == []
  {
    ReachableInv(start, acts);
    assert CommitStateOk(Run(Init(start), acts), pid);
  }

  /** No resurrection: whatever deletes are interleaved, a winning update (and
      every migration write) found a stored thread to replace. */
  lemma {:induction false} UpdatesNeverCreate(start: Option<Blob>, acts: seq<Action>, i: nat)
    requires i < |Run(Init(start), acts).log|
    requires var w := Run(Init(start), acts); var a := w.log[i].author;
      a.Migrator? || (a.Committer? && a.pid in w.procs && w.procs[a.pid].call.Update?)
    ensures var w := Run(Init(start), acts);
      CellAt(start, w.log, i).Some? && w.log[i].after.Some?
  {
    ReachableInv(start, acts);
    var w := Run(Init(start), acts);
    ChainLinks(start, w.log, w.cell);
    assert EntryOk(w.procs, w.log[i]);
  }

  lemma {:induction false} IncreasingDistinct(xs: seq<nat>) returns (s: set<nat>)
    requires forall i, j :: 0 <= i < j < |xs| ==> xs[i] < xs[j]
    ensures |s| == |xs| && forall x :: x in s <==> x in xs
  {
    if xs == [] {
      s := {};
    } else {
      var n := |xs| - 1;
      var r := IncreasingDistinct(xs[..n]);
      forall x | x in r ensures x < xs[n] {
        assert x in xs[..n];
        var i :| 0 <= i < n && xs[..n][i] == x;
        assert xs[i] == x;
      }
      s := r + {xs[n]};
      assert xs == xs[..n] + [xs[n]];
    }
  }

  /** Giving up means real contention: a call that spent its retry budget met
      at least eight distinct writes by others, less one for every read the
      host failed. */
  lemma {:induction false} ContentionIsCharged(start: Option<Blob>, acts: seq<Action>, pid: Pid) returns (rivals: set<nat>)
    requires var w := Run(Init(start), acts); pid in w.procs && w.procs[pid].pc == Finished(Contended)
    ensures var w := Run(Init(start), acts);
      && (forall i :: i in rivals ==> i < |w.log| && !By(w.log[i], pid))
      && |rivals| + w.procs[pid].failedReads >= 8
  {
    ReachableInv(start, acts);
    var w := Run(Init(start), acts);
    assert ChargesOk(w, pid);
    rivals := IncreasingDistinct(w.procs[pid].charged);
  }

  /** `n` rounds of a failed read followed by a swap against it. */
  function BlindRounds(pid: Pid, n: nat): seq<Action> {
    if n == 0 then [] else [Step(pid, false), Step(pid, true)] + BlindRounds(pid, n - 1)
  }

  lemma {:induction false} BlindRoundsLose(w: World, pid: Pid, n: nat)
    requires pid in w.procs && w.procs[pid].call.Append? && w.procs[pid].pc.Reading?
    requires w.cell.Some? && 0 < n && w.procs[pid].attempt + n == CAS_RETRY_LIMIT
    ensures var w' := Run(w, BlindRounds(pid, n));
      w'.log == w.log && pid in w'.procs && w'.procs[pid].pc == Finished(Contended)
    decreases n
  {
    var w1 := Apply(w, Step(pid, false));
    var w2 := Apply(w1, Step(pid, true));
    var rest := BlindRounds(pid, n - 1);
    assert BlindRounds(pid, n) == [Step(pid, false), Step(pid, true)] + rest;
    assert BlindRounds(pid, n)[1..] == [Step(pid, true)] + rest;
    assert ([Step(pid, true)] + rest)[1..] == rest;
    assert Run(w, BlindRounds(pid, n)) == Run(w1, [Step(pid, true)] + rest) == Run(w2, rest);
    if n > 1 { BlindRoundsLose(w2, pid, n - 1); }
  }

  /** The failed-read allowance is needed: on a stored thread nobody else
      touches, eight failed reads alone make an append give up. */
  lemma {:induction false} FailedReadsAloneContend(b: Blob, ms: seq<Message>, now: Option<nat>)
    ensures var w := Run(Init(Some(b)), [Spawn(0, Append(ms, now))] + BlindRounds(0, CAS_RETRY_LIMIT));
      w.log == [] && 0 in w.procs && w.procs[0].pc == Finished(Contended)
  {
    var acts := [Spawn(0, Append(ms, now))] + BlindRounds(0, CAS_RETRY_LIMIT);
    var w := Apply(Init(Some(b)), acts[0]);
    assert acts[1..] == BlindRounds(0, CAS_RETRY_LIMIT);
    BlindRoundsLose(w, 0, CAS_RETRY_LIMIT);
  }

  /** A reading call left alone for its next two operations returns what the
      stored value must read as, and leaves an older record upgraded. */
  lemma {:induction false} UndisturbedReadFinishes(w: World, pid: Pid)
    requires pid in w.procs && w.procs[pid].call.Peek? && w.procs[pid].pc.Reading?
    ensures var w' := Run(w, [Step(pid, true), Step(pid, true)]);
      && pid in w'.procs && w'.procs[pid].pc.Finished? && w'.procs[pid].pc.outcome.Returned?
      && ReadsAs(w.cell, w'.procs[pid].pc.outcome.data) && w'.cell == Upgraded(w.cell)
  {
    var a := Step(pid, true);
    ViewReads(w.cell);
    assert [a, a][1..] == [a] && [a][1..] == [];
    assert Run(w, [a, a]) == Run(Apply(w, a), [a]) == Run(Apply(Apply(w, a), a), []);
  }

  /** A delete left alone for its next two operations removes what is stored, or
      finds nothing. */
  lemma {:induction false} UndisturbedDeleteFinishes(w: World, pid: Pid)
    requires pid in w.procs && w.procs[pid].call.Delete? && w.procs[pid].pc.Reading?
    ensures var w' := Run(w, [Step(pid, true), Step(pid, true)]);
      && pid in w'.procs && w'.cell == None
      && w'.procs[pid].pc == Finished(if w.cell.Some? then Removed else Missing)
  {
    var a := Step(pid, true);
    assert [a, a][1..] == [a] && [a][1..] == [];
    assert Run(w, [a, a]) == Run(Apply(w, a), [a]) == Run(Apply(Apply(w, a), a), []);
  }

  /** Progress: a writing call left alone for its next three operations is
      over, and unless its mutation refuses or an update finds nothing, it has
      committed. */
  lemma {:induction false} UndisturbedCallFinishes(w: World, pid: Pid)
    requires pid in w.procs && Writes(w.procs[pid].call) && w.procs[pid].pc.Reading?
    ensures var c := w.procs[pid].call; var w' := Run(w, [Step(pid, true), Step(pid, true), Step(pid, true)]);
      && pid in w'.procs
      && w'.procs[pid].pc == Finished(
           if c.Update? && w.cell.None? then Missing
           else match Mutate(c, View(w.cell)) case Err(_) => Rejected case Ok(d) => Returned(d))
      && (forall was :: ReadsAs(w.cell, was) && w'.procs[pid].pc.outcome.Returned? ==> Changes(c, was, w'.procs[pid].pc.outcome.data))
      && (w'.procs[pid].pc.outcome.Returned? ==> w'.cell == Some(Serialize(w'.procs[pid].pc.outcome.data)))
  {
    var a := Step(pid, true);
    ViewReads(w.cell);
    MutateChanges(w.procs[pid].call, View(w.cell));
    var w1 := Apply(w, a);
    var w2 := Apply(w1, a);
    var w3 := Apply(w2, a);
    assert [a, a, a][1..] == [a, a] && [a, a][1..] == [a] && [a][1..] == [];
    assert Run(w, [a, a, a]) == Run(w1, [a, a]) == Run(w2, [a]) == Run(w3, []) == w3;
  }
}
