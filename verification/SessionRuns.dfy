/**
 Any number of session calls racing on one stored session, together with a
 foreign writer that may replace or delete the cell between any two steps.
 Each call is a process whose KV operations (read, migration CAS, final CAS,
 delete) are separate atomic steps.
 */
module SessionRuns {
  import opened Prelude
  import opened SessionModel

  type Pid = nat

  datatype Outcome =
    | Returned(data: SessionData)   // Ok with the record the call ends on
    | Missing                       // update of an absent thread, or delete of one
    | Removed                       // delete that found the key
    | Rejected                      // the mutation refused (oversize meta)
    | HostFailed                    // a KV operation returned an error
    | Contended                     // the retry budget is spent

  datatype Pc =
    | Reading
    | Migrating(raw: Blob, migrated: SessionData)
    | Swapping(data: SessionData, expected: Option<Blob>, readOk: bool)
    | Deleting
    | Finished(outcome: Outcome)

  /** `attempt` counts lost swaps; `failedReads`, `mark` and `charged` are
      history: reads the host failed, log length at the current read, and one
      log index per lost swap. */
  datatype Proc = Proc(call: Call, pc: Pc, attempt: nat, failedReads: nat, mark: nat, charged: seq<nat>)

  datatype Author = Migrator(pid: Pid) | Committer(pid: Pid) | Deleter(pid: Pid) | Foreign

  datatype Write = Write(author: Author, before: Option<Blob>, after: Option<Blob>)

  datatype World = World(cell: Option<Blob>, procs: map<Pid, Proc>, log: seq<Write>)

  datatype Action =
    | Spawn(pid: Pid, call: Call)
    | Step(pid: Pid, ok: bool)           // ok == false: the host fails the operation
    | Interfere(after: Option<Blob>)

  function Init(cell: Option<Blob>): World { World(cell, map[], []) }

  function Record(w: World, author: Author, after: Option<Blob>): World {
    w.(cell := after, log := w.log + [Write(author, w.cell, after)])
  }

  function Put(w: World, pid: Pid, p: Proc): World { w.(procs := w.procs[pid := p]) }

  /** Where a call goes once `SessionData::load` has returned. */
  function AfterLoad(c: Call, data: SessionData, expected: Option<Blob>, readOk: bool): Pc {
    match c
    case Peek => Finished(Returned(data))
    case Update(_, _) => if expected.None? then Finished(Missing) else Swapping(data, expected, readOk)
    case Append(_, _) => Swapping(data, expected, readOk)
    case Delete => Reading
  }

  function StepRead(w: World, pid: Pid, p: Proc, ok: bool): World
    requires p.pc.Reading?
  {
    if p.call.Delete? then
      Put(w, pid, p.(pc := if !ok then Finished(HostFailed)
                           else if w.cell.None? then Finished(Missing) else Deleting))
    else
      var p' := p.(mark := |w.log|);
      if !ok then
        Put(w, pid, p'.(pc := AfterLoad(p.call, Fresh, None, false), failedReads := p.failedReads + 1))
      else if w.cell.None? then
        Put(w, pid, p'.(pc := AfterLoad(p.call, Fresh, None, true)))
      else if NeedsMigration(w.cell.value) then
        Put(w, pid, p'.(pc := Migrating(w.cell.value, View(w.cell))))
      else
        Put(w, pid, p'.(pc := AfterLoad(p.call, View(w.cell), w.cell, true)))
  }

  function StepMigrate(w: World, pid: Pid, p: Proc, ok: bool): World
    requires p.pc.Migrating?
  {
    var Migrating(raw, d) := p.pc;
    if ok && w.cell == Some(raw) then
      Put(Record(w, Migrator(pid), Some(Serialize(d))), pid,
          p.(pc := AfterLoad(p.call, d, Some(Serialize(d)), true)))
    else
      Put(w, pid, p.(pc := AfterLoad(p.call, d, Some(raw), true)))
  }

  function StepSwap(w: World, pid: Pid, p: Proc, ok: bool): World
    requires p.pc.Swapping? && Writes(p.call)
  {
    match Mutate(p.call, p.pc.data)
    case Err(_) => Put(w, pid, p.(pc := Finished(Rejected)))
    case Ok(d) =>
      if !ok then Put(w, pid, p.(pc := Finished(HostFailed)))
      else if w.cell == p.pc.expected then
        Put(Record(w, Committer(pid), Some(Serialize(d))), pid, p.(pc := Finished(Returned(d))))
      else
        var charged := if p.pc.readOk then p.charged + [FirstByOther(w.log, pid, p.mark)] else p.charged;
        Put(w, pid, p.(
          attempt := p.attempt + 1,
          charged := charged,
          pc := if p.attempt + 1 < CAS_RETRY_LIMIT then Reading else Finished(Contended)))
  }

  function StepDelete(w: World, pid: Pid, p: Proc, ok: bool): World {
    if ok then Put(Record(w, Deleter(pid), None), pid, p.(pc := Finished(Removed)))
    else Put(w, pid, p.(pc := Finished(HostFailed)))
  }

  function Apply(w: World, a: Action): World {
    match a
    case Spawn(pid, call) =>
      if pid in w.procs then w else Put(w, pid, Proc(call, Reading, 0, 0, 0, []))
    case Interfere(after) => Record(w, Foreign, after)
    case Step(pid, ok) =>
      if pid !in w.procs then w
      else
        var p := w.procs[pid];
        match p.pc
        case Reading => StepRead(w, pid, p, ok)
        case Migrating(_, _) => StepMigrate(w, pid, p, ok)
        case Swapping(_, _, _) => if Writes(p.call) then StepSwap(w, pid, p, ok) else w
        case Deleting => StepDelete(w, pid, p, ok)
        case Finished(_) => w
  }

  function Run(w: World, acts: seq<Action>): World
    decreases |acts|
  {
    if acts == [] then w else Run(Apply(w, acts[0]), acts[1..])
  }

  // ---- Who wrote what ----

  predicate By(e: Write, pid: Pid) { !e.author.Foreign? && e.author.pid == pid }

  /** Index of the first write from `from` on that is not by `pid`. */
  function FirstByOther(log: seq<Write>, pid: Pid, from: nat): (i: nat)
    ensures (exists j :: from <= j < |log| && !By(log[j], pid)) ==> from <= i < |log| && !By(log[i], pid)
    decreases |log| - from
  {
    if from >= |log| then 0
    else if !By(log[from], pid) then from
    else FirstByOther(log, pid, from + 1)
  }

  predicate OtherSince(log: seq<Write>, pid: Pid, from: nat) {
    exists j :: from <= j < |log| && !By(log[j], pid)
  }

  /** The writes committed by `pid`'s final swap, in order. */
  function CommitsOf(log: seq<Write>, pid: Pid): seq<Write> {
    if log == [] then []
    else
      var last := log[|log| - 1];
      var rest := CommitsOf(log[..|log| - 1], pid);
      if last.author == Committer(pid) then rest + [last] else rest
  }

  lemma {:induction false} CommitsOfSnoc(log: seq<Write>, e: Write, pid: Pid)
    ensures CommitsOf(log + [e], pid) == CommitsOf(log, pid) + (if e.author == Committer(pid) then [e] else [])
  {
    assert (log + [e])[..|log|] == log;
  }

  /** The record a reader would see, computed from the log alone: migrations
      change nothing, a commit applies its call, a delete or a foreign write
      sets what it wrote. */
  function Replay(start: SessionData, procs: map<Pid, Proc>, log: seq<Write>): SessionData {
    if log == [] then start
    else
      var d := Replay(start, procs, log[..|log| - 1]);
      var e := log[|log| - 1];
      match e.author
      case Migrator(_) => d
      case Deleter(_) => Fresh
      case Foreign => View(e.after)
      case Committer(pid) =>
        if pid in procs && Writes(procs[pid].call) && Mutate(procs[pid].call, d).Ok?
        then Mutate(procs[pid].call, d).value else d
  }

  // ---- The invariant ----

  /** One log entry is what its author was entitled to write. */
  predicate EntryOk(procs: map<Pid, Proc>, e: Write) {
    match e.author
    case Foreign => true
    case Deleter(pid) => pid in procs && procs[pid].call.Delete? && e.after.None?
    case Migrator(_) =>
      && e.before.Some? && NeedsMigration(e.before.value)
      && e.after == Some(Serialize(View(e.before)))
    case Committer(pid) =>
      && pid in procs && Writes(procs[pid].call)
      && Mutate(procs[pid].call, View(e.before)).Ok?
      && e.after == Some(Serialize(Mutate(procs[pid].call, View(e.before)).value))
      && (procs[pid].call.Update? ==> e.before.Some?)
  }

  predicate Chained(start: Option<Blob>, log: seq<Write>, cell: Option<Blob>) {
    if log == [] then cell == start
    else log[|log| - 1].after == cell && Chained(start, log[..|log| - 1], log[|log| - 1].before)
  }

  predicate CommitStateOk(w: World, pid: Pid)
    requires pid in w.procs
  {
    var p := w.procs[pid];
    var cs := CommitsOf(w.log, pid);
    if p.pc.Finished? && p.pc.outcome.Returned? && Writes(p.call)
    then |cs| == 1 && cs[0].after == Some(Serialize(p.pc.outcome.data))
    else cs == []
  }

  /** The charged indices are distinct writes by others, all older than `mark`
      while an attempt is under way. */
  predicate ChargesOk(w: World, pid: Pid)
    requires pid in w.procs
  {
    var p := w.procs[pid];
    && (forall i :: 0 <= i < |p.charged| ==> p.charged[i] < |w.log| && !By(w.log[p.charged[i]], pid))
    && (forall i, j :: 0 <= i < j < |p.charged| ==> p.charged[i] < p.charged[j])
    && p.mark <= |w.log|
    && (p.pc.Migrating? || p.pc.Swapping? ==> forall i :: 0 <= i < |p.charged| ==> p.charged[i] < p.mark)
    && p.attempt + (if p.pc.Swapping? && !p.pc.readOk then 1 else 0) <= |p.charged| + p.failedReads
    && (p.pc.Finished? && p.pc.outcome.Contended? ==> p.attempt == CAS_RETRY_LIMIT)
    && (!p.pc.Finished? ==> p.attempt < CAS_RETRY_LIMIT)
  }

  predicate PcOk(w: World, pid: Pid)
    requires pid in w.procs
  {
    var p := w.procs[pid];
    match p.pc
    case Migrating(raw, d) =>
      && !p.call.Delete? && NeedsMigration(raw) && d == View(Some(raw))
      && (w.cell == Some(raw) || OtherSince(w.log, pid, p.mark))
    case Swapping(d, expected, readOk) =>
      && Writes(p.call) && d == View(expected)
      && (p.call.Update? ==> expected.Some?)
      && (readOk ==> w.cell == expected || OtherSince(w.log, pid, p.mark))
    case Deleting => p.call.Delete?
    case _ => true
  }

  ghost predicate Inv(start: Option<Blob>, w: World) {
    && Chained(start, w.log, w.cell)
    && (forall i :: 0 <= i < |w.log| ==> EntryOk(w.procs, w.log[i]))
    && (forall i :: 0 <= i < |w.log| && w.log[i].author.Committer? ==> w.log[i].author.pid in w.procs)
    && (forall pid :: pid in w.procs ==> CommitStateOk(w, pid) && ChargesOk(w, pid) && PcOk(w, pid))
    && (forall pid :: pid !in w.procs ==> CommitsOf(w.log, pid) == [])
  }

  lemma {:induction false} EntriesSurvive(procs: map<Pid, Proc>, pid: Pid, p: Proc, e: Write)
    requires EntryOk(procs, e)
    requires pid in procs ==> procs[pid].call == p.call
    ensures EntryOk(procs[pid := p], e)
  {
  }

  /** Changing one process's bookkeeping without writing the cell. */
  lemma {:induction false} PutKeepsInv(start: Option<Blob>, w: World, pid: Pid, p: Proc)
    requires Inv(start, w)
    requires pid in w.procs ==> w.procs[pid].call == p.call
    requires var w' := Put(w, pid, p); CommitStateOk(w', pid) && ChargesOk(w', pid) && PcOk(w', pid)
    ensures Inv(start, Put(w, pid, p))
  {
    var w' := Put(w, pid, p);
    forall i | 0 <= i < |w'.log| ensures EntryOk(w'.procs, w'.log[i]) {
      EntriesSurvive(w.procs, pid, p, w.log[i]);
    }
    forall q | q in w'.procs ensures CommitStateOk(w', q) && ChargesOk(w', q) && PcOk(w', q) {
      if q != pid { assert w'.procs[q] == w.procs[q]; }
    }
  }

  lemma {:induction false} OtherSinceGrows(log: seq<Write>, e: Write, pid: Pid, from: nat)
    requires from <= |log|
    requires OtherSince(log, pid, from) || !By(e, pid)
    ensures OtherSince(log + [e], pid, from)
  {
    if OtherSince(log, pid, from) {
      var j :| from <= j < |log| && !By(log[j], pid);
      assert (log + [e])[j] == log[j];
    } else {
      assert (log + [e])[|log|] == e;
    }
  }

  /** Writing the cell leaves every process but the writer well-formed. */
  lemma {:induction false} RecordKeepsOthers(start: Option<Blob>, w: World, author: Author, after: Option<Blob>, pid: Pid)
    requires Inv(start, w) && pid in w.procs
    requires !By(Write(author, w.cell, after), pid)
    ensures var w' := Record(w, author, after);
      CommitStateOk(w', pid) && ChargesOk(w', pid) && PcOk(w', pid)
  {
    var e := Write(author, w.cell, after);
    var w' := Record(w, author, after);
    CommitsOfSnoc(w.log, e, pid);
    assert forall i :: 0 <= i < |w.log| ==> w'.log[i] == w.log[i];
    if w.procs[pid].pc.Migrating? || w.procs[pid].pc.Swapping? {
      OtherSinceGrows(w.log, e, pid, w.procs[pid].mark);
    }
  }

  lemma {:induction false} RecordKeepsInv(start: Option<Blob>, w: World, author: Author, after: Option<Blob>, pid: Pid, p: Proc)
    requires Inv(start, w)
    requires author.Foreign? || (author.pid == pid && pid in w.procs && w.procs[pid].call == p.call)
    requires EntryOk(w.procs, Write(author, w.cell, after))
    requires var w' := Put(Record(w, author, after), pid, p);
      author.Foreign? || (CommitStateOk(w', pid) && ChargesOk(w', pid) && PcOk(w', pid))
    ensures author.Foreign? ==> Inv(start, Record(w, author, after))
    ensures !author.Foreign? ==> Inv(start, Put(Record(w, author, after), pid, p))
  {
    var e := Write(author, w.cell, after);
    var r := Record(w, author, after);
    assert r.log[..|w.log|] == w.log;
    forall q ensures CommitsOf(r.log, q) == CommitsOf(w.log, q) + (if author == Committer(q) then [e] else []) {
      CommitsOfSnoc(w.log, e, q);
    }
    forall q | q in w.procs && !By(e, q) ensures CommitStateOk(r, q) && ChargesOk(r, q) && PcOk(r, q) {
      RecordKeepsOthers(start, w, author, after, q);
    }
    if !author.Foreign? {
      var w' := Put(r, pid, p);
      forall i | 0 <= i < |w'.log| ensures EntryOk(w'.procs, w'.log[i]) {
        EntriesSurvive(w.procs, pid, p, r.log[i]);
      }
      forall q | q in w'.procs ensures CommitStateOk(w', q) && ChargesOk(w', q) && PcOk(w', q) {
        if q != pid { assert w'.procs[q] == r.procs[q]; }
      }
    }
  }

  /** A step that neither writes the cell nor finishes with a commit. */
  lemma {:induction false} QuietKeepsInv(start: Option<Blob>, w: World, pid: Pid, p: Proc)
    requires Inv(start, w) && pid in w.procs && w.procs[pid].call == p.call
    requires !w.procs[pid].pc.Finished?
    requires !(p.pc.Finished? && p.pc.outcome.Returned? && Writes(p.call))
    requires ChargesOk(Put(w, pid, p), pid) && PcOk(Put(w, pid, p), pid)
    ensures Inv(start, Put(w, pid, p))
  {
    assert CommitStateOk(w, pid);
    PutKeepsInv(start, w, pid, p);
  }

  /** A read leaves a call well placed for its next step. */
  lemma {:induction false} ReadPcOk(w: World, pid: Pid, ok: bool)
    requires pid in w.procs && w.procs[pid].pc.Reading?
    ensures var p := w.procs[pid]; var w' := StepRead(w, pid, p, ok); var p' := w'.procs[pid];
      w' == Put(w, pid, p') && PcOk(w', pid) && p'.call == p.call && p'.charged == p.charged && p'.attempt == p.attempt
      && (p'.mark == p.mark || p'.mark == |w.log|) && (p'.pc.Migrating? || p'.pc.Swapping? ==> p'.mark == |w.log|)
      && p'.failedReads == p.failedReads + (if p'.pc.Swapping? && !p'.pc.readOk then 1 else 0) + (if p'.pc.Finished? && !p.call.Delete? && !ok then 1 else 0)
      && !(p'.pc.Finished? && p'.pc.outcome.Returned? && Writes(p.call))
      && !(p'.pc.Finished? && p'.pc.outcome.Contended?)
  {
  }

  lemma {:induction false} ReadKeepsInv(start: Option<Blob>, w: World, pid: Pid, ok: bool)
    requires Inv(start, w) && pid in w.procs && w.procs[pid].pc.Reading?
    ensures Inv(start, StepRead(w, pid, w.procs[pid], ok))
  {
    var p := w.procs[pid];
    var p' := StepRead(w, pid, p, ok).procs[pid];
    ReadPcOk(w, pid, ok);
    assert ChargesOk(Put(w, pid, p'), pid) by { assert ChargesOk(w, pid); }
    QuietKeepsInv(start, w, pid, p');
  }

  lemma {:induction false} MigrateKeepsInv(start: Option<Blob>, w: World, pid: Pid, ok: bool)
    requires Inv(start, w) && pid in w.procs && w.procs[pid].pc.Migrating?
    ensures Inv(start, StepMigrate(w, pid, w.procs[pid], ok))
  {
    var p := w.procs[pid];
    var Migrating(raw, d) := p.pc;
    var w' := StepMigrate(w, pid, p, ok);
    if ok && w.cell == Some(raw) {
      var after := Some(Serialize(d));
      var e := Write(Migrator(pid), w.cell, after);
      CommitsOfSnoc(w.log, e, pid);
      ViewOfWritten(d);
      assert forall i :: 0 <= i < |w.log| ==> w'.log[i] == w.log[i];
      RecordKeepsInv(start, w, Migrator(pid), after, pid, w'.procs[pid]);
    } else {
      PutKeepsInv(start, w, pid, w'.procs[pid]);
    }
  }

  /** A lost swap after a successful read leaves a fresh write by another
      process to charge it to. */
  lemma {:induction false} LostSwapCharges(w: World, pid: Pid, i: nat)
    requires pid in w.procs && w.procs[pid].pc.Swapping? && w.procs[pid].pc.readOk
    requires ChargesOk(w, pid) && PcOk(w, pid)
    requires w.cell != w.procs[pid].pc.expected
    requires i == FirstByOther(w.log, pid, w.procs[pid].mark)
    ensures w.procs[pid].mark <= i < |w.log| && !By(w.log[i], pid)
  {
    assert OtherSince(w.log, pid, w.procs[pid].mark);
  }

  lemma {:induction false} SwapLostKeepsInv(start: Option<Blob>, w: World, pid: Pid)
    requires Inv(start, w) && pid in w.procs && w.procs[pid].pc.Swapping? && Writes(w.procs[pid].call)
    requires Mutate(w.procs[pid].call, w.procs[pid].pc.data).Ok?
    requires w.cell != w.procs[pid].pc.expected
    ensures Inv(start, StepSwap(w, pid, w.procs[pid], true))
  {
    var p := w.procs[pid];
    var p' := StepSwap(w, pid, p, true).procs[pid];
    var w' := Put(w, pid, p');
    assert StepSwap(w, pid, p, true) == w';
    assert ChargesOk(w, pid) && PcOk(w, pid);
    if p.pc.readOk { LostSwapCharges(w, pid, FirstByOther(w.log, pid, p.mark)); }
    assert ChargesOk(w', pid);
    assert PcOk(w', pid);
    QuietKeepsInv(start, w, pid, p');
  }

  lemma {:induction false} SwapWonKeepsInv(start: Option<Blob>, w: World, pid: Pid)
    requires Inv(start, w) && pid in w.procs && w.procs[pid].pc.Swapping? && Writes(w.procs[pid].call)
    requires Mutate(w.procs[pid].call, w.procs[pid].pc.data).Ok?
    requires w.cell == w.procs[pid].pc.expected
    ensures Inv(start, StepSwap(w, pid, w.procs[pid], true))
  {
    var p := w.procs[pid];
    var d := Mutate(p.call, p.pc.data).value;
    var e := Write(Committer(pid), w.cell, Some(Serialize(d)));
    var p' := p.(pc := Finished(Returned(d)));
    var w' := Put(Record(w, Committer(pid), Some(Serialize(d))), pid, p');
    assert StepSwap(w, pid, p, true) == w';
    assert PcOk(w, pid) && ChargesOk(w, pid) && CommitStateOk(w, pid);
    CommitsOfSnoc(w.log, e, pid);
    assert ChargesOk(w', pid) by { assert forall i :: 0 <= i < |w.log| ==> w'.log[i] == w.log[i]; }
    RecordKeepsInv(start, w, Committer(pid), Some(Serialize(d)), pid, p');
  }

  lemma {:induction false} SwapKeepsInv(start: Option<Blob>, w: World, pid: Pid, ok: bool)
    requires Inv(start, w) && pid in w.procs && w.procs[pid].pc.Swapping? && Writes(w.procs[pid].call)
    ensures Inv(start, StepSwap(w, pid, w.procs[pid], ok))
  {
    var p := w.procs[pid];
    if Mutate(p.call, p.pc.data).Ok? && ok {
      if w.cell == p.pc.expected { SwapWonKeepsInv(start, w, pid); } else { SwapLostKeepsInv(start, w, pid); }
    } else {
      var p' := StepSwap(w, pid, p, ok).procs[pid];
      assert ChargesOk(w, pid);
      assert ChargesOk(Put(w, pid, p'), pid);
      QuietKeepsInv(start, w, pid, p');
    }
  }

  lemma {:induction false} DeleteKeepsInv(start: Option<Blob>, w: World, pid: Pid, ok: bool)
    requires Inv(start, w) && pid in w.procs && w.procs[pid].pc.Deleting?
    ensures Inv(start, StepDelete(w, pid, w.procs[pid], ok))
  {
    var p := w.procs[pid];
    var w' := StepDelete(w, pid, p, ok);
    if ok {
      CommitsOfSnoc(w.log, Write(Deleter(pid), w.cell, None), pid);
      assert forall i :: 0 <= i < |w.log| ==> w'.log[i] == w.log[i];
      RecordKeepsInv(start, w, Deleter(pid), None, pid, w'.procs[pid]);
    } else {
      PutKeepsInv(start, w, pid, w'.procs[pid]);
    }
  }

  lemma {:induction false} ApplyKeepsInv(start: Option<Blob>, w: World, a: Action)
    requires Inv(start, w)
    ensures Inv(start, Apply(w, a))
  {
    match a
    case Spawn(pid, call) =>
      if pid !in w.procs { PutKeepsInv(start, w, pid, Proc(call, Reading, 0, 0, 0, [])); }
    case Interfere(after) =>
      RecordKeepsInv(start, w, Foreign, after, 0, Proc(Peek, Reading, 0, 0, 0, []));
    case Step(pid, ok) =>
      if pid in w.procs {
        match w.procs[pid].pc
        case Reading => ReadKeepsInv(start, w, pid, ok);
        case Migrating(_, _) => MigrateKeepsInv(start, w, pid, ok);
        case Swapping(_, _, _) => if Writes(w.procs[pid].call) { SwapKeepsInv(start, w, pid, ok); }
        case Deleting => DeleteKeepsInv(start, w, pid, ok);
        case Finished(_) =>
      }
  }

  lemma {:induction false} RunKeepsInv(start: Option<Blob>, w: World, acts: seq<Action>)
    requires Inv(start, w)
    ensures Inv(start, Run(w, acts))
    decreases |acts|
  {
    if acts != [] {
      ApplyKeepsInv(start, w, acts[0]);
      RunKeepsInv(start, Apply(w, acts[0]), acts[1..]);
    }
  }
}
