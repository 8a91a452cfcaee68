/**
 The retry loops themselves, as the capsule runs them against a stored cell
 that others may change before any of its KV operations. What the others do,
 and which operations the host fails, is an arbitrary script.
 */
module SessionCell {
  import opened Prelude
  import opened SessionModel
  import opened SessionRuns

  datatype Turn = Turn(writes: seq<Option<Blob>>, ok: bool)

  datatype Loaded = Loaded(data: SessionData, expected: Option<Blob>)

  /** How many of the writes are by someone other than `me`. */
  function Rivals(log: seq<Write>, me: Pid): nat {
    if log == [] then 0
    else Rivals(log[..|log| - 1], me) + (if By(log[|log| - 1], me) then 0 else 1)
  }

  lemma {:induction false} RivalsSnoc(log: seq<Write>, e: Write, me: Pid)
    ensures Rivals(log + [e], me) == Rivals(log, me) + (if By(e, me) then 0 else 1)
  {
    assert (log + [e])[..|log|] == log;
  }

  /** `later` extends `earlier` by rival writes and by migrations of ours that
      keep the record a reader sees. */
  ghost predicate Extends(earlier: seq<Write>, later: seq<Write>, me: Pid) {
    && earlier <= later
    && forall i :: |earlier| <= i < |later| ==>
         var e := later[i];
         e.author.Foreign? ||
         (e.author == Migrator(me) && e.before.Some? && e.after.Some? && View(e.after) == View(e.before))
  }

  lemma {:induction false} ExtendsTransitive(a: seq<Write>, b: seq<Write>, c: seq<Write>, me: Pid)
    requires Extends(a, b, me) && Extends(b, c, me)
    ensures Extends(a, c, me)
  {
    forall i | |a| <= i < |c| ensures
      var e := c[i];
      e.author.Foreign? ||
      (e.author == Migrator(me) && e.before.Some? && e.after.Some? && View(e.after) == View(e.before))
    {
      if i < |b| { assert c[i] == b[i]; }
    }
  }

  /** The value was in the cell at some instant since `from`: it was the first
      one, or one of the writes since put it there. */
  ghost predicate WasStored(value: Option<Blob>, first: Option<Blob>, log: seq<Write>, from: nat) {
    value == first || exists i :: from <= i < |log| && log[i].after == value
  }

  /** A call of the length-limited kind that is refused whatever is stored. */
  predicate Oversize(c: Call) {
    c.Update? && c.patch.meta.Set? && c.patch.meta.value.Some? && |c.patch.meta.value.value| > 8192
  }

  /** What a call that nobody disturbs does to a cell: `was` is what readers
      see in it. */
  predicate Undisturbed(call: Call, before: Option<Blob>, was: SessionData, outcome: Outcome, after: Option<Blob>) {
    if call.Update? && before.None? then outcome.Missing? && after.None?
    else if Oversize(call) then outcome.Rejected? && ReadsAs(after, was)
    else outcome.Returned? && Changes(call, was, outcome.data) && ReadsAs(after, outcome.data)
  }

  class SharedCell {
    var cell: Option<Blob>
    var script: seq<Turn>
    ghost var log: seq<Write>

    constructor (initial: Option<Blob>, turns: seq<Turn>)
      ensures cell == initial && script == turns && log == []
    {
      cell, script, log := initial, turns, [];
    }

    /** Everyone else's writes before our next operation. */
    method Interfere(me: Pid) returns (ok: bool)
      modifies this
      ensures WasStored(cell, old(cell), log, |old(log)|)
      ensures Extends(old(log), log, me)
      ensures cell == old(cell) || Rivals(log, me) > Rivals(old(log), me)
      ensures Rivals(log, me) >= Rivals(old(log), me)
      ensures old(script) == [] ==> ok && script == [] && log == old(log) && cell == old(cell)
    {
      ok := true;
      if script == [] { return; }
      var turn := script[0];
      script := script[1..];
      ok := turn.ok;
      var i := 0;
      while i < |turn.writes|
        invariant 0 <= i <= |turn.writes|
        invariant Extends(old(log), log, me)
        invariant cell == old(cell) || Rivals(log, me) > Rivals(old(log), me)
        invariant Rivals(log, me) >= Rivals(old(log), me)
        invariant WasStored(cell, old(cell), log, |old(log)|)
      {
        ghost var e := Write(Foreign, cell, turn.writes[i]);
        RivalsSnoc(log, e, me);
        log := log + [e];
        cell := turn.writes[i];
        assert log[|log| - 1].after == cell;
        i := i + 1;
      }
    }

    method GetBytesOpt(me: Pid) returns (ok: bool, raw: Option<Blob>)
      modifies this
      ensures Extends(old(log), log, me) && Rivals(log, me) >= Rivals(old(log), me)
      ensures ok ==> raw == cell
      ensures WasStored(raw, old(cell), log, |old(log)|) && WasStored(cell, old(cell), log, |old(log)|)
      ensures old(script) == [] ==> ok && script == [] && log == old(log) && cell == old(cell)
    {
      ok := Interfere(me);
      raw := cell;
    }

    /** `kv::cas`: `None` is a host error. A win appends our write. */
    method Cas(me: Pid, expected: Option<Blob>, next: Blob, ghost author: Author) returns (won: Option<bool>)
      requires author == Migrator(me) || author == Committer(me)
      modifies this
      ensures WasStored(cell, old(cell), log, |old(log)|)
      ensures won == Some(true) ==>
                && |log| > |old(log)| && log[|log| - 1] == Write(author, expected, Some(next))
                && Extends(old(log), log[..|log| - 1], me) && cell == Some(next)
                && Rivals(log, me) == Rivals(log[..|log| - 1], me) >= Rivals(old(log), me)
      ensures won != Some(true) ==> Extends(old(log), log, me) && Rivals(log, me) >= Rivals(old(log), me)
      ensures won == Some(false) && old(cell) == expected ==> Rivals(log, me) > Rivals(old(log), me)
      ensures old(script) == [] ==> script == [] && won == Some(old(cell) == expected)
      ensures won != Some(true) ==> cell == old(cell) || Rivals(log, me) > Rivals(old(log), me)
    {
      var ok := Interfere(me);
      if !ok {
        won := None;
      } else if cell == expected {
        ghost var e := Write(author, cell, Some(next));
        RivalsSnoc(log, e, me);
        assert (log + [e])[..|log|] == log;
        log := log + [e];
        cell := Some(next);
        assert log[|log| - 1].after == cell;
        won := Some(true);
      } else {
        won := Some(false);
      }
    }

    /** `SessionData::load`: the record, and the exact stored value the next
        swap must still find. A lost or failed migration write is not an error.
        `found` is what the read met: a record of schema version 2 or older
        loads with all its fields, anything else as a new record. */
    method Load(me: Pid) returns (loaded: Loaded, readOk: bool, ghost found: Option<Blob>)
      modifies this
      ensures WasStored(cell, old(cell), log, |old(log)|)
      ensures readOk ==> WasStored(found, old(cell), log, |old(log)|) && ReadsAs(found, loaded.data)
      ensures readOk ==> (found.None? <==> loaded.expected.None?)
      ensures old(script) == [] ==> found == old(cell) && View(loaded.expected) == View(old(cell))
      ensures old(script) == [] ==> cell == Upgraded(old(cell))
      ensures Extends(old(log), log, me) && Rivals(log, me) >= Rivals(old(log), me)
      ensures loaded.data == View(loaded.expected)
      ensures !readOk ==> loaded == Loaded(Fresh, None)
      ensures readOk ==> cell == loaded.expected || Rivals(log, me) > Rivals(old(log), me)
      ensures old(script) == [] ==> readOk && script == [] && cell == loaded.expected
    {
      var raw;
      readOk, raw := GetBytesOpt(me);
      found := raw;
      ViewReads(found);
      if !readOk { return Loaded(Fresh, None), false, found; }
      if raw.None? { return Loaded(Fresh, None), true, found; }
      var bytes := raw.value;
      match Migrate(Parse(bytes))
      case Unrecognized(reset) =>
        loaded := Loaded(reset, Some(bytes));
      case Migrated(data, needsSave) =>
        if !needsSave { return Loaded(data, Some(bytes)), true, found; }
        ghost var log0, cell0 := log, cell;
        ViewOfWritten(data);
        var won := Cas(me, Some(bytes), Serialize(data), Migrator(me));
        WasStoredLater(cell, cell0, old(cell), log0, log, |old(log)|);
        if won == Some(true) {
          ghost var mid := log[..|log| - 1];
          assert log == mid + [log[|log| - 1]];
          assert Extends(log0, log, me);
          ExtendsTransitive(old(log), log0, log, me);
          loaded := Loaded(data, Some(Serialize(data)));
        } else {
          ExtendsTransitive(old(log), log0, log, me);
          loaded := Loaded(data, Some(bytes));
        }
    }

    /** One round of the retry loop; `None` when its swap lost. */
    method Attempt(me: Pid, call: Call) returns (done: Option<Outcome>, ghost readFailed: bool)
      requires Writes(call)
      modifies this
      ensures WasStored(cell, old(cell), log, |old(log)|) && Rivals(log, me) >= Rivals(old(log), me)
      ensures done.Some? && done.value.Returned? ==> CommittedLast(me, call, done.value.data, old(log), log, cell)
      ensures !(done.Some? && done.value.Returned?) ==> Extends(old(log), log, me)
      ensures done.None? ==> Rivals(log, me) > Rivals(old(log), me) || readFailed
      ensures done.Some? ==> Answers(call, done.value)
      ensures done == Some(Missing) ==> readFailed || WasStored(None, old(cell), log, |old(log)|)
      ensures old(script) == [] ==> !readFailed && done.Some?
      ensures old(script) == [] ==> forall was :: ReadsAs(old(cell), was) ==> Undisturbed(call, old(cell), was, done.value, cell)
    {
      var loaded, readOk, found := Load(me);
      readFailed := !readOk;
      ghost var before, cell1, log1 := old(cell), cell, log;
      if call.Update? && loaded.expected.None? { return Some(Missing), readFailed; }
      MutateChanges(call, loaded.data);
      match Mutate(call, loaded.data)
      case Err(_) =>
        if old(script) == [] { RefusedUndisturbed(call, before, loaded.expected, cell); }
        return Some(Rejected), readFailed;
      case Ok(data) =>
        var won := Cas(me, loaded.expected, Serialize(data), Committer(me));
        WasStoredLater(cell, cell1, before, log1, log, |old(log)|);
        if won == Some(true) {
          CommitsLast(me, call, loaded.expected, data, old(log), log1, log, cell);
          if old(script) == [] { CommitUndisturbed(call, before, loaded.expected, data, cell); }
          return Some(Returned(data)), readFailed;
        }
        ExtendsTransitive(old(log), log1, log, me);
        if won.None? { return Some(HostFailed), readFailed; }
        assert won == Some(false) by { assert !won.value; }
        done := None;
    }

    /** `modify_atomic` and `modify_existing`: the bounded read-modify-swap loop.
        `failedReads` counts reads the host failed. */
    method Modify(me: Pid, call: Call) returns (outcome: Outcome, ghost failedReads: nat)
      requires Writes(call)
      modifies this
      ensures outcome.Contended? || Answers(call, outcome)
      ensures outcome.Returned? ==> CommittedLast(me, call, outcome.data, old(log), log, cell)
      ensures !outcome.Returned? ==> Extends(old(log), log, me)
      ensures outcome.Missing? ==> failedReads > 0 || WasStored(None, old(cell), log, |old(log)|)
      ensures outcome.Contended? ==> Rivals(log, me) - Rivals(old(log), me) + failedReads >= CAS_RETRY_LIMIT
      ensures old(script) == [] ==> forall was :: ReadsAs(old(cell), was) ==> Undisturbed(call, old(cell), was, outcome, cell)
    {
      failedReads := 0;
      var attempt := 0;
      while attempt < CAS_RETRY_LIMIT
        invariant 0 <= attempt <= CAS_RETRY_LIMIT
        invariant Extends(old(log), log, me)
        invariant Rivals(log, me) - Rivals(old(log), me) + failedReads >= attempt
        invariant WasStored(cell, old(cell), log, |old(log)|)
        invariant old(script) == [] ==> attempt == 0 && script == [] && cell == old(cell)
      {
        ghost var log0, cell0 := log, cell;
        var done, readFailed := Attempt(me, call);
        if readFailed { failedReads := failedReads + 1; }
        if done.Some? && done.value.Returned? {
          ExtendsTransitive(old(log), log0, log[..|log| - 1], me);
          return done.value, failedReads;
        }
        ExtendsTransitive(old(log), log0, log, me);
        WasStoredLater(cell, cell0, old(cell), log0, log, |old(log)|);
        if done == Some(Missing) && !readFailed { WasStoredLater(None, cell0, old(cell), log0, log, |old(log)|); }
        if done.Some? { return done.value, failedReads; }
        attempt := attempt + 1;
      }
      outcome := Contended;
    }
  }

  /** The log ends with our one write: the mutation of what it replaced. */
  ghost predicate CommittedLast(me: Pid, call: Call, data: SessionData, before: seq<Write>, log: seq<Write>, cell: Option<Blob>)
    requires Writes(call)
  {
    && |log| > |before| && Extends(before, log[..|log| - 1], me)
    && var e := log[|log| - 1];
       && e.author == Committer(me)
       && Mutate(call, View(e.before)) == Ok(data)
       && (forall was :: ReadsAs(e.before, was) ==> Changes(call, was, data))
       && cell == e.after == Some(Serialize(data))
       && (call.Update? ==> e.before.Some?)
  }

  lemma {:induction false} CommitsLast(me: Pid, call: Call, expected: Option<Blob>, data: SessionData,
                                       before: seq<Write>, log1: seq<Write>, log: seq<Write>, cell: Option<Blob>)
    requires Writes(call) && Mutate(call, View(expected)) == Ok(data) && (call.Update? ==> expected.Some?)
    requires |log| > |log1| && log[|log| - 1] == Write(Committer(me), expected, Some(Serialize(data))) && cell == Some(Serialize(data))
    requires Extends(before, log1, me) && Extends(log1, log[..|log| - 1], me)
    ensures CommittedLast(me, call, data, before, log, cell)
  {
    ExtendsTransitive(before, log1, log[..|log| - 1], me);
    ViewReads(expected);
    MutateChanges(call, View(expected));
  }

  /** The swap went through on what the load left. */
  lemma {:induction false} CommitUndisturbed(call: Call, before: Option<Blob>, expected: Option<Blob>, data: SessionData, after: Option<Blob>)
    requires Writes(call) && View(expected) == View(before) && (before.None? <==> expected.None?)
    requires Mutate(call, View(expected)) == Ok(data) && (call.Update? ==> expected.Some?) && after == Some(Serialize(data))
    ensures forall was :: ReadsAs(before, was) ==> Undisturbed(call, before, was, Returned(data), after)
  {
    ViewReads(before);
    ViewReads(after);
    MutateChanges(call, View(expected));
    MutatePreserves(call, expected);
  }

  lemma {:induction false} RefusedUndisturbed(call: Call, before: Option<Blob>, expected: Option<Blob>, after: Option<Blob>)
    requires Writes(call) && View(expected) == View(before) && (before.None? <==> expected.None?)
    requires Oversize(call) && (call.Update? ==> expected.Some?) && after == expected
    ensures forall was :: ReadsAs(before, was) ==> Undisturbed(call, before, was, Rejected, after)
  {
    ViewReads(before);
    ViewReads(after);
  }

  /** The answers a call can get before its budget is spent: missing and refused
      are for updates, and refused exactly for oversize ones. */
  predicate Answers(call: Call, o: Outcome) {
    match o
    case Returned(_) => !Oversize(call)
    case Missing => call.Update?
    case Rejected => Oversize(call)
    case HostFailed => !Oversize(call)
    case _ => false
  }

  lemma {:induction false} WasStoredLater(value: Option<Blob>, mid: Option<Blob>, first: Option<Blob>, log0: seq<Write>, log1: seq<Write>, from: nat)
    requires WasStored(mid, first, log0, from) && WasStored(value, mid, log1, |log0|)
    requires from <= |log0| <= |log1| && log0 <= log1
    ensures WasStored(value, first, log1, from)
  {
    if value == mid && mid != first {
      var i :| from <= i < |log0| && log0[i].after == mid;
      assert log1[i].after == value;
    } else if value != mid {
      var i :| |log0| <= i < |log1| && log1[i].after == value;
      assert from <= i;
    }
  }
}
