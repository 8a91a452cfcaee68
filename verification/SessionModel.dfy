/**
 The stored conversation record of the session capsule, and what one call
 does to it: schema migration, timestamp stamping, patches and appends.
 */
module SessionModel {
  import opened Prelude

  const SESSION_DATA_SCHEMA_VERSION: nat := 2
  const META_MAX_BYTES: nat := 8192
  const CAS_RETRY_LIMIT: nat := 8

  datatype Role = System | User | Assistant | Tool
  datatype Part = TextPart(text: string) | ImagePart(media: string)
  datatype Content =
    | Text(text: string)
    | MultiPart(parts: seq<Part>)
    | ToolCalls(ids: seq<string>)
    | ToolResult(callId: string, output: string)
  datatype Message = Message(role: Role, content: Content)

  datatype SessionData = SessionData(
    schemaVersion: nat,
    parent: Option<string>,
    createdAt: Option<nat>,
    updatedAt: Option<nat>,
    title: Option<string>,
    archived: bool,
    meta: Option<string>,
    messages: seq<Message>)

  const Fresh: SessionData :=
    SessionData(SESSION_DATA_SCHEMA_VERSION, None, None, None, None, false, None, [])

  /** The bytes stored under a session key. One record can be spelled in many
      ways (absent fields take defaults), so a spelling rides along; the
      capsule itself always writes spelling 0. Corrupt bytes do not parse. */
  datatype Blob = Stored(data: SessionData, spelling: nat) | Corrupt(raw: nat)

  function Serialize(d: SessionData): Blob { Stored(d, 0) }

  /** `serde_json::from_slice(..).unwrap_or_else(default)`. */
  function Parse(b: Blob): SessionData {
    match b
    case Stored(d, _) => d
    case Corrupt(_) => Fresh
  }

  datatype Migration = Migrated(data: SessionData, needsSave: bool) | Unrecognized(reset: SessionData)

  function Migrate(d: SessionData): Migration {
    if d.schemaVersion < SESSION_DATA_SCHEMA_VERSION then
      Migrated(d.(schemaVersion := SESSION_DATA_SCHEMA_VERSION), true)
    else if d.schemaVersion == SESSION_DATA_SCHEMA_VERSION then
      Migrated(d, false)
    else
      Unrecognized(Fresh)
  }

  /** What a reader takes the stored cell to mean: absent, corrupt and
      unknown-version cells all read as a fresh record. */
  function View(cell: Option<Blob>): SessionData {
    match cell
    case None => Fresh
    case Some(b) =>
      match Migrate(Parse(b))
      case Migrated(d, _) => d
      case Unrecognized(f) => f
  }

  /** Whether loading `b` writes the migrated record back. */
  predicate NeedsMigration(b: Blob) {
    Migrate(Parse(b)).Migrated? && Migrate(Parse(b)).needsSave
  }

  function Touch(d: SessionData, now: nat): SessionData {
    d.(createdAt := if d.createdAt.Some? then d.createdAt else Some(now), updatedAt := Some(now))
  }

  function TouchIf(d: SessionData, now: Option<nat>): SessionData {
    if now.Some? then Touch(d, now.value) else d
  }

  datatype Patch<T> = Keep | Set(value: T)

  datatype UpdatePatch = UpdatePatch(title: Patch<Option<string>>, archived: Patch<bool>, meta: Patch<Option<string>>)

  function ApplyPatch(d: SessionData, p: UpdatePatch): Result<SessionData> {
    if p.meta.Set? && p.meta.value.Some? && |p.meta.value.value| > META_MAX_BYTES then
      Err("session meta exceeds the size bound")
    else
      var d1 := if p.title.Set? then d.(title := p.title.value) else d;
      var d2 := if p.archived.Set? then d1.(archived := p.archived.value) else d1;
      Ok(if p.meta.Set? then d2.(meta := p.meta.value) else d2)
  }

  /** One invocation of the capsule on a session. `Append` is both
      `handle_append` and append-before-read with a non-empty message list;
      `Peek` is any read-only entry point, which still migrates. */
  datatype Call =
    | Append(messages: seq<Message>, now: Option<nat>)
    | Update(patch: UpdatePatch, now: Option<nat>)
    | Peek
    | Delete

  predicate Writes(c: Call) { c.Append? || c.Update? }

  /** The closure a writing call runs on the freshly loaded record. */
  function Mutate(c: Call, d: SessionData): (r: Result<SessionData>)
    requires Writes(c)
  {
    match c
    case Append(ms, now) => Ok(TouchIf(d.(messages := d.messages + ms), now))
    case Update(p, now) =>
      match ApplyPatch(d, p)
      case Err(e) => Err(e)
      case Ok(d') => Ok(TouchIf(d', now))
  }

  /** The messages a committed call adds to the transcript. */
  function Added(c: Call): seq<Message> {
    if c.Append? then c.messages else []
  }

  /** What a stored value must read as, by its shape alone: a record of schema
      version 2 or older keeps every field but the version; anything else is a
      new, empty record. */
  predicate ReadsAs(stored: Option<Blob>, d: SessionData) {
    if stored.Some? && stored.value.Stored? && stored.value.data.schemaVersion <= 2 then
      d == stored.value.data.(schemaVersion := 2)
    else
      d == SessionData(2, None, None, None, None, false, None, [])
  }

  lemma {:induction false} ViewReads(stored: Option<Blob>)
    ensures ReadsAs(stored, View(stored))
    ensures forall d :: ReadsAs(stored, d) ==> d == View(stored)
  {
  }

  /** What a load leaves stored when its migration goes through: an older record
      is replaced by itself at version 2, anything else stays. */
  function Upgraded(stored: Option<Blob>): Option<Blob> {
    if stored.Some? && stored.value.Stored? && stored.value.data.schemaVersion < 2 then
      Some(Stored(stored.value.data.(schemaVersion := 2), 0))
    else stored
  }

  /** The new value of a patched field. */
  function Patched<T>(p: Patch<T>, was: T): T { if p.Set? then p.value else was }

  /** What a call must leave of the record it was given, field by field. */
  predicate Changes(c: Call, d: SessionData, after: SessionData) {
    && after.schemaVersion == d.schemaVersion && after.parent == d.parent
    && match c
       case Append(ms, now) =>
         && after.messages == d.messages + ms
         && after.title == d.title && after.archived == d.archived && after.meta == d.meta
         && Stamped(now, d, after)
       case Update(p, now) =>
         && after.messages == d.messages
         && after.title == Patched(p.title, d.title) && after.archived == Patched(p.archived, d.archived)
         && after.meta == Patched(p.meta, d.meta)
         && Stamped(now, d, after)
       case Peek => after == d
       case Delete => false
  }

  /** With a clock, the creation time is set once and the update time always. */
  predicate Stamped(now: Option<nat>, d: SessionData, after: SessionData) {
    if now.None? then after.createdAt == d.createdAt && after.updatedAt == d.updatedAt
    else after.createdAt == (if d.createdAt.None? then now else d.createdAt) && after.updatedAt == now
  }

  /** A mutation makes exactly those changes; only an update whose new metadata
      is longer than 8192 bytes is refused. */
  lemma {:induction false} MutateChanges(c: Call, d: SessionData)
    requires Writes(c)
    ensures Mutate(c, d).Err? <==> c.Update? && c.patch.meta.Set? && c.patch.meta.value.Some? && |c.patch.meta.value.value| > 8192
    ensures Mutate(c, d).Ok? ==> Changes(c, d, Mutate(c, d).value)
  {
  }

  /** Every record a reader sees carries the current schema version, so
      writing it back and reading it again is the identity. */
  lemma {:induction false} ViewOfWritten(d: SessionData)
    requires d.schemaVersion == SESSION_DATA_SCHEMA_VERSION
    ensures View(Some(Serialize(d))) == d
  {
  }

  /** A committed mutation: transcript grows by exactly the call's messages,
      a set `createdAt` stays, and the result reads back as itself. */
  lemma {:induction false} MutatePreserves(c: Call, cell: Option<Blob>)
    requires Writes(c) && Mutate(c, View(cell)).Ok?
    ensures var d := Mutate(c, View(cell)).value;
      && View(Some(Serialize(d))) == d
      && d.messages == View(cell).messages + Added(c)
      && (View(cell).createdAt.Some? ==> d.createdAt == View(cell).createdAt)
      && d.parent == View(cell).parent
  {
    ViewOfWritten(Mutate(c, View(cell)).value);
  }
}
