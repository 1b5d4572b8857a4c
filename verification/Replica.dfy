/** One device's local state and the effect of each store transaction on it, as values. */
module ReplicaModel {
  import opened Data
  import opened Seqs

  datatype Payload = Corrupt | NotObject | Object(fields: Row)

  /** A queued write. `id` is the autoincrement key, `at` the enqueue time. */
  datatype Entry = Entry(id: nat, table: Table, record: Option<string>, payload: Payload, at: int)

  datatype Replica = Replica(
    rows: map<Key, Row>,
    outbox: seq<Entry>,
    nextId: nat,
    cursors: map<Table, int>,
    receipts: set<Table>,
    remap: map<string, string>)

  const EMPTY := Replica(map[], [], 0, map[], {}, map[])

  predicate IsFor(e: Entry, k: Key) {
    e.table == k.table && e.record == Some(k.id)
  }

  function EntryStamp(e: Entry): Option<int> {
    if e.payload.Object? then Stamp(e.payload.fields) else None
  }

  predicate IsDelete(e: Entry) {
    e.payload.Object? && Truthy(Get(e.payload.fields, Deleted))
  }

  /** The values of a `deleted` flag that read as live. */
  predicate ReadsLive(v: Cell) {
    v in {Null, Bool(false), Int(0), Real(0.0), Str(""), Str("0"), Str("false")} || v.Json?
  }

  /** A queued delete carries a flag of any other value. */
  predicate SaysDeleted(e: Entry) {
    e.payload.Object? && Deleted in e.payload.fields && !ReadsLive(e.payload.fields[Deleted])
  }

  lemma DeleteMeans(e: Entry)
    ensures IsDelete(e) <==> SaysDeleted(e)
  {
  }

  predicate Synced(t: Table) {
    !t.Unsynced?
  }

  /** What a cell becomes when stored in its column. */
  function Coerce(c: Column, v: Cell): Cell {
    if c == UpdatedAt then
      if AsI64(Some(v)).Some? then v else Null
    else if c == Deleted then
      match v
      case Bool(_) => v
      case Int(n) => Bool(n != 0)
      case Real(r) => Bool(r != 0.0)
      case _ => Null
    else v
  }

  /** `apply_row`'s projection onto the descriptor: unknown columns go, missing ones are NULL. */
  function Project(t: Table, row: Row): Row {
    map c | c in Columns(t) :: if c in row then Coerce(c, row[c]) else Null
  }

  /** A stored row told cell by cell: the descriptor columns and no other, each made from the given cell. */
  ghost predicate StoredFrom(t: Table, given: Row, stored: Row) {
    stored.Keys == Columns(t) && forall c :: c in Columns(t) ==> IsStoredCell(c, Get(given, c), stored[c])
  }

  /** A missing cell is stored as NULL, a stamp if it is a 64-bit integer, a flag if it is a boolean or a
      number, and any other cell as it is. */
  predicate IsStoredCell(c: Column, given: Option<Cell>, stored: Cell) {
    match given
    case None => stored == Null
    case Some(v) =>
      if c == UpdatedAt then stored == if v.Int? && I64_MIN <= v.n <= I64_MAX then v else Null
      else if c == Deleted then
        && (v.Bool? ==> stored == v) && (v.Int? ==> stored == Bool(v.n != 0)) && (v.Real? ==> stored == Bool(v.r != 0.0))
        && (v.Null? || v.Str? || v.Json? ==> stored == Null)
      else stored == v
  }

  lemma ProjectStores(t: Table, row: Row)
    ensures StoredFrom(t, row, Project(t, row))
  {
    hide Columns;
  }

  /** The columns whose cells come from the user or the device, table by table. */
  function Authored(t: Table): set<Column> {
    match t
    case Books =>
      {Title, Column("author"), Column("isbn"), Column("cover_url"), Column("cover_source"), Column("cover_resolved_at"),
       Column("merged_into"), Status, Kind, Url}
    case Notes =>
      {Text, BookId, ContentTag, Column("page"), Column("chapter"), Column("tags"), Column("image_path"), Column("ink_crop_path"),
       Column("source"), Column("source_id"), Column("source_meta")}
    case CustomIdeas => {Name, Column("description")}
    case NoteLinks => {FromNoteId, ToNoteId, Column("relation_type")}
    case Lenses => {Name, Column("leaf_ids"), Column("combinator"), Column("threshold")}
    case Collections => {Name}
    case CollectionMemberships => {NoteId, CollectionId}
    case NoteSignals =>
      {Column("importance"), Column("source_prior"), Column("return_visits"), Column("has_annotation"), Column("stitch_spawns"),
       Column("exposure_recency_at"), Column("engagement_recency_at")}
    case Questions => {Text, Status, Column("tone"), Column("resolved_at"), Column("checkin_at"), Column("checkin_response")}
    case QuestionNotes => {QuestionId, NoteId}
    case UserSettings => {Column("value")}
    case Unsynced(_) => {}
  }

  /** No such cell is lost or changed on the way into the store. */
  lemma AuthoredIsKept(t: Table, row: Row, c: Column)
    requires c in Authored(t)
    ensures Get(Project(t, row), c) == Some(if c in row then row[c] else Null)
  {
    AuthoredIsDescribed(t);
    hide Columns, Authored;
  }

  lemma AuthoredIsDescribed(t: Table)
    ensures Authored(t) <= Columns(t) && UpdatedAt !in Authored(t) && Deleted !in Authored(t)
  {
    hide Columns, Authored;
    match t
    case Books => BookColumns();
    case Notes => NoteColumns();
    case NoteSignals => SignalColumns();
    case _ => OtherColumns(t);
  }

  lemma BookColumns()
    ensures Authored(Books) <= Columns(Books) && UpdatedAt !in Authored(Books) && Deleted !in Authored(Books)
  {
  }

  lemma NoteColumns()
    ensures Authored(Notes) <= Columns(Notes) && UpdatedAt !in Authored(Notes) && Deleted !in Authored(Notes)
  {
  }

  lemma SignalColumns()
    ensures Authored(NoteSignals) <= Columns(NoteSignals) && UpdatedAt !in Authored(NoteSignals) && Deleted !in Authored(NoteSignals)
  {
  }

  lemma OtherColumns(t: Table)
    requires t != Books && t != Notes && t != NoteSignals
    ensures Authored(t) <= Columns(t) && UpdatedAt !in Authored(t) && Deleted !in Authored(t)
  {
  }

  function Enqueue(r: Replica, k: Key, payload: Row, at: int): Replica {
    r.(outbox := r.outbox + [Entry(r.nextId, k.table, Some(k.id), Object(payload), at)],
       nextId := r.nextId + 1)
  }

  function PendingDelete(k: Key): Entry -> bool {
    e => IsFor(e, k) && IsDelete(e)
  }

  function DropPendingDeletes(r: Replica, k: Key): Replica {
    r.(outbox := Filter(Not(PendingDelete(k)), r.outbox))
  }

  // ── Staging ────────────────────────────────────────────────────────────────

  /** The monotonic clamp: raises a claimed stamp above the stored one, or fails at the top. */
  function Clamp(stored: int, partial: Row): Option<Row> {
    match Stamp(partial)
    case None => Some(partial)
    case Some(s) =>
      if stored >= I64_MAX then None
      else Some(partial[UpdatedAt := Int(if s <= stored then stored + 1 else s)])
  }

  function Existing(r: Replica, k: Key): Row {
    if k in r.rows then r.rows[k] else map[]
  }

  /** `stage_write_inner`: merge the clamped partial onto the row and queue the partial. */
  function StageWrite(r: Replica, k: Key, partial: Row, at: int): Option<Replica> {
    match Clamp(StampOr0(Existing(r, k)), partial)
    case None => None
    case Some(p) =>
      if !Synced(k.table) then None else
      Some(Enqueue(r.(rows := r.rows[k := Project(k.table, Existing(r, k) + p)]), k, p, at))
  }

  datatype Write = Write(key: Key, row: Row)

  /** A payload names the record it is queued for. */
  predicate Addresses(k: Key, row: Row) {
    Get(row, PrimaryKey(k.table)) == Some(Str(k.id))
  }

  /** A live write first drops the record's queued tombstones. */
  function StageReviving(r: Replica, w: Write, at: int): Option<Replica> {
    var r0 := if Get(w.row, Deleted) == Some(Bool(true)) then r else DropPendingDeletes(r, w.key);
    StageWrite(r0, w.key, w.row, at)
  }

  function StageAll(r: Replica, ws: seq<Write>, at: int): Option<Replica>
    decreases |ws|
  {
    if ws == [] then Some(r)
    else
      match StageAll(r, ws[..|ws| - 1], at)
      case None => None
      case Some(r') => StageReviving(r', ws[|ws| - 1], at)
  }

  function ImportWrite(r: Replica, w: Write, batch: int): Replica {
    var r0 := DropPendingDeletes(r, w.key);
    Enqueue(r0.(rows := r0.rows[w.key := Project(w.key.table, w.row)]), w.key, w.row, batch)
  }

  function ImportAll(r: Replica, ws: seq<Write>, batch: int): Replica
    decreases |ws|
  {
    if ws == [] then r else ImportWrite(ImportAll(r, ws[..|ws| - 1], batch), ws[|ws| - 1], batch)
  }

  // ── Merging a pulled row ───────────────────────────────────────────────────

  /** A queued entry is stale when its own stamp is at most the applied one. */
  function Stale(k: Key, incoming: int): Entry -> bool {
    e => IsFor(e, k) && EntryStamp(e).Some? && EntryStamp(e).value <= incoming
  }

  /** Apply the winner and drop the record's stale entries, in one transaction. */
  function Rebase(r: Replica, k: Key, row: Row, incoming: int): Replica {
    r.(rows := r.rows[k := Project(k.table, row)],
       outbox := Filter(Not(Stale(k, incoming)), r.outbox))
  }

  function FillBook(row: Row, incoming: Row): Row {
    map c | c in row ::
      if c in BOOK_FILLABLE && row[c] == Null && AsStr(Get(incoming, c)).Some?
      then incoming[c] else row[c]
  }

  /** A row as fetched: anything that is not an object is ignored. */
  datatype Wire = NotARow | WireRow(fields: Row)

  function WireId(t: Table, w: Wire): Option<string> {
    if w.WireRow? then AsStr(Get(w.fields, PrimaryKey(t))) else None
  }

  predicate WireDeleted(w: Wire) {
    w.WireRow? && Get(w.fields, Deleted) == Some(Bool(true))
  }

  datatype Decision = Ignore | SkipTombstone | Apply | KeepLocal

  /** The last-write-wins decision for one fetched row. */
  function Decide(r: Replica, t: Table, w: Wire): Decision {
    match WireId(t, w)
    case None => Ignore
    case Some(id) =>
      var k := Key(t, id);
      if WireDeleted(w) && k !in r.rows then SkipTombstone
      else if k !in r.rows || StampOr0(w.fields) > StampOr0(r.rows[k]) then Apply
      else KeepLocal
  }

  function MergeRow(r: Replica, t: Table, w: Wire): Replica {
    match Decide(r, t, w)
    case Apply => Rebase(r, Key(t, WireId(t, w).value), w.fields, StampOr0(w.fields))
    case KeepLocal =>
      var k := Key(t, WireId(t, w).value);
      if t == Books then r.(rows := r.rows[k := FillBook(r.rows[k], w.fields)]) else r
    case _ => r
  }

  function MergeRows(r: Replica, t: Table, ws: seq<Wire>): Replica
    decreases |ws|
  {
    if ws == [] then r else MergeRow(MergeRows(r, t, ws[..|ws| - 1]), t, ws[|ws| - 1])
  }

  // ── What a transaction stores ──────────────────────────────────────────────

  /** A pulled winner, new or strictly newer, is stored cell by cell as it was fetched. */
  lemma AppliedCells(r: Replica, t: Table, w: Wire)
    requires WireId(t, w).Some?
    requires var k := Key(t, WireId(t, w).value);
      if k in r.rows then StampOr0(r.rows[k]) < StampOr0(w.fields) else Get(w.fields, Deleted) != Some(Bool(true))
    ensures var k, r' := Key(t, WireId(t, w).value), MergeRow(r, t, w);
      && k in r'.rows && StoredFrom(t, w.fields, r'.rows[k])
      && forall x :: x != k ==> RowAt(r'.rows, x) == RowAt(r.rows, x)
  {
    hide Project, Filter, StampOr0, FillBook, StoredFrom, Columns;
    ProjectStores(t, w.fields);
  }

  function RowAt(rows: map<Key, Row>, k: Key): Option<Row> {
    if k in rows then Some(rows[k]) else None
  }

  /** A staged write stores the cells it carries and leaves the others as they were. */
  ghost predicate StagedCells(r: Replica, r': Replica, k: Key, partial: Row) {
    && k in r'.rows && r'.rows[k].Keys == Columns(k.table)
    && (forall c :: c in Columns(k.table) && c in partial && c != UpdatedAt ==> IsStoredCell(c, Some(partial[c]), r'.rows[k][c]))
    && (forall c :: c in Columns(k.table) && c !in partial && c != UpdatedAt ==>
          IsStoredCell(c, if k in r.rows then Get(r.rows[k], c) else None, r'.rows[k][c]))
    && (forall x :: x != k ==> RowAt(r'.rows, x) == RowAt(r.rows, x))
  }

  lemma StageStoresCells(r: Replica, k: Key, partial: Row, at: int)
    requires StageWrite(r, k, partial, at).Some?
    ensures StagedCells(r, StageWrite(r, k, partial, at).value, k, partial)
  {
    hide Columns, Project, StampOr0, Stamp, IsStoredCell;
    var p := Clamp(StampOr0(Existing(r, k)), partial).value;
    ProjectStores(k.table, Existing(r, k) + p);
    assert forall c :: c != UpdatedAt ==> Get(p, c) == Get(partial, c);
  }

  // ── Schema facts ───────────────────────────────────────────────────────────

  lemma SchemaFacts(t: Table)
    requires Synced(t)
    ensures UpdatedAt in Columns(t) && Deleted in Columns(t) && PrimaryKey(t) in Columns(t)
    ensures ChangeSeq !in Columns(t) && ServerId !in Columns(t)
  {
    ServerColumnsStayOut(t);
    hide RequiredInsertColumns;
  }

  lemma ServerColumnsStayOut(t: Table)
    ensures ChangeSeq !in Columns(t) && ServerId !in Columns(t)
  {
  }

  /** The stamp of a row is untouched by storing it. */
  lemma ProjectStamp(t: Table, row: Row)
    requires Synced(t)
    ensures Stamp(Project(t, row)) == Stamp(row)
    ensures StampOr0(Project(t, row)) == StampOr0(row)
  {
    SchemaFacts(t);
  }
}
