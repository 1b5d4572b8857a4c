/** The values that travel between the device store, its outbox and the server:
    JSON cells, rows, table and column names, and the schema tables of the core. */
module Data {

  datatype Option<+T> = None | Some(value: T)

  const I64_MIN := -0x8000_0000_0000_0000
  const I64_MAX := 0x7fff_ffff_ffff_ffff

  type I64 = n: int | I64_MIN <= n <= I64_MAX

  /** A JSON value as the sync code distinguishes them. `Json` stands for arrays and objects. */
  datatype Cell =
    | Null
    | Bool(b: bool)
    | Int(n: int)
    | Real(r: real)
    | Str(s: string)
    | Json(text: string)

  datatype Table =
    | Books | Notes | CustomIdeas | NoteLinks | Lenses | Collections | CollectionMemberships
    | NoteSignals | Questions | QuestionNotes | UserSettings
    | Unsynced(name: string)

  /** Columns the sync code names. Every other descriptor column is a `Column(name)`. */
  datatype Column =
    | Id | Name | Title | Text | BookId | NoteId | CollectionId | FromNoteId | ToNoteId | QuestionId
    | SettingKey | Status | Kind | Url | ContentTag | ServerId
    | CreatedAt | UpdatedAt | Deleted | ChangeSeq
    | Column(name: string)

  type Row = map<Column, Cell>

  datatype Key = Key(table: Table, id: string)

  function Get(row: Row, c: Column): Option<Cell> {
    if c in row then Some(row[c]) else None
  }

  /** `serde_json::Value::as_i64`. */
  function AsI64(v: Option<Cell>): Option<int> {
    if v.Some? && v.value.Int? && I64_MIN <= v.value.n <= I64_MAX then Some(v.value.n) else None
  }

  function AsStr(v: Option<Cell>): Option<string> {
    if v.Some? && v.value.Str? then Some(v.value.s) else None
  }

  /** The liberal reading of a `deleted` flag. */
  predicate Truthy(v: Option<Cell>) {
    match v
    case Some(Bool(b)) => b
    case Some(Int(n)) => n != 0
    case Some(Real(r)) => r != 0.0
    case Some(Str(s)) => s != "" && s != "false" && s != "0"
    case _ => false
  }

  function Stamp(row: Row): Option<int> {
    AsI64(Get(row, UpdatedAt))
  }

  /** The stamp a stored row is compared by: a missing one reads as 0. */
  function StampOr0(row: Row): int {
    match Stamp(row)
    case Some(n) => n
    case None => 0
  }

  // ── Schema tables ──────────────────────────────────────────────────────────

  /** Every synced table in dependency order. */
  const SYNCED_TABLES: seq<Table> :=
    [Books, Notes, CustomIdeas, NoteLinks, Lenses, Collections, CollectionMemberships,
     NoteSignals, Questions, QuestionNotes, UserSettings]

  function PrimaryKey(t: Table): Column {
    match t
    case NoteSignals => NoteId
    case UserSettings => SettingKey
    case _ => Id
  }

  /** The descriptor columns of a synced table. */
  function Columns(t: Table): set<Column> {
    match t
    case Books =>
      {Id, Title, Column("author"), Column("isbn"), Column("cover_url"), Column("cover_source"),
       Column("cover_resolved_at"), Column("merged_into"), Status, Kind, Url, CreatedAt, UpdatedAt, Deleted}
    case Notes =>
      {Id, BookId, Text, Column("page"), Column("tags"), Column("image_path"), Column("ink_crop_path"),
       Column("source"), Column("source_id"), Column("source_meta"), Column("chapter"), ContentTag,
       CreatedAt, UpdatedAt, Deleted}
    case CustomIdeas => {Id, Name, Column("description"), CreatedAt, UpdatedAt, Deleted}
    case NoteLinks => {Id, FromNoteId, ToNoteId, Column("relation_type"), CreatedAt, UpdatedAt, Deleted}
    case Lenses =>
      {Id, Name, Column("leaf_ids"), Column("combinator"), Column("threshold"), CreatedAt, UpdatedAt, Deleted}
    case Collections => {Id, Name, CreatedAt, UpdatedAt, Deleted}
    case CollectionMemberships => {Id, NoteId, CollectionId, CreatedAt, UpdatedAt, Deleted}
    case NoteSignals =>
      {NoteId, Column("source_prior"), Column("return_visits"), Column("has_annotation"),
       Column("stitch_spawns"), Column("exposure_recency_at"), Column("engagement_recency_at"),
       Column("importance"), CreatedAt, UpdatedAt, Deleted}
    case Questions =>
      {Id, Text, Status, Column("tone"), Column("resolved_at"), Column("checkin_at"),
       Column("checkin_response"), CreatedAt, UpdatedAt, Deleted}
    case QuestionNotes => {Id, QuestionId, NoteId, CreatedAt, UpdatedAt, Deleted}
    case UserSettings => {SettingKey, Column("value"), UpdatedAt, Deleted}
    case Unsynced(_) => {}
  }

  /** Columns whose absence makes an upsert impossible, so the group is sent as a patch. */
  function RequiredInsertColumns(t: Table): set<Column> {
    match t
    case Books => {Title, CreatedAt}
    case Notes => {Text, CreatedAt}
    case CustomIdeas => {Name}
    case Lenses => {Name, CreatedAt}
    case Collections => {Name, CreatedAt}
    case CollectionMemberships => {NoteId, CollectionId, CreatedAt}
    case NoteLinks => {FromNoteId, ToNoteId, CreatedAt}
    case NoteSignals => {CreatedAt}
    case Questions => {Text, CreatedAt}
    case QuestionNotes => {QuestionId, NoteId, CreatedAt}
    case _ => {}
  }

  /** Foreign keys as (column, parent table). */
  function FkDeps(t: Table): set<(Column, Table)> {
    match t
    case Notes => {(BookId, Books)}
    case NoteLinks => {(FromNoteId, Notes), (ToNoteId, Notes)}
    case CollectionMemberships => {(NoteId, Notes), (CollectionId, Collections)}
    case NoteSignals => {(NoteId, Notes)}
    case QuestionNotes => {(QuestionId, Questions), (NoteId, Notes)}
    case _ => {}
  }

  /** Book columns a pull may fill and a flush omits when null. */
  const BOOK_FILLABLE: set<Column> := {Status, Kind, Url}
}
