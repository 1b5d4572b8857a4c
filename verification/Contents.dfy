/** Contents converge too, record by record, when every write of the record carries the full row and no
    two of them share a stamp: every column, apart from those a caller gives up. */
module ContentsModel {
  import opened Data
  import opened Seqs
  import opened ReplicaModel
  import opened OutboxModel
  import opened FleetModel
  import opened TimedModel
  import opened ConvergenceModel
  import Push = PushModel
  import Pull = PullModel

  /** Columns a flush may rewrite on the way out or a pull may fill without a stamp. */
  function Rewritable(t: Table): set<Column> {
    if t == Notes then {BookId} else if t == Books then BOOK_FILLABLE else {}
  }

  /** Those of them that are given up. */
  function Rewritten(t: Table, loose: set<Column>): set<Column> {
    Rewritable(t) * loose
  }

  /** The contents of a row: the cells of its columns, apart from the given up ones. */
  function Core(t: Table, row: Row, loose: set<Column>): Row {
    map c | c in Columns(t) && c !in Rewritten(t, loose) :: CellOf(row, c)
  }

  /** The cell of a column; a missing one is NULL. */
  function CellOf(row: Row, c: Column): Cell {
    if c in row then row[c] else Null
  }

  /** The record followed, the rewritable columns given up for it, and its contents at every stamp it was
      written with so far. */
  datatype History = History(key: Key, loose: set<Column>, versions: map<int, Row>)

  /** One more version. */
  function Noted(h: History, row: Row): History {
    h.(versions := h.versions[StampOr0(row) := Core(h.key.table, row, h.loose)])
  }

  predicate FullRow(k: Key, row: Row) {
    Columns(k.table) <= row.Keys && Addresses(k, row) && Deleted in row && row[Deleted].Bool?
  }

  /** A full row, with no null in a book column that a pull would fill, unless that is given up. */
  predicate Whole(k: Key, row: Row, loose: set<Column>) {
    FullRow(k, row) && (k.table == Books ==> forall c :: c in BOOK_FILLABLE && c !in loose ==> Get(row, c) != Some(Null))
  }

  /** The remaps leave every book id queued for a note in place. */
  ghost predicate BooksFixed(r: Replica, k: Key, before: map<string, string>, after: map<string, string>) {
    forall e :: e in r.outbox && IsFor(e, k) && e.payload.Object? ==> BookFixed(e.payload.fields, before, after)
  }

  predicate BookFixed(row: Row, before: map<string, string>, after: map<string, string>) {
    var b := AsStr(Get(row, BookId));
    b.Some? ==> Walk(b.value, before, MAX_HOPS) == b.value && Walk(b.value, after, MAX_HOPS) == b.value
  }

  /** The payload a step writes, if it is a write: the record and the row with its final stamp. */
  ghost function Written(f: Fleet, step: Step): Option<Write>
    requires Enabled(f, step)
  {
    match step
    case Stage(d, k, partial, _, _) =>
      (match Clamp(StampOr0(Existing(f.devices[d].replica, k)), partial)
       case None => None
       case Some(p) => Some(Write(k, p)))
    case ImportOne(_, w, _) => Some(w)
    case Foreign(k, payload) => Some(Write(k, payload))
    case _ => None
  }

  /** A delete of the record is queued. */
  ghost predicate DeleteQueued(r: Replica, k: Key) {
    exists e :: e in r.outbox && IsFor(e, k) && IsDelete(e)
  }

  /** A write of the record carries the full row under a new stamp, and a live local one over a queued
      delete goes through a path that drops the record's queued tombstones. A book's write carries no null
      in a column that is not given up; if a note's book id is not given up, no dispatch of the note
      remaps it. Nothing is asked of other records. */
  ghost predicate FullAndTieFree(f: Fleet, h: History, step: Step)
    requires Enabled(f, step)
  {
    match Written(f, step)
    case None =>
      step.Dispatch? && step.key == h.key && h.key.table == Notes && BookId !in h.loose ==>
        BooksFixed(f.devices[step.d].replica, h.key, step.before, step.after)
    case Some(w) => w.key == h.key ==>
      && Whole(h.key, w.row, h.loose) && StampOr0(w.row) !in h.versions
      && (step.Stage? ==> step.revive || w.row[Deleted] == Bool(true) || !DeleteQueued(f.devices[step.d].replica, h.key))
  }

  ghost function Recorded(f: Fleet, h: History, step: Step): History
    requires Enabled(f, step)
  {
    match Written(f, step)
    case None => h
    case Some(w) => NotedFor(h, w.key, w.row)
  }

  function NotedFor(h: History, k: Key, row: Row): History {
    if k == h.key then Noted(h, row) else h
  }

  // ── The invariant ──────────────────────────────────────────────────────────

  /** A row is exactly the recorded version of its stamp. */
  ghost predicate IsVersion(h: History, row: Row) {
    && StampOr0(row) in h.versions && h.versions[StampOr0(row)] == Core(h.key.table, row, h.loose)
    && Solid(h.key.table, Core(h.key.table, row, h.loose), h.loose)
  }

  /** The stamp is a 64-bit integer and the flag a boolean, so storing leaves both as they are. */
  predicate Plain(row: Row) {
    Stamp(row).Some? && Deleted in row && row[Deleted].Bool?
  }

  /** Stamp and flag are plain, and nothing is left for a pull to fill in a book column that is not given
      up. */
  predicate Solid(t: Table, core: Row, loose: set<Column>) {
    && Plain(core)
    && (t == Books ==> forall c :: c in BOOK_FILLABLE && c !in loose ==> Get(core, c).Some? && Get(core, c) != Some(Null))
  }

  ghost predicate ServerContents(h: History, s: Server) {
    h.key in s.rows ==> Addresses(h.key, s.rows[h.key].fields) && IsVersion(h, s.rows[h.key].fields)
  }

  ghost predicate EntryContents(h: History, e: Entry) {
    IsFor(e, h.key) ==> e.payload.Object? && Whole(h.key, e.payload.fields, h.loose) && IsVersion(h, e.payload.fields)
  }

  /** Within the record, a queued delete is followed by deletes only. */
  predicate DeletesLast(z: Key, a: Entry, b: Entry) {
    IsFor(a, z) && IsFor(b, z) && IsDelete(a) ==> IsDelete(b)
  }

  function DeleteOrder(z: Key): (Entry, Entry) -> bool {
    (a, b) => DeletesLast(z, a, b)
  }

  ghost predicate DeletesAreLast(q: seq<Entry>, z: Key) {
    forall i, j :: 0 <= i < j < |q| ==> DeletesLast(z, q[i], q[j])
  }

  ghost predicate FetchedContents(h: History, x: Fetched) {
    x.key == h.key ==> Addresses(h.key, x.row.fields) && IsVersion(h, x.row.fields)
  }

  ghost predicate DeviceContents(h: History, v: Device) {
    && (h.key in v.replica.rows ==> IsVersion(h, v.replica.rows[h.key]))
    && (forall e :: e in v.replica.outbox ==> EntryContents(h, e))
    && DeletesAreLast(v.replica.outbox, h.key)
    && (v.page.Some? ==> forall x :: x in v.page.value.rows ==> FetchedContents(h, x))
  }

  ghost predicate Contents(f: Fleet, h: History) {
    ServerContents(h, f.server) && forall d :: d in f.devices ==> DeviceContents(h, f.devices[d])
  }

  ghost predicate Grown(h: History, h': History) {
    h'.key == h.key && h'.loose == h.loose && forall n :: n in h.versions ==> n in h'.versions && h'.versions[n] == h.versions[n]
  }

  lemma DeviceContentsGrown(h: History, h': History, v: Device)
    requires DeviceContents(h, v) && Grown(h, h')
    ensures DeviceContents(h', v)
  {
    hide Core, Whole, StampOr0, Solid, DeletesAreLast, IsFor;
  }

  lemma ServerContentsGrown(h: History, h': History, s: Server)
    requires ServerContents(h, s) && Grown(h, h')
    ensures ServerContents(h', s)
  {
    hide Core, StampOr0, Solid;
  }

  // ── Contents through each transformation ───────────────────────────────────

  lemma CoreOfStored(t: Table, row: Row, loose: set<Column>)
    requires Plain(row)
    ensures Core(t, Project(t, row), loose) == Core(t, row, loose)
  {
    hide Columns, Rewritten;
    forall c | c in Columns(t) && c !in Rewritten(t, loose) ensures Core(t, Project(t, row), loose)[c] == Core(t, row, loose)[c] {
      assert c in Project(t, row);
    }
  }

  lemma CoreOfMerged(t: Table, under: Row, over: Row, loose: set<Column>)
    requires forall c :: c in Columns(t) && c !in Rewritten(t, loose) ==> c in over
    ensures Core(t, under + over, loose) == Core(t, over, loose)
  {
    hide Columns, Rewritten;
  }

  lemma StampOfMerged(under: Row, over: Row)
    requires UpdatedAt in over
    ensures StampOr0(under + over) == StampOr0(over) && Stamp(under + over) == Stamp(over)
  {
  }

  lemma StoredVersion(h: History, row: Row)
    requires Synced(h.key.table) && IsVersion(h, row)
    ensures IsVersion(h, Project(h.key.table, row))
  {
    hide Project, Core, StampOr0, Plain;
    PlainCore(h.key.table, row, h.loose);
    CoreOfStored(h.key.table, row, h.loose);
    ProjectStamp(h.key.table, row);
  }

  lemma PlainCore(t: Table, row: Row, loose: set<Column>)
    requires Synced(t)
    ensures Plain(Core(t, row, loose)) <==> Plain(row)
  {
    SchemaFacts(t);
    RewriteFacts(t);
    assert UpdatedAt !in Rewritten(t, loose) && Deleted !in Rewritten(t, loose);
    hide Columns, Rewritten, Rewritable;
  }

  lemma FilledVersion(h: History, row: Row, incoming: Row)
    requires h.key.table == Books && IsVersion(h, row)
    ensures IsVersion(h, FillBook(row, incoming))
  {
    Pull.FillBookKeepsStamp(row, incoming);
    FilledCore(row, incoming, h.loose);
    hide Columns, Core, FillBook, StampOr0, Solid;
  }

  lemma FilledCore(row: Row, incoming: Row, loose: set<Column>)
    requires Solid(Books, Core(Books, row, loose), loose)
    ensures Core(Books, FillBook(row, incoming), loose) == Core(Books, row, loose)
  {
    hide Columns;
    var filled := FillBook(row, incoming);
    forall c | c in Columns(Books) && c !in Rewritten(Books, loose)
      ensures Core(Books, filled, loose)[c] == Core(Books, row, loose)[c]
    {
      if c in BOOK_FILLABLE {
        assert Get(Core(Books, row, loose), c) != Some(Null);
      }
    }
  }

  lemma WireVersion(h: History, s: ServerRow)
    requires Synced(h.key.table) && Addresses(h.key, s.fields) && IsVersion(h, s.fields)
    ensures IsVersion(h, WireOf(h.key, s).fields)
  {
    WireFacts(h.key, s);
    SchemaFacts(h.key.table);
    hide Columns;
    hide Rewritten, Solid;
    assert Core(h.key.table, WireOf(h.key, s).fields, h.loose) == Core(h.key.table, s.fields, h.loose);
  }

  /** What a flush sends for full-row writes is the last queued version. */
  lemma SendsLastVersion(h: History, r: Replica, before: map<string, string>, after: map<string, string>)
    requires QueueOk(r) && Timely(r.outbox, h.key) && Synced(h.key.table) && exists e :: e in r.outbox && IsFor(e, h.key)
    requires (forall e :: e in r.outbox ==> EntryContents(h, e)) && DeletesAreLast(r.outbox, h.key)
    requires h.key.table == Notes && BookId !in h.loose ==> BooksFixed(r, h.key, before, after)
    ensures var t, p := h.key.table, Sends(r, h.key, before, after);
      && (forall c :: c in Columns(t) && c !in Rewritten(t, h.loose) ==> c in p)
      && Addresses(h.key, p) && Stamp(p).Some? && IsVersion(h, p)
  {
    var k := h.key;
    var g, p := Filter(InGroup(k), r.outbox), Sends(r, k, before, after);
    hide Filter, QueueOk, Columns, StampOr0, Core, Addresses, Rewritten, Timely, BooksFixed, Sends, Fold, Rewritable, SortByTime;
    hide EntryContents, IsVersion, Get, Push.Prepare, Repoint, DeletesAreLast, IsFor, Whole, BookFixed, GroupKey, CarriesRowStamp;
    FoldsToLast(h, r);
    LastBookFixed(r, k, before, after);
    SendsFold(r, k, before, after);
    SendsRowStamp(r, k, before, after);
    NewestQueued(r, k);
    var last := g[|g| - 1].payload.fields;
    FullParts(k, last, Fold(g), h.loose);
    SameBook(k, last, Fold(g), before, after);
    SentCore(k, Fold(g), before, after, h.loose);
    SameStampRows(last, p);
    SameVersion(h, last, p);
  }

  /** A timely queue is folded in its own order. */
  lemma SendsFold(r: Replica, k: Key, before: map<string, string>, after: map<string, string>)
    requires QueueOk(r) && Timely(r.outbox, k)
    ensures Sends(r, k, before, after) == Push.Prepare(k.table, Repoint(k.table, Fold(Filter(InGroup(k), r.outbox)), before), after)
  {
    hide Filter, QueueOk, Timely, Push.Prepare, Repoint, Fold, TimeOrdered;
    GroupTimely(r, k);
    SortOfOrdered(Filter(InGroup(k), r.outbox));
  }

  /** Full-row entries fold to the last of them. */
  lemma FoldsToLast(h: History, r: Replica)
    requires QueueOk(r) && exists e :: e in r.outbox && IsFor(e, h.key)
    requires (forall e :: e in r.outbox ==> EntryContents(h, e)) && DeletesAreLast(r.outbox, h.key)
    ensures var k, g := h.key, Filter(InGroup(h.key), r.outbox);
      && g != [] && g[|g| - 1].payload.Object? && Columns(k.table) <= Fold(g).Keys
      && var last := g[|g| - 1].payload.fields;
      && Whole(k, last, h.loose) && IsVersion(h, last) && Columns(k.table) <= last.Keys
      && forall c :: c in Columns(k.table) ==> Fold(g)[c] == last[c]
  {
    var k := h.key;
    var g := Filter(InGroup(k), r.outbox);
    hide Filter, QueueOk, Columns, IsDelete, EntryContents, IsVersion, DeletesAreLast, IsFor, Whole, FullRow, Fold, GroupKey;
    NewestQueued(r, k);
    GroupOfFull(h, r, g);
    var last := g[|g| - 1];
    LastEntry(h, last);
    WholeParts(k, last.payload.fields, h.loose);
    FoldOfFull(k, g, last);
  }

  lemma LastEntry(h: History, e: Entry)
    requires EntryContents(h, e) && IsFor(e, h.key)
    ensures e.payload.Object? && Whole(h.key, e.payload.fields, h.loose) && IsVersion(h, e.payload.fields)
    ensures Columns(h.key.table) <= e.payload.fields.Keys
  {
  }

  lemma WholeParts(k: Key, row: Row, loose: set<Column>)
    requires Whole(k, row, loose)
    ensures FullRow(k, row)
  {
  }

  lemma SameBook(k: Key, row: Row, same: Row, before: map<string, string>, after: map<string, string>)
    requires Columns(k.table) <= row.Keys && Columns(k.table) <= same.Keys && forall c :: c in Columns(k.table) ==> same[c] == row[c]
    ensures k.table == Notes && BookFixed(row, before, after) ==> BookFixed(same, before, after)
  {
    hide Walk;
    if k.table == Notes {
      BookInNotes();
      hide Columns;
    }
  }

  lemma BookInNotes()
    ensures BookId in Columns(Notes)
  {
  }

  lemma LastBookFixed(r: Replica, k: Key, before: map<string, string>, after: map<string, string>)
    requires QueueOk(r) && (exists e :: e in r.outbox && IsFor(e, k))
    ensures var g := Filter(InGroup(k), r.outbox);
      g != [] && (BooksFixed(r, k, before, after) ==> g[|g| - 1].payload.Object? && BookFixed(g[|g| - 1].payload.fields, before, after))
  {
    hide Filter, QueueOk, BookFixed;
    var g := Filter(InGroup(k), r.outbox);
    NewestQueued(r, k);
    GroupIsQueue(r, k);
    assert g[|g| - 1] in g;
  }

  lemma GroupOfFull(h: History, r: Replica, g: seq<Entry>)
    requires QueueOk(r) && g == Filter(InGroup(h.key), r.outbox)
    requires (forall e :: e in r.outbox ==> EntryContents(h, e)) && DeletesAreLast(r.outbox, h.key)
    ensures forall e :: e in g ==> IsFor(e, h.key) && EntryContents(h, e)
    ensures DeletesAreLast(g, h.key)
    ensures g != [] ==> EntryContents(h, g[|g| - 1]) && IsFor(g[|g| - 1], h.key)
  {
    GroupIsQueue(r, h.key);
    KeptDeletes(InGroup(h.key), r.outbox, h.key);
    hide EntryContents, QueueOk, DeletesAreLast, Filter, IsFor;
    assert g != [] ==> g[|g| - 1] in g;
  }

  lemma FullParts(k: Key, row: Row, same: Row, loose: set<Column>)
    requires Synced(k.table) && Whole(k, row, loose) && Columns(k.table) <= same.Keys
    requires forall c :: c in Columns(k.table) ==> same[c] == row[c]
    ensures Addresses(k, same) && Core(k.table, same, loose) == Core(k.table, row, loose) && NoNulls(k.table, same, loose)
  {
    SchemaFacts(k.table);
    FillableColumns();
    hide Columns;
  }

  lemma FillableColumns()
    ensures BOOK_FILLABLE <= Columns(Books)
  {
  }

  predicate NoNulls(t: Table, row: Row, loose: set<Column>) {
    t == Books ==> forall c :: c in BOOK_FILLABLE && c !in loose ==> Get(row, c) != Some(Null)
  }

  lemma SameStampRows(a: Row, b: Row)
    requires Stamp(a) == Stamp(b)
    ensures StampOr0(a) == StampOr0(b)
  {
  }

  lemma FoldOfFull(k: Key, g: seq<Entry>, last: Entry)
    requires g != [] && last == g[|g| - 1] && last.payload.Object? && FullRow(k, last.payload.fields)
    requires (forall e :: e in g ==> IsFor(e, k)) && DeletesAreLast(g, k)
    ensures Columns(k.table) <= Fold(g).Keys && forall c :: c in Columns(k.table) ==> Fold(g)[c] == last.payload.fields[c]
  {
    hide Columns, Fold;
    assert AnyDelete(g) ==> IsDelete(last) by {
      if e :| e in g && IsDelete(e) {
        var i :| 0 <= i < |g| && g[i] == e;
        assert last in g && (i < |g| - 1 ==> DeletesLast(k, g[i], last));
      }
    }
    FoldDeleted(g);
    forall c | c in Columns(k.table) ensures c in Fold(g) && Fold(g)[c] == last.payload.fields[c] {
      assert LastIn(g, c, |g| - 1);
      if c == Deleted && AnyDelete(g) {
        assert last.payload.fields[Deleted] == Bool(true);
      } else {
        FoldField(g, c, |g| - 1);
      }
    }
  }

  lemma SentCore(k: Key, payload: Row, before: map<string, string>, after: map<string, string>, loose: set<Column>)
    requires Synced(k.table) && Columns(k.table) <= payload.Keys && Addresses(k, payload) && NoNulls(k.table, payload, loose)
    requires k.table == Notes && BookId !in loose ==> BookFixed(payload, before, after)
    ensures var p := Push.Prepare(k.table, Repoint(k.table, payload, before), after);
      && (forall c :: c in Columns(k.table) && c !in Rewritten(k.table, loose) ==> c in p && p[c] == payload[c])
      && Addresses(k, p) && Core(k.table, p, loose) == Core(k.table, payload, loose)
  {
    SchemaFacts(k.table);
    RewriteFacts(k.table);
    hide Columns, PrimaryKey;
    var t := k.table;
    var p := Push.Prepare(t, Repoint(t, payload, before), after);
    forall c | c in Columns(t) && (c !in Rewritten(t, loose) || c == PrimaryKey(t)) ensures c in p && p[c] == payload[c] {
      SentColumn(t, payload, before, after, loose, c);
    }
    hide Push.Prepare, Repoint, Rewritten;
    assert Core(t, p, loose) == Core(t, payload, loose);
  }

  lemma SentColumn(t: Table, payload: Row, before: map<string, string>, after: map<string, string>, loose: set<Column>, c: Column)
    requires c in payload && NoNulls(t, payload, loose) && (t != Notes ==> c != BookId) && c !in Rewritten(t, loose)
    requires t == Notes && BookId !in loose ==> BookFixed(payload, before, after)
    ensures var p := Push.Prepare(t, Repoint(t, payload, before), after); c in p && p[c] == payload[c]
  {
    hide Walk;
  }

  lemma RewriteFacts(t: Table)
    requires Synced(t)
    ensures t != Notes ==> BookId !in Columns(t)
    ensures PrimaryKey(t) !in Rewritable(t) && UpdatedAt !in Rewritable(t) && Deleted !in Rewritable(t)
  {
  }

  // ── Every step ─────────────────────────────────────────────────────────────

  /** A local write and its queued entry: of the record followed they are the newly recorded version. */
  lemma WroteContents(h: History, h': History, v: Device, v': Device, k: Key, row: Row, kept: seq<Entry>, e: Entry)
    requires DeviceContents(h, v) && Grown(h, h') && v' == v.(replica := v'.replica)
    requires Wrote(v.replica, v'.replica, k, kept, e) && e.payload == Object(row) && DeletesAreLast(kept, h.key)
    requires k == h.key ==> IsVersion(h', v'.replica.rows[k]) && Whole(k, row, h'.loose) && IsVersion(h', row)
    requires k == h.key ==> IsDelete(e) || forall x :: x in kept && IsFor(x, k) ==> !IsDelete(x)
    ensures DeviceContents(h', v')
  {
    DeviceContentsGrown(h, h', v);
    hide Whole, IsVersion, IsDelete, Addresses;
    forall i | 0 <= i < |kept| ensures DeletesLast(h.key, kept[i], e) {
      assert kept[i] in kept;
    }
  }

  lemma NewVersion(h: History, under: Row, row: Row)
    requires Synced(h.key.table) && Whole(h.key, row, h.loose) && Stamp(row).Some? && StampOr0(row) !in h.versions
    ensures var t, h' := h.key.table, Noted(h, row);
      && Grown(h, h') && IsVersion(h', row)
      && IsVersion(h', under + row) && IsVersion(h', Project(t, under + row)) && IsVersion(h', Project(t, row))
  {
    FullRowParts(h.key, row, h.loose);
    var h' := Noted(h, row);
    JustRecorded(h, row);
    hide Columns, Project, Core, StampOr0, Whole, Synced, IsVersion, Rewritten;
    CoreOfMerged(h.key.table, under, row, h.loose);
    StampOfMerged(under, row);
    SameVersion(h', row, under + row);
    StoredVersion(h', row);
    StoredVersion(h', under + row);
  }

  lemma SameHistory(h: History)
    ensures Grown(h, h)
  {
  }

  lemma JustRecorded(h: History, row: Row)
    requires Synced(h.key.table) && StampOr0(row) !in h.versions && Whole(h.key, row, h.loose) && Stamp(row).Some?
    ensures Grown(h, Noted(h, row)) && IsVersion(Noted(h, row), row)
  {
    WholeIsSolid(h.key, row, h.loose);
    hide Core, StampOr0, Solid;
  }

  lemma WholeIsSolid(k: Key, row: Row, loose: set<Column>)
    requires Synced(k.table) && Whole(k, row, loose) && Stamp(row).Some?
    ensures Solid(k.table, Core(k.table, row, loose), loose)
  {
    FillableColumns();
    PlainCore(k.table, row, loose);
    hide Columns, Plain;
    assert Plain(row) by {
      PlainWhole(k, row, loose);
    }
  }

  lemma PlainWhole(k: Key, row: Row, loose: set<Column>)
    requires Whole(k, row, loose) && Stamp(row).Some?
    ensures Plain(row)
  {
    hide Columns;
  }

  lemma SameVersion(h: History, row: Row, same: Row)
    requires IsVersion(h, row) && StampOr0(same) == StampOr0(row)
    requires Core(h.key.table, same, h.loose) == Core(h.key.table, row, h.loose)
    ensures IsVersion(h, same)
  {
    hide Core, StampOr0, Solid;
  }

  lemma FullRowParts(k: Key, row: Row, loose: set<Column>)
    requires Synced(k.table) && Whole(k, row, loose)
    ensures UpdatedAt in row && forall c :: c in Columns(k.table) ==> c in row
  {
    SchemaFacts(k.table);
    hide Columns;
  }

  lemma KeptDeletes(p: Entry -> bool, q: seq<Entry>, z: Key)
    requires DeletesAreLast(q, z)
    ensures DeletesAreLast(Filter(p, q), z)
    ensures forall x :: x in Filter(p, q) <==> x in q && p(x)
  {
    FilterPairwise(DeleteOrder(z), p, q);
    FilterMembers(p, q);
    forall i, j | 0 <= i < j < |Filter(p, q)| ensures DeletesLast(z, Filter(p, q)[i], Filter(p, q)[j]) {
      assert DeleteOrder(z)(Filter(p, q)[i], Filter(p, q)[j]);
    }
  }

  lemma StageContents(f: Fleet, h: History, step: Step)
    requires Inv(f) && Contents(f, h) && step.Stage? && Enabled(f, step) && FullAndTieFree(f, h, step)
    ensures Contents(Do(f, step), Recorded(f, h, step))
  {
    hide Inv, Contents, DeviceContents, ServerContents, Core, Whole, DeviceOk, StampOr0, Grown, StageStep, Clamp, Existing;
    var v, k := f.devices[step.d], step.key;
    var c := Clamp(StampOr0(Existing(v.replica, k)), step.partial);
    DeviceAt(f, h, step.d);
    if c.Some? {
      StageDeviceContents(f.server, v, h, k, step.partial, step.at, step.revive, c.value);
      OthersGrown(f, h, Recorded(f, h, step));
      DeviceReplaced(f, Recorded(f, h, step), step.d, StageStep(v, k, step.partial, step.at, step.revive));
    } else {
      RefusedStage(v, k, step.partial, step.at, step.revive);
      assert f.devices[step.d := v] == f.devices;
    }
  }

  lemma DeviceAt(f: Fleet, h: History, d: nat)
    requires Inv(f) && Contents(f, h) && d in f.devices
    ensures DeviceOk(f.server, f.devices[d]) && DeviceContents(h, f.devices[d])
  {
    hide DeviceOk, DeviceContents, ServerOk, ServerContents;
  }

  lemma DeviceReplaced(f: Fleet, h: History, d: nat, v: Device)
    requires Contents(f, h) && DeviceContents(h, v)
    ensures Contents(f.(devices := f.devices[d := v]), h)
  {
    hide DeviceContents, ServerContents;
  }

  lemma RefusedStage(v: Device, k: Key, partial: Row, at: int, revive: bool)
    requires Clamp(StampOr0(Existing(v.replica, k)), partial).None?
    ensures StageStep(v, k, partial, at, revive) == v
  {
  }

  lemma StageDeviceContents(s: Server, v: Device, h: History, k: Key, partial: Row, at: int, revive: bool, p: Row)
    requires DeviceOk(s, v) && DeviceContents(h, v) && Synced(k.table) && Stamp(partial).Some?
    requires Clamp(StampOr0(Existing(v.replica, k)), partial) == Some(p)
    requires k == h.key ==> Whole(k, p, h.loose) && StampOr0(p) !in h.versions
    requires k == h.key ==> revive || p[Deleted] == Bool(true) || !DeleteQueued(v.replica, k)
    ensures var h' := NotedFor(h, k, p);
      Grown(h, h') && DeviceContents(h', StageStep(v, k, partial, at, revive))
  {
    var r := v.replica;
    var r0 := if revive then DropPendingDeletes(r, k) else r;
    var e := Entry(r.nextId, k.table, Some(k.id), Object(p), at);
    StageWrote(s, v, k, partial, at, revive, p);
    hide Wrote, DeviceContents, Core, Columns, Project, Filter, DeviceOk, StampOr0, Grown, IsVersion, DeletesAreLast;
    NewVersionFor(h, k, Existing(r, k), p);
    ContentsDeletes(h, v);
    KeptDeletes(Not(PendingDelete(k)), r.outbox, h.key);
    WroteContents(h, NotedFor(h, k, p), v, StageStep(v, k, partial, at, revive), k, p, r0.outbox, e);
  }

  lemma NewVersionFor(h: History, k: Key, under: Row, row: Row)
    requires Synced(k.table) && (k == h.key ==> Whole(k, row, h.loose) && Stamp(row).Some? && StampOr0(row) !in h.versions)
    ensures var h' := NotedFor(h, k, row);
      && Grown(h, h')
      && (k == h.key ==> IsVersion(h', row) && IsVersion(h', Project(k.table, under + row)) && IsVersion(h', Project(k.table, row)))
  {
    hide Grown, Whole, Project, IsVersion, StampOr0;
    if k == h.key {
      NewVersion(h, under, row);
    } else {
      SameHistory(h);
    }
  }

  lemma ContentsDeletes(h: History, v: Device)
    requires DeviceContents(h, v)
    ensures DeletesAreLast(v.replica.outbox, h.key)
  {
  }

  lemma ImportContents(f: Fleet, h: History, step: Step)
    requires Inv(f) && Contents(f, h) && step.ImportOne? && Enabled(f, step) && FullAndTieFree(f, h, step)
    ensures Contents(Do(f, step), Recorded(f, h, step))
  {
    hide Inv, Contents, DeviceContents, Core, Whole, DeviceOk, StampOr0, Grown, ImportWrite, Existing;
    var v := f.devices[step.d];
    DeviceAt(f, h, step.d);
    ImportDeviceContents(f.server, v, h, step.write, step.batch);
    OthersGrown(f, h, Recorded(f, h, step));
    DeviceReplaced(f, Recorded(f, h, step), step.d, v.(replica := ImportWrite(v.replica, step.write, step.batch)));
  }

  lemma ImportDeviceContents(s: Server, v: Device, h: History, w: Write, batch: int)
    requires DeviceOk(s, v) && DeviceContents(h, v) && Synced(w.key.table) && Stamp(w.row).Some?
    requires Stamp(w.row).value > StampOr0(Existing(v.replica, w.key))
    requires w.key == h.key ==> Whole(w.key, w.row, h.loose) && StampOr0(w.row) !in h.versions
    ensures var h' := NotedFor(h, w.key, w.row);
      Grown(h, h') && DeviceContents(h', v.(replica := ImportWrite(v.replica, w, batch)))
  {
    var r, k := v.replica, w.key;
    var e := Entry(r.nextId, k.table, Some(k.id), Object(w.row), batch);
    ImportWrote(s, v, w, batch);
    hide Wrote, DeviceContents, Core, Columns, Project, Filter, DeviceOk, StampOr0, Grown, IsVersion, DeletesAreLast;
    NewVersionFor(h, k, map[], w.row);
    ContentsDeletes(h, v);
    KeptDeletes(Not(PendingDelete(k)), r.outbox, h.key);
    WroteContents(h, NotedFor(h, k, w.row), v, v.(replica := ImportWrite(r, w, batch)), k, w.row,
                  DropPendingDeletes(r, k).outbox, e);
  }

  lemma MergeContents(h: History, s: Server, v: Device)
    requires DeviceContents(h, v) && DeviceOk(s, v) && ServerOk(s)
    requires v.page.Some? && v.page.value.done < |v.page.value.rows|
    ensures DeviceContents(h, MergeStep(v))
  {
    var p := v.page.value;
    var x := p.rows[p.done];
    var w, k := WireOf(x.key, x.row), x.key;
    VersionsInFlight(h, s, v, x, w);
    hide Filter, Project, FillBook, IsVersion, StampOr0, WireOf, DeviceOk, DeviceContents;
    assert k == Key(p.table, k.id);
    match Decide(v.replica, p.table, w)
    case Apply => ReplacedContents(h, v, MergeStep(v), k, Project(k.table, w.fields), Not(Stale(k, StampOr0(w.fields))));
    case KeepLocal =>
      if p.table == Books {
        KeptContents(h, v, MergeStep(v), k, FillBook(v.replica.rows[k], w.fields));
      } else {
        SameContents(h, v, MergeStep(v));
      }
    case SkipTombstone => SameContents(h, v, MergeStep(v));
    case Ignore =>
  }

  lemma VersionsInFlight(h: History, s: Server, v: Device, x: Fetched, w: Wire)
    requires DeviceContents(h, v) && DeviceOk(s, v) && ServerOk(s)
    requires v.page.Some? && v.page.value.done < |v.page.value.rows| && x == v.page.value.rows[v.page.value.done]
    requires w == WireOf(x.key, x.row)
    ensures x.key.table == v.page.value.table && WireId(x.key.table, w) == Some(x.key.id)
    ensures x.key == h.key ==> IsVersion(h, Project(x.key.table, w.fields))
    ensures x.key == h.key && x.key in v.replica.rows && x.key.table == Books ==>
      IsVersion(h, FillBook(v.replica.rows[x.key], w.fields))
  {
    var p, k := v.page.value, x.key;
    hide QueueOk, AckedOk, Covered, NoGap, Project, FillBook, IsVersion, StampOr0, WireOf, EntryContents, DeletesAreLast;
    assert x in p.rows;
    InFlightFacts(s, p.table, Pull.CursorOf(v.replica, p.table), x);
    WireFacts(k, x.row);
    if k == h.key {
      assert FetchedContents(h, x);
      WireVersion(h, x.row);
      StoredVersion(h, w.fields);
      if k in v.replica.rows && k.table == Books {
        FilledVersion(h, v.replica.rows[k], w.fields);
      }
    }
  }

  ghost predicate SamePageRows(v: Device, v': Device) {
    v.page.Some? && v'.page.Some? && v'.page.value.rows == v.page.value.rows
  }

  lemma SameContents(h: History, v: Device, v': Device)
    requires DeviceContents(h, v) && v'.replica == v.replica && SamePageRows(v, v')
    ensures DeviceContents(h, v')
  {
  }

  lemma KeptContents(h: History, v: Device, v': Device, k: Key, row: Row)
    requires DeviceContents(h, v) && SamePageRows(v, v') && (k == h.key ==> IsVersion(h, row))
    requires v'.replica == v.replica.(rows := v.replica.rows[k := row])
    ensures DeviceContents(h, v')
  {
    hide IsVersion, EntryContents, DeletesAreLast, FetchedContents;
  }

  lemma ReplacedContents(h: History, v: Device, v': Device, k: Key, row: Row, p: Entry -> bool)
    requires DeviceContents(h, v) && SamePageRows(v, v') && (k == h.key ==> IsVersion(h, row))
    requires v'.replica == v.replica.(rows := v.replica.rows[k := row], outbox := Filter(p, v.replica.outbox))
    ensures DeviceContents(h, v')
  {
    hide IsVersion, EntryContents, DeletesAreLast, FetchedContents, Filter;
    KeptDeletes(p, v.replica.outbox, h.key);
  }

  lemma WriteContents(h: History, s: Server, payload: Row, patch: bool)
    requires ServerContents(h, s) && Synced(h.key.table)
    requires forall c :: c in Columns(h.key.table) && c !in Rewritten(h.key.table, h.loose) ==> c in payload
    requires Addresses(h.key, payload) && IsVersion(h, payload)
    ensures ServerContents(h, ServerWrite(s, h.key, payload, patch))
  {
    var under := if h.key in s.rows then s.rows[h.key].fields else map[];
    MergedVersion(h, under, payload);
    hide Columns, Core, StampOr0, Addresses, Lands, IsVersion, Rewritten;
  }

  lemma OtherWriteContents(h: History, s: Server, k: Key, payload: Row, patch: bool)
    requires ServerContents(h, s) && k != h.key
    ensures ServerContents(h, ServerWrite(s, k, payload, patch))
  {
    hide Addresses, IsVersion, Lands;
  }

  lemma MergedVersion(h: History, under: Row, payload: Row)
    requires Synced(h.key.table) && Addresses(h.key, payload) && IsVersion(h, payload)
    requires forall c :: c in Columns(h.key.table) && c !in Rewritten(h.key.table, h.loose) ==> c in payload
    ensures Addresses(h.key, under + payload) && IsVersion(h, under + payload)
  {
    var t := h.key.table;
    SchemaFacts(t);
    RewriteFacts(t);
    assert PrimaryKey(t) !in Rewritten(t, h.loose) && UpdatedAt !in Rewritten(t, h.loose);
    hide Columns, Core, StampOr0, PrimaryKey, Rewritten, Rewritable, Synced, Solid;
    CoreOfMerged(t, under, payload, h.loose);
    StampOfMerged(under, payload);
  }

  lemma DispatchContents(f: Fleet, h: History, step: Step)
    requires Inv(f) && Timed(f, h.key) && Contents(f, h) && step.Dispatch? && Enabled(f, step) && FullAndTieFree(f, h, step)
    ensures Contents(Do(f, step), h) && Recorded(f, h, step) == h
  {
    hide Inv, Timed, DeviceOk, Sends, ServerWrite, ServerOk, QueueOk, ServerContents, DeviceContents, Lands, Push.Sparse, Timely, BooksFixed;
    var v, k := f.devices[step.d], step.key;
    DevicePartsOf(f, h, step.d);
    if k == h.key {
      SentContents(h, f.server, v, step.before, step.after);
    } else {
      var payload := Sends(v.replica, k, step.before, step.after);
      OtherWriteContents(h, f.server, k, payload, Push.Sparse(k.table, payload));
    }
    if step.reply.Acked? {
      AckedContents(h, v, v.(acked := v.acked + IdsFor(v.replica, k)));
    }
  }

  lemma DevicePartsOf(f: Fleet, h: History, d: nat)
    requires Inv(f) && Timed(f, h.key) && Contents(f, h) && d in f.devices
    ensures QueueOk(f.devices[d].replica) && Timely(f.devices[d].replica.outbox, h.key)
    ensures DeviceContents(h, f.devices[d]) && ServerContents(h, f.server)
  {
    hide ServerOk, QueueOk, AckedOk, Covered, PageOk, DeviceContents, ServerContents, Timely, OnServer, NewerIsQueued;
    assert DeviceOk(f.server, f.devices[d]) && Upheld(f.server, f.devices[d], h.key);
  }

  lemma AckedContents(h: History, v: Device, v': Device)
    requires DeviceContents(h, v) && v' == v.(acked := v'.acked)
    ensures DeviceContents(h, v')
  {
  }

  lemma SentContents(h: History, s: Server, v: Device, before: map<string, string>, after: map<string, string>)
    requires ServerContents(h, s) && DeviceContents(h, v) && QueueOk(v.replica) && Timely(v.replica.outbox, h.key)
    requires exists e :: e in v.replica.outbox && IsFor(e, h.key)
    requires h.key.table == Notes && BookId !in h.loose ==> BooksFixed(v.replica, h.key, before, after)
    ensures var payload := Sends(v.replica, h.key, before, after);
      ServerContents(h, ServerWrite(s, h.key, payload, Push.Sparse(h.key.table, payload)))
  {
    hide Columns, Core, StampOr0, Sends, IsVersion, ServerWrite, Addresses, QueueOk, EntryContents, DeletesAreLast, ServerContents, Timely, BooksFixed, Rewritten;
    SendsRowStamp(v.replica, h.key, before, after);
    SendsLastVersion(h, v.replica, before, after);
    var payload := Sends(v.replica, h.key, before, after);
    WriteContents(h, s, payload, Push.Sparse(h.key.table, payload));
  }

  lemma ForeignContents(f: Fleet, h: History, step: Step)
    requires Contents(f, h) && step.Foreign? && Enabled(f, step) && FullAndTieFree(f, h, step)
    ensures Contents(Do(f, step), Recorded(f, h, step))
  {
    hide ServerContents, DeviceContents, ServerWrite;
    if step.key == h.key {
      ForeignVersion(f, h, step.payload);
    } else {
      OtherWriteContents(h, f.server, step.key, step.payload, false);
    }
  }

  lemma ForeignVersion(f: Fleet, h: History, row: Row)
    requires Contents(f, h) && Synced(h.key.table) && Whole(h.key, row, h.loose) && Stamp(row).Some? && StampOr0(row) !in h.versions
    ensures Contents(f.(server := ServerWrite(f.server, h.key, row, false)), Noted(h, row))
  {
    var h' := Noted(h, row);
    FullRowParts(h.key, row, h.loose);
    WholeParts(h.key, row, h.loose);
    hide Columns, Core, StampOr0, IsVersion, ServerWrite, DeviceContents, Grown, Whole, Rewritten;
    NewVersion(h, map[], row);
    ServerContentsGrown(h, h', f.server);
    WriteContents(h', f.server, row, false);
    forall d | d in f.devices ensures DeviceContents(h', f.devices[d]) {
      DeviceContentsGrown(h, h', f.devices[d]);
    }
  }

  lemma StepKeepsContents(f: Fleet, h: History, step: Step)
    requires Inv(f) && Timed(f, h.key) && Contents(f, h) && Enabled(f, step) && FullAndTieFree(f, h, step)
    ensures Contents(Do(f, step), Recorded(f, h, step))
  {
    hide Inv, Timed, Contents, Enabled, Do, FullAndTieFree, Recorded;
    match step
    case Stage(_, _, _, _, _) => StageContents(f, h, step);
    case ImportOne(_, _, _) => ImportContents(f, h, step);
    case Dispatch(_, _, _, _, _) => DispatchContents(f, h, step);
    case Foreign(_, _) => ForeignContents(f, h, step);
    case _ => QuietStepContents(f, h, step);
  }

  /** The steps that write no new version. */
  lemma QuietStepContents(f: Fleet, h: History, step: Step)
    requires Inv(f) && Contents(f, h) && Enabled(f, step)
    requires step.Fetch? || step.Merge? || step.Advance? || step.Abort? || step.Clear?
    ensures Contents(Do(f, step), h) && Recorded(f, h, step) == h
  {
    hide ServerOk, DeviceOk, MergeStep, AdvanceStep, ClearStep, ServerContents, DeviceContents, IsPage;
    match step
    case Fetch(d, t, rows) => FetchContents(f, h, d, t, rows);
    case Merge(d) => MergeContents(h, f.server, f.devices[d]);
    case Advance(d) => AdvanceContents(h, f.devices[d]);
    case Abort(d) => AbortContents(h, f.devices[d]);
    case Clear(d) => ClearContents(h, f.devices[d]);
    case _ =>
  }

  lemma OthersGrown(f: Fleet, h: History, h': History)
    requires Contents(f, h) && Grown(h, h')
    ensures Contents(f, h')
  {
    hide DeviceContents, ServerContents, Grown;
    ServerContentsGrown(h, h', f.server);
    forall d | d in f.devices ensures DeviceContents(h', f.devices[d]) {
      DeviceContentsGrown(h, h', f.devices[d]);
    }
  }

  lemma FetchContents(f: Fleet, h: History, d: nat, t: Table, rows: seq<Fetched>)
    requires Contents(f, h) && d in f.devices && IsPage(f.server, t, Pull.CursorOf(f.devices[d].replica, t), rows)
    ensures DeviceContents(h, f.devices[d].(page := Some(InFlight(t, rows, 0))))
  {
    hide IsVersion, EntryContents, DeletesAreLast, Addresses, NoGap;
    assert DeviceContents(h, f.devices[d]);
    forall x | x in rows ensures FetchedContents(h, x) {
      var i :| 0 <= i < |rows| && rows[i] == x;
    }
  }

  lemma AdvanceContents(h: History, v: Device)
    requires DeviceContents(h, v) && v.page.Some?
    ensures DeviceContents(h, AdvanceStep(v))
  {
    hide IsVersion, EntryContents, DeletesAreLast, FetchedContents;
  }

  lemma AbortContents(h: History, v: Device)
    requires DeviceContents(h, v)
    ensures DeviceContents(h, v.(page := None, acked := {}))
  {
  }

  lemma ClearContents(h: History, v: Device)
    requires DeviceContents(h, v)
    ensures DeviceContents(h, ClearStep(v))
  {
    hide IsVersion, EntryContents, DeletesAreLast, FetchedContents, Filter;
    KeptDeletes(Not(In(v.acked)), v.replica.outbox, h.key);
  }

  // ── Every run ──────────────────────────────────────────────────────────────

  /** A run together with one record's versions written so far: the record's writes are queued in time
      order, full-row and tie-free. */
  ghost predicate IsFullRun(states: seq<Fleet>, steps: seq<Step>, hs: seq<History>) {
    && |hs| == |states| > 0 && IsTimedFor(states, steps, hs[0].key) && hs[0].versions == map[]
    && forall i :: 0 <= i < |steps| ==>
         FullAndTieFree(states[i], hs[i], steps[i]) && hs[i + 1] == Recorded(states[i], hs[i], steps[i])
  }

  lemma {:induction false} RunKeepsContents(states: seq<Fleet>, steps: seq<Step>, hs: seq<History>, i: nat)
    requires IsFullRun(states, steps, hs) && i < |states|
    ensures Contents(states[i], hs[i]) && hs[i].key == hs[0].key && hs[i].loose == hs[0].loose
  {
    hide Contents, Inv, Timed, Enabled, Do, FullAndTieFree, Recorded, Init, PunctualFor;
    if i == 0 {
      InitContents(states[0], hs[0]);
    } else {
      RunKeepsContents(states, steps, hs, i - 1);
      RunKeepsInv(states, steps, i - 1);
      RunKeepsTimed(states, steps, i - 1, hs[0].key);
      StepKeepsContents(states[i - 1], hs[i - 1], steps[i - 1]);
      SameRecordFollowed(states[i - 1], hs[i - 1], steps[i - 1]);
    }
  }

  lemma SameRecordFollowed(f: Fleet, h: History, step: Step)
    requires Enabled(f, step)
    ensures Recorded(f, h, step).key == h.key && Recorded(f, h, step).loose == h.loose
  {
    hide Enabled, Written, Core, StampOr0;
  }

  lemma InitContents(f: Fleet, h: History)
    requires Init(f)
    ensures Contents(f, h)
  {
  }

  /** A record whose writes are full-row and tie-free, and a device quiet for it: if the device holds the
      record, it holds the server's contents on every column that is not given up, unless it created the
      record over a skipped tombstone. */
  lemma QuiescentContents(states: seq<Fleet>, steps: seq<Step>, hs: seq<History>, i: nat, d: nat, k: Key)
    requires IsFullRun(states, steps, hs) && k == hs[0].key && i < |states|
    requires d in states[i].devices && QuietFor(states[i], d, k) && k in states[i].devices[d].replica.rows
    requires !CreatedOverTombstone(states[i].devices[d], k)
    ensures k in states[i].server.rows
    ensures Core(k.table, states[i].devices[d].replica.rows[k], hs[0].loose) == Core(k.table, states[i].server.rows[k].fields, hs[0].loose)
  {
    RunKeepsContents(states, steps, hs, i);
    RecordConvergence(states, steps, i, d, k);
    hide Core, IsFullRun, QuietFor, StampOr0, EntryContents, DeletesAreLast, FetchedContents, Solid;
    assert DeviceContents(hs[i], states[i].devices[d]);
  }

  /** A step that writes no version and dispatches no note, unless its book id is given up. */
  predicate WritesNothing(h: History, step: Step) {
    && !step.Stage? && !step.ImportOne? && !step.Foreign?
    && (step.Dispatch? && h.key.table == Notes ==> BookId in h.loose)
  }

  lemma NothingWritten(f: Fleet, h: History, step: Step)
    requires Enabled(f, step) && WritesNothing(h, step)
    ensures FullAndTieFree(f, h, step) && Recorded(f, h, step) == h
  {
    hide Enabled, BooksFixed;
  }

  /** Column by column: a note's book id converges when no dispatch of the note remaps it, a book's status,
      kind or url when no write of the book carries it null, and every other column always. */
  lemma QuiescentColumn(states: seq<Fleet>, steps: seq<Step>, hs: seq<History>, i: nat, d: nat, k: Key, c: Column)
    requires IsFullRun(states, steps, hs) && k == hs[0].key && i < |states|
    requires d in states[i].devices && QuietFor(states[i], d, k) && k in states[i].devices[d].replica.rows
    requires !CreatedOverTombstone(states[i].devices[d], k)
    requires c in Columns(k.table) && (c in hs[0].loose ==> c !in Rewritable(k.table))
    ensures k in states[i].server.rows
    ensures CellOf(states[i].devices[d].replica.rows[k], c) == CellOf(states[i].server.rows[k].fields, c)
  {
    var loose := hs[0].loose;
    hide IsFullRun, QuietFor, Columns, Rewritable;
    QuiescentContents(states, steps, hs, i, d, k);
    var local, remote := Core(k.table, states[i].devices[d].replica.rows[k], loose), Core(k.table, states[i].server.rows[k].fields, loose);
    assert c in local && c in remote;
  }
}
