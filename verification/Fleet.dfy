/** Any number of devices and one server: every interleaving of staging, importing, flushing and
    page-by-page pulling, with lost acknowledgements, aborted pulls and foreign writers. */
module FleetModel {
  import opened Data
  import opened Seqs
  import opened ReplicaModel
  import opened OutboxModel
  import Push = PushModel
  import Pull = PullModel

  // ── The server ─────────────────────────────────────────────────────────────

  datatype ServerRow = ServerRow(fields: Row, number: int)

  /** `issued` is the highest change_seq handed out so far. */
  datatype Server = Server(rows: map<Key, ServerRow>, issued: nat)

  /** The write guard: an update lands only when strictly newer; a patch never inserts. */
  predicate Lands(s: Server, k: Key, payload: Row, patch: bool) {
    if k in s.rows then Stamp(payload).Some? && Stamp(payload).value > StampOr0(s.rows[k].fields)
    else !patch
  }

  function ServerWrite(s: Server, k: Key, payload: Row, patch: bool): Server {
    if Lands(s, k, payload, patch) then
      var old_ := if k in s.rows then s.rows[k].fields else map[];
      Server(s.rows[k := ServerRow(old_ + payload, s.issued + 1)], s.issued + 1)
    else s
  }

  /** A server row as a pull receives it. */
  function WireOf(k: Key, s: ServerRow): Wire {
    WireRow(s.fields[PrimaryKey(k.table) := Str(k.id)][ChangeSeq := Int(s.number)])
  }

  // ── The fleet ──────────────────────────────────────────────────────────────

  datatype Fetched = Fetched(key: Key, row: ServerRow)

  /** A page being merged: the first `done` rows have been processed. */
  datatype InFlight = InFlight(table: Table, rows: seq<Fetched>, done: nat)

  /** A device: its store, the outbox ids a running flush has had acknowledged, the page it is
      merging, and the records whose last delivery was a tombstone it skipped. */
  datatype Device = Device(replica: Replica, acked: set<nat>, page: Option<InFlight>, skipped: set<Key>)

  datatype Fleet = Fleet(server: Server, devices: map<nat, Device>)

  /** The sink's reply: refused, applied with the reply lost, or acknowledged. */
  datatype Reply = Refused | Lost | Acked

  datatype Step =
    | Stage(d: nat, key: Key, partial: Row, at: int, revive: bool)
    | ImportOne(d: nat, write: Write, batch: int)
    | Fetch(d: nat, table: Table, rows: seq<Fetched>)
    | Merge(d: nat)
    | Advance(d: nat)
    | Abort(d: nat)
    | Dispatch(d: nat, key: Key, before: map<string, string>, after: map<string, string>, reply: Reply)
    | Clear(d: nat)
    | Foreign(key: Key, payload: Row)

  /** What a flush sends for a record. */
  function Sends(r: Replica, k: Key, before: map<string, string>, after: map<string, string>): Row {
    Push.Prepare(k.table, CollapseOf(r.outbox, k, before).payload, after)
  }

  /** A page: rows of the table above the cursor in ascending order, with no row left out below the last. */
  ghost predicate IsPage(s: Server, t: Table, cursor: int, rows: seq<Fetched>) {
    && (forall i :: 0 <= i < |rows| ==>
          && rows[i].key.table == t && rows[i].key in s.rows
          && rows[i].row == s.rows[rows[i].key] && rows[i].row.number > cursor)
    && (forall i, j :: 0 <= i < j < |rows| ==> rows[i].row.number < rows[j].row.number)
    && NoGap(s, t, cursor, rows)
  }

  /** Every row of the table between the cursor and the page's last row is in the page. */
  ghost predicate NoGap(s: Server, t: Table, cursor: int, rows: seq<Fetched>) {
    forall k :: k in s.rows && k.table == t && cursor < s.rows[k].number <= LastNumber(rows, cursor) ==>
      Fetched(k, s.rows[k]) in rows
  }

  function LastNumber(rows: seq<Fetched>, cursor: int): int {
    if rows == [] then cursor else rows[|rows| - 1].row.number
  }

  ghost predicate Enabled(f: Fleet, step: Step) {
    match step
    case Stage(d, k, partial, _, _) =>
      && d in f.devices && Synced(k.table) && Addresses(k, partial) && Stamp(partial).Some?
    case ImportOne(d, w, _) =>
      && d in f.devices && Synced(w.key.table) && Addresses(w.key, w.row) && Stamp(w.row).Some?
      && Stamp(w.row).value > StampOr0(Existing(f.devices[d].replica, w.key))
    case Fetch(d, t, rows) =>
      && d in f.devices && f.devices[d].page.None? && Synced(t)
      && IsPage(f.server, t, Pull.CursorOf(f.devices[d].replica, t), rows)
    case Merge(d) => d in f.devices && f.devices[d].page.Some? && f.devices[d].page.value.done < |f.devices[d].page.value.rows|
    case Advance(d) => d in f.devices && f.devices[d].page.Some? && f.devices[d].page.value.done == |f.devices[d].page.value.rows|
    case Abort(d) => d in f.devices
    case Dispatch(d, k, before, after, reply) =>
      && d in f.devices && (exists e :: e in f.devices[d].replica.outbox && IsFor(e, k))
      && var payload := Sends(f.devices[d].replica, k, before, after);
         var patch := Push.Sparse(k.table, payload);
         // a patch is acknowledged only with the patched row in the reply
         (reply.Acked? && patch ==> Lands(f.server, k, payload, patch))
    case Clear(d) => d in f.devices
    case Foreign(k, payload) => Synced(k.table) && Stamp(payload).Some?
  }

  function StageStep(v: Device, k: Key, partial: Row, at: int, revive: bool): Device {
    var r := if revive then DropPendingDeletes(v.replica, k) else v.replica;
    match StageWrite(r, k, partial, at)
    case None => v
    case Some(r') => v.(replica := r')
  }

  function MergeStep(v: Device): Device
    requires v.page.Some? && v.page.value.done < |v.page.value.rows|
  {
    var p := v.page.value;
    var x := p.rows[p.done];
    var w := WireOf(x.key, x.row);
    v.(replica := MergeRow(v.replica, p.table, w),
       page := Some(p.(done := p.done + 1)),
       skipped := if Decide(v.replica, p.table, w) == SkipTombstone then v.skipped + {x.key} else v.skipped - {x.key})
  }

  function AdvanceStep(v: Device): Device
    requires v.page.Some?
  {
    var p := v.page.value;
    var r := v.replica;
    v.(replica := if p.rows == [] then r else r.(cursors := r.cursors[p.table := LastNumber(p.rows, 0)]),
       page := None)
  }

  function ClearStep(v: Device): Device {
    v.(replica := v.replica.(outbox := Filter(Not(In(v.acked)), v.replica.outbox)), acked := {})
  }

  function In(ids: set<nat>): Entry -> bool {
    (e: Entry) => e.id in ids
  }

  function IdsFor(r: Replica, k: Key): set<nat> {
    set e | e in r.outbox && IsFor(e, k) :: e.id
  }

  ghost function Do(f: Fleet, step: Step): Fleet
    requires Enabled(f, step)
  {
    match step
    case Stage(d, k, partial, at, revive) => f.(devices := f.devices[d := StageStep(f.devices[d], k, partial, at, revive)])
    case ImportOne(d, w, batch) =>
      f.(devices := f.devices[d := f.devices[d].(replica := ImportWrite(f.devices[d].replica, w, batch))])
    case Fetch(d, t, rows) => f.(devices := f.devices[d := f.devices[d].(page := Some(InFlight(t, rows, 0)))])
    case Merge(d) => f.(devices := f.devices[d := MergeStep(f.devices[d])])
    case Advance(d) => f.(devices := f.devices[d := AdvanceStep(f.devices[d])])
    case Abort(d) => f.(devices := f.devices[d := f.devices[d].(page := None, acked := {})])
    case Dispatch(d, k, before, after, reply) =>
      var v := f.devices[d];
      var payload := Sends(v.replica, k, before, after);
      Fleet(if reply.Refused? then f.server else ServerWrite(f.server, k, payload, Push.Sparse(k.table, payload)),
            if reply.Acked? then f.devices[d := v.(acked := v.acked + IdsFor(v.replica, k))] else f.devices)
    case Clear(d) => f.(devices := f.devices[d := ClearStep(f.devices[d])])
    case Foreign(k, payload) => f.(server := ServerWrite(f.server, k, payload, false))
  }

  // ── The invariant ──────────────────────────────────────────────────────────

  function ServerStamp(s: Server, k: Key): int
    requires k in s.rows
  {
    StampOr0(s.rows[k].fields)
  }

  function LocalStamp(r: Replica, k: Key): int
    requires k in r.rows
  {
    StampOr0(r.rows[k])
  }

  function StampOf(e: Entry): int {
    match EntryStamp(e)
    case Some(n) => n
    case None => 0
  }

  predicate SameRecord(a: Entry, b: Entry) {
    a.table == b.table && a.record == b.record
  }

  predicate IsTombstone(s: ServerRow) {
    Get(s.fields, Deleted) == Some(Bool(true))
  }

  ghost predicate ServerOk(s: Server) {
    && (forall k :: k in s.rows ==> Synced(k.table) && 0 < s.rows[k].number <= s.issued && Stamp(s.rows[k].fields).Some?)
    && (forall k, k' :: k in s.rows && k' in s.rows && k != k' ==> s.rows[k].number != s.rows[k'].number)
  }

  /** Outbox ids rise, and so do the stamps within one record. */
  ghost predicate QueueOrdered(q: seq<Entry>) {
    forall i, j :: 0 <= i < j < |q| ==> Follows(q[i], q[j])
  }

  predicate Follows(a: Entry, b: Entry) {
    a.id < b.id && (SameRecord(a, b) ==> StampOf(a) < StampOf(b))
  }

  /** A queued write is stamped, belongs to a local row no older than it, and some queued write of
      the record carries the local row's own stamp. */
  ghost predicate Backed(r: Replica, e: Entry) {
    && e.id < r.nextId && e.record.Some? && e.payload.Object? && EntryStamp(e).Some?
    && GroupKey(e) in r.rows && StampOf(e) <= LocalStamp(r, GroupKey(e))
    && CarriesRowStamp(r, GroupKey(e))
  }

  ghost predicate CarriesRowStamp(r: Replica, k: Key)
    requires k in r.rows
  {
    exists e :: e in r.outbox && IsFor(e, k) && StampOf(e) == LocalStamp(r, k)
  }

  ghost predicate QueueOk(r: Replica) {
    && QueueOrdered(r.outbox)
    && (forall e :: e in r.outbox ==> Backed(r, e))
    && (forall k :: k in r.rows ==> Synced(k.table) && Stamp(r.rows[k]).Some?)
  }

  /** Acknowledged entries are known, and within a record they are the oldest. */
  ghost predicate AckedOk(v: Device) {
    && (forall id :: id in v.acked ==> id < v.replica.nextId)
    && (forall e, e' :: e in v.replica.outbox && e' in v.replica.outbox && SameRecord(e, e') && e.id < e'.id && e'.id in v.acked ==>
          e.id in v.acked)
  }

  /** A delivered row: held locally and not older, or a tombstone that was skipped. */
  predicate Delivered(v: Device, k: Key, row: ServerRow) {
    (k in v.replica.rows && StampOr0(row.fields) <= LocalStamp(v.replica, k)) || (k in v.skipped && IsTombstone(row))
  }

  /** Every server row numbered at or below the cursor has been delivered. */
  ghost predicate Covered(s: Server, v: Device) {
    && (forall t :: Pull.CursorOf(v.replica, t) <= s.issued)
    && (forall k :: k in s.rows && s.rows[k].number <= Pull.CursorOf(v.replica, k.table) ==> Delivered(v, k, s.rows[k]))
  }

  /** A row in flight may be out of date, but never newer than the server's; if its number still
      stands, it is the server's row. */
  ghost predicate RowInFlight(s: Server, t: Table, cursor: int, x: Fetched) {
    && x.key.table == t && x.key in s.rows && cursor < x.row.number <= s.rows[x.key].number && Stamp(x.row.fields).Some?
    && StampOr0(x.row.fields) <= ServerStamp(s, x.key)
    && (x.row.number == s.rows[x.key].number ==> x.row == s.rows[x.key])
  }

  ghost predicate PageOk(s: Server, v: Device, p: InFlight) {
    var cursor := Pull.CursorOf(v.replica, p.table);
    && Synced(p.table) && p.done <= |p.rows|
    && (forall i :: 0 <= i < |p.rows| ==> RowInFlight(s, p.table, cursor, p.rows[i]))
    && (forall i, j :: 0 <= i < j < |p.rows| ==> p.rows[i].key != p.rows[j].key && p.rows[i].row.number < p.rows[j].row.number)
    && NoGap(s, p.table, cursor, p.rows)
    && (forall i :: 0 <= i < p.done ==> Delivered(v, p.rows[i].key, p.rows[i].row))
  }

  ghost predicate DeviceOk(s: Server, v: Device) {
    && QueueOk(v.replica) && AckedOk(v) && Covered(s, v)
    && (v.page.Some? ==> PageOk(s, v, v.page.value))
  }

  ghost predicate Inv(f: Fleet) {
    ServerOk(f.server) && forall d :: d in f.devices ==> DeviceOk(f.server, f.devices[d])
  }

  ghost predicate Init(f: Fleet) {
    f.server == Server(map[], 0) && forall d :: d in f.devices ==> f.devices[d] == Device(EMPTY, {}, None, {})
  }

  lemma InitOk(f: Fleet)
    requires Init(f)
    ensures Inv(f)
  {
  }

  // ── The server only grows ──────────────────────────────────────────────────

  /** Rows stay; a changed row is strictly newer and freshly numbered; new rows are freshly numbered. */
  ghost predicate Grows(s: Server, s': Server) {
    && s.issued <= s'.issued
    && (forall k :: k in s.rows ==>
          && k in s'.rows
          && (s'.rows[k] == s.rows[k] || (s'.rows[k].number > s.issued && ServerStamp(s, k) < ServerStamp(s', k))))
    && (forall k :: k in s'.rows && k !in s.rows ==> s'.rows[k].number > s.issued)
  }

  lemma WriteGrows(s: Server, k: Key, payload: Row, patch: bool)
    requires ServerOk(s) && Synced(k.table) && Stamp(payload).Some?
    ensures ServerOk(ServerWrite(s, k, payload, patch)) && Grows(s, ServerWrite(s, k, payload, patch))
    ensures var s' := ServerWrite(s, k, payload, patch);
      (k in s.rows || !patch) ==> k in s'.rows && Stamp(payload).value <= ServerStamp(s', k)
  {
    var under := if k in s.rows then s.rows[k].fields else map[];
    NewStamp(under, payload);
    hide Stamp, StampOr0, Synced, ServerOk, Grows;
    if Lands(s, k, payload, patch) {
      RowLands(s, k, under + payload);
    } else {
      SameServerGrows(s);
    }
  }

  lemma SameServerGrows(s: Server)
    ensures Grows(s, s)
  {
  }

  lemma RowLands(s: Server, k: Key, fields: Row)
    requires ServerOk(s) && Synced(k.table) && Stamp(fields).Some? && (k in s.rows ==> ServerStamp(s, k) < StampOr0(fields))
    ensures var s' := Server(s.rows[k := ServerRow(fields, s.issued + 1)], s.issued + 1); ServerOk(s') && Grows(s, s')
  {
    hide Stamp, StampOr0, Synced;
    var s' := Server(s.rows[k := ServerRow(fields, s.issued + 1)], s.issued + 1);
    assert forall k' :: k' in s'.rows && k' != k ==> k' in s.rows && s'.rows[k'] == s.rows[k'];
  }

  lemma NewStamp(under: Row, payload: Row)
    requires Stamp(payload).Some?
    ensures Stamp(under + payload) == Stamp(payload) && StampOr0(under + payload) == Stamp(payload).value
  {
  }

  lemma DeviceOkGrows(s: Server, s': Server, v: Device)
    requires ServerOk(s) && DeviceOk(s, v) && Grows(s, s')
    ensures DeviceOk(s', v)
  {
    hide QueueOk, AckedOk, Covered, PageOk, ServerOk, Grows;
    CoveredGrows(s, s', v);
    if v.page.Some? {
      PageGrows(s, s', v, v.page.value);
    }
  }

  lemma CoveredGrows(s: Server, s': Server, v: Device)
    requires Covered(s, v) && Grows(s, s')
    ensures Covered(s', v)
  {
    hide Delivered, StampOr0;
  }

  lemma PageGrows(s: Server, s': Server, v: Device, p: InFlight)
    requires ServerOk(s) && PageOk(s, v, p) && Grows(s, s')
    ensures PageOk(s', v, p)
  {
    hide Delivered, StampOr0, Stamp;
    var cursor := Pull.CursorOf(v.replica, p.table);
    forall i | 0 <= i < |p.rows| ensures RowInFlight(s', p.table, cursor, p.rows[i]) {
      assert RowInFlight(s, p.table, cursor, p.rows[i]);
    }
    assert p.rows != [] ==> RowInFlight(s, p.table, cursor, p.rows[|p.rows| - 1]);
    if p.rows != [] {
      assert LastNumber(p.rows, cursor) <= s.issued;
    }
  }

  // ── Local writes ───────────────────────────────────────────────────────────

  /** A replica after a local write: the record's row replaced, some of its queued entries dropped,
      and one entry appended that carries the new row's stamp. */
  ghost predicate Wrote(r: Replica, r': Replica, k: Key, kept: seq<Entry>, e: Entry) {
    && Synced(k.table) && r'.cursors == r.cursors && r'.nextId == r.nextId + 1
    && r'.rows == r.rows[k := Existing(r', k)] && k in r'.rows
    && r'.outbox == kept + [e] && QueueOrdered(kept)
    && (forall x :: x in kept ==> x in r.outbox)
    && (forall x :: x in r.outbox && !IsFor(x, k) ==> x in kept)
    && e.id == r.nextId && IsFor(e, k) && e.payload.Object? && EntryStamp(e).Some?
    && StampOf(e) > StampOr0(Existing(r, k))
    && Stamp(r'.rows[k]) == EntryStamp(e)
  }

  lemma WroteQueueOk(r: Replica, r': Replica, k: Key, kept: seq<Entry>, e: Entry)
    requires QueueOk(r) && Wrote(r, r', k, kept, e)
    ensures QueueOk(r')
  {
    hide GroupKey, IsFor, StampOf, StampOr0, Stamp, Synced, Backed, CarriesRowStamp, Follows;
    forall x | x in kept ensures Backed(r', x) && Follows(x, e) {
      WroteBacked(r, r', k, kept, e, x);
    }
    WroteEntry(r, r', k, kept, e);
    assert forall x :: x in r'.outbox <==> x in kept || x == e;
    forall i, j | 0 <= i < j < |r'.outbox| ensures Follows(r'.outbox[i], r'.outbox[j]) {
      assert r'.outbox[i] in kept;
    }
    SyncedRows(r, r', k, kept, e);
  }

  lemma SyncedRows(r: Replica, r': Replica, k: Key, kept: seq<Entry>, e: Entry)
    requires QueueOk(r) && Wrote(r, r', k, kept, e)
    ensures forall k' :: k' in r'.rows ==> Synced(k'.table) && Stamp(r'.rows[k']).Some?
  {
    hide Backed, Stamp, QueueOrdered, Synced;
    forall k' | k' in r'.rows ensures Synced(k'.table) && Stamp(r'.rows[k']).Some? {
      if k' != k {
        assert r'.rows[k'] == r.rows[k'];
      }
    }
  }

  lemma WroteEntry(r: Replica, r': Replica, k: Key, kept: seq<Entry>, e: Entry)
    requires Wrote(r, r', k, kept, e)
    ensures Backed(r', e)
  {
    hide QueueOrdered;
    GroupKeyOf(e, k);
    SameStamps(e, r'.rows[k]);
    assert e in r'.outbox;
  }

  lemma WroteBacked(r: Replica, r': Replica, k: Key, kept: seq<Entry>, e: Entry, x: Entry)
    requires QueueOk(r) && Wrote(r, r', k, kept, e) && x in kept
    ensures Backed(r', x) && Follows(x, e)
  {
    hide GroupKey, StampOr0, Stamp, Synced, QueueOrdered;
    assert Backed(r, x);
    GroupKeyOf(x, k);
    SameRecordFor(x, e, k);
    SameStamps(e, r'.rows[k]);
    if GroupKey(x) == k {
      assert e in r'.outbox;
    } else {
      OthersKeepStamp(r, r', k, kept, e, GroupKey(x));
    }
  }

  lemma SameStamps(e: Entry, row: Row)
    requires Stamp(row) == EntryStamp(e) && EntryStamp(e).Some?
    ensures StampOf(e) == StampOr0(row)
  {
  }

  lemma GroupKeyOf(e: Entry, k: Key)
    ensures IsFor(e, k) <==> e.record.Some? && GroupKey(e) == k
  {
  }

  lemma SameRecordFor(a: Entry, e: Entry, k: Key)
    requires IsFor(e, k)
    ensures SameRecord(a, e) <==> IsFor(a, k)
  {
  }

  lemma OthersKeepStamp(r: Replica, r': Replica, k: Key, kept: seq<Entry>, e: Entry, k': Key)
    requires Wrote(r, r', k, kept, e) && k' != k && k' in r.rows && CarriesRowStamp(r, k')
    ensures CarriesRowStamp(r', k')
  {
    var x :| x in r.outbox && IsFor(x, k') && StampOf(x) == LocalStamp(r, k');
    assert x in kept;
    assert x in r'.outbox;
  }

  lemma WroteAckedOk(v: Device, v': Device, k: Key, kept: seq<Entry>, e: Entry)
    requires QueueOk(v.replica) && AckedOk(v) && Wrote(v.replica, v'.replica, k, kept, e)
    requires v' == v.(replica := v'.replica)
    ensures AckedOk(v')
  {
    hide GroupKey, IsFor, StampOf, StampOr0, Stamp, Synced, QueueOrdered;
    var r, r' := v.replica, v'.replica;
    forall x | x in kept ensures x in r.outbox && x.id < e.id {
      KnownId(r, x);
    }
    hide QueueOk;
    assert e.id !in v.acked;
    assert forall x :: x in r'.outbox <==> x in kept || x == e;
  }

  lemma KnownId(r: Replica, x: Entry)
    requires QueueOk(r) && x in r.outbox
    ensures x.id < r.nextId
  {
    hide QueueOrdered, CarriesRowStamp;
    assert Backed(r, x);
  }

  /** A device whose rows only got newer keeps what has been delivered to it. */
  ghost predicate Fresher(v: Device, v': Device) {
    && v'.skipped == v.skipped && v'.page == v.page && v'.replica.cursors == v.replica.cursors
    && (forall k :: k in v.replica.rows ==> k in v'.replica.rows && LocalStamp(v.replica, k) <= LocalStamp(v'.replica, k))
  }

  lemma FresherKeepsDelivery(s: Server, v: Device, v': Device)
    requires Covered(s, v) && (v.page.Some? ==> PageOk(s, v, v.page.value)) && Fresher(v, v')
    ensures Covered(s, v') && (v'.page.Some? ==> PageOk(s, v', v'.page.value))
  {
    hide StampOr0, IsTombstone;
    assert forall t :: Pull.CursorOf(v'.replica, t) == Pull.CursorOf(v.replica, t);
    forall k, row | Delivered(v, k, row) ensures Delivered(v', k, row) {
    }
  }

  lemma WroteOk(s: Server, v: Device, v': Device, k: Key, kept: seq<Entry>, e: Entry)
    requires ServerOk(s) && DeviceOk(s, v) && Wrote(v.replica, v'.replica, k, kept, e)
    requires v' == v.(replica := v'.replica)
    ensures DeviceOk(s, v')
  {
    hide QueueOk, AckedOk, Covered, PageOk, Wrote, Fresher;
    WroteQueueOk(v.replica, v'.replica, k, kept, e);
    WroteAckedOk(v, v', k, kept, e);
    WroteFresher(v, v', k, kept, e);
    FresherKeepsDelivery(s, v, v');
  }

  lemma WroteFresher(v: Device, v': Device, k: Key, kept: seq<Entry>, e: Entry)
    requires Wrote(v.replica, v'.replica, k, kept, e) && v' == v.(replica := v'.replica)
    ensures Fresher(v, v')
  {
    hide Synced;
    SameStamps(e, v'.replica.rows[k]);
  }

  lemma FilteredQueue(p: Entry -> bool, q: seq<Entry>)
    requires QueueOrdered(q)
    ensures QueueOrdered(Filter(p, q)) && forall x :: x in Filter(p, q) <==> x in q && p(x)
  {
    FilterPairwise(Follows, p, q);
    FilterMembers(p, q);
  }

  lemma StageWrote(s: Server, v: Device, k: Key, partial: Row, at: int, revive: bool, p: Row)
    requires DeviceOk(s, v) && Synced(k.table) && Stamp(partial).Some?
    requires Clamp(StampOr0(Existing(v.replica, k)), partial) == Some(p)
    ensures var r := v.replica;
      Wrote(r, StageStep(v, k, partial, at, revive).replica, k, (if revive then DropPendingDeletes(r, k) else r).outbox,
            Entry(r.nextId, k.table, Some(k.id), Object(p), at))
  {
    hide DeviceOk, Project, Filter, Columns, CarriesRowStamp, Follows;
    DeviceParts(s, v);
    FilteredQueue(Not(PendingDelete(k)), v.replica.outbox);
    ProjectStamp(k.table, Existing(v.replica, k) + p);
  }

  lemma StageOk(s: Server, v: Device, k: Key, partial: Row, at: int, revive: bool)
    requires ServerOk(s) && DeviceOk(s, v) && Synced(k.table) && Stamp(partial).Some?
    ensures DeviceOk(s, StageStep(v, k, partial, at, revive))
  {
    hide DeviceOk, Project, Filter, Wrote;
    var r := v.replica;
    var p := Clamp(StampOr0(Existing(r, k)), partial);
    if p.Some? {
      StageWrote(s, v, k, partial, at, revive, p.value);
      WroteOk(s, v, StageStep(v, k, partial, at, revive), k, (if revive then DropPendingDeletes(r, k) else r).outbox,
              Entry(r.nextId, k.table, Some(k.id), Object(p.value), at));
    }
  }

  lemma DeviceParts(s: Server, v: Device)
    requires DeviceOk(s, v)
    ensures QueueOrdered(v.replica.outbox)
  {
  }

  lemma ImportWrote(s: Server, v: Device, w: Write, batch: int)
    requires DeviceOk(s, v) && Synced(w.key.table) && Stamp(w.row).Some?
    requires Stamp(w.row).value > StampOr0(Existing(v.replica, w.key))
    ensures var r, k := v.replica, w.key;
      Wrote(r, ImportWrite(r, w, batch), k, DropPendingDeletes(r, k).outbox,
            Entry(r.nextId, k.table, Some(k.id), Object(w.row), batch))
  {
    hide DeviceOk, Project, Filter, Columns, CarriesRowStamp, Follows;
    DeviceParts(s, v);
    FilteredQueue(Not(PendingDelete(w.key)), v.replica.outbox);
    ProjectStamp(w.key.table, w.row);
  }

  lemma ImportOk(s: Server, v: Device, w: Write, batch: int)
    requires ServerOk(s) && DeviceOk(s, v) && Synced(w.key.table) && Stamp(w.row).Some?
    requires Stamp(w.row).value > StampOr0(Existing(v.replica, w.key))
    ensures DeviceOk(s, v.(replica := ImportWrite(v.replica, w, batch)))
  {
    hide DeviceOk, Project, Filter, Wrote;
    var r, k := v.replica, w.key;
    ImportWrote(s, v, w, batch);
    WroteOk(s, v, v.(replica := ImportWrite(r, w, batch)), k, DropPendingDeletes(r, k).outbox,
            Entry(r.nextId, k.table, Some(k.id), Object(w.row), batch));
  }

  // ── Merging a row in flight ────────────────────────────────────────────────

  lemma WireFacts(k: Key, s: ServerRow)
    ensures WireId(k.table, WireOf(k, s)) == Some(k.id)
    ensures StampOr0(WireOf(k, s).fields) == StampOr0(s.fields) && Stamp(WireOf(k, s).fields) == Stamp(s.fields)
    ensures WireDeleted(WireOf(k, s)) <==> IsTombstone(s)
  {
  }

  /** After a pull win none of the record's queued writes is left, and no other was touched. */
  lemma RebaseDropsAll(r: Replica, k: Key, incoming: int)
    requires QueueOk(r) && (k in r.rows ==> LocalStamp(r, k) < incoming)
    ensures forall e :: e in r.outbox ==> (Stale(k, incoming)(e) <==> IsFor(e, k))
    ensures Filter(Not(Stale(k, incoming)), r.outbox) == Filter(Not(For(k)), r.outbox)
  {
    hide GroupKey, LocalStamp;
    forall e | e in r.outbox ensures Stale(k, incoming)(e) <==> IsFor(e, k) {
      assert Backed(r, e);
      GroupKeyOf(e, k);
    }
    FilterCongruent(Not(Stale(k, incoming)), Not(For(k)), r.outbox);
  }

  function For(k: Key): Entry -> bool {
    e => IsFor(e, k)
  }

  lemma RebaseQueueOk(r: Replica, k: Key, row: Row)
    requires QueueOk(r) && Synced(k.table) && Stamp(row).Some? && (k in r.rows ==> LocalStamp(r, k) < StampOr0(row))
    ensures var r' := Rebase(r, k, row, StampOr0(row));
      && QueueOk(r') && Stamp(r'.rows[k]) == Stamp(row)
      && (forall e :: e in r'.outbox <==> e in r.outbox && !IsFor(e, k))
      && (forall k' :: k' != k && k' in r.rows && CarriesRowStamp(r, k') ==> k' in r'.rows && CarriesRowStamp(r', k'))
  {
    hide Project, Filter, GroupKey, StampOf, StampOr0, Backed, CarriesRowStamp, Follows;
    var r' := Rebase(r, k, row, StampOr0(row));
    RebaseDropsAll(r, k, StampOr0(row));
    FilteredQueue(Not(For(k)), r.outbox);
    ProjectStamp(k.table, row);
    forall k' | k' != k && k' in r.rows && CarriesRowStamp(r, k') ensures CarriesRowStamp(r', k') {
      StillCarried(r, r', k');
    }
    forall e | e in r'.outbox ensures Backed(r', e) {
      StillBacked(r, r', k, e);
    }
  }

  lemma StillCarried(r: Replica, r': Replica, k: Key)
    requires k in r.rows && k in r'.rows && r'.rows[k] == r.rows[k] && CarriesRowStamp(r, k)
    requires forall e :: e in r.outbox && IsFor(e, k) ==> e in r'.outbox
    ensures CarriesRowStamp(r', k)
  {
  }

  lemma StillBacked(r: Replica, r': Replica, k: Key, e: Entry)
    requires Backed(r, e) && r'.nextId == r.nextId && !IsFor(e, k)
    requires forall k' :: k' != k && k' in r.rows ==> k' in r'.rows && r'.rows[k'] == r.rows[k']
    requires forall e :: e in r.outbox && !IsFor(e, k) ==> e in r'.outbox
    ensures Backed(r', e)
  {
    hide GroupKey;
    GroupKeyOf(e, k);
    forall x | IsFor(x, GroupKey(e)) ensures !IsFor(x, k) {
      GroupKeyOf(x, k);
      GroupKeyOf(x, GroupKey(e));
    }
    StillCarried(r, r', GroupKey(e));
  }

  /** How a merged row moved the device: only its own record, and now delivered. */
  ghost predicate Moved(v: Device, v': Device, x: Fetched) {
    && v'.acked == v.acked && v'.replica.cursors == v.replica.cursors
    && (forall k :: k != x.key ==> Pull.SameAt(v.replica, v'.replica, k) && (k in v.skipped <==> k in v'.skipped))
    && Delivered(v', x.key, x.row)
  }

  lemma MovedDelivery(s: Server, v: Device, v': Device)
    requires Covered(s, v) && v.page.Some? && PageOk(s, v, v.page.value)
    requires v.page.value.done < |v.page.value.rows| && Moved(v, v', v.page.value.rows[v.page.value.done])
    requires v'.page == Some(v.page.value.(done := v.page.value.done + 1))
    ensures Covered(s, v') && PageOk(s, v', v'.page.value)
  {
    hide StampOr0, IsTombstone, RowInFlight, NoGap;
    var p := v.page.value;
    var x := p.rows[p.done];
    assert forall t :: Pull.CursorOf(v'.replica, t) == Pull.CursorOf(v.replica, t);
    forall k, row | k != x.key && Delivered(v, k, row) ensures Delivered(v', k, row) {
      assert Pull.SameAt(v.replica, v'.replica, k);
    }
    assert s.rows[x.key].number > Pull.CursorOf(v.replica, p.table) && x.key.table == p.table by {
      InFlightFacts(s, p.table, Pull.CursorOf(v.replica, p.table), x);
    }
  }

  lemma InFlightFacts(s: Server, t: Table, cursor: int, x: Fetched)
    requires RowInFlight(s, t, cursor, x)
    ensures x.key.table == t && x.key in s.rows && s.rows[x.key].number > cursor
    ensures Stamp(x.row.fields).Some? && StampOr0(x.row.fields) <= ServerStamp(s, x.key)
  {
  }

  lemma MergeOk(s: Server, v: Device)
    requires ServerOk(s) && DeviceOk(s, v) && v.page.Some? && v.page.value.done < |v.page.value.rows|
    ensures DeviceOk(s, MergeStep(v))
  {
    var p := v.page.value;
    var x := p.rows[p.done];
    var v', w := MergeStep(v), WireOf(x.key, x.row);
    InFlightFacts(s, p.table, Pull.CursorOf(v.replica, p.table), x);
    WireFacts(x.key, x.row);
    assert x.key == Key(p.table, x.key.id);
    hide QueueOk, AckedOk, Covered, PageOk, ServerOk, Rebase, FillBook, WireOf, StampOr0;
    MergeMoves(v, x, w);
    MovedDelivery(s, v, v');
    match Decide(v.replica, p.table, w)
    case Apply => ApplyOk(v, v', x);
    case KeepLocal => KeepOk(v, v', x);
    case SkipTombstone => SameReplicaOk(v, v');
    case Ignore =>
  }

  lemma SameReplicaOk(v: Device, v': Device)
    requires AckedOk(v) && v'.replica == v.replica && v'.acked == v.acked
    ensures AckedOk(v')
  {
  }

  lemma MergeMoves(v: Device, x: Fetched, w: Wire)
    requires v.page.Some? && v.page.value.done < |v.page.value.rows| && x == v.page.value.rows[v.page.value.done]
    requires x.key.table == v.page.value.table && w == WireOf(x.key, x.row) && Synced(x.key.table)
    requires WireId(x.key.table, w) == Some(x.key.id) && StampOr0(w.fields) == StampOr0(x.row.fields)
    requires WireDeleted(w) <==> IsTombstone(x.row)
    ensures Moved(v, MergeStep(v), x)
  {
    hide WireOf, Project, Filter, FillBook, StampOr0;
    Pull.MergeRowSettles(v.replica, x.key.table, w);
    Pull.MergeRowIgnoresCursors(Pull.NO_STATS, v.replica, x.key.table, w, v.replica.cursors);
    ProjectStamp(x.key.table, w.fields);
  }

  lemma ApplyOk(v: Device, v': Device, x: Fetched)
    requires QueueOk(v.replica) && AckedOk(v) && Synced(x.key.table) && Stamp(x.row.fields).Some?
    requires var w := WireOf(x.key, x.row);
      && Stamp(w.fields) == Stamp(x.row.fields) && StampOr0(w.fields) == StampOr0(x.row.fields)
      && v'.replica == Rebase(v.replica, x.key, w.fields, StampOr0(w.fields))
    requires v'.acked == v.acked && (x.key in v.replica.rows ==> LocalStamp(v.replica, x.key) < StampOr0(x.row.fields))
    ensures QueueOk(v'.replica) && AckedOk(v')
  {
    RebaseQueueOk(v.replica, x.key, WireOf(x.key, x.row).fields);
    hide QueueOk, Filter, Project, WireOf, GroupKey, StampOf, CarriesRowStamp;
  }

  lemma KeepOk(v: Device, v': Device, x: Fetched)
    requires QueueOk(v.replica) && AckedOk(v) && x.key in v.replica.rows && v'.acked == v.acked
    requires v'.replica == v.replica ||
      v'.replica == v.replica.(rows := v.replica.rows[x.key := FillBook(v.replica.rows[x.key], WireOf(x.key, x.row).fields)])
    ensures QueueOk(v'.replica) && AckedOk(v')
  {
    hide FillBook, StampOr0, Stamp, QueueOk;
    Pull.FillBookKeepsStamp(v.replica.rows[x.key], WireOf(x.key, x.row).fields);
    SameStampsOk(v.replica, v'.replica);
  }

  lemma SameStampsOk(r: Replica, r': Replica)
    requires QueueOk(r) && r'.outbox == r.outbox && r'.nextId == r.nextId && r'.rows.Keys == r.rows.Keys
    requires forall k :: k in r.rows ==> StampOr0(r'.rows[k]) == StampOr0(r.rows[k]) && Stamp(r'.rows[k]) == Stamp(r.rows[k])
    ensures QueueOk(r')
  {
    hide GroupKey, StampOf, StampOr0, Stamp, Synced, Follows, Backed;
    assert forall k :: k in r.rows <==> k in r'.rows;
    forall e | e in r'.outbox ensures Backed(r', e) {
      SameBacked(r, r', e);
    }
  }

  lemma SameCarried(r: Replica, r': Replica, k: Key)
    requires k in r.rows && k in r'.rows && StampOr0(r'.rows[k]) == StampOr0(r.rows[k])
    requires r'.outbox == r.outbox && CarriesRowStamp(r, k)
    ensures CarriesRowStamp(r', k)
  {
  }

  lemma SameBacked(r: Replica, r': Replica, e: Entry)
    requires Backed(r, e) && r'.outbox == r.outbox && r'.nextId == r.nextId && r'.rows.Keys == r.rows.Keys
    requires forall k :: k in r.rows ==> StampOr0(r'.rows[k]) == StampOr0(r.rows[k])
    ensures Backed(r', e)
  {
    SameCarried(r, r', GroupKey(e));
  }

  // ── Flushing ───────────────────────────────────────────────────────────────

  lemma GroupIsQueue(r: Replica, k: Key)
    requires QueueOk(r)
    ensures var g := Filter(InGroup(k), r.outbox);
      && QueueOrdered(g)
      && (forall e :: e in g <==> e in r.outbox && IsFor(e, k))
      && (forall i, j :: 0 <= i < j < |g| ==> StampOf(g[i]) < StampOf(g[j]))
  {
    hide Filter, GroupKey, StampOf, CarriesRowStamp;
    var g := Filter(InGroup(k), r.outbox);
    FilteredQueue(InGroup(k), r.outbox);
    forall e | e in r.outbox ensures GroupKey(e) == k <==> IsFor(e, k) {
      assert Backed(r, e);
      GroupKeyOf(e, k);
    }
    forall i, j | 0 <= i < j < |g| ensures StampOf(g[i]) < StampOf(g[j]) {
      assert g[i] in g && g[j] in g && Follows(g[i], g[j]);
      SameRecordFor(g[i], g[j], k);
    }
  }

  /** The last queued write of a record carries the local row's stamp. */
  lemma NewestQueued(r: Replica, k: Key)
    requires QueueOk(r) && exists e :: e in r.outbox && IsFor(e, k)
    ensures var g := Filter(InGroup(k), r.outbox);
      && g != [] && k in r.rows && Synced(k.table)
      && g[|g| - 1].payload.Object? && EntryStamp(g[|g| - 1]) == Some(LocalStamp(r, k))
  {
    hide Filter, GroupKey, StampOr0, Follows, QueueOrdered, Backed, CarriesRowStamp;
    var g := Filter(InGroup(k), r.outbox);
    GroupIsQueue(r, k);
    var e :| e in r.outbox && IsFor(e, k);
    assert e in g;
    TopOf(r, k, g);
  }

  /** Whatever the enqueue times and the remaps, a flush sends the stamp of one of the record's queued
      writes, so never a newer one than the local row's. */
  lemma SendsQueuedStamp(r: Replica, k: Key, before: map<string, string>, after: map<string, string>)
    requires QueueOk(r) && exists e :: e in r.outbox && IsFor(e, k)
    ensures Synced(k.table) && k in r.rows
    ensures exists e :: e in r.outbox && IsFor(e, k) && Stamp(Sends(r, k, before, after)) == Some(StampOf(e))
    ensures Stamp(Sends(r, k, before, after)).Some? && Stamp(Sends(r, k, before, after)).value <= LocalStamp(r, k)
  {
    NewestQueued(r, k);
    hide Filter, QueueOk, Backed, GroupKey, StampOr0, LocalStamp, SortByTime, Fold, CarriesRowStamp;
    var g := Filter(InGroup(k), r.outbox);
    GroupIsQueue(r, k);
    assert g[|g| - 1] in g;
    var i := LatestExists(g, UpdatedAt);
    var p := LatestIsLast(g, i, UpdatedAt);
    assert g[i] in g;
    QueuedStamp(r, k, g[i]);
    SameMembers(g);
    FoldField(SortByTime(g), UpdatedAt, p);
    KeepsStamp(k.table, Fold(SortByTime(g)), before, after);
  }

  lemma QueuedStamp(r: Replica, k: Key, e: Entry)
    requires QueueOk(r) && e in r.outbox && IsFor(e, k)
    ensures k in r.rows && e.payload.Object? && EntryStamp(e) == Some(StampOf(e)) && StampOf(e) <= LocalStamp(r, k)
  {
    hide CarriesRowStamp, QueueOrdered;
    assert Backed(r, e);
    GroupKeyOf(e, k);
  }

  lemma TopOf(r: Replica, k: Key, g: seq<Entry>)
    requires QueueOk(r) && g != [] && (forall e :: e in g <==> e in r.outbox && IsFor(e, k))
    requires forall i, j :: 0 <= i < j < |g| ==> StampOf(g[i]) < StampOf(g[j])
    ensures k in r.rows && Synced(k.table)
    ensures g[|g| - 1].payload.Object? && EntryStamp(g[|g| - 1]) == Some(LocalStamp(r, k))
  {
    hide GroupKey, StampOr0, QueueOrdered, Backed, CarriesRowStamp, StampOf;
    var last := g[|g| - 1];
    assert last in g;
    var top := RowStampEntry(r, k, last);
    assert top in g;
    var i :| 0 <= i < |g| && g[i] == top;
    assert StampOf(g[i]) <= StampOf(last);
  }

  lemma RowStampEntry(r: Replica, k: Key, e: Entry) returns (top: Entry)
    requires Backed(r, e) && IsFor(e, k)
    ensures k in r.rows && e.payload.Object? && EntryStamp(e) == Some(StampOf(e)) && StampOf(e) <= LocalStamp(r, k)
    ensures top in r.outbox && IsFor(top, k) && StampOf(top) == LocalStamp(r, k)
  {
    top :| top in r.outbox && IsFor(top, k) && StampOf(top) == LocalStamp(r, k);
  }

  lemma KeepsStamp(t: Table, payload: Row, before: map<string, string>, after: map<string, string>)
    ensures Stamp(Push.Prepare(t, Repoint(t, payload, before), after)) == Stamp(payload)
  {
    hide Walk;
  }

  /** What a flush of the queue dispatches is what a fleet device sends, under the remaps in force. */
  lemma FlushSends(r: Replica, log: seq<Push.Outcome>, i: nat)
    requires QueueOk(r) && Push.PayloadsFrom(log, Push.Parseable(r.outbox), r.remap) && i < |log|
    ensures log[i].payload == Sends(r, log[i].key, r.remap, Push.RemapAfter(r.remap, log[..i]))
  {
    hide CarriesRowStamp, CollapseOf, Push.RemapAfter;
    forall e | e in r.outbox ensures Push.Parses()(e) {
      assert Backed(r, e);
    }
    FilterAll(Push.Parses(), r.outbox);
  }

  lemma DispatchOk(f: Fleet, step: Step)
    requires Inv(f) && step.Dispatch? && Enabled(f, step)
    ensures Inv(Do(f, step))
  {
    hide ServerOk, DeviceOk, Sends, ServerWrite, QueueOk;
    var s, v, k := f.server, f.devices[step.d], step.key;
    var payload := Sends(v.replica, k, step.before, step.after);
    var patch := Push.Sparse(k.table, payload);
    DeviceQueueOk(s, v);
    SendsQueuedStamp(v.replica, k, step.before, step.after);
    WriteGrows(s, k, payload, patch);
    var s' := Do(f, step).server;
    assert Grows(s, s') || s' == s;
    forall d | d in f.devices ensures DeviceOk(s', f.devices[d]) {
      if s' != s {
        DeviceOkGrows(s, s', f.devices[d]);
      }
    }
    if step.reply.Acked? {
      AckOk(s', v, k);
    }
  }

  lemma DeviceQueueOk(s: Server, v: Device)
    requires DeviceOk(s, v)
    ensures QueueOk(v.replica)
  {
  }

  lemma AckOk(s: Server, v: Device, k: Key)
    requires DeviceOk(s, v)
    ensures DeviceOk(s, v.(acked := v.acked + IdsFor(v.replica, k)))
  {
    hide CarriesRowStamp, StampOf, StampOr0, GroupKey, Follows, Covered;
    var r, ids := v.replica, IdsFor(v.replica, k);
    var v' := v.(acked := v.acked + ids);
    IdsForRecord(r, k);
    forall e | e in r.outbox ensures Backed(r, e) {
    }
    if v.page.Some? {
      SamePage(s, v, v');
    }
    SameCovered(s, v, v');
  }

  lemma IdsForRecord(r: Replica, k: Key)
    requires QueueOrdered(r.outbox)
    ensures forall e :: e in r.outbox ==> (e.id in IdsFor(r, k) <==> IsFor(e, k))
  {
    UniqueIds(r);
    forall e | e in r.outbox ensures e.id in IdsFor(r, k) <==> IsFor(e, k) {
      if e.id in IdsFor(r, k) {
        var x :| x in r.outbox && IsFor(x, k) && x.id == e.id;
      }
    }
  }

  lemma UniqueIds(r: Replica)
    requires QueueOrdered(r.outbox)
    ensures forall x, y :: x in r.outbox && y in r.outbox && x.id == y.id ==> x == y
  {
    forall x, y | x in r.outbox && y in r.outbox && x.id == y.id ensures x == y {
      var i :| 0 <= i < |r.outbox| && r.outbox[i] == x;
      var j :| 0 <= j < |r.outbox| && r.outbox[j] == y;
      assert i < j ==> Follows(x, y);
      assert j < i ==> Follows(y, x);
    }
  }

  lemma SamePage(s: Server, v: Device, v': Device)
    requires v.page.Some? && PageOk(s, v, v.page.value)
    requires v'.replica.rows == v.replica.rows && v'.replica.cursors == v.replica.cursors && v'.skipped == v.skipped
    ensures PageOk(s, v', v.page.value)
  {
    hide RowInFlight, NoGap, IsTombstone, StampOr0;
    forall k, row | Delivered(v, k, row) ensures Delivered(v', k, row) {
    }
  }

  lemma SameCovered(s: Server, v: Device, v': Device)
    requires Covered(s, v)
    requires v'.replica.rows == v.replica.rows && v'.replica.cursors == v.replica.cursors && v'.skipped == v.skipped
    ensures Covered(s, v')
  {
    forall k, row | Delivered(v, k, row) ensures Delivered(v', k, row) {
    }
    assert forall t :: Pull.CursorOf(v'.replica, t) == Pull.CursorOf(v.replica, t);
  }

  lemma ClearQueueOk(v: Device)
    requires QueueOk(v.replica) && AckedOk(v)
    ensures QueueOk(ClearStep(v).replica)
  {
    hide Filter, GroupKey, StampOf, StampOr0, Backed, CarriesRowStamp, Follows, Synced;
    var r, r' := v.replica, ClearStep(v).replica;
    FilteredQueue(Not(In(v.acked)), r.outbox);
    assert forall e :: e in r'.outbox <==> e in r.outbox && e.id !in v.acked;
    forall e | e in r'.outbox ensures Backed(r', e) {
      ClearBacked(r, r', v.acked, e);
    }
  }

  lemma ClearBacked(r: Replica, r': Replica, acked: set<nat>, e: Entry)
    requires QueueOrdered(r.outbox) && Backed(r, e) && r'.rows == r.rows && r'.nextId == r.nextId
    requires forall e :: e in r'.outbox <==> e in r.outbox && e.id !in acked
    requires forall a, b :: a in r.outbox && b in r.outbox && SameRecord(a, b) && a.id < b.id && b.id in acked ==> a.id in acked
    requires e in r'.outbox
    ensures Backed(r', e)
  {
    hide GroupKey, StampOf, Follows;
    var k := GroupKey(e);
    var top :| top in r.outbox && IsFor(top, k) && StampOf(top) == LocalStamp(r, k);
    GroupKeyOf(e, k);
    TopSurvives(r, acked, e, top);
    assert top in r'.outbox;
  }

  /** If a record has an unacknowledged entry, its newest entry is unacknowledged. */
  lemma TopSurvives(r: Replica, acked: set<nat>, e: Entry, top: Entry)
    requires QueueOrdered(r.outbox) && e in r.outbox && top in r.outbox && SameRecord(e, top) && StampOf(e) <= StampOf(top)
    requires e.id !in acked
    requires forall a, b :: a in r.outbox && b in r.outbox && SameRecord(a, b) && a.id < b.id && b.id in acked ==> a.id in acked
    ensures top.id !in acked
  {
    Comparable(r.outbox, e, top);
  }

  lemma Comparable(q: seq<Entry>, a: Entry, b: Entry)
    requires QueueOrdered(q) && a in q && b in q
    ensures a == b || Follows(a, b) || Follows(b, a)
  {
    var i :| 0 <= i < |q| && q[i] == a;
    var j :| 0 <= j < |q| && q[j] == b;
  }

  lemma ClearOk(s: Server, v: Device)
    requires DeviceOk(s, v)
    ensures DeviceOk(s, ClearStep(v))
  {
    hide QueueOk, Covered, PageOk, Filter;
    ClearQueueOk(v);
    SameCovered(s, v, ClearStep(v));
    if v.page.Some? {
      SamePage(s, v, ClearStep(v));
    }
  }

  lemma AdvanceOk(s: Server, v: Device)
    requires ServerOk(s) && DeviceOk(s, v) && v.page.Some? && v.page.value.done == |v.page.value.rows|
    ensures DeviceOk(s, AdvanceStep(v))
  {
    hide QueueOk, AckedOk, IsTombstone, StampOr0;
    var p, v' := v.page.value, AdvanceStep(v);
    forall k | k in s.rows && s.rows[k].number <= Pull.CursorOf(v'.replica, k.table)
      ensures Delivered(v', k, s.rows[k])
    {
      if s.rows[k].number > Pull.CursorOf(v.replica, k.table) {
        var i :| 0 <= i < |p.rows| && p.rows[i] == Fetched(k, s.rows[k]);
      }
      assert Delivered(v, k, s.rows[k]);
    }
    if p.rows != [] {
      assert RowInFlight(s, p.table, Pull.CursorOf(v.replica, p.table), p.rows[|p.rows| - 1]);
      assert LastNumber(p.rows, 0) <= s.issued;
    }
    forall t ensures Pull.CursorOf(v'.replica, t) <= s.issued {
      assert Pull.CursorOf(v.replica, t) <= s.issued;
    }
    SameAcked(v, v');
  }

  lemma SameAcked(v: Device, v': Device)
    requires QueueOk(v.replica) && AckedOk(v)
    requires v'.acked == v.acked && v'.replica == v.replica.(cursors := v'.replica.cursors)
    ensures QueueOk(v'.replica) && AckedOk(v')
  {
    SameStampsOk(v.replica, v'.replica);
  }

  lemma FetchOk(s: Server, v: Device, t: Table, rows: seq<Fetched>)
    requires ServerOk(s) && DeviceOk(s, v) && Synced(t) && IsPage(s, t, Pull.CursorOf(v.replica, t), rows)
    ensures DeviceOk(s, v.(page := Some(InFlight(t, rows, 0))))
  {
    hide QueueOk, AckedOk, IsTombstone;
    SameCovered(s, v, v.(page := Some(InFlight(t, rows, 0))));
    SameAckedOnly(v, v.(page := Some(InFlight(t, rows, 0))));
  }

  lemma SameAckedOnly(v: Device, v': Device)
    requires AckedOk(v) && v'.acked <= v.acked && v'.replica == v.replica && (v'.acked == v.acked || v'.acked == {})
    ensures AckedOk(v')
  {
  }

  // ── Every step, every run ──────────────────────────────────────────────────

  lemma StepKeepsInv(f: Fleet, step: Step)
    requires Inv(f) && Enabled(f, step)
    ensures Inv(Do(f, step))
  {
    hide ServerOk, DeviceOk, StageStep, ImportWrite, MergeStep, AdvanceStep, ClearStep, ServerWrite, IsPage, Sends;
    match step
    case Stage(d, k, partial, at, revive) => StageOk(f.server, f.devices[d], k, partial, at, revive);
    case ImportOne(d, w, batch) => ImportOk(f.server, f.devices[d], w, batch);
    case Fetch(d, t, rows) => FetchOk(f.server, f.devices[d], t, rows);
    case Merge(d) => MergeOk(f.server, f.devices[d]);
    case Advance(d) => AdvanceOk(f.server, f.devices[d]);
    case Abort(d) => AbortOk(f.server, f.devices[d]);
    case Dispatch(_, _, _, _, _) => DispatchOk(f, step);
    case Clear(d) => ClearOk(f.server, f.devices[d]);
    case Foreign(k, payload) =>
      WriteGrows(f.server, k, payload, false);
      forall d | d in f.devices ensures DeviceOk(Do(f, step).server, f.devices[d]) {
        DeviceOkGrows(f.server, Do(f, step).server, f.devices[d]);
      }
  }

  lemma AbortOk(s: Server, v: Device)
    requires DeviceOk(s, v)
    ensures DeviceOk(s, v.(page := None, acked := {}))
  {
    hide QueueOk;
    SameCovered(s, v, v.(page := None, acked := {}));
  }
}
