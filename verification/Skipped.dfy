/** A record created locally over a tombstone the device skipped: the one case the convergence results
    set aside, and exactly when it goes wrong. */
module SkippedModel {
  import opened Data
  import opened Seqs
  import opened ReplicaModel
  import opened OutboxModel
  import opened FleetModel
  import opened ConvergenceModel
  import opened ContentsModel
  import opened AgreementModel
  import opened PathModel
  import Push = PushModel

  /** The device skipped the record's tombstone, which the server still holds, and has no row for it. */
  ghost predicate Forgotten(f: Fleet, d: nat, k: Key) {
    && Inv(f) && d in f.devices && k in f.server.rows && IsTombstone(f.server.rows[k])
    && k in f.devices[d].skipped && k !in f.devices[d].replica.rows
  }

  /** A first live write that an upsert can carry, with a stamp of its own. */
  predicate FirstWrite(k: Key, row: Row) {
    && Synced(k.table) && Addresses(k, row) && Stamp(row).Some? && Stamp(row).value > 0 && !Push.Sparse(k.table, row)
    && Get(row, Deleted) == Some(Bool(false))
  }

  function Created(f: Fleet, d: nat, k: Key, row: Row, at: int): Fleet
    requires d in f.devices
  {
    With(f, d, StageStep(f.devices[d], k, row, at, false))
  }

  /** A record without a row has nothing queued. */
  lemma NothingQueued(r: Replica, k: Key)
    requires QueueOk(r) && k !in r.rows
    ensures QueueOf(r, k) == []
  {
    hide CarriesRowStamp, QueueOrdered;
    forall e | e in r.outbox ensures !For(k)(e) {
      assert Backed(r, e);
      GroupKeyOf(e, k);
    }
    FilterNone(For(k), r.outbox);
  }

  /** The record just created: its one entry, its claimed stamp, live. */
  ghost predicate JustCreated(r: Replica, k: Key, row: Row, e: Entry) {
    && QueueOf(r, k) == [e] && e in r.outbox && IsFor(e, k) && e.payload == Object(row)
    && k in r.rows && Stamp(r.rows[k]) == Stamp(row) && Get(r.rows[k], Deleted) == Some(Bool(false))
  }

  /** Creating the record: with no stored stamp to clamp against, the claimed one is taken as it is. */
  lemma CreateForgotten(f: Fleet, d: nat, k: Key, row: Row, at: int)
    requires Forgotten(f, d, k) && FirstWrite(k, row)
    ensures Enabled(f, Stage(d, k, row, at, false)) && Do(f, Stage(d, k, row, at, false)) == Created(f, d, k, row, at)
    ensures JustCreated(Created(f, d, k, row, at).devices[d].replica, k, row,
                        Entry(f.devices[d].replica.nextId, k.table, Some(k.id), Object(row), at))
    ensures Inv(Created(f, d, k, row, at))
  {
    QueueOfDevice(f, d);
    CreateRow(f.devices[d], k, row, at);
    hide Inv, StageStep, JustCreated, IsTombstone, QueueOk;
    WriteParts(k, row);
    hide FirstWrite, Enabled, Do, Addresses;
    StageEffect(f, d, k, row, at, false);
    StepKeepsInv(f, Stage(d, k, row, at, false));
  }

  lemma WriteParts(k: Key, row: Row)
    requires FirstWrite(k, row)
    ensures Synced(k.table) && Addresses(k, row) && Stamp(row).Some? && Stamp(row).value > 0
    ensures Get(row, Deleted) == Some(Bool(false))
  {
  }

  lemma CreateRow(v: Device, k: Key, row: Row, at: int)
    requires QueueOk(v.replica) && k !in v.replica.rows && FirstWrite(k, row)
    ensures JustCreated(StageStep(v, k, row, at, false).replica, k, row, Entry(v.replica.nextId, k.table, Some(k.id), Object(row), at))
  {
    var r, r' := v.replica, StageStep(v, k, row, at, false).replica;
    var e := Entry(r.nextId, k.table, Some(k.id), Object(row), at);
    CreateShape(v, k, row, at);
    WriteParts(k, row);
    NothingQueued(r, k);
    QueueOfPush(r, r', e, k);
    ProjectStamp(k.table, row);
    StoredFlag(k.table, row);
    hide Project, QueueOk, Filter, StageStep, QueueOf, Stamp, FirstWrite, Get;
    assert r'.outbox[|r.outbox|] == e;
  }

  lemma CreateShape(v: Device, k: Key, row: Row, at: int)
    requires k !in v.replica.rows && FirstWrite(k, row)
    ensures var r, r' := v.replica, StageStep(v, k, row, at, false).replica;
      && r'.outbox == r.outbox + [Entry(r.nextId, k.table, Some(k.id), Object(row), at)]
      && r'.rows == r.rows[k := Project(k.table, row)]
  {
    WriteParts(k, row);
    NothingUnder(row);
    hide Project, Filter, Stamp, FirstWrite, Addresses, Get, StageStep;
    StageTakes(v, k, row, at, false);
  }

  lemma NothingUnder(row: Row)
    ensures map[] + row == row && StampOr0(map[]) == 0
  {
  }

  lemma StoredFlag(t: Table, row: Row)
    requires Synced(t) && Get(row, Deleted) == Some(Bool(false))
    ensures Get(Project(t, row), Deleted) == Some(Bool(false))
  {
    SchemaFacts(t);
    hide Columns;
  }

  lemma SaysFirstWrite(r: Replica, k: Key, row: Row, e: Entry)
    requires JustCreated(r, k, row, e) && FirstWrite(k, row)
    ensures Says(r, k) == row
  {
    hide QueueOf, Push.Sparse;
    assert [e][..0] == [];
    assert Fold([]) == map[];
    assert Says(r, k) == Absorb(map[], e);
    assert map[] + row == row;
  }

  /** What is sent is a live upsert with the claimed stamp, whatever the remaps. */
  lemma SendsFirstWrite(r: Replica, k: Key, row: Row, e: Entry, before: map<string, string>, after: map<string, string>)
    requires QueueOk(r) && JustCreated(r, k, row, e) && FirstWrite(k, row)
    ensures var p := Sends(r, k, before, after);
      && !Push.Sparse(k.table, p) && Stamp(p) == Some(Stamp(row).value) && Get(p, Deleted) == Some(Bool(false))
      && forall c :: c in Columns(k.table) && c in row ==> Get(p, c) == SentCell(k.table, c, row[c], before, after)
  {
    hide QueueOk, Sends, Says, Columns, RequiredInsertColumns, Addresses, QueueOf, SentCell;
    SaysFirstWrite(r, k, row, e);
    SendsWhatQueueSays(r, k, before, after);
    var p := Sends(r, k, before, after);
    SchemaFacts(k.table);
    PlainColumns(k.table);
    forall c | c in RequiredInsertColumns(k.table) ensures c in p {
      RequiredIsPlain(k.table, c);
      assert Get(p, c) == SentCell(k.table, c, row[c], before, after);
      PlainCell(k.table, c, row[c], before, after);
    }
    PlainCell(k.table, UpdatedAt, row[UpdatedAt], before, after);
    PlainCell(k.table, Deleted, row[Deleted], before, after);
    assert Get(p, UpdatedAt) == SentCell(k.table, UpdatedAt, row[UpdatedAt], before, after);
    assert Get(p, Deleted) == SentCell(k.table, Deleted, row[Deleted], before, after);
  }

  lemma PlainCell(t: Table, c: Column, v: Cell, before: map<string, string>, after: map<string, string>)
    requires c !in Rewritable(t)
    ensures SentCell(t, c, v, before, after) == Some(v)
  {
  }

  lemma PlainColumns(t: Table)
    requires Synced(t)
    ensures UpdatedAt !in Rewritable(t) && Deleted !in Rewritable(t)
  {
  }

  lemma RequiredIsPlain(t: Table, c: Column)
    requires Synced(t) && c in RequiredInsertColumns(t)
    ensures c in Columns(t) && c !in Rewritable(t)
  {
  }

  /** The record created, flushed with every reply delivered, and cleared. */
  ghost predicate Settled(f: Fleet, f3: Fleet, d: nat, k: Key, row: Row) {
    && d in f3.devices && k in f.server.rows && k in f3.server.rows && Stamp(row).Some?
    && var r := f3.devices[d].replica;
    && k in r.rows && QueueOf(r, k) == [] && Get(r.rows[k], Deleted) == Some(Bool(false))
    && LocalStamp(r, k) == Stamp(row).value
    // the server takes the row exactly above the tombstone's stamp
    && (Stamp(row).value > ServerStamp(f.server, k) <==> !IsTombstone(f3.server.rows[k]))
    && (Stamp(row).value > ServerStamp(f.server, k) ==> ServerStamp(f3.server, k) == LocalStamp(r, k))
    && (Stamp(row).value <= ServerStamp(f.server, k) ==> f3.server == f.server)
  }

  /** Creating the record, flushing it with every reply delivered, and clearing the queue: the server
      holds the created row exactly when its claimed stamp is strictly above the tombstone's. At or
      below it the write is silently cancelled: nothing is queued any more, the server keeps the
      tombstone and the device its live row. */
  lemma CreatedOverTombstoneConvergesIff(f: Fleet, d: nat, k: Key, row: Row, at: int)
    requires Forgotten(f, d, k) && FirstWrite(k, row)
    ensures var f1 := Created(f, d, k, row, at);
      var sent := Dispatch(d, k, map[], map[], Acked);
      Enabled(f1, sent) && var f2 := Do(f1, sent);
      d in f2.devices && Settled(f, Do(f2, Clear(d)), d, k, row)
  {
    CreateForgotten(f, d, k, row, at);
    var f1 := Created(f, d, k, row, at);
    var v := f1.devices[d];
    var e := Entry(f.devices[d].replica.nextId, k.table, Some(k.id), Object(row), at);
    assert f1.server == f.server;
    CreatedSettles(f1, d, k, row, e);
  }

  lemma CreatedSettles(f: Fleet, d: nat, k: Key, row: Row, e: Entry)
    requires Inv(f) && d in f.devices && k in f.server.rows && IsTombstone(f.server.rows[k]) && FirstWrite(k, row)
    requires JustCreated(f.devices[d].replica, k, row, e)
    ensures var sent := Dispatch(d, k, map[], map[], Acked);
      Enabled(f, sent) && var f2 := Do(f, sent);
      d in f2.devices && Settled(f, Do(f2, Clear(d)), d, k, row)
  {
    var v := f.devices[d];
    var p := Sends(v.replica, k, map[], map[]);
    hide Sends, Push.Sparse, Enabled, Do, ServerWrite, ClearStep, IdsFor, Stamp, StampOr0, QueueOf, IsTombstone, Inv, QueueOk, FirstWrite, Lands;
    QueueOfDevice(f, d);
    SendsFirstWrite(v.replica, k, row, e, map[], map[]);
    ServerStamped(f, k);
    DispatchEffect(f, d, k, map[], map[], Acked, e);
    ClearsRecord(v, k, e);
    ClearEffect(Do(f, Dispatch(d, k, map[], map[], Acked)), d);
    GuardedWrite(f.server, k, p);
    WriteParts(k, row);
    StampsMatch(v.replica.rows[k], row);
  }

  lemma ServerStamped(f: Fleet, k: Key)
    requires Inv(f) && k in f.server.rows
    ensures Stamp(f.server.rows[k].fields).Some?
  {
    hide DeviceOk;
  }

  lemma StampsMatch(stored: Row, row: Row)
    requires Stamp(stored) == Stamp(row) && Stamp(row).Some?
    ensures StampOr0(stored) == Stamp(row).value
  {
  }

  lemma QueueOfDevice(f: Fleet, d: nat)
    requires Inv(f) && d in f.devices
    ensures QueueOk(f.devices[d].replica)
  {
    hide ServerOk, DeviceOk, QueueOk;
    DeviceQueueOk(f.server, f.devices[d]);
  }

  /** The server's guard on an existing row: afterwards it holds the later of the two stamps, and the
      written row exactly when that is strictly newer. */
  lemma GuardedWrite(s: Server, k: Key, p: Row)
    requires k in s.rows && Stamp(p).Some? && Stamp(s.rows[k].fields).Some? && Get(p, Deleted) == Some(Bool(false))
    ensures var s' := ServerWrite(s, k, p, false);
      && k in s'.rows && (Stamp(p).value <= ServerStamp(s, k) ==> s' == s)
      && (Stamp(p).value > ServerStamp(s, k) ==> ServerStamp(s', k) == Stamp(p).value && !IsTombstone(s'.rows[k]))
  {
    StampOfMerged(s.rows[k].fields, p);
  }

  /** Once the record's entries are acknowledged, clearing leaves none of them. */
  lemma ClearsRecord(v: Device, k: Key, e: Entry)
    requires QueueOk(v.replica)
    ensures var r' := ClearStep(v.(acked := v.acked + IdsFor(v.replica, k))).replica;
      r'.rows == v.replica.rows && QueueOf(r', k) == []
  {
    hide QueueOk;
    var acked := v.acked + IdsFor(v.replica, k);
    FilterMembers(Not(In(acked)), v.replica.outbox);
    FilterNone(For(k), Filter(Not(In(acked)), v.replica.outbox));
  }
}
