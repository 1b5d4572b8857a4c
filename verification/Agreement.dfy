/** The queue agrees with the row it describes. */
module AgreementModel {
  import opened Data
  import opened Seqs
  import opened ReplicaModel
  import opened OutboxModel
  import opened FleetModel
  import opened TimedModel
  import opened ConvergenceModel
  import opened ContentsModel
  import Push = PushModel
  import Pull = PullModel

  // ── When the sent stamp is the newest one ──────────────────────────────────

  /** For a record's queue with rising stamps, the collapsed stamp is the newest exactly when no
      entry was enqueued at a later time than the last one. */
  lemma NewestStampSentIff(q: seq<Entry>)
    requires q != [] && forall i, j :: 0 <= i < j < |q| ==> StampOf(q[i]) < StampOf(q[j])
    requires forall e :: e in q ==> e.payload.Object? && EntryStamp(e).Some?
    ensures Stamp(Fold(SortByTime(q))) == EntryStamp(q[|q| - 1]) <==> forall e :: e in q ==> e.at <= q[|q| - 1].at
  {
    hide SortByTime, Fold;
    var last := |q| - 1;
    assert q[last] in q;
    StampedCarries(q);
    var i := LatestExists(q, UpdatedAt);
    var p := LatestIsLast(q, i, UpdatedAt);
    FoldField(SortByTime(q), UpdatedAt, p);
    assert q[i] in q;
    assert Stamp(Fold(SortByTime(q))) == EntryStamp(q[i]);
    hide Carries, LastIn, Stamp, EntryStamp;
    if i == last {
      forall e | e in q ensures e.at <= q[last].at {
        var j :| 0 <= j < |q| && q[j] == e;
        assert Carries(q[j], UpdatedAt);
      }
    } else {
      assert StampOf(q[i]) < StampOf(q[last]);
      assert Carries(q[last], UpdatedAt);
    }
  }

  lemma StampedCarries(q: seq<Entry>)
    requires forall e :: e in q ==> e.payload.Object? && EntryStamp(e).Some?
    ensures forall e :: e in q ==> Carries(e, UpdatedAt) && EntryStamp(e) == Some(StampOf(e))
  {
  }

  // ── Agreement ──────────────────────────────────────────────────────────────

  /** What the queue says about a record. */
  function Says(r: Replica, k: Key): Row {
    Fold(QueueOf(r, k))
  }

  /** A book column a pull may fill without a stamp and a flush leaves out when null. */
  predicate Fillable(t: Table, c: Column) {
    t == Books && c in BOOK_FILLABLE
  }

  /** A cell as its column holds it: every cell but the stamp and the flag as it is. */
  function AsStored(c: Column, v: Cell): Cell {
    if c == UpdatedAt || c == Deleted then Coerce(c, v) else v
  }

  /** The row holds what was said of a column; of a fillable one nothing is said by a null. */
  predicate Holds(t: Table, c: Column, row: Row, said: Cell) {
    c in row && (row[c] == AsStored(c, said) || (Fillable(t, c) && said == Null))
  }

  ghost predicate AgreesAt(r: Replica, k: Key) {
    QueueOf(r, k) != [] ==>
      k in r.rows && forall c :: c in Columns(k.table) && c in Says(r, k) ==> Holds(k.table, c, r.rows[k], Says(r, k)[c])
  }

  /** The local row holds stored values. */
  predicate IsStored(r: Replica, k: Key) {
    k in r.rows ==> r.rows[k] == Project(k.table, r.rows[k])
  }

  ghost predicate Agrees(r: Replica, z: Key) {
    IsStored(r, z) && DeletesAreLast(r.outbox, z) && AgreesAt(r, z)
  }

  lemma StoredOnce(t: Table, row: Row)
    ensures Project(t, Project(t, row)) == Project(t, row)
  {
    hide Columns;
    forall c | c in Columns(t) ensures Project(t, Project(t, row))[c] == Project(t, row)[c] {
      assert c in Project(t, row);
    }
  }

  /** After the queue was reduced from r to r0, the row still holds what r0 says of the columns that a
      write leaves out. */
  ghost predicate LeftOutHolds(r: Replica, r0: Replica, k: Key, p: Row) {
    forall c :: c in Columns(k.table) && c !in p && c in Says(r0, k) ==> k in r.rows && Holds(k.table, c, r.rows[k], Says(r0, k)[c])
  }

  lemma StagedAgrees(r: Replica, r0: Replica, r': Replica, k: Key, p: Row, e: Entry)
    requires Synced(k.table) && AgreesAt(r, k) && IsStored(r, k)
    requires (forall c :: c in Says(r0, k) ==> c in Says(r, k)) && (Says(r, k) != map[] ==> QueueOf(r, k) != [])
    requires r'.rows == r.rows[k := Project(k.table, Existing(r, k) + p)]
    requires QueueOf(r', k) == QueueOf(r0, k) + [e] && e.payload == Object(p)
    requires Deleted in p ==> p[Deleted].Bool?
    requires IsDelete(e) || !Truthy(Get(Says(r0, k), Deleted))
    ensures AgreesAt(r', k) <==> LeftOutHolds(r, r0, k, p)
  {
    hide Columns, QueueOf, Fillable;
    var q := QueueOf(r0, k);
    assert (q + [e])[..|q|] == q;
    assert Says(r', k) == Absorb(Says(r0, k), e);
    var row := r'.rows[k];
    forall c | c in Columns(k.table)
      ensures c in row
      ensures c in p ==> c in Says(r', k) && row[c] == AsStored(c, Says(r', k)[c])
      ensures c !in p ==> (c in Says(r', k) <==> c in Says(r0, k))
      ensures c !in p && c in Says(r0, k) ==>
        Says(r', k)[c] == Says(r0, k)[c] && k in r.rows && c in r.rows[k] && row[c] == r.rows[k][c]
    {
      StoredColumn(r, k, p, c);
    }
  }

  lemma StoredColumn(r: Replica, k: Key, p: Row, c: Column)
    requires c in Columns(k.table) && IsStored(r, k)
    ensures var row := Project(k.table, Existing(r, k) + p);
      c in row && row[c] == if c in p then AsStored(c, p[c]) else if k in r.rows then r.rows[k][c] else Null
  {
    hide Columns;
    if k in r.rows {
      assert c in r.rows[k] && r.rows[k][c] == Project(k.table, r.rows[k])[c];
    }
  }

  // ── Dropping tombstones is not always silent ───────────────────────────────

  predicate Kept(e: Entry) {
    !IsDelete(e)
  }

  /** Entry i is the last one that carries the column and survives the drop. */
  ghost predicate LastKept(q: seq<Entry>, c: Column, i: nat) {
    i < |q| && Kept(q[i]) && Carries(q[i], c) && forall j :: i < j < |q| && Kept(q[j]) ==> !Carries(q[j], c)
  }

  /** The drop of a record's queued tombstones does not show in a column, told by the entries. The
      deleted flag: none is dropped, or no surviving entry carries the flag. Another column: the last
      survivor that carries it gave the value the last carrier of all gave. A fillable column: the last
      survivor that carries it gave a null or the value the row has. */
  ghost predicate SilentAt(r: Replica, k: Key, c: Column) {
    var q := QueueOf(r, k);
    if c == Deleted then AnyDelete(q) ==> forall e :: e in q && Kept(e) ==> !Carries(e, Deleted)
    else forall i: nat :: LastKept(q, c, i) ==>
      if Fillable(k.table, c) then
        q[i].payload.fields[c] == Null || (k in r.rows && Get(r.rows[k], c) == Some(q[i].payload.fields[c]))
      else forall m: nat :: LastIn(q, c, m) ==> AsStored(c, q[m].payload.fields[c]) == AsStored(c, q[i].payload.fields[c])
  }

  ghost predicate DropIsSilent(r: Replica, k: Key, p: Row) {
    forall c :: c in Columns(k.table) && c !in p ==> SilentAt(r, k, c)
  }

  /** A live write through a path that first drops the record's queued tombstones: queue and row agree
      again exactly when the drop is silent on every column the write leaves out. */
  lemma StageAgreesIff(r: Replica, r': Replica, k: Key, p: Row, e: Entry)
    requires Synced(k.table) && AgreesAt(r, k) && IsStored(r, k)
    requires r'.rows == r.rows[k := Project(k.table, Existing(r, k) + p)]
    requires r'.outbox == DropPendingDeletes(r, k).outbox + [e] && IsFor(e, k) && e.payload == Object(p)
    requires Deleted in p ==> p[Deleted].Bool?
    ensures AgreesAt(r', k) <==> DropIsSilent(r, k, p)
  {
    var r0 := DropPendingDeletes(r, k);
    DroppedQueue(r, k);
    QueueOfPush(r0, r', e, k);
    hide AgreesAt, Project, QueueOf, LeftOutHolds, SilentAt, Columns;
    StagedAgrees(r, r0, r', k, p, e);
    forall c | c in Columns(k.table)
      ensures SilentAt(r, k, c) <==> (c in Says(r0, k) ==> k in r.rows && Holds(k.table, c, r.rows[k], Says(r0, k)[c]))
    {
      SilentMeans(r, k, c);
    }
    assert LeftOutHolds(r, r0, k, p) <==> DropIsSilent(r, k, p) by {
      LeftOutSilent(r, r0, k, p);
    }
  }

  lemma LeftOutSilent(r: Replica, r0: Replica, k: Key, p: Row)
    requires forall c :: c in Columns(k.table) ==>
      (SilentAt(r, k, c) <==> (c in Says(r0, k) ==> k in r.rows && Holds(k.table, c, r.rows[k], Says(r0, k)[c])))
    ensures LeftOutHolds(r, r0, k, p) <==> DropIsSilent(r, k, p)
  {
    hide Columns, SilentAt, Holds, Says;
  }

  /** The reduced queue of the record. */
  lemma DroppedQueue(r: Replica, k: Key)
    ensures var r0 := DropPendingDeletes(r, k);
      && QueueOf(r0, k) == Filter(Survives(), QueueOf(r, k))
      && (forall c :: c in Says(r0, k) ==> c in Says(r, k))
      && !Truthy(Get(Says(r0, k), Deleted))
      && (forall x :: x in r0.outbox && IsFor(x, k) ==> !IsDelete(x))
      && (Says(r, k) != map[] ==> QueueOf(r, k) != [])
  {
    hide Filter, Fold, IsDelete;
    var r0, q := DropPendingDeletes(r, k), QueueOf(r, k);
    FiltersCommute(For(k), Not(PendingDelete(k)), r.outbox);
    FilterMembers(For(k), r.outbox);
    FilterCongruent(Not(PendingDelete(k)), Survives(), q);
    FilterMembers(Survives(), q);
    FilterMembers(Not(PendingDelete(k)), r.outbox);
    forall c | c in Says(r0, k) ensures c in Says(r, k) {
      FoldColumns(QueueOf(r0, k), c);
      FoldColumns(q, c);
    }
    FoldDeleted(QueueOf(r0, k));
    EmptyFold();
  }

  lemma EmptyFold()
    ensures Fold([]) == map[]
  {
  }

  function Survives(): Entry -> bool {
    (e: Entry) => Kept(e)
  }

  lemma {:induction false} FoldSurvivors(q: seq<Entry>, c: Column, i: nat)
    requires c != Deleted && LastKept(q, c, i)
    ensures var rest := Fold(Filter(Survives(), q)); c in rest && rest[c] == q[i].payload.fields[c]
  {
    hide IsDelete;
    var front, last := q[..|q| - 1], q[|q| - 1];
    var kept := Filter(Survives(), front);
    if i == |front| {
      assert (kept + [last])[..|kept|] == kept;
      AbsorbOne(Fold(kept), last, c);
    } else {
      assert LastKept(front, c, i);
      FoldSurvivors(front, c, i);
      if Kept(last) {
        assert (kept + [last])[..|kept|] == kept;
        AbsorbOne(Fold(kept), last, c);
      }
    }
  }

  lemma {:induction false} LastKeptExists(q: seq<Entry>, c: Column) returns (i: nat)
    requires exists e :: e in q && Kept(e) && Carries(e, c)
    ensures LastKept(q, c, i)
  {
    hide IsDelete;
    var front, last := q[..|q| - 1], q[|q| - 1];
    assert q == front + [last];
    if Kept(last) && Carries(last, c) {
      i := |front|;
    } else {
      i := LastKeptExists(front, c);
    }
  }

  lemma {:induction false} LastInExists(q: seq<Entry>, c: Column) returns (m: nat)
    requires exists e :: e in q && Carries(e, c)
    ensures LastIn(q, c, m)
  {
    var front, last := q[..|q| - 1], q[|q| - 1];
    assert q == front + [last];
    if Carries(last, c) {
      m := |front|;
    } else {
      m := LastInExists(front, c);
    }
  }

  lemma AbsorbOne(acc: Row, e: Entry, c: Column)
    requires c != Deleted
    ensures Get(Absorb(acc, e), c) == if Carries(e, c) then Some(e.payload.fields[c]) else Get(acc, c)
  {
  }

  /** Silence on a column is what keeps the row in line with the reduced queue. */
  lemma SilentMeans(r: Replica, k: Key, c: Column)
    requires AgreesAt(r, k) && c in Columns(k.table)
    ensures var r0 := DropPendingDeletes(r, k);
      SilentAt(r, k, c) <==> (c in Says(r0, k) ==> k in r.rows && Holds(k.table, c, r.rows[k], Says(r0, k)[c]))
  {
    DroppedQueue(r, k);
    var q := QueueOf(r, k);
    hide Filter, Fold, IsDelete, Columns, QueueOf;
    FilterMembers(Survives(), q);
    FoldColumns(Filter(Survives(), q), c);
    if c == Deleted {
      SilentFlag(r, k);
    } else if exists e :: e in q && Kept(e) && Carries(e, c) {
      SilentColumn(r, k, c);
    } else {
      assert forall i: nat :: !LastKept(q, c, i);
    }
  }

  lemma SilentFlag(r: Replica, k: Key)
    requires AgreesAt(r, k) && Deleted in Columns(k.table)
    ensures var r0 := DropPendingDeletes(r, k);
      SilentAt(r, k, Deleted) <==> (Deleted in Says(r0, k) ==> k in r.rows && Holds(k.table, Deleted, r.rows[k], Says(r0, k)[Deleted]))
  {
    DroppedQueue(r, k);
    var q, r0 := QueueOf(r, k), DropPendingDeletes(r, k);
    hide Filter, Fold, Columns, QueueOf;
    FilterMembers(Survives(), q);
    FoldColumns(Filter(Survives(), q), Deleted);
    FoldColumns(q, Deleted);
    FoldDeleted(q);
    if Deleted in Says(r0, k) {
      assert Holds(k.table, Deleted, r.rows[k], Says(r, k)[Deleted]);
      if AnyDelete(q) {
        assert AsStored(Deleted, Says(r0, k)[Deleted]) != Bool(true);
      } else {
        FilterAll(Survives(), q);
      }
    }
  }

  lemma SilentColumn(r: Replica, k: Key, c: Column)
    requires AgreesAt(r, k) && c in Columns(k.table) && c != Deleted
    requires exists e :: e in QueueOf(r, k) && Kept(e) && Carries(e, c)
    ensures var r0 := DropPendingDeletes(r, k);
      SilentAt(r, k, c) <==> (c in Says(r0, k) ==> k in r.rows && Holds(k.table, c, r.rows[k], Says(r0, k)[c]))
  {
    DroppedQueue(r, k);
    var q := QueueOf(r, k);
    hide Filter, Fold, Columns, QueueOf, IsDelete;
    var i := LastKeptExists(q, c);
    var m := LastInExists(q, c);
    FoldSurvivors(q, c, i);
    FoldField(q, c, m);
    assert Holds(k.table, c, r.rows[k], q[m].payload.fields[c]);
    assert forall j: nat :: LastKept(q, c, j) ==> j == i;
    assert forall j: nat :: LastIn(q, c, j) ==> j == m;
    PlainFillable(k.table, c, q[i].payload.fields[c]);
    hide AsStored, Fillable;
  }

  lemma PlainFillable(t: Table, c: Column, v: Cell)
    ensures Fillable(t, c) ==> AsStored(c, v) == v
  {
  }

  /** A write that carries every column of the tombstones it drops, the flag among them, is silent. */
  lemma CarryingWriteIsSilent(r: Replica, k: Key, p: Row)
    requires AgreesAt(r, k) && Deleted in p
    requires forall e, c :: e in QueueOf(r, k) && IsDelete(e) && c in e.payload.fields && c in Columns(k.table) ==> c in p
    ensures DropIsSilent(r, k, p)
  {
    hide QueueOf, Columns, Fold;
    var q := QueueOf(r, k);
    forall c | c in Columns(k.table) && c !in p ensures SilentAt(r, k, c) {
      forall i: nat | LastKept(q, c, i) ensures LastIn(q, c, i) && forall m: nat :: LastIn(q, c, m) ==> m == i {
        forall j | i < j < |q| ensures !Carries(q[j], c) {
          assert q[j] in q;
        }
      }
      forall i: nat | LastKept(q, c, i) && Fillable(k.table, c)
        ensures q[i].payload.fields[c] == Null || (k in r.rows && Get(r.rows[k], c) == Some(q[i].payload.fields[c]))
      {
        FoldField(q, c, i);
        PlainFillable(k.table, c, q[i].payload.fields[c]);
        assert q[i] in q;
      }
    }
  }

  /** A reviving write that leaves `deleted` out, over a queued delete and an entry that carries the
      flag: the row stays deleted, the tombstone is gone, and queue and row disagree. */
  lemma RevivingWithoutTheFlag(r: Replica, r': Replica, k: Key, p: Row, e: Entry)
    requires Synced(k.table) && AgreesAt(r, k) && IsStored(r, k)
    requires r'.rows == r.rows[k := Project(k.table, Existing(r, k) + p)]
    requires r'.outbox == DropPendingDeletes(r, k).outbox + [e] && IsFor(e, k) && e.payload == Object(p)
    requires Deleted !in p && AnyDelete(QueueOf(r, k)) && exists x :: x in QueueOf(r, k) && !IsDelete(x) && Carries(x, Deleted)
    ensures !AgreesAt(r', k)
  {
    SchemaFacts(k.table);
    hide QueueOf, Columns, Project, AgreesAt;
    StageAgreesIff(r, r', k, p, e);
    assert !SilentAt(r, k, Deleted);
  }

  lemma FiltersCommute<T(!new)>(p: T -> bool, q: T -> bool, s: seq<T>)
    ensures Filter(p, Filter(q, s)) == Filter(q, Filter(p, s))
  {
    FilterTwice(p, q, s);
    FilterTwice(q, p, s);
    FilterCongruent(x => q(x) && p(x), x => p(x) && q(x), s);
  }

  /** A write through the plain path, which drops nothing: queue and row agree again exactly when it is
      not a live write, flag and all, over a queued delete. */
  lemma PlainWriteAgreesIff(r: Replica, r': Replica, k: Key, p: Row, e: Entry)
    requires Synced(k.table) && AgreesAt(r, k) && IsStored(r, k)
    requires r'.rows == r.rows[k := Project(k.table, Existing(r, k) + p)]
    requires r'.outbox == r.outbox + [e] && IsFor(e, k) && e.payload == Object(p)
    requires Deleted in p ==> p[Deleted].Bool?
    ensures AgreesAt(r', k) <==> !(AnyDelete(QueueOf(r, k)) && Get(p, Deleted) == Some(Bool(false)))
  {
    QueueOfPush(r, r', e, k);
    FoldDeleted(QueueOf(r, k));
    EmptyFold();
    hide QueueOf, Project, Columns;
    if IsDelete(e) || !AnyDelete(QueueOf(r, k)) {
      hide Holds;
      StagedAgrees(r, r, r', k, p, e);
      assert LeftOutHolds(r, r, k, p);
    } else {
      StickyWrite(r, r', k, p, e);
    }
  }

  lemma StickyWrite(r: Replica, r': Replica, k: Key, p: Row, e: Entry)
    requires Synced(k.table) && AgreesAt(r, k) && IsStored(r, k)
    requires r'.rows == r.rows[k := Project(k.table, Existing(r, k) + p)]
    requires QueueOf(r', k) == QueueOf(r, k) + [e] && e.payload == Object(p) && !IsDelete(e)
    requires (Deleted in p ==> p[Deleted] == Bool(false)) && QueueOf(r, k) != [] && Get(Says(r, k), Deleted) == Some(Bool(true))
    ensures AgreesAt(r', k) <==> Deleted !in p
  {
    hide Columns, QueueOf, Fillable, Project, Existing, IsDelete, Says, AsStored;
    var row, was := r'.rows[k], Says(r, k);
    StickySays(r, r', k, p, e);
    SchemaFacts(k.table);
    FlagIsPlain(k.table);
    assert Holds(k.table, Deleted, r.rows[k], Bool(true));
    forall c | c in Columns(k.table) && c != Deleted && c in Says(r', k) ensures Holds(k.table, c, row, Says(r', k)[c]) {
      StoredColumn(r, k, p, c);
      if c !in p {
        assert Holds(k.table, c, r.rows[k], was[c]);
      }
    }
    StoredColumn(r, k, p, Deleted);
  }

  lemma StickySays(r: Replica, r': Replica, k: Key, p: Row, e: Entry)
    requires QueueOf(r', k) == QueueOf(r, k) + [e] && e.payload == Object(p) && Get(Says(r, k), Deleted) == Some(Bool(true))
    ensures Says(r', k) == (Says(r, k) + p)[Deleted := Bool(true)]
  {
    hide QueueOf;
    var q := QueueOf(r, k);
    assert (q + [e])[..|q|] == q;
  }

  lemma FlagIsPlain(t: Table)
    ensures !Fillable(t, Deleted) && forall b :: AsStored(Deleted, Bool(b)) == Bool(b)
  {
  }

  // ── Every step ─────────────────────────────────────────────────────────────

  /** A removal that spares a record leaves its queue alone. */
  lemma SparedQueue(keep: Entry -> bool, q: seq<Entry>, k: Key)
    requires forall e :: e in q && IsFor(e, k) ==> keep(e)
    ensures Filter(For(k), Filter(keep, q)) == Filter(For(k), q)
  {
    FilterTwice(For(k), keep, q);
    FilterCongruent(e => keep(e) && For(k)(e), For(k), q);
  }

  /** What the outbox is reduced to before a write is queued. */
  function Reduced(r: Replica, k: Key, revive: bool): Replica {
    if revive then DropPendingDeletes(r, k) else r
  }

  /** A write that keeps queue and row in agreement: a delete, a write over no queued delete, or a write
      through a path that drops the record's tombstones, silently on the columns it leaves out. */
  ghost predicate Agreeable(r: Replica, k: Key, p: Row, revive: bool) {
    && (Deleted in p ==> p[Deleted].Bool?)
    && (if revive then DropIsSilent(r, k, p) else Get(p, Deleted) == Some(Bool(true)) || !DeleteQueued(r, k))
  }

  /** Asked of the writes to one record only. */
  ghost predicate AgreeableStep(f: Fleet, step: Step, z: Key)
    requires Enabled(f, step)
  {
    match step
    case Stage(d, k, partial, _, revive) => k == z ==> Agreeable(f.devices[d].replica, k, partial, revive)
    case ImportOne(_, w, _) => w.key == z ==> FullRow(w.key, w.row)
    case _ => true
  }

  lemma ReducedQueue(r: Replica, k: Key, revive: bool, z: Key)
    requires DeletesAreLast(r.outbox, z)
    ensures var r0 := Reduced(r, k, revive);
      && DeletesAreLast(r0.outbox, z)
      && (k != z ==> QueueOf(r0, z) == QueueOf(r, z))
      && (revive ==> forall x :: x in r0.outbox && IsFor(x, k) ==> !IsDelete(x))
  {
    hide Filter, DeletesAreLast, IsDelete;
    if revive {
      KeptDeletes(Not(PendingDelete(k)), r.outbox, z);
      if k != z {
        SparedQueue(Not(PendingDelete(k)), r.outbox, z);
      }
    }
  }

  lemma WriteAgrees(r: Replica, r': Replica, k: Key, p: Row, revive: bool, e: Entry)
    requires Agrees(r, k) && Agreeable(r, k, p, revive) && Synced(k.table)
    requires r'.rows == r.rows[k := Project(k.table, Existing(r, k) + p)]
    requires r'.outbox == Reduced(r, k, revive).outbox + [e] && IsFor(e, k) && e.payload == Object(p)
    ensures Agrees(r', k)
  {
    hide AgreesAt, Agreeable, Project, DeletesAreLast, Existing, IsDelete;
    StoredOnce(k.table, Existing(r, k) + p);
    ReducedQueue(r, k, revive, k);
    WriteAgreesHere(r, r', k, p, revive, e);
    AppendedDelete(Reduced(r, k, revive).outbox, e, k);
  }

  /** A write of another record, whatever it carries. */
  lemma OtherWriteAgrees(r: Replica, r': Replica, k: Key, revive: bool, e: Entry, z: Key)
    requires Agrees(r, z) && k != z && IsFor(e, k) && r'.outbox == Reduced(r, k, revive).outbox + [e]
    requires (z in r'.rows <==> z in r.rows) && (z in r.rows ==> r'.rows[z] == r.rows[z])
    ensures Agrees(r', z)
  {
    hide AgreesAt, Project, QueueOf, DeletesAreLast, Reduced, IsDelete;
    var r0 := Reduced(r, k, revive);
    ReducedQueue(r, k, revive, z);
    QueueOfPush(r0, r', e, z);
    SameAgreement(r, r', z);
    AppendedDelete(r0.outbox, e, z);
  }

  lemma QueueOfPush(r0: Replica, r': Replica, e: Entry, k: Key)
    requires r'.outbox == r0.outbox + [e]
    ensures QueueOf(r', k) == QueueOf(r0, k) + if IsFor(e, k) then [e] else []
  {
    FilterPush(For(k), r0.outbox, e);
  }

  lemma WriteAgreesHere(r: Replica, r': Replica, k: Key, p: Row, revive: bool, e: Entry)
    requires Agrees(r, k) && Agreeable(r, k, p, revive) && Synced(k.table)
    requires r'.rows == r.rows[k := Project(k.table, Existing(r, k) + p)]
    requires r'.outbox == Reduced(r, k, revive).outbox + [e] && IsFor(e, k) && e.payload == Object(p)
    ensures AgreesAt(r', k) && (IsDelete(e) || forall x :: x in Reduced(r, k, revive).outbox && IsFor(x, k) ==> !IsDelete(x))
  {
    ReducedQueue(r, k, revive, k);
    hide Project, QueueOf, DropIsSilent, DeletesAreLast, AgreesAt, IsStored;
    if revive {
      StageAgreesIff(r, r', k, p, e);
    } else {
      if !DeleteQueued(r, k) {
        NoDeleteInQueue(r, k);
      }
      PlainWriteAgreesIff(r, r', k, p, e);
    }
  }

  lemma NoDeleteInQueue(r: Replica, k: Key)
    requires !DeleteQueued(r, k)
    ensures !AnyDelete(QueueOf(r, k))
  {
    hide Filter, IsDelete;
    FilterMembers(For(k), r.outbox);
  }

  lemma SameAgreement(r: Replica, r': Replica, k: Key)
    requires AgreesAt(r, k) && QueueOf(r', k) == QueueOf(r, k)
    requires k in r.rows ==> k in r'.rows && forall c, said ::
      c in Columns(k.table) && Holds(k.table, c, r.rows[k], said) ==> Holds(k.table, c, r'.rows[k], said)
    ensures AgreesAt(r', k)
  {
    hide Fold, Columns, Holds, QueueOf;
  }

  lemma AppendedDelete(q: seq<Entry>, e: Entry, z: Key)
    requires DeletesAreLast(q, z)
    requires !IsFor(e, z) || IsDelete(e) || forall x :: x in q && IsFor(x, z) ==> !IsDelete(x)
    ensures DeletesAreLast(q + [e], z)
  {
    hide IsDelete, IsFor;
    assert forall i :: 0 <= i < |q| ==> q[i] in q;
  }

  lemma StageStepAgrees(v: Device, k: Key, partial: Row, at: int, revive: bool, z: Key)
    requires Agrees(v.replica, z) && Synced(k.table) && Stamp(partial).Some?
    requires k == z ==> Agreeable(v.replica, k, partial, revive)
    ensures Agrees(StageStep(v, k, partial, at, revive).replica, z)
  {
    hide Agrees, Project, Filter, Agreeable;
    var r, r' := v.replica, StageStep(v, k, partial, at, revive).replica;
    var c := Clamp(StampOr0(Existing(r, k)), partial);
    if c.Some? {
      var p := c.value;
      var e := Entry(r.nextId, k.table, Some(k.id), Object(p), at);
      if k == z {
        ClampedAgreeable(r, k, partial, p, revive);
        WriteAgrees(r, r', k, p, revive, e);
      } else {
        OtherWriteAgrees(r, r', k, revive, e, z);
      }
    }
  }

  lemma ClampedAgreeable(r: Replica, k: Key, partial: Row, p: Row, revive: bool)
    requires Agreeable(r, k, partial, revive) && UpdatedAt in partial && UpdatedAt in p && p == partial[UpdatedAt := p[UpdatedAt]]
    ensures Agreeable(r, k, p, revive)
  {
    hide SilentAt, Columns;
  }

  lemma ImportAgrees(r: Replica, w: Write, batch: int, z: Key)
    requires Agrees(r, z) && Synced(w.key.table) && (w.key == z ==> FullRow(w.key, w.row))
    ensures Agrees(ImportWrite(r, w, batch), z)
  {
    hide Agrees, Filter, FullRow, Project;
    var e := Entry(r.nextId, w.key.table, Some(w.key.id), Object(w.row), batch);
    if w.key == z {
      FullWrite(r, w.key, w.row);
      WriteAgrees(r, ImportWrite(r, w, batch), w.key, w.row, true, e);
    } else {
      OtherWriteAgrees(r, ImportWrite(r, w, batch), w.key, true, e, z);
    }
  }

  lemma FullWrite(r: Replica, k: Key, row: Row)
    requires FullRow(k, row)
    ensures Project(k.table, row) == Project(k.table, Existing(r, k) + row) && Agreeable(r, k, row, true)
  {
    hide Columns, Existing, SilentAt;
    ProjectOverFull(k.table, Existing(r, k), row);
  }

  lemma ProjectOverFull(t: Table, under: Row, row: Row)
    requires Columns(t) <= row.Keys
    ensures Project(t, under + row) == Project(t, row)
  {
    hide Columns;
  }

  lemma MergeAgrees(s: Server, v: Device, z: Key)
    requires DeviceOk(s, v) && Agrees(v.replica, z) && v.page.Some? && v.page.value.done < |v.page.value.rows|
    ensures Agrees(MergeStep(v).replica, z)
  {
    var p := v.page.value;
    var x := p.rows[p.done];
    var w := WireOf(x.key, x.row);
    var r := v.replica;
    InFlightFacts(s, p.table, Pull.CursorOf(r, p.table), x);
    WireFacts(x.key, x.row);
    DeviceQueueOk(s, v);
    assert x.key == Key(p.table, x.key.id);
    hide QueueOk, DeviceOk, Agrees, Rebase, FillBook, WireOf, StampOr0;
    match Decide(r, p.table, w)
    case Apply => RebaseAgrees(r, x.key, w.fields, z);
    case KeepLocal =>
      if p.table == Books {
        FillAgrees(r, x.key, w.fields, z);
      }
    case _ =>
  }

  lemma RebaseAgrees(r: Replica, k: Key, row: Row, z: Key)
    requires QueueOk(r) && Agrees(r, z) && (k in r.rows ==> LocalStamp(r, k) < StampOr0(row))
    ensures Agrees(Rebase(r, k, row, StampOr0(row)), z)
  {
    var r' := Rebase(r, k, row, StampOr0(row));
    RebaseDropsAll(r, k, StampOr0(row));
    hide QueueOk, Project, Filter, StampOr0, Says, Holds, Columns, DeletesAreLast;
    StoredOnce(k.table, row);
    KeptDeletes(Not(For(k)), r.outbox, z);
    FilterNone(For(k), r'.outbox);
    if k != z {
      SparedQueue(Not(For(k)), r.outbox, z);
      SameAgreement(r, r', z);
    }
  }

  lemma FillAgrees(r: Replica, k: Key, incoming: Row, z: Key)
    requires Agrees(r, z) && k.table == Books && k in r.rows
    ensures Agrees(r.(rows := r.rows[k := FillBook(r.rows[k], incoming)]), z)
  {
    hide Project, FillBook, AgreesAt, Says, Holds, DeletesAreLast, QueueOf, Columns;
    var r' := r.(rows := r.rows[k := FillBook(r.rows[k], incoming)]);
    FilledRow(r.rows[k], incoming);
    SameOutbox(r, r', z);
    SameAgreement(r, r', z);
  }

  lemma FilledRow(row: Row, incoming: Row)
    ensures row == Project(Books, row) ==> FillBook(row, incoming) == Project(Books, FillBook(row, incoming))
    ensures forall c, said :: c in Columns(Books) && Holds(Books, c, row, said) ==> Holds(Books, c, FillBook(row, incoming), said)
  {
    hide Columns;
    if row == Project(Books, row) {
      var filled := FillBook(row, incoming);
      forall c | c in Columns(Books) ensures c in filled && filled[c] == Project(Books, filled)[c] {
        assert c in row && row[c] == Project(Books, row)[c];
      }
    }
    forall c, said | c in Columns(Books) && Holds(Books, c, row, said) ensures Holds(Books, c, FillBook(row, incoming), said) {
      PlainFillable(Books, c, said);
    }
  }

  lemma SameOutbox(r: Replica, r': Replica, k: Key)
    requires r'.outbox == r.outbox
    ensures QueueOf(r', k) == QueueOf(r, k)
  {
  }

  lemma ClearAgrees(s: Server, v: Device, z: Key)
    requires DeviceOk(s, v) && Agrees(v.replica, z)
    ensures Agrees(ClearStep(v).replica, z)
  {
    var r, r' := v.replica, ClearStep(v).replica;
    DeviceQueueOk(s, v);
    assert AckedOk(v);
    hide DeviceOk, QueueOk, AckedOk, Filter, DeletesAreLast, Project, AgreesAt, IsDelete;
    KeptDeletes(Not(In(v.acked)), r.outbox, z);
    FiltersCommute(For(z), Not(In(v.acked)), r.outbox);
    AckedIsFront(v, z);
    SuffixSays(v.acked, QueueOf(r, z));
    ShorterAgreement(r, r', z);
  }

  lemma ShorterAgreement(r: Replica, r': Replica, k: Key)
    requires AgreesAt(r, k) && r'.rows == r.rows && (QueueOf(r, k) == [] ==> QueueOf(r', k) == [])
    requires forall c :: c in Says(r', k) ==> c in Says(r, k) && Says(r', k)[c] == Says(r, k)[c]
    ensures AgreesAt(r', k)
  {
    hide Columns, Holds, QueueOf, Says;
  }

  /** The acknowledged entries of a record are its oldest. */
  lemma AckedIsFront(v: Device, k: Key)
    requires QueueOk(v.replica) && AckedOk(v) && DeletesAreLast(v.replica.outbox, k)
    ensures var q := QueueOf(v.replica, k);
      forall i, j :: 0 <= i < j < |q| ==> (IsDelete(q[i]) ==> IsDelete(q[j])) && (q[j].id in v.acked ==> q[i].id in v.acked)
  {
    var q := QueueOf(v.replica, k);
    hide Filter, IsDelete, Backed, StampOf;
    KeptDeletes(For(k), v.replica.outbox, k);
    FilteredQueue(For(k), v.replica.outbox);
    forall i, j | 0 <= i < j < |q| ensures (IsDelete(q[i]) ==> IsDelete(q[j])) && (q[j].id in v.acked ==> q[i].id in v.acked) {
      assert q[i] in q && q[j] in q && Follows(q[i], q[j]) && DeletesLast(k, q[i], q[j]);
    }
  }

  /** What is left of a queue after its oldest entries went says nothing the whole did not say, if its
      deletes are followed by deletes only. */
  lemma {:induction false} SuffixSays(acked: set<nat>, q: seq<Entry>)
    requires forall i, j :: 0 <= i < j < |q| ==>
      (IsDelete(q[i]) ==> IsDelete(q[j])) && (q[j].id in acked ==> q[i].id in acked)
    ensures var rest := Filter(Not(In(acked)), q);
      forall c :: c in Fold(rest) ==> c in Fold(q) && Fold(rest)[c] == Fold(q)[c]
  {
    if q != [] {
      var front, last := q[..|q| - 1], q[|q| - 1];
      if last.id in acked {
        FilterNone(Not(In(acked)), q);
      } else {
        SuffixSays(acked, front);
        var rest := Filter(Not(In(acked)), front);
        assert (rest + [last])[..|rest|] == rest;
        if !IsDelete(last) {
          FilterMembers(Not(In(acked)), front);
          assert !AnyDelete(front) && !AnyDelete(rest);
          FoldDeleted(front);
          FoldDeleted(rest);
        }
      }
    }
  }

  // ── Every run ──────────────────────────────────────────────────────────────

  ghost predicate FleetAgrees(f: Fleet, z: Key) {
    forall d :: d in f.devices ==> Agrees(f.devices[d].replica, z)
  }

  lemma StepKeepsAgreement(f: Fleet, step: Step, z: Key)
    requires Inv(f) && FleetAgrees(f, z) && Enabled(f, step) && AgreeableStep(f, step, z)
    ensures FleetAgrees(Do(f, step), z)
  {
    hide ServerOk, DeviceOk, StageStep, ImportWrite, MergeStep, ClearStep, ServerWrite, IsPage, Sends, Agrees, Agreeable, FullRow;
    match step
    case Stage(d, k, partial, at, revive) => StageStepAgrees(f.devices[d], k, partial, at, revive, z);
    case ImportOne(d, w, batch) => ImportAgrees(f.devices[d].replica, w, batch, z);
    case Merge(d) => MergeAgrees(f.server, f.devices[d], z);
    case Advance(d) => SameAgrees(f.devices[d].replica, AdvanceStep(f.devices[d]).replica, z);
    case Clear(d) => ClearAgrees(f.server, f.devices[d], z);
    case _ =>
  }

  lemma SameAgrees(r: Replica, r': Replica, z: Key)
    requires Agrees(r, z) && r'.rows == r.rows && r'.outbox == r.outbox
    ensures Agrees(r', z)
  {
    hide Project, DeletesAreLast;
    SameAgreement(r, r', z);
  }

  /** A run in which the writes of one record keep its queue and row in agreement. */
  ghost predicate IsAgreeableFor(states: seq<Fleet>, steps: seq<Step>, z: Key) {
    IsRun(states, steps) && forall i :: 0 <= i < |steps| ==> AgreeableStep(states[i], steps[i], z)
  }

  lemma {:induction false} RunKeepsAgreement(states: seq<Fleet>, steps: seq<Step>, i: nat, z: Key)
    requires IsAgreeableFor(states, steps, z) && i < |states|
    ensures FleetAgrees(states[i], z)
  {
    hide Inv, Enabled, Do, AgreeableStep, Init, FleetAgrees;
    if i == 0 {
      InitAgrees(states[0], z);
    } else {
      RunKeepsAgreement(states, steps, i - 1, z);
      RunKeepsInv(states, steps, i - 1);
      StepKeepsAgreement(states[i - 1], steps[i - 1], z);
    }
  }

  lemma InitAgrees(f: Fleet, z: Key)
    requires Init(f)
    ensures FleetAgrees(f, z)
  {
  }

  /** A cell of the queue as a flush sends it: a note's book id resolved, a fillable null left out. */
  function SentCell(t: Table, c: Column, said: Cell, before: map<string, string>, after: map<string, string>): Option<Cell> {
    if t == Notes && c == BookId && said.Str? then Some(Str(Walk(Walk(said.s, before, MAX_HOPS), after, MAX_HOPS)))
    else if Fillable(t, c) && said == Null then None
    else Some(said)
  }

  /** A sent cell is the row's, apart from a note's book id, which is the row's resolved. */
  predicate SentFromRow(t: Table, c: Column, row: Row, sent: Cell, before: map<string, string>, after: map<string, string>) {
    c in row && if t == Notes && c == BookId then Some(sent) == SentCell(t, c, row[c], before, after) else IsStoredCell(c, Some(sent), row[c])
  }

  /** If the writes of a record are timed and agreeable, whatever a flush sends for it equals the local
      row on every column it carries, `updated_at` and `deleted` among them; a note's book id is the row's, resolved. */
  lemma SentAgreesWithRow(states: seq<Fleet>, steps: seq<Step>, i: nat, d: nat, k: Key,
                          before: map<string, string>, after: map<string, string>)
    requires IsTimedFor(states, steps, k) && IsAgreeableFor(states, steps, k) && i < |states| && d in states[i].devices
    requires exists e :: e in states[i].devices[d].replica.outbox && IsFor(e, k)
    ensures var r := states[i].devices[d].replica;
      var p := Sends(r, k, before, after);
      && k in r.rows && Stamp(p) == Some(LocalStamp(r, k))
      && forall c :: c in Columns(k.table) && c in p ==> SentFromRow(k.table, c, r.rows[k], p[c], before, after)
  {
    hide Inv, Timed, Agrees, QueueOk, Timely, Sends, Upheld, DeviceOk, SentFromRow, Columns;
    RunKeepsAgreement(states, steps, i, k);
    RunKeepsInv(states, steps, i);
    RunKeepsTimed(states, steps, i, k);
    hide IsTimedFor, IsAgreeableFor;
    DeviceOf(states[i], d, k);
    SentFromReplica(states[i].devices[d].replica, k, before, after);
  }

  lemma DeviceOf(f: Fleet, d: nat, k: Key)
    requires Inv(f) && Timed(f, k) && d in f.devices
    ensures QueueOk(f.devices[d].replica) && Timely(f.devices[d].replica.outbox, k)
  {
    hide ServerOk, DeviceOk, Upheld, QueueOk, Timely;
    DeviceQueueOk(f.server, f.devices[d]);
    UpheldTimely(f.server, f.devices[d], k);
  }

  lemma SentFromReplica(r: Replica, k: Key, before: map<string, string>, after: map<string, string>)
    requires QueueOk(r) && Timely(r.outbox, k) && Agrees(r, k) && exists e :: e in r.outbox && IsFor(e, k)
    ensures var p := Sends(r, k, before, after);
      && k in r.rows && Stamp(p) == Some(LocalStamp(r, k))
      && forall c :: c in Columns(k.table) && c in p ==> SentFromRow(k.table, c, r.rows[k], p[c], before, after)
  {
    hide QueueOk, Timely, Sends, Says, Columns, Project, DeletesAreLast, QueueOf, Walk, Stamp, LocalStamp, TimeOrdered;
    var p := Sends(r, k, before, after);
    SendsRowStamp(r, k, before, after);
    QueueTimely(r, k);
    SendsWhatQueueSays(r, k, before, after);
    forall c | c in Columns(k.table) && c in p ensures SentFromRow(k.table, c, r.rows[k], p[c], before, after) {
      assert Get(p, c) == if c in Says(r, k) then SentCell(k.table, c, Says(r, k)[c], before, after) else None;
      SentHeld(k.table, c, r.rows[k], Says(r, k)[c], before, after);
    }
  }

  lemma SentHeld(t: Table, c: Column, row: Row, said: Cell, before: map<string, string>, after: map<string, string>)
    requires Holds(t, c, row, said) && SentCell(t, c, said, before, after).Some?
    ensures SentFromRow(t, c, row, SentCell(t, c, said, before, after).value, before, after)
  {
    hide Walk;
  }

  lemma QueueTimely(r: Replica, k: Key)
    requires QueueOk(r) && Timely(r.outbox, k)
    ensures TimeOrdered(QueueOf(r, k))
  {
    hide QueueOk, Timely, Filter;
    QueueIsGroup(r, k);
    GroupTimely(r, k);
  }

  lemma SendsWhatQueueSays(r: Replica, k: Key, before: map<string, string>, after: map<string, string>)
    requires QueueOk(r) && TimeOrdered(QueueOf(r, k)) && exists e :: e in r.outbox && IsFor(e, k)
    ensures QueueOf(r, k) != []
    ensures forall c :: c in Columns(k.table) ==>
      Get(Sends(r, k, before, after), c) == if c in Says(r, k) then SentCell(k.table, c, Says(r, k)[c], before, after) else None
  {
    NewestQueued(r, k);
    QueueIsGroup(r, k);
    hide Filter, QueueOk, QueueOf, Fold, Columns, GroupKey, TimeOrdered, Push.Prepare, Repoint, SortByTime, SentCell;
    SortOfOrdered(QueueOf(r, k));
    PreparedColumns(k.table, Says(r, k), before, after);
  }

  lemma PreparedColumns(t: Table, payload: Row, before: map<string, string>, after: map<string, string>)
    requires Synced(t)
    ensures forall c :: c in Columns(t) ==>
      Get(Push.Prepare(t, Repoint(t, payload, before), after), c) ==
      if c in payload then SentCell(t, c, payload[c], before, after) else None
  {
    RewriteFacts(t);
    hide Walk, Columns;
    var p := Push.Prepare(t, Repoint(t, payload, before), after);
    forall c | c in Columns(t) ensures Get(p, c) == if c in payload then SentCell(t, c, payload[c], before, after) else None {
      assert t != Notes ==> c != BookId;
    }
  }
}
