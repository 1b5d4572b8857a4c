/** The device store: the methods that change it, each one transaction, proved against the
    transaction functions of `ReplicaModel`. */
module StoreModel {
  import opened Data
  import opened Seqs
  import opened ReplicaModel

  datatype StageResult = Staged | TargetMissing | StorageFailed

  class Store {
    var rows: map<Key, Row>
    var outbox: seq<Entry>
    var nextId: nat
    var cursors: map<Table, int>
    var receipts: set<Table>
    var remap: map<string, string>

    function View(): Replica
      reads this
    {
      Replica(rows, outbox, nextId, cursors, receipts, remap)
    }

    ghost predicate Valid()
      reads this
    {
      IdsIncrease(outbox, nextId)
    }

    constructor ()
      ensures Valid() && View() == EMPTY
    {
      rows, outbox, nextId, cursors, receipts, remap := map[], [], 0, map[], {}, map[];
    }

    /** Delete, one by one, the queued entries that match. */
    method DeleteMatching(victim: Entry -> bool) returns (dropped: seq<Entry>)
      requires Valid()
      modifies this`outbox
      ensures Valid()
      ensures outbox == Filter(Not(victim), old(outbox))
      ensures dropped == Filter(victim, old(outbox))
    {
      hide Filter;
      var entries := outbox;
      dropped := [];
      FilterNil(victim); FilterNil(Not(victim));
      for i := 0 to |entries|
        invariant outbox == Filter(Not(victim), entries[..i]) + entries[i..]
        invariant dropped == Filter(victim, entries[..i])
      {
        DeleteStep(victim, entries, nextId, i);
        if victim(entries[i]) {
          outbox := RemoveId(outbox, entries[i].id);
          dropped := dropped + [entries[i]];
        }
      }
      assert entries[..|entries|] == entries;
      FilterKeepsIds(Not(victim), entries, nextId);
    }

    /** Clear the ids of the groups that flushed. */
    method ClearOutbox(ids: seq<nat>)
      requires Valid()
      modifies this`outbox
      ensures Valid()
      ensures outbox == Filter(Not(IdIn(ids)), old(outbox))
    {
      ghost var before := outbox;
      FilterAll(Not(IdIn(ids[..0])), before);
      for i := 0 to |ids|
        invariant outbox == Filter(Not(IdIn(ids[..i])), before)
      {
        RemoveIds(before, ids, i);
        outbox := RemoveId(outbox, ids[i]);
      }
      assert ids[..|ids|] == ids;
      FilterKeepsIds(Not(IdIn(ids)), before, nextId);
    }

    method DropPendingDeletesInner(k: Key) returns (count: nat)
      requires Valid()
      modifies this`outbox
      ensures Valid()
      ensures View() == DropPendingDeletes(old(View()), k)
      ensures forall e :: e in old(outbox) ==> (e !in outbox <==> IsFor(e, k) && SaysDeleted(e))
      ensures count == |Filter(PendingDelete(k), old(outbox))|
    {
      FilterMembers(Not(PendingDelete(k)), outbox);
      forall e ensures IsDelete(e) <==> SaysDeleted(e) {
        DeleteMeans(e);
      }
      hide IsDelete, SaysDeleted, Filter;
      var dropped := DeleteMatching(PendingDelete(k));
      count := |dropped|;
    }

    /** Apply a pulled winner and drop the record's stale entries; report what was dropped. */
    method ApplyRowRebasingOutbox(k: Key, row: Row, incoming: int) returns (dropped: seq<Entry>)
      requires Valid() && Synced(k.table) && Addresses(k, row)
      modifies this`rows, this`outbox
      ensures Valid()
      ensures View() == Rebase(old(View()), k, row, incoming)
      ensures dropped == Filter(Stale(k, incoming), old(outbox))
      ensures k in rows && StoredFrom(k.table, row, rows[k])
      ensures forall e :: e in old(outbox) ==> (e !in outbox <==> StampedBy(e, k, incoming))
    {
      FilterMembers(Not(Stale(k, incoming)), outbox);
      hide Filter, StoredFrom;
      ProjectStores(k.table, row);
      rows := rows[k := Project(k.table, row)];
      dropped := DeleteMatching(Stale(k, incoming));
    }

    /** Fill, column by column, what the local book never stored. Nothing a caller can see beyond those
        nulls changes: no other column, no cell that had a value, no stamp, no flag. */
    method FillNullBookColumns(id: string, incoming: Row)
      requires Valid() && Key(Books, id) in rows
      modifies this`rows
      ensures View() == old(View()).(rows := old(rows)[Key(Books, id) :=
                                              FillBook(old(rows)[Key(Books, id)], incoming)])
      ensures OnlyNullsFilled(old(rows)[Key(Books, id)], rows[Key(Books, id)], incoming)
    {
      hide Filled, FillBook, OnlyNullsFilled, FILL_ORDER;
      var k := Key(Books, id);
      ghost var row := rows[k];
      FilledNone(row, incoming);
      for i := 0 to |FILL_ORDER|
        invariant k in rows && rows == old(rows)[k := Filled(row, incoming, FILL_ORDER[..i])]
      {
        var c := FILL_ORDER[i];
        FilledNext(row, incoming, i);
        if c in rows[k] && rows[k][c] == Null && AsStr(Get(incoming, c)).Some? {
          rows := rows[k := rows[k][c := incoming[c]]];
        }
      }
      assert FILL_ORDER[..|FILL_ORDER|] == FILL_ORDER;
      FilledAll(row, incoming);
      FillBookMeans(row, incoming);
    }

    /** The non-transactional core of every local write. */
    method StageWriteInner(k: Key, partial: Row, at: int) returns (ok: bool)
      requires Valid() && Addresses(k, partial)
      modifies this`rows, this`outbox, this`nextId
      ensures Valid()
      ensures ok <==> StageWrite(old(View()), k, partial, at).Some?
      ensures View() == if ok then StageWrite(old(View()), k, partial, at).value else old(View())
      ensures ok ==> StagedCells(old(View()), View(), k, partial)
    {
      hide StagedCells;
      if StageWrite(View(), k, partial, at).Some? {
        StageStoresCells(View(), k, partial, at);
      }
      hide Clamp, StampOr0, Project, IdsIncrease, Synced;
      if !Synced(k.table) {
        return false;
      }
      var existing := if k in rows then rows[k] else map[];
      var clamped := ClampStamp(StampOr0(existing), partial);
      if clamped.None? {
        return false;
      }
      IdsPush(outbox, nextId, Entry(nextId, k.table, Some(k.id), Object(clamped.value), at));
      rows := rows[k := Project(k.table, existing + clamped.value)];
      outbox := outbox + [Entry(nextId, k.table, Some(k.id), Object(clamped.value), at)];
      nextId := nextId + 1;
      ok := true;
    }

    method StageLocalWrite(k: Key, partial: Row, at: int) returns (ok: bool)
      requires Valid() && Addresses(k, partial)
      modifies this`rows, this`outbox, this`nextId
      ensures Valid()
      ensures ok <==> StageWrite(old(View()), k, partial, at).Some?
      ensures View() == if ok then StageWrite(old(View()), k, partial, at).value else old(View())
    {
      hide StagedCells;
      ok := StageWriteInner(k, partial, at);
    }

    /** Drop the queued tombstones and stage the resurrection, both or neither. */
    method StageLocalWriteResurrecting(k: Key, partial: Row, at: int) returns (ok: bool)
      requires Valid() && Addresses(k, partial)
      modifies this`rows, this`outbox, this`nextId
      ensures Valid()
      ensures ok <==> StageWrite(DropPendingDeletes(old(View()), k), k, partial, at).Some?
      ensures View() == if ok then StageWrite(DropPendingDeletes(old(View()), k), k, partial, at).value
                        else old(View())
    {
      hide StagedCells;
      var saved := outbox;
      var _ := DropPendingDeletesInner(k);
      ok := StageWriteInner(k, partial, at);
      if !ok {
        outbox := saved;
      }
    }

    /** Stage a batch of writes as one transaction: all of them or none. */
    method StageLocalWrites(ws: seq<Write>, at: int) returns (ok: bool)
      requires Valid() && forall w :: w in ws ==> Addresses(w.key, w.row)
      modifies this`rows, this`outbox, this`nextId
      ensures Valid()
      ensures ok <==> StageAll(old(View()), ws, at).Some?
      ensures View() == if ok then StageAll(old(View()), ws, at).value else old(View())
    {
      hide StagedCells, StageWrite, Filter;
      var saved := (rows, outbox, nextId);
      for i := 0 to |ws|
        invariant Valid()
        invariant cursors == old(cursors) && receipts == old(receipts) && remap == old(remap)
        invariant StageAll(old(View()), ws[..i], at) == Some(View())
      {
        assert ws[..i + 1][..i] == ws[..i] && ws[i] in ws;
        ghost var before := View();
        if Get(ws[i].row, Deleted) != Some(Bool(true)) {
          var _ := DropPendingDeletesInner(ws[i].key);
        }
        ok := StageWriteInner(ws[i].key, ws[i].row, at);
        assert StageAll(old(View()), ws[..i + 1], at) == StageReviving(before, ws[i], at);
        if !ok {
          StageAllFails(old(View()), ws, at, i + 1);
          rows, outbox, nextId := saved.0, saved.1, saved.2;
          return;
        }
      }
      assert ws[..|ws|] == ws;
      ok := true;
    }

    /** Stage a patch and its companions only while the target exists and is live. */
    method StageLocalWriteExistingLive(k: Key, partial: Row, extras: seq<Write>, at: int)
      returns (result: StageResult)
      requires Valid() && Addresses(k, partial) && forall w :: w in extras ==> Addresses(w.key, w.row)
      modifies this`rows, this`outbox, this`nextId
      ensures Valid()
      ensures result == TargetMissing <==>
              Synced(k.table) && (k !in old(rows) || Get(old(rows)[k], Deleted) == Some(Bool(true)))
      ensures result.Staged? <==>
              && k in old(rows) && Get(old(rows)[k], Deleted) != Some(Bool(true)) && StageWrite(old(View()), k, partial, at).Some?
              && StageAll(StageWrite(old(View()), k, partial, at).value, extras, at).Some?
      ensures result.Staged? ==> StageAll(StageWrite(old(View()), k, partial, at).value, extras, at) == Some(View())
      ensures !result.Staged? ==> View() == old(View())
    {
      hide StagedCells, Clamp, Project, StageAll, Columns, IdsIncrease;
      if !Synced(k.table) {
        return StorageFailed;
      }
      if k !in rows || Get(rows[k], Deleted) == Some(Bool(true)) {
        return TargetMissing;
      }
      var saved := (rows, outbox, nextId);
      var ok := StageWriteInner(k, partial, at);
      if ok {
        ok := StageLocalWrites(extras, at);
      }
      if !ok {
        rows, outbox, nextId := saved.0, saved.1, saved.2;
        return StorageFailed;
      }
      result := Staged;
    }

    method StageImportBatch(ws: seq<Write>, batch: int)
      requires Valid() && forall w :: w in ws ==> Synced(w.key.table) && Addresses(w.key, w.row)
      modifies this`rows, this`outbox, this`nextId
      ensures Valid()
      ensures View() == ImportAll(old(View()), ws, batch)
    {
      hide Project, Filter, ImportAll;
      ImportAllNil(old(View()), batch);
      for i := 0 to |ws|
        invariant Valid()
        invariant cursors == old(cursors) && receipts == old(receipts) && remap == old(remap)
        invariant View() == ImportAll(old(View()), ws[..i], batch)
      {
        ImportAllPush(old(View()), ws, i, batch);
        ghost var before := View();
        var w := ws[i];
        var _ := DropPendingDeletesInner(w.key);
        rows := rows[w.key := Project(w.key.table, w.row)];
        outbox := outbox + [Entry(nextId, w.key.table, Some(w.key.id), Object(w.row), batch)];
        nextId := nextId + 1;
        assert View() == ImportWrite(before, w, batch);
      }
      assert ws[..|ws|] == ws;
    }

    method SetSeqCursor(t: Table, seq_: int)
      requires Valid()
      modifies this`cursors
      ensures View() == old(View()).(cursors := old(cursors)[t := seq_])
    {
      cursors := cursors[t := seq_];
    }

    method MarkPullComplete(t: Table)
      requires Valid()
      modifies this`receipts
      ensures View() == old(View()).(receipts := old(receipts) + {t})
    {
      receipts := receipts + {t};
    }
  }

  // ── Deleting by id ─────────────────────────────────────────────────────────

  lemma FilterNil(p: Entry -> bool)
    ensures Filter(p, []) == []
  {
  }

  lemma ImportAllNil(r: Replica, batch: int)
    ensures ImportAll(r, [], batch) == r
  {
  }

  lemma ImportAllPush(r: Replica, ws: seq<Write>, i: nat, batch: int)
    requires i < |ws|
    ensures ImportAll(r, ws[..i + 1], batch) == ImportWrite(ImportAll(r, ws[..i], batch), ws[i], batch)
  {
    assert ws[..i + 1][..i] == ws[..i];
  }

  /** A queued write of the record, stamped at or before the incoming stamp. */
  predicate StampedBy(e: Entry, k: Key, incoming: int) {
    && IsFor(e, k) && e.payload.Object? && UpdatedAt in e.payload.fields && e.payload.fields[UpdatedAt].Int?
    && I64_MIN <= e.payload.fields[UpdatedAt].n <= I64_MAX && e.payload.fields[UpdatedAt].n <= incoming
  }

  ghost predicate IdsIncrease(s: seq<Entry>, next: nat) {
    (forall i, j :: 0 <= i < j < |s| ==> s[i].id < s[j].id) &&
    (forall i :: 0 <= i < |s| ==> s[i].id < next)
  }

  /** Only null book columns changed, each to the incoming string where there is one. */
  ghost predicate OnlyNullsFilled(row: Row, row': Row, incoming: Row) {
    && row'.Keys == row.Keys && Stamp(row') == Stamp(row) && Get(row', Deleted) == Get(row, Deleted)
    && (forall c :: c in row && (row[c] != Null || c !in BOOK_FILLABLE) ==> row'[c] == row[c])
    && (forall c :: c in row && row[c] == Null && c in BOOK_FILLABLE ==>
          row'[c] == if AsStr(Get(incoming, c)).Some? then incoming[c] else Null)
  }

  lemma FillBookMeans(row: Row, incoming: Row)
    ensures OnlyNullsFilled(row, FillBook(row, incoming), incoming)
  {
  }

  const FILL_ORDER: seq<Column> := [Status, Kind, Url]

  /** A book after the given columns were filled. */
  function Filled(row: Row, incoming: Row, columns: seq<Column>): Row {
    map c | c in row :: if c in columns && row[c] == Null && AsStr(Get(incoming, c)).Some? then incoming[c] else row[c]
  }

  lemma FilledNone(row: Row, incoming: Row)
    ensures Filled(row, incoming, FILL_ORDER[..0]) == row
  {
  }

  lemma FilledNext(row: Row, incoming: Row, i: nat)
    requires i < |FILL_ORDER|
    ensures var was, c := Filled(row, incoming, FILL_ORDER[..i]), FILL_ORDER[i];
      Filled(row, incoming, FILL_ORDER[..i + 1]) ==
      if c in was && was[c] == Null && AsStr(Get(incoming, c)).Some? then was[c := incoming[c]] else was
  {
    var front, c := FILL_ORDER[..i], FILL_ORDER[i];
    assert FILL_ORDER[..i + 1] == front + [c] && c !in front;
  }

  lemma FilledAll(row: Row, incoming: Row)
    ensures Filled(row, incoming, FILL_ORDER) == FillBook(row, incoming)
  {
    forall c ensures c in FILL_ORDER <==> c in BOOK_FILLABLE {
    }
  }

  lemma IdsPush(s: seq<Entry>, next: nat, e: Entry)
    requires IdsIncrease(s, next) && e.id == next
    ensures IdsIncrease(s + [e], next + 1)
  {
  }

  /** Raise a claimed stamp above the stored one; refuse at the top of the range. */
  method ClampStamp(stored: int, partial: Row) returns (clamped: Option<Row>)
    ensures clamped == Clamp(stored, partial)
    ensures clamped.Some? && Stamp(partial).Some? && I64_MIN <= stored ==>
      Stamp(clamped.value).Some? && stored < Stamp(clamped.value).value && Stamp(partial).value <= Stamp(clamped.value).value
  {
    var stamp := Stamp(partial);
    if stamp.None? {
      return Some(partial);
    }
    if stored >= I64_MAX {
      return None;
    }
    var floor := stored + 1;
    if stamp.value < floor {
      return Some(partial[UpdatedAt := Int(floor)]);
    }
    assert partial == partial[UpdatedAt := Int(stamp.value)];
    return Some(partial);
  }

  function IdIn(ids: seq<nat>): Entry -> bool {
    (e: Entry) => e.id in ids
  }

  function RemoveId(s: seq<Entry>, id: nat): seq<Entry> {
    Filter(Not(IdIn([id])), s)
  }

  lemma RemoveIds(s: seq<Entry>, ids: seq<nat>, i: nat)
    requires i < |ids|
    ensures RemoveId(Filter(Not(IdIn(ids[..i])), s), ids[i]) == Filter(Not(IdIn(ids[..i + 1])), s)
  {
    var p, q := Not(IdIn([ids[i]])), Not(IdIn(ids[..i]));
    FilterTwice(p, q, s);
    FilterCongruent(x => q(x) && p(x), Not(IdIn(ids[..i + 1])), s);
  }

  lemma FilterKeepsIds(p: Entry -> bool, s: seq<Entry>, next: nat)
    requires IdsIncrease(s, next)
    ensures IdsIncrease(Filter(p, s), next)
  {
    FilterPairwise((a: Entry, b: Entry) => a.id < b.id, p, s);
    FilterMembers(p, s);
    forall i | 0 <= i < |Filter(p, s)| ensures Filter(p, s)[i].id < next {
      assert Filter(p, s)[i] in s;
    }
  }

  /** One turn of the deletion loop: the entry at i goes if it matches, and nothing else does. */
  lemma DeleteStep(victim: Entry -> bool, s: seq<Entry>, next: nat, i: nat)
    requires IdsIncrease(s, next) && i < |s|
    ensures Filter(victim, s[..i + 1]) == Filter(victim, s[..i]) + (if victim(s[i]) then [s[i]] else [])
    ensures Filter(Not(victim), s[..i + 1]) + s[i + 1..] ==
            if victim(s[i]) then RemoveId(Filter(Not(victim), s[..i]) + s[i..], s[i].id)
            else Filter(Not(victim), s[..i]) + s[i..]
  {
    var a, x, b := Filter(Not(victim), s[..i]), s[i], s[i + 1..];
    assert s[..i + 1] == s[..i] + [x];
    FilterPush(victim, s[..i], x);
    FilterPush(Not(victim), s[..i], x);
    assert a + s[i..] == (a + [x]) + b;
    if victim(x) {
      var p := Not(IdIn([x.id]));
      FilterMembers(Not(victim), s[..i]);
      FilterAppend(p, a + [x], b);
      FilterPush(p, a, x);
      FilterAll(p, a);
      FilterAll(p, b);
    }
  }

  /** A batch whose prefix fails, fails. */
  lemma {:induction false} StageAllFails(r: Replica, ws: seq<Write>, at: int, n: nat)
    requires n <= |ws| && StageAll(r, ws[..n], at).None?
    ensures StageAll(r, ws, at).None?
    decreases |ws|
  {
    if n < |ws| {
      var front := ws[..|ws| - 1];
      assert front[..n] == ws[..n];
      StageAllFails(r, front, at, n);
    } else {
      assert ws[..n] == ws;
    }
  }
}
