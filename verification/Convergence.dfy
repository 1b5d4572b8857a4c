/** What every run of the fleet guarantees, and where quiescent devices end up. */
module ConvergenceModel {
  import opened Data
  import opened Seqs
  import opened ReplicaModel
  import opened OutboxModel
  import opened FleetModel
  import opened TimedModel
  import Push = PushModel
  import Pull = PullModel

  /** A sequence of states, each following from the one before by an enabled step. */
  ghost predicate IsPath(states: seq<Fleet>, steps: seq<Step>) {
    && |states| == |steps| + 1
    && forall i :: 0 <= i < |steps| ==> Enabled(states[i], steps[i]) && states[i + 1] == Do(states[i], steps[i])
  }

  /** A run: a path from an initial state. */
  ghost predicate IsRun(states: seq<Fleet>, steps: seq<Step>) {
    IsPath(states, steps) && Init(states[0])
  }

  /** A run in which the local writes of one record are queued in time order. */
  ghost predicate IsTimedFor(states: seq<Fleet>, steps: seq<Step>, z: Key) {
    IsRun(states, steps) && forall i :: 0 <= i < |steps| ==> PunctualFor(states[i], steps[i], z)
  }

  /** A run in which those of every record are. */
  ghost predicate IsTimedRun(states: seq<Fleet>, steps: seq<Step>) {
    IsRun(states, steps) && forall i :: 0 <= i < |steps| ==> Punctual(states[i], steps[i])
  }

  lemma {:induction false} RunKeepsInv(states: seq<Fleet>, steps: seq<Step>, i: nat)
    requires IsRun(states, steps) && i < |states|
    ensures Inv(states[i])
  {
    hide Inv, Init, Enabled, Do;
    if i == 0 {
      InitOk(states[0]);
    } else {
      RunKeepsInv(states, steps, i - 1);
      StepKeepsInv(states[i - 1], steps[i - 1]);
    }
  }

  lemma TimedForEach(states: seq<Fleet>, steps: seq<Step>, z: Key)
    requires IsTimedRun(states, steps)
    ensures IsTimedFor(states, steps, z)
  {
    hide Init, Enabled, Do, Punctual;
  }

  lemma {:induction false} RunKeepsTimed(states: seq<Fleet>, steps: seq<Step>, i: nat, z: Key)
    requires IsTimedFor(states, steps, z) && i < |states|
    ensures Timed(states[i], z)
  {
    hide Inv, Init, Enabled, Do, Timed, PunctualFor;
    if i == 0 {
      InitTimed(states[0], z);
    } else {
      RunKeepsTimed(states, steps, i - 1, z);
      RunKeepsInv(states, steps, i - 1);
      StepKeepsTimed(states[i - 1], steps[i - 1], z);
    }
  }

  /** In every reachable state, for every device and whatever the enqueue times: a server row numbered
      at or below the cursor is no newer than the local copy, unless it is a tombstone the device
      skipped; the queued stamps of a record strictly increase and the last one is the local row's. */
  lemma FleetInvariant(states: seq<Fleet>, steps: seq<Step>, i: nat, d: nat)
    requires IsRun(states, steps) && i < |states| && d in states[i].devices
    ensures var s, v := states[i].server, states[i].devices[d];
      && (forall k :: k in s.rows && s.rows[k].number <= Pull.CursorOf(v.replica, k.table) ==>
            (k in v.replica.rows && ServerStamp(s, k) <= LocalStamp(v.replica, k)) || (k in v.skipped && IsTombstone(s.rows[k])))
      && (forall k :: QueueStampsRise(v.replica, k))
  {
    RunKeepsInv(states, steps, i);
    var s, v := states[i].server, states[i].devices[d];
    hide Init, Enabled, Do, QueueOk, IsTombstone, StampOr0, PageOk, AckedOk;
    assert DeviceOk(s, v);
    forall k ensures QueueStampsRise(v.replica, k) {
      StampsRise(v.replica, k);
    }
  }

  /** In every reachable state, if the record's writes are queued in time order, a local row newer than
      the server's has a queued write carrying its stamp. */
  lemma NewerRowsAreQueued(states: seq<Fleet>, steps: seq<Step>, i: nat, d: nat, k: Key)
    requires IsTimedFor(states, steps, k) && i < |states| && d in states[i].devices
    ensures var s, r := states[i].server, states[i].devices[d].replica;
      k in r.rows && !(k in s.rows && LocalStamp(r, k) <= ServerStamp(s, k)) ==>
        exists e :: e in r.outbox && IsFor(e, k) && StampOf(e) == LocalStamp(r, k)
  {
    RunKeepsTimed(states, steps, i, k);
    hide IsTimedFor, StampOr0, OnServer, Timely, StampOf;
    assert Upheld(states[i].server, states[i].devices[d], k);
  }

  /** The queue of one record, oldest first. */
  function QueueOf(r: Replica, k: Key): seq<Entry> {
    Filter(For(k), r.outbox)
  }

  ghost predicate QueueStampsRise(r: Replica, k: Key) {
    var q := QueueOf(r, k);
    && (forall i, j :: 0 <= i < j < |q| ==> StampOf(q[i]) < StampOf(q[j]))
    && (q != [] ==> k in r.rows && StampOf(q[|q| - 1]) == LocalStamp(r, k))
  }

  lemma QueueIsGroup(r: Replica, k: Key)
    requires QueueOk(r)
    ensures QueueOf(r, k) == Filter(InGroup(k), r.outbox)
  {
    hide GroupKey, CarriesRowStamp, Filter;
    forall e | e in r.outbox ensures For(k)(e) == InGroup(k)(e) {
      assert Backed(r, e);
      GroupKeyOf(e, k);
    }
    FilterCongruent(For(k), InGroup(k), r.outbox);
  }

  lemma StampsRise(r: Replica, k: Key)
    requires QueueOk(r)
    ensures QueueStampsRise(r, k)
  {
    hide Filter, Backed, CarriesRowStamp, StampOr0, GroupKey, QueueOf;
    var q := QueueOf(r, k);
    QueueIsGroup(r, k);
    GroupIsQueue(r, k);
    if q != [] {
      assert q[0] in q;
      NewestQueued(r, k);
    }
  }

  /** A pull win over a record drops every queued write of that record and no other, keeps the rest
      in order, and reports the stamp of the row it replaced. */
  lemma PullWinDropsTheRecord(r: Replica, t: Table, w: Wire)
    requires QueueOk(r) && Decide(r, t, w) == Apply
    ensures var k := Key(t, WireId(t, w).value);
      && MergeRow(r, t, w).outbox == Filter(Not(For(k)), r.outbox)
      && (QueueOf(r, k) == [] ==> Pull.Report(r, k, StampOr0(w.fields)) == [])
      && (QueueOf(r, k) != [] ==>
            k in r.rows && Pull.Report(r, k, StampOr0(w.fields)) == [Pull.Superseded(k, LocalStamp(r, k), StampOr0(w.fields))])
  {
    hide Filter, GroupKey, QueueOk, StampOr0;
    var k, incoming := Key(t, WireId(t, w).value), StampOr0(w.fields);
    RebaseDropsAll(r, k, incoming);
    FilterCongruent(Stale(k, incoming), For(k), r.outbox);
    StampsRise(r, k);
    AllStamped(r, k);
    NewestOfRising(QueueOf(r, k));
  }

  lemma AllStamped(r: Replica, k: Key)
    requires QueueOk(r)
    ensures forall e :: e in QueueOf(r, k) ==> EntryStamp(e).Some?
  {
    hide CarriesRowStamp;
    FilterMembers(For(k), r.outbox);
    assert forall e :: e in r.outbox ==> Backed(r, e);
  }

  lemma {:induction false} NewestOfRising(q: seq<Entry>)
    requires forall i, j :: 0 <= i < j < |q| ==> StampOf(q[i]) < StampOf(q[j])
    requires forall e :: e in q ==> EntryStamp(e).Some?
    ensures Pull.NewestStamp(q) == if q == [] then None else Some(StampOf(q[|q| - 1]))
  {
    if q != [] {
      NewestOfRising(q[..|q| - 1]);
    }
  }

  // ── Quiescence ─────────────────────────────────────────────────────────────

  /** Nothing queued anywhere, and every cursor past every server row. */
  ghost predicate Quiescent(f: Fleet) {
    forall d :: d in f.devices ==>
      && f.devices[d].replica.outbox == []
      && forall k :: k in f.server.rows ==> f.server.rows[k].number <= Pull.CursorOf(f.devices[d].replica, k.table)
  }

  /** The device created the record itself after skipping its tombstone. */
  predicate CreatedOverTombstone(v: Device, k: Key) {
    k in v.replica.rows && k in v.skipped
  }

  /** Nothing of the record is queued on the device, and its cursor is past the record's server row. */
  ghost predicate QuietFor(f: Fleet, d: nat, k: Key)
    requires d in f.devices
  {
    && QueueOf(f.devices[d].replica, k) == []
    && (k in f.server.rows ==> f.server.rows[k].number <= Pull.CursorOf(f.devices[d].replica, k.table))
  }

  /** Where a device stands with a record: at the server's stamp, or lacking what is deleted there. A
      record created locally over a skipped tombstone can only be older. */
  ghost predicate StampsAgree(f: Fleet, d: nat, k: Key)
    requires d in f.devices
  {
    var s, v := f.server, f.devices[d];
    && (k in v.replica.rows && !CreatedOverTombstone(v, k) ==> k in s.rows && LocalStamp(v.replica, k) == ServerStamp(s, k))
    && (CreatedOverTombstone(v, k) ==> k in s.rows && LocalStamp(v.replica, k) <= ServerStamp(s, k))
    && (k in s.rows && k !in v.replica.rows ==> IsTombstone(s.rows[k]))
  }

  /** One record on one device: if its writes are queued in time order, whatever else happens in the
      fleet, then whenever the device is quiet for it they agree. */
  lemma RecordConvergence(states: seq<Fleet>, steps: seq<Step>, i: nat, d: nat, k: Key)
    requires IsTimedFor(states, steps, k) && i < |states| && d in states[i].devices && QuietFor(states[i], d, k)
    ensures StampsAgree(states[i], d, k)
  {
    hide Inv, Timed, QuietFor, StampsAgree;
    RunKeepsInv(states, steps, i);
    RunKeepsTimed(states, steps, i, k);
    hide IsTimedFor;
    QuietStamps(states[i], d, k);
  }

  lemma QuietStamps(f: Fleet, d: nat, k: Key)
    requires Inv(f) && Timed(f, k) && d in f.devices && QuietFor(f, d, k)
    ensures StampsAgree(f, d, k)
  {
    var r := f.devices[d].replica;
    FilterMembers(For(k), r.outbox);
    hide QueueOk, IsTombstone, PageOk, AckedOk, StampOr0, Timely, OnServer, Filter, StampOf;
    assert DeviceOk(f.server, f.devices[d]) && Upheld(f.server, f.devices[d], k);
  }

  /** In every timed run, once quiet, every device holds every record at the server's stamp, and what it
      lacks is deleted on the server. */
  lemma QuiescentConvergence(states: seq<Fleet>, steps: seq<Step>, i: nat, d: nat, k: Key)
    requires IsTimedRun(states, steps) && i < |states| && Quiescent(states[i]) && d in states[i].devices
    ensures StampsAgree(states[i], d, k)
  {
    hide StampsAgree;
    TimedForEach(states, steps, k);
    hide IsTimedRun, IsTimedFor;
    RecordConvergence(states, steps, i, d, k);
  }

  // ── What a flush inserts ───────────────────────────────────────────────────

  /** A dispatch never creates a hollow row: what it inserts carries the table's insert columns. */
  lemma DispatchInserts(f: Fleet, step: Step, k: Key)
    requires step.Dispatch? && Enabled(f, step) && k !in f.server.rows && k in Do(f, step).server.rows
    ensures Push.Insertable(k.table, Do(f, step).server.rows[k].fields)
  {
    var payload := Sends(f.devices[step.d].replica, step.key, step.before, step.after);
    Push.SparseMeans(step.key.table, payload);
    hide Sends, Push.Sparse, Push.Insertable;
    assert map[] + payload == payload;
  }

  /** A write by someone else that inserts the record inserts a complete row. */
  ghost predicate OthersComplete(f: Fleet, step: Step, k: Key) {
    step.Foreign? && step.key == k && k !in f.server.rows ==> Push.Insertable(k.table, step.payload)
  }

  ghost predicate CompleteAt(s: Server, k: Key) {
    k in s.rows ==> Push.Insertable(k.table, s.rows[k].fields)
  }

  lemma MoreIsInsertable(t: Table, row: Row, more: Row)
    requires Push.Insertable(t, row)
    ensures Push.Insertable(t, row + more)
  {
  }

  lemma StepKeepsComplete(f: Fleet, step: Step, k: Key)
    requires Enabled(f, step) && OthersComplete(f, step, k) && CompleteAt(f.server, k)
    ensures CompleteAt(Do(f, step).server, k)
  {
    hide StageStep, ImportWrite, MergeStep, AdvanceStep, ClearStep, IsPage, Sends, Push.Insertable, Push.Sparse;
    if k in f.server.rows {
      if step.Dispatch? {
        MoreIsInsertable(k.table, f.server.rows[k].fields, Sends(f.devices[step.d].replica, step.key, step.before, step.after));
      } else if step.Foreign? {
        MoreIsInsertable(k.table, f.server.rows[k].fields, step.payload);
      }
    } else if step.Dispatch? && k in Do(f, step).server.rows {
      DispatchInserts(f, step, k);
    } else if step.Foreign? {
      assert map[] + step.payload == step.payload;
    }
  }

  /** Hence over every run a record's server row carries the table's insert columns, as long as other
      writers insert complete rows. */
  lemma {:induction false} NoHollowRows(states: seq<Fleet>, steps: seq<Step>, i: nat, k: Key)
    requires IsRun(states, steps) && i < |states| && forall j :: 0 <= j < |steps| ==> OthersComplete(states[j], steps[j], k)
    ensures k in states[i].server.rows ==> Push.Insertable(k.table, states[i].server.rows[k].fields)
  {
    hide Enabled, Do, OthersComplete, Push.Insertable;
    if i > 0 {
      NoHollowRows(states, steps, i - 1, k);
      StepKeepsComplete(states[i - 1], steps[i - 1], k);
    }
  }
}
