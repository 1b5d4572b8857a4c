/** What the order of enqueue times adds, record by record: runs in which no write of the record is
    queued earlier than its queued writes. A flush then sends the row's own stamp, and a row newer than
    the server's is queued. */
module TimedModel {
  import opened Data
  import opened Seqs
  import opened ReplicaModel
  import opened OutboxModel
  import opened FleetModel
  import Push = PushModel
  import Pull = PullModel

  /** The record's queued writes are no later than a time. */
  ghost predicate QueuedBy(r: Replica, k: Key, at: int) {
    forall e :: e in r.outbox && IsFor(e, k) ==> e.at <= at
  }

  /** A local write is queued no earlier than the record's queued writes. */
  ghost predicate Punctual(f: Fleet, step: Step)
    requires Enabled(f, step)
  {
    match step
    case Stage(d, k, _, at, _) => QueuedBy(f.devices[d].replica, k, at)
    case ImportOne(d, w, batch) => QueuedBy(f.devices[d].replica, w.key, batch)
    case _ => true
  }

  /** Asked of the writes to one record only. */
  ghost predicate PunctualFor(f: Fleet, step: Step, z: Key)
    requires Enabled(f, step)
  {
    WritesTo(step, z) ==> Punctual(f, step)
  }

  /** The step is a local write to the record. */
  predicate WritesTo(step: Step, z: Key) {
    (step.Stage? && step.key == z) || (step.ImportOne? && step.write.key == z)
  }

  predicate InTime(z: Key, a: Entry, b: Entry) {
    IsFor(a, z) && IsFor(b, z) ==> a.at <= b.at
  }

  function TimeOrder(z: Key): (Entry, Entry) -> bool {
    (a, b) => InTime(z, a, b)
  }

  /** The record's enqueue times follow the outbox order. */
  ghost predicate Timely(q: seq<Entry>, z: Key) {
    forall i, j :: 0 <= i < j < |q| ==> InTime(z, q[i], q[j])
  }

  /** The record's acknowledged entries have reached the server. */
  ghost predicate OnServer(s: Server, v: Device, z: Key) {
    forall e :: e in v.replica.outbox && IsFor(e, z) && e.id in v.acked ==> z in s.rows && StampOf(e) <= ServerStamp(s, z)
  }

  /** The local row is no newer than the server's, or its stamp is queued. */
  ghost predicate NewerIsQueued(s: Server, r: Replica, z: Key) {
    z in r.rows ==> (z in s.rows && LocalStamp(r, z) <= ServerStamp(s, z)) || CarriesRowStamp(r, z)
  }

  ghost predicate Upheld(s: Server, v: Device, z: Key) {
    Timely(v.replica.outbox, z) && OnServer(s, v, z) && NewerIsQueued(s, v.replica, z)
  }

  ghost predicate Timed(f: Fleet, z: Key) {
    forall d :: d in f.devices ==> Upheld(f.server, f.devices[d], z)
  }

  lemma InitTimed(f: Fleet, z: Key)
    requires Init(f)
    ensures Timed(f, z)
  {
  }

  // ── What a flush sends ─────────────────────────────────────────────────────

  lemma GroupTimely(r: Replica, k: Key)
    requires QueueOk(r) && Timely(r.outbox, k)
    ensures TimeOrdered(Filter(InGroup(k), r.outbox))
  {
    hide Filter, GroupKey, Backed, Follows;
    var g := Filter(InGroup(k), r.outbox);
    GroupIsQueue(r, k);
    FilterPairwise(TimeOrder(k), InGroup(k), r.outbox);
    forall i, j | 0 <= i < j < |g| ensures g[i].at <= g[j].at {
      assert g[i] in g && g[j] in g && TimeOrder(k)(g[i], g[j]);
    }
  }

  /** In a timely queue a flush sends the local row's own stamp, whatever the remaps. */
  lemma SendsRowStamp(r: Replica, k: Key, before: map<string, string>, after: map<string, string>)
    requires QueueOk(r) && Timely(r.outbox, k) && exists e :: e in r.outbox && IsFor(e, k)
    ensures k in r.rows && Synced(k.table) && Stamp(Sends(r, k, before, after)) == Some(LocalStamp(r, k))
  {
    NewestQueued(r, k);
    GroupTimely(r, k);
    hide Filter, QueueOk, GroupKey, TimeOrdered, StampOr0, LocalStamp, Timely;
    var g := Filter(InGroup(k), r.outbox);
    SortOfOrdered(g);
    assert LastIn(g, UpdatedAt, |g| - 1);
    FoldField(g, UpdatedAt, |g| - 1);
    KeepsStamp(k.table, Fold(g), before, after);
  }

  // ── Every step ─────────────────────────────────────────────────────────────

  lemma UpheldGrows(s: Server, s': Server, v: Device, z: Key)
    requires Upheld(s, v, z) && Grows(s, s')
    ensures Upheld(s', v, z)
  {
    hide CarriesRowStamp, StampOr0, StampOf, Timely;
  }

  lemma KeptTimely(p: Entry -> bool, q: seq<Entry>, z: Key)
    requires Timely(q, z)
    ensures Timely(Filter(p, q), z)
  {
    FilterPairwise(TimeOrder(z), p, q);
    forall i, j | 0 <= i < j < |Filter(p, q)| ensures InTime(z, Filter(p, q)[i], Filter(p, q)[j]) {
      assert TimeOrder(z)(Filter(p, q)[i], Filter(p, q)[j]);
    }
  }

  lemma WroteTimely(r: Replica, r': Replica, k: Key, kept: seq<Entry>, e: Entry, z: Key)
    requires Wrote(r, r', k, kept, e) && Timely(kept, z) && (k == z ==> QueuedBy(r, k, e.at))
    ensures Timely(r'.outbox, z)
  {
    hide StampOf, StampOr0, Stamp, Synced, QueueOrdered;
    forall i | 0 <= i < |kept| ensures InTime(z, kept[i], e) {
      assert kept[i] in kept;
    }
  }

  lemma WroteOnServer(s: Server, v: Device, v': Device, k: Key, kept: seq<Entry>, e: Entry, z: Key)
    requires OnServer(s, v, z) && AckedOk(v) && Wrote(v.replica, v'.replica, k, kept, e) && v' == v.(replica := v'.replica)
    ensures OnServer(s, v', z)
  {
    hide IsFor, StampOf, StampOr0, Stamp, Synced, QueueOrdered;
    assert e.id !in v.acked;
    assert forall x :: x in v'.replica.outbox <==> x in kept || x == e;
  }

  lemma WroteNewerIsQueued(s: Server, r: Replica, r': Replica, k: Key, kept: seq<Entry>, e: Entry, z: Key)
    requires NewerIsQueued(s, r, z) && Wrote(r, r', k, kept, e)
    ensures NewerIsQueued(s, r', z)
  {
    hide Synced;
    if z == k {
      SameStamps(e, r'.rows[k]);
      assert r'.outbox[|kept|] == e;
    } else if z in r'.rows && CarriesRowStamp(r, z) {
      OthersKeepStamp(r, r', k, kept, e, z);
    }
  }

  lemma WroteUpheld(s: Server, v: Device, v': Device, k: Key, kept: seq<Entry>, e: Entry, z: Key)
    requires DeviceOk(s, v) && Upheld(s, v, z) && Wrote(v.replica, v'.replica, k, kept, e) && v' == v.(replica := v'.replica)
    requires Timely(kept, z) && (k == z ==> QueuedBy(v.replica, k, e.at))
    ensures Upheld(s, v', z)
  {
    hide QueueOk, AckedOk, Covered, PageOk, Wrote, Timely, OnServer, NewerIsQueued, QueuedBy;
    WroteTimely(v.replica, v'.replica, k, kept, e, z);
    WroteOnServer(s, v, v', k, kept, e, z);
    WroteNewerIsQueued(s, v.replica, v'.replica, k, kept, e, z);
  }

  lemma StageUpheld(s: Server, v: Device, k: Key, partial: Row, at: int, revive: bool, z: Key)
    requires DeviceOk(s, v) && Upheld(s, v, z) && Synced(k.table) && Stamp(partial).Some? && (k == z ==> QueuedBy(v.replica, k, at))
    ensures Upheld(s, StageStep(v, k, partial, at, revive), z)
  {
    hide DeviceOk, Upheld, Project, Filter, Wrote, Timely, QueuedBy;
    var r := v.replica;
    var p := Clamp(StampOr0(Existing(r, k)), partial);
    if p.Some? {
      StageWrote(s, v, k, partial, at, revive, p.value);
      UpheldTimely(s, v, z);
      KeptTimely(Not(PendingDelete(k)), r.outbox, z);
      WroteUpheld(s, v, StageStep(v, k, partial, at, revive), k, (if revive then DropPendingDeletes(r, k) else r).outbox,
                  Entry(r.nextId, k.table, Some(k.id), Object(p.value), at), z);
    }
  }

  lemma UpheldTimely(s: Server, v: Device, z: Key)
    requires Upheld(s, v, z)
    ensures Timely(v.replica.outbox, z)
  {
  }

  lemma ImportUpheld(s: Server, v: Device, w: Write, batch: int, z: Key)
    requires DeviceOk(s, v) && Upheld(s, v, z) && Synced(w.key.table) && Stamp(w.row).Some?
    requires Stamp(w.row).value > StampOr0(Existing(v.replica, w.key)) && (w.key == z ==> QueuedBy(v.replica, w.key, batch))
    ensures Upheld(s, v.(replica := ImportWrite(v.replica, w, batch)), z)
  {
    hide DeviceOk, Upheld, Project, Filter, Wrote, Timely, QueuedBy;
    var r, k := v.replica, w.key;
    ImportWrote(s, v, w, batch);
    UpheldTimely(s, v, z);
    KeptTimely(Not(PendingDelete(k)), r.outbox, z);
    WroteUpheld(s, v, v.(replica := ImportWrite(r, w, batch)), k, DropPendingDeletes(r, k).outbox,
                Entry(r.nextId, k.table, Some(k.id), Object(w.row), batch), z);
  }

  lemma MergeUpheld(s: Server, v: Device, z: Key)
    requires ServerOk(s) && DeviceOk(s, v) && Upheld(s, v, z) && v.page.Some? && v.page.value.done < |v.page.value.rows|
    ensures Upheld(s, MergeStep(v), z)
  {
    var p := v.page.value;
    var x := p.rows[p.done];
    var v', w := MergeStep(v), WireOf(x.key, x.row);
    InFlightFacts(s, p.table, Pull.CursorOf(v.replica, p.table), x);
    WireFacts(x.key, x.row);
    DeviceQueueOk(s, v);
    assert x.key == Key(p.table, x.key.id);
    hide DeviceOk, QueueOk, ServerOk, Rebase, FillBook, WireOf, StampOr0, Upheld;
    match Decide(v.replica, p.table, w)
    case Apply => ApplyUpheld(s, v, v', x, z);
    case KeepLocal => KeepUpheld(s, v, v', x, z);
    case SkipTombstone => SameUpheld(s, v, v', z);
    case Ignore =>
  }

  lemma SameUpheld(s: Server, v: Device, v': Device, z: Key)
    requires Upheld(s, v, z) && v'.replica.rows == v.replica.rows && v'.replica.outbox == v.replica.outbox && v'.acked <= v.acked
    ensures Upheld(s, v', z)
  {
    hide Timely, StampOf, StampOr0;
    if z in v.replica.rows && CarriesRowStamp(v.replica, z) {
      SameCarried(v.replica, v'.replica, z);
    }
    hide CarriesRowStamp;
  }

  lemma ApplyUpheld(s: Server, v: Device, v': Device, x: Fetched, z: Key)
    requires QueueOk(v.replica) && Upheld(s, v, z)
    requires Synced(x.key.table) && x.key in s.rows && Stamp(x.row.fields).Some?
    requires StampOr0(x.row.fields) <= ServerStamp(s, x.key)
    requires var w := WireOf(x.key, x.row);
      && Stamp(w.fields) == Stamp(x.row.fields) && StampOr0(w.fields) == StampOr0(x.row.fields)
      && v'.replica == Rebase(v.replica, x.key, w.fields, StampOr0(w.fields))
    requires v'.acked == v.acked && (x.key in v.replica.rows ==> LocalStamp(v.replica, x.key) < StampOr0(x.row.fields))
    ensures Upheld(s, v', z)
  {
    var r, r' := v.replica, v'.replica;
    RebaseQueueOk(r, x.key, WireOf(x.key, x.row).fields);
    KeptTimely(Not(Stale(x.key, StampOr0(WireOf(x.key, x.row).fields))), r.outbox, z);
    hide QueueOk, Filter, Project, WireOf, StampOf, CarriesRowStamp, Timely;
    assert LocalStamp(r', x.key) == StampOr0(x.row.fields);
    assert z != x.key && z in r'.rows ==> z in r.rows && r'.rows[z] == r.rows[z];
  }

  lemma KeepUpheld(s: Server, v: Device, v': Device, x: Fetched, z: Key)
    requires Upheld(s, v, z) && x.key in v.replica.rows && v'.acked == v.acked
    requires v'.replica == v.replica ||
      v'.replica == v.replica.(rows := v.replica.rows[x.key := FillBook(v.replica.rows[x.key], WireOf(x.key, x.row).fields)])
    ensures Upheld(s, v', z)
  {
    hide FillBook, StampOr0, Timely, StampOf;
    Pull.FillBookKeepsStamp(v.replica.rows[x.key], WireOf(x.key, x.row).fields);
    if z in v.replica.rows && CarriesRowStamp(v.replica, z) {
      SameCarried(v.replica, v'.replica, z);
    }
    hide CarriesRowStamp;
  }

  lemma DispatchUpheld(f: Fleet, step: Step, z: Key)
    requires Inv(f) && Timed(f, z) && step.Dispatch? && Enabled(f, step)
    ensures Timed(Do(f, step), z)
  {
    hide ServerOk, DeviceOk, Sends, ServerWrite, QueueOk, Upheld, Timely;
    var s, v, k := f.server, f.devices[step.d], step.key;
    var payload := Sends(v.replica, k, step.before, step.after);
    var patch := Push.Sparse(k.table, payload);
    DeviceQueueOk(s, v);
    UpheldTimely(s, v, z);
    SendsQueuedStamp(v.replica, k, step.before, step.after);
    if k == z {
      SendsRowStamp(v.replica, k, step.before, step.after);
    }
    WriteGrows(s, k, payload, patch);
    var s' := Do(f, step).server;
    assert Grows(s, s') || s' == s;
    forall d | d in f.devices ensures Upheld(s', f.devices[d], z) {
      if s' != s {
        UpheldGrows(s, s', f.devices[d], z);
      }
    }
    if step.reply.Acked? {
      AckUpheld(s', v, k, z);
    }
  }

  lemma AckUpheld(s: Server, v: Device, k: Key, z: Key)
    requires QueueOk(v.replica) && Upheld(s, v, z)
    requires k == z ==> z in v.replica.rows && z in s.rows && LocalStamp(v.replica, z) <= ServerStamp(s, z)
    ensures Upheld(s, v.(acked := v.acked + IdsFor(v.replica, k)), z)
  {
    var r := v.replica;
    IdsForRecord(r, k);
    hide CarriesRowStamp, StampOf, StampOr0, Follows, Timely, QueueOrdered, IdsFor, QueueOk;
    forall e | e in r.outbox && IsFor(e, z) && e.id in IdsFor(r, k) ensures k == z && StampOf(e) <= LocalStamp(r, z) {
      QueuedStamp(r, z, e);
    }
  }

  lemma ClearUpheld(s: Server, v: Device, z: Key)
    requires Upheld(s, v, z)
    ensures Upheld(s, ClearStep(v), z)
  {
    hide Filter, StampOf, StampOr0, CarriesRowStamp, Timely;
    var r, r' := v.replica, ClearStep(v).replica;
    FilterMembers(Not(In(v.acked)), r.outbox);
    KeptTimely(Not(In(v.acked)), r.outbox, z);
    if z in r'.rows && CarriesRowStamp(r, z) {
      ClearCarried(s, v, r', z);
    }
  }

  lemma ClearCarried(s: Server, v: Device, r': Replica, k: Key)
    requires OnServer(s, v, k) && k in v.replica.rows && CarriesRowStamp(v.replica, k)
    requires r'.rows == v.replica.rows && forall e :: e in r'.outbox <==> e in v.replica.outbox && e.id !in v.acked
    ensures (k in s.rows && LocalStamp(r', k) <= ServerStamp(s, k)) || CarriesRowStamp(r', k)
  {
    hide StampOf, StampOr0;
    var top :| top in v.replica.outbox && IsFor(top, k) && StampOf(top) == LocalStamp(v.replica, k);
    if top.id !in v.acked {
      assert top in r'.outbox;
    }
  }

  lemma StepKeepsTimed(f: Fleet, step: Step, z: Key)
    requires Inv(f) && Timed(f, z) && Enabled(f, step) && PunctualFor(f, step, z)
    ensures Timed(Do(f, step), z)
  {
    hide ServerOk, DeviceOk, Upheld, StageStep, ImportWrite, MergeStep, AdvanceStep, ClearStep, ServerWrite, IsPage, Sends, QueuedBy;
    match step
    case Stage(d, k, partial, at, revive) => StageUpheld(f.server, f.devices[d], k, partial, at, revive, z);
    case ImportOne(d, w, batch) => ImportUpheld(f.server, f.devices[d], w, batch, z);
    case Fetch(d, t, rows) => SameUpheld(f.server, f.devices[d], f.devices[d].(page := Some(InFlight(t, rows, 0))), z);
    case Merge(d) => MergeUpheld(f.server, f.devices[d], z);
    case Advance(d) => AdvanceUpheld(f.server, f.devices[d], z);
    case Abort(d) => SameUpheld(f.server, f.devices[d], f.devices[d].(page := None, acked := {}), z);
    case Dispatch(_, _, _, _, _) => DispatchUpheld(f, step, z);
    case Clear(d) => ClearUpheld(f.server, f.devices[d], z);
    case Foreign(k, payload) =>
      WriteGrows(f.server, k, payload, false);
      forall d | d in f.devices ensures Upheld(Do(f, step).server, f.devices[d], z) {
        UpheldGrows(f.server, Do(f, step).server, f.devices[d], z);
      }
  }

  lemma AdvanceUpheld(s: Server, v: Device, z: Key)
    requires Upheld(s, v, z) && v.page.Some?
    ensures Upheld(s, AdvanceStep(v), z)
  {
    SameUpheld(s, v, AdvanceStep(v), z);
  }
}
