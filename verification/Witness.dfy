/** Runs from the initial state that show why the hypotheses are there: each ends quiet, or in a flush,
    with device and server apart. */
module WitnessModel {
  import opened Data
  import opened Seqs
  import opened ReplicaModel
  import opened OutboxModel
  import opened FleetModel
  import opened TimedModel
  import opened ConvergenceModel
  import opened ContentsModel
  import opened AgreementModel
  import opened SkippedModel
  import opened PathModel
  import Push = PushModel
  import Pull = PullModel

  const K := Key(CustomIdeas, "i")
  const BARE := Device(EMPTY, {}, None, {})
  const START := Fleet(Server(map[], 0), map[0 := BARE])

  /** One device beside the server. */
  function Solo(s: Server, v: Device): Fleet {
    Fleet(s, map[0 := v])
  }

  lemma SoloWith(s: Server, v: Device, v': Device)
    ensures With(Solo(s, v), 0, v') == Solo(s, v')
  {
  }

  lemma StartRun()
    ensures IsTimedRun([START], []) && START == Solo(Server(map[], 0), BARE)
  {
    PathStart(START);
  }

  // ── Small queues ───────────────────────────────────────────────────────────

  lemma FilterOne<T>(p: T -> bool, a: T)
    ensures Filter(p, [a]) == if p(a) then [a] else []
  {
    assert [a][..0] == [];
  }

  lemma FilterTwo<T>(p: T -> bool, a: T, b: T)
    ensures Filter(p, [a, b]) == (if p(a) then [a] else []) + (if p(b) then [b] else [])
  {
    FilterOne(p, a);
    FilterPush(p, [a], b);
    assert [a] + [b] == [a, b];
  }

  lemma FoldTwo(a: Entry, b: Entry)
    ensures Fold([a]) == Absorb(map[], a) && Fold([a, b]) == Absorb(Absorb(map[], a), b)
  {
    assert [a][..0] == [] && [a, b][..1] == [a];
    assert Fold([]) == map[];
  }

  lemma SortTwo(a: Entry, b: Entry)
    requires b.at < a.at
    ensures SortByTime([a, b]) == [b, a]
  {
    assert [a][..0] == [] && [a, b][..1] == [a];
    assert SortByTime([]) == [] && SortByTime([a]) == [a];
    assert Insert([], b) == [b];
  }

  // ── A record created over a skipped tombstone ──────────────────────────────

  const TOMB: Row := map[Id := Str("i"), Deleted := Bool(true), UpdatedAt := Int(100)]
  const FRESH: Row := map[Id := Str("i"), Name := Str("n"), Deleted := Bool(false), UpdatedAt := Int(5)]
  const BURIED := Server(map[K := ServerRow(TOMB, 1)], 1)

  lemma OnePage(s: Server, row: ServerRow)
    requires s.rows == map[K := row] && row.number > 0
    ensures IsPage(s, CustomIdeas, 0, [Fetched(K, row)])
  {
  }

  /** A run in which a device pulls, and skips, a tombstone stamped 100. */
  lemma ReachesForgotten() returns (states: seq<Fleet>, steps: seq<Step>)
    ensures states != [] && IsTimedRun(states, steps) && Forgotten(Last(states), 0, K)
    ensures Last(states) == Solo(BURIED, BARE.(replica := EMPTY.(cursors := map[CustomIdeas := 1]), skipped := {K}))
  {
    var page := [Fetched(K, ServerRow(TOMB, 1))];
    var v1 := BARE.(page := Some(InFlight(CustomIdeas, page, 0)));
    var v2 := BARE.(page := Some(InFlight(CustomIdeas, page, 1)), skipped := {K});
    var v3 := BARE.(replica := EMPTY.(cursors := map[CustomIdeas := 1]), skipped := {K});
    StartRun();
    states, steps := [START], [];
    ForeignEffect(START, K, TOMB);
    assert ServerWrite(Server(map[], 0), K, TOMB, false) == BURIED by {
      assert map[] + TOMB == TOMB;
    }
    states, steps := TimedStep(states, steps, Foreign(K, TOMB), Solo(BURIED, BARE));
    OnePage(BURIED, ServerRow(TOMB, 1));
    FetchEffect(Solo(BURIED, BARE), 0, CustomIdeas, page);
    SoloWith(BURIED, BARE, v1);
    states, steps := TimedStep(states, steps, Fetch(0, CustomIdeas, page), Solo(BURIED, v1));
    MergeEffect(Solo(BURIED, v1), 0);
    assert MergeStep(v1) == v2;
    SoloWith(BURIED, v1, v2);
    states, steps := TimedStep(states, steps, Merge(0), Solo(BURIED, v2));
    AdvanceEffect(Solo(BURIED, v2), 0);
    assert AdvanceStep(v2) == v3;
    SoloWith(BURIED, v2, v3);
    states, steps := TimedStep(states, steps, Advance(0), Solo(BURIED, v3));
    hide IsTimedRun, Inv;
    RunInv(states, steps);
  }

  lemma TimedStep(states: seq<Fleet>, steps: seq<Step>, step: Step, f: Fleet) returns (states': seq<Fleet>, steps': seq<Step>)
    requires IsTimedRun(states, steps) && Enabled(Last(states), step) && Punctual(Last(states), step) && Do(Last(states), step) == f
    ensures states' == states + [f] && steps' == steps + [step] && IsTimedRun(states', steps') && Last(states') == f
  {
    hide IsTimedRun, Enabled, Do, Punctual;
    TimedPush(states, steps, step);
    states', steps' := states + [f], steps + [step];
  }

  lemma RunInv(states: seq<Fleet>, steps: seq<Step>)
    requires IsTimedRun(states, steps) && states != []
    ensures Inv(Last(states))
  {
    hide Inv, Enabled, Do, Punctual;
    RunKeepsInv(states, steps, |states| - 1);
  }

  /** The run continued: the device creates the record with stamp 5, flushes it with every reply
      delivered and clears its queue. It ends quiet, with a live row on the device, a tombstone on the
      server, and different stamps. */
  lemma SkippedTombstoneDiverges() returns (states: seq<Fleet>, steps: seq<Step>)
    ensures IsTimedRun(states, steps) && Quiescent(Last(states))
    ensures var f := Last(states);
      && 0 in f.devices && K in f.server.rows && K in f.devices[0].replica.rows
      && IsTombstone(f.server.rows[K]) && Get(f.devices[0].replica.rows[K], Deleted) == Some(Bool(false))
      && LocalStamp(f.devices[0].replica, K) == 5 && ServerStamp(f.server, K) == 100
  {
    states, steps := ReachesForgotten();
    hide IsTimedRun, Forgotten, Settled, Quiescent, Enabled, Do, Punctual;
    var f := Last(states);
    var v := f.devices[0];
    FreshIsFirst();
    CreateForgotten(f, 0, K, FRESH, 1);
    CreatedOverTombstoneConvergesIff(f, 0, K, FRESH, 1);
    FreshIsPunctual(f);
    var f1 := Created(f, 0, K, FRESH, 1);
    states, steps := TimedStep(states, steps, Stage(0, K, FRESH, 1, false), f1);
    var sent := Dispatch(0, K, map[], map[], Acked);
    NoWriteIsPunctual(f1, sent);
    var f2 := Do(f1, sent);
    states, steps := TimedStep(states, steps, sent, f2);
    ClearEffect(f2, 0);
    NoWriteIsPunctual(f2, Clear(0));
    var f3 := Do(f2, Clear(0));
    states, steps := TimedStep(states, steps, Clear(0), f3);
    CreateShape(v, K, FRESH, 1);
    var e := Entry(0, K.table, Some(K.id), Object(FRESH), 1);
    FreshSettled(f, f3);
    EndsQuiet(f, f1, f2, f3, e);
  }

  lemma FreshIsFirst()
    ensures FirstWrite(K, FRESH)
  {
  }

  lemma FreshIsPunctual(f: Fleet)
    requires 0 in f.devices && f.devices[0].replica.outbox == [] && Enabled(f, Stage(0, K, FRESH, 1, false))
    ensures Punctual(f, Stage(0, K, FRESH, 1, false))
  {
  }

  lemma NoWriteIsPunctual(f: Fleet, step: Step)
    requires Enabled(f, step) && !step.Stage? && !step.ImportOne?
    ensures Punctual(f, step)
  {
    hide Enabled;
  }

  lemma FreshSettled(f: Fleet, f3: Fleet)
    requires f.server == BURIED && Settled(f, f3, 0, K, FRESH)
    ensures f3.server == BURIED && IsTombstone(f3.server.rows[K]) && ServerStamp(f3.server, K) == 100
    ensures LocalStamp(f3.devices[0].replica, K) == 5 && Get(f3.devices[0].replica.rows[K], Deleted) == Some(Bool(false))
  {
    hide QueueOf;
    assert Stamp(FRESH) == Some(5) && ServerStamp(BURIED, K) == 100;
  }

  lemma EndsQuiet(f: Fleet, f1: Fleet, f2: Fleet, f3: Fleet, e: Entry)
    requires 0 in f.devices && f == Solo(BURIED, f.devices[0]) && f.devices[0].replica.cursors == map[CustomIdeas := 1]
    requires f1 == Created(f, 0, K, FRESH, 1) && f1.devices[0].replica.outbox == [e] && IsFor(e, K)
    requires var sent := Dispatch(0, K, map[], map[], Acked); Enabled(f1, sent) && f2 == Do(f1, sent)
    requires 0 in f2.devices && f3 == Do(f2, Clear(0)) && f3.server == BURIED
    ensures Quiescent(f3)
  {
    hide Sends, ServerWrite, Push.Sparse, Lands, StageWrite, IsTombstone;
    var v := f1.devices[0];
    ClearEffect(f2, 0);
    assert e in v.replica.outbox;
    assert f2.devices[0] == v.(acked := v.acked + IdsFor(v.replica, K));
    assert e.id in f2.devices[0].acked;
    FilterOne(Not(In(f2.devices[0].acked)), e);
    StageKeepsCursors(f.devices[0]);
    assert f3.devices == map[0 := f3.devices[0]];
  }

  lemma StageKeepsCursors(v: Device)
    ensures StageStep(v, K, FRESH, 1, false).replica.cursors == v.replica.cursors
  {
    hide Project, Clamp;
  }

  // ── A reviving write without the flag ──────────────────────────────────────

  const MADE: Row := map[Id := Str("i"), Name := Str("n"), Deleted := Bool(false), UpdatedAt := Int(1)]
  const GONE: Row := map[Id := Str("i"), Deleted := Bool(true), UpdatedAt := Int(2)]
  const BACK: Row := map[Id := Str("i"), Name := Str("m"), UpdatedAt := Int(3)]

  const ROW1 := Project(CustomIdeas, MADE)
  const ROW2 := Project(CustomIdeas, ROW1 + GONE)
  const ROW3 := Project(CustomIdeas, ROW2 + BACK)

  /** Created, deleted and revived without the flag, all queued: the row is deleted, and the flush
      would send a live record. */
  lemma RevivedWithoutTheFlag() returns (states: seq<Fleet>, steps: seq<Step>)
    ensures states != [] && IsTimedRun(states, steps)
    ensures var f := Last(states);
      && 0 in f.devices && K in f.devices[0].replica.rows
      && Get(f.devices[0].replica.rows[K], Deleted) == Some(Bool(true))
      && Get(Sends(f.devices[0].replica, K, map[], map[]), Deleted) == Some(Bool(false))
  {
    states, steps := Revived();
    RevivedRows();
    hide ROW3, IsTimedRun, Sends;
    var e0, e2 := Queued(0, MADE, 1), Queued(2, BACK, 3);
    var r := EMPTY.(rows := map[K := ROW3], outbox := [e0, e2], nextId := 3);
    RevivedSends(states, steps, r, e0, e2);
    SoloDevice(Server(map[], 0), BARE.(replica := r));
  }

  lemma DropsGone(r: Replica)
    requires r.outbox == [Queued(0, MADE, 1), Queued(1, GONE, 2)]
    ensures DropPendingDeletes(r, K).outbox == [Queued(0, MADE, 1)]
  {
    var e0, e1 := Queued(0, MADE, 1), Queued(1, GONE, 2);
    assert !IsDelete(e0) && IsDelete(e1);
    hide IsDelete, Filter, MADE, GONE;
    FilterTwo(Not(PendingDelete(K)), e0, e1);
  }

  lemma AfterGone(r: Replica, e0: Entry, e1: Entry)
    requires r.rows == map[K := ROW2] && r.outbox == [e0, e1] && e0.at == 1 && e1.at == 2
    ensures StampOr0(Existing(r, K)) < Stamp(BACK).value && ROW3 == Project(CustomIdeas, Existing(r, K) + BACK)
    ensures forall e :: e in r.outbox ==> e.at <= 3
  {
    RevivedRows();
    WritesAddress();
    hide Stamp, StampOr0, Project;
  }

  lemma RowReplaced(r: Replica, e0: Entry, e2: Entry)
    requires r == EMPTY.(rows := map[K := ROW2], outbox := r.outbox, nextId := 2)
    ensures r.(rows := r.rows[K := ROW3], outbox := [e0] + [e2], nextId := r.nextId + 1) ==
      EMPTY.(rows := map[K := ROW3], outbox := [e0, e2], nextId := 3)
  {
    hide ROW2, ROW3;
  }

  lemma Revived() returns (states: seq<Fleet>, steps: seq<Step>)
    ensures states != [] && IsTimedRun(states, steps)
    ensures Last(states) == Solo(Server(map[], 0),
      BARE.(replica := EMPTY.(rows := map[K := ROW3], outbox := [Queued(0, MADE, 1), Queued(2, BACK, 3)], nextId := 3)))
  {
    RevivedRows();
    WritesAddress();
    var e0, e1, e2 := Queued(0, MADE, 1), Queued(1, GONE, 2), Queued(2, BACK, 3);
    var r := EMPTY.(rows := map[K := ROW2], outbox := [e0, e1], nextId := 2);
    DropsGone(r);
    AfterGone(r, e0, e1);
    RowReplaced(r, e0, e2);
    hide ROW1, ROW2, ROW3, MADE, GONE, BACK, IsTimedRun, Stamp, StampOr0, Addresses, Solo, Project, DropPendingDeletes, Existing, Queued;
    states, steps := MadeAndGone();
    states, steps := Staging(states, steps, r, BACK, 3, true, [e0], ROW3);
  }

  lemma SoloDevice(s: Server, v: Device)
    ensures 0 in Solo(s, v).devices && Solo(s, v).devices[0] == v && Solo(s, v).server == s
  {
  }

  lemma WritesAddress()
    ensures Addresses(K, MADE) && Stamp(MADE) == Some(1)
    ensures Addresses(K, GONE) && Stamp(GONE) == Some(2)
    ensures Addresses(K, BACK) && Stamp(BACK) == Some(3)
  {
  }

  lemma JustMade() returns (states: seq<Fleet>, steps: seq<Step>)
    ensures states != [] && IsTimedRun(states, steps)
    ensures Last(states) == Solo(Server(map[], 0),
      BARE.(replica := EMPTY.(rows := map[K := ROW1], outbox := [Queued(0, MADE, 1)], nextId := 1)))
  {
    StartRun();
    WritesAddress();
    NothingUnder(MADE);
    assert ROW1 == Project(CustomIdeas, Existing(EMPTY, K) + MADE);
    hide ROW1, MADE, IsTimedRun, Stamp, Addresses, Solo, Project;
    states, steps := Staging([START], [], EMPTY, MADE, 1, false, [], ROW1);
    assert EMPTY.rows[K := ROW1] == map[K := ROW1] && [] + [Queued(0, MADE, 1)] == [Queued(0, MADE, 1)];
  }

  lemma MadeAndGone() returns (states: seq<Fleet>, steps: seq<Step>)
    ensures states != [] && IsTimedRun(states, steps)
    ensures Last(states) == Solo(Server(map[], 0),
      BARE.(replica := EMPTY.(rows := map[K := ROW2], outbox := [Queued(0, MADE, 1), Queued(1, GONE, 2)], nextId := 2)))
  {
    RevivedRows();
    WritesAddress();
    hide ROW1, ROW2, MADE, GONE, IsTimedRun, Stamp, StampOr0, Addresses, Solo, Project;
    var e0, e1 := Queued(0, MADE, 1), Queued(1, GONE, 2);
    states, steps := JustMade();
    var r1 := EMPTY.(rows := map[K := ROW1], outbox := [e0], nextId := 1);
    states, steps := Staging(states, steps, r1, GONE, 2, false, [e0], ROW2);
    assert r1.rows[K := ROW2] == map[K := ROW2] && [e0] + [e1] == [e0, e1];
  }

  function Queued(id: nat, p: Row, at: int): Entry {
    Entry(id, CustomIdeas, Some("i"), Object(p), at)
  }

  lemma RevivedRows()
    ensures StampOr0(ROW1) == 1 && StampOr0(ROW2) == 2 && Get(ROW3, Deleted) == Some(Bool(true))
    ensures ROW2 == Project(CustomIdeas, ROW1 + GONE) && ROW3 == Project(CustomIdeas, ROW2 + BACK)
  {
    hide Columns, Project;
    ProjectStamp(CustomIdeas, MADE);
    ProjectStamp(CustomIdeas, ROW1 + GONE);
    StampOfMerged(ROW1, GONE);
    FlagStored(ROW1 + GONE);
    FlagStored(ROW2 + BACK);
  }

  lemma FlagStored(row: Row)
    requires Get(row, Deleted) == Some(Bool(true))
    ensures Get(Project(CustomIdeas, row), Deleted) == Some(Bool(true))
  {
    SchemaFacts(CustomIdeas);
    hide Columns;
  }

  /** One more staged write on the only device. */
  lemma Staging(states: seq<Fleet>, steps: seq<Step>, r: Replica, p: Row, at: int, revive: bool, kept: seq<Entry>, row: Row)
    returns (states': seq<Fleet>, steps': seq<Step>)
    requires states != [] && IsTimedRun(states, steps) && Last(states) == Solo(Server(map[], 0), BARE.(replica := r))
    requires Addresses(K, p) && Stamp(p).Some? && StampOr0(Existing(r, K)) < Stamp(p).value
    requires forall e :: e in r.outbox ==> e.at <= at
    requires kept == (if revive then DropPendingDeletes(r, K) else r).outbox && row == Project(CustomIdeas, Existing(r, K) + p)
    ensures states' != [] && IsTimedRun(states', steps')
    ensures Last(states') == Solo(Server(map[], 0),
      BARE.(replica := r.(rows := r.rows[K := row], outbox := kept + [Queued(r.nextId, p, at)], nextId := r.nextId + 1)))
  {
    hide Project, Filter, IsTimedRun, StageStep, Stamp, StampOr0, Addresses, Existing;
    var v := BARE.(replica := r);
    var f := Solo(Server(map[], 0), v);
    StageEffect(f, 0, K, p, at, revive);
    StageTakes(v, K, p, at, revive);
    SoloWith(Server(map[], 0), v, StageStep(v, K, p, at, revive));
    StagePunctual(f, p, at, revive);
    hide Enabled, Do, Punctual;
    states', steps' := TimedStep(states, steps, Stage(0, K, p, at, revive), Solo(Server(map[], 0), StageStep(v, K, p, at, revive)));
  }

  lemma StagePunctual(f: Fleet, p: Row, at: int, revive: bool)
    requires Enabled(f, Stage(0, K, p, at, revive)) && 0 in f.devices
    requires forall e :: e in f.devices[0].replica.outbox ==> e.at <= at
    ensures Punctual(f, Stage(0, K, p, at, revive))
  {
    hide Enabled;
  }

  lemma RevivedSends(states: seq<Fleet>, steps: seq<Step>, r: Replica, e0: Entry, e2: Entry)
    requires IsTimedRun(states, steps) && states != [] && Last(states) == Solo(Server(map[], 0), BARE.(replica := r))
    requires r.outbox == [e0, e2] && e0 == Queued(0, MADE, 1) && e2 == Queued(2, BACK, 3)
    ensures Get(Sends(r, K, map[], map[]), Deleted) == Some(Bool(false))
  {
    hide IsTimedRun, Sends, Inv, Says, Columns;
    RunInv(states, steps);
    QueueOfDevice(Last(states), 0);
    assert QueueOf(r, K) == [e0, e2] by {
      FilterTwo(For(K), e0, e2);
    }
    assert Get(Says(r, K), Deleted) == Some(Bool(false)) by {
      FoldTwo(e0, e2);
      SaysTwo(r, e0, e2);
    }
    hide QueueOf, QueueOk;
    assert e0 in r.outbox;
    SendsWhatQueueSays(r, K, map[], map[]);
    SchemaFacts(CustomIdeas);
  }

  lemma SaysTwo(r: Replica, e0: Entry, e2: Entry)
    requires QueueOf(r, K) == [e0, e2]
    ensures Says(r, K) == Fold([e0, e2])
  {
  }

  // ── An import ahead of the clock ───────────────────────────────────────────

  const IMPORTED: Row := map[Id := Str("i"), Name := Str("a"), Column("description") := Null, CreatedAt := Int(1),
                             Deleted := Bool(false), UpdatedAt := Int(10)]
  const EDIT: Row := map[Id := Str("i"), Name := Str("b"), UpdatedAt := Int(5)]
  const CLAMPED: Row := EDIT[UpdatedAt := Int(11)]
  const EDITED := Project(CustomIdeas, Project(CustomIdeas, IMPORTED) + CLAMPED)
  const LANDED := Server(map[K := ServerRow(IMPORTED, 1)], 1)

  function QueuedBoth(): Replica {
    EMPTY.(rows := map[K := EDITED], outbox := [Queued(0, IMPORTED, 10), Queued(1, CLAMPED, 5)], nextId := 2)
  }

  lemma EditedFacts()
    ensures FullRow(K, IMPORTED) && Addresses(K, IMPORTED) && Stamp(IMPORTED) == Some(10) && StampOr0(Project(CustomIdeas, IMPORTED)) == 10
    ensures Addresses(K, EDIT) && Stamp(EDIT) == Some(5)
    ensures Stamp(EDITED) == Some(11) && StampOr0(EDITED) == 11
  {
    ImportedIsFull();
    ProjectStamp(CustomIdeas, IMPORTED);
    ProjectStamp(CustomIdeas, Project(CustomIdeas, IMPORTED) + CLAMPED);
    hide Project, FullRow, Columns;
    StampOfMerged(Project(CustomIdeas, IMPORTED), CLAMPED);
  }

  lemma ImportedIsFull()
    ensures FullRow(K, IMPORTED)
  {
  }

  lemma RunStep(states: seq<Fleet>, steps: seq<Step>, step: Step, f: Fleet) returns (states': seq<Fleet>, steps': seq<Step>)
    requires states != [] && IsRun(states, steps) && Enabled(Last(states), step) && Do(Last(states), step) == f
    ensures states' == states + [f] && steps' == steps + [step] && IsRun(states', steps') && Last(states') == f
  {
    hide IsRun, Enabled, Do;
    RunPush(states, steps, step);
    states', steps' := states + [f], steps + [step];
  }

  /** Imported at time 10, then edited while the clock says 5. */
  lemma ImportedThenEdited() returns (states: seq<Fleet>, steps: seq<Step>)
    ensures states != [] && IsRun(states, steps) && Last(states) == Solo(Server(map[], 0), BARE.(replica := QueuedBoth()))
  {
    StartRun();
    EditedFacts();
    var s, w := Server(map[], 0), Write(K, IMPORTED);
    var v1, v2 := BARE.(replica := ImportWrite(EMPTY, w, 10)), BARE.(replica := QueuedBoth());
    ImportShape();
    hide IsRun, Stamp, StampOr0, Addresses, Project, ImportWrite, FullRow;
    ImportEffect(START, 0, w, 10);
    SoloWith(s, BARE, v1);
    states, steps := RunStep([START], [], ImportOne(0, w, 10), Solo(s, v1));
    StageEffect(Solo(s, v1), 0, K, EDIT, 5, false);
    hide StageStep, EDIT, EDITED, IMPORTED, CLAMPED, Enabled, Do;
    EditShape(v1);
    SoloWith(s, v1, v2);
    states, steps := RunStep(states, steps, Stage(0, K, EDIT, 5, false), Solo(s, v2));
  }

  lemma EditShape(v: Device)
    requires v == BARE.(replica := EMPTY.(rows := map[K := Project(CustomIdeas, IMPORTED)], outbox := [Queued(0, IMPORTED, 10)], nextId := 1))
    ensures StageStep(v, K, EDIT, 5, false) == BARE.(replica := QueuedBoth())
  {
    EditedFacts();
    hide StageStep, Stamp, StampOr0, Project, Addresses, FullRow, IMPORTED;
    StageClamps(v, K, EDIT, 5);
    assert v.replica.rows[K := EDITED] == map[K := EDITED];
    assert [Queued(0, IMPORTED, 10)] + [Queued(1, CLAMPED, 5)] == [Queued(0, IMPORTED, 10), Queued(1, CLAMPED, 5)];
  }

  lemma ImportShape()
    ensures ImportWrite(EMPTY, Write(K, IMPORTED), 10) ==
      EMPTY.(rows := map[K := Project(CustomIdeas, IMPORTED)], outbox := [Queued(0, IMPORTED, 10)], nextId := 1)
    ensures StampOr0(Existing(EMPTY, K)) == 0
  {
    hide Project, IMPORTED;
    assert Filter(Not(PendingDelete(K)), []) == [];
    assert EMPTY.rows[K := Project(CustomIdeas, IMPORTED)] == map[K := Project(CustomIdeas, IMPORTED)];
  }

  /** The collapse sorts the edit before the import, so the import's row and stamp are what is sent. */
  lemma SendsTheImport()
    ensures Sends(QueuedBoth(), K, map[], map[]) == IMPORTED && !Push.Sparse(CustomIdeas, IMPORTED)
  {
    var e0, e1 := Queued(0, IMPORTED, 10), Queued(1, CLAMPED, 5);
    ImportAbsorbs(e0, e1);
    ImportPlain();
    hide IMPORTED, CLAMPED, EDITED, Absorb, Fold, SortByTime, Filter, Push.Prepare, Repoint;
    FilterTwo(InGroup(K), e0, e1);
    assert [e0] + [e1] == [e0, e1];
    SortTwo(e0, e1);
    FoldTwo(e1, e0);
  }

  lemma ImportAbsorbs(e0: Entry, e1: Entry)
    requires e0 == Queued(0, IMPORTED, 10) && e1 == Queued(1, CLAMPED, 5)
    ensures Absorb(Absorb(map[], e1), e0) == IMPORTED
  {
    assert !IsDelete(e0) && !IsDelete(e1);
    hide IsDelete;
    assert map[] + CLAMPED == CLAMPED;
    assert CLAMPED + IMPORTED == IMPORTED;
  }

  lemma ImportPlain()
    ensures Push.Prepare(CustomIdeas, Repoint(CustomIdeas, IMPORTED, map[]), map[]) == IMPORTED && !Push.Sparse(CustomIdeas, IMPORTED)
  {
  }

  /** An import ahead of the clock, an edit, a flush with its reply delivered, and a pull: the run ends
      quiet with the edit at stamp 11 on the device and the import at stamp 10 on the server. */
  lemma ImportAheadOfClock() returns (states: seq<Fleet>, steps: seq<Step>)
    ensures states != [] && IsRun(states, steps) && Quiescent(Last(states))
    ensures var f := Last(states);
      && 0 in f.devices && K in f.server.rows && K in f.devices[0].replica.rows
      && LocalStamp(f.devices[0].replica, K) == 11 && ServerStamp(f.server, K) == 10
  {
    states, steps := ImportedThenEdited();
    var r := QueuedBoth().(outbox := []);
    states, steps := FlushTheImport(states, steps);
    states, steps := PullItBack(states, steps, r);
    EditedFacts();
    hide IsRun;
  }

  lemma FlushTheImport(states: seq<Fleet>, steps: seq<Step>) returns (states': seq<Fleet>, steps': seq<Step>)
    requires states != [] && IsRun(states, steps) && Last(states) == Solo(Server(map[], 0), BARE.(replica := QueuedBoth()))
    ensures states' != [] && IsRun(states', steps')
    ensures Last(states') == Solo(LANDED, BARE.(replica := QueuedBoth().(outbox := [])))
  {
    var r := QueuedBoth();
    var v := BARE.(replica := r);
    var f := Solo(Server(map[], 0), v);
    var e0, e1 := Queued(0, IMPORTED, 10), Queued(1, CLAMPED, 5);
    SendsTheImport();
    FirstLands();
    ClearsBoth(r, e0, e1);
    hide IsRun, Sends, ServerWrite, Push.Sparse, Lands, IdsFor, ClearStep, EDITED, IMPORTED;
    assert e0 in r.outbox;
    DispatchEffect(f, 0, K, map[], map[], Acked, e0);
    var v2 := v.(acked := v.acked + IdsFor(r, K));
    SoloWith(LANDED, v, v2);
    states', steps' := RunStep(states, steps, Dispatch(0, K, map[], map[], Acked), Solo(LANDED, v2));
    ClearEffect(Solo(LANDED, v2), 0);
    SoloWith(LANDED, v2, ClearStep(v2));
    states', steps' := RunStep(states', steps', Clear(0), Solo(LANDED, ClearStep(v2)));
  }

  lemma FirstLands()
    ensures ServerWrite(Server(map[], 0), K, IMPORTED, false) == LANDED
  {
    assert map[] + IMPORTED == IMPORTED;
  }

  lemma ClearsBoth(r: Replica, e0: Entry, e1: Entry)
    requires r.outbox == [e0, e1] && IsFor(e0, K) && IsFor(e1, K)
    ensures ClearStep(BARE.(replica := r, acked := {} + IdsFor(r, K))) == BARE.(replica := r.(outbox := []))
  {
    var acked := {} + IdsFor(r, K);
    assert e0 in r.outbox && e1 in r.outbox && e0.id in acked && e1.id in acked;
    FilterTwo(Not(In(acked)), e0, e1);
  }

  lemma PullItBack(states: seq<Fleet>, steps: seq<Step>, r: Replica) returns (states': seq<Fleet>, steps': seq<Step>)
    requires states != [] && IsRun(states, steps) && r == QueuedBoth().(outbox := []) && Last(states) == Solo(LANDED, BARE.(replica := r))
    ensures states' != [] && IsRun(states', steps') && Quiescent(Last(states'))
    ensures Last(states') == Solo(LANDED, BARE.(replica := r.(cursors := map[CustomIdeas := 1])))
  {
    var row := ServerRow(IMPORTED, 1);
    var page := [Fetched(K, row)];
    var v := BARE.(replica := r);
    var v1 := v.(page := Some(InFlight(CustomIdeas, page, 0)));
    var v2 := v.(page := Some(InFlight(CustomIdeas, page, 1)));
    var v3 := v.(replica := r.(cursors := map[CustomIdeas := 1]));
    OnePage(LANDED, row);
    EditedFacts();
    hide IsRun, MergeStep, EDITED, IMPORTED, IsPage, StampOr0, Stamp, Addresses, FullRow, Project;
    StaleComesBack(v1, v2, r, row);
    assert AdvanceStep(v2) == v3;
    hide AdvanceStep;
    BackIsQuiet(v3);
    FetchEffect(Solo(LANDED, v), 0, CustomIdeas, page);
    SoloWith(LANDED, v, v1);
    states', steps' := RunStep(states, steps, Fetch(0, CustomIdeas, page), Solo(LANDED, v1));
    MergeEffect(Solo(LANDED, v1), 0);
    SoloWith(LANDED, v1, v2);
    states', steps' := RunStep(states', steps', Merge(0), Solo(LANDED, v2));
    AdvanceEffect(Solo(LANDED, v2), 0);
    SoloWith(LANDED, v2, v3);
    states', steps' := RunStep(states', steps', Advance(0), Solo(LANDED, v3));
  }

  lemma BackIsQuiet(v: Device)
    requires v.replica.outbox == [] && v.replica.cursors == map[CustomIdeas := 1]
    ensures Quiescent(Solo(LANDED, v))
  {
    hide IMPORTED;
  }

  lemma StaleComesBack(v1: Device, v2: Device, r: Replica, row: ServerRow)
    requires row == ServerRow(IMPORTED, 1) && K in r.rows && StampOr0(r.rows[K]) == 11
    requires v1 == BARE.(replica := r, page := Some(InFlight(CustomIdeas, [Fetched(K, row)], 0)))
    requires v2 == BARE.(replica := r, page := Some(InFlight(CustomIdeas, [Fetched(K, row)], 1)))
    ensures MergeStep(v1) == v2
  {
    WireFacts(K, row);
    EditedFacts();
    hide WireOf, IMPORTED, Stamp;
  }

  // ── One record on one device ───────────────────────────────────────────────

  /** The first write of a record on a bare device. */
  lemma StageFirst(k: Key, row: Row) returns (states: seq<Fleet>, steps: seq<Step>)
    requires FirstWrite(k, row)
    ensures states != [] && IsTimedRun(states, steps) && steps == [Stage(0, k, row, 1, false)]
    ensures Last(states) == Solo(Server(map[], 0), BARE.(replica := FirstRow(k, row)))
  {
    StartRun();
    WriteParts(k, row);
    CreateShape(BARE, k, row, 1);
    FirstStage(k, row);
    var v := StageStep(BARE, k, row, 1, false);
    hide IsTimedRun, StageStep, FirstWrite, Stamp, Addresses, Get;
    StageEffect(START, 0, k, row, 1, false);
    SoloWith(Server(map[], 0), BARE, v);
    NothingQueuedYet(k, row);
    hide Enabled, Do, Punctual;
    states, steps := TimedStep([START], [], Stage(0, k, row, 1, false), Solo(Server(map[], 0), v));
  }

  function FirstRow(k: Key, row: Row): Replica {
    EMPTY.(rows := map[k := Project(k.table, row)], outbox := [Entry(0, k.table, Some(k.id), Object(row), 1)], nextId := 1)
  }

  lemma FirstStage(k: Key, row: Row)
    requires FirstWrite(k, row)
    ensures StageStep(BARE, k, row, 1, false) == BARE.(replica := FirstRow(k, row))
  {
    WriteParts(k, row);
    NothingUnder(row);
    hide Project, Stamp, FirstWrite, Addresses, Get, StageStep;
    StageTakes(BARE, k, row, 1, false);
    assert EMPTY.rows[k := Project(k.table, row)] == map[k := Project(k.table, row)];
    assert [] + [Entry(0, k.table, Some(k.id), Object(row), 1)] == [Entry(0, k.table, Some(k.id), Object(row), 1)];
  }

  lemma NothingQueuedYet(k: Key, row: Row)
    requires Enabled(START, Stage(0, k, row, 1, false))
    ensures Punctual(START, Stage(0, k, row, 1, false))
  {
    hide Enabled;
  }

  /** A write by someone else. */
  lemma ForeignOne(states: seq<Fleet>, steps: seq<Step>, s: Server, v: Device, k: Key, payload: Row)
    returns (states': seq<Fleet>, steps': seq<Step>)
    requires states != [] && IsTimedRun(states, steps) && Last(states) == Solo(s, v) && Synced(k.table) && Stamp(payload).Some?
    ensures states' != [] && IsTimedRun(states', steps') && Last(states') == Solo(ServerWrite(s, k, payload, false), v)
    ensures steps' == steps + [Foreign(k, payload)]
  {
    hide IsTimedRun, ServerWrite, Stamp;
    ForeignEffect(Solo(s, v), k, payload);
    NoWriteIsPunctual(Solo(s, v), Foreign(k, payload));
    hide Enabled, Do, Punctual;
    states', steps' := TimedStep(states, steps, Foreign(k, payload), Solo(ServerWrite(s, k, payload, false), v));
  }

  /** The one queued entry flushed, acknowledged and cleared. */
  lemma FlushOne(states: seq<Fleet>, steps: seq<Step>, s: Server, r: Replica, k: Key, e: Entry, after: map<string, string>)
    returns (states': seq<Fleet>, steps': seq<Step>)
    requires states != [] && IsTimedRun(states, steps) && Last(states) == Solo(s, BARE.(replica := r))
    requires r.outbox == [e] && IsFor(e, k) && !Push.Sparse(k.table, Sends(r, k, map[], after))
    ensures states' != [] && IsTimedRun(states', steps') && steps' == steps + [Dispatch(0, k, map[], after, Acked), Clear(0)]
    ensures Last(states') == Solo(ServerWrite(s, k, Sends(r, k, map[], after), false), BARE.(replica := r.(outbox := [])))
  {
    var v := BARE.(replica := r);
    var v2 := v.(acked := v.acked + IdsFor(r, k));
    var s' := ServerWrite(s, k, Sends(r, k, map[], after), false);
    var sent := Dispatch(0, k, map[], after, Acked);
    ClearsOne(r, k, e);
    hide IsTimedRun, Sends, ServerWrite, Push.Sparse, Lands, IdsFor, ClearStep;
    assert e in r.outbox;
    DispatchEffect(Solo(s, v), 0, k, map[], after, Acked, e);
    SoloWith(s', v, v2);
    NoWriteIsPunctual(Solo(s, v), sent);
    ClearEffect(Solo(s', v2), 0);
    NoWriteIsPunctual(Solo(s', v2), Clear(0));
    hide Enabled, Do, Punctual;
    states', steps' := TimedStep(states, steps, sent, Solo(s', v2));
    SoloWith(s', v2, ClearStep(v2));
    states', steps' := TimedStep(states', steps', Clear(0), Solo(s', ClearStep(v2)));
  }

  lemma ClearsOne(r: Replica, k: Key, e: Entry)
    requires r.outbox == [e] && IsFor(e, k)
    ensures ClearStep(BARE.(replica := r, acked := {} + IdsFor(r, k))) == BARE.(replica := r.(outbox := []))
  {
    var acked := {} + IdsFor(r, k);
    assert e in r.outbox && e.id in acked;
    FilterOne(Not(In(acked)), e);
  }

  /** The server's one row pulled by a device that holds a row no older. */
  lemma PullOne(states: seq<Fleet>, steps: seq<Step>, s: Server, r: Replica, k: Key, row: ServerRow)
    returns (states': seq<Fleet>, steps': seq<Step>)
    requires states != [] && IsTimedRun(states, steps) && Last(states) == Solo(s, BARE.(replica := r)) && Synced(k.table)
    requires s.rows == map[k := row] && row.number > Pull.CursorOf(r, k.table)
    requires Decide(r, k.table, WireOf(k, row)) == KeepLocal
    ensures states' != [] && IsTimedRun(states', steps')
    ensures steps' == steps + [Fetch(0, k.table, [Fetched(k, row)]), Merge(0), Advance(0)]
    ensures Last(states') == Solo(s, BARE.(replica := Pulled(r, k, row)))
  {
    var page := [Fetched(k, row)];
    var v := BARE.(replica := r);
    var v1 := v.(page := Some(InFlight(k.table, page, 0)));
    var v2 := v.(replica := MergeRow(r, k.table, WireOf(k, row)), page := Some(InFlight(k.table, page, 1)));
    var v3 := BARE.(replica := Pulled(r, k, row));
    OneRowPage(s, k, row, Pull.CursorOf(r, k.table));
    Pull.MergeRowIgnoresCursors(Pull.NO_STATS, r, k.table, WireOf(k, row), r.cursors);
    hide WireOf, MergeRow, IsTimedRun, IsPage, Decide;
    assert MergeStep(v1) == v2;
    assert AdvanceStep(v2) == v3;
    FetchEffect(Solo(s, v), 0, k.table, page);
    NoWriteIsPunctual(Solo(s, v), Fetch(0, k.table, page));
    MergeEffect(Solo(s, v1), 0);
    NoWriteIsPunctual(Solo(s, v1), Merge(0));
    AdvanceEffect(Solo(s, v2), 0);
    NoWriteIsPunctual(Solo(s, v2), Advance(0));
    hide Enabled, Do, Punctual, MergeStep, AdvanceStep, Pulled;
    SoloWith(s, v, v1);
    states', steps' := TimedStep(states, steps, Fetch(0, k.table, page), Solo(s, v1));
    SoloWith(s, v1, v2);
    states', steps' := TimedStep(states', steps', Merge(0), Solo(s, v2));
    SoloWith(s, v2, v3);
    states', steps' := TimedStep(states', steps', Advance(0), Solo(s, v3));
  }

  function Pulled(r: Replica, k: Key, row: ServerRow): Replica {
    MergeRow(r, k.table, WireOf(k, row)).(cursors := r.cursors[k.table := row.number])
  }

  lemma OneRowPage(s: Server, k: Key, row: ServerRow, cursor: int)
    requires s.rows == map[k := row] && row.number > cursor
    ensures IsPage(s, k.table, cursor, [Fetched(k, row)])
  {
  }

  lemma OneIsQuiet(s: Server, k: Key, row: ServerRow, r: Replica)
    requires s.rows == map[k := row] && r.outbox == [] && row.number <= Pull.CursorOf(r, k.table)
    ensures Quiescent(Solo(s, BARE.(replica := r)))
  {
  }

  // ── One record followed ────────────────────────────────────────────────────

  /** A step that is full-row and tie-free for the record, and the record's versions after it. */
  ghost predicate TakesUp(f: Fleet, h: History, step: Step, h': History) {
    Enabled(f, step) && FullAndTieFree(f, h, step) && Recorded(f, h, step) == h'
  }

  lemma FullFrom(states: seq<Fleet>, steps: seq<Step>, hs: seq<History>)
    requires |hs| == |states| > 0 && IsTimedFor(states, steps, hs[0].key) && hs[0].versions == map[]
    requires forall i :: 0 <= i < |steps| ==> TakesUp(states[i], hs[i], steps[i], hs[i + 1])
    ensures IsFullRun(states, steps, hs)
  {
    hide Enabled, Do, Init, PunctualFor, FullAndTieFree, Recorded;
    forall i | 0 <= i < |steps| ensures FullAndTieFree(states[i], hs[i], steps[i]) && hs[i + 1] == Recorded(states[i], hs[i], steps[i]) {
      assert TakesUp(states[i], hs[i], steps[i], hs[i + 1]);
    }
  }

  /** What a run of the fleet says about its steps. */
  lemma StepsOf(states: seq<Fleet>, steps: seq<Step>)
    requires IsTimedRun(states, steps)
    ensures |states| == |steps| + 1 && Init(states[0]) && forall i :: 0 <= i < |steps| ==> Enabled(states[i], steps[i])
  {
    hide Enabled, Do, Init, Punctual;
  }

  lemma NotTakenUp(f: Fleet, h: History, step: Step)
    requires Enabled(f, step) && WritesNothing(h, step)
    ensures TakesUp(f, h, step, h)
  {
    hide Enabled, FullAndTieFree, Recorded, WritesNothing;
    NothingWritten(f, h, step);
  }

  lemma FirstVersion(f: Fleet, h: History, row: Row)
    requires Init(f) && FirstWrite(h.key, row) && Whole(h.key, row, h.loose) && h.versions == map[]
    requires Enabled(f, Stage(0, h.key, row, 1, false))
    ensures TakesUp(f, h, Stage(0, h.key, row, 1, false), Noted(h, row))
  {
    WriteParts(h.key, row);
    hide Whole, FirstWrite, Addresses, Core, Stamp;
    assert row[UpdatedAt := Int(Stamp(row).value)] == row;
  }

  lemma ForeignIsVersion(f: Fleet, h: History, row: Row)
    requires Enabled(f, Foreign(h.key, row)) && Whole(h.key, row, h.loose) && StampOr0(row) !in h.versions
    ensures TakesUp(f, h, Foreign(h.key, row), Noted(h, row))
  {
    hide Enabled, Whole, Core, StampOr0;
  }

  // ── A remapped book id ─────────────────────────────────────────────────────

  /** For every note row that names a book the flush remaps: staged, flushed, cleared and pulled back,
      the run ends quiet with the old id on the device, the survivor's on the server, and one stamp. If
      the row is full, the run is full-row and tie-free with only the note's book id given up. */
  lemma RemappedBookIdDiverges(k: Key, row: Row, a: string, b: string)
    returns (states: seq<Fleet>, steps: seq<Step>, hs: seq<History>)
    requires k.table == Notes && FirstWrite(k, row) && Get(row, BookId) == Some(Str(a)) && a != b
    ensures states != [] && IsTimedRun(states, steps) && Quiescent(Last(states))
    ensures FullRow(k, row) ==> IsFullRun(states, steps, hs) && hs[0] == History(k, {BookId}, map[])
    ensures var f := Last(states);
      && 0 in f.devices && k in f.server.rows && k in f.devices[0].replica.rows
      && Get(f.devices[0].replica.rows[k], BookId) == Some(Str(a)) && Get(f.server.rows[k].fields, BookId) == Some(Str(b))
      && LocalStamp(f.devices[0].replica, k) == ServerStamp(f.server, k)
  {
    hide IsTimedRun, Sends, ServerWrite, Push.Sparse, FirstWrite, JustCreated, QueueOk, Project, Decide, WireOf, Stamp, StampOr0, MergeRow;
    hide Pulled, Solo, Quiescent, FullRow, IsFullRun;
    states, steps := StageFirst(k, row);
    var r, after := FirstRow(k, row), map[a := b];
    var e, p := r.outbox[0], Sends(r, k, map[], after);
    var server, quiet := Server(map[k := ServerRow(p, 1)], 1), r.(outbox := []);
    FirstIsQueued(states, steps, k, row, e);
    SentRemapped(r, k, row, e, a, b);
    LandsFirst(k, p);
    RowKept(k, row, p);
    StoredBook(row, a);
    states, steps := FlushOne(states, steps, Server(map[], 0), r, k, e, after);
    states, steps := PullOne(states, steps, server, quiet, k, ServerRow(p, 1));
    KeptAsIs(quiet, k, ServerRow(p, 1));
    OneIsQuiet(server, k, ServerRow(p, 1), Pulled(quiet, k, ServerRow(p, 1)));
    SoloDevice(server, BARE.(replica := Pulled(quiet, k, ServerRow(p, 1))));
    hs := RemappedVersions(states, steps, k, row);
  }

  lemma RemappedVersions(states: seq<Fleet>, steps: seq<Step>, k: Key, row: Row) returns (hs: seq<History>)
    requires IsTimedRun(states, steps) && k.table == Notes && FirstWrite(k, row)
    requires |steps| > 0 && steps[0] == Stage(0, k, row, 1, false)
    requires forall i :: 1 <= i < |steps| ==> WritesNothing(History(k, {BookId}, map[]), steps[i])
    ensures FullRow(k, row) ==> IsFullRun(states, steps, hs) && hs[0] == History(k, {BookId}, map[])
  {
    var h := History(k, {BookId}, map[]);
    StepsOf(states, steps);
    TimedForEach(states, steps, k);
    hs := seq(|states|, i => if i == 0 then h else Noted(h, row));
    hide IsTimedRun, IsTimedFor, IsFullRun, Init, Enabled, Noted, FirstWrite, WritesNothing, TakesUp;
    if FullRow(k, row) {
      assert Whole(k, row, {BookId});
      hide FullRow, Whole;
      FirstVersion(states[0], h, row);
      forall i | 1 <= i < |steps| ensures TakesUp(states[i], hs[i], steps[i], hs[i]) {
        StillSilent(h, row, steps[i]);
        NotTakenUp(states[i], hs[i], steps[i]);
      }
      FullFrom(states, steps, hs);
    }
  }

  lemma StillSilent(h: History, row: Row, step: Step)
    requires WritesNothing(h, step)
    ensures WritesNothing(Noted(h, row), step)
  {
    hide Core, StampOr0;
  }

  lemma StoredBook(row: Row, a: string)
    requires Get(row, BookId) == Some(Str(a))
    ensures Get(Project(Notes, row), BookId) == Some(Str(a))
  {
    BookInNotes();
    hide Columns;
  }

  lemma KeptAsIs(r: Replica, k: Key, row: ServerRow)
    requires k.table == Notes && Decide(r, Notes, WireOf(k, row)) == KeepLocal
    ensures Pulled(r, k, row) == r.(cursors := r.cursors[k.table := row.number])
  {
    hide Decide, WireOf;
  }

  lemma LandsFirst(k: Key, p: Row)
    ensures ServerWrite(Server(map[], 0), k, p, false) == Server(map[k := ServerRow(p, 1)], 1)
  {
    assert map[] + p == p;
  }

  /** A row sent with the row's own stamp does not come back over it. */
  lemma RowKept(k: Key, row: Row, p: Row)
    requires Synced(k.table) && Stamp(row).Some? && Stamp(p) == Stamp(row)
    ensures var r := FirstRow(k, row).(outbox := []);
      && Decide(r, k.table, WireOf(k, ServerRow(p, 1))) == KeepLocal
      && LocalStamp(r, k) == StampOr0(p)
  {
    WireFacts(k, ServerRow(p, 1));
    ProjectStamp(k.table, row);
    SameStampRows(row, p);
    hide WireOf, Project, Stamp, StampOr0;
  }

  lemma FirstIsQueued(states: seq<Fleet>, steps: seq<Step>, k: Key, row: Row, e: Entry)
    requires states != [] && IsTimedRun(states, steps) && Last(states) == Solo(Server(map[], 0), BARE.(replica := FirstRow(k, row)))
    requires FirstWrite(k, row) && e == Entry(0, k.table, Some(k.id), Object(row), 1)
    ensures QueueOk(FirstRow(k, row)) && JustCreated(FirstRow(k, row), k, row, e)
    ensures Synced(k.table) && Stamp(row).Some?
  {
    WriteParts(k, row);
    CreateRow(BARE, k, row, 1);
    FirstStage(k, row);
    hide IsTimedRun, Inv, StageStep, JustCreated, FirstWrite;
    RunInv(states, steps);
    QueueOfDevice(Last(states), 0);
  }

  lemma SentRemapped(r: Replica, k: Key, row: Row, e: Entry, a: string, b: string)
    requires QueueOk(r) && JustCreated(r, k, row, e) && FirstWrite(k, row) && k.table == Notes
    requires Get(row, BookId) == Some(Str(a)) && a != b
    ensures var p := Sends(r, k, map[], map[a := b]);
      !Push.Sparse(k.table, p) && Stamp(p) == Stamp(row) && Get(p, BookId) == Some(Str(b))
  {
    WalkOnce(a, b);
    BookInNotes();
    hide QueueOk, Sends, Walk, Columns, Push.Sparse, Stamp, JustCreated;
    SendsFirstWrite(r, k, row, e, map[], map[a := b]);
    assert Get(Sends(r, k, map[], map[a := b]), BookId) == SentCell(Notes, BookId, row[BookId], map[], map[a := b]);
  }

  lemma WalkOnce(a: string, b: string)
    requires a != b
    ensures Walk(Walk(a, map[], MAX_HOPS), map[a := b], MAX_HOPS) == b
  {
    assert IsEnd(a, map[]) && IsEnd(b, map[a := b]);
    assert Walk(a, map[], MAX_HOPS) == a;
    assert Walk(b, map[a := b], MAX_HOPS - 1) == b;
  }

  // ── A filled book column ───────────────────────────────────────────────────

  const BK := Key(Books, "b")
  const BOOK: Row := map[
    Id := Str("b"), Title := Str("t"), Column("author") := Null, Column("isbn") := Null, Column("cover_url") := Null,
    Column("cover_source") := Null, Column("cover_resolved_at") := Null, Column("merged_into") := Null,
    Status := Null, Kind := Str("book"), Url := Str("u"), CreatedAt := Int(1), UpdatedAt := Int(5), Deleted := Bool(false)]
  const BOOKX: Row := BOOK[Status := Str("x")][UpdatedAt := Int(3)]
  const BOOKY: Row := BOOK[Status := Str("y")][UpdatedAt := Int(4)]

  lemma BookFacts()
    ensures FirstWrite(BK, BOOK) && Stamp(BOOK) == Some(5) && Get(BOOK, Status) == Some(Null)
    ensures Stamp(BOOKX) == Some(3) && Get(BOOKX, Status) == Some(Str("x"))
    ensures Stamp(BOOKY) == Some(4) && Get(BOOKY, Status) == Some(Str("y"))
  {
  }

  /** The three writes carry full rows, with a null in no fillable column but the status. */
  lemma BooksAreFull()
    ensures Whole(BK, BOOK, {Status}) && Whole(BK, BOOKX, {Status}) && Whole(BK, BOOKY, {Status})
  {
  }

  /** A book staged at stamp 5 with a null status; another writer gives status x at stamp 3, which the
      pull fills in, then status y at stamp 4; the flush leaves the null out. The run ends quiet with x
      on the device and y on the server, both at stamp 5. It is full-row and tie-free with only the
      book's status given up. */
  lemma FilledStatusDiverges() returns (states: seq<Fleet>, steps: seq<Step>, hs: seq<History>)
    ensures states != [] && IsTimedRun(states, steps) && Quiescent(Last(states))
    ensures IsFullRun(states, steps, hs) && hs[0] == History(BK, {Status}, map[])
    ensures var f := Last(states);
      && 0 in f.devices && BK in f.server.rows && BK in f.devices[0].replica.rows
      && Get(f.devices[0].replica.rows[BK], Status) == Some(Str("x")) && Get(f.server.rows[BK].fields, Status) == Some(Str("y"))
      && LocalStamp(f.devices[0].replica, BK) == 5 && ServerStamp(f.server, BK) == 5
  {
    var row: ServerRow, r: Replica;
    states, steps, row, r := FilledThenFlushed();
    hide IsTimedRun, IsFullRun, Quiescent, Solo, Get, StampOr0, BOOK, BOOKX, BOOKY;
    var server := Server(map[BK := row], 3);
    OneIsQuiet(server, BK, row, r);
    SoloDevice(server, BARE.(replica := r));
    hs := FilledVersions(states, steps);
  }

  lemma FilledThenFlushed() returns (states: seq<Fleet>, steps: seq<Step>, row: ServerRow, r: Replica)
    ensures states != [] && IsTimedRun(states, steps) && Last(states) == Solo(Server(map[BK := row], 3), BARE.(replica := r))
    ensures steps == FilledSteps() + [Foreign(BK, BOOKY)] + [Dispatch(0, BK, map[], map[], Acked), Clear(0)] +
      [Fetch(0, Books, [Fetched(BK, row)]), Merge(0), Advance(0)]
    ensures BK in r.rows && Get(r.rows[BK], Status) == Some(Str("x")) && StampOr0(r.rows[BK]) == 5
    ensures Get(row.fields, Status) == Some(Str("y")) && StampOr0(row.fields) == 5
    ensures r.outbox == [] && row.number <= Pull.CursorOf(r, Books)
  {
    var e: Entry;
    hide IsTimedRun, Sends, ServerWrite, Push.Sparse, QueueOk, Decide, WireOf, Stamp, StampOr0, BOOK, BOOKX, BOOKY, Pulled, FillBook, OUTRUN;
    hide FilledSteps, Get;
    states, steps, r, e := FilledThenOutrun();
    var p := Sends(r, BK, map[], map[]);
    row := ServerRow((BOOKX + BOOKY) + p, 3);
    var server, quiet := Server(map[BK := row], 3), r.(outbox := []);
    NullLeftOut(r, e);
    OutrunLands(p);
    FilledStays(quiet, row);
    states, steps := FlushOne(states, steps, OUTRUN, r, BK, e, map[]);
    states, steps := PullOne(states, steps, server, quiet, BK, row);
    r := Pulled(quiet, BK, row);
    SameStampOf(row.fields, 5);
  }

  const OUTRUN := Server(map[BK := ServerRow(BOOKX + BOOKY, 2)], 2)

  lemma FilledVersions(states: seq<Fleet>, steps: seq<Step>) returns (hs: seq<History>)
    requires IsTimedRun(states, steps) && |steps| > 5 && steps[0] == Stage(0, BK, BOOK, 1, false)
    requires steps[1] == Foreign(BK, BOOKX) && steps[5] == Foreign(BK, BOOKY)
    requires forall i :: 2 <= i < |steps| && i != 5 ==> WritesNothing(History(BK, {Status}, map[]), steps[i])
    ensures IsFullRun(states, steps, hs) && hs[0] == History(BK, {Status}, map[])
  {
    StepsOf(states, steps);
    TimedForEach(states, steps, BK);
    var h0 := History(BK, {Status}, map[]);
    hide IsTimedRun, IsTimedFor, IsFullRun, Init, Enabled, Noted, BOOK, BOOKX, BOOKY, WritesNothing, TakesUp;
    ThreeVersions(states[0], states[1], states[5], h0);
    hs := ThreeWrites(states, steps, h0, Noted(h0, BOOK), Noted(Noted(h0, BOOK), BOOKX), Noted(Noted(Noted(h0, BOOK), BOOKX), BOOKY));
  }

  /** Three versions of a record, at the first, second and sixth step. */
  lemma ThreeWrites(states: seq<Fleet>, steps: seq<Step>, h0: History, h1: History, h2: History, h3: History) returns (hs: seq<History>)
    requires IsTimedFor(states, steps, h0.key) && h0.versions == map[] && SameFollowed(h0, h2) && SameFollowed(h0, h3)
    requires |states| == |steps| + 1 && |steps| > 5 && forall i :: 0 <= i < |steps| ==> Enabled(states[i], steps[i])
    requires TakesUp(states[0], h0, steps[0], h1) && TakesUp(states[1], h1, steps[1], h2) && TakesUp(states[5], h2, steps[5], h3)
    requires forall i :: 2 <= i < |steps| && i != 5 ==> WritesNothing(h0, steps[i])
    ensures IsFullRun(states, steps, hs) && hs[0] == h0
  {
    hs := seq(|states|, i => if i == 0 then h0 else if i == 1 then h1 else if i <= 5 then h2 else h3);
    hide IsTimedFor, IsFullRun, Enabled, TakesUp;
    forall i | 0 <= i < |steps| ensures TakesUp(states[i], hs[i], steps[i], hs[i + 1]) {
      if 2 <= i && i != 5 {
        NotTakenUp(states[i], hs[i], steps[i]);
      }
    }
    FullFrom(states, steps, hs);
  }

  /** The same record with the same columns given up. */
  predicate SameFollowed(h: History, h': History) {
    h'.key == h.key && h'.loose == h.loose
  }

  lemma ThreeVersions(f0: Fleet, f1: Fleet, f5: Fleet, h: History)
    requires h == History(BK, {Status}, map[])
    requires Init(f0) && Enabled(f0, Stage(0, BK, BOOK, 1, false)) && Enabled(f1, Foreign(BK, BOOKX)) && Enabled(f5, Foreign(BK, BOOKY))
    ensures var h1 := Noted(h, BOOK);
      var h2 := Noted(h1, BOOKX);
      && TakesUp(f0, h, Stage(0, BK, BOOK, 1, false), h1)
      && TakesUp(f1, h1, Foreign(BK, BOOKX), h2) && TakesUp(f5, h2, Foreign(BK, BOOKY), Noted(h2, BOOKY))
      && SameFollowed(h, h2) && SameFollowed(h, Noted(h2, BOOKY))
  {
    BookFacts();
    BooksAreFull();
    DistinctStamps(h);
    hide Init, Enabled, Noted, FirstWrite, Whole, BOOK, BOOKX, BOOKY, StampOr0, TakesUp, Stamp, Get;
    FirstVersion(f0, h, BOOK);
    ForeignIsVersion(f1, Noted(h, BOOK), BOOKX);
    ForeignIsVersion(f5, Noted(Noted(h, BOOK), BOOKX), BOOKY);
  }

  lemma DistinctStamps(h: History)
    requires h.versions == map[]
    ensures var h1 := Noted(h, BOOK);
      && SameFollowed(h, h1) && StampOr0(BOOKX) !in h1.versions
      && var h2 := Noted(h1, BOOKX);
      && SameFollowed(h, h2) && SameFollowed(h, Noted(h2, BOOKY)) && StampOr0(BOOKY) !in h2.versions
  {
    BookFacts();
    hide Core, BOOK, BOOKX, BOOKY, FirstWrite, Get;
  }

  /** The device that filled x from the older copy, while the server has moved on to y. */
  lemma FilledThenOutrun() returns (states: seq<Fleet>, steps: seq<Step>, r: Replica, e: Entry)
    ensures states != [] && IsTimedRun(states, steps) && Last(states) == Solo(OUTRUN, BARE.(replica := r))
    ensures steps == FilledSteps() + [Foreign(BK, BOOKY)]
    ensures r.outbox == [e] && QueueOk(r) && JustCreated(r, BK, BOOK, e) && r.cursors == map[Books := 1]
    ensures BK in r.rows && Get(r.rows[BK], Status) == Some(Str("x")) && StampOr0(r.rows[BK]) == 5
  {
    hide IsTimedRun, ServerWrite, FirstWrite, JustCreated, QueueOk, Stamp, StampOr0, BOOK, BOOKX, BOOKY, Get, Inv, OUTRUN, Solo;
    states, steps, r, e := FilledOnce();
    BookFacts();
    LandsSecond();
    states, steps := ForeignOne(states, steps, Server(map[BK := ServerRow(BOOKX, 1)], 1), BARE.(replica := r), BK, BOOKY);
    RunInv(states, steps);
    SoloDevice(OUTRUN, BARE.(replica := r));
    QueueOfDevice(Last(states), 0);
  }

  function FilledSteps(): seq<Step> {
    [Stage(0, BK, BOOK, 1, false), Foreign(BK, BOOKX), Fetch(0, Books, [Fetched(BK, ServerRow(BOOKX, 1))]), Merge(0), Advance(0)]
  }

  lemma FilledOnce() returns (states: seq<Fleet>, steps: seq<Step>, r: Replica, e: Entry)
    ensures states != [] && IsTimedRun(states, steps) && steps == FilledSteps()
    ensures Last(states) == Solo(Server(map[BK := ServerRow(BOOKX, 1)], 1), BARE.(replica := r))
    ensures r.outbox == [e] && JustCreated(r, BK, BOOK, e) && r.cursors == map[Books := 1]
    ensures BK in r.rows && Get(r.rows[BK], Status) == Some(Str("x")) && StampOr0(r.rows[BK]) == 5
  {
    hide IsTimedRun, ServerWrite, FirstWrite, QueueOk, Decide, WireOf, Stamp, StampOr0, BOOK, BOOKX, Pulled, Get, Solo, Project, JustCreated;
    BookFacts();
    states, steps := StageFirst(BK, BOOK);
    var r1, row1 := FirstRow(BK, BOOK), ServerRow(BOOKX, 1);
    e := r1.outbox[0];
    FirstIsQueued(states, steps, BK, BOOK, e);
    LandsFirst(BK, BOOKX);
    FillsX(r1, e);
    states, steps := ForeignOne(states, steps, Server(map[], 0), BARE.(replica := r1), BK, BOOKX);
    states, steps := PullOne(states, steps, Server(map[BK := row1], 1), r1, BK, row1);
    r := Pulled(r1, BK, row1);
  }

  lemma LandsSecond()
    ensures ServerWrite(Server(map[BK := ServerRow(BOOKX, 1)], 1), BK, BOOKY, false) == OUTRUN
  {
    BookFacts();
    hide BOOK, BOOKX, BOOKY, FirstWrite, Get;
    SameStampOf(BOOKX, 3);
  }

  lemma SameStampOf(row: Row, n: int)
    requires Stamp(row) == Some(n)
    ensures StampOr0(row) == n
  {
  }

  /** Pulling the older copy fills its status into the null one and leaves the stamp. */
  lemma FillsX(r: Replica, e: Entry)
    requires r == FirstRow(BK, BOOK) && r.outbox == [e] && JustCreated(r, BK, BOOK, e)
    ensures var row := ServerRow(BOOKX, 1);
      && Decide(r, Books, WireOf(BK, row)) == KeepLocal
      && var r' := Pulled(r, BK, row);
      && r'.outbox == [e] && JustCreated(r', BK, BOOK, e) && r'.cursors == map[Books := 1] && BK in r'.rows
      && Get(r'.rows[BK], Status) == Some(Str("x")) && StampOr0(r'.rows[BK]) == 5
  {
    var row, local := ServerRow(BOOKX, 1), Project(Books, BOOK);
    var w, r' := WireOf(BK, row), Pulled(r, BK, row);
    hide Project, FillBook, WireOf, BOOK, BOOKX, Stamp, StampOr0, Decide, Pulled, JustCreated, Get;
    FilledLocal(local, w);
    FilledShape(r, local, row);
    StillCreated(r, r', BK, BOOK, e, FillBook(local, w.fields));
  }

  lemma StillCreated(r: Replica, r': Replica, k: Key, row: Row, e: Entry, filled: Row)
    requires JustCreated(r, k, row, e) && r'.outbox == r.outbox && k in r.rows && r'.rows == r.rows[k := filled]
    requires Stamp(filled) == Stamp(r.rows[k]) && Get(filled, Deleted) == Get(r.rows[k], Deleted)
    ensures JustCreated(r', k, row, e)
  {
    SameOutbox(r, r', k);
    hide Stamp, QueueOf, Get;
  }

  lemma FilledShape(r: Replica, local: Row, row: ServerRow)
    requires r.rows == map[BK := local] && r.cursors == map[] && row.number == 1
    requires var w := WireOf(BK, row); WireId(Books, w) == Some(BK.id) && StampOr0(w.fields) <= StampOr0(local)
    ensures Decide(r, Books, WireOf(BK, row)) == KeepLocal
    ensures var r' := Pulled(r, BK, row);
      && r'.rows == map[BK := FillBook(local, WireOf(BK, row).fields)] && r'.outbox == r.outbox && r'.cursors == map[Books := 1]
  {
    hide FillBook, WireOf, StampOr0;
  }

  lemma FilledLocal(local: Row, w: Wire)
    requires local == Project(Books, BOOK) && w == WireOf(BK, ServerRow(BOOKX, 1))
    ensures WireId(Books, w) == Some(BK.id) && StampOr0(w.fields) == 3 && StampOr0(local) == 5
    ensures var filled := FillBook(local, w.fields);
      Get(filled, Status) == Some(Str("x")) && StampOr0(filled) == 5 && Stamp(filled) == Stamp(local) && Get(filled, Deleted) == Get(local, Deleted)
  {
    BookFacts();
    WireFacts(BK, ServerRow(BOOKX, 1));
    ProjectStamp(Books, BOOK);
    NullStored();
    SameStampOf(BOOKX, 3);
    SameStampOf(local, 5);
    StatusOnWire(w);
    FillsNull(local, w.fields);
    hide Project, WireOf, BOOK, BOOKX, Stamp, StampOr0, FirstWrite, FillBook, Get;
    Pull.FillBookKeepsStamp(local, w.fields);
  }

  lemma FillsNull(local: Row, incoming: Row)
    requires Get(local, Status) == Some(Null) && Get(incoming, Status) == Some(Str("x"))
    ensures var filled := FillBook(local, incoming); Get(filled, Status) == Some(Str("x")) && Get(filled, Deleted) == Get(local, Deleted)
  {
  }

  lemma StatusOnWire(w: Wire)
    requires w == WireOf(BK, ServerRow(BOOKX, 1))
    ensures Get(w.fields, Status) == Some(Str("x"))
  {
    BookFacts();
    hide BOOK, BOOKX, FirstWrite, Stamp, StampOr0;
  }

  lemma NullStored()
    ensures Get(Project(Books, BOOK), Status) == Some(Null)
  {
    BookFacts();
    FillableColumns();
    hide Columns, FirstWrite;
  }

  lemma NullLeftOut(r: Replica, e: Entry)
    requires QueueOk(r) && JustCreated(r, BK, BOOK, e)
    ensures var p := Sends(r, BK, map[], map[]); !Push.Sparse(Books, p) && Stamp(p) == Some(5) && Get(p, Status) == None
  {
    BookFacts();
    FillableColumns();
    hide Columns, QueueOk, JustCreated, Sends, BOOK, FirstWrite, Push.Sparse, Stamp;
    SendsFirstWrite(r, BK, BOOK, e, map[], map[]);
    assert Get(Sends(r, BK, map[], map[]), Status) == SentCell(Books, Status, BOOK[Status], map[], map[]);
  }

  lemma OutrunLands(p: Row)
    requires Stamp(p) == Some(5) && Get(p, Status) == None
    ensures ServerWrite(OUTRUN, BK, p, false) == Server(map[BK := ServerRow((BOOKX + BOOKY) + p, 3)], 3)
    ensures Stamp((BOOKX + BOOKY) + p) == Some(5) && Get((BOOKX + BOOKY) + p, Status) == Some(Str("y"))
  {
    BookFacts();
    hide BOOK, BOOKX, BOOKY, FirstWrite;
    StampOfMerged(BOOKX, BOOKY);
    StampOfMerged(BOOKX + BOOKY, p);
    SameStampOf(BOOKX + BOOKY, 4);
  }

  lemma FilledStays(r: Replica, row: ServerRow)
    requires BK in r.rows && Get(r.rows[BK], Status) == Some(Str("x")) && StampOr0(r.rows[BK]) == 5
    requires Stamp(row.fields) == Some(5) && row.number == 3 && r.outbox == []
    ensures Decide(r, Books, WireOf(BK, row)) == KeepLocal
    ensures var r' := Pulled(r, BK, row);
      && BK in r'.rows && Get(r'.rows[BK], Status) == Some(Str("x")) && StampOr0(r'.rows[BK]) == 5
      && r'.outbox == [] && Pull.CursorOf(r', Books) == 3
  {
    var w := WireOf(BK, row);
    WireFacts(BK, row);
    SameStampOf(row.fields, 5);
    Pull.FillBookKeepsStamp(r.rows[BK], w.fields);
    assert Get(FillBook(r.rows[BK], w.fields), Status) == Some(Str("x"));
    hide FillBook, WireOf, Stamp, StampOr0;
  }
}
