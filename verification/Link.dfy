/** The store methods as paths of the fleet: a page taken by the pull, and a whole flush. */
module LinkModel {
  import opened Data
  import opened Seqs
  import opened ReplicaModel
  import opened StoreModel
  import opened OutboxModel
  import opened FleetModel
  import opened ConvergenceModel
  import opened PathModel
  import Push = PushModel
  import Pull = PullModel

  // ── A page ─────────────────────────────────────────────────────────────────

  /** A page as the pull receives it. */
  function Wires(rows: seq<Fetched>): seq<Wire> {
    seq(|rows|, i requires 0 <= i < |rows| => WireOf(rows[i].key, rows[i].row))
  }

  /** A device after n more rows of its page. */
  function AfterRows(v: Device, n: nat): Device
    requires v.page.Some? && v.page.value.done + n <= |v.page.value.rows|
    ensures var v' := AfterRows(v, n); v'.page == Some(v.page.value.(done := v.page.value.done + n))
  {
    if n == 0 then v else MergeStep(AfterRows(v, n - 1))
  }

  lemma {:induction false} RowsMerged(v: Device, n: nat)
    requires v.page.Some? && v.page.value.done == 0 && n <= |v.page.value.rows|
    ensures AfterRows(v, n).replica == MergeRows(v.replica, v.page.value.table, Wires(v.page.value.rows)[..n])
  {
    hide WireOf, MergeRow;
    if n > 0 {
      RowsMerged(v, n - 1);
      var ws := Wires(v.page.value.rows);
      assert ws[..n][..n - 1] == ws[..n - 1] && ws[..n][n - 1] == ws[n - 1];
    }
  }

  lemma {:induction false} MergePath(f: Fleet, d: nat, n: nat) returns (states: seq<Fleet>, steps: seq<Step>)
    requires d in f.devices && f.devices[d].page.Some? && f.devices[d].page.value.done + n <= |f.devices[d].page.value.rows|
    ensures states != [] && IsPath(states, steps) && states[0] == f && Last(states) == With(f, d, AfterRows(f.devices[d], n))
    ensures steps == seq(n, _ => Merge(d))
  {
    hide MergeStep, IsPath;
    if n == 0 {
      PathStart(f);
      states, steps := [f], [];
      assert With(f, d, f.devices[d]) == f;
    } else {
      var v := AfterRows(f.devices[d], n - 1);
      states, steps := MergePath(f, d, n - 1);
      MergeEffect(With(f, d, v), d);
      hide Enabled, Do;
      PathPush(states, steps, Merge(d));
      assert With(With(f, d, v), d, MergeStep(v)) == With(f, d, MergeStep(v));
      states, steps := states + [With(f, d, MergeStep(v))], steps + [Merge(d)];
    }
  }

  lemma WirePage(s: Server, t: Table, cursor: int, rows: seq<Fetched>)
    requires ServerOk(s) && s.issued <= I64_MAX && IsPage(s, t, cursor, rows)
    ensures Pull.MaxSeq(cursor, t, Wires(rows)) == LastNumber(rows, cursor)
    ensures rows != [] ==> LastNumber(rows, cursor) > cursor
  {
    var ws := Wires(rows);
    forall i | 0 <= i < |rows|
      ensures WireId(t, ws[i]).Some? && Pull.ChangeSeqOf(ws[i]) == Some(rows[i].row.number) && rows[i].row.number > 0
    {
      assert rows[i].key in s.rows;
      WireNumber(rows[i].key, rows[i].row);
    }
    hide Wires, WireId, Pull.ChangeSeqOf, Pull.MaxSeq, NoGap;
    assert Pull.ServerTable(ws, t);
    Pull.MaxSeqOfRun(cursor, t, ws);
  }

  lemma WireNumber(k: Key, row: ServerRow)
    requires 0 < row.number <= I64_MAX
    ensures WireId(k.table, WireOf(k, row)) == Some(k.id) && Pull.ChangeSeqOf(WireOf(k, row)) == Some(row.number)
  {
  }

  /** Taking an honest page is a path of the fleet: one fetch, one merge per row, one advance. */
  lemma PageIsSteps(f: Fleet, d: nat, t: Table, rows: seq<Fetched>) returns (states: seq<Fleet>, steps: seq<Step>)
    requires Inv(f) && f.server.issued <= I64_MAX && d in f.devices && f.devices[d].page.None? && Synced(t)
    requires IsPage(f.server, t, Pull.CursorOf(f.devices[d].replica, t), rows)
    ensures states != [] && IsPath(states, steps) && states[0] == f
    ensures steps == [Fetch(d, t, rows)] + seq(|rows|, _ => Merge(d)) + [Advance(d)]
    ensures Last(states).server == f.server && d in Last(states).devices && Last(states).devices[d].page.None?
    ensures Last(states).devices[d].replica == Pull.PageTaken(f.devices[d].replica, t, Wires(rows))
  {
    var v1 := f.devices[d].(page := Some(InFlight(t, rows, 0)));
    var f1 := With(f, d, v1);
    var v2 := AfterRows(v1, |rows|);
    PageShape(f.server, f.devices[d], t, rows);
    hide IsPath, IsPage, Wires, AdvanceStep, AfterRows, Pull.PageTaken, Inv;
    FetchEffect(f, d, t, rows);
    var rest, merges := MergePath(f1, d, |rows|);
    AdvanceEffect(With(f1, d, v2), d);
    hide Enabled, Do;
    PathPush(rest, merges, Advance(d));
    var f3 := With(With(f1, d, v2), d, AdvanceStep(v2));
    states, steps := PathBefore(f, Fetch(d, t, rows), rest + [f3], merges + [Advance(d)]);
    assert Last(states) == f3;
  }

  lemma PageShape(s: Server, v: Device, t: Table, rows: seq<Fetched>)
    requires ServerOk(s) && s.issued <= I64_MAX && IsPage(s, t, Pull.CursorOf(v.replica, t), rows)
    ensures var v' := AdvanceStep(AfterRows(v.(page := Some(InFlight(t, rows, 0))), |rows|));
      v'.page.None? && v'.replica == Pull.PageTaken(v.replica, t, Wires(rows))
  {
    WirePage(s, t, Pull.CursorOf(v.replica, t), rows);
    RowsMerged(v.(page := Some(InFlight(t, rows, 0))), |rows|);
    assert Wires(rows)[..|rows|] == Wires(rows);
    Pull.MergeIgnoresCursors(Pull.NO_STATS, v.replica, t, Wires(rows), v.replica.cursors);
    hide MergeRows, Wires, Pull.MaxSeq, IsPage, ServerOk, AfterRows, Pull.CursorOf;
  }

  lemma PathBefore(f: Fleet, step: Step, rest: seq<Fleet>, more: seq<Step>) returns (states: seq<Fleet>, steps: seq<Step>)
    requires Enabled(f, step) && rest != [] && rest[0] == Do(f, step) && IsPath(rest, more)
    ensures states == [f] + rest && steps == [step] + more && IsPath(states, steps)
  {
    hide Enabled, Do;
    states, steps := [f] + rest, [step] + more;
    forall i | 0 <= i < |steps| ensures Enabled(states[i], steps[i]) && states[i + 1] == Do(states[i], steps[i]) {
      if i > 0 {
        assert states[i] == rest[i - 1] && states[i + 1] == rest[i] && steps[i] == more[i - 1];
      }
    }
  }

  // ── A flush ────────────────────────────────────────────────────────────────

  /** What the sink's answer to a group was: acknowledged, refused, or lost after taking effect. */
  function ReplyTo(o: Push.Outcome, lost: bool): Reply {
    if Push.Ok(o) then Acked else if lost then Lost else Refused
  }

  /** The server after the first n groups of a flush; `lost` says which failed calls took effect. */
  function ServerAfter(s: Server, log: seq<Push.Outcome>, lost: nat -> bool, n: nat): Server
    requires n <= |log|
  {
    if n == 0 then s
    else
      var was, o := ServerAfter(s, log, lost, n - 1), log[n - 1];
      if o.verdict.Held? || ReplyTo(o, lost(n - 1)).Refused? then was
      else ServerWrite(was, o.key, o.payload, Push.Sparse(o.key.table, o.payload))
  }

  /** The ids acknowledged by the first n groups. */
  function AckedAfter(r: Replica, log: seq<Push.Outcome>, n: nat): set<nat>
    requires n <= |log|
  {
    if n == 0 then {} else AckedAfter(r, log, n - 1) + if Push.Ok(log[n - 1]) then IdsFor(r, log[n - 1].key) else {}
  }

  /** An accepted patch found its row and was strictly newer. */
  ghost predicate PatchesLand(s: Server, log: seq<Push.Outcome>, lost: nat -> bool) {
    forall i :: 0 <= i < |log| && Push.Ok(log[i]) && Push.Sparse(log[i].key.table, log[i].payload) ==>
      Lands(ServerAfter(s, log, lost, i), log[i].key, log[i].payload, true)
  }

  /** What the flush promises of its log, for a device's queue. */
  ghost predicate LogOf(r: Replica, log: seq<Push.Outcome>) {
    && Push.PayloadsFrom(log, Push.Parseable(r.outbox), r.remap) && Push.FromGroups(log, Push.Parseable(r.outbox), r.remap)
    && Push.Covers(log, r.outbox)
  }

  /** The steps of the first n groups: one dispatch for each group that was sent. */
  function Dispatches(d: nat, r: Replica, log: seq<Push.Outcome>, lost: nat -> bool, n: nat): seq<Step>
    requires n <= |log|
  {
    if n == 0 then []
    else Dispatches(d, r, log, lost, n - 1) + if log[n - 1].verdict.Held? then [] else [DispatchOf(d, r, log, lost, n - 1)]
  }

  /** The fleet after the first n groups. */
  function StateAfter(f: Fleet, d: nat, log: seq<Push.Outcome>, lost: nat -> bool, n: nat): Fleet
    requires d in f.devices && n <= |log|
  {
    Fleet(ServerAfter(f.server, log, lost, n), f.devices[d := f.devices[d].(acked := AckedAfter(f.devices[d].replica, log, n))])
  }

  ghost predicate Flushing(f: Fleet, d: nat, log: seq<Push.Outcome>, lost: nat -> bool) {
    && d in f.devices && f.devices[d].acked == {} && QueueOk(f.devices[d].replica) && LogOf(f.devices[d].replica, log)
    && PatchesLand(f.server, log, lost)
  }

  function DispatchOf(d: nat, r: Replica, log: seq<Push.Outcome>, lost: nat -> bool, i: nat): Step
    requires i < |log|
  {
    Dispatch(d, log[i].key, r.remap, Push.RemapAfter(r.remap, log[..i]), ReplyTo(log[i], lost(i)))
  }

  /** One group sent is one dispatch; one held is none. */
  lemma DispatchOne(f: Fleet, d: nat, log: seq<Push.Outcome>, lost: nat -> bool, i: nat)
    requires Flushing(f, d, log, lost) && i < |log|
    ensures log[i].verdict.Held? ==> StateAfter(f, d, log, lost, i + 1) == StateAfter(f, d, log, lost, i)
    ensures log[i].verdict.Sent? ==>
      var step := DispatchOf(d, f.devices[d].replica, log, lost, i);
      Enabled(StateAfter(f, d, log, lost, i), step) && Do(StateAfter(f, d, log, lost, i), step) == StateAfter(f, d, log, lost, i + 1)
  {
    hide QueueOk, LogOf, PatchesLand, ServerWrite, Push.Sparse, IdsFor, Sends, Push.RemapAfter, Lands;
    var v, o := f.devices[d], log[i];
    AckStep(f, d, v, AckedAfter(v.replica, log, i), IdsFor(v.replica, o.key));
    if o.verdict.Sent? {
      var e := GroupQueued(v.replica, log, i);
      LandsAt(f.server, log, lost, i);
      hide Enabled, Do;
      DispatchEffect(StateAfter(f, d, log, lost, i), d, o.key, v.replica.remap, Push.RemapAfter(v.replica.remap, log[..i]),
                     ReplyTo(o, lost(i)), e);
    }
  }

  lemma AckStep(f: Fleet, d: nat, v: Device, acked: set<nat>, more: set<nat>)
    ensures f.devices[d := v.(acked := acked)][d := v.(acked := acked).(acked := acked + more)] == f.devices[d := v.(acked := acked + more)]
    ensures acked + {} == acked
  {
  }

  lemma DispatchesNext(d: nat, r: Replica, log: seq<Push.Outcome>, lost: nat -> bool, i: nat)
    requires i < |log|
    ensures log[i].verdict.Sent? ==> Dispatches(d, r, log, lost, i + 1) == Dispatches(d, r, log, lost, i) + [DispatchOf(d, r, log, lost, i)]
    ensures log[i].verdict.Held? ==> Dispatches(d, r, log, lost, i + 1) == Dispatches(d, r, log, lost, i)
  {
    hide DispatchOf;
  }

  lemma NothingDispatched(f: Fleet, d: nat, log: seq<Push.Outcome>, lost: nat -> bool)
    requires d in f.devices && f.devices[d].acked == {}
    ensures StateAfter(f, d, log, lost, 0) == f
  {
    assert f.devices[d := f.devices[d].(acked := {})] == f.devices;
  }

  lemma {:induction false} DispatchPath(f: Fleet, d: nat, log: seq<Push.Outcome>, lost: nat -> bool, n: nat) returns (states: seq<Fleet>)
    requires d in f.devices && f.devices[d].acked == {} && Flushing(f, d, log, lost) && n <= |log|
    ensures states != [] && states[0] == f && Last(states) == StateAfter(f, d, log, lost, n)
    ensures IsPath(states, Dispatches(d, f.devices[d].replica, log, lost, n))
  {
    hide Flushing, IsPath, StateAfter, Enabled, Do, DispatchOf;
    var r := f.devices[d].replica;
    if n == 0 {
      PathStart(f);
      states := [f];
      NothingDispatched(f, d, log, lost);
    } else {
      states := DispatchPath(f, d, log, lost, n - 1);
      DispatchOne(f, d, log, lost, n - 1);
      DispatchesNext(d, r, log, lost, n - 1);
      if log[n - 1].verdict.Sent? {
        PathPush(states, Dispatches(d, r, log, lost, n - 1), DispatchOf(d, r, log, lost, n - 1));
        states := states + [StateAfter(f, d, log, lost, n)];
      }
    }
  }

  lemma LandsAt(s: Server, log: seq<Push.Outcome>, lost: nat -> bool, i: nat)
    requires PatchesLand(s, log, lost) && i < |log|
    ensures ReplyTo(log[i], lost(i)).Acked? && Push.Sparse(log[i].key.table, log[i].payload) ==>
      Lands(ServerAfter(s, log, lost, i), log[i].key, log[i].payload, true)
  {
  }

  /** Each group of the log is queued, and its payload is what the fleet sends for it. */
  lemma GroupQueued(r: Replica, log: seq<Push.Outcome>, i: nat) returns (e: Entry)
    requires QueueOk(r) && LogOf(r, log) && i < |log|
    ensures e in r.outbox && IsFor(e, log[i].key)
    ensures log[i].payload == Sends(r, log[i].key, r.remap, Push.RemapAfter(r.remap, log[..i]))
  {
    FlushSends(r, log, i);
    hide Push.PayloadsFrom, Push.FromGroups, Sends, CarriesRowStamp, GroupKey, Filter;
    FilterMembers(Push.Parses(), r.outbox);
    assert log[i] in log && log[i].key in Push.LogKeys(log);
    e :| e in Push.Parseable(r.outbox) && GroupKey(e) == log[i].key;
    assert Backed(r, e);
    GroupKeyOf(e, log[i].key);
  }

  lemma {:induction false} AckedIds(r: Replica, log: seq<Push.Outcome>, n: nat, e: Entry)
    requires QueueOk(r) && Push.FromGroups(log, Push.Parseable(r.outbox), r.remap) && n <= |log| && e in r.outbox
    ensures e.id in AckedAfter(r, log, n) <==> e.id in Push.OkIds(log[..n])
  {
    if n > 0 {
      AckedIds(r, log, n - 1, e);
      assert log[..n][..n - 1] == log[..n - 1];
      GroupIds(r, log, n - 1, e);
      hide QueueOk, Push.FromGroups, IdsFor;
    }
  }

  lemma GroupIds(r: Replica, log: seq<Push.Outcome>, i: nat, e: Entry)
    requires QueueOk(r) && Push.FromGroups(log, Push.Parseable(r.outbox), r.remap) && i < |log| && e in r.outbox
    ensures e.id in IdsFor(r, log[i].key) <==> e.id in log[i].ids
  {
    assert log[i] in log;
    AllParse(r);
    UniqueIds(r);
    hide Push.FromGroups, CollapseOf, CarriesRowStamp, GroupKey;
    CollapsePartition(r.outbox, log[i].key, r.remap, e);
    IdsForRecord(r, log[i].key);
    assert Backed(r, e);
    GroupKeyOf(e, log[i].key);
  }

  lemma AllParse(r: Replica)
    requires QueueOk(r)
    ensures Push.Parseable(r.outbox) == r.outbox
  {
    hide CarriesRowStamp;
    forall e | e in r.outbox ensures Push.Parses()(e) {
      assert Backed(r, e);
    }
    FilterAll(Push.Parses(), r.outbox);
  }

  /** A flush is a path of the fleet: one dispatch per group sent, in the order of its log and with the
      remaps in force, then one clear; the device ends with the queue the flush leaves. */
  lemma FlushIsSteps(f: Fleet, d: nat, log: seq<Push.Outcome>, lost: nat -> bool) returns (states: seq<Fleet>)
    requires Flushing(f, d, log, lost)
    ensures var r := f.devices[d].replica;
      && states != [] && states[0] == f && IsPath(states, Dispatches(d, r, log, lost, |log|) + [Clear(d)])
      && Last(states).server == ServerAfter(f.server, log, lost, |log|)
      && d in Last(states).devices && Last(states).devices[d].acked == {} && Last(states).devices[d].page == f.devices[d].page
      && Last(states).devices[d].replica == r.(outbox := Filter(Not(IdIn(Push.OkIds(log))), r.outbox))
  {
    var v := f.devices[d];
    var r := v.replica;
    states := DispatchPath(f, d, log, lost, |log|);
    var f1 := Last(states);
    ClearEffect(f1, d);
    hide Enabled, Do;
    hide IsPath, PatchesLand, Filter, Dispatches, ServerAfter;
    PathPush(states, Dispatches(d, r, log, lost, |log|), Clear(d));
    states := states + [Do(f1, Clear(d))];
    forall e | e in r.outbox ensures Not(In(AckedAfter(r, log, |log|)))(e) == Not(IdIn(Push.OkIds(log)))(e) {
      AckedIds(r, log, |log|, e);
      assert log[..|log|] == log;
    }
    FilterCongruent(Not(In(AckedAfter(r, log, |log|))), Not(IdIn(Push.OkIds(log))), r.outbox);
  }

  // ── Going quiet ────────────────────────────────────────────────────────────

  lemma {:induction false} PathKeepsInv(states: seq<Fleet>, steps: seq<Step>, i: nat)
    requires IsPath(states, steps) && i < |states| && Inv(states[0])
    ensures Inv(states[i])
  {
    hide Inv, Enabled, Do;
    if i > 0 {
      PathKeepsInv(states, steps, i - 1);
      StepKeepsInv(states[i - 1], steps[i - 1]);
    }
  }

  lemma PathJoin(a: seq<Fleet>, more: seq<Step>, b: seq<Fleet>, rest: seq<Step>) returns (states: seq<Fleet>, steps: seq<Step>)
    requires a != [] && b != [] && IsPath(a, more) && IsPath(b, rest) && Last(a) == b[0]
    ensures states != [] && IsPath(states, steps) && states[0] == a[0] && Last(states) == Last(b) && steps == more + rest
  {
    hide Enabled, Do;
    states, steps := a + b[1..], more + rest;
    forall i | 0 <= i < |steps| ensures Enabled(states[i], steps[i]) && states[i + 1] == Do(states[i], steps[i]) {
      if i < |more| {
        assert states[i] == a[i] && states[i + 1] == a[i + 1] && steps[i] == more[i];
      } else {
        var j := i - |more|;
        assert states[i] == b[j] && states[i + 1] == b[j + 1] && steps[i] == rest[j];
      }
    }
  }

  /** Rows of the server in the order of their numbers. */
  lemma {:induction false} InOrder(s: Server, keys: set<Key>) returns (rows: seq<Fetched>)
    requires ServerOk(s) && forall k :: k in keys ==> k in s.rows
    ensures forall x :: x in rows <==> x.key in keys && x.key in s.rows && x.row == s.rows[x.key]
    ensures forall i, j :: 0 <= i < j < |rows| ==> rows[i].row.number < rows[j].row.number
    decreases keys
  {
    if keys == {} {
      rows := [];
    } else {
      var top := Topmost(s, keys);
      var front := InOrder(s, keys - {top});
      rows := front + [Fetched(top, s.rows[top])];
      forall i | 0 <= i < |front| ensures front[i].row.number < s.rows[top].number {
        assert front[i] in front;
      }
    }
  }

  lemma {:induction false} Topmost(s: Server, keys: set<Key>) returns (top: Key)
    requires ServerOk(s) && keys != {} && forall k :: k in keys ==> k in s.rows
    ensures top in keys && forall k :: k in keys && k != top ==> s.rows[k].number < s.rows[top].number
    decreases keys
  {
    var k :| k in keys;
    var others := keys - {k};
    if others == {} {
      top := k;
      assert keys == {k};
    } else {
      var best := Topmost(s, others);
      top := if s.rows[best].number < s.rows[k].number then k else best;
      assert forall x :: x in keys <==> x in others || x == k;
    }
  }

  /** Every row of a table above a cursor, as one page. */
  lemma WholePage(s: Server, t: Table, cursor: int) returns (rows: seq<Fetched>)
    requires ServerOk(s)
    ensures IsPage(s, t, cursor, rows)
    ensures forall k :: k in s.rows && k.table == t ==> s.rows[k].number <= LastNumber(rows, cursor)
  {
    var keys := set k | k in s.rows && k.table == t && s.rows[k].number > cursor;
    rows := InOrder(s, keys);
    hide ServerOk;
    AllInPage(s, t, cursor, keys, rows);
    forall k | k in s.rows && k.table == t && s.rows[k].number > cursor ensures s.rows[k].number <= LastNumber(rows, cursor) {
      InPage(s, rows, k, cursor);
    }
    hide IsPage;
    LastAbove(rows, cursor);
  }

  lemma AllInPage(s: Server, t: Table, cursor: int, keys: set<Key>, rows: seq<Fetched>)
    requires keys == set k | k in s.rows && k.table == t && s.rows[k].number > cursor
    requires forall x :: x in rows <==> x.key in keys && x.key in s.rows && x.row == s.rows[x.key]
    requires forall i, j :: 0 <= i < j < |rows| ==> rows[i].row.number < rows[j].row.number
    ensures IsPage(s, t, cursor, rows) && forall i :: 0 <= i < |rows| ==> rows[i].row.number > cursor
  {
    hide LastNumber;
    forall i | 0 <= i < |rows| ensures rows[i].key in keys && rows[i].row == s.rows[rows[i].key] {
      assert rows[i] in rows;
    }
  }

  lemma InPage(s: Server, rows: seq<Fetched>, k: Key, cursor: int)
    requires k in s.rows && Fetched(k, s.rows[k]) in rows
    requires forall i, j :: 0 <= i < j < |rows| ==> rows[i].row.number < rows[j].row.number
    ensures s.rows[k].number <= LastNumber(rows, cursor)
  {
    var i :| 0 <= i < |rows| && rows[i] == Fetched(k, s.rows[k]);
  }

  lemma LastAbove(rows: seq<Fetched>, cursor: int)
    requires forall i :: 0 <= i < |rows| ==> rows[i].row.number > cursor
    ensures cursor <= LastNumber(rows, cursor)
  {
  }

  /** A device with its cursor of a table past every server row, and the rest as it was. */
  ghost predicate CaughtUp(f: Fleet, f': Fleet, d: nat, t: Table) {
    && d in f.devices && d in f'.devices && f'.server == f.server && f'.devices[d].page.None?
    && (forall k :: k in f.server.rows && k.table == t ==> f.server.rows[k].number <= Pull.CursorOf(f'.devices[d].replica, t))
    && (forall t' :: t' != t ==> Pull.CursorOf(f'.devices[d].replica, t') == Pull.CursorOf(f.devices[d].replica, t'))
    && (f.devices[d].replica.outbox == [] ==> f'.devices[d].replica.outbox == [])
  }

  /** Nothing is staged, imported or written by others. */
  predicate OnlySyncs(steps: seq<Step>) {
    forall step :: step in steps ==> !step.Stage? && !step.ImportOne? && !step.Foreign?
  }

  /** Paging a table to its end. */
  lemma PullTablePath(f: Fleet, d: nat, t: Table) returns (states: seq<Fleet>, steps: seq<Step>)
    requires Inv(f) && f.server.issued <= I64_MAX && d in f.devices && f.devices[d].page.None? && Synced(t)
    ensures states != [] && IsPath(states, steps) && states[0] == f && CaughtUp(f, Last(states), d, t) && OnlySyncs(steps)
  {
    var r := f.devices[d].replica;
    var cursor := Pull.CursorOf(r, t);
    var rows := WholePage(f.server, t, cursor);
    states, steps := PageIsSteps(f, d, t, rows);
    TakenCursor(f.server, r, t, rows);
    Pull.SameOnlyTable(r, t);
    Pull.PageOnlyTable(r, r, t, Wires(rows));
    var r' := Pull.PageTaken(r, t, Wires(rows));
    PageSyncs(d, t, rows);
    hide IsPath, IsPage, Inv, Pull.PageTaken, Wires, Pull.SameAt, LastNumber, OnlySyncs;
    assert r'.outbox != [] ==> r'.outbox[0] in r.outbox;
  }

  lemma PageSyncs(d: nat, t: Table, rows: seq<Fetched>)
    ensures OnlySyncs([Fetch(d, t, rows)] + seq(|rows|, _ => Merge(d)) + [Advance(d)])
  {
  }

  lemma TakenCursor(s: Server, r: Replica, t: Table, rows: seq<Fetched>)
    requires ServerOk(s) && s.issued <= I64_MAX && IsPage(s, t, Pull.CursorOf(r, t), rows)
    ensures Pull.CursorOf(Pull.PageTaken(r, t, Wires(rows)), t) == LastNumber(rows, Pull.CursorOf(r, t))
  {
    WirePage(s, t, Pull.CursorOf(r, t), rows);
    Pull.MergeIgnoresCursors(Pull.NO_STATS, r, t, Wires(rows), r.cursors);
    hide MergeRows, Wires, Pull.MaxSeq, IsPage, ServerOk;
  }

  /** A device that has caught up on the first n tables. */
  ghost predicate CaughtUpTo(f: Fleet, f': Fleet, d: nat, n: nat) {
    && n <= |SYNCED_TABLES| && d in f'.devices && f'.server == f.server && f'.devices[d].page.None?
    && f'.devices[d].replica.outbox == []
    && (forall k :: k in f.server.rows && k.table in SYNCED_TABLES[..n] ==>
          f.server.rows[k].number <= Pull.CursorOf(f'.devices[d].replica, k.table))
  }

  lemma {:induction false} PullAllPath(f: Fleet, d: nat, n: nat) returns (states: seq<Fleet>, steps: seq<Step>)
    requires Inv(f) && f.server.issued <= I64_MAX && d in f.devices && f.devices[d].page.None? && f.devices[d].replica.outbox == []
    requires n <= |SYNCED_TABLES|
    ensures states != [] && IsPath(states, steps) && states[0] == f && CaughtUpTo(f, Last(states), d, n) && OnlySyncs(steps)
  {
    if n == 0 {
      PathStart(f);
      states, steps := [f], [];
    } else {
      var front, before := PullAllPath(f, d, n - 1);
      var t, f1 := SYNCED_TABLES[n - 1], Last(front);
      OneOfTables(n - 1);
      PathEnds(front, before);
      hide Inv, IsPath, SYNCED_TABLES, OnlySyncs;
      var rest, more := PullTablePath(f1, d, t);
      states, steps := PathJoin(front, before, rest, more);
      SyncsJoin(before, more);
      NextTable(f, f1, Last(rest), d, n);
    }
  }

  lemma PathEnds(states: seq<Fleet>, steps: seq<Step>)
    requires states != [] && IsPath(states, steps) && Inv(states[0])
    ensures Inv(Last(states))
  {
    hide Inv, Enabled, Do;
    PathKeepsInv(states, steps, |states| - 1);
  }

  lemma OneOfTables(i: nat)
    requires i < |SYNCED_TABLES|
    ensures Synced(SYNCED_TABLES[i])
  {
    Push.RankAt(i);
    Push.TableAtRank(SYNCED_TABLES[i]);
  }

  lemma NextTable(f: Fleet, f1: Fleet, f2: Fleet, d: nat, n: nat)
    requires 0 < n <= |SYNCED_TABLES| && CaughtUpTo(f, f1, d, n - 1) && CaughtUp(f1, f2, d, SYNCED_TABLES[n - 1])
    ensures CaughtUpTo(f, f2, d, n)
  {
    hide SYNCED_TABLES;
    assert SYNCED_TABLES[..n] == SYNCED_TABLES[..n - 1] + [SYNCED_TABLES[n - 1]];
  }

  /** Nothing queued, and every cursor past every server row. */
  ghost predicate DeviceQuiet(f: Fleet, d: nat) {
    d in f.devices && f.devices[d].replica.outbox == [] &&
    forall k :: k in f.server.rows ==> f.server.rows[k].number <= Pull.CursorOf(f.devices[d].replica, k.table)
  }

  /** What a flush promises of its log when every group is acknowledged. */
  ghost predicate AllAcknowledged(r: Replica, log: seq<Push.Outcome>) {
    LogOf(r, log) && Push.EachOnce(log) && Push.HeldForCause(log) && forall i :: 0 <= i < |log| && log[i].verdict.Sent? ==> log[i].verdict.accepted
  }

  /** From every state of every run, a device goes quiet: abandoning what it was at, one flush with every
      group acknowledged, then paging every table to its end. */
  lemma DeviceGoesQuiet(f: Fleet, d: nat, log: seq<Push.Outcome>, lost: nat -> bool) returns (states: seq<Fleet>, steps: seq<Step>)
    requires Inv(f) && d in f.devices && AllAcknowledged(f.devices[d].replica, log) && PatchesLand(f.server, log, lost)
    requires ServerAfter(f.server, log, lost, |log|).issued <= I64_MAX
    ensures states != [] && IsPath(states, steps) && states[0] == f && DeviceQuiet(Last(states), d) && OnlySyncs(steps)
  {
    var f0 := With(f, d, f.devices[d].(page := None, acked := {}));
    hide Inv, IsPath, PatchesLand, ServerAfter, AllAcknowledged, DeviceQuiet, OnlySyncs;
    AbortEffect(f, d);
    StepKeepsInv(f, Abort(d));
    hide Enabled, Do;
    var rest, more := QuietFromIdle(f0, d, log, lost);
    states, steps := PathBefore(f, Abort(d), rest, more);
    AbortSyncs(d);
    SyncsJoin([Abort(d)], more);
  }

  lemma AbortSyncs(d: nat)
    ensures OnlySyncs([Abort(d)])
  {
  }

  lemma SyncsJoin(a: seq<Step>, b: seq<Step>)
    requires OnlySyncs(a) && OnlySyncs(b)
    ensures OnlySyncs(a + b)
  {
  }

  lemma QuietFromIdle(f: Fleet, d: nat, log: seq<Push.Outcome>, lost: nat -> bool) returns (states: seq<Fleet>, steps: seq<Step>)
    requires Inv(f) && d in f.devices && f.devices[d].page.None? && f.devices[d].acked == {}
    requires AllAcknowledged(f.devices[d].replica, log) && PatchesLand(f.server, log, lost)
    requires ServerAfter(f.server, log, lost, |log|).issued <= I64_MAX
    ensures states != [] && IsPath(states, steps) && states[0] == f && DeviceQuiet(Last(states), d) && OnlySyncs(steps)
  {
    var r := f.devices[d].replica;
    QueueOkAt(f, d);
    Drained(r, log);
    FlushStarts(f, d, log, lost);
    hide Inv, IsPath, PatchesLand, ServerAfter, AllAcknowledged, DeviceQuiet, QueueOk, Flushing, Dispatches, CaughtUpTo, Filter, SYNCED_TABLES, OnlySyncs;
    var flushed := FlushIsSteps(f, d, log, lost);
    var sends := Dispatches(d, r, log, lost, |log|) + [Clear(d)];
    FlushSyncs(d, r, log, lost);
    PathEnds(flushed, sends);
    var pulled, pages := PullAllPath(Last(flushed), d, |SYNCED_TABLES|);
    AllTables(Last(flushed), Last(pulled), d);
    SyncsJoin(sends, pages);
    states, steps := PathJoin(flushed, sends, pulled, pages);
  }

  lemma FlushSyncs(d: nat, r: Replica, log: seq<Push.Outcome>, lost: nat -> bool)
    ensures OnlySyncs(Dispatches(d, r, log, lost, |log|) + [Clear(d)])
  {
    DispatchesSync(d, r, log, lost, |log|);
    hide Dispatches;
  }

  lemma {:induction false} DispatchesSync(d: nat, r: Replica, log: seq<Push.Outcome>, lost: nat -> bool, n: nat)
    requires n <= |log|
    ensures OnlySyncs(Dispatches(d, r, log, lost, n))
  {
    if n > 0 {
      DispatchesSync(d, r, log, lost, n - 1);
      DispatchesNext(d, r, log, lost, n - 1);
    }
  }

  lemma FlushStarts(f: Fleet, d: nat, log: seq<Push.Outcome>, lost: nat -> bool)
    requires d in f.devices && f.devices[d].acked == {} && QueueOk(f.devices[d].replica)
    requires AllAcknowledged(f.devices[d].replica, log) && PatchesLand(f.server, log, lost)
    ensures Flushing(f, d, log, lost)
  {
    hide QueueOk, LogOf, PatchesLand, Push.EachOnce, Push.HeldForCause;
  }

  lemma AbortEffect(f: Fleet, d: nat)
    requires d in f.devices
    ensures Enabled(f, Abort(d)) && Do(f, Abort(d)) == With(f, d, f.devices[d].(page := None, acked := {}))
  {
  }

  lemma QueueOkAt(f: Fleet, d: nat)
    requires Inv(f) && d in f.devices
    ensures QueueOk(f.devices[d].replica)
  {
    hide ServerOk, DeviceOk, QueueOk;
    DeviceQueueOk(f.server, f.devices[d]);
  }

  /** An acknowledged flush leaves nothing of a device's queue. */
  lemma Drained(r: Replica, log: seq<Push.Outcome>)
    requires QueueOk(r) && AllAcknowledged(r, log)
    ensures Filter(Not(IdIn(Push.OkIds(log))), r.outbox) == []
  {
    IdsRise(r);
    forall e | e in r.outbox ensures !Push.Unsendable()(e) {
      AllSendable(r, e);
    }
    FilterNone(Push.Unsendable(), r.outbox);
    hide QueueOk, Filter, Push.OkIds, Push.PayloadsFrom, Push.FromGroups, Push.Covers, Push.EachOnce, Push.HeldForCause, IdsIncrease;
    Push.AcceptingSinkDrains(log, r.outbox, r.nextId, r.remap);
  }

  lemma AllSendable(r: Replica, e: Entry)
    requires QueueOk(r) && e in r.outbox
    ensures e.payload.Object? && Synced(e.table)
  {
    hide CarriesRowStamp, QueueOrdered;
    assert Backed(r, e) && GroupKey(e).table == e.table;
  }

  lemma IdsRise(r: Replica)
    requires QueueOk(r)
    ensures IdsIncrease(r.outbox, r.nextId)
  {
    hide Backed, StampOf;
    forall i | 0 <= i < |r.outbox| ensures r.outbox[i].id < r.nextId {
      KnownId(r, r.outbox[i]);
    }
    forall i, j | 0 <= i < j < |r.outbox| ensures r.outbox[i].id < r.outbox[j].id {
      assert Follows(r.outbox[i], r.outbox[j]);
    }
  }

  lemma AllTables(f: Fleet, f': Fleet, d: nat)
    requires Inv(f) && CaughtUpTo(f, f', d, |SYNCED_TABLES|)
    ensures DeviceQuiet(f', d)
  {
    hide DeviceOk;
    assert SYNCED_TABLES[..|SYNCED_TABLES|] == SYNCED_TABLES;
    forall k | k in f.server.rows ensures k.table in SYNCED_TABLES {
      Push.TableAtRank(k.table);
    }
    hide SYNCED_TABLES;
  }
}
