/** Building paths of the fleet step by step. */
module PathModel {
  import opened Data
  import opened Seqs
  import opened ReplicaModel
  import opened FleetModel
  import opened TimedModel
  import opened ConvergenceModel
  import Push = PushModel
  import Pull = PullModel

  function Last(states: seq<Fleet>): Fleet
    requires states != []
  {
    states[|states| - 1]
  }

  lemma PathStart(f: Fleet)
    ensures IsPath([f], [])
  {
  }

  /** One more step. */
  lemma PathPush(states: seq<Fleet>, steps: seq<Step>, step: Step)
    requires IsPath(states, steps) && Enabled(Last(states), step)
    ensures IsPath(states + [Do(Last(states), step)], steps + [step])
  {
    hide Enabled, Do;
    var states', steps' := states + [Do(Last(states), step)], steps + [step];
    forall i | 0 <= i < |steps'| ensures Enabled(states'[i], steps'[i]) && states'[i + 1] == Do(states'[i], steps'[i]) {
      if i < |steps| {
        assert states'[i] == states[i] && states'[i + 1] == states[i + 1] && steps'[i] == steps[i];
      }
    }
  }

  lemma RunPush(states: seq<Fleet>, steps: seq<Step>, step: Step)
    requires IsRun(states, steps) && Enabled(Last(states), step)
    ensures IsRun(states + [Do(Last(states), step)], steps + [step])
  {
    hide Enabled, Do, Init, IsPath;
    assert |states| > 0 by {
      PathLength(states, steps);
    }
    PathPush(states, steps, step);
  }

  lemma PathLength(states: seq<Fleet>, steps: seq<Step>)
    requires IsPath(states, steps)
    ensures |states| == |steps| + 1
  {
    hide Enabled, Do;
  }

  lemma TimedPush(states: seq<Fleet>, steps: seq<Step>, step: Step)
    requires IsTimedRun(states, steps) && Enabled(Last(states), step) && Punctual(Last(states), step)
    ensures IsTimedRun(states + [Do(Last(states), step)], steps + [step])
  {
    hide Enabled, Do, Init, Punctual;
    RunPush(states, steps, step);
    var states', steps' := states + [Do(Last(states), step)], steps + [step];
    forall i | 0 <= i < |steps'| ensures Punctual(states'[i], steps'[i]) {
      if i < |steps| {
        assert states'[i] == states[i] && steps'[i] == steps[i];
      }
    }
  }

  // ── The effect of each step on one device ──────────────────────────────────

  function With(f: Fleet, d: nat, v: Device): Fleet {
    f.(devices := f.devices[d := v])
  }

  /** A stamped write whose claim is above the stored stamp is staged as it is. */
  lemma StageTakes(v: Device, k: Key, p: Row, at: int, revive: bool)
    requires Synced(k.table) && Stamp(p).Some? && StampOr0(Existing(v.replica, k)) < Stamp(p).value
    ensures var r := if revive then DropPendingDeletes(v.replica, k) else v.replica;
      StageStep(v, k, p, at, revive) ==
      v.(replica := Enqueue(r.(rows := r.rows[k := Project(k.table, Existing(v.replica, k) + p)]), k, p, at))
  {
    hide Project, Filter, Columns, StampOr0;
    assert p[UpdatedAt := Int(Stamp(p).value)] == p;
  }

  /** A claim not above the stored stamp is raised to the next one. */
  lemma StageClamps(v: Device, k: Key, p: Row, at: int)
    requires Synced(k.table) && Stamp(p).Some? && Stamp(p).value <= StampOr0(Existing(v.replica, k)) < I64_MAX
    ensures var r, p' := v.replica, p[UpdatedAt := Int(StampOr0(Existing(v.replica, k)) + 1)];
      StageStep(v, k, p, at, false) ==
      v.(replica := Enqueue(r.(rows := r.rows[k := Project(k.table, Existing(r, k) + p')]), k, p', at))
  {
    hide Project, Columns, StampOr0;
  }

  lemma StageEffect(f: Fleet, d: nat, k: Key, p: Row, at: int, revive: bool)
    requires d in f.devices && Synced(k.table) && Addresses(k, p) && Stamp(p).Some?
    ensures var step := Stage(d, k, p, at, revive);
      Enabled(f, step) && Do(f, step) == With(f, d, StageStep(f.devices[d], k, p, at, revive))
  {
    hide StageStep;
  }

  lemma ImportEffect(f: Fleet, d: nat, w: Write, batch: int)
    requires d in f.devices && Synced(w.key.table) && Addresses(w.key, w.row) && Stamp(w.row).Some?
    requires StampOr0(Existing(f.devices[d].replica, w.key)) < Stamp(w.row).value
    ensures Enabled(f, ImportOne(d, w, batch))
    ensures Do(f, ImportOne(d, w, batch)) == With(f, d, f.devices[d].(replica := ImportWrite(f.devices[d].replica, w, batch)))
  {
    hide ImportWrite;
  }

  lemma FetchEffect(f: Fleet, d: nat, t: Table, rows: seq<Fetched>)
    requires d in f.devices && f.devices[d].page.None? && Synced(t)
    requires IsPage(f.server, t, Pull.CursorOf(f.devices[d].replica, t), rows)
    ensures Enabled(f, Fetch(d, t, rows))
    ensures Do(f, Fetch(d, t, rows)) == With(f, d, f.devices[d].(page := Some(InFlight(t, rows, 0))))
  {
    hide IsPage;
  }

  lemma MergeEffect(f: Fleet, d: nat)
    requires d in f.devices && f.devices[d].page.Some? && f.devices[d].page.value.done < |f.devices[d].page.value.rows|
    ensures Enabled(f, Merge(d)) && Do(f, Merge(d)) == With(f, d, MergeStep(f.devices[d]))
  {
    hide MergeStep;
  }

  lemma AdvanceEffect(f: Fleet, d: nat)
    requires d in f.devices && f.devices[d].page.Some? && f.devices[d].page.value.done == |f.devices[d].page.value.rows|
    ensures Enabled(f, Advance(d)) && Do(f, Advance(d)) == With(f, d, AdvanceStep(f.devices[d]))
  {
    hide AdvanceStep;
  }

  /** A dispatch: refused, lost or acknowledged; a patch is acknowledged only where it lands. */
  lemma DispatchEffect(f: Fleet, d: nat, k: Key, before: map<string, string>, after: map<string, string>, reply: Reply, e: Entry)
    requires d in f.devices && e in f.devices[d].replica.outbox && IsFor(e, k)
    requires var p := Sends(f.devices[d].replica, k, before, after);
      reply.Acked? && Push.Sparse(k.table, p) ==> Lands(f.server, k, p, true)
    ensures var v, p := f.devices[d], Sends(f.devices[d].replica, k, before, after);
      var step := Dispatch(d, k, before, after, reply);
      && Enabled(f, step)
      && Do(f, step) == Fleet(if reply.Refused? then f.server else ServerWrite(f.server, k, p, Push.Sparse(k.table, p)),
                              if reply.Acked? then f.devices[d := v.(acked := v.acked + IdsFor(v.replica, k))] else f.devices)
  {
    hide Sends, ServerWrite, IdsFor, Push.Sparse, Lands;
  }

  lemma ClearEffect(f: Fleet, d: nat)
    requires d in f.devices
    ensures Enabled(f, Clear(d)) && Do(f, Clear(d)) == With(f, d, ClearStep(f.devices[d]))
  {
    hide ClearStep;
  }

  lemma ForeignEffect(f: Fleet, k: Key, payload: Row)
    requires Synced(k.table) && Stamp(payload).Some?
    ensures Enabled(f, Foreign(k, payload)) && Do(f, Foreign(k, payload)) == f.(server := ServerWrite(f.server, k, payload, false))
  {
    hide ServerWrite;
  }
}
