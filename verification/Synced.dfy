/** Where one device's own sync leaves it, from every state of every run. */
module SyncedModel {
  import opened Data
  import opened FleetModel
  import opened TimedModel
  import opened ConvergenceModel
  import opened ContentsModel
  import opened PathModel
  import opened LinkModel
  import Push = PushModel

  lemma SyncIsPunctual(f: Fleet, step: Step, z: Key)
    requires Enabled(f, step) && !step.Stage? && !step.ImportOne?
    ensures PunctualFor(f, step, z)
  {
    hide Enabled;
  }

  lemma {:induction false} SyncKeepsTimed(states: seq<Fleet>, steps: seq<Step>, i: nat, z: Key)
    requires IsPath(states, steps) && i < |states| && Inv(states[0]) && Timed(states[0], z) && OnlySyncs(steps)
    ensures Timed(states[i], z)
  {
    hide Inv, Timed, Enabled, Do, PunctualFor;
    if i > 0 {
      SyncKeepsTimed(states, steps, i - 1, z);
      PathKeepsInv(states, steps, i - 1);
      SyncIsPunctual(states[i - 1], steps[i - 1], z);
      StepKeepsTimed(states[i - 1], steps[i - 1], z);
    }
  }

  lemma {:induction false} SyncKeepsContents(states: seq<Fleet>, steps: seq<Step>, i: nat, h: History)
    requires IsPath(states, steps) && i < |states| && Inv(states[0]) && Timed(states[0], h.key) && Contents(states[0], h)
    requires OnlySyncs(steps) && (h.key.table == Notes ==> BookId in h.loose)
    ensures Contents(states[i], h)
  {
    hide Inv, Timed, Contents, Enabled, Do, FullAndTieFree, Recorded;
    if i > 0 {
      SyncKeepsContents(states, steps, i - 1, h);
      SyncKeepsTimed(states, steps, i - 1, h.key);
      PathKeepsInv(states, steps, i - 1);
      NothingWritten(states[i - 1], h, steps[i - 1]);
      StepKeepsContents(states[i - 1], h, steps[i - 1]);
    }
  }

  lemma QuietForEach(f: Fleet, d: nat, k: Key)
    requires DeviceQuiet(f, d)
    ensures d in f.devices && QuietFor(f, d, k)
  {
  }

  /** The local row and the server's have the same contents, apart from the given up columns. */
  ghost predicate ContentsAgree(f: Fleet, d: nat, h: History)
    requires d in f.devices
  {
    var v, k := f.devices[d], h.key;
    k in v.replica.rows && !CreatedOverTombstone(v, k) ==>
      k in f.server.rows && Core(k.table, v.replica.rows[k], h.loose) == Core(k.table, f.server.rows[k].fields, h.loose)
  }

  /** A full-row, tie-free record; a note's book id, which a flush may rewrite, is given up. */
  ghost predicate FullUpToBookId(states: seq<Fleet>, steps: seq<Step>, hs: seq<History>) {
    IsFullRun(states, steps, hs) && (hs[0].key.table == Notes ==> BookId in hs[0].loose)
  }

  /** From every state of every run and whatever the other devices are at: a flush with every group
      acknowledged, then the next pull of every table to its end, brings the device to the server's stamp for every
      record whose writes were queued in time order, and to the server's contents for every record whose
      writes were full-row and tie-free as well. */
  lemma SyncConverges(states: seq<Fleet>, steps: seq<Step>, d: nat, log: seq<Push.Outcome>, lost: nat -> bool)
    returns (rest: seq<Fleet>, more: seq<Step>)
    requires states != [] && IsRun(states, steps) && d in Last(states).devices
    requires AllAcknowledged(Last(states).devices[d].replica, log) && PatchesLand(Last(states).server, log, lost)
    requires ServerAfter(Last(states).server, log, lost, |log|).issued <= I64_MAX
    ensures rest != [] && IsPath(rest, more) && rest[0] == Last(states) && OnlySyncs(more) && DeviceQuiet(Last(rest), d)
    ensures forall k :: IsTimedFor(states, steps, k) ==> StampsAgree(Last(rest), d, k)
    ensures forall hs :: FullUpToBookId(states, steps, hs) ==> ContentsAgree(Last(rest), d, hs[0])
  {
    hide Inv, IsRun, IsPath, AllAcknowledged, PatchesLand, ServerAfter, DeviceQuiet, StampsAgree, IsTimedFor, FullUpToBookId, ContentsAgree, OnlySyncs;
    LastOk(states, steps);
    rest, more := DeviceGoesQuiet(Last(states), d, log, lost);
    QuietForEach(Last(rest), d, Key(Notes, ""));
    forall k | IsTimedFor(states, steps, k) ensures StampsAgree(Last(rest), d, k) {
      SyncedStamps(states, steps, rest, more, d, k);
    }
    forall hs | FullUpToBookId(states, steps, hs) ensures hs != [] && ContentsAgree(Last(rest), d, hs[0]) {
      SyncedContents(states, steps, hs, rest, more, d);
    }
  }

  lemma LastOk(states: seq<Fleet>, steps: seq<Step>)
    requires states != [] && IsRun(states, steps)
    ensures Inv(Last(states))
  {
    hide Inv, IsRun;
    RunKeepsInv(states, steps, |states| - 1);
  }

  lemma SyncedStamps(states: seq<Fleet>, steps: seq<Step>, rest: seq<Fleet>, more: seq<Step>, d: nat, k: Key)
    requires states != [] && IsTimedFor(states, steps, k)
    requires rest != [] && IsPath(rest, more) && rest[0] == Last(states) && OnlySyncs(more) && DeviceQuiet(Last(rest), d)
    ensures Inv(Last(rest)) && Timed(Last(rest), k) && QuietFor(Last(rest), d, k) && StampsAgree(Last(rest), d, k)
  {
    RunKeepsTimed(states, steps, |states| - 1, k);
    LastOk(states, steps);
    QuietForEach(Last(rest), d, k);
    assert d in Last(rest).devices;
    hide Inv, Timed, IsTimedFor, IsPath, DeviceQuiet, QuietFor, StampsAgree, OnlySyncs;
    PathKeepsInv(rest, more, |rest| - 1);
    SyncKeepsTimed(rest, more, |rest| - 1, k);
    QuietStamps(Last(rest), d, k);
  }

  lemma SyncedContents(states: seq<Fleet>, steps: seq<Step>, hs: seq<History>, rest: seq<Fleet>, more: seq<Step>, d: nat)
    requires states != [] && FullUpToBookId(states, steps, hs)
    requires rest != [] && IsPath(rest, more) && rest[0] == Last(states) && OnlySyncs(more) && DeviceQuiet(Last(rest), d)
    ensures hs != [] && ContentsAgree(Last(rest), d, hs[0])
  {
    var i, h := |states| - 1, hs[|states| - 1];
    RunKeepsContents(states, steps, hs, i);
    RunKeepsTimed(states, steps, i, hs[0].key);
    LastOk(states, steps);
    SyncedStamps(states, steps, rest, more, d, hs[0].key);
    hide IsFullRun;
    assert d in Last(rest).devices;
    hide Inv, Timed, IsPath, DeviceQuiet, QuietFor, StampsAgree, OnlySyncs, Contents, ContentsAgree;
    SyncKeepsContents(rest, more, |rest| - 1, h);
    SameContentsAt(Last(rest), d, h);
    SameAgreed(Last(rest), d, h, hs[0]);
  }

  lemma SameAgreed(f: Fleet, d: nat, h: History, h': History)
    requires d in f.devices && ContentsAgree(f, d, h) && h'.key == h.key && h'.loose == h.loose
    ensures ContentsAgree(f, d, h')
  {
    hide Core;
  }

  /** One stamp, one version. */
  lemma SameContentsAt(f: Fleet, d: nat, h: History)
    requires d in f.devices && StampsAgree(f, d, h.key) && Contents(f, h)
    ensures ContentsAgree(f, d, h)
  {
    hide Core, StampOr0, EntryContents, DeletesAreLast, FetchedContents, Solid, IsTombstone;
    assert DeviceContents(h, f.devices[d]);
  }
}
