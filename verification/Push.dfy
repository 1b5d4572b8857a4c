/** Flushing the outbox: topological dispatch, hold-back behind failed parents, remap growth. */
module PushModel {
  import opened Data
  import opened Seqs
  import opened ReplicaModel
  import opened StoreModel
  import opened OutboxModel

  datatype Verdict = Sent(patch: bool, accepted: bool) | Held

  /** What became of one collapsed group, in dispatch order. */
  datatype Outcome = Outcome(key: Key, ids: seq<nat>, payload: Row, verdict: Verdict)

  datatype FlushResult = FlushResult(ok: seq<nat>, failed: seq<nat>)

  /** The sink's answer to the n-th group: any pattern of failures. */
  type Sink = (nat, Key, Row) -> bool

  function RecordId(t: Table, payload: Row): string {
    var v := AsStr(Get(payload, PrimaryKey(t)));
    if v.Some? then v.value else ""
  }

  /** The payload as dispatched: book id resolved again, a book's unknown columns omitted. */
  function Prepare(t: Table, payload: Row, remap: map<string, string>): Row {
    var b := AsStr(Get(payload, BookId));
    var p := if b.Some? then payload[BookId := Str(Walk(b.value, remap, MAX_HOPS))] else payload;
    if t == Books then map c | c in p && !(c in BOOK_FILLABLE && p[c] == Null) :: p[c] else p
  }

  predicate Sparse(t: Table, payload: Row) {
    exists c :: c in RequiredInsertColumns(t) && c !in payload
  }

  /** The payload carries what the server cannot insert a row of the table without. */
  predicate Insertable(t: Table, p: Row) {
    match t
    case Books => Title in p && CreatedAt in p
    case Notes => Text in p && CreatedAt in p
    case CustomIdeas => Name in p
    case NoteLinks => FromNoteId in p && ToNoteId in p && CreatedAt in p
    case Lenses => Name in p && CreatedAt in p
    case Collections => Name in p && CreatedAt in p
    case CollectionMemberships => NoteId in p && CollectionId in p && CreatedAt in p
    case NoteSignals => CreatedAt in p
    case Questions => Text in p && CreatedAt in p
    case QuestionNotes => QuestionId in p && NoteId in p && CreatedAt in p
    case UserSettings => true
    case Unsynced(_) => true
  }

  lemma SparseMeans(t: Table, p: Row)
    ensures Sparse(t, p) <==> !Insertable(t, p)
  {
  }

  predicate Blocked(t: Table, payload: Row, failed: set<Key>) {
    exists d :: d in FkDeps(t) && RefersInto(payload, d, failed)
  }

  predicate RefersInto(payload: Row, d: (Column, Table), failed: set<Key>) {
    var v := AsStr(Get(payload, d.0));
    v.Some? && Key(d.1, v.value) in failed
  }

  predicate Ok(o: Outcome) {
    o.verdict.Sent? && o.verdict.accepted
  }

  function OkIds(log: seq<Outcome>): seq<nat> {
    if log == [] then []
    else OkIds(log[..|log| - 1]) + (if Ok(log[|log| - 1]) then log[|log| - 1].ids else [])
  }

  function FailedIds(log: seq<Outcome>): seq<nat> {
    if log == [] then []
    else FailedIds(log[..|log| - 1]) + (if Ok(log[|log| - 1]) then [] else log[|log| - 1].ids)
  }

  /** A flushed book that carries its server id maps its own id to it. */
  function RemapEntry(remap: map<string, string>, o: Outcome): map<string, string> {
    var s := AsStr(Get(o.payload, ServerId));
    if o.key.table == Books && Ok(o) && s.Some? && s.value != RecordId(Books, o.payload)
    then remap[RecordId(Books, o.payload) := s.value] else remap
  }

  function RemapAfter(remap: map<string, string>, log: seq<Outcome>): map<string, string> {
    if log == [] then remap else RemapEntry(RemapAfter(remap, log[..|log| - 1]), log[|log| - 1])
  }

  function Parses(): Entry -> bool {
    (e: Entry) => !e.payload.Corrupt?
  }

  /** The entries a flush can work on; a corrupt payload stays where it is. */
  function Parseable(outbox: seq<Entry>): seq<Entry> {
    Filter(Parses(), outbox)
  }

  // ── What a log of outcomes promises ────────────────────────────────────────

  predicate Names(p: Row, c: Column, id: string) {
    Get(p, c) == Some(Str(id))
  }

  /** A payload names a record of another table as its parent: a note its book, a link its two notes, a
      membership its note and its collection, a signal its note, an attachment its question and its note. */
  predicate Mentions(t: Table, p: Row, parent: Table, id: string) {
    match t
    case Notes => parent == Books && Names(p, BookId, id)
    case NoteLinks => parent == Notes && (Names(p, FromNoteId, id) || Names(p, ToNoteId, id))
    case CollectionMemberships => (parent == Notes && Names(p, NoteId, id)) || (parent == Collections && Names(p, CollectionId, id))
    case NoteSignals => parent == Notes && Names(p, NoteId, id)
    case QuestionNotes => (parent == Questions && Names(p, QuestionId, id)) || (parent == Notes && Names(p, NoteId, id))
    case _ => false
  }

  /** The id a payload carries, or an empty one. */
  function OwnId(p: Row): string {
    match Get(p, Id)
    case Some(Str(id)) => id
    case _ => ""
  }

  /** One outcome refers to the record another one carries. */
  predicate RefersTo(o: Outcome, p: Outcome) {
    Mentions(o.key.table, o.payload, p.key.table, OwnId(p.payload))
  }

  ghost predicate DependsOn(t: Table, p: Row, parent: Table, id: string) {
    exists d :: d in FkDeps(t) && d.1 == parent && AsStr(Get(p, d.0)) == Some(id)
  }

  /** The foreign keys are exactly those. */
  lemma MentionsMeans(t: Table, p: Row, parent: Table, id: string)
    ensures Mentions(t, p, parent, id) <==> DependsOn(t, p, parent, id)
  {
    var deps := FkDeps(t);
    assert DependsOn(t, p, parent, id) <==> exists d :: d in deps && d.1 == parent && AsStr(Get(p, d.0)) == Some(id);
    match t
    case Notes => assert deps == {(BookId, Books)}; assert (BookId, Books) in deps;
    case NoteLinks => assert (FromNoteId, Notes) in deps && (ToNoteId, Notes) in deps;
    case CollectionMemberships => assert (NoteId, Notes) in deps && (CollectionId, Collections) in deps;
    case NoteSignals => assert (NoteId, Notes) in deps;
    case QuestionNotes => assert (QuestionId, Questions) in deps && (NoteId, Notes) in deps;
    case _ =>
  }

  lemma ParentHasId(t: Table, d: (Column, Table), p: Row)
    requires d in FkDeps(t)
    ensures RecordId(d.1, p) == OwnId(p)
  {
  }

  /** A sent group comes after every queued group it refers to, and all of those succeeded. */
  ghost predicate ParentsFirst(log: seq<Outcome>) {
    forall i, j :: 0 <= i < |log| && 0 <= j < |log| && log[i].verdict.Sent? && RefersTo(log[i], log[j]) ==>
      j < i && Ok(log[j])
  }

  /** A held group refers to an earlier one that failed or was held. */
  ghost predicate HeldForCause(log: seq<Outcome>) {
    forall i :: 0 <= i < |log| && log[i].verdict.Held? ==>
      exists j :: 0 <= j < i && RefersTo(log[i], log[j]) && !Ok(log[j])
  }

  ghost predicate EachOnce(log: seq<Outcome>) {
    forall i, j :: 0 <= i < j < |log| ==> log[i].key != log[j].key
  }

  function LogKeys(log: seq<Outcome>): set<Key> {
    set o | o in log :: o.key
  }

  ghost predicate FromGroups(log: seq<Outcome>, items: seq<Entry>, remap: map<string, string>) {
    forall o :: o in log ==> o.ids == CollapseOf(items, o.key, remap).ids
  }

  ghost predicate SinkAnswers(log: seq<Outcome>, sink: Sink) {
    forall i :: 0 <= i < |log| && log[i].verdict.Sent? ==>
      && (log[i].verdict.patch <==> !Insertable(log[i].key.table, log[i].payload))
      && log[i].verdict.accepted == sink(i, log[i].key, log[i].payload)
  }

  /** Each payload is the collapsed one with the book id resolved under the remap in force. */
  ghost predicate PayloadsFrom(log: seq<Outcome>, items: seq<Entry>, before: map<string, string>) {
    forall i :: 0 <= i < |log| ==>
      log[i].payload == Prepare(log[i].key.table, CollapseOf(items, log[i].key, before).payload,
                                RemapAfter(before, log[..i]))
  }

  // ── Topological order ──────────────────────────────────────────────────────

  function Rank(t: Table): nat {
    match t
    case Books => 0
    case Notes => 1
    case CustomIdeas => 2
    case NoteLinks => 3
    case Lenses => 4
    case Collections => 5
    case CollectionMemberships => 6
    case NoteSignals => 7
    case Questions => 8
    case QuestionNotes => 9
    case UserSettings => 10
    case Unsynced(_) => 11
  }

  /** The descriptor order is topological: every parent precedes its children. */
  lemma ParentRankLower(t: Table, d: (Column, Table))
    requires d in FkDeps(t)
    ensures Rank(d.1) < Rank(t)
  {
  }

  lemma TableAtRank(t: Table)
    ensures Synced(t) <==> Rank(t) < |SYNCED_TABLES|
    ensures Synced(t) ==> SYNCED_TABLES[Rank(t)] == t
  {
  }

  ghost predicate RanksRise(log: seq<Outcome>) {
    forall i, j :: 0 <= i < j < |log| ==> Rank(log[i].key.table) <= Rank(log[j].key.table)
  }

  /** The failed set records exactly the groups of the log that did not succeed. */
  ghost predicate Records(failed: set<Key>, log: seq<Outcome>) {
    forall k :: k in failed <==>
      exists j :: 0 <= j < |log| && !Ok(log[j]) && k == Key(log[j].key.table, RecordId(log[j].key.table, log[j].payload))
  }

  ghost predicate Sound(log: seq<Outcome>, failed: set<Key>) {
    ParentsFirst(log) && HeldForCause(log) && RanksRise(log) && Records(failed, log)
  }

  lemma ParentsFirstPush(log: seq<Outcome>, failed: set<Key>, o: Outcome)
    requires ParentsFirst(log) && Records(failed, log)
    requires forall i :: 0 <= i < |log| ==> Rank(log[i].key.table) <= Rank(o.key.table)
    requires o.verdict.Sent? ==> !Blocked(o.key.table, o.payload, failed)
    ensures ParentsFirst(log + [o])
  {
    hide FkDeps, Rank, RecordId, Get, AsStr, Mentions, OwnId;
    var log', n := log + [o], |log|;
    forall i, j | 0 <= i <= n && 0 <= j <= n && log'[i].verdict.Sent? && RefersTo(log'[i], log'[j])
      ensures j < i && Ok(log'[j])
    {
      MentionsMeans(log'[i].key.table, log'[i].payload, log'[j].key.table, OwnId(log'[j].payload));
      var d :| d in FkDeps(log'[i].key.table) && d.1 == log'[j].key.table &&
        AsStr(Get(log'[i].payload, d.0)) == Some(OwnId(log'[j].payload));
      ParentHasId(log'[i].key.table, d, log'[j].payload);
      ParentRankLower(log'[i].key.table, d);
      if i == n {
        assert !RefersInto(o.payload, d, failed);
        assert log'[j] == log[j];
      }
    }
  }

  lemma HeldForCausePush(log: seq<Outcome>, failed: set<Key>, o: Outcome)
    requires HeldForCause(log) && Records(failed, log)
    requires o.verdict.Held? ==> Blocked(o.key.table, o.payload, failed)
    ensures HeldForCause(log + [o])
  {
    hide FkDeps, RecordId, Get, AsStr, Mentions, OwnId;
    var log', n := log + [o], |log|;
    if o.verdict.Held? {
      var d :| d in FkDeps(o.key.table) && RefersInto(o.payload, d, failed);
      var k := Key(d.1, AsStr(Get(o.payload, d.0)).value);
      var j :| 0 <= j < n && !Ok(log[j]) && k == Key(log[j].key.table, RecordId(log[j].key.table, log[j].payload));
      ParentHasId(o.key.table, d, log[j].payload);
      assert DependsOn(o.key.table, o.payload, log[j].key.table, OwnId(log[j].payload));
      MentionsMeans(o.key.table, o.payload, log[j].key.table, OwnId(log[j].payload));
      assert RefersTo(log'[n], log'[j]) && !Ok(log'[j]);
    }
    forall i | 0 <= i < n && log'[i].verdict.Held?
      ensures exists j :: 0 <= j < i && RefersTo(log'[i], log'[j]) && !Ok(log'[j])
    {
      var j :| 0 <= j < i && RefersTo(log[i], log[j]) && !Ok(log[j]);
      assert RefersTo(log'[i], log'[j]) && !Ok(log'[j]);
    }
  }

  /** One more outcome keeps the log sound, if it was held exactly when the failed set blocks it. */
  lemma SoundPush(log: seq<Outcome>, failed: set<Key>, o: Outcome)
    requires Sound(log, failed)
    requires forall i :: 0 <= i < |log| ==> Rank(log[i].key.table) <= Rank(o.key.table)
    requires o.verdict.Held? <==> Blocked(o.key.table, o.payload, failed)
    ensures Sound(log + [o], if Ok(o) then failed else failed + {Key(o.key.table, RecordId(o.key.table, o.payload))})
  {
    ParentsFirstPush(log, failed, o);
    HeldForCausePush(log, failed, o);
    RecordsPush(log, failed, o);
  }

  lemma RecordsPush(log: seq<Outcome>, failed: set<Key>, o: Outcome)
    requires Records(failed, log)
    ensures Records(if Ok(o) then failed else failed + {Key(o.key.table, RecordId(o.key.table, o.payload))}, log + [o])
  {
    var log', k0 := log + [o], Key(o.key.table, RecordId(o.key.table, o.payload));
    var failed' := if Ok(o) then failed else failed + {k0};
    forall k
      ensures k in failed' <==>
        exists j :: 0 <= j < |log'| && !Ok(log'[j]) && k == Key(log'[j].key.table, RecordId(log'[j].key.table, log'[j].payload))
    {
      if k in failed {
        var j :| 0 <= j < |log| && !Ok(log[j]) && k == Key(log[j].key.table, RecordId(log[j].key.table, log[j].payload));
        assert log'[j] == log[j];
      } else if k in failed' {
        assert log'[|log|] == o;
      }
      if j :| 0 <= j < |log'| && !Ok(log'[j]) && k == Key(log'[j].key.table, RecordId(log'[j].key.table, log'[j].payload)) {
        if j < |log| {
          assert log[j] == log'[j];
        }
      }
    }
  }

  // ── Consequences ───────────────────────────────────────────────────────────

  /** A path along foreign keys from a position to an actual sink failure. */
  ghost predicate TracesToFailure(log: seq<Outcome>, path: seq<nat>) {
    && path != []
    && (forall n :: 0 <= n < |path| ==> path[n] < |log|)
    && (forall n :: 0 <= n < |path| - 1 ==> RefersTo(log[path[n]], log[path[n + 1]]))
    && log[path[|path| - 1]].verdict.Sent? && !log[path[|path| - 1]].verdict.accepted
  }

  /** Whatever stays queued stays for a reason: a sink failure at the end of a foreign-key path. */
  lemma {:induction false} HeldTraces(log: seq<Outcome>, i: nat) returns (path: seq<nat>)
    requires HeldForCause(log) && i < |log| && !Ok(log[i])
    ensures TracesToFailure(log, path) && path != [] && path[0] == i
    decreases i
  {
    hide RefersTo;
    if log[i].verdict.Held? {
      var j :| 0 <= j < i && RefersTo(log[i], log[j]) && !Ok(log[j]);
      var rest := HeldTraces(log, j);
      hide HeldForCause, TracesToFailure, Ok;
      TraceOn(log, i, rest);
      path := [i] + rest;
    } else {
      hide HeldForCause;
      path := [i];
    }
  }

  lemma TraceOn(log: seq<Outcome>, i: nat, rest: seq<nat>)
    requires TracesToFailure(log, rest) && i < |log| && rest != [] && rest[0] < |log| && RefersTo(log[i], log[rest[0]])
    ensures TracesToFailure(log, [i] + rest)
  {
    hide RefersTo;
    var path := [i] + rest;
    assert forall n :: 1 <= n < |path| ==> path[n] == rest[n - 1];
  }

  /** A sink that accepts everything leaves nothing failed. */
  lemma AcceptedLeavesNone(log: seq<Outcome>)
    requires HeldForCause(log)
    requires forall i :: 0 <= i < |log| && log[i].verdict.Sent? ==> log[i].verdict.accepted
    ensures FailedIds(log) == []
  {
    forall i | 0 <= i < |log| ensures Ok(log[i]) {
      if !Ok(log[i]) {
        var path := HeldTraces(log, i);
      }
    }
    NoFailures(log);
  }

  /** An entry no flush can send: corrupt, or of a table that is not synced. */
  function Unsendable(): Entry -> bool {
    (e: Entry) => e.payload.Corrupt? || !Synced(e.table)
  }

  /** With a sink that accepts everything, a flush leaves exactly the entries it can never send. */
  lemma AcceptingSinkDrains(log: seq<Outcome>, outbox: seq<Entry>, next: nat, before: map<string, string>)
    requires IdsIncrease(outbox, next) && EachOnce(log) && Covers(log, outbox) && FromGroups(log, Parseable(outbox), before)
    requires HeldForCause(log) && forall i :: 0 <= i < |log| && log[i].verdict.Sent? ==> log[i].verdict.accepted
    ensures FailedIds(log) == [] && Filter(Not(IdIn(OkIds(log))), outbox) == Filter(Unsendable(), outbox)
  {
    hide Filter, OkIds, FailedIds, Covers, FromGroups, EachOnce, IdsIncrease;
    AcceptedLeavesNone(log);
    FinishIds(log, outbox, next, before);
    FilterCongruent(Not(IdIn(OkIds(log))), Unsendable(), outbox);
  }

  lemma {:induction false} NoFailures(log: seq<Outcome>)
    requires forall i :: 0 <= i < |log| ==> Ok(log[i])
    ensures FailedIds(log) == []
  {
    if log != [] {
      NoFailures(log[..|log| - 1]);
    }
  }

  lemma {:induction false} IdsOfLog(log: seq<Outcome>, id: nat)
    ensures id in OkIds(log) <==> exists o :: o in log && Ok(o) && id in o.ids
    ensures id in FailedIds(log) <==> exists o :: o in log && !Ok(o) && id in o.ids
  {
    if log != [] {
      var front, last := log[..|log| - 1], log[|log| - 1];
      IdsOfLog(front, id);
      assert forall o :: o in log <==> o in front || o == last by {
        assert log == front + [last];
      }
    }
  }

  /** Parseable entries of synced tables split into cleared and still queued; nothing else appears. */
  lemma IdsSplit(log: seq<Outcome>, items: seq<Entry>, remap: map<string, string>, e: Entry)
    requires e in items
    requires forall x, y :: x in items && y in items && x.id == y.id ==> x == y
    requires EachOnce(log) && FromGroups(log, items, remap)
    requires forall k :: k in LogKeys(log) <==> Synced(k.table) && exists x :: x in items && GroupKey(x) == k
    ensures Synced(e.table) <==> e.id in OkIds(log) || e.id in FailedIds(log)
    ensures !(e.id in OkIds(log) && e.id in FailedIds(log))
  {
    IdsOfLog(log, e.id);
    forall o | o in log ensures e.id in o.ids <==> GroupKey(e) == o.key {
      CollapsePartition(items, o.key, remap, e);
    }
    if Synced(e.table) {
      assert GroupKey(e) in LogKeys(log);
      var o :| o in log && o.key == GroupKey(e);
      assert e.id in o.ids;
    }
    forall o, p | o in log && p in log && o.key == p.key ensures o == p {
      var i :| 0 <= i < |log| && log[i] == o;
      var j :| 0 <= j < |log| && log[j] == p;
      assert i == j;
    }
  }

  // ── The flush ──────────────────────────────────────────────────────────────

  /** The running state of one flush. */
  datatype Progress = Progress(log: seq<Outcome>, failed: set<Key>, remap: map<string, string>, result: FlushResult)

  /** Each outcome carries its group's ids and its group's payload as prepared at that moment. */
  ghost predicate Faithful(log: seq<Outcome>, groups: map<Key, Collapsed>, before: map<string, string>) {
    forall i :: 0 <= i < |log| ==>
      && log[i].key in groups
      && log[i].ids == groups[log[i].key].ids
      && log[i].payload == Prepare(log[i].key.table, groups[log[i].key].payload, RemapAfter(before, log[..i]))
  }

  ghost predicate Good(p: Progress, groups: map<Key, Collapsed>, before: map<string, string>, sink: Sink) {
    && Sound(p.log, p.failed)
    && EachOnce(p.log)
    && SinkAnswers(p.log, sink)
    && Faithful(p.log, groups, before)
    && p.remap == RemapAfter(before, p.log)
    && p.result == FlushResult(OkIds(p.log), FailedIds(p.log))
  }

  /** Hold one group back, or send it as a patch or an upsert and record the answer. */
  method DispatchGroup(p: Progress, k: Key, groups: map<Key, Collapsed>, sink: Sink, ghost before: map<string, string>)
    returns (p': Progress)
    requires Good(p, groups, before, sink) && k in groups && k !in LogKeys(p.log)
    requires forall i :: 0 <= i < |p.log| ==> Rank(p.log[i].key.table) <= Rank(k.table)
    ensures Good(p', groups, before, sink)
    ensures |p'.log| == |p.log| + 1 && p'.log[..|p.log|] == p.log && p'.log[|p.log|].key == k
  {
    hide Rank, FkDeps, Sparse, Blocked, Sound, Mentions, Insertable, RecordId, Prepare, Faithful, SinkAnswers, EachOnce, RemapAfter, OkIds, FailedIds, Walk;
    var group := groups[k];
    var payload := PreparePayload(k.table, group.payload, p.remap);
    var recordId := RecordId(k.table, payload);
    var verdict := Held;
    if !Blocked(k.table, payload, p.failed) {
      verdict := Sent(Sparse(k.table, payload), sink(|p.log|, k, payload));
    }
    var o := Outcome(k, group.ids, payload, verdict);
    var failed, remap, result := p.failed, p.remap, p.result;
    if verdict.Sent? && verdict.accepted {
      result := result.(ok := result.ok + group.ids);
      var serverId := AsStr(Get(payload, ServerId));
      if k.table == Books && serverId.Some? && serverId.value != recordId {
        remap := remap[recordId := serverId.value];
      }
    } else {
      result := result.(failed := result.failed + group.ids);
      failed := failed + {Key(k.table, recordId)};
    }
    p' := Progress(p.log + [o], failed, remap, result);
    SoundPush(p.log, p.failed, o);
    GoodPush(p, o, groups, before, sink);
  }

  /** Resolve the book id again and leave a book's unknown columns out. */
  method PreparePayload(t: Table, collapsed: Row, remap: map<string, string>) returns (payload: Row)
    ensures payload == Prepare(t, collapsed, remap)
  {
    payload := collapsed;
    var b := AsStr(Get(payload, BookId));
    if b.Some? {
      var resolved := ResolveBookId(b.value, remap);
      payload := payload[BookId := Str(resolved)];
    }
    if t == Books {
      payload := map c | c in payload && !(c in BOOK_FILLABLE && payload[c] == Null) :: payload[c];
    }
  }

  lemma GoodPush(p: Progress, o: Outcome, groups: map<Key, Collapsed>, before: map<string, string>, sink: Sink)
    requires Good(p, groups, before, sink) && o.key !in LogKeys(p.log) && o.key in groups
    requires o.ids == groups[o.key].ids
    requires o.payload == Prepare(o.key.table, groups[o.key].payload, p.remap)
    requires o.verdict.Sent? ==>
      o.verdict == Sent(Sparse(o.key.table, o.payload), sink(|p.log|, o.key, o.payload))
    ensures EachOnce(p.log + [o]) && SinkAnswers(p.log + [o], sink) && Faithful(p.log + [o], groups, before)
    ensures RemapAfter(before, p.log + [o]) == RemapEntry(p.remap, o)
    ensures OkIds(p.log + [o]) == p.result.ok + (if Ok(o) then o.ids else [])
    ensures FailedIds(p.log + [o]) == p.result.failed + (if Ok(o) then [] else o.ids)
  {
    SparseMeans(o.key.table, o.payload);
    hide Sound, Prepare, Sparse, RemapEntry, LogKeys, Insertable;
    EachOncePush(p.log, o);
    FaithfulPush(p.log, o, groups, before);
    hide EachOnce, Faithful;
    assert (p.log + [o])[..|p.log|] == p.log;
  }

  lemma EachOncePush(log: seq<Outcome>, o: Outcome)
    requires EachOnce(log) && o.key !in LogKeys(log)
    ensures EachOnce(log + [o])
  {
    forall i | 0 <= i < |log| ensures log[i].key != o.key {
      assert log[i] in log;
    }
  }

  lemma FaithfulPush(log: seq<Outcome>, o: Outcome, groups: map<Key, Collapsed>, before: map<string, string>)
    requires Faithful(log, groups, before)
    requires o.key in groups && o.ids == groups[o.key].ids
    requires o.payload == Prepare(o.key.table, groups[o.key].payload, RemapAfter(before, log))
    ensures Faithful(log + [o], groups, before)
  {
    hide Prepare, RemapAfter;
    assert forall i :: 0 <= i <= |log| ==> (log + [o])[..i] == log[..i];
    assert log[..|log|] == log;
  }

  /** Keys of the groups of one table. */
  function KeysOf(groups: map<Key, Collapsed>, t: Table): set<Key> {
    set k | k in groups && k.table == t
  }

  method FlushTable(p: Progress, t: Table, groups: map<Key, Collapsed>, sink: Sink, ghost before: map<string, string>)
    returns (p': Progress)
    requires Good(p, groups, before, sink)
    requires forall i :: 0 <= i < |p.log| ==> Rank(p.log[i].key.table) < Rank(t)
    ensures Good(p', groups, before, sink)
    ensures LogKeys(p'.log) == LogKeys(p.log) + KeysOf(groups, t)
    ensures forall i :: 0 <= i < |p'.log| ==> Rank(p'.log[i].key.table) <= Rank(t)
    ensures t != Books ==> p'.remap == p.remap
  {
    hide Good, Rank, RemapEntry;
    p' := p;
    var todo := KeysOf(groups, t);
    while todo != {}
      invariant todo <= KeysOf(groups, t) && todo !! LogKeys(p'.log)
      invariant Good(p', groups, before, sink)
      invariant LogKeys(p'.log) + todo == LogKeys(p.log) + KeysOf(groups, t)
      invariant forall i :: 0 <= i < |p'.log| ==> Rank(p'.log[i].key.table) <= Rank(t)
      invariant t != Books ==> p'.remap == p.remap
    {
      var k :| k in todo;
      ghost var was := p';
      p' := DispatchGroup(p', k, groups, sink, before);
      todo := todo - {k};
      PushedKeys(was.log, p'.log, k);
      RemapOnlyByBooks(was, p', groups, before, sink);
    }
  }

  lemma PushedKeys(log: seq<Outcome>, log': seq<Outcome>, k: Key)
    requires |log'| == |log| + 1 && log'[..|log|] == log && log'[|log|].key == k
    ensures LogKeys(log') == LogKeys(log) + {k}
    ensures forall i :: 0 <= i < |log'| ==> log'[i].key == if i < |log| then log[i].key else k
  {
    assert log' == log + [log'[|log|]];
    assert forall i :: 0 <= i < |log| ==> log'[i] == log'[..|log|][i];
  }

  lemma RemapOnlyByBooks(p: Progress, p': Progress, groups: map<Key, Collapsed>, before: map<string, string>, sink: Sink)
    requires Good(p, groups, before, sink) && Good(p', groups, before, sink)
    requires |p'.log| == |p.log| + 1 && p'.log[..|p.log|] == p.log
    ensures p'.log[|p.log|].key.table != Books ==> p'.remap == p.remap
  {
  }

  /** Reading the queue oldest-first does not change what it collapses to. */
  lemma CollapseOldestFirst(outbox: seq<Entry>, k: Key, remap: map<string, string>)
    ensures CollapseOf(Parseable(SortByTime(outbox)), k, remap) == CollapseOf(Parseable(outbox), k, remap)
  {
    SortFilter(Parses(), outbox);
    SortFilter(InGroup(k), Parseable(outbox));
    var g := SortByTime(Filter(InGroup(k), Parseable(outbox)));
    SortOrdered(Filter(InGroup(k), Parseable(outbox)));
    SortOfOrdered(g);
  }

  lemma UniqueIds(s: seq<Entry>, next: nat)
    requires IdsIncrease(s, next)
    ensures forall x, y :: x in s && y in s && x.id == y.id ==> x == y
  {
  }

  /** Every group of a synced table, and nothing else, was handled. */
  ghost predicate Covers(log: seq<Outcome>, outbox: seq<Entry>) {
    forall k :: k in LogKeys(log) <==> Synced(k.table) && exists e :: e in Parseable(outbox) && GroupKey(e) == k
  }

  /** Run one flush. `log` lists every group in dispatch order. */
  method Flush(store: Store, sink: Sink) returns (result: FlushResult, log: seq<Outcome>)
    requires store.Valid()
    modifies store`outbox, store`remap
    ensures store.Valid()
    ensures result == FlushResult(OkIds(log), FailedIds(log))
    ensures store.outbox == Filter(Not(IdIn(result.ok)), old(store.outbox))
    ensures store.remap == RemapAfter(old(store.remap), log)
    ensures ParentsFirst(log) && HeldForCause(log) && EachOnce(log) && SinkAnswers(log, sink)
    ensures Covers(log, old(store.outbox))
    ensures FromGroups(log, Parseable(old(store.outbox)), old(store.remap))
    ensures PayloadsFrom(log, Parseable(old(store.outbox)), old(store.remap))
    ensures forall e :: e in old(store.outbox) ==>
      && (!e.payload.Corrupt? && Synced(e.table) <==> e.id in result.ok || e.id in result.failed)
      && !(e.id in result.ok && e.id in result.failed)
  {
    hide Good, Rank, RemapAfter, Faithful, CollapseOf, SYNCED_TABLES;
    ghost var queue, before := store.outbox, store.remap;
    var items := Parseable(SortByTime(store.outbox));
    var groups := Collapse(items, store.remap);
    var p := Progress([], {}, store.remap, FlushResult([], []));
    GoodStart(groups, store.remap, sink);
    for n := 0 to |SYNCED_TABLES|
      invariant Good(p, groups, before, sink)
      invariant forall i :: 0 <= i < |p.log| ==> Rank(p.log[i].key.table) < n
      invariant forall k :: k in LogKeys(p.log) <==> k in groups && Rank(k.table) < n
      invariant store.outbox == queue && store.remap == if n == 0 then before else p.remap
    {
      var t := SYNCED_TABLES[n];
      RankAt(n);
      p := FlushTable(p, t, groups, sink, before);
      if t == Books {
        store.remap := p.remap;
      }
    }
    result, log := p.result, p.log;
    store.ClearOutbox(result.ok);
    Finish(p, queue, store.nextId, groups, before, sink);
  }

  lemma GoodStart(groups: map<Key, Collapsed>, remap: map<string, string>, sink: Sink)
    ensures Good(Progress([], {}, remap, FlushResult([], [])), groups, remap, sink)
  {
  }

  lemma RankAt(n: nat)
    requires n < |SYNCED_TABLES|
    ensures Rank(SYNCED_TABLES[n]) == n && (SYNCED_TABLES[n] == Books <==> n == 0)
    ensures forall t :: Rank(t) == n <==> t == SYNCED_TABLES[n]
  {
    forall t {
      TableAtRank(t);
    }
  }

  /** From the running invariant over the groups to the promise over the queue. */
  lemma Finish(p: Progress, queue: seq<Entry>, next: nat, groups: map<Key, Collapsed>,
               before: map<string, string>, sink: Sink)
    requires IdsIncrease(queue, next)
    requires Good(p, groups, before, sink)
    requires var items := Parseable(SortByTime(queue));
      && groups.Keys == (set e | e in items :: GroupKey(e))
      && forall k :: k in groups ==> groups[k] == CollapseOf(items, k, before)
    requires forall k :: k in LogKeys(p.log) <==> k in groups && Rank(k.table) < |SYNCED_TABLES|
    ensures Sound(p.log, p.failed) && EachOnce(p.log) && SinkAnswers(p.log, sink)
    ensures p.result == FlushResult(OkIds(p.log), FailedIds(p.log)) && p.remap == RemapAfter(before, p.log)
    ensures Covers(p.log, queue)
    ensures FromGroups(p.log, Parseable(queue), before) && PayloadsFrom(p.log, Parseable(queue), before)
    ensures forall e :: e in queue ==>
      && (!e.payload.Corrupt? && Synced(e.table) <==> e.id in p.result.ok || e.id in p.result.failed)
      && !(e.id in p.result.ok && e.id in p.result.failed)
  {
    hide Sound, CollapseOf, Prepare, RemapAfter, SinkAnswers, Rank, Filter, SYNCED_TABLES;
    var items := Parseable(queue);
    SameParseable(queue);
    forall k ensures CollapseOf(Parseable(SortByTime(queue)), k, before) == CollapseOf(items, k, before) {
      CollapseOldestFirst(queue, k, before);
    }
    forall k: Key ensures Rank(k.table) < |SYNCED_TABLES| <==> Synced(k.table) {
      TableAtRank(k.table);
    }
    forall o | o in p.log ensures o.ids == CollapseOf(items, o.key, before).ids {
      var i :| 0 <= i < |p.log| && p.log[i] == o;
    }
    FinishIds(p.log, queue, next, before);
  }

  lemma SameParseable(queue: seq<Entry>)
    ensures forall e :: e in Parseable(queue) <==> e in Parseable(SortByTime(queue))
    ensures forall e :: e in Parseable(queue) <==> e in queue && !e.payload.Corrupt?
  {
    FilterMembers(Parses(), queue);
    FilterMembers(Parses(), SortByTime(queue));
    SameMembers(queue);
  }

  lemma FinishIds(log: seq<Outcome>, queue: seq<Entry>, next: nat, before: map<string, string>)
    requires IdsIncrease(queue, next)
    requires EachOnce(log) && Covers(log, queue) && FromGroups(log, Parseable(queue), before)
    ensures forall e :: e in queue ==>
      && (!e.payload.Corrupt? && Synced(e.table) <==> e.id in OkIds(log) || e.id in FailedIds(log))
      && !(e.id in OkIds(log) && e.id in FailedIds(log))
  {
    hide CollapseOf, Filter, OkIds, FailedIds;
    var items := Parseable(queue);
    SameParseable(queue);
    UniqueIds(queue, next);
    forall e | e in queue
      ensures !e.payload.Corrupt? && Synced(e.table) <==> e.id in OkIds(log) || e.id in FailedIds(log)
      ensures !(e.id in OkIds(log) && e.id in FailedIds(log))
    {
      if e in items {
        IdsSplit(log, items, before, e);
      } else {
        CorruptNowhere(log, queue, items, before, e);
      }
    }
  }

  lemma CorruptNowhere(log: seq<Outcome>, queue: seq<Entry>, items: seq<Entry>, remap: map<string, string>, e: Entry)
    requires FromGroups(log, items, remap)
    requires e in queue && e !in items && forall x :: x in items ==> x in queue
    requires forall x, y :: x in queue && y in queue && x.id == y.id ==> x == y
    ensures e.id !in OkIds(log) && e.id !in FailedIds(log)
  {
    IdsOfLog(log, e.id);
    forall o | o in log ensures e.id !in o.ids {
      var s := Filter(InGroup(o.key), items);
      FilterMembers(InGroup(o.key), items);
      SameMembers(s);
      IdsMembers(SortByTime(s));
    }
  }

  // ── Parents by queued id ───────────────────────────────────────────────────

  /** Every queued payload carries the primary key of the record it is queued for. */
  ghost predicate Addressed(items: seq<Entry>) {
    forall e :: e in items ==> e.payload.Object? && Addresses(GroupKey(e), e.payload.fields)
  }

  lemma {:induction false} FoldConstant(t: seq<Entry>, c: Column, v: Cell)
    requires t != [] && c != Deleted && forall e :: e in t ==> e.payload.Object? && Get(e.payload.fields, c) == Some(v)
    ensures Get(Fold(t), c) == Some(v)
  {
    assert t[|t| - 1] in t;
  }

  /** A collapsed, prepared payload still names its record. */
  lemma PayloadNamesRecord(items: seq<Entry>, k: Key, before: map<string, string>, after: map<string, string>)
    requires Synced(k.table) && Addressed(items) && exists e :: e in items && GroupKey(e) == k
    ensures RecordId(k.table, Prepare(k.table, CollapseOf(items, k, before).payload, after)) == k.id
  {
    hide Filter, SortByTime, Fold, Walk;
    var s := Filter(InGroup(k), items);
    FilterMembers(InGroup(k), items);
    SameMembers(s);
    assert SortByTime(s) != [] by {
      var e :| e in items && GroupKey(e) == k;
      assert e in SortByTime(s);
    }
    FoldConstant(SortByTime(s), PrimaryKey(k.table), Str(k.id));
  }

  /** A dispatched row whose parent is queued under the id it refers to comes after that parent's own
      successful dispatch. */
  lemma QueuedParentsFirst(log: seq<Outcome>, outbox: seq<Entry>, before: map<string, string>, i: nat,
                           parent: Entry)
    requires ParentsFirst(log) && PayloadsFrom(log, Parseable(outbox), before) && Covers(log, outbox)
    requires Addressed(Parseable(outbox)) && i < |log| && log[i].verdict.Sent?
    requires parent in Parseable(outbox)
    requires Mentions(log[i].key.table, log[i].payload, GroupKey(parent).table, GroupKey(parent).id)
    ensures exists j :: 0 <= j < i && log[j].key == GroupKey(parent) && Ok(log[j])
  {
    var k := GroupKey(parent);
    MentionsMeans(log[i].key.table, log[i].payload, k.table, k.id);
    hide CollapseOf, Prepare, RemapAfter, FkDeps, Parseable, RecordId, Addressed, Mentions, OwnId, Get, AsStr, GroupKey;
    var d :| d in FkDeps(log[i].key.table) && d.1 == k.table && AsStr(Get(log[i].payload, d.0)) == Some(k.id);
    ParentIsSynced(log[i].key.table, d);
    assert k in LogKeys(log);
    var o :| o in log && o.key == k;
    var j :| 0 <= j < |log| && log[j] == o;
    PayloadNamesRecord(Parseable(outbox), k, before, RemapAfter(before, log[..j]));
    ParentHasId(log[i].key.table, d, log[j].payload);
    assert RefersTo(log[i], log[j]);
  }

  lemma ParentIsSynced(t: Table, d: (Column, Table))
    requires d in FkDeps(t)
    ensures Synced(d.1)
  {
  }

  // ── The remap grows ────────────────────────────────────────────────────────

  /** The outcome adds, or overwrites, a mapping of a book's id. */
  predicate Remaps(o: Outcome, id: string) {
    var s := AsStr(Get(o.payload, ServerId));
    o.key.table == Books && Ok(o) && s.Some? && RecordId(Books, o.payload) == id && s.value != id
  }

  ghost predicate LastRemap(log: seq<Outcome>, id: string, i: nat) {
    i < |log| && Remaps(log[i], id) && forall j :: i < j < |log| ==> !Remaps(log[j], id)
  }

  /** What the remap holds for an id after a flush: its last mapping of this flush, else what it held. */
  lemma {:induction false} RemapLookup(before: map<string, string>, log: seq<Outcome>, id: string)
    ensures var after := RemapAfter(before, log);
      && (forall i: nat :: LastRemap(log, id, i) ==> id in after && Get(log[i].payload, ServerId) == Some(Str(after[id])))
      && ((forall i :: 0 <= i < |log| ==> !Remaps(log[i], id)) ==>
            (id in after <==> id in before) && (id in before ==> after[id] == before[id]))
  {
    if log != [] {
      var front, last := log[..|log| - 1], log[|log| - 1];
      RemapLookup(before, front, id);
      RemapOne(RemapAfter(before, front), last, id);
      hide Remaps, RemapEntry, Ok, LastRemap;
      forall i: nat | LastRemap(log, id, i)
        ensures id in RemapAfter(before, log) && Get(log[i].payload, ServerId) == Some(Str(RemapAfter(before, log)[id]))
      {
        RemapFront(log, id, i);
        assert i < |front| ==> front[i] == log[i];
      }
      if forall i :: 0 <= i < |log| ==> !Remaps(log[i], id) {
        assert forall i :: 0 <= i < |front| ==> front[i] == log[i];
      }
    }
  }

  /** The last mapping of an id is the last outcome, or the front's last mapping. */
  lemma RemapFront(log: seq<Outcome>, id: string, i: nat)
    requires LastRemap(log, id, i)
    ensures i < |log| && (i == |log| - 1 ==> Remaps(log[i], id))
    ensures i < |log| - 1 ==> LastRemap(log[..|log| - 1], id, i) && !Remaps(log[|log| - 1], id)
  {
    hide Remaps;
  }

  lemma RemapOne(remap: map<string, string>, o: Outcome, id: string)
    ensures var after := RemapEntry(remap, o);
      && (Remaps(o, id) ==> id in after && Get(o.payload, ServerId) == Some(Str(after[id])))
      && (!Remaps(o, id) ==> (id in after <==> id in remap) && (id in remap ==> after[id] == remap[id]))
  {
  }

  lemma {:induction false} LastRemapExists(log: seq<Outcome>, id: string) returns (i: nat)
    requires exists j :: 0 <= j < |log| && Remaps(log[j], id)
    ensures LastRemap(log, id, i)
  {
    hide Remaps;
    if Remaps(log[|log| - 1], id) {
      i := |log| - 1;
    } else {
      var front := log[..|log| - 1];
      var j :| 0 <= j < |log| && Remaps(log[j], id);
      assert front[j] == log[j];
      i := LastRemapExists(front, id);
    }
  }

  /** A flush extends the remap exactly when it maps no book that was mapped already to another id. */
  ghost predicate KeepsMappings(before: map<string, string>, log: seq<Outcome>) {
    forall id, i: nat :: id in before && LastRemap(log, id, i) ==> Get(log[i].payload, ServerId) == Some(Str(before[id]))
  }

  lemma RemapExtendsIff(before: map<string, string>, log: seq<Outcome>)
    ensures Extends(before, RemapAfter(before, log)) <==> KeepsMappings(before, log)
  {
    hide RemapAfter, Remaps;
    forall id | id in before
      ensures (id in RemapAfter(before, log) && RemapAfter(before, log)[id] == before[id]) <==>
        forall i: nat :: LastRemap(log, id, i) ==> Get(log[i].payload, ServerId) == Some(Str(before[id]))
    {
      RemapLookup(before, log, id);
      if exists j :: 0 <= j < |log| && Remaps(log[j], id) {
        var i := LastRemapExists(log, id);
        assert forall m: nat :: LastRemap(log, id, m) ==> m == i;
      }
    }
    KeepsEach(before, log);
  }

  lemma KeepsEach(before: map<string, string>, log: seq<Outcome>)
    requires forall id :: id in before ==>
      ((id in RemapAfter(before, log) && RemapAfter(before, log)[id] == before[id]) <==>
        forall i: nat :: LastRemap(log, id, i) ==> Get(log[i].payload, ServerId) == Some(Str(before[id])))
    ensures Extends(before, RemapAfter(before, log)) <==> KeepsMappings(before, log)
  {
    hide RemapAfter, LastRemap;
  }

  /** A note's book id resolved by the collapse and again by the flush is resolved once, under the remap
      in force when the note is dispatched. */
  lemma FlushResolvesOnce(log: seq<Outcome>, items: seq<Entry>, before: map<string, string>, i: nat, b: string)
    requires PayloadsFrom(log, items, before) && i < |log| && log[i].key.table == Notes && KeepsMappings(before, log[..i])
    requires AsStr(Get(Fold(SortByTime(Filter(InGroup(log[i].key), items))), BookId)) == Some(b)
    requires var after := RemapAfter(before, log[..i]); IsEnd(Walk(b, after, MAX_HOPS), after)
    ensures Get(log[i].payload, BookId) == Some(Str(Walk(b, RemapAfter(before, log[..i]), MAX_HOPS)))
  {
    var after := RemapAfter(before, log[..i]);
    hide Filter, SortByTime, Fold, Walk, RemapAfter, KeepsMappings;
    RemapExtendsIff(before, log[..i]);
    ResolveTwice(b, before, after);
  }
}
