/** Merging a parsed snapshot archive into the store: the protective preflight, the choice of the rows
    strictly newer than every copy, and the one batch stamp that makes them win everywhere. */
module ImportModel {
  import opened Data
  import opened Seqs
  import opened ReplicaModel
  import opened StoreModel
  import opened FleetModel
  import opened TimedModel
  import opened ContentsModel
  import Pull = PullModel

  const U32_MAX: nat := 0xffff_ffff
  const FETCH_CHUNK_SIZE: nat := 100

  datatype Error = StoreFailed | PreflightFailed | InvalidImport
  datatype Result<+T> = Ok(value: T) | Err(error: Error)

  /** The tables an archive restores, parents first. */
  const IMPORT_TABLES: seq<Table> :=
    [Books, Notes, CustomIdeas, NoteLinks, Lenses, Collections, CollectionMemberships, NoteSignals]

  /** All synced tables but the questions, their attachments and the settings. */
  lemma ImportTablesAre(t: Table)
    ensures t in IMPORT_TABLES <==> Synced(t) && t != Questions && t != QuestionNotes && t != UserSettings
  {
  }

  datatype Candidate = Candidate(key: Key, row: Row, updatedAt: I64)

  /** What the parser delivers: table by table, no record twice, each row naming its record. */
  ghost predicate Parsed(cs: seq<Candidate>) {
    && (forall c :: c in cs ==> c.key.table in IMPORT_TABLES && Addresses(c.key, c.row))
    && (forall i, j :: 0 <= i < j < |cs| ==> cs[i].key != cs[j].key)
  }

  /** The vault's operations, as functions. */
  datatype Vault = Vault(
    opensUrl: (string, string) -> bool,
    sealUrl: (string, string) -> string,
    isSealed: string -> bool,
    encryptNote: (string, string) -> string,
    contentTag: (string, Option<string>) -> string)

  // ── The protective pull ────────────────────────────────────────────────────

  /** The row's place in the change feed; a row without one is below every cursor. */
  function Number(w: Wire): int {
    match Pull.ChangeSeqOf(w)
    case Some(n) => n
    case None => I64_MIN
  }

  /** A well-formed row of a preflight page. */
  predicate ValidRow(t: Table, w: Wire) {
    && WireId(t, w).Some? && WireId(t, w).value != "" && Number(w) >= 0
    && Stamp(w.fields).Some? && Get(w.fields, Deleted).Some? && w.fields[Deleted].Bool?
  }

  /** A well-formed page: well-formed rows in strictly ascending order above the cursor. */
  ghost predicate ValidPage(t: Table, after: int, rows: seq<Wire>) {
    && (forall i :: 0 <= i < |rows| ==> ValidRow(t, rows[i]) && Number(rows[i]) > after)
    && (forall i, j :: 0 <= i < j < |rows| ==> Number(rows[i]) < Number(rows[j]))
  }

  method ValidatePullPage(t: Table, after: int, rows: seq<Wire>) returns (ok: bool)
    requires Synced(t)
    ensures ok <==> ValidPage(t, after, rows)
  {
    hide ValidRow, Number, ValidPage;
    var prior := after;
    EmptyPage(t, after);
    for i := 0 to |rows|
      invariant ValidPage(t, after, rows[..i]) && prior == Above(after, rows[..i])
    {
      PageStep(t, after, rows, i);
      var number := ReadNumber(t, rows[i]);
      if number.None? || number.value <= prior {
        return false;
      }
      prior := number.value;
    }
    assert rows[..|rows|] == rows;
    return true;
  }

  /** A row's number, if the row is well-formed: an object with a key, a number, a stamp and a flag. */
  method ReadNumber(t: Table, w: Wire) returns (number: Option<int>)
    ensures number == if ValidRow(t, w) then Some(Number(w)) else None
  {
    if !w.WireRow? {
      return None;
    }
    var id := AsStr(Get(w.fields, PrimaryKey(t)));
    if id.None? || id.value == "" {
      return None;
    }
    number := AsI64(Get(w.fields, ChangeSeq));
    if number.None? || number.value < 0 {
      return None;
    }
    if AsI64(Get(w.fields, UpdatedAt)).None? {
      return None;
    }
    if Deleted !in w.fields || !w.fields[Deleted].Bool? {
      return None;
    }
  }

  /** The number the next row of a page must exceed. */
  function Above(after: int, rows: seq<Wire>): int {
    if rows == [] then after else Number(rows[|rows| - 1])
  }

  lemma EmptyPage(t: Table, after: int)
    ensures ValidPage(t, after, [])
  {
  }

  lemma PageStep(t: Table, after: int, rows: seq<Wire>, i: nat)
    requires i < |rows| && ValidPage(t, after, rows[..i])
    ensures Above(after, rows[..i + 1]) == Number(rows[i])
    ensures ValidPage(t, after, rows[..i + 1]) <==> ValidRow(t, rows[i]) && Number(rows[i]) > Above(after, rows[..i])
    ensures ValidPage(t, after, rows) ==> ValidPage(t, after, rows[..i + 1])
  {
    hide ValidRow, Number, ValidPage, Above;
    assert rows[..i + 1] == rows[..i] + [rows[i]];
    PagePush(t, after, rows[..i], rows[i]);
    if ValidPage(t, after, rows) {
      PagePrefix(t, after, rows, i + 1);
    }
  }

  lemma PagePush(t: Table, after: int, front: seq<Wire>, w: Wire)
    requires ValidPage(t, after, front)
    ensures Above(after, front + [w]) == Number(w)
    ensures ValidPage(t, after, front + [w]) <==> ValidRow(t, w) && Number(w) > Above(after, front)
  {
    var page, n := front + [w], |front|;
    assert page[n] == w && (n > 0 ==> page[n - 1] == front[n - 1]);
    if ValidRow(t, w) && Number(w) > Above(after, front) {
      PageGrows(t, after, front, w);
    }
    hide Number;
  }

  lemma PageGrows(t: Table, after: int, front: seq<Wire>, w: Wire)
    requires ValidPage(t, after, front) && ValidRow(t, w) && Number(w) > Above(after, front)
    ensures ValidPage(t, after, front + [w])
  {
    NumbersRise(t, after, front, w);
    hide ValidRow, Number, Above;
    var page := front + [w];
    forall i | 0 <= i < |page| ensures ValidRow(t, page[i]) && Number(page[i]) > after {
      if i < |front| {
        assert page[i] == front[i];
      }
    }
  }

  lemma NumbersRise(t: Table, after: int, front: seq<Wire>, w: Wire)
    requires ValidPage(t, after, front) && Number(w) > Above(after, front)
    ensures Number(w) > after
    ensures var page := front + [w]; forall i, j :: 0 <= i < j < |page| ==> Number(page[i]) < Number(page[j])
  {
    hide ValidRow, Number;
    var page, n := front + [w], |front|;
    if n > 0 {
      var top := Number(front[n - 1]);
      forall i | 0 <= i < n ensures Number(front[i]) <= top {
        if i < n - 1 {
          assert Number(front[i]) < Number(front[n - 1]);
        }
      }
    }
    hide ValidPage;
    forall i, j | 0 <= i < j < |page| ensures Number(page[i]) < Number(page[j]) {
      if j == n {
        assert page[i] == front[i] && page[j] == w;
      } else {
        assert page[i] == front[i] && page[j] == front[j];
        Ascending(t, after, front, i, j);
      }
    }
  }

  lemma Ascending(t: Table, after: int, rows: seq<Wire>, i: nat, j: nat)
    requires ValidPage(t, after, rows) && i < j < |rows|
    ensures Number(rows[i]) < Number(rows[j])
  {
    hide ValidRow, Number;
  }

  lemma PagePrefix(t: Table, after: int, rows: seq<Wire>, n: nat)
    requires n <= |rows| && ValidPage(t, after, rows)
    ensures ValidPage(t, after, rows[..n])
  {
    hide ValidRow, Number;
  }

  /** On a page that passes, the pull ignores no row and moves its cursor exactly to the last row. */
  lemma {:induction false} ValidPageIsTaken(r: Replica, t: Table, after: int, rows: seq<Wire>)
    requires ValidPage(t, after, rows)
    ensures forall w :: w in rows ==> Decide(r, t, w) != Ignore
    ensures Pull.MaxSeq(after, t, rows) == if rows == [] then after else Number(rows[|rows| - 1])
  {
    hide Decide, Number, ValidRow, WireId, Pull.ChangeSeqOf;
    forall w | w in rows ensures Decide(r, t, w) != Ignore {
      ValidRowIsTaken(r, t, w);
    }
    if rows != [] {
      var front, last := rows[..|rows| - 1], rows[|rows| - 1];
      ValidPageIsTaken(r, t, after, front);
      ValidRowIsTaken(r, t, last);
      assert front != [] ==> front[|front| - 1] == rows[|rows| - 2] && Number(rows[|rows| - 2]) < Number(last);
    }
  }

  lemma ValidRowIsTaken(r: Replica, t: Table, w: Wire)
    requires ValidRow(t, w)
    ensures Decide(r, t, w) != Ignore && WireId(t, w).Some? && Pull.ChangeSeqOf(w) == Some(Number(w))
  {
  }

  // ── The server's copies ────────────────────────────────────────────────────

  /** The sink's answer to one request for rows by id; None is a failed request. */
  type Lookup = (Table, seq<string>) -> Option<seq<Wire>>

  predicate ValidCopy(t: Table, ids: seq<string>, w: Wire) {
    && WireId(t, w).Some? && WireId(t, w).value in ids
    && Stamp(w.fields).Some? && Get(w.fields, Deleted).Some? && w.fields[Deleted].Bool?
  }

  /** The sink answers with exactly the rows it holds under the ids asked for, each once. */
  ghost predicate Faithful(lookup: Lookup, t: Table, held: map<string, Row>) {
    && (forall id :: id in held ==>
          && Get(held[id], PrimaryKey(t)) == Some(Str(id))
          && Stamp(held[id]).Some? && Get(held[id], Deleted).Some? && held[id][Deleted].Bool?)
    && forall ids :: lookup(t, ids).Some? ==>
         && (forall w :: w in lookup(t, ids).value <==> exists id :: id in ids && id in held && w == WireRow(held[id]))
         && (forall i, j :: 0 <= i < j < |lookup(t, ids).value| ==> lookup(t, ids).value[i] != lookup(t, ids).value[j])
  }

  ghost predicate Distinct(ids: seq<string>) {
    forall i, j :: 0 <= i < j < |ids| ==> ids[i] != ids[j]
  }

  /** The record an answered row is for. */
  function CopyId(t: Table, w: Wire): string {
    match WireId(t, w)
    case Some(id) => id
    case None => ""
  }

  /** Answered rows added one after another. */
  function Added(t: Table, before: map<string, Row>, answer: seq<Wire>): map<string, Row> {
    if answer == [] then before
    else
      var rows, last := Added(t, before, answer[..|answer| - 1]), answer[|answer| - 1];
      if last.WireRow? then rows[CopyId(t, last) := last.fields] else rows
  }

  lemma {:induction false} AddedRows(t: Table, ids: seq<string>, before: map<string, Row>, answer: seq<Wire>)
    requires TakenFrom(t, ids, answer, before)
    ensures var rows := Added(t, before, answer);
      && (forall id :: id in rows <==> id in before || exists w :: w in answer && CopyId(t, w) == id)
      && (forall id :: id in before ==> rows[id] == before[id])
      && (forall w :: w in answer ==> w.WireRow? && rows[CopyId(t, w)] == w.fields)
  {
    hide ValidCopy, CopyId;
    if answer != [] {
      var front, last := answer[..|answer| - 1], answer[|answer| - 1];
      assert answer == front + [last];
      TakenFront(t, ids, answer, before);
      AddedRows(t, ids, before, front);
      hide TakenFrom;
      var was, rows := Added(t, before, front), Added(t, before, answer);
      assert rows == was[CopyId(t, last) := last.fields];
    }
  }

  lemma TakenFront(t: Table, ids: seq<string>, answer: seq<Wire>, before: map<string, Row>)
    requires TakenFrom(t, ids, answer, before) && answer != []
    ensures var front, last := answer[..|answer| - 1], answer[|answer| - 1];
      && TakenFrom(t, ids, front, before) && last.WireRow? && CopyId(t, last) !in before
      && forall w :: w in front ==> CopyId(t, w) != CopyId(t, last)
  {
    hide CopyId;
    var front, last := answer[..|answer| - 1], answer[|answer| - 1];
    assert last in answer;
    ValidCopyIsRow(t, ids, last);
    hide ValidCopy;
    forall w | w in front ensures CopyId(t, w) != CopyId(t, last) {
      var i :| 0 <= i < |front| && front[i] == w;
      assert answer[i] == w;
    }
  }

  /** Take one chunk's answers, refusing malformed, unrequested and repeated rows. */
  method TakeCopies(t: Table, ids: seq<string>, answer: seq<Wire>, before: map<string, Row>)
    returns (r: Result<map<string, Row>>)
    ensures r.Ok? <==> TakenFrom(t, ids, answer, before)
    ensures r.Ok? ==> r.value == Added(t, before, answer)
    ensures r.Err? ==> r.error == PreflightFailed
  {
    hide ValidCopy, CopyId, Added;
    var rows := before;
    AddedNone(t, before);
    for i := 0 to |answer|
      invariant TakenFrom(t, ids, answer[..i], before) && rows == Added(t, before, answer[..i])
    {
      var w := answer[i];
      ValidCopyIsRow(t, ids, w);
      AddedRows(t, ids, before, answer[..i]);
      var id := ReadCopy(t, ids, w);
      if id.None? || id.value in rows {
        RefusedCopy(t, ids, answer, before, i);
        return Err(PreflightFailed);
      }
      AddedPush(t, before, answer, i);
      FreshCopy(t, ids, answer, before, i);
      rows := rows[id.value := w.fields];
    }
    assert answer[..|answer|] == answer;
    return Ok(rows);
  }

  /** The record of an answered row, if it was asked for and is well-formed. */
  method ReadCopy(t: Table, ids: seq<string>, w: Wire) returns (id: Option<string>)
    ensures id == if ValidCopy(t, ids, w) then Some(CopyId(t, w)) else None
  {
    if !w.WireRow? {
      return None;
    }
    id := AsStr(Get(w.fields, PrimaryKey(t)));
    if id.None? || id.value !in ids || AsI64(Get(w.fields, UpdatedAt)).None? {
      return None;
    }
    if Deleted !in w.fields || !w.fields[Deleted].Bool? {
      return None;
    }
  }

  lemma AddedNone(t: Table, before: map<string, Row>)
    ensures Added(t, before, []) == before
  {
  }

  lemma AddedPush(t: Table, before: map<string, Row>, answer: seq<Wire>, i: nat)
    requires i < |answer| && answer[i].WireRow?
    ensures Added(t, before, answer[..i + 1]) == Added(t, before, answer[..i])[CopyId(t, answer[i]) := answer[i].fields]
  {
    assert answer[..i + 1][..i] == answer[..i];
  }

  lemma FreshCopy(t: Table, ids: seq<string>, answer: seq<Wire>, before: map<string, Row>, i: nat)
    requires i < |answer| && TakenFrom(t, ids, answer[..i], before) && ValidCopy(t, ids, answer[i])
    requires CopyId(t, answer[i]) !in before && forall w :: w in answer[..i] ==> CopyId(t, w) != CopyId(t, answer[i])
    ensures TakenFrom(t, ids, answer[..i + 1], before)
  {
    hide ValidCopy, CopyId;
    var front := answer[..i];
    assert answer[..i + 1] == front + [answer[i]];
    forall j | 0 <= j < i ensures CopyId(t, answer[j]) != CopyId(t, answer[i]) {
      assert front[j] in front;
    }
  }

  lemma RefusedCopy(t: Table, ids: seq<string>, answer: seq<Wire>, before: map<string, Row>, i: nat)
    requires i < |answer|
    requires !ValidCopy(t, ids, answer[i]) || CopyId(t, answer[i]) in before || exists w :: w in answer[..i] && CopyId(t, w) == CopyId(t, answer[i])
    ensures !TakenFrom(t, ids, answer, before)
  {
    hide ValidCopy, CopyId;
    if w :| w in answer[..i] && CopyId(t, w) == CopyId(t, answer[i]) {
      var j :| 0 <= j < i && answer[j] == w;
    }
    assert answer[i] in answer;
  }

  /** Every answered row is well-formed and requested, and no record is answered twice. */
  ghost predicate TakenFrom(t: Table, ids: seq<string>, answer: seq<Wire>, before: map<string, Row>) {
    && (forall w :: w in answer ==> ValidCopy(t, ids, w) && CopyId(t, w) !in before)
    && (forall i, j :: 0 <= i < j < |answer| ==> CopyId(t, answer[i]) != CopyId(t, answer[j]))
  }

  lemma ValidCopyIsRow(t: Table, ids: seq<string>, w: Wire)
    ensures ValidCopy(t, ids, w) ==> w.WireRow? && CopyId(t, w) in ids
  {
  }

  /** Fetch the server's copies chunk by chunk. Against a faithful sink the result is exactly what the
      server holds under the ids asked for, and the preflight fails exactly when a request for some hundred of
      them does. */
  method FetchCandidateState(lookup: Lookup, t: Table, ids: seq<string>, ghost held: map<string, Row>)
    returns (r: Result<map<string, Row>>)
    ensures r.Ok? && Faithful(lookup, t, held) && Distinct(ids) ==>
      forall id :: (id in r.value <==> id in ids && id in held) && (id in r.value ==> r.value[id] == held[id])
    ensures r.Err? && Faithful(lookup, t, held) && Distinct(ids) ==> ChunkFails(lookup, t, ids)
    ensures ChunkFails(lookup, t, ids) ==> r.Err?
    ensures r.Ok? ==> forall id :: id in r.value ==> id in ids
    ensures r.Err? ==> r.error == PreflightFailed
  {
    hide ValidCopy, CopyId, Faithful, ChunkFails, ChunkAt, Answered, Exact, TakenFrom, Added, Asked;
    var rows: map<string, Row>, from := map[], 0;
    ghost var n: nat := 0;
    NoneAsked(lookup, t, ids, held);
    while from < |ids|
      invariant from <= |ids| && from <= 100 * n && (from < |ids| ==> from == 100 * n)
      invariant Answered(lookup, t, ids, n) && Asked(rows, ids, from)
      invariant Faithful(lookup, t, held) && Distinct(ids) ==> Exact(rows, ids, from, held)
    {
      var to := if from + FETCH_CHUNK_SIZE <= |ids| then from + FETCH_CHUNK_SIZE else |ids|;
      var chunk := ids[from..to];
      var answer := lookup(t, chunk);
      ChunkAsked(lookup, t, ids, n, to);
      n := n + 1;
      if answer.None? {
        return Err(PreflightFailed);
      }
      if Faithful(lookup, t, held) && Distinct(ids) {
        ExactStep(lookup, t, held, ids, from, to, rows);
      }
      var taken := TakeCopies(t, chunk, answer.value, rows);
      if taken.Err? {
        return taken;
      }
      AskedStep(t, ids, from, to, rows, answer.value);
      rows, from := taken.value, to;
    }
    AllAsked(lookup, t, ids, n);
    ExactlyHeld(rows, ids, held);
    return Ok(rows);
  }

  /** Only rows under the first ids. */
  ghost predicate Asked(rows: map<string, Row>, ids: seq<string>, from: nat)
    requires from <= |ids|
  {
    forall id :: id in rows ==> id in ids[..from]
  }

  /** Exactly the held rows under the first ids. */
  ghost predicate Exact(rows: map<string, Row>, ids: seq<string>, from: nat, held: map<string, Row>)
    requires from <= |ids|
  {
    && (forall id :: id in rows <==> id in ids[..from] && id in held)
    && (forall id :: id in rows ==> rows[id] == held[id])
  }

  lemma ExactlyHeld(rows: map<string, Row>, ids: seq<string>, held: map<string, Row>)
    ensures Asked(rows, ids, |ids|) ==> forall id :: id in rows ==> id in ids
    ensures Exact(rows, ids, |ids|, held) ==>
      forall id :: (id in rows <==> id in ids && id in held) && (id in rows ==> rows[id] == held[id])
  {
    assert ids[..|ids|] == ids;
  }

  lemma AskedStep(t: Table, ids: seq<string>, from: nat, to: nat, rows: map<string, Row>, answer: seq<Wire>)
    requires from <= to <= |ids| && Asked(rows, ids, from) && TakenFrom(t, ids[from..to], answer, rows)
    ensures Asked(Added(t, rows, answer), ids, to)
  {
    var chunk := ids[from..to];
    AddedRows(t, chunk, rows, answer);
    forall w ensures ValidCopy(t, chunk, w) ==> w.WireRow? && CopyId(t, w) in chunk {
      ValidCopyIsRow(t, chunk, w);
    }
    hide ValidCopy, CopyId, Added;
    assert ids[..to] == ids[..from] + chunk;
  }

  lemma ExactStep(lookup: Lookup, t: Table, held: map<string, Row>, ids: seq<string>, from: nat, to: nat, rows: map<string, Row>)
    requires Faithful(lookup, t, held) && Distinct(ids) && from <= to <= |ids| && lookup(t, ids[from..to]).Some?
    requires Exact(rows, ids, from, held)
    ensures var answer := lookup(t, ids[from..to]).value;
      TakenFrom(t, ids[from..to], answer, rows) && Exact(Added(t, rows, answer), ids, to, held)
  {
    hide ValidCopy, CopyId, Faithful, Added, Distinct;
    FaithfulAnswer(lookup, t, held, ids, from, to);
    var chunk, answer := ids[from..to], lookup(t, ids[from..to]).value;
    assert TakenFrom(t, chunk, answer, rows) by {
      assert forall id :: id in rows ==> id in ids[..from];
    }
    AddedRows(t, chunk, rows, answer);
    hide TakenFrom, Exact;
    var got := set w | w in answer :: CopyId(t, w);
    forall id | id in got ensures id in chunk {
      var w :| w in answer && CopyId(t, w) == id;
      ValidCopyIsRow(t, chunk, w);
    }
    forall id | id in chunk && id in held ensures id in got {
      assert WireRow(held[id]) in answer;
    }
    ExactUnion(rows, Added(t, rows, answer), got, ids, from, to, held);
  }

  lemma ExactUnion(rows: map<string, Row>, more: map<string, Row>, got: set<string>, ids: seq<string>, from: nat, to: nat,
                   held: map<string, Row>)
    requires from <= to <= |ids| && Exact(rows, ids, from, held)
    requires forall id :: id in more <==> id in rows || id in got
    requires forall id :: id in rows ==> more[id] == rows[id]
    requires forall id :: id in got ==> id in ids[from..to] && id in held && more[id] == held[id]
    requires forall id :: id in ids[from..to] && id in held ==> id in got
    ensures Exact(more, ids, to, held)
  {
    assert ids[..to] == ids[..from] + ids[from..to];
  }

  /** The requests for the first n hundreds of the ids were answered. */
  ghost predicate Answered(lookup: Lookup, t: Table, ids: seq<string>, n: nat) {
    forall m: nat :: m < n ==> lookup(t, ChunkAt(ids, m)).Some?
  }

  lemma NoneAsked(lookup: Lookup, t: Table, ids: seq<string>, held: map<string, Row>)
    ensures Answered(lookup, t, ids, 0) && Asked(map[], ids, 0) && Exact(map[], ids, 0, held)
  {
  }

  lemma ChunkAsked(lookup: Lookup, t: Table, ids: seq<string>, n: nat, to: nat)
    requires 100 * n < |ids| && Answered(lookup, t, ids, n) && to == (if 100 * n + 100 <= |ids| then 100 * n + 100 else |ids|)
    ensures if lookup(t, ids[100 * n..to]).Some? then Answered(lookup, t, ids, n + 1) else ChunkFails(lookup, t, ids)
  {
    assert ids[100 * n..to] == ChunkAt(ids, n);
  }

  lemma AllAsked(lookup: Lookup, t: Table, ids: seq<string>, n: nat)
    requires Answered(lookup, t, ids, n) && |ids| <= 100 * n
    ensures !ChunkFails(lookup, t, ids)
  {
  }

  /** The n-th hundred of the ids. */
  function ChunkAt(ids: seq<string>, n: nat): seq<string> {
    if 100 * n + 100 <= |ids| then ids[100 * n..100 * n + 100] else if 100 * n <= |ids| then ids[100 * n..] else []
  }

  /** The request for some hundred of the ids fails. */
  ghost predicate ChunkFails(lookup: Lookup, t: Table, ids: seq<string>) {
    exists n: nat :: 100 * n < |ids| && lookup(t, ChunkAt(ids, n)).None?
  }

  lemma FaithfulAnswer(lookup: Lookup, t: Table, held: map<string, Row>, ids: seq<string>, from: nat, to: nat)
    requires Faithful(lookup, t, held) && from <= to <= |ids| && lookup(t, ids[from..to]).Some? && Distinct(ids)
    ensures var answer := lookup(t, ids[from..to]).value;
      && (forall w :: w in answer ==>
            && ValidCopy(t, ids[from..to], w) && CopyId(t, w) in held && held[CopyId(t, w)] == w.fields
            && CopyId(t, w) !in ids[..from])
      && (forall i, j :: 0 <= i < j < |answer| ==> CopyId(t, answer[i]) != CopyId(t, answer[j]))
      && (forall id :: id in ids[from..to] && id in held ==> WireRow(held[id]) in answer && CopyId(t, WireRow(held[id])) == id)
  {
    var chunk := ids[from..to];
    var answer := lookup(t, chunk).value;
    forall w | w in answer
      ensures ValidCopy(t, chunk, w) && CopyId(t, w) in held && w == WireRow(held[CopyId(t, w)])
      ensures CopyId(t, w) !in ids[..from]
    {
      var id :| id in chunk && id in held && w == WireRow(held[id]);
    }
    forall i, j | 0 <= i < j < |answer| ensures CopyId(t, answer[i]) != CopyId(t, answer[j]) {
      assert answer[i] in answer && answer[j] in answer;
    }
  }

  // ── Choosing what to import ────────────────────────────────────────────────

  /** The local and server copies the archive is compared with. */
  datatype Copies = Copies(local: map<Key, Row>, server: map<Key, Row>)

  function CopyStamp(rows: map<Key, Row>, k: Key): Option<int> {
    if k in rows then Stamp(rows[k]) else None
  }

  /** Every copy of the record has a readable stamp. */
  predicate Readable(x: Copies, k: Key) {
    (k in x.local ==> Stamp(x.local[k]).Some?) && (k in x.server ==> Stamp(x.server[k]).Some?)
  }

  /** Strictly newer than the local copy and than the server copy, where they exist. */
  function Accepts(x: Copies): Candidate -> bool {
    (c: Candidate) => NewerThan(CopyStamp(x.local, c.key), c.updatedAt) && NewerThan(CopyStamp(x.server, c.key), c.updatedAt)
  }

  predicate NewerThan(stamp: Option<int>, updatedAt: int) {
    stamp.Some? ==> stamp.value < updatedAt
  }

  function InTable(t: Table): Candidate -> bool {
    (c: Candidate) => c.key.table == t
  }

  /** How many candidates of a table satisfy a condition. */
  function Count(p: Candidate -> bool, t: Table, cs: seq<Candidate>): nat {
    |Filter(InTable(t), Filter(p, cs))|
  }

  function MaxOf(a: Option<int>, b: Option<int>): Option<int> {
    match (a, b)
    case (Some(m), Some(n)) => Some(Pull.Max(m, n))
    case (None, _) => b
    case (_, None) => a
  }

  /** The newest stamp compared for one candidate. */
  function NewestOf(x: Copies, c: Candidate): Option<int> {
    MaxOf(MaxOf(Some(c.updatedAt), CopyStamp(x.local, c.key)), CopyStamp(x.server, c.key))
  }

  /** The newest stamp compared for any of the candidates. */
  function Newest(x: Copies, cs: seq<Candidate>): Option<int> {
    if cs == [] then None else MaxOf(Newest(x, cs[..|cs| - 1]), NewestOf(x, cs[|cs| - 1]))
  }

  type Counts = map<Table, nat>

  datatype Selection = Selection(imported: Counts, skipped: Counts, accepted: seq<Candidate>, newest: Option<int>)

  /** Counters that hold the true counts, each within its width. */
  ghost predicate Tallied(n: Counts, p: Candidate -> bool, cs: seq<Candidate>) {
    forall t :: t in IMPORT_TABLES ==> t in n && n[t] == Count(p, t, cs) && n[t] <= 0xffff_ffff
  }

  /** No table has more candidates of a kind than a counter can hold. */
  ghost predicate Fits(p: Candidate -> bool, cs: seq<Candidate>) {
    forall t :: Count(p, t, cs) <= 0xffff_ffff
  }

  function Increment(n: Counts, t: Table): Result<Counts>
    requires t in n
  {
    if n[t] >= U32_MAX then Err(InvalidImport) else Ok(n[t := n[t] + 1])
  }

  method Select(x: Copies, cs: seq<Candidate>) returns (r: Result<Selection>)
    requires Parsed(cs)
    ensures r.Ok? <==> (forall c :: c in cs ==> Readable(x, c.key)) && Fits(Accepts(x), cs) && Fits(Not(Accepts(x)), cs)
    ensures r.Ok? ==> r.value.accepted == Filter(Accepts(x), cs) && r.value.newest == Newest(x, Filter(Accepts(x), cs))
    ensures r.Ok? ==> Tallied(r.value.imported, Accepts(x), cs) && Tallied(r.value.skipped, Not(Accepts(x)), cs)
    ensures r.Err? && r.error != InvalidImport ==> exists c :: c in cs && !Readable(x, c.key)
    ensures r.Err? && r.error == InvalidImport ==> !Fits(Accepts(x), cs) || !Fits(Not(Accepts(x)), cs)
  {
    hide Filter, Newest, NewestOf, Tallied, Accepts, Fits;
    var zero: Counts := map t | t in IMPORT_TABLES :: 0;
    var imported, skipped := zero, zero;
    var accepted: seq<Candidate>, newest: Option<int> := [], None;
    SelectNone(x, zero);
    hide IMPORT_TABLES, Stamp, Addresses;
    for i := 0 to |cs|
      invariant forall c :: c in cs[..i] ==> Readable(x, c.key)
      invariant accepted == Filter(Accepts(x), cs[..i]) && newest == Newest(x, accepted)
      invariant Tallied(imported, Accepts(x), cs[..i]) && Tallied(skipped, Not(Accepts(x)), cs[..i])
    {
      var c := cs[i];
      assert c in cs && cs[..i + 1] == cs[..i] + [c];
      SelectPush(x, cs[..i], c);
      if c.key in x.local && Stamp(x.local[c.key]).None? {
        return Err(StoreFailed);
      }
      if c.key in x.server && Stamp(x.server[c.key]).None? {
        return Err(PreflightFailed);
      }
      TallyStep(imported, Accepts(x), cs, i);
      TallyStep(skipped, Not(Accepts(x)), cs, i);
      AcceptsMeans(x, c);
      var existing := MaxOf(CopyStamp(x.local, c.key), CopyStamp(x.server, c.key));
      if existing.Some? && c.updatedAt <= existing.value {
        var n := Increment(skipped, c.key.table);
        if n.Err? {
          return Err(n.error);
        }
        skipped := n.value;
      } else {
        var n := Increment(imported, c.key.table);
        if n.Err? {
          return Err(n.error);
        }
        imported := n.value;
        newest := MaxOf(newest, NewestOf(x, c));
        accepted := accepted + [c];
      }
    }
    assert cs[..|cs|] == cs;
    TalliedFits(imported, Accepts(x), cs);
    TalliedFits(skipped, Not(Accepts(x)), cs);
    return Ok(Selection(imported, skipped, accepted, newest));
  }

  lemma AcceptsMeans(x: Copies, c: Candidate)
    ensures var existing := MaxOf(CopyStamp(x.local, c.key), CopyStamp(x.server, c.key));
      Accepts(x)(c) <==> !(existing.Some? && c.updatedAt <= existing.value)
  {
  }

  lemma TallyStep(n: Counts, p: Candidate -> bool, cs: seq<Candidate>, i: nat)
    requires i < |cs| && Tallied(n, p, cs[..i]) && cs[i].key.table in IMPORT_TABLES
    ensures cs[i].key.table in n
    ensures p(cs[i]) && Increment(n, cs[i].key.table).Ok? ==> Tallied(Increment(n, cs[i].key.table).value, p, cs[..i + 1])
    ensures p(cs[i]) && Increment(n, cs[i].key.table).Err? ==> !Fits(p, cs)
    ensures !p(cs[i]) ==> Tallied(n, p, cs[..i + 1])
  {
    hide Count, IMPORT_TABLES;
    var c := cs[i];
    assert cs[..i + 1] == cs[..i] + [c];
    forall t ensures Count(p, t, cs[..i + 1]) == Count(p, t, cs[..i]) + if p(c) && c.key.table == t then 1 else 0 {
      CountPush(p, t, cs[..i], c);
    }
    CountGrows(p, c.key.table, cs, i + 1);
  }

  lemma TalliedFits(n: Counts, p: Candidate -> bool, cs: seq<Candidate>)
    requires Tallied(n, p, cs) && forall c :: c in cs ==> c.key.table in IMPORT_TABLES
    ensures Fits(p, cs)
  {
    hide Count, IMPORT_TABLES;
    forall t ensures Count(p, t, cs) <= 0xffff_ffff {
      OtherTablesEmpty(p, t, cs);
    }
  }

  lemma SelectNone(x: Copies, zero: Counts)
    requires zero == map t | t in IMPORT_TABLES :: 0
    ensures Filter(Accepts(x), []) == [] && Newest(x, []) == None
    ensures Tallied(zero, Accepts(x), []) && Tallied(zero, Not(Accepts(x)), [])
  {
  }

  lemma CountPush(p: Candidate -> bool, t: Table, cs: seq<Candidate>, c: Candidate)
    ensures Count(p, t, cs + [c]) == Count(p, t, cs) + if p(c) && c.key.table == t then 1 else 0
  {
    FilterPush(p, cs, c);
    FilterPush(InTable(t), Filter(p, cs), c);
  }

  lemma SelectPush(x: Copies, cs: seq<Candidate>, c: Candidate)
    ensures Filter(Accepts(x), cs + [c]) == Filter(Accepts(x), cs) + if Accepts(x)(c) then [c] else []
    ensures var a := Filter(Accepts(x), cs); Newest(x, a + [c]) == MaxOf(Newest(x, a), NewestOf(x, c))
  {
    FilterPush(Accepts(x), cs, c);
    var a := Filter(Accepts(x), cs);
    assert (a + [c])[..|a|] == a;
  }

  lemma CountGrows(p: Candidate -> bool, t: Table, cs: seq<Candidate>, i: nat)
    requires i <= |cs|
    ensures Count(p, t, cs[..i]) <= Count(p, t, cs)
  {
    assert cs == cs[..i] + cs[i..];
    FilterAppend(p, cs[..i], cs[i..]);
    FilterAppend(InTable(t), Filter(p, cs[..i]), Filter(p, cs[i..]));
  }

  lemma OtherTablesEmpty(p: Candidate -> bool, t: Table, cs: seq<Candidate>)
    requires forall c :: c in cs ==> c.key.table in IMPORT_TABLES
    ensures t !in IMPORT_TABLES ==> Count(p, t, cs) == 0
  {
    if t !in IMPORT_TABLES {
      FilterMembers(p, cs);
      FilterNone(InTable(t), Filter(p, cs));
    }
  }

  /** Accepted plus skipped is all candidates, table by table. */
  lemma {:induction false} CountsAddUp(p: Candidate -> bool, t: Table, cs: seq<Candidate>)
    ensures Count(p, t, cs) + Count(Not(p), t, cs) == |Filter(InTable(t), cs)|
  {
    if cs != [] {
      var front, last := cs[..|cs| - 1], cs[|cs| - 1];
      CountsAddUp(p, t, front);
      assert cs == front + [last];
      CountPush(p, t, front, last);
      CountPush(Not(p), t, front, last);
    }
  }

  /** The newest compared stamp is one of those that were compared. */
  lemma {:induction false} NewestIsCompared(x: Copies, cs: seq<Candidate>) returns (c: Candidate)
    requires cs != []
    ensures c in cs && Newest(x, cs).Some?
    ensures Newest(x, cs) == Some(c.updatedAt) || Newest(x, cs) == CopyStamp(x.local, c.key) || Newest(x, cs) == CopyStamp(x.server, c.key)
  {
    var front, last := cs[..|cs| - 1], cs[|cs| - 1];
    c := last;
    if front != [] && Newest(x, cs) != NewestOf(x, last) {
      c := NewestIsCompared(x, front);
    }
  }

  /** The newest compared stamp bounds every stamp that was compared. */
  lemma {:induction false} NewestBounds(x: Copies, cs: seq<Candidate>, c: Candidate)
    requires c in cs
    ensures Newest(x, cs).Some? && c.updatedAt <= Newest(x, cs).value
    ensures CopyStamp(x.local, c.key).Some? ==> CopyStamp(x.local, c.key).value <= Newest(x, cs).value
    ensures CopyStamp(x.server, c.key).Some? ==> CopyStamp(x.server, c.key).value <= Newest(x, cs).value
  {
    if c != cs[|cs| - 1] {
      NewestBounds(x, cs[..|cs| - 1], c);
    }
  }

  // ── Preparing the rows ─────────────────────────────────────────────────────

  /** The existing copies of a record, the newer first; at equal stamps the local one. */
  function CopiesOf(x: Copies, k: Key): seq<Row> {
    if k in x.local && k in x.server then
      if StampOr0(x.local[k]) >= StampOr0(x.server[k]) then [x.local[k], x.server[k]] else [x.server[k], x.local[k]]
    else if k in x.server then [x.server[k]]
    else if k in x.local then [x.local[k]]
    else []
  }

  function FirstStr(rows: seq<Row>, c: Column, usable: string -> bool): Option<string> {
    if rows == [] then None
    else
      var v := AsStr(Get(rows[0], c));
      if v.Some? && usable(v.value) then v else FirstStr(rows[1..], c, usable)
  }

  function Usable(vault: Vault, id: string, c: Column): string -> bool {
    v => c != Url || vault.opensUrl(id, v)
  }

  /** The value a book keeps in a column the archive never authors. */
  function KeptValue(x: Copies, vault: Vault, c: Candidate, col: Column): Option<string> {
    var existing := CopiesOf(x, c.key);
    var own := FirstStr(existing, col, Usable(vault, c.key.id, col));
    var archived := AsStr(Get(c.row, col));
    if own.Some? then own
    else if col == Kind && existing != [] then Some("book")
    else if archived.Some? then archived
    else if col == Status then Some("shelved")
    else if col == Kind then Some("book")
    else None
  }

  function Put(row: Row, c: Column, v: Option<string>): Row {
    if v.Some? then row[c := Str(v.value)] else row
  }

  function Keep(x: Copies, vault: Vault, c: Candidate): Row {
    if c.key.table == Books then
      Put(Put(Put(c.row, Status, KeptValue(x, vault, c, Status)),
              Kind, KeptValue(x, vault, c, Kind)),
          Url, KeptValue(x, vault, c, Url))
    else c.row
  }

  /** Encrypt a note's text and derive its tag; None on a malformed note. */
  function SealNote(vault: Vault, id: string, row: Row): Option<Row> {
    var bare := row - {Text, ContentTag};
    match Get(row, Text)
    case Some(Str(plaintext)) =>
      (match Get(row, BookId)
       case Some(Str(b)) =>
         Some(bare[Text := Str(vault.encryptNote(id, plaintext))][ContentTag := Str(vault.contentTag(plaintext, Some(b)))])
       case Some(Null) => Some(bare[Text := Str(vault.encryptNote(id, plaintext))][ContentTag := Str(vault.contentTag(plaintext, None))])
       case None => Some(bare[Text := Str(vault.encryptNote(id, plaintext))][ContentTag := Str(vault.contentTag(plaintext, None))])
       case _ => None)
    case Some(Null) => Some(bare[Text := Null][ContentTag := Null])
    case None => Some(bare[Text := Null][ContentTag := Null])
    case _ => None
  }

  function SealBook(vault: Vault, id: string, row: Row): Row {
    match Get(row, Url)
    case Some(Str(url)) => if vault.isSealed(url) then row else row[Url := Str(vault.sealUrl(id, url))]
    case _ => row
  }

  /** The complete row to stage: sealed, live, stamped with the batch stamp, every column present. */
  function PrepareWrite(vault: Vault, k: Key, row: Row, batch: int): Option<Write> {
    var sealed_ :=
      if k.table == Notes then SealNote(vault, k.id, row)
      else if k.table == Books then Some(SealBook(vault, k.id, row))
      else Some(row);
    match sealed_
    case None => None
    case Some(r) =>
      var live := r[UpdatedAt := Int(batch)][Deleted := Bool(false)];
      Some(Write(k, map c | c in Columns(k.table) :: if c in live then live[c] else Null))
  }

  function WriteFor(x: Copies, vault: Vault, c: Candidate, batch: int): Option<Write> {
    PrepareWrite(vault, c.key, Keep(x, vault, c), batch)
  }

  function WritesFor(x: Copies, vault: Vault, cs: seq<Candidate>, batch: int): Option<seq<Write>> {
    if cs == [] then Some([])
    else
      var front, last := WritesFor(x, vault, cs[..|cs| - 1], batch), WriteFor(x, vault, cs[|cs| - 1], batch);
      if front.Some? && last.Some? then Some(front.value + [last.value]) else None
  }

  /** A prepared row is complete, names its record, is live and carries the batch stamp; outside the
      sealed and kept columns it is the archive's row. */
  lemma PreparedRow(x: Copies, vault: Vault, c: Candidate, batch: I64)
    requires c.key.table in IMPORT_TABLES && Addresses(c.key, c.row) && WriteFor(x, vault, c, batch).Some?
    ensures var w := WriteFor(x, vault, c, batch).value;
      && w.key == c.key && w.row.Keys == Columns(c.key.table) && Addresses(c.key, w.row)
      && Stamp(w.row) == Some(batch) && w.row[Deleted] == Bool(false)
      && (forall col :: col in Columns(c.key.table) && !Resealed(c.key.table, col) && col != UpdatedAt && col != Deleted ==>
            w.row[col] == if col in c.row then c.row[col] else Null)
  {
    var k, w := c.key, WriteFor(x, vault, c, batch).value;
    var live := SealedRow(x, vault, c).value[UpdatedAt := Int(batch)][Deleted := Bool(false)];
    assert w == Write(k, map col | col in Columns(k.table) :: if col in live then live[col] else Null) by {
      hide Columns;
    }
    KeyIsPlain(k.table);
    SchemaFacts(k.table);
    hide Columns, SealedRow, WriteFor, Resealed, PrimaryKey, IMPORT_TABLES;
    forall col | !Resealed(k.table, col) ensures Get(SealedRow(x, vault, c).value, col) == Get(c.row, col) {
      SealedElsewhere(x, vault, c, col);
    }
  }

  /** The archive's row with its book columns kept and its secrets sealed. */
  function SealedRow(x: Copies, vault: Vault, c: Candidate): Option<Row> {
    if c.key.table == Notes then SealNote(vault, c.key.id, Keep(x, vault, c))
    else if c.key.table == Books then Some(SealBook(vault, c.key.id, Keep(x, vault, c)))
    else Some(Keep(x, vault, c))
  }

  lemma KeyIsPlain(t: Table)
    requires t in IMPORT_TABLES
    ensures Synced(t) && !Resealed(t, PrimaryKey(t)) && PrimaryKey(t) != UpdatedAt && PrimaryKey(t) != Deleted
  {
  }

  /** Columns that preparation seals or a book keeps. */
  predicate Resealed(t: Table, col: Column) {
    (t == Notes && col in {Text, ContentTag}) || (t == Books && col in BOOK_FILLABLE)
  }

  lemma SealedElsewhere(x: Copies, vault: Vault, c: Candidate, col: Column)
    requires !Resealed(c.key.table, col) && SealedRow(x, vault, c).Some?
    ensures Get(SealedRow(x, vault, c).value, col) == Get(c.row, col)
  {
    hide KeptValue;
  }

  /** What a copy of a book says in a column, if it says anything; a url counts only if it opens here. */
  function SaidBy(rows: map<Key, Row>, vault: Vault, k: Key, col: Column): Option<string> {
    if k in rows && Get(rows[k], col).Some? && rows[k][col].Str? && (col == Url ==> vault.opensUrl(k.id, rows[k][col].s))
    then Some(rows[k][col].s) else None
  }

  /** What a book's own copies say: the newer one of those that say anything, the local one at equal stamps. */
  function OwnValue(x: Copies, vault: Vault, k: Key, col: Column): Option<string> {
    var mine, theirs := SaidBy(x.local, vault, k, col), SaidBy(x.server, vault, k, col);
    if mine.Some? && theirs.Some? then
      if StampOr0(x.local[k]) >= StampOr0(x.server[k]) then mine else theirs
    else if mine.Some? then mine
    else theirs
  }

  function Else(v: Option<string>, w: Option<string>): Option<string> {
    if v.Some? then v else w
  }

  /** A book keeps what its own copies say: its status, else the archive's, else shelved; its kind, which the
      archive never changes, else the archive's for a book new here, else book; its url, else the archive's,
      always sealed. */
  lemma ArchiveNeverOverrules(x: Copies, vault: Vault, c: Candidate, batch: int)
    requires c.key.table == Books && WriteFor(x, vault, c, batch).Some?
    ensures var w, k := WriteFor(x, vault, c, batch).value.row, c.key;
      && Get(w, Status) == Some(Str(Else(Else(OwnValue(x, vault, k, Status), AsStr(Get(c.row, Status))), Some("shelved")).value))
      && (var archived := if k in x.local || k in x.server then None else AsStr(Get(c.row, Kind));
          Get(w, Kind) == Some(Str(Else(Else(OwnValue(x, vault, k, Kind), archived), Some("book")).value)))
      && (var u := Else(OwnValue(x, vault, k, Url), AsStr(Get(c.row, Url)));
          Get(w, Url) == Some(if u.Some? then Str(if vault.isSealed(u.value) then u.value else vault.sealUrl(k.id, u.value))
                              else if Url in c.row then c.row[Url] else Null))
  {
    hide Keep, SealBook, OwnValue;
    SealBookKeeps(vault, c.key.id, Keep(x, vault, c));
    KeptBook(x, vault, c);
    PreparedBook(vault, c.key, Keep(x, vault, c), batch);
    hide PrepareWrite;
  }

  lemma PreparedBook(vault: Vault, k: Key, row: Row, batch: int)
    requires k.table == Books && PrepareWrite(vault, k, row, batch).Some?
    ensures var w, r := PrepareWrite(vault, k, row, batch).value.row, SealBook(vault, k.id, row);
      forall col :: col in BOOK_FILLABLE ==> Get(w, col) == Some(if col in r then r[col] else Null)
  {
    FillableInBooks();
    hide SealBook, Columns;
  }

  lemma FillableInBooks()
    ensures BOOK_FILLABLE <= Columns(Books)
  {
  }

  predicate TextOrNothing(v: Option<Cell>) {
    v.Some? ==> v.value.Str? || v.value == Null
  }

  /** Every row can be prepared but a note whose text, or whose book id beside a text, is neither a string nor
      null. */
  lemma PreparesIff(x: Copies, vault: Vault, c: Candidate, batch: int)
    ensures WriteFor(x, vault, c, batch).Some? <==>
      c.key.table == Notes ==>
        TextOrNothing(Get(c.row, Text)) && (AsStr(Get(c.row, Text)).Some? ==> TextOrNothing(Get(c.row, BookId)))
  {
    hide Columns, KeptValue;
  }

  /** A note's text leaves only encrypted, and its tag is made from the text and the book it belongs to. */
  lemma NoteLeavesEncrypted(x: Copies, vault: Vault, c: Candidate, batch: int)
    requires c.key.table == Notes && WriteFor(x, vault, c, batch).Some?
    ensures var w, text := WriteFor(x, vault, c, batch).value.row, AsStr(Get(c.row, Text));
      if text.Some? then
        && Get(w, Text) == Some(Str(vault.encryptNote(c.key.id, text.value)))
        && Get(w, ContentTag) == Some(Str(vault.contentTag(text.value, AsStr(Get(c.row, BookId)))))
      else Get(w, Text) == Some(Null) && Get(w, ContentTag) == Some(Null)
  {
    TextInNotes();
    hide Columns;
  }

  lemma TextInNotes()
    ensures Text in Columns(Notes) && ContentTag in Columns(Notes)
  {
  }

  lemma SealBookKeeps(vault: Vault, id: string, row: Row)
    ensures forall col :: col != Url ==> Get(SealBook(vault, id, row), col) == Get(row, col)
    ensures Get(SealBook(vault, id, row), Url) ==
      match AsStr(Get(row, Url))
      case Some(u) => Some(Str(if vault.isSealed(u) then u else vault.sealUrl(id, u)))
      case None => Get(row, Url)
  {
  }

  lemma KeptBook(x: Copies, vault: Vault, c: Candidate)
    requires c.key.table == Books
    ensures var row, k := Keep(x, vault, c), c.key;
      && Get(row, Status) == Some(Str(Else(Else(OwnValue(x, vault, k, Status), AsStr(Get(c.row, Status))), Some("shelved")).value))
      && (var archived := if k in x.local || k in x.server then None else AsStr(Get(c.row, Kind));
          Get(row, Kind) == Some(Str(Else(Else(OwnValue(x, vault, k, Kind), archived), Some("book")).value)))
      && (var u := Else(OwnValue(x, vault, k, Url), AsStr(Get(c.row, Url)));
          Get(row, Url) == if u.Some? then Some(Str(u.value)) else Get(c.row, Url))
  {
    FirstIsOwn(x, vault, c.key, Status);
    FirstIsOwn(x, vault, c.key, Kind);
    FirstIsOwn(x, vault, c.key, Url);
    hide OwnValue, FirstStr;
  }

  /** The first usable value of the ordered copies is the ruling one. */
  lemma FirstIsOwn(x: Copies, vault: Vault, k: Key, col: Column)
    ensures FirstStr(CopiesOf(x, k), col, Usable(vault, k.id, col)) == OwnValue(x, vault, k, col)
    ensures CopiesOf(x, k) == [] <==> k !in x.local && k !in x.server
  {
    hide StampOr0;
    if k in x.local {
      FirstOfOne(x.local, vault, k, col);
    }
    if k in x.server {
      FirstOfOne(x.server, vault, k, col);
    }
    if k in x.local && k in x.server {
      FirstOfTwo(x.local[k], x.server[k], col, Usable(vault, k.id, col));
      FirstOfTwo(x.server[k], x.local[k], col, Usable(vault, k.id, col));
    }
  }

  lemma FirstOfOne(rows: map<Key, Row>, vault: Vault, k: Key, col: Column)
    requires k in rows
    ensures FirstStr([rows[k]], col, Usable(vault, k.id, col)) == SaidBy(rows, vault, k, col)
  {
  }

  lemma FirstOfTwo(a: Row, b: Row, col: Column, usable: string -> bool)
    ensures FirstStr([a, b], col, usable) == Else(FirstStr([a], col, usable), FirstStr([b], col, usable))
  {
    assert [a, b][1..] == [b];
  }

  // ── The merge ──────────────────────────────────────────────────────────────

  method PrepareAll(x: Copies, vault: Vault, cs: seq<Candidate>, batch: int) returns (r: Result<seq<Write>>)
    ensures r == match WritesFor(x, vault, cs, batch) case Some(ws) => Ok(ws) case None => Err(InvalidImport)
  {
    hide WriteFor;
    var ws: seq<Write> := [];
    for i := 0 to |cs|
      invariant WritesFor(x, vault, cs[..i], batch) == Some(ws)
    {
      assert cs[..i + 1][..i] == cs[..i];
      var w := WriteFor(x, vault, cs[i], batch);
      if w.None? {
        WritesForPrefix(x, vault, cs, i + 1, batch);
        return Err(InvalidImport);
      }
      ws := ws + [w.value];
    }
    assert cs[..|cs|] == cs;
    return Ok(ws);
  }

  lemma {:induction false} WritesForPrefix(x: Copies, vault: Vault, cs: seq<Candidate>, i: nat, batch: int)
    requires i <= |cs| && WritesFor(x, vault, cs[..i], batch).None?
    ensures WritesFor(x, vault, cs, batch).None?
  {
    if i == |cs| {
      assert cs[..i] == cs;
    } else {
      assert cs[..|cs| - 1][..i] == cs[..i];
      WritesForPrefix(x, vault, cs[..|cs| - 1], i, batch);
    }
  }

  datatype Summary = Summary(imported: Counts, skipped: Counts)

  function BatchStamp(importNow: int, newest: int): int {
    Pull.Max(importNow, newest + 1)
  }

  /** The state a merge leaves behind, or None when it fails and stages nothing. */
  ghost function Merged(r: Replica, server: map<Key, Row>, vault: Vault, cs: seq<Candidate>, importNow: int): Option<Replica> {
    var x := Copies(r.rows, server);
    var accepted := Filter(Accepts(x), cs);
    if !((forall c :: c in cs ==> Readable(x, c.key)) && Fits(Accepts(x), cs) && Fits(Not(Accepts(x)), cs)) then None
    else if Newest(x, accepted).None? then Some(r)
    else if Newest(x, accepted).value >= I64_MAX then None
    else
      var batch := BatchStamp(importNow, Newest(x, accepted).value);
      match WritesFor(x, vault, accepted, batch)
      case None => None
      case Some(ws) => Some(ImportAll(r, ws, batch))
  }

  method SelectPrepareAndStage(store: Store, vault: Vault, cs: seq<Candidate>, server: map<Key, Row>, importNow: I64)
    returns (r: Result<Summary>)
    requires store.Valid() && Parsed(cs)
    modifies store`rows, store`outbox, store`nextId
    ensures store.Valid()
    ensures r.Ok? <==> Merged(old(store.View()), server, vault, cs, importNow).Some?
    ensures store.View() == if r.Ok? then Merged(old(store.View()), server, vault, cs, importNow).value else old(store.View())
    ensures r.Ok? ==> var x := Copies(old(store.rows), server);
      Tallied(r.value.imported, Accepts(x), cs) && Tallied(r.value.skipped, Not(Accepts(x)), cs)
  {
    hide Filter, Newest, WritesFor, ImportAll, Tallied, Fits, Accepts, Readable, Parsed;
    var x := Copies(store.rows, server);
    var selected := Select(x, cs);
    if selected.Err? {
      return Err(selected.error);
    }
    var sel := selected.value;
    NewestOfNone(x, sel.accepted);
    if sel.accepted == [] {
      return Ok(Summary(sel.imported, sel.skipped));
    }
    if sel.newest.value >= I64_MAX {
      return Err(InvalidImport);
    }
    var batch := BatchStamp(importNow, sel.newest.value);
    var writes := PrepareAll(x, vault, sel.accepted, batch);
    if writes.Err? {
      return Err(writes.error);
    }
    AcceptedAddress(x, vault, cs, batch);
    store.StageImportBatch(writes.value, batch);
    return Ok(Summary(sel.imported, sel.skipped));
  }

  lemma NewestOfNone(x: Copies, cs: seq<Candidate>)
    ensures Newest(x, cs).None? <==> cs == []
  {
    if cs != [] {
      NewestBounds(x, cs, cs[|cs| - 1]);
    }
  }

  lemma {:induction false} WritesForEach(x: Copies, vault: Vault, cs: seq<Candidate>, batch: int)
    requires WritesFor(x, vault, cs, batch).Some?
    ensures var ws := WritesFor(x, vault, cs, batch).value;
      |ws| == |cs| && forall i :: 0 <= i < |cs| ==> WriteFor(x, vault, cs[i], batch) == Some(ws[i]) && ws[i].key == cs[i].key
  {
    hide SealNote, SealBook, Keep, Columns;
    if cs != [] {
      WritesForEach(x, vault, cs[..|cs| - 1], batch);
    }
  }

  lemma AcceptedAddress(x: Copies, vault: Vault, cs: seq<Candidate>, batch: int)
    requires Parsed(cs) && WritesFor(x, vault, Filter(Accepts(x), cs), batch).Some? && I64_MIN <= batch <= I64_MAX
    ensures forall w :: w in WritesFor(x, vault, Filter(Accepts(x), cs), batch).value ==>
      Synced(w.key.table) && Addresses(w.key, w.row)
  {
    hide WritesFor, WriteFor, Filter, Addresses;
    var a := Filter(Accepts(x), cs);
    WritesForEach(x, vault, a, batch);
    FilterMembers(Accepts(x), cs);
    forall w | w in WritesFor(x, vault, a, batch).value ensures Synced(w.key.table) && Addresses(w.key, w.row) {
      var i :| 0 <= i < |a| && WritesFor(x, vault, a, batch).value[i] == w;
      assert a[i] in a;
      PreparedRow(x, vault, a[i], batch);
    }
  }

  // ── What a merge achieves ──────────────────────────────────────────────────

  /** A successful merge with something to import: its batch stamp and its writes. */
  ghost predicate MergedBy(r: Replica, server: map<Key, Row>, vault: Vault, cs: seq<Candidate>, importNow: int,
                           batch: int, ws: seq<Write>) {
    var x := Copies(r.rows, server);
    var accepted := Filter(Accepts(x), cs);
    && Newest(x, accepted).Some? && Newest(x, accepted).value < I64_MAX
    && batch == BatchStamp(importNow, Newest(x, accepted).value) && WritesFor(x, vault, accepted, batch) == Some(ws)
  }

  /** The batch stamp is not before now and above the archive's stamp and every copy's, for every accepted
      row, and no higher than that takes. */
  lemma BatchBeatsEveryCopy(r: Replica, server: map<Key, Row>, vault: Vault, cs: seq<Candidate>, importNow: I64,
                            batch: int, ws: seq<Write>, c: Candidate)
    requires MergedBy(r, server, vault, cs, importNow, batch, ws)
    requires c in cs && Accepts(Copies(r.rows, server))(c)
    ensures importNow == batch || JustAbove(r, server, cs, batch)
    ensures I64_MIN <= batch <= I64_MAX && importNow <= batch && c.updatedAt < batch
    ensures NewerThan(CopyStamp(r.rows, c.key), batch) && NewerThan(CopyStamp(server, c.key), batch)
  {
    var x := Copies(r.rows, server);
    hide Filter, WritesFor, Newest, Accepts;
    FilterMembers(Accepts(x), cs);
    NewestBounds(x, Filter(Accepts(x), cs), c);
    var d := NewestIsCompared(x, Filter(Accepts(x), cs));
    assert importNow == batch || IsCompared(r, server, d, batch - 1);
  }

  predicate IsCompared(r: Replica, server: map<Key, Row>, c: Candidate, stamp: int) {
    c.updatedAt == stamp || CopyStamp(r.rows, c.key) == Some(stamp) || CopyStamp(server, c.key) == Some(stamp)
  }

  /** The stamp is one above a stamp compared for some candidate. */
  ghost predicate JustAbove(r: Replica, server: map<Key, Row>, cs: seq<Candidate>, batch: int) {
    exists c :: c in cs && IsCompared(r, server, c, batch - 1)
  }

  /** Staging a batch without repeated records: each written record gets its row and a queued entry,
      every other record keeps its row. */
  lemma {:induction false} BatchRows(r: Replica, ws: seq<Write>, batch: int, k: Key)
    requires forall i, j :: 0 <= i < j < |ws| ==> ws[i].key != ws[j].key
    ensures var r' := ImportAll(r, ws, batch);
      && (forall i :: 0 <= i < |ws| && ws[i].key == k ==> k in r'.rows && r'.rows[k] == Project(k.table, ws[i].row))
      && ((forall w :: w in ws ==> w.key != k) ==> (k in r'.rows <==> k in r.rows) && (k in r.rows ==> r'.rows[k] == r.rows[k]))
  {
    hide Project, ImportWrite;
    if ws != [] {
      var front, last := ws[..|ws| - 1], ws[|ws| - 1];
      BatchRows(r, front, batch, k);
      OneWriteRows(ImportAll(r, front, batch), last, batch);
      assert ws == front + [last];
      forall i | 0 <= i < |front| ensures front[i].key != last.key {
        assert front[i] == ws[i];
      }
    }
  }

  lemma OneWriteRows(r: Replica, w: Write, batch: int)
    ensures ImportWrite(r, w, batch).rows == r.rows[w.key := Project(w.key.table, w.row)]
  {
  }

  ghost predicate AcceptsKey(x: Copies, cs: seq<Candidate>, k: Key) {
    exists c :: c in cs && Accepts(x)(c) && c.key == k
  }

  /** The i-th write is the prepared row of an accepted candidate. */
  ghost predicate WriteOf(x: Copies, vault: Vault, cs: seq<Candidate>, batch: int, w: Write, c: Candidate) {
    c in cs && Accepts(x)(c) && c.key == w.key && WriteFor(x, vault, c, batch) == Some(w)
  }

  lemma AcceptedAreDistinct(x: Copies, cs: seq<Candidate>)
    requires Parsed(cs)
    ensures var a := Filter(Accepts(x), cs); forall i, j :: 0 <= i < j < |a| ==> a[i].key != a[j].key
  {
    hide Addresses, Accepts, IMPORT_TABLES;
    FilterPairwise((c: Candidate, d: Candidate) => c.key != d.key, Accepts(x), cs);
  }

  lemma WritesAreDistinct(x: Copies, vault: Vault, cs: seq<Candidate>, batch: int, ws: seq<Write>)
    requires Parsed(cs) && WritesFor(x, vault, Filter(Accepts(x), cs), batch) == Some(ws)
    ensures forall i, j :: 0 <= i < j < |ws| ==> ws[i].key != ws[j].key
  {
    hide Filter, WritesFor, WriteFor, Accepts, Parsed;
    AcceptedAreDistinct(x, cs);
    WritesForEach(x, vault, Filter(Accepts(x), cs), batch);
  }

  lemma WriteOfEach(x: Copies, vault: Vault, cs: seq<Candidate>, batch: int, ws: seq<Write>, i: nat) returns (c: Candidate)
    requires WritesFor(x, vault, Filter(Accepts(x), cs), batch) == Some(ws) && i < |ws|
    ensures WriteOf(x, vault, cs, batch, ws[i], c)
  {
    hide Filter, WritesFor, WriteFor, Accepts;
    var a := Filter(Accepts(x), cs);
    WritesForEach(x, vault, a, batch);
    FilterMembers(Accepts(x), cs);
    c := a[i];
    assert c in a;
  }

  lemma WriteOfAccepted(x: Copies, vault: Vault, cs: seq<Candidate>, batch: int, ws: seq<Write>, c: Candidate) returns (i: nat)
    requires WritesFor(x, vault, Filter(Accepts(x), cs), batch) == Some(ws) && c in cs && Accepts(x)(c)
    ensures i < |ws| && WriteOf(x, vault, cs, batch, ws[i], c)
  {
    hide Filter, WritesFor, WriteFor, Accepts;
    var a := Filter(Accepts(x), cs);
    WritesForEach(x, vault, a, batch);
    FilterMembers(Accepts(x), cs);
    i :| 0 <= i < |a| && a[i] == c;
  }

  /** The record holds the archive's cells, apart from the stamp, the flag and what is kept or sealed. */
  ghost predicate HoldsArchived(r: Replica, cs: seq<Candidate>, k: Key) {
    exists c :: c in cs && c.key == k && k in r.rows && ArchivedCells(r.rows[k], c)
  }

  predicate ArchivedCells(row: Row, c: Candidate) {
    forall col :: col in Columns(c.key.table) && !Resealed(c.key.table, col) && col != UpdatedAt && col != Deleted ==>
      Get(row, col) == Some(if col in c.row then c.row[col] else Null)
  }

  /** After a merge every accepted record is live, carries the batch stamp and holds the archive's cells, and
      every other record is as it was. */
  lemma MergedRows(r: Replica, server: map<Key, Row>, vault: Vault, cs: seq<Candidate>, importNow: I64,
                   batch: int, ws: seq<Write>, k: Key)
    requires Parsed(cs) && MergedBy(r, server, vault, cs, importNow, batch, ws)
    ensures var r' := ImportAll(r, ws, batch);
      if AcceptsKey(Copies(r.rows, server), cs, k)
      then
        && k in r'.rows && Stamp(r'.rows[k]) == Some(batch) && Get(r'.rows[k], Deleted) == Some(Bool(false))
        && HoldsArchived(r', cs, k)
      else Pull.SameAt(r, r', k)
  {
    var x := Copies(r.rows, server);
    hide Filter, WritesFor, Accepts, Newest, ImportAll, Addresses, WriteFor, Project, Stamp, Get;
    WritesAreDistinct(x, vault, cs, batch, ws);
    BatchRows(r, ws, batch, k);
    if c :| c in cs && Accepts(x)(c) && c.key == k {
      var i := WriteOfAccepted(x, vault, cs, batch, ws, c);
      BatchBeatsEveryCopy(r, server, vault, cs, importNow, batch, ws, c);
      PreparedRow(x, vault, c, batch);
      SchemaFacts(k.table);
      StoredLive(k.table, ws[i].row);
      StoredArchive(c, ws[i].row);
      assert ArchivedCells(ImportAll(r, ws, batch).rows[k], c);
    } else {
      forall w | w in ws ensures w.key != k {
        var i :| 0 <= i < |ws| && ws[i] == w;
        var c := WriteOfEach(x, vault, cs, batch, ws, i);
      }
    }
  }

  lemma StoredArchive(c: Candidate, row: Row)
    requires forall col :: col in Columns(c.key.table) && !Resealed(c.key.table, col) && col != UpdatedAt && col != Deleted ==>
      col in row && row[col] == if col in c.row then c.row[col] else Null
    ensures ArchivedCells(Project(c.key.table, row), c)
  {
    ProjectStores(c.key.table, row);
    hide Columns, Resealed, Project;
  }

  lemma StoredLive(t: Table, row: Row)
    requires Synced(t) && Deleted in row && row[Deleted] == Bool(false)
    ensures Stamp(Project(t, row)) == Stamp(row) && Get(Project(t, row), Deleted) == Some(Bool(false))
  {
    SchemaFacts(t);
    ProjectStamp(t, row);
    hide Columns;
  }

  /** The server has lost no row and set none back. */
  ghost predicate NotOlder(server: map<Key, Row>, server': map<Key, Row>) {
    forall k :: k in server ==> k in server' && Stamp(server[k]).Some? && Stamp(server'[k]).Some? && Stamp(server[k]).value <= Stamp(server'[k]).value
  }

  /** Merging the same archive again, with no copy set back, accepts nothing and changes nothing. */
  lemma SecondMergeIsIdle(r: Replica, server: map<Key, Row>, server': map<Key, Row>, vault: Vault, cs: seq<Candidate>,
                          importNow: I64, later: I64)
    requires Parsed(cs) && NotOlder(server, server')
    requires Merged(r, server, vault, cs, importNow).Some?
    ensures var r' := Merged(r, server, vault, cs, importNow).value;
      && Filter(Accepts(Copies(r'.rows, server')), cs) == []
      && (Merged(r', server', vault, cs, later).Some? ==> Merged(r', server', vault, cs, later).value == r')
  {
    var x, r' := Copies(r.rows, server), Merged(r, server, vault, cs, importNow).value;
    var x' := Copies(r'.rows, server');
    hide Filter, WritesFor, Newest, ImportAll, Addresses, Parsed, Fits, Readable;
    NewestOfNone(x, Filter(Accepts(x), cs));
    FilterMembers(Accepts(x), cs);
    forall c | c in cs ensures !Accepts(x')(c) {
      SecondLook(r, server, server', vault, cs, importNow, c);
    }
    FilterNone(Accepts(x'), cs);
    NewestOfNone(x', []);
  }

  lemma SecondLook(r: Replica, server: map<Key, Row>, server': map<Key, Row>, vault: Vault, cs: seq<Candidate>,
                   importNow: I64, c: Candidate)
    requires Parsed(cs) && NotOlder(server, server') && c in cs
    requires Merged(r, server, vault, cs, importNow).Some?
    ensures !Accepts(Copies(Merged(r, server, vault, cs, importNow).value.rows, server'))(c)
  {
    var x, r' := Copies(r.rows, server), Merged(r, server, vault, cs, importNow).value;
    hide Filter, WritesFor, Newest, ImportAll, Parsed, Fits, Accepts, Readable, AcceptsKey, NotOlder, CopyStamp, Stamp;
    var a := Filter(Accepts(x), cs);
    if Newest(x, a).Some? {
      var batch := BatchStamp(importNow, Newest(x, a).value);
      var ws := WritesFor(x, vault, a, batch).value;
      MergedRows(r, server, vault, cs, importNow, batch, ws, c.key);
      KeyAccepted(x, cs, c);
      if Accepts(x)(c) {
        BatchBeatsEveryCopy(r, server, vault, cs, importNow, batch, ws, c);
        Outrun(Copies(r'.rows, server'), c, batch);
        return;
      }
    } else {
      NewestOfNone(x, a);
      FilterMembers(Accepts(x), cs);
      assert c !in a;
    }
    StillRefused(x, Copies(r'.rows, server'), c);
  }

  lemma KeyAccepted(x: Copies, cs: seq<Candidate>, c: Candidate)
    requires Parsed(cs) && c in cs
    ensures AcceptsKey(x, cs, c.key) <==> Accepts(x)(c)
  {
    hide Accepts, Parsed;
    OnlyCandidate(cs, c);
  }

  lemma Outrun(x: Copies, c: Candidate, batch: int)
    requires c.key in x.local && Stamp(x.local[c.key]) == Some(batch) && c.updatedAt < batch
    ensures !Accepts(x)(c)
  {
  }

  lemma StillRefused(x: Copies, x': Copies, c: Candidate)
    requires !Accepts(x)(c) && NotOlder(x.server, x'.server)
    requires (c.key in x.local <==> c.key in x'.local) && (c.key in x.local ==> x.local[c.key] == x'.local[c.key])
    ensures !Accepts(x')(c)
  {
    hide Stamp;
  }

  lemma OnlyCandidate(cs: seq<Candidate>, c: Candidate)
    requires Parsed(cs) && c in cs
    ensures forall d :: d in cs && d.key == c.key ==> d == c
  {
    hide Addresses;
    forall d | d in cs && d.key == c.key ensures d == c {
      var i :| 0 <= i < |cs| && cs[i] == c;
      var j :| 0 <= j < |cs| && cs[j] == d;
    }
  }

  /** The merge as fleet steps: each write of the batch is an enabled import of a full row, in order,
      and punctual when no entry was queued later than now. */
  lemma MergeIsImportSteps(f: Fleet, d: nat, server: map<Key, Row>, vault: Vault, cs: seq<Candidate>, importNow: I64,
                           batch: int, ws: seq<Write>, i: nat)
    requires d in f.devices && Parsed(cs) && i < |ws| && 0 < importNow
    requires MergedBy(f.devices[d].replica, server, vault, cs, importNow, batch, ws)
    ensures var r := ImportAll(f.devices[d].replica, ws[..i], batch);
      var f' := f.(devices := f.devices[d := f.devices[d].(replica := r)]);
      && Enabled(f', ImportOne(d, ws[i], batch)) && FullRow(ws[i].key, ws[i].row)
      && Do(f', ImportOne(d, ws[i], batch)).devices[d].replica == ImportAll(f.devices[d].replica, ws[..i + 1], batch)
      && ((forall e :: e in f.devices[d].replica.outbox ==> e.at <= importNow) ==> Punctual(f', ImportOne(d, ws[i], batch)))
  {
    var r0 := f.devices[d].replica;
    var k := ws[i].key;
    hide MergedBy, ImportAll, ImportWrite, StampOr0, Addresses, FullRow, Existing;
    WriteFacts(r0, server, vault, cs, importNow, batch, ws, i);
    EarlierWritesElsewhere(r0, server, vault, cs, importNow, batch, ws, i);
    ImportAllPush(r0, ws, i, batch);
    StillOlder(r0, ImportAll(r0, ws[..i], batch), k, batch);
    hide Do, Enabled, Punctual;
    var f' := f.(devices := f.devices[d := f.devices[d].(replica := ImportAll(r0, ws[..i], batch))]);
    ImportStep(f', d, ws[i], batch);
    if forall e :: e in r0.outbox ==> e.at <= importNow {
      BatchTimes(r0, ws[..i], batch);
      ImportPunctual(f', d, ws[i], batch);
    }
  }

  lemma ImportStep(f: Fleet, d: nat, w: Write, batch: int)
    requires d in f.devices && Synced(w.key.table) && Addresses(w.key, w.row) && Stamp(w.row) == Some(batch)
    requires StampOr0(Existing(f.devices[d].replica, w.key)) < batch
    ensures Enabled(f, ImportOne(d, w, batch))
    ensures Do(f, ImportOne(d, w, batch)).devices[d].replica == ImportWrite(f.devices[d].replica, w, batch)
  {
    hide Stamp, StampOr0, Existing, ImportWrite;
  }

  lemma ImportPunctual(f: Fleet, d: nat, w: Write, batch: int)
    requires Enabled(f, ImportOne(d, w, batch)) && d in f.devices && forall e :: e in f.devices[d].replica.outbox ==> e.at <= batch
    ensures Punctual(f, ImportOne(d, w, batch))
  {
    hide Enabled;
  }

  lemma WriteFacts(r: Replica, server: map<Key, Row>, vault: Vault, cs: seq<Candidate>, importNow: I64,
                   batch: int, ws: seq<Write>, i: nat)
    requires Parsed(cs) && i < |ws| && MergedBy(r, server, vault, cs, importNow, batch, ws)
    ensures Synced(ws[i].key.table) && FullRow(ws[i].key, ws[i].row) && Addresses(ws[i].key, ws[i].row)
    ensures Stamp(ws[i].row) == Some(batch) && NewerThan(CopyStamp(r.rows, ws[i].key), batch) && importNow <= batch
  {
    var x := Copies(r.rows, server);
    hide Filter, WritesFor, Accepts, Newest, Addresses, WriteFor, Stamp;
    var c := WriteOfEach(x, vault, cs, batch, ws, i);
    BatchBeatsEveryCopy(r, server, vault, cs, importNow, batch, ws, c);
    PreparedRow(x, vault, c, batch);
    SchemaFacts(c.key.table);
    hide Columns;
  }

  lemma EarlierWritesElsewhere(r: Replica, server: map<Key, Row>, vault: Vault, cs: seq<Candidate>, importNow: I64,
                               batch: int, ws: seq<Write>, i: nat)
    requires Parsed(cs) && i < |ws| && MergedBy(r, server, vault, cs, importNow, batch, ws)
    ensures Pull.SameAt(r, ImportAll(r, ws[..i], batch), ws[i].key)
  {
    hide Filter, WritesFor, Accepts, Newest, ImportAll, Parsed;
    WritesAreDistinct(Copies(r.rows, server), vault, cs, batch, ws);
    forall w | w in ws[..i] ensures w.key != ws[i].key {
      var j :| 0 <= j < i && ws[j] == w;
    }
    BatchRows(r, ws[..i], batch, ws[i].key);
  }

  lemma StillOlder(r: Replica, r': Replica, k: Key, batch: int)
    requires Pull.SameAt(r, r', k) && 0 < batch && NewerThan(CopyStamp(r.rows, k), batch)
    ensures StampOr0(Existing(r', k)) < batch
  {
  }

  lemma {:induction false} BatchTimes(r: Replica, ws: seq<Write>, batch: int)
    requires forall e :: e in r.outbox ==> e.at <= batch
    ensures forall e :: e in ImportAll(r, ws, batch).outbox ==> e.at <= batch
  {
    hide Project, Filter;
    if ws != [] {
      BatchTimes(r, ws[..|ws| - 1], batch);
      var before := ImportAll(r, ws[..|ws| - 1], batch);
      FilterMembers(Not(PendingDelete(ws[|ws| - 1].key)), before.outbox);
    }
  }
}
