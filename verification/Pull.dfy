/** The incremental pull of one table: paging by change_seq, last-write-wins merge, cursor, receipt. */
module PullModel {
  import opened Data
  import opened Seqs
  import opened ReplicaModel
  import opened StoreModel

  datatype Fetch = Page(rows: seq<Wire>) | TransportError | Refused

  /** The sink's answer to the n-th request of a pull, for rows after a cursor. */
  type Source = (nat, int) -> Fetch

  datatype Superseded = Superseded(key: Key, discarded: int, winning: int)

  datatype Stats = Stats(pulled: nat, merged: nat, skippedTombstones: nat, superseded: seq<Superseded>)

  const NO_STATS := Stats(0, 0, 0, [])

  datatype PullResult = Pulled(stats: Stats) | Failed

  function ChangeSeqOf(w: Wire): Option<int> {
    if w.WireRow? then AsI64(Get(w.fields, ChangeSeq)) else None
  }

  function CursorOf(r: Replica, t: Table): int {
    if t in r.cursors then r.cursors[t] else 0
  }

  function Max(a: int, b: int): int {
    if a < b then b else a
  }

  /** The newest stamp among dropped entries. */
  function NewestStamp(s: seq<Entry>): Option<int> {
    if s == [] then None
    else
      var front, last := NewestStamp(s[..|s| - 1]), EntryStamp(s[|s| - 1]);
      if front.None? then last
      else if last.None? then front
      else Some(Max(front.value, last.value))
  }

  /** The newest stamp is carried by one of the entries and exceeded by none. */
  lemma {:induction false} NewestStampIs(s: seq<Entry>)
    ensures NewestStamp(s).None? <==> forall e :: e in s ==> EntryStamp(e).None?
    ensures NewestStamp(s).Some? ==> exists e :: e in s && EntryStamp(e) == NewestStamp(s)
    ensures forall e :: e in s && EntryStamp(e).Some? ==> NewestStamp(s).Some? && EntryStamp(e).value <= NewestStamp(s).value
  {
    hide EntryStamp;
    if s != [] {
      var front, last := s[..|s| - 1], s[|s| - 1];
      NewestStampIs(front);
      assert s == front + [last];
      assert last in s;
    }
  }

  function Report(r: Replica, k: Key, incoming: int): seq<Superseded> {
    var newest := NewestStamp(Filter(Stale(k, incoming), r.outbox));
    if newest.Some? then [Superseded(k, newest.value, incoming)] else []
  }

  function CountRow(s: Stats, r: Replica, t: Table, w: Wire): Stats {
    match Decide(r, t, w)
    case Ignore => s
    case SkipTombstone => s.(pulled := s.pulled + 1, skippedTombstones := s.skippedTombstones + 1)
    case Apply =>
      s.(pulled := s.pulled + 1, merged := s.merged + 1,
         superseded := s.superseded + Report(r, Key(t, WireId(t, w).value), StampOr0(w.fields)))
    case KeepLocal => s.(pulled := s.pulled + 1)
  }

  /** The counts after merging rows one after another. */
  function Tally(s: Stats, r: Replica, t: Table, ws: seq<Wire>): Stats
    decreases |ws|
  {
    if ws == [] then s
    else
      var front := ws[..|ws| - 1];
      CountRow(Tally(s, r, t, front), MergeRows(r, t, front), t, ws[|ws| - 1])
  }

  /** The page's watermark; only rows that carry their primary key move it. */
  function MaxSeq(cursor: int, t: Table, ws: seq<Wire>): int
    decreases |ws|
  {
    if ws == [] then cursor
    else
      var front, w := MaxSeq(cursor, t, ws[..|ws| - 1]), ws[|ws| - 1];
      if WireId(t, w).Some? && ChangeSeqOf(w).Some? then Max(front, ChangeSeqOf(w).value) else front
  }

  // ── The server's side of the contract ──────────────────────────────────────

  /** A finite server table in change_seq order: every row has its key and a positive number. */
  ghost predicate ServerTable(server: seq<Wire>, t: Table) {
    && (forall i :: 0 <= i < |server| ==>
          WireId(t, server[i]).Some? && ChangeSeqOf(server[i]).Some? && ChangeSeqOf(server[i]).value > 0)
    && (forall i, j :: 0 <= i < j < |server| ==> ChangeSeqOf(server[i]).value < ChangeSeqOf(server[j]).value)
  }

  /** The rows above a cursor. */
  ghost function Above(server: seq<Wire>, cursor: int): seq<Wire> {
    if server == [] then []
    else if ChangeSeqOf(server[0]).Some? && ChangeSeqOf(server[0]).value > cursor then server
    else Above(server[1..], cursor)
  }

  ghost function Prefix(ws: seq<Wire>, limit: nat): seq<Wire> {
    if |ws| <= limit then ws else ws[..limit]
  }

  /** Whenever the source answers, it answers with the next page of the table. */
  ghost predicate Honest(source: Source, server: seq<Wire>, t: Table, pageSize: nat) {
    ServerTable(server, t) &&
    forall n, c :: source(n, c).Page? ==> source(n, c).rows == Prefix(Above(server, c), pageSize)
  }

  /** The state after merging rows and moving the cursor to the last of them. */
  function After(r: Replica, t: Table, ws: seq<Wire>): Replica {
    var r' := MergeRows(r, t, ws);
    if ws == [] then r' else r'.(cursors := r'.cursors[t := MaxSeq(CursorOf(r, t), t, ws)])
  }

  // ── Requests and why they end ──────────────────────────────────────────────

  /** The number a row moves the cursor to; only rows that carry their primary key have one. */
  function Numbered(t: Table, w: Wire): Option<int> {
    if WireId(t, w).Some? then ChangeSeqOf(w) else None
  }

  /** No row of the page has a number above the cursor. */
  ghost predicate NoneAbove(t: Table, rows: seq<Wire>, cursor: int) {
    forall w :: w in rows && Numbered(t, w).Some? ==> Numbered(t, w).value <= cursor
  }

  /** The highest number of the page, and above the cursor. */
  ghost predicate IsWatermark(t: Table, rows: seq<Wire>, cursor: int, top: int) {
    top > cursor && NoneAbove(t, rows, top) && exists w :: w in rows && Numbered(t, w) == Some(top)
  }

  /** The n-th request leads to the next one: a full page moves the cursor to its highest number, and a
      transport failure is tried once more at the same cursor. */
  ghost predicate LeadsOn(source: Source, t: Table, pageSize: nat, n: nat, cursor: int, next: int) {
    match source(n, cursor)
    case Page(rows) => |rows| >= pageSize && IsWatermark(t, rows, cursor, next)
    case TransportError => next == cursor
    case Refused => false
  }

  /** The cursors of all requests of a pull, in order: each follows from the one before, and only the last
      two may both have failed in transport. */
  ghost predicate Requests(source: Source, t: Table, pageSize: nat, start: int, asked: seq<int>) {
    && asked != [] && asked[0] == start
    && (forall n :: 0 <= n < |asked| - 1 ==> LeadsOn(source, t, pageSize, n, asked[n], asked[n + 1]))
    && (forall n :: 0 <= n < |asked| - 2 ==> !(source(n, asked[n]).TransportError? && source(n + 1, asked[n + 1]).TransportError?))
  }

  /** Why the last request ended the pull in failure: it was refused, it failed in transport for the second
      time at one cursor, or it was answered with a full page that has no number above the cursor. */
  ghost predicate EndsInFailure(source: Source, t: Table, pageSize: nat, asked: seq<int>) {
    && asked != []
    && var n, c := |asked| - 1, asked[|asked| - 1];
       match source(n, c)
       case Refused => true
       case TransportError => n > 0 && asked[n - 1] == c && source(n - 1, c).TransportError?
       case Page(rows) => |rows| >= pageSize && NoneAbove(t, rows, c)
  }

  /** The last request was answered with a page that is not full. */
  ghost predicate EndsShort(source: Source, pageSize: nat, asked: seq<int>) {
    asked != [] && var a := source(|asked| - 1, asked[|asked| - 1]); a.Page? && |a.rows| < pageSize
  }

  /** All requests so far were answered, and the next one is due at this cursor. */
  ghost predicate NextDue(source: Source, t: Table, pageSize: nat, start: int, asked: seq<int>, cursor: int) {
    && Requests(source, t, pageSize, start, asked + [cursor])
    && (asked != [] ==> source(|asked| - 1, asked[|asked| - 1]).Page?)
  }

  lemma FirstDue(source: Source, t: Table, pageSize: nat, start: int)
    ensures NextDue(source, t, pageSize, start, [], start)
  {
    assert [] + [start] == [start];
  }

  /** The requests once the due one, and a second attempt after a transport failure, were made. */
  ghost function AskedAt(source: Source, asked: seq<int>, cursor: int): seq<int> {
    if source(|asked|, cursor).TransportError? then asked + [cursor, cursor] else asked + [cursor]
  }

  lemma AskedOnce(source: Source, t: Table, pageSize: nat, start: int, asked: seq<int>, cursor: int)
    requires NextDue(source, t, pageSize, start, asked, cursor)
    ensures var more := AskedAt(source, asked, cursor);
      && |more| == |asked| + (if source(|asked|, cursor).TransportError? then 2 else 1)
      && Requests(source, t, pageSize, start, more) && more[|more| - 1] == cursor
      && (!source(|more| - 1, cursor).Page? ==> EndsInFailure(source, t, pageSize, more))
  {
    hide IsWatermark, NoneAbove;
    var one, more := asked + [cursor], AskedAt(source, asked, cursor);
    if source(|asked|, cursor).TransportError? {
      assert more == one + [cursor];
      forall n | 0 <= n < |more| - 1 ensures LeadsOn(source, t, pageSize, n, more[n], more[n + 1]) {
        if n < |one| - 1 {
          assert LeadsOn(source, t, pageSize, n, one[n], one[n + 1]);
        }
      }
      forall n | 0 <= n < |more| - 2 ensures !(source(n, more[n]).TransportError? && source(n + 1, more[n + 1]).TransportError?) {
        if n < |one| - 2 {
          assert !(source(n, one[n]).TransportError? && source(n + 1, one[n + 1]).TransportError?);
        }
      }
    }
  }

  /** A page in answer to the last request: short, it ends the pull; full, it moves on or fails it. */
  lemma PageAnswered(source: Source, t: Table, pageSize: nat, start: int, asked: seq<int>, cursor: int, rows: seq<Wire>)
    requires Requests(source, t, pageSize, start, asked) && asked[|asked| - 1] == cursor && source(|asked| - 1, cursor) == Page(rows)
    ensures |rows| < pageSize ==> EndsShort(source, pageSize, asked)
    ensures |rows| >= pageSize && MaxSeq(cursor, t, rows) <= cursor ==> EndsInFailure(source, t, pageSize, asked)
    ensures |rows| >= pageSize && MaxSeq(cursor, t, rows) > cursor ==>
      NextDue(source, t, pageSize, start, asked, MaxSeq(cursor, t, rows))
  {
    MaxSeqIs(cursor, t, rows);
    hide IsWatermark, NoneAbove, MaxSeq;
    if |rows| >= pageSize && MaxSeq(cursor, t, rows) > cursor {
      var more := asked + [MaxSeq(cursor, t, rows)];
      forall n | 0 <= n < |more| - 1 ensures LeadsOn(source, t, pageSize, n, more[n], more[n + 1]) {
        if n < |asked| - 1 {
          assert LeadsOn(source, t, pageSize, n, asked[n], asked[n + 1]);
        }
      }
      forall n | 0 <= n < |more| - 2 ensures !(source(n, more[n]).TransportError? && source(n + 1, more[n + 1]).TransportError?) {
        if n < |asked| - 2 {
          assert !(source(n, asked[n]).TransportError? && source(n + 1, asked[n + 1]).TransportError?);
        }
      }
    }
  }

  /** The watermark is the highest number above the cursor, or the cursor when there is none. */
  lemma {:induction false} MaxSeqIs(cursor: int, t: Table, rows: seq<Wire>)
    ensures MaxSeq(cursor, t, rows) == cursor || IsWatermark(t, rows, cursor, MaxSeq(cursor, t, rows))
    ensures MaxSeq(cursor, t, rows) <= cursor ==> NoneAbove(t, rows, cursor)
    decreases |rows|
  {
    if rows != [] {
      var front, w := rows[..|rows| - 1], rows[|rows| - 1];
      MaxSeqIs(cursor, t, front);
      assert rows == front + [w];
      MaxSeqBound(cursor, t, front);
      hide WireId, ChangeSeqOf, IsWatermark, NoneAbove, MaxSeq;
      WatermarkPush(t, front, w, cursor, MaxSeq(cursor, t, front));
      MaxSeqPush(cursor, t, front, w);
    }
  }

  lemma MaxSeqPush(cursor: int, t: Table, front: seq<Wire>, w: Wire)
    ensures MaxSeq(cursor, t, front + [w]) ==
      var top := MaxSeq(cursor, t, front); if Numbered(t, w).Some? then Max(top, Numbered(t, w).value) else top
  {
    assert (front + [w])[..|front|] == front;
  }

  lemma WatermarkPush(t: Table, front: seq<Wire>, w: Wire, cursor: int, top: int)
    requires top >= cursor && if top == cursor then NoneAbove(t, front, cursor) else IsWatermark(t, front, cursor, top)
    ensures var top' := if Numbered(t, w).Some? then Max(top, Numbered(t, w).value) else top;
      if top' == cursor then NoneAbove(t, front + [w], cursor) else IsWatermark(t, front + [w], cursor, top')
  {
    var rows, top' := front + [w], if Numbered(t, w).Some? then Max(top, Numbered(t, w).value) else top;
    hide Numbered;
    NoneAbovePush(t, front, w, top, top');
    assert w in rows;
    if top > cursor && top' == top {
      var x :| x in front && Numbered(t, x) == Some(top);
      assert x in rows;
    }
    hide NoneAbove;
  }

  lemma NoneAbovePush(t: Table, front: seq<Wire>, w: Wire, top: int, top': int)
    requires NoneAbove(t, front, top) && top <= top' && (Numbered(t, w).Some? ==> Numbered(t, w).value <= top')
    ensures NoneAbove(t, front + [w], top')
  {
    hide Numbered;
  }

  /** Every request is answered with a page. */
  ghost predicate Answers(source: Source) {
    forall n, c :: source(n, c).Page?
  }

  /** A source that always answers, honestly, gives no cause for failure. */
  lemma HonestAnswersSucceed(source: Source, server: seq<Wire>, t: Table, pageSize: nat, asked: seq<int>)
    requires Honest(source, server, t, pageSize) && pageSize > 0 && Answers(source)
    ensures !EndsInFailure(source, t, pageSize, asked)
  {
    if asked != [] {
      var n, c := |asked| - 1, asked[|asked| - 1];
      var rows := source(n, c).rows;
      assert rows == Prefix(Above(server, c), pageSize);
      AboveIsAbove(server, t, c);
      hide Honest, Above, WireId, ChangeSeqOf;
      assert rows != [] ==> rows[0] in rows;
    }
  }

  lemma {:induction false} AboveIsAbove(server: seq<Wire>, t: Table, cursor: int)
    requires ServerTable(server, t)
    ensures var ws := Above(server, cursor); ws != [] ==> Numbered(t, ws[0]).Some? && Numbered(t, ws[0]).value > cursor
  {
    hide WireId, ChangeSeqOf;
    if server != [] {
      var rest := server[1..];
      assert forall i :: 0 <= i < |rest| ==> rest[i] == server[i + 1];
      AboveIsAbove(rest, t, cursor);
    }
  }

  // ── The methods ────────────────────────────────────────────────────────────

  /** Merge one fetched page row by row. */
  method MergePage(store: Store, t: Table, rows: seq<Wire>, cursor: int, stats: Stats)
    returns (pageMax: int, stats': Stats)
    requires store.Valid() && Synced(t)
    modifies store`rows, store`outbox
    ensures store.Valid()
    ensures store.View() == MergeRows(old(store.View()), t, rows)
    ensures pageMax == MaxSeq(cursor, t, rows)
    ensures stats' == Tally(stats, old(store.View()), t, rows)
  {
    hide Filter, FillBook, Project, NewestStamp, Columns;
    pageMax, stats' := cursor, stats;
    for i := 0 to |rows|
      invariant store.Valid()
      invariant store.nextId == old(store.nextId) && store.cursors == old(store.cursors)
      invariant store.receipts == old(store.receipts) && store.remap == old(store.remap)
      invariant store.View() == MergeRows(old(store.View()), t, rows[..i])
      invariant pageMax == MaxSeq(cursor, t, rows[..i])
      invariant stats' == Tally(stats, old(store.View()), t, rows[..i])
    {
      var w := rows[i];
      assert rows[..i + 1][..i] == rows[..i];
      ghost var r := store.View();
      if WireId(t, w).Some? {
        pageMax := if ChangeSeqOf(w).Some? then Max(pageMax, ChangeSeqOf(w).value) else pageMax;
        stats' := MergeOne(store, t, w, stats');
      }
    }
    assert rows[..|rows|] == rows;
  }

  /** Decide one row and apply the decision. */
  method MergeOne(store: Store, t: Table, w: Wire, stats: Stats) returns (stats': Stats)
    requires store.Valid() && Synced(t) && WireId(t, w).Some?
    modifies store`rows, store`outbox
    ensures store.Valid()
    ensures store.View() == MergeRow(old(store.View()), t, w)
    ensures stats' == CountRow(stats, old(store.View()), t, w)
  {
    hide FillBook, Project, Columns, StoredFrom, StampedBy, OnlyNullsFilled, Filter, NewestStamp, IdsIncrease, StampOr0;
    var obj, id := w.fields, WireId(t, w).value;
    var k := Key(t, id);
    stats' := stats.(pulled := stats.pulled + 1);
    var incoming := StampOr0(obj);
    var deleted := Get(obj, Deleted) == Some(Bool(true));
    if deleted && k !in store.rows {
      stats' := stats'.(skippedTombstones := stats'.skippedTombstones + 1);
      return;
    }
    if k !in store.rows || incoming > StampOr0(store.rows[k]) {
      var dropped := store.ApplyRowRebasingOutbox(k, obj, incoming);
      stats' := stats'.(merged := stats'.merged + 1);
      var discarded := NewestStamp(dropped);
      if discarded.Some? {
        stats' := stats'.(superseded := stats'.superseded + [Superseded(k, discarded.value, incoming)]);
      } else {
        assert stats'.superseded == stats'.superseded + [];
      }
    } else if t == Books {
      store.FillNullBookColumns(id, obj);
    }
  }

  /** Fetch a page, with one immediate second attempt after a transport failure. */
  method FetchPage(source: Source, call: nat, cursor: int) returns (answer: Fetch, next: nat)
    ensures next > 0 && answer == source(next - 1, cursor)
    ensures answer == if source(call, cursor).TransportError? then source(call + 1, cursor) else source(call, cursor)
    ensures next == if source(call, cursor).TransportError? then call + 2 else call + 1
  {
    answer, next := source(call, cursor), call + 1;
    if answer.TransportError? {
      answer, next := source(next, cursor), next + 1;
    }
  }

  /** Pull one table to its last page. Against an honest source a finished pull is exactly one pass
      over every row above the starting cursor, and a failed one a pass over whole pages of them. */
  method PullTable(store: Store, source: Source, t: Table, pageSize: nat, ghost server: seq<Wire>)
    returns (result: PullResult, ghost pages: nat, ghost asked: seq<int>)
    requires store.Valid() && pageSize > 0
    modifies store`rows, store`outbox, store`cursors, store`receipts
    ensures store.Valid()
    ensures CursorOf(store.View(), t) >= CursorOf(old(store.View()), t)
    ensures store.receipts == if result.Pulled? then old(store.receipts) + {t} else old(store.receipts)
    ensures !Synced(t) ==> result.Failed?
    ensures Synced(t) ==> Requests(source, t, pageSize, CursorOf(old(store.View()), t), asked)
    ensures Synced(t) ==> if result.Pulled? then EndsShort(source, pageSize, asked) else EndsInFailure(source, t, pageSize, asked)
    ensures Synced(t) && Honest(source, server, t, pageSize) && Answers(source) ==> result.Pulled?
    ensures OnlyTable(old(store.View()), store.View(), t)
    ensures Honest(source, server, t, pageSize) && result.Pulled? ==>
      var pending := Above(server, CursorOf(old(store.View()), t));
      && store.View() == After(old(store.View()), t, pending).(receipts := old(store.receipts) + {t})
      && result.stats == Tally(NO_STATS, old(store.View()), t, pending)
    ensures Honest(source, server, t, pageSize) && result.Failed? ==>
      var pending := Above(server, CursorOf(old(store.View()), t));
      && RowsIn(pages, pageSize) <= |pending|
      && store.View() == After(old(store.View()), t, pending[..RowsIn(pages, pageSize)])
  {
    hide After, Tally, Above, Honest, RowsIn, OnlyTable, Requests, EndsShort, EndsInFailure, CursorOf, Answers;
    pages, asked := 0, [];
    NextPage(0, pageSize);
    ReachedStart(store.View(), t, Above(server, CursorOf(store.View(), t)));
    SameOnlyTable(store.View(), t);
    if !Synced(t) {
      return Failed, pages, asked;
    }
    ghost var r0 := store.View();
    var finished, stats;
    finished, stats, pages, asked := PullPages(store, source, t, pageSize, server);
    NoCause(source, server, t, pageSize, asked);
    if !finished {
      return Failed, pages, asked;
    }
    ReceiptOnlyTable(r0, store.View(), t);
    CursorIs(store.View(), t);
    store.MarkPullComplete(t);
    CursorIs(store.View(), t);
    result := Pulled(stats);
  }

  /** Page after page until a short one, or a cause to fail. */
  method PullPages(store: Store, source: Source, t: Table, pageSize: nat, ghost server: seq<Wire>)
    returns (finished: bool, stats: Stats, ghost pages: nat, ghost asked: seq<int>)
    requires store.Valid() && pageSize > 0 && Synced(t)
    modifies store`rows, store`outbox, store`cursors
    ensures store.Valid() && OnlyTable(old(store.View()), store.View(), t)
    ensures CursorOf(store.View(), t) >= CursorOf(old(store.View()), t)
    ensures Requests(source, t, pageSize, CursorOf(old(store.View()), t), asked)
    ensures if finished then EndsShort(source, pageSize, asked) else EndsInFailure(source, t, pageSize, asked)
    ensures Honest(source, server, t, pageSize) ==>
      var pending := Above(server, CursorOf(old(store.View()), t));
      if finished then store.View() == After(old(store.View()), t, pending) && stats == Tally(NO_STATS, old(store.View()), t, pending)
      else RowsIn(pages, pageSize) <= |pending| && store.View() == After(old(store.View()), t, pending[..RowsIn(pages, pageSize)])
  {
    hide After, Tally, Above, MergeRows, MaxSeq, Honest, Reached, RowsIn, PageTaken, OnlyTable;
    hide Requests, EndsShort, EndsInFailure, NextDue, CursorOf, LeadsOn, AskedAt;
    ghost var r0, honest := store.View(), Honest(source, server, t, pageSize);
    ghost var pending := Above(server, CursorOf(r0, t));
    ghost var m: nat := 0;
    pages, asked := 0, [];
    NextPage(0, pageSize);
    ReachedStart(r0, t, pending);
    SameOnlyTable(r0, t);
    var cursor := if t in store.cursors then store.cursors[t] else 0;
    stats := NO_STATS;
    var call := 0;
    CursorIs(store.View(), t);
    FirstDue(source, t, pageSize, cursor);
    while true
      invariant store.Valid()
      invariant cursor == CursorOf(store.View(), t) >= CursorOf(r0, t)
      invariant OnlyTable(r0, store.View(), t)
      invariant |asked| == call && NextDue(source, t, pageSize, CursorOf(r0, t), asked, cursor)
      invariant honest ==> m == RowsIn(pages, pageSize) && Reached(r0, t, pending, m, store.View(), stats)
      decreases I64_MAX - cursor
    {
      var answer;
      AskedOnce(source, t, pageSize, CursorOf(r0, t), asked, cursor);
      asked := AskedAt(source, asked, cursor);
      answer, call := FetchPage(source, call, cursor);
      ReachedMeans(r0, t, pending, m, store.View(), stats);
      if !answer.Page? {
        return false, stats, pages, asked;
      }
      var rows := answer.rows;
      if honest {
        PageReached(source, server, r0, t, m, pageSize, call - 1, store.View(), stats);
      }
      var advanced;
      PageAnswered(source, t, pageSize, CursorOf(r0, t), asked, cursor, rows);
      PageOnlyTable(r0, store.View(), t, rows);
      cursor, stats, advanced := TakePage(store, t, rows, cursor, stats);
      m := if honest then m + |rows| else m;
      ReachedMeans(r0, t, pending, m, store.View(), stats);
      if |rows| < pageSize {
        return true, stats, pages, asked;
      }
      if !advanced {
        return false, stats, pages, asked;
      }
      NextPage(pages, pageSize);
      pages := pages + 1;
    }
  }

  lemma CursorIs(r: Replica, t: Table)
    ensures CursorOf(r, t) == if t in r.cursors then r.cursors[t] else 0
  {
  }

  lemma NoCause(source: Source, server: seq<Wire>, t: Table, pageSize: nat, asked: seq<int>)
    requires pageSize > 0
    ensures Honest(source, server, t, pageSize) && Answers(source) ==> !EndsInFailure(source, t, pageSize, asked)
  {
    hide Honest, EndsInFailure, Answers;
    if Honest(source, server, t, pageSize) && Answers(source) {
      HonestAnswersSucceed(source, server, t, pageSize, asked);
    }
  }

  /** Merge a page, then persist its watermark if it moved. */
  method TakePage(store: Store, t: Table, rows: seq<Wire>, cursor: int, stats: Stats)
    returns (cursor': int, stats': Stats, advanced: bool)
    requires store.Valid() && Synced(t) && cursor == CursorOf(store.View(), t)
    modifies store`rows, store`outbox, store`cursors
    ensures store.Valid()
    ensures advanced <==> MaxSeq(cursor, t, rows) > cursor
    ensures cursor' == if advanced then MaxSeq(cursor, t, rows) else cursor
    ensures store.View() == PageTaken(old(store.View()), t, rows) && stats' == Tally(stats, old(store.View()), t, rows)
    ensures cursor' == CursorOf(store.View(), t) >= cursor && (advanced ==> cursor < cursor' <= Max(cursor, I64_MAX))
  {
    hide MergeRows, MaxSeq, Tally;
    var pageMax;
    pageMax, stats' := MergePage(store, t, rows, cursor, stats);
    MaxSeqBound(cursor, t, rows);
    cursor', advanced := cursor, pageMax > cursor;
    if advanced {
      store.SetSeqCursor(t, pageMax);
      cursor' := pageMax;
    }
  }

  /** The state after one page. */
  function PageTaken(r: Replica, t: Table, rows: seq<Wire>): Replica {
    var r', pageMax := MergeRows(r, t, rows), MaxSeq(CursorOf(r, t), t, rows);
    if pageMax > CursorOf(r, t) then r'.(cursors := r.cursors[t := pageMax]) else r'
  }

  /** The first m pending rows have been merged and counted. */
  ghost predicate Reached(r0: Replica, t: Table, pending: seq<Wire>, m: nat, r: Replica, stats: Stats) {
    m <= |pending| && r == After(r0, t, pending[..m]) && stats == Tally(NO_STATS, r0, t, pending[..m])
  }

  lemma ReachedStart(r0: Replica, t: Table, pending: seq<Wire>)
    ensures Reached(r0, t, pending, 0, r0, NO_STATS) && After(r0, t, pending[..0]) == r0
  {
    assert pending[..0] == [];
    AfterNothing(r0, t);
  }

  lemma ReachedMeans(r0: Replica, t: Table, pending: seq<Wire>, m: nat, r: Replica, stats: Stats)
    ensures Reached(r0, t, pending, m, r, stats) ==> m <= |pending| && r == After(r0, t, pending[..m])
    ensures Reached(r0, t, pending, m, r, stats) && m == |pending| ==>
      r == After(r0, t, pending) && stats == Tally(NO_STATS, r0, t, pending)
  {
    hide After, Tally;
    assert m == |pending| ==> pending[..m] == pending;
  }

  /** The rows of so many full pages. */
  ghost function RowsIn(pages: nat, pageSize: nat): nat {
    pages * pageSize
  }

  lemma NextPage(pages: nat, pageSize: nat)
    ensures RowsIn(pages + 1, pageSize) == RowsIn(pages, pageSize) + pageSize && RowsIn(0, pageSize) == 0
  {
  }

  lemma PageReached(source: Source, server: seq<Wire>, r0: Replica, t: Table, m: nat, pageSize: nat, n: nat, r: Replica, stats: Stats)
    requires Honest(source, server, t, pageSize) && pageSize > 0 && source(n, CursorOf(r, t)).Page?
    requires Reached(r0, t, Above(server, CursorOf(r0, t)), m, r, stats)
    ensures var pending := Above(server, CursorOf(r0, t));
      var rows := source(n, CursorOf(r, t)).rows;
      && |rows| <= pageSize && (|rows| < pageSize ==> m + |rows| == |pending|)
      && (MaxSeq(CursorOf(r, t), t, rows) > CursorOf(r, t) <==> rows != [])
      && Reached(r0, t, pending, m + |rows|, PageTaken(r, t, rows), Tally(stats, r, t, rows))
  {
    hide After, Tally, Above, MergeRows, MaxSeq, Honest;
    PageStep(source, server, r0, t, m, pageSize, n);
  }

  // ── Paging is one pass ─────────────────────────────────────────────────────

  lemma {:induction false} MergeRowsCompose(r: Replica, t: Table, a: seq<Wire>, b: seq<Wire>)
    ensures MergeRows(MergeRows(r, t, a), t, b) == MergeRows(r, t, a + b)
    decreases |b|
  {
    hide MergeRow;
    if b == [] {
      assert a + b == a;
    } else {
      var front := b[..|b| - 1];
      MergeRowsCompose(r, t, a, front);
      assert (a + b)[..|a + b| - 1] == a + front;
    }
  }

  lemma {:induction false} TallyCompose(s: Stats, r: Replica, t: Table, a: seq<Wire>, b: seq<Wire>)
    ensures Tally(Tally(s, r, t, a), MergeRows(r, t, a), t, b) == Tally(s, r, t, a + b)
    decreases |b|
  {
    hide CountRow, MergeRow;
    if b == [] {
      assert a + b == a;
    } else {
      var front := b[..|b| - 1];
      TallyCompose(s, r, t, a, front);
      MergeRowsCompose(r, t, a, front);
      assert (a + b)[..|a + b| - 1] == a + front;
    }
  }

  lemma {:induction false} MaxSeqCompose(c: int, t: Table, a: seq<Wire>, b: seq<Wire>)
    ensures MaxSeq(MaxSeq(c, t, a), t, b) == MaxSeq(c, t, a + b)
    decreases |b|
  {
    if b == [] {
      assert a + b == a;
    } else {
      var front := b[..|b| - 1];
      MaxSeqCompose(c, t, a, front);
      assert (a + b)[..|a + b| - 1] == a + front;
    }
  }

  /** Merging neither reads nor moves the cursors. */
  lemma {:induction false} MergeIgnoresCursors(s: Stats, r: Replica, t: Table, ws: seq<Wire>, cs: map<Table, int>)
    ensures MergeRows(r.(cursors := cs), t, ws) == MergeRows(r, t, ws).(cursors := cs)
    ensures MergeRows(r, t, ws).cursors == r.cursors && MergeRows(r, t, ws).receipts == r.receipts
    ensures Tally(s, r.(cursors := cs), t, ws) == Tally(s, r, t, ws)
    decreases |ws|
  {
    hide MergeRow, CountRow;
    if ws != [] {
      var front, w := ws[..|ws| - 1], ws[|ws| - 1];
      MergeIgnoresCursors(s, r, t, front, cs);
      MergeRowIgnoresCursors(Tally(s, r, t, front), MergeRows(r, t, front), t, w, cs);
    }
  }

  lemma MergeRowIgnoresCursors(s: Stats, r: Replica, t: Table, w: Wire, cs: map<Table, int>)
    ensures MergeRow(r.(cursors := cs), t, w) == MergeRow(r, t, w).(cursors := cs)
    ensures MergeRow(r, t, w).cursors == r.cursors && MergeRow(r, t, w).receipts == r.receipts
    ensures CountRow(s, r.(cursors := cs), t, w) == CountRow(s, r, t, w)
  {
    hide FillBook, Project, Filter, NewestStamp, StampOr0, WireId, WireDeleted;
    assert Decide(r.(cursors := cs), t, w) == Decide(r, t, w);
  }

  lemma {:induction false} MaxSeqBound(c: int, t: Table, ws: seq<Wire>)
    ensures MaxSeq(c, t, ws) >= c
    ensures MaxSeq(c, t, ws) > c ==> MaxSeq(c, t, ws) <= I64_MAX
    decreases |ws|
  {
    if ws != [] {
      MaxSeqBound(c, t, ws[..|ws| - 1]);
    }
  }

  lemma AfterNothing(r: Replica, t: Table)
    ensures After(r, t, []) == r && Tally(NO_STATS, r, t, []) == NO_STATS
  {
  }

  lemma AfterCursor(r: Replica, t: Table, ws: seq<Wire>)
    ensures CursorOf(After(r, t, ws), t) == MaxSeq(CursorOf(r, t), t, ws)
  {
    MergeIgnoresCursors(NO_STATS, r, t, ws, r.cursors);
  }

  /** Merging the next page of the pending rows continues the single pass over them. */
  lemma AfterPage(r: Replica, t: Table, pending: seq<Wire>, m: nat, rows: seq<Wire>)
    requires m + |rows| <= |pending| && rows == pending[m..m + |rows|]
    requires rows != [] ==> MaxSeq(MaxSeq(CursorOf(r, t), t, pending[..m]), t, rows) > MaxSeq(CursorOf(r, t), t, pending[..m])
    ensures var was, done := After(r, t, pending[..m]), pending[..m + |rows|];
      var pageMax := MaxSeq(CursorOf(was, t), t, rows);
      && (pageMax > CursorOf(was, t) <==> rows != [])
      && Tally(Tally(NO_STATS, r, t, pending[..m]), was, t, rows) == Tally(NO_STATS, r, t, done)
      && After(r, t, done) ==
         if rows == [] then MergeRows(was, t, rows)
         else MergeRows(was, t, rows).(cursors := was.cursors[t := pageMax])
  {
    hide MergeRows, Tally, MaxSeq;
    var a := pending[..m];
    var was, done := After(r, t, a), pending[..m + |rows|];
    assert done == a + rows;
    AfterCursor(r, t, a);
    MaxSeqCompose(CursorOf(r, t), t, a, rows);
    MergeRowsCompose(r, t, a, rows);
    TallyCompose(NO_STATS, r, t, a, rows);
    MergeIgnoresCursors(NO_STATS, r, t, a, r.cursors);
    MergeIgnoresCursors(Tally(NO_STATS, r, t, a), MergeRows(r, t, a), t, rows, was.cursors);
    MergeIgnoresCursors(NO_STATS, r, t, done, r.cursors);
    assert was == MergeRows(r, t, a).(cursors := was.cursors);
    if rows == [] {
      assert done == a;
      MergeNothing(was, t);
      MaxSeqNothing(CursorOf(was, t), t);
    }
  }

  lemma MergeNothing(r: Replica, t: Table)
    ensures MergeRows(r, t, []) == r
  {
  }

  lemma MaxSeqNothing(c: int, t: Table)
    ensures MaxSeq(c, t, []) == c
  {
  }

  /** The rows above a cursor are a suffix of the table, each numbered above it. */
  lemma {:induction false} AboveSuffix(server: seq<Wire>, t: Table, c: int) returns (n: nat)
    requires ServerTable(server, t)
    ensures n <= |server| && Above(server, c) == server[n..]
    ensures forall i :: 0 <= i < n ==> ChangeSeqOf(server[i]).value <= c
    ensures forall i :: n <= i < |server| ==> ChangeSeqOf(server[i]).value > c
  {
    if server == [] || ChangeSeqOf(server[0]).value > c {
      n := 0;
    } else {
      n := AboveSuffix(server[1..], t, c);
      assert server[1..][n..] == server[n + 1..];
      assert forall i :: 1 <= i < |server| ==> server[i] == server[1..][i - 1];
      n := n + 1;
    }
  }

  lemma {:induction false} MaxSeqOfRun(c: int, t: Table, ws: seq<Wire>)
    requires ServerTable(ws, t) && (forall i :: 0 <= i < |ws| ==> ChangeSeqOf(ws[i]).value > c)
    ensures MaxSeq(c, t, ws) == if ws == [] then c else ChangeSeqOf(ws[|ws| - 1]).value
  {
    if ws != [] {
      MaxSeqOfRun(c, t, ws[..|ws| - 1]);
    }
  }

  /** After m pending rows, the rows above the cursor are the remaining pending ones. */
  lemma RestPending(server: seq<Wire>, r: Replica, t: Table, m: nat)
    requires ServerTable(server, t) && m <= |Above(server, CursorOf(r, t))|
    ensures var pending := Above(server, CursorOf(r, t));
      && Above(server, CursorOf(After(r, t, pending[..m]), t)) == pending[m..]
      && ServerTable(pending[m..], t)
      && forall i :: m <= i < |pending| ==>
           ChangeSeqOf(pending[i]).value > MaxSeq(CursorOf(r, t), t, pending[..m])
  {
    hide Above, MaxSeq, ChangeSeqOf, After, WireId;
    var c := CursorOf(r, t);
    var pending := Above(server, c);
    var n := AboveSuffix(server, t, c);
    AfterCursor(r, t, pending[..m]);
    CursorInside(server, t, c, n, m);
    AboveAt(server, t, MaxSeq(c, t, pending[..m]), n + m);
    assert server[n + m..] == pending[m..];
    assert forall i :: 0 <= i < |pending| - m ==> pending[m..][i] == server[n + m + i];
  }

  /** A split of the table at a cursor determines the rows above it. */
  lemma {:induction false} AboveAt(server: seq<Wire>, t: Table, c: int, n: nat)
    requires ServerTable(server, t) && n <= |server|
    requires forall i :: 0 <= i < n ==> ChangeSeqOf(server[i]).value <= c
    requires forall i :: n <= i < |server| ==> ChangeSeqOf(server[i]).value > c
    ensures Above(server, c) == server[n..]
  {
    if n > 0 {
      var rest := server[1..];
      assert forall i :: 0 <= i < |rest| ==> rest[i] == server[i + 1];
      AboveAt(rest, t, c, n - 1);
      assert rest[n - 1..] == server[n..];
    }
  }

  lemma CursorInside(server: seq<Wire>, t: Table, c: int, n: nat, m: nat)
    requires ServerTable(server, t) && n + m <= |server|
    requires forall i :: 0 <= i < n ==> ChangeSeqOf(server[i]).value <= c
    requires forall i :: n <= i < |server| ==> ChangeSeqOf(server[i]).value > c
    ensures var c' := MaxSeq(c, t, server[n..][..m]);
      && (forall i :: 0 <= i < n + m ==> ChangeSeqOf(server[i]).value <= c')
      && (forall i :: n + m <= i < |server| ==> ChangeSeqOf(server[i]).value > c')
  {
    hide MaxSeq, ChangeSeqOf, WireId;
    var a := server[n..][..m];
    assert forall i :: 0 <= i < m ==> a[i] == server[n + i];
    MaxSeqOfRun(c, t, a);
  }

  /** One page of an honest source continues the single pass, moves the cursor unless it is empty,
      and is short only at the end. */
  lemma PageStep(source: Source, server: seq<Wire>, r: Replica, t: Table, m: nat, pageSize: nat, n: nat)
    requires Honest(source, server, t, pageSize) && pageSize > 0
    requires m <= |Above(server, CursorOf(r, t))|
    requires source(n, CursorOf(After(r, t, Above(server, CursorOf(r, t))[..m]), t)).Page?
    ensures var pending := Above(server, CursorOf(r, t));
      var was := After(r, t, pending[..m]);
      var rows := source(n, CursorOf(was, t)).rows;
      var pageMax := MaxSeq(CursorOf(was, t), t, rows);
      && m + |rows| <= |pending| && |rows| <= pageSize
      && (|rows| < pageSize ==> m + |rows| == |pending|)
      && (pageMax > CursorOf(was, t) <==> rows != [])
      && Tally(Tally(NO_STATS, r, t, pending[..m]), was, t, rows) == Tally(NO_STATS, r, t, pending[..m + |rows|])
      && After(r, t, pending[..m + |rows|]) ==
         if pageMax > CursorOf(was, t) then MergeRows(was, t, rows).(cursors := was.cursors[t := pageMax])
         else MergeRows(was, t, rows)
  {
    hide Above, MaxSeq, ChangeSeqOf, After, Tally, MergeRows, ServerTable;
    var pending := Above(server, CursorOf(r, t));
    var was := After(r, t, pending[..m]);
    RestPending(server, r, t, m);
    var rows := source(n, CursorOf(was, t)).rows;
    assert rows == Prefix(pending[m..], pageSize);
    assert rows == pending[m..m + |rows|];
    var c := MaxSeq(CursorOf(r, t), t, pending[..m]);
    ServerTablePrefix(pending[m..], t, |rows|);
    assert rows == pending[m..][..|rows|];
    assert forall i :: 0 <= i < |rows| ==> rows[i] == pending[m + i];
    MaxSeqOfRun(c, t, rows);
    AfterPage(r, t, pending, m, rows);
  }

  lemma ServerTablePrefix(ws: seq<Wire>, t: Table, n: nat)
    requires ServerTable(ws, t) && n <= |ws|
    ensures ServerTable(ws[..n], t)
  {
  }

  // ── What a merge pass does to each record ──────────────────────────────────

  ghost predicate OneRowPerRecord(ws: seq<Wire>, t: Table) {
    && (forall i :: 0 <= i < |ws| ==> WireId(t, ws[i]).Some?)
    && (forall i, j :: 0 <= i < j < |ws| ==> WireId(t, ws[i]) != WireId(t, ws[j]))
  }

  ghost predicate SameAt(r: Replica, r': Replica, k: Key) {
    (k in r.rows <==> k in r'.rows) && (k in r.rows ==> r.rows[k] == r'.rows[k])
  }

  /** The outcome for one fetched row: applied exactly when it is strictly newer (or new and live),
      beaten by a local row at least as new, or a tombstone for a record never held. */
  ghost predicate Settled(r: Replica, r': Replica, t: Table, w: Wire, k: Key) {
    match Decide(r, t, w)
    case Ignore => true
    case SkipTombstone => k !in r'.rows
    case Apply =>
      && k in r'.rows && StoredFrom(t, w.fields, r'.rows[k])
      && forall e :: e in r'.outbox ==> !Stale(k, StampOr0(w.fields))(e)
    case KeepLocal =>
      && k in r.rows && k in r'.rows && StampOr0(r'.rows[k]) == StampOr0(r.rows[k]) >= StampOr0(w.fields)
      && (t != Books ==> r'.rows[k] == r.rows[k])
  }

  lemma FillBookKeepsStamp(row: Row, incoming: Row)
    ensures StampOr0(FillBook(row, incoming)) == StampOr0(row)
    ensures Stamp(FillBook(row, incoming)) == Stamp(row)
    ensures Get(FillBook(row, incoming), Deleted) == Get(row, Deleted)
  {
  }

  lemma MergeRowSettles(r: Replica, t: Table, w: Wire)
    requires WireId(t, w).Some?
    ensures Settled(r, MergeRow(r, t, w), t, w, Key(t, WireId(t, w).value))
    ensures forall k :: k != Key(t, WireId(t, w).value) ==> SameAt(r, MergeRow(r, t, w), k)
    ensures forall e :: e in MergeRow(r, t, w).outbox ==> e in r.outbox
  {
    hide FillBook, Project, StampOr0, Filter, StoredFrom;
    var k := Key(t, WireId(t, w).value);
    ProjectStores(t, w.fields);
    FilterMembers(Not(Stale(k, StampOr0(w.fields))), r.outbox);
    if k in r.rows {
      FillBookKeepsStamp(r.rows[k], w.fields);
    }
  }

  lemma {:induction false} MergeLeavesOthers(r: Replica, t: Table, ws: seq<Wire>, k: Key)
    requires forall i :: 0 <= i < |ws| ==> WireId(t, ws[i]).Some? && k != Key(t, WireId(t, ws[i]).value)
    ensures SameAt(r, MergeRows(r, t, ws), k)
    decreases |ws|
  {
    hide MergeRow, WireId, StoredFrom;
    if ws != [] {
      var r' := MergeRows(r, t, ws[..|ws| - 1]);
      MergeLeavesOthers(r, t, ws[..|ws| - 1], k);
      MergeRowSettles(r', t, ws[|ws| - 1]);
      assert SameAt(r', MergeRow(r', t, ws[|ws| - 1]), k);
    }
  }

  /** After a pass every fetched row has been merged, beaten or skipped, decided on the state before
      the pass, and records it did not mention are untouched. */
  lemma {:induction false} MergedBeatenOrSkipped(r: Replica, t: Table, ws: seq<Wire>, i: nat)
    requires OneRowPerRecord(ws, t) && i < |ws|
    ensures Settled(r, MergeRows(r, t, ws), t, ws[i], Key(t, WireId(t, ws[i]).value))
    decreases |ws|
  {
    hide MergeRow, WireId, Project, StoredFrom;
    var front, last := ws[..|ws| - 1], ws[|ws| - 1];
    var k, r' := Key(t, WireId(t, ws[i]).value), MergeRows(r, t, front);
    MergeRowSettles(r', t, last);
    if i == |ws| - 1 {
      MergeLeavesOthers(r, t, front, k);
      SameDecision(r, r', t, last);
    } else {
      MergedBeatenOrSkipped(r, t, front, i);
      assert SameAt(r', MergeRow(r', t, last), k);
    }
  }

  lemma SameDecision(r: Replica, r': Replica, t: Table, w: Wire)
    requires WireId(t, w).Some? && SameAt(r, r', Key(t, WireId(t, w).value))
    ensures Decide(r, t, w) == Decide(r', t, w)
  {
  }

  // ── Pulling several tables ─────────────────────────────────────────────────

  /** Only one table's rows and cursor changed, and nothing was queued. */
  ghost predicate OnlyTable(r: Replica, r': Replica, t: Table) {
    && (forall k: Key :: k.table != t ==> SameAt(r, r', k))
    && (forall t' :: t' != t ==> CursorOf(r', t') == CursorOf(r, t'))
    && (forall e :: e in r'.outbox ==> e in r.outbox)
  }

  lemma SameOnlyTable(r: Replica, t: Table)
    ensures OnlyTable(r, r, t)
  {
  }

  lemma ReceiptOnlyTable(r: Replica, r': Replica, t: Table)
    requires OnlyTable(r, r', t)
    ensures OnlyTable(r, r'.(receipts := r'.receipts + {t}), t)
  {
    forall k: Key | k.table != t ensures SameAt(r, r'.(receipts := r'.receipts + {t}), k) {
      assert SameAt(r, r', k);
    }
    forall t' | t' != t ensures CursorOf(r'.(receipts := r'.receipts + {t}), t') == CursorOf(r, t') {
      assert CursorOf(r', t') == CursorOf(r, t');
    }
  }

  lemma OnlyTableTwice(r: Replica, r': Replica, r'': Replica, t: Table)
    requires OnlyTable(r, r', t) && OnlyTable(r', r'', t)
    ensures OnlyTable(r, r'', t)
  {
    forall k: Key | k.table != t ensures SameAt(r, r'', k) {
      assert SameAt(r, r', k) && SameAt(r', r'', k);
    }
  }

  lemma MergeOnlyTable(r: Replica, t: Table, w: Wire)
    ensures OnlyTable(r, MergeRow(r, t, w), t)
  {
    hide FillBook, Project, StampOr0, Filter, StoredFrom;
    if WireId(t, w).Some? {
      MergeRowSettles(r, t, w);
    }
  }

  lemma {:induction false} RowsOnlyTable(r: Replica, t: Table, ws: seq<Wire>)
    ensures OnlyTable(r, MergeRows(r, t, ws), t)
    decreases |ws|
  {
    hide MergeRow, OnlyTable;
    if ws == [] {
      SameOnlyTable(r, t);
    } else {
      var r' := MergeRows(r, t, ws[..|ws| - 1]);
      RowsOnlyTable(r, t, ws[..|ws| - 1]);
      MergeOnlyTable(r', t, ws[|ws| - 1]);
      OnlyTableTwice(r, r', MergeRow(r', t, ws[|ws| - 1]), t);
    }
  }

  lemma PageOnlyTable(r0: Replica, r: Replica, t: Table, rows: seq<Wire>)
    requires OnlyTable(r0, r, t)
    ensures OnlyTable(r0, PageTaken(r, t, rows), t)
  {
    hide MergeRows, MaxSeq;
    var r' := PageTaken(r, t, rows);
    RowsOnlyTable(r, t, rows);
    MergeIgnoresCursors(NO_STATS, r, t, rows, r.cursors);
    assert OnlyTable(r, r', t) by {
      forall k: Key | k.table != t ensures SameAt(r, r', k) {
        assert SameAt(r, MergeRows(r, t, rows), k);
      }
    }
    OnlyTableTwice(r0, r, r', t);
  }

  function WireKey(t: Table, w: Wire): Key {
    Key(t, if WireId(t, w).Some? then WireId(t, w).value else "")
  }

  /** Every row was merged, beaten or skipped, decided on the state before. */
  ghost predicate AllSettled(r: Replica, r': Replica, t: Table, ws: seq<Wire>) {
    forall w :: w in ws ==> Settled(r, r', t, w, WireKey(t, w))
  }

  ghost predicate NoRepeats(tables: seq<Table>) {
    forall i, j :: 0 <= i < j < |tables| ==> tables[i] != tables[j]
  }

  function Plus(a: Stats, b: Stats): Stats {
    Stats(a.pulled + b.pulled, a.merged + b.merged, a.skippedTombstones + b.skippedTombstones, a.superseded + b.superseded)
  }

  /** The counts of the tables that finished, in order. */
  function Total(outcomes: seq<PullResult>): Stats {
    if outcomes == [] then NO_STATS
    else
      var front, last := Total(outcomes[..|outcomes| - 1]), outcomes[|outcomes| - 1];
      if last.Pulled? then Plus(front, last.stats) else front
  }

  /** The tables that did not finish, in order. */
  function FailedOf(tables: seq<Table>, outcomes: seq<PullResult>): seq<Table>
    requires |tables| == |outcomes|
  {
    if tables == [] then []
    else
      var n := |tables| - 1;
      FailedOf(tables[..n], outcomes[..n]) + if outcomes[n].Failed? then [tables[n]] else []
  }

  lemma TotalNone()
    ensures Total([]) == NO_STATS && FailedOf([], []) == []
  {
  }

  lemma TotalPush(tables: seq<Table>, i: nat, outcomes: seq<PullResult>, one: PullResult)
    requires i < |tables| && |outcomes| == i
    ensures Total(outcomes + [one]) == if one.Pulled? then Plus(Total(outcomes), one.stats) else Total(outcomes)
    ensures FailedOf(tables[..i + 1], outcomes + [one]) == FailedOf(tables[..i], outcomes) + if one.Failed? then [tables[i]] else []
  {
    assert (outcomes + [one])[..i] == outcomes && tables[..i + 1][..i] == tables[..i];
  }

  datatype PullSummary = PullSummary(stats: Stats, failed: seq<Table>)

  /** What a finished table still shows at the end of the pull. */
  ghost predicate TableDone(r0: Replica, r: Replica, t: Table, source: Source, server: seq<Wire>, pageSize: nat) {
    Honest(source, server, t, pageSize) && OneRowPerRecord(server, t) ==> AllSettled(r0, r, t, Above(server, CursorOf(r0, t)))
  }

  /** Every synced table has an honest source that answers. */
  ghost predicate AllAnswer(sources: Table -> Source, servers: Table -> seq<Wire>, tables: seq<Table>, pageSize: nat) {
    forall t :: t in tables && Synced(t) ==> Honest(sources(t), servers(t), t, pageSize) && Answers(sources(t))
  }

  function Unknown(): Table -> bool {
    (t: Table) => !Synced(t)
  }

  /** Pull each table in turn; a failing one is set aside and the others proceed. */
  method Pull(store: Store, sources: Table -> Source, tables: seq<Table>, pageSize: nat, ghost servers: Table -> seq<Wire>)
    returns (result: PullSummary, ghost outcomes: seq<PullResult>)
    requires store.Valid() && pageSize > 0
    modifies store`rows, store`outbox, store`cursors, store`receipts
    ensures store.Valid()
    ensures |outcomes| == |tables| && result.stats == Total(outcomes) && result.failed == FailedOf(tables, outcomes)
    ensures forall t :: t in result.failed ==> t in tables
    ensures AllAnswer(sources, servers, tables, pageSize) ==> result.failed == Filter(Unknown(), tables)
    ensures NoRepeats(tables) ==> store.receipts == old(store.receipts) + set t | t in tables && t !in result.failed
    ensures NoRepeats(tables) ==> forall t :: t in tables && t !in result.failed ==>
      TableDone(old(store.View()), store.View(), t, sources(t), servers(t), pageSize)
    ensures forall t :: t !in tables ==> Untouched(old(store.View()), store.View(), t)
  {
    hide OnlyTable, TableDone, Untouched, CursorOf, Total, FailedOf, Honest, After, Above, Tally, Answers, Filter;
    hide Requests, EndsShort, EndsInFailure;
    TotalNone();
    UnknownStart(tables);
    ghost var r0 := store.View();
    ghost var done: set<Table> := {};
    result, outcomes := PullSummary(NO_STATS, []), [];
    forall t ensures Untouched(r0, r0, t) {
      SameUntouched(r0, t);
    }
    for i := 0 to |tables|
      invariant store.Valid() && store.receipts == old(store.receipts) + done
      invariant |outcomes| == i && result.stats == Total(outcomes) && result.failed == FailedOf(tables[..i], outcomes)
      invariant AllAnswer(sources, servers, tables, pageSize) ==> result.failed == Filter(Unknown(), tables[..i])
      invariant forall t :: t in tables[..i] <==> t in done || t in result.failed
      invariant NoRepeats(tables) ==> done !! set t | t in result.failed
      invariant NoRepeats(tables) ==> forall t :: t in done ==> TableDone(r0, store.View(), t, sources(t), servers(t), pageSize)
      invariant forall t :: t !in tables[..i] ==> Untouched(r0, store.View(), t)
    {
      var t := tables[i];
      assert tables[..i + 1] == tables[..i] + [t];
      FilterPush(Unknown(), tables[..i], t);
      ghost var before := store.View();
      var one, _, _ := PullTable(store, sources(t), t, pageSize, servers(t));
      ghost var after := store.View();
      TotalPush(tables, i, outcomes, one);
      outcomes := outcomes + [one];
      if NoRepeats(tables) {
        assert t !in tables[..i];
        forall t' | t' in done ensures TableDone(r0, after, t', sources(t'), servers(t'), pageSize) {
          DoneStays(r0, before, after, t', t, sources(t'), servers(t'), pageSize);
        }
      }
      forall t' | t' !in tables[..i + 1] ensures Untouched(r0, after, t') {
        UntouchedStays(r0, before, after, t', t);
      }
      if one.Pulled? {
        if NoRepeats(tables) {
          PulledIsDone(r0, before, after, t, sources(t), servers(t), pageSize);
        }
        done := done + {t};
        var was, more := result.stats, one.stats;
        result := result.(stats := Stats(was.pulled + more.pulled, was.merged + more.merged,
                                         was.skippedTombstones + more.skippedTombstones, was.superseded + more.superseded));
      } else {
        result := result.(failed := result.failed + [t]);
      }
    }
    assert tables[..|tables|] == tables;
  }

  lemma UnknownStart(tables: seq<Table>)
    ensures Filter(Unknown(), tables[..0]) == []
  {
  }

  /** A table's rows and cursor are as they were, and nothing was queued. */
  ghost predicate Untouched(r: Replica, r': Replica, t: Table) {
    && (forall k: Key :: k.table == t ==> SameAt(r, r', k)) && CursorOf(r', t) == CursorOf(r, t)
    && (forall e :: e in r'.outbox ==> e in r.outbox)
  }

  lemma SameUntouched(r: Replica, t: Table)
    ensures Untouched(r, r, t)
  {
  }

  lemma UntouchedStays(r0: Replica, r: Replica, r': Replica, t: Table, other: Table)
    requires Untouched(r0, r, t) && OnlyTable(r, r', other) && t != other
    ensures Untouched(r0, r', t)
  {
    hide CursorOf;
    forall k: Key | k.table == t ensures SameAt(r0, r', k) {
      assert SameAt(r0, r, k) && SameAt(r, r', k);
    }
  }

  lemma DoneStays(r0: Replica, r: Replica, r': Replica, t: Table, other: Table, source: Source, server: seq<Wire>, pageSize: nat)
    requires TableDone(r0, r, t, source, server, pageSize) && OnlyTable(r, r', other) && t != other
    ensures TableDone(r0, r', t, source, server, pageSize)
  {
    hide Honest, OneRowPerRecord, Above, CursorOf, Settled;
    if Honest(source, server, t, pageSize) && OneRowPerRecord(server, t) {
      forall w | w in Above(server, CursorOf(r0, t)) ensures Settled(r0, r', t, w, WireKey(t, w)) {
        assert SameAt(r, r', WireKey(t, w));
        SettledStays(r0, r, r', t, w);
      }
    }
  }

  lemma SettledStays(r0: Replica, r: Replica, r': Replica, t: Table, w: Wire)
    requires Settled(r0, r, t, w, WireKey(t, w)) && SameAt(r, r', WireKey(t, w))
    requires forall e :: e in r'.outbox ==> e in r.outbox
    ensures Settled(r0, r', t, w, WireKey(t, w))
  {
    hide Decide, Project, StampOr0, WireId, StoredFrom;
  }

  lemma PulledIsDone(r0: Replica, r: Replica, r': Replica, t: Table, source: Source, server: seq<Wire>, pageSize: nat)
    requires Untouched(r0, r, t)
    requires Honest(source, server, t, pageSize) ==>
      r' == After(r, t, Above(server, CursorOf(r, t))).(receipts := r'.receipts)
    ensures TableDone(r0, r', t, source, server, pageSize)
  {
    hide Honest, OneRowPerRecord, Above, Settled, MergeRows, MaxSeq;
    if Honest(source, server, t, pageSize) && OneRowPerRecord(server, t) {
      var ws := Above(server, CursorOf(r, t));
      AboveOneRow(server, t, CursorOf(r, t));
      forall w | w in ws ensures Settled(r0, r', t, w, WireKey(t, w)) {
        var i :| 0 <= i < |ws| && ws[i] == w;
        assert WireId(t, w).Some? by {
          RowHasId(ws, t, i);
        }
        MergedBeatenOrSkipped(r, t, ws, i);
        SettledStays(r, MergeRows(r, t, ws), r', t, w);
        assert SameAt(r0, r, WireKey(t, w));
        SettledFrom(r0, r, r', t, w);
      }
    }
  }

  lemma RowHasId(ws: seq<Wire>, t: Table, i: nat)
    requires OneRowPerRecord(ws, t) && i < |ws|
    ensures WireId(t, ws[i]).Some?
  {
  }

  lemma SettledFrom(r0: Replica, r: Replica, r': Replica, t: Table, w: Wire)
    requires WireId(t, w).Some? && SameAt(r0, r, WireKey(t, w)) && Settled(r, r', t, w, WireKey(t, w))
    ensures Settled(r0, r', t, w, WireKey(t, w))
  {
    SameDecision(r0, r, t, w);
    hide Decide, Project, StampOr0, WireId, StoredFrom;
  }

  lemma {:induction false} AboveOneRow(server: seq<Wire>, t: Table, cursor: int)
    requires OneRowPerRecord(server, t)
    ensures OneRowPerRecord(Above(server, cursor), t)
  {
    hide WireId, ChangeSeqOf;
    if server != [] {
      var rest := server[1..];
      assert forall i :: 0 <= i < |rest| ==> rest[i] == server[i + 1];
      AboveOneRow(rest, t, cursor);
    }
  }
}
