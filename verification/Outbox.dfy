/** Collapsing the outbox: one merged write per record, last field wins, delete is sticky. */
module OutboxModel {
  import opened Data
  import opened Seqs
  import opened ReplicaModel

  datatype Collapsed = Collapsed(table: Table, ids: seq<nat>, payload: Row)

  // ── The offline-merge remap ────────────────────────────────────────────────

  const MAX_HOPS := 20

  predicate IsEnd(id: string, remap: map<string, string>) {
    id !in remap || remap[id] == id
  }

  /** Follow at most n remap entries. */
  function Walk(id: string, remap: map<string, string>, n: nat): string
    decreases n
  {
    if n == 0 || IsEnd(id, remap) then id else Walk(remap[id], remap, n - 1)
  }

  method ResolveBookId(bookId: string, remap: map<string, string>) returns (id: string)
    ensures id == Walk(bookId, remap, MAX_HOPS)
  {
    id := bookId;
    for hop := 0 to MAX_HOPS
      invariant Walk(id, remap, MAX_HOPS - hop) == Walk(bookId, remap, MAX_HOPS)
    {
      if id in remap && remap[id] != id {
        id := remap[id];
      } else {
        return;
      }
    }
  }

  lemma {:induction false} WalkCompose(id: string, remap: map<string, string>, m: nat, n: nat)
    ensures Walk(Walk(id, remap, m), remap, n) == Walk(id, remap, m + n)
    decreases m
  {
    if m > 0 && !IsEnd(id, remap) {
      WalkCompose(remap[id], remap, m - 1, n);
    }
  }

  /** The walk stops on an end exactly when an end lies within the hop cap, and on that very end. */
  lemma WalkReachesTheEnd(id: string, remap: map<string, string>, n: nat)
    ensures IsEnd(Walk(id, remap, MAX_HOPS), remap) <==>
            exists h: nat :: h <= MAX_HOPS && IsEnd(Walk(id, remap, h), remap)
    ensures n <= MAX_HOPS && IsEnd(Walk(id, remap, n), remap) ==>
            Walk(id, remap, MAX_HOPS) == Walk(id, remap, n)
  {
    forall h: nat | h <= MAX_HOPS && IsEnd(Walk(id, remap, h), remap)
      ensures Walk(id, remap, MAX_HOPS) == Walk(id, remap, h)
    {
      WalkCompose(id, remap, h, MAX_HOPS - h);
    }
  }

  /** Each id of a chain is mapped to the next. */
  ghost predicate IsChain(chain: seq<string>, remap: map<string, string>) {
    chain != [] && forall i :: 0 <= i < |chain| - 1 ==> chain[i] in remap && remap[chain[i]] == chain[i + 1] != chain[i]
  }

  lemma {:induction false} WalkAlong(chain: seq<string>, remap: map<string, string>, n: nat)
    requires IsChain(chain, remap) && n < |chain|
    ensures Walk(chain[0], remap, n) == chain[n]
    decreases n
  {
    if n > 0 {
      var rest := chain[1..];
      forall i | 0 <= i < |rest| - 1 ensures rest[i] in remap && remap[rest[i]] == rest[i + 1] != rest[i] {
        assert rest[i] == chain[i + 1] && rest[i + 1] == chain[i + 2];
      }
      WalkAlong(rest, remap, n - 1);
    }
  }

  /** A chain of up to twenty hops resolves to its end; on a longer one the resolution stops after
      twenty. */
  lemma ChainResolves(chain: seq<string>, remap: map<string, string>)
    requires IsChain(chain, remap) && (var end := chain[|chain| - 1]; end !in remap || remap[end] == end)
    ensures Walk(chain[0], remap, MAX_HOPS) == if |chain| <= 21 then chain[|chain| - 1] else chain[20]
  {
    if |chain| <= 21 {
      WalkAlong(chain, remap, |chain| - 1);
      WalkReachesTheEnd(chain[0], remap, |chain| - 1);
    } else {
      WalkAlong(chain, remap, 20);
    }
  }

  ghost predicate Extends(remap: map<string, string>, more: map<string, string>) {
    forall id :: id in remap ==> id in more && more[id] == remap[id]
  }

  /** A walk under the smaller remap is an initial part of the walk under the larger one. */
  lemma {:induction false} WalkUnderExtension(id: string, remap: map<string, string>, more: map<string, string>, n: nat)
    returns (h: nat)
    requires Extends(remap, more)
    ensures h <= n && Walk(id, remap, n) == Walk(id, more, h)
    decreases n
  {
    if n == 0 || IsEnd(id, remap) {
      h := 0;
    } else {
      h := WalkUnderExtension(remap[id], remap, more, n - 1);
      h := h + 1;
    }
  }

  /** Resolving in the collapse and again after the books pass equals resolving once at the end. */
  lemma ResolveTwice(id: string, remap: map<string, string>, more: map<string, string>)
    requires Extends(remap, more)
    requires IsEnd(Walk(id, more, MAX_HOPS), more)
    ensures Walk(Walk(id, remap, MAX_HOPS), more, MAX_HOPS) == Walk(id, more, MAX_HOPS)
  {
    var h := WalkUnderExtension(id, remap, more, MAX_HOPS);
    WalkCompose(id, more, h, MAX_HOPS);
    WalkCompose(id, more, MAX_HOPS, h);
  }

  // ── Groups ─────────────────────────────────────────────────────────────────

  function GroupKey(e: Entry): Key {
    var fallback := if e.payload.Object? then AsStr(Get(e.payload.fields, Id)) else None;
    Key(e.table,
        if e.record.Some? then e.record.value
        else if fallback.Some? then fallback.value else "")
  }

  function InGroup(k: Key): Entry -> bool {
    e => GroupKey(e) == k
  }

  /** Insert after every entry that is not later: equal times keep their order. */
  function Insert(t: seq<Entry>, x: Entry): seq<Entry> {
    if t == [] || t[|t| - 1].at <= x.at then t + [x] else Insert(t[..|t| - 1], x) + [t[|t| - 1]]
  }

  /** The stable sort by enqueue time. */
  function SortByTime(s: seq<Entry>): seq<Entry> {
    if s == [] then [] else Insert(SortByTime(s[..|s| - 1]), s[|s| - 1])
  }

  ghost predicate TimeOrdered(t: seq<Entry>) {
    forall i, j :: 0 <= i < j < |t| ==> t[i].at <= t[j].at
  }

  function Absorb(acc: Row, e: Entry): Row {
    if e.payload.Object? then
      var merged := acc + e.payload.fields;
      if Truthy(Get(acc, Deleted)) || IsDelete(e) then merged[Deleted := Bool(true)] else merged
    else acc
  }

  /** The accumulated payload of a group in the order given. */
  function Fold(t: seq<Entry>): Row {
    if t == [] then map[] else Absorb(Fold(t[..|t| - 1]), t[|t| - 1])
  }

  function Ids(t: seq<Entry>): seq<nat> {
    if t == [] then [] else Ids(t[..|t| - 1]) + [t[|t| - 1].id]
  }

  function Repoint(t: Table, payload: Row, remap: map<string, string>): Row {
    var b := AsStr(Get(payload, BookId));
    if t == Notes && b.Some? then payload[BookId := Str(Walk(b.value, remap, MAX_HOPS))] else payload
  }

  /** What collapsing makes of one record's entries. */
  function CollapseOf(items: seq<Entry>, k: Key, remap: map<string, string>): Collapsed {
    var g := SortByTime(Filter(InGroup(k), items));
    Collapsed(k.table, Ids(g), Repoint(k.table, Fold(g), remap))
  }

  method Collapse(items: seq<Entry>, remap: map<string, string>) returns (groups: map<Key, Collapsed>)
    ensures groups.Keys == set e | e in items :: GroupKey(e)
    ensures forall k :: k in groups ==> groups[k] == CollapseOf(items, k, remap)
  {
    var sorted := SortByTime(items);
    groups := GroupItems(sorted);
    groups := RepointNotes(groups, remap);
    SameMembers(items);
    forall k | k in groups {
      SortFilter(InGroup(k), items);
    }
  }

  method GroupItems(sorted: seq<Entry>) returns (groups: map<Key, Collapsed>)
    ensures groups.Keys == set e | e in sorted :: GroupKey(e)
    ensures forall k :: k in groups ==> groups[k] == GroupOf(sorted, k)
  {
    hide GroupOf, GroupKey;
    groups := map[];
    for i := 0 to |sorted|
      invariant groups.Keys == set e | e in sorted[..i] :: GroupKey(e)
      invariant forall k :: k in groups ==> groups[k] == GroupOf(sorted[..i], k)
    {
      var item := sorted[i];
      var id := item.record;
      if id.None? && item.payload.Object? {
        id := AsStr(Get(item.payload.fields, Id));
      }
      var key := Key(item.table, if id.Some? then id.value else "");
      GroupKeyIs(item);
      ghost var before := groups;
      assert sorted[..i + 1] == sorted[..i] + [item];
      if key !in groups {
        GroupOfAbsent(sorted[..i], key);
        groups := groups[key := Collapsed(key.table, [], map[])];
      }
      var group := groups[key];
      group := group.(ids := group.ids + [item.id]);
      if item.payload.Object? {
        var fields := item.payload.fields;
        var sticky := Truthy(Get(group.payload, Deleted)) || Truthy(Get(fields, Deleted));
        group := group.(payload := group.payload + fields);
        if sticky {
          group := group.(payload := group.payload[Deleted := Bool(true)]);
        }
      }
      groups := groups[key := group];
      forall k | k in groups ensures groups[k] == GroupOf(sorted[..i + 1], k) {
        GroupOfPush(sorted[..i], item, k);
      }
    }
    assert sorted[..|sorted|] == sorted;
  }

  lemma GroupKeyIs(e: Entry)
    ensures GroupKey(e) == Key(e.table,
      if e.record.Some? then e.record.value
      else if e.payload.Object? && Id in e.payload.fields && e.payload.fields[Id].Str? then e.payload.fields[Id].s
      else "")
  {
  }

  /** Repoint every note group onto the merge survivor of its book. */
  method RepointNotes(collapsed: map<Key, Collapsed>, remap: map<string, string>)
    returns (groups: map<Key, Collapsed>)
    requires forall k :: k in collapsed ==> collapsed[k].table == k.table
    ensures groups.Keys == collapsed.Keys
    ensures forall k :: k in groups ==>
      groups[k] == collapsed[k].(payload := Repoint(k.table, collapsed[k].payload, remap))
  {
    groups := collapsed;
    var todo := groups.Keys;
    while todo != {}
      invariant todo <= groups.Keys == collapsed.Keys
      invariant forall k :: k in todo ==> groups[k] == collapsed[k]
      invariant forall k :: k in groups && k !in todo ==>
        groups[k] == collapsed[k].(payload := Repoint(k.table, collapsed[k].payload, remap))
    {
      var k :| k in todo;
      todo := todo - {k};
      if groups[k].table == Notes {
        var b := AsStr(Get(groups[k].payload, BookId));
        if b.Some? {
          var resolved := ResolveBookId(b.value, remap);
          groups := groups[k := groups[k].(payload := groups[k].payload[BookId := Str(resolved)])];
        }
      }
    }
  }

  ghost function GroupOf(sorted: seq<Entry>, k: Key): Collapsed {
    var g := Filter(InGroup(k), sorted);
    Collapsed(k.table, Ids(g), Fold(g))
  }

  lemma GroupOfPush(s: seq<Entry>, e: Entry, k: Key)
    ensures GroupOf(s + [e], k) ==
            if GroupKey(e) == k then
              var g := GroupOf(s, k);
              g.(ids := g.ids + [e.id], payload := Absorb(g.payload, e))
            else GroupOf(s, k)
  {
    FilterPush(InGroup(k), s, e);
    var g := Filter(InGroup(k), s);
    assert (g + [e])[..|g|] == g;
  }

  lemma GroupOfAbsent(s: seq<Entry>, k: Key)
    requires forall e :: e in s ==> GroupKey(e) != k
    ensures GroupOf(s, k) == Collapsed(k.table, [], map[])
  {
    FilterNone(InGroup(k), s);
  }

  // ── The sort ───────────────────────────────────────────────────────────────

  lemma {:induction false} InsertMembers(t: seq<Entry>, x: Entry)
    ensures |Insert(t, x)| == |t| + 1 && forall e :: e in Insert(t, x) <==> e in t || e == x
  {
    if t != [] && t[|t| - 1].at > x.at {
      InsertMembers(t[..|t| - 1], x);
      assert t == t[..|t| - 1] + [t[|t| - 1]];
    }
  }

  /** Sorting loses and invents nothing. */
  lemma {:induction false} SameMembers(s: seq<Entry>)
    ensures |SortByTime(s)| == |s| && forall e :: e in SortByTime(s) <==> e in s
  {
    hide Insert;
    if s != [] {
      SameMembers(s[..|s| - 1]);
      InsertMembers(SortByTime(s[..|s| - 1]), s[|s| - 1]);
      assert s == s[..|s| - 1] + [s[|s| - 1]];
    }
  }

  lemma {:induction false} InsertOrdered(t: seq<Entry>, x: Entry)
    requires TimeOrdered(t)
    ensures TimeOrdered(Insert(t, x))
  {
    if t != [] && t[|t| - 1].at > x.at {
      var front, last := t[..|t| - 1], t[|t| - 1];
      InsertOrdered(front, x);
      var r := Insert(front, x);
      InsertMembers(front, x);
      forall e | e in r ensures e.at <= last.at {
        if e != x {
          var i :| 0 <= i < |front| && front[i] == e;
        }
      }
    }
  }

  lemma {:induction false} SortOrdered(s: seq<Entry>)
    ensures TimeOrdered(SortByTime(s))
  {
    if s != [] {
      SortOrdered(s[..|s| - 1]);
      InsertOrdered(SortByTime(s[..|s| - 1]), s[|s| - 1]);
    }
  }

  lemma {:induction false} InsertFilter(p: Entry -> bool, t: seq<Entry>, x: Entry)
    requires TimeOrdered(t)
    ensures Filter(p, Insert(t, x)) == if p(x) then Insert(Filter(p, t), x) else Filter(p, t)
  {
    hide Filter;
    if t == [] || t[|t| - 1].at <= x.at {
      FilterPush(p, t, x);
      FilterMembers(p, t);
      forall e | e in t ensures e.at <= x.at {
        var i :| 0 <= i < |t| && t[i] == e;
      }
      InsertLast(Filter(p, t), x);
    } else {
      var front, last := t[..|t| - 1], t[|t| - 1];
      InsertFilter(p, front, x);
      FilterPush(p, Insert(front, x), last);
      FilterPush(p, front, last);
      assert t == front + [last];
      InsertBefore(front, last, x);
      InsertBefore(Filter(p, front), last, x);
      assert Filter(p, front) + [] == Filter(p, front);
      assert Filter(p, Insert(front, x)) + [] == Filter(p, Insert(front, x));
    }
  }

  lemma InsertLast(t: seq<Entry>, x: Entry)
    requires forall e :: e in t ==> e.at <= x.at
    ensures Insert(t, x) == t + [x]
  {
  }

  lemma NotLater(s: seq<Entry>, e: Entry)
    requires TimeOrdered(s) && s != [] && e in s
    ensures e.at <= s[|s| - 1].at
  {
    var i :| 0 <= i < |s| && s[i] == e;
  }

  lemma InsertBefore(t: seq<Entry>, last: Entry, x: Entry)
    requires last.at > x.at
    ensures Insert(t + [last], x) == Insert(t, x) + [last]
  {
    assert (t + [last])[..|t|] == t;
  }

  /** Grouping and sorting commute, because the sort is stable. */
  lemma {:induction false} SortFilter(p: Entry -> bool, s: seq<Entry>)
    ensures Filter(p, SortByTime(s)) == SortByTime(Filter(p, s))
  {
    if s != [] {
      var front, last := s[..|s| - 1], s[|s| - 1];
      SortFilter(p, front);
      SortOrdered(front);
      InsertFilter(p, SortByTime(front), last);
      if p(last) {
        var f := Filter(p, front);
        assert (f + [last])[..|f|] == f;
      }
    }
  }

  lemma {:induction false} SortOfOrdered(s: seq<Entry>)
    requires TimeOrdered(s)
    ensures SortByTime(s) == s
  {
    if s != [] {
      var front := s[..|s| - 1];
      SortOfOrdered(front);
      hide TimeOrdered;
      forall e | e in front ensures e.at <= s[|s| - 1].at {
        NotLater(s, e);
      }
      InsertLast(front, s[|s| - 1]);
    }
  }

  // ── What a collapsed payload means ─────────────────────────────────────────

  ghost predicate Carries(e: Entry, c: Column) {
    e.payload.Object? && c in e.payload.fields
  }

  /** Entry i is the last carrier of column c in stable time order. */
  ghost predicate Latest(s: seq<Entry>, i: nat, c: Column) {
    i < |s| && Carries(s[i], c) &&
    forall j :: 0 <= j < |s| && Carries(s[j], c) ==> s[j].at < s[i].at || (s[j].at == s[i].at && j <= i)
  }

  ghost predicate AnyDelete(s: seq<Entry>) {
    exists e :: e in s && IsDelete(e)
  }

  /** A cell as the collapse leaves it: a note's book id is resolved. */
  function Resolved(t: Table, c: Column, v: Cell, remap: map<string, string>): Cell {
    if t == Notes && c == BookId && v.Str? then Str(Walk(v.s, remap, MAX_HOPS)) else v
  }

  /** The collapsed payload under any remap, told without sorting or folding: a column is present
      exactly when some entry carries it, its value is the one its last carrier in stable time order
      gave, a note's book id resolved, and the record is deleted exactly when any of its entries was a
      delete. */
  lemma CollapseMeaning(items: seq<Entry>, k: Key, remap: map<string, string>, c: Column)
    ensures var s, p := Filter(InGroup(k), items), CollapseOf(items, k, remap).payload;
      && (c in p <==> exists e :: e in s && Carries(e, c))
      && (c in p ==> exists i: nat :: Latest(s, i, c))
      && (forall i: nat | Latest(s, i, c) && !(c == Deleted && AnyDelete(s))
           :: c in p && p[c] == Resolved(k.table, c, s[i].payload.fields[c], remap))
      && (Truthy(Get(p, Deleted)) <==> AnyDelete(s))
      && (AnyDelete(s) ==> Get(p, Deleted) == Some(Bool(true)))
  {
    var s := Filter(InGroup(k), items);
    var t := SortByTime(s);
    RepointCell(k.table, Fold(t), remap, c);
    RepointCell(k.table, Fold(t), remap, Deleted);
    hide Filter, SortByTime, Fold, Walk, Repoint;
    SameMembers(s);
    FoldColumns(t, c);
    FoldDeleted(t);
    assert AnyDelete(s) <==> AnyDelete(t);
    if e :| e in s && Carries(e, c) {
      var i := LatestExists(s, c);
    }
    forall i: nat | Latest(s, i, c) && !(c == Deleted && AnyDelete(s))
      ensures c in Fold(t) && Fold(t)[c] == s[i].payload.fields[c]
    {
      var p := LatestIsLast(s, i, c);
      FoldField(t, c, p);
    }
  }

  lemma RepointCell(t: Table, payload: Row, remap: map<string, string>, c: Column)
    ensures Get(Repoint(t, payload, remap), c) == if c in payload then Some(Resolved(t, c, payload[c], remap)) else None
  {
    hide Walk;
  }

  /** Every queued id belongs to the group of its entry, and to no other group. */
  lemma CollapsePartition(items: seq<Entry>, k: Key, remap: map<string, string>, e: Entry)
    requires e in items
    requires forall x, y :: x in items && y in items && x.id == y.id ==> x == y
    ensures e.id in CollapseOf(items, k, remap).ids <==> GroupKey(e) == k
    ensures |CollapseOf(items, k, remap).ids| == |Filter(InGroup(k), items)|
  {
    var s := Filter(InGroup(k), items);
    FilterMembers(InGroup(k), items);
    SameMembers(s);
    IdsMembers(SortByTime(s));
  }

  lemma {:induction false} IdsMembers(t: seq<Entry>)
    ensures |Ids(t)| == |t| && forall i :: 0 <= i < |t| ==> Ids(t)[i] == t[i].id
    ensures forall id :: id in Ids(t) <==> exists e :: e in t && e.id == id
  {
    if t != [] {
      IdsMembers(t[..|t| - 1]);
      assert t == t[..|t| - 1] + [t[|t| - 1]];
    }
  }

  ghost predicate LastIn(t: seq<Entry>, c: Column, p: nat) {
    p < |t| && Carries(t[p], c) && forall q :: p < q < |t| ==> !Carries(t[q], c)
  }

  lemma {:induction false} FoldColumns(t: seq<Entry>, c: Column)
    ensures c in Fold(t) <==> exists e :: e in t && Carries(e, c)
  {
    if t != [] {
      var front, last := t[..|t| - 1], t[|t| - 1];
      FoldColumns(front, c);
      assert forall e :: e in t <==> e in front || e == last by {
        assert t == front + [last];
      }
      assert c in Fold(t) <==> c in Fold(front) || Carries(last, c);
    }
  }

  lemma {:induction false} FoldDeleted(t: seq<Entry>)
    ensures Truthy(Get(Fold(t), Deleted)) <==> AnyDelete(t)
    ensures AnyDelete(t) ==> Get(Fold(t), Deleted) == Some(Bool(true))
  {
    if t != [] {
      FoldDeleted(t[..|t| - 1]);
      assert t == t[..|t| - 1] + [t[|t| - 1]];
    }
  }

  lemma {:induction false} FoldField(t: seq<Entry>, c: Column, p: nat)
    requires LastIn(t, c, p) && (c == Deleted ==> !AnyDelete(t))
    ensures c in Fold(t) && Fold(t)[c] == t[p].payload.fields[c]
  {
    var front, last := t[..|t| - 1], t[|t| - 1];
    assert t == front + [last];
    if c == Deleted {
      FoldDeleted(front);
      assert last in t;
    }
    if p < |front| {
      assert front[p] == t[p] && !Carries(t[|t| - 1], c);
      FoldField(front, c, p);
    }
  }

  lemma {:induction false} LatestExists(s: seq<Entry>, c: Column) returns (i: nat)
    requires exists e :: e in s && Carries(e, c)
    ensures Latest(s, i, c)
  {
    var front, last := s[..|s| - 1], s[|s| - 1];
    assert s == front + [last];
    if exists e :: e in front && Carries(e, c) {
      i := LatestExists(front, c);
      if Carries(last, c) && s[i].at <= last.at {
        i := |s| - 1;
      }
    } else {
      i := |s| - 1;
      assert forall j :: 0 <= j < |front| ==> s[j] in front;
    }
  }

  lemma {:induction false} InsertSplits(t: seq<Entry>, x: Entry) returns (q: nat)
    requires TimeOrdered(t)
    ensures q <= |t| && Insert(t, x) == t[..q] + [x] + t[q..]
    ensures forall j :: 0 <= j < q ==> t[j].at <= x.at
    ensures forall j :: q <= j < |t| ==> t[j].at > x.at
  {
    if t == [] || t[|t| - 1].at <= x.at {
      q := |t|;
    } else {
      var front, last := t[..|t| - 1], t[|t| - 1];
      q := InsertSplits(front, x);
      assert front[..q] == t[..q] && front[q..] + [last] == t[q..];
    }
  }

  /** The last carrier in stable time order is the last carrier of the sorted queue. */
  lemma {:induction false} LatestIsLast(s: seq<Entry>, i: nat, c: Column) returns (p: nat)
    requires Latest(s, i, c)
    ensures LastIn(SortByTime(s), c, p) && SortByTime(s)[p] == s[i]
  {
    var front, x := s[..|s| - 1], s[|s| - 1];
    var t := SortByTime(front);
    SortOrdered(front);
    var q := InsertSplits(t, x);
    SortPush(s);
    hide SortByTime, Insert, Carries;
    if i == |front| {
      p := q;
      NoLaterCarrier(s, c, t, q);
      LastAtSplit(t, x, q, c);
    } else {
      LatestInFront(s, i, c);
      p := LatestIsLast(front, i, c);
      assert Carries(x, c) ==> x.at < t[p].at;
      LastAroundSplit(t, x, q, c, p);
      p := if q <= p then p + 1 else p;
    }
  }

  lemma SortPush(s: seq<Entry>)
    requires s != []
    ensures SortByTime(s) == Insert(SortByTime(s[..|s| - 1]), s[|s| - 1])
  {
  }

  lemma LatestInFront(s: seq<Entry>, i: nat, c: Column)
    requires Latest(s, i, c) && i < |s| - 1
    ensures Latest(s[..|s| - 1], i, c)
    ensures Carries(s[|s| - 1], c) ==> s[|s| - 1].at < s[i].at
  {
    assert forall j :: 0 <= j < |s| - 1 ==> s[..|s| - 1][j] == s[j];
  }

  lemma NoLaterCarrier(s: seq<Entry>, c: Column, t: seq<Entry>, q: nat)
    requires s != [] && Latest(s, |s| - 1, c)
    requires t == SortByTime(s[..|s| - 1]) && q <= |t|
    requires forall j :: q <= j < |t| ==> t[j].at > s[|s| - 1].at
    ensures forall j :: q <= j < |t| ==> !Carries(t[j], c)
  {
    var front := s[..|s| - 1];
    SameMembers(front);
    forall j | q <= j < |t| ensures !Carries(t[j], c) {
      assert t[j] in t;
      var m :| 0 <= m < |front| && front[m] == t[j];
      assert s[m] == t[j];
    }
  }

  lemma LastAtSplit(t: seq<Entry>, x: Entry, q: nat, c: Column)
    requires q <= |t| && Carries(x, c)
    requires forall j :: q <= j < |t| ==> !Carries(t[j], c)
    ensures LastIn(t[..q] + [x] + t[q..], c, q) && (t[..q] + [x] + t[q..])[q] == x
  {
    var r := t[..q] + [x] + t[q..];
    assert forall j :: q < j < |r| ==> r[j] == t[j - 1];
  }

  lemma LastAroundSplit(t: seq<Entry>, x: Entry, q: nat, c: Column, p: nat)
    requires q <= |t| && LastIn(t, c, p) && (q > p ==> !Carries(x, c))
    ensures var r, p' := t[..q] + [x] + t[q..], if q <= p then p + 1 else p;
      LastIn(r, c, p') && r[p'] == t[p]
  {
    var r := t[..q] + [x] + t[q..];
    assert forall j :: 0 <= j < q ==> r[j] == t[j];
    assert forall j :: q < j < |r| ==> r[j] == t[j - 1];
  }
}
