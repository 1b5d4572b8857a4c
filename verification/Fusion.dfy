/** Reciprocal rank fusion of a lexical and a semantic ranking. */
module FusionModel {

  datatype Kind = Note | Idea
  datatype Doc = Doc(kind: Kind, refId: string)
  datatype Fused = Fused(doc: Doc, score: real, lexical: bool, semantic: bool)

  const RRF_K: nat := 60

  /** The contribution of a zero-based rank. */
  function Rrf(rank: nat): real {
    1.0 / ((RRF_K + rank + 1) as real)
  }

  /** What a ranking contributes to a document: the sum over its occurrences. */
  function RankSum(ranking: seq<Doc>, d: Doc): real {
    if ranking == [] then 0.0
    else RankSum(ranking[..|ranking| - 1], d) + if ranking[|ranking| - 1] == d then Rrf(|ranking| - 1) else 0.0
  }

  function Notes(semantic: seq<string>): seq<Doc> {
    seq(|semantic|, i requires 0 <= i < |semantic| => Doc(Note, semantic[i]))
  }

  // ── The order ──────────────────────────────────────────────────────────────

  /** Lexicographic order by code point. */
  predicate Less(a: string, b: string) {
    b != "" && (a == "" || a[0] < b[0] || (a[0] == b[0] && Less(a[1..], b[1..])))
  }

  predicate KindBefore(a: Kind, b: Kind) {
    a == Note && b == Idea
  }

  /** Higher score first, then id, then notes before ideas. */
  predicate Before(a: Fused, b: Fused) {
    || a.score > b.score
    || (a.score == b.score && Less(a.doc.refId, b.doc.refId))
    || (a.score == b.score && a.doc.refId == b.doc.refId && KindBefore(a.doc.kind, b.doc.kind))
  }

  lemma {:induction false} LessTotal(a: string, b: string)
    ensures (a == b && !Less(a, b) && !Less(b, a)) || (a != b && (Less(a, b) <==> !Less(b, a)))
  {
    if a != "" && b != "" {
      LessTotal(a[1..], b[1..]);
      assert a == [a[0]] + a[1..] && b == [b[0]] + b[1..];
    }
  }

  lemma {:induction false} LessTransitive(a: string, b: string, c: string)
    requires Less(a, b) && Less(b, c)
    ensures Less(a, c)
  {
    if a != "" && a[0] == b[0] && b[0] == c[0] {
      LessTransitive(a[1..], b[1..], c[1..]);
    }
  }

  lemma BeforeTotal(a: Fused, b: Fused)
    ensures !(Before(a, b) && Before(b, a)) && (a.doc != b.doc ==> Before(a, b) || Before(b, a))
  {
    LessTotal(a.doc.refId, b.doc.refId);
  }

  lemma BeforeTransitive(a: Fused, b: Fused, c: Fused)
    requires Before(a, b) && Before(b, c)
    ensures Before(a, c)
  {
    if Less(a.doc.refId, b.doc.refId) && Less(b.doc.refId, c.doc.refId) {
      LessTransitive(a.doc.refId, b.doc.refId, c.doc.refId);
    }
  }

  ghost predicate Ranked(s: seq<Fused>) {
    forall i, j :: 0 <= i < j < |s| ==> Before(s[i], s[j])
  }

  function Insert(s: seq<Fused>, x: Fused): seq<Fused> {
    if s == [] || Before(s[|s| - 1], x) then s + [x] else Insert(s[..|s| - 1], x) + [s[|s| - 1]]
  }

  lemma {:induction false} InsertRanked(s: seq<Fused>, x: Fused)
    requires Ranked(s) && forall y :: y in s ==> y.doc != x.doc
    ensures Ranked(Insert(s, x)) && forall y :: y in Insert(s, x) <==> y == x || y in s
  {
    hide Before;
    if s != [] {
      var front, last := s[..|s| - 1], s[|s| - 1];
      assert s == front + [last] && last in s;
      if Before(last, x) {
        forall i | 0 <= i < |s| - 1 ensures Before(s[i], x) {
          BeforeTransitive(s[i], last, x);
        }
      } else {
        BeforeTotal(last, x);
        InsertRanked(front, x);
        forall y | y in Insert(front, x) ensures Before(y, last) {
          if y != x {
            var i :| 0 <= i < |front| && front[i] == y;
            assert Before(s[i], s[|s| - 1]);
          }
        }
      }
    }
  }

  // ── Fusion ─────────────────────────────────────────────────────────────────

  function EntryFor(lexical: seq<Doc>, notes: seq<Doc>, d: Doc): Fused {
    Fused(d, RankSum(lexical, d) + RankSum(notes, d), d in lexical, d in notes)
  }

  /** Every document of either ranking exactly once, with its summed contributions, in order. */
  ghost predicate IsFusion(lexical: seq<Doc>, notes: seq<Doc>, out: seq<Fused>) {
    && Ranked(out) && (forall e :: e in out ==> e == EntryFor(lexical, notes, e.doc))
    && (forall d :: (d in lexical || d in notes) <==> EntryFor(lexical, notes, d) in out)
  }

  method Fuse(lexical: seq<Doc>, semantic: seq<string>) returns (out: seq<Fused>)
    ensures IsFusion(lexical, Notes(semantic), out)
    ensures forall id :: id in semantic <==> exists e :: e in out && e.doc == Doc(Note, id) && e.semantic
  {
    NotesAre(semantic);
    var notes := Notes(semantic);
    var byKey := Accumulate(lexical, notes);
    out := [];
    var rest := byKey.Keys;
    // the map is drained in any order
    while rest != {}
      invariant rest <= byKey.Keys && Ranked(out)
      invariant forall e :: e in out <==> e.doc in byKey && e.doc !in rest && e == byKey[e.doc]
      decreases rest
    {
      hide Insert, Before, RankSum;
      var d :| d in rest;
      InsertRanked(out, byKey[d]);
      out := Insert(out, byKey[d]);
      rest := rest - {d};
    }
    hide RankSum, Before;
    forall id ensures id in semantic <==> exists e :: e in out && e.doc == Doc(Note, id) && e.semantic {
      if id in semantic {
        assert EntryFor(lexical, notes, Doc(Note, id)) in out;
      }
    }
  }

  lemma NotesAre(semantic: seq<string>)
    ensures forall d :: d in Notes(semantic) <==> d.kind == Note && d.refId in semantic
  {
    var notes := Notes(semantic);
    forall d: Doc | d.kind == Note && d.refId in semantic ensures d in notes {
      var i :| 0 <= i < |semantic| && semantic[i] == d.refId;
      assert notes[i] == d;
    }
  }

  /** The map holds exactly the documents of both rankings, with their sums and flags. */
  ghost predicate Accumulated(byKey: map<Doc, Fused>, lexical: seq<Doc>, notes: seq<Doc>) {
    && (forall d :: d in byKey <==> d in lexical || d in notes)
    && (forall d :: d in byKey ==> byKey[d] == EntryFor(lexical, notes, d))
  }

  method Accumulate(lexical: seq<Doc>, notes: seq<Doc>) returns (byKey: map<Doc, Fused>)
    ensures Accumulated(byKey, lexical, notes)
  {
    hide Accumulated;
    byKey := map[];
    AccumulatedNone();
    for i := 0 to |lexical|
      invariant Accumulated(byKey, lexical[..i], [])
    {
      var d := lexical[i];
      var e := if d in byKey then byKey[d] else Fused(d, 0.0, false, false);
      AddLexical(byKey, lexical, i);
      byKey := byKey[d := e.(score := e.score + Rrf(i), lexical := true)];
    }
    assert lexical[..|lexical|] == lexical && notes[..0] == [];
    for i := 0 to |notes|
      invariant Accumulated(byKey, lexical, notes[..i])
    {
      var d := notes[i];
      var e := if d in byKey then byKey[d] else Fused(d, 0.0, false, false);
      AddSemantic(byKey, lexical, notes, i);
      byKey := byKey[d := e.(score := e.score + Rrf(i), semantic := true)];
    }
    assert notes[..|notes|] == notes;
  }

  lemma AccumulatedNone()
    ensures Accumulated(map[], [], [])
  {
  }

  lemma AddLexical(byKey: map<Doc, Fused>, lexical: seq<Doc>, i: nat)
    requires i < |lexical| && Accumulated(byKey, lexical[..i], [])
    ensures var d := lexical[i];
      var e := if d in byKey then byKey[d] else Fused(d, 0.0, false, false);
      Accumulated(byKey[d := e.(score := e.score + Rrf(i), lexical := true)], lexical[..i + 1], [])
  {
    hide RankSum, Rrf;
    var d := lexical[i];
    assert lexical[..i + 1] == lexical[..i] + [d];
    RankSumAbsent(lexical[..i], d);
    forall x ensures RankSum(lexical[..i + 1], x) == RankSum(lexical[..i], x) + (if x == d then Rrf(i) else 0.0) && RankSum([], x) == 0.0 {
      RankSumPush(lexical, i, x);
      RankSumAbsent([], x);
    }
  }

  lemma AddSemantic(byKey: map<Doc, Fused>, lexical: seq<Doc>, notes: seq<Doc>, i: nat)
    requires i < |notes| && Accumulated(byKey, lexical, notes[..i])
    ensures var d := notes[i];
      var e := if d in byKey then byKey[d] else Fused(d, 0.0, false, false);
      Accumulated(byKey[d := e.(score := e.score + Rrf(i), semantic := true)], lexical, notes[..i + 1])
  {
    hide RankSum, Rrf;
    var d := notes[i];
    assert notes[..i + 1] == notes[..i] + [d];
    RankSumAbsent(lexical, d);
    RankSumAbsent(notes[..i], d);
    forall x ensures RankSum(notes[..i + 1], x) == RankSum(notes[..i], x) + if x == d then Rrf(i) else 0.0 {
      RankSumPush(notes, i, x);
    }
  }

  lemma RankSumPush(s: seq<Doc>, i: nat, d: Doc)
    requires i < |s|
    ensures RankSum(s[..i + 1], d) == RankSum(s[..i], d) + if d == s[i] then Rrf(i) else 0.0
  {
    assert s[..i + 1][..i] == s[..i];
  }

  lemma {:induction false} RankSumAbsent(s: seq<Doc>, d: Doc)
    ensures d !in s ==> RankSum(s, d) == 0.0
  {
    if s != [] {
      RankSumAbsent(s[..|s| - 1], d);
    }
  }

  /** No document appears twice. */
  lemma EachOnce(lexical: seq<Doc>, notes: seq<Doc>, out: seq<Fused>)
    requires IsFusion(lexical, notes, out)
    ensures forall i, j :: 0 <= i < j < |out| ==> out[i].doc != out[j].doc
  {
    hide RankSum, Before;
    forall i, j | 0 <= i < j < |out| ensures out[i].doc != out[j].doc {
      assert out[i] in out && out[j] in out && Before(out[i], out[j]);
      BeforeTotal(out[i], out[i]);
    }
  }

  /** The result is the same whatever order the map is drained in. */
  lemma {:induction false} FusionUnique(lexical: seq<Doc>, notes: seq<Doc>, a: seq<Fused>, b: seq<Fused>)
    requires IsFusion(lexical, notes, a) && IsFusion(lexical, notes, b)
    ensures a == b
  {
    hide Before, RankSum;
    forall e ensures e in a <==> e in b {
      assert e in a ==> e == EntryFor(lexical, notes, e.doc);
      assert e in b ==> e == EntryFor(lexical, notes, e.doc);
    }
    RankedUnique(a, b);
  }

  lemma {:induction false} RankedUnique(a: seq<Fused>, b: seq<Fused>)
    requires Ranked(a) && Ranked(b) && forall e :: e in a <==> e in b
    ensures a == b
  {
    hide Before;
    assert a != [] ==> a[0] in b;
    assert b != [] ==> b[0] in a;
    if a != [] {
      var x, y := a[|a| - 1], b[|b| - 1];
      assert x in b && y in a;
      LastIsLast(a, y);
      LastIsLast(b, x);
      BeforeTotal(x, y);
      assert x == y;
      var a', b' := a[..|a| - 1], b[..|b| - 1];
      assert a == a' + [x] && b == b' + [y];
      LastOnce(a);
      LastOnce(b);
      forall e ensures e in a' <==> e in b' {
        assert e in a <==> e in a' || e == x;
        assert e in b <==> e in b' || e == x;
      }
      RankedUnique(a', b');
    }
  }

  lemma LastIsLast(s: seq<Fused>, e: Fused)
    requires Ranked(s) && e in s
    ensures e == s[|s| - 1] || Before(e, s[|s| - 1])
  {
    var i :| 0 <= i < |s| && s[i] == e;
  }

  lemma LastOnce(s: seq<Fused>)
    requires Ranked(s) && s != []
    ensures s[|s| - 1] !in s[..|s| - 1]
  {
    var x := s[|s| - 1];
    if x in s[..|s| - 1] {
      var i :| 0 <= i < |s| - 1 && s[i] == x;
      BeforeTotal(x, x);
    }
  }

  // ── What the scores mean ───────────────────────────────────────────────────

  ghost predicate NoRepeats(s: seq<Doc>) {
    forall i, j :: 0 <= i < j < |s| ==> s[i] != s[j]
  }

  /** In a ranking without repeats a document contributes the reciprocal of its one rank. */
  lemma {:induction false} RankSumOnce(s: seq<Doc>, i: nat)
    requires NoRepeats(s) && i < |s|
    ensures RankSum(s, s[i]) == 1.0 / ((i + 61) as real) && RankSum(s, s[i]) == Rrf(i)
  {
    var front := s[..|s| - 1];
    if i == |s| - 1 {
      RankSumAbsent(front, s[i]);
    } else {
      RankSumOnce(front, i);
    }
  }

  lemma RrfFalls(i: nat, j: nat)
    requires i < j
    ensures Rrf(i) > Rrf(j) > 0.0
  {
    var x, y := (RRF_K + i + 1) as real, (RRF_K + j + 1) as real;
    assert 0.0 < x < y;
    Reciprocals(x, y);
  }

  lemma Reciprocals(x: real, y: real)
    requires 0.0 < x < y
    ensures 1.0 / x > 1.0 / y > 0.0
  {
    var p, q := 1.0 / x, 1.0 / y;
    assert p * x == 1.0 && q * y == 1.0;
    assert q > 0.0;
    assert p <= q ==> p * x <= q * x;
    assert q * x < q * y;
  }

  /** The first n characters agree, and then a ends or has the smaller one. */
  predicate ComesFirst(a: string, b: string, n: nat) {
    n <= |a| && n < |b| && a[..n] == b[..n] && (n == |a| || a[n] < b[n])
  }

  lemma {:induction false} LessMeans(a: string, b: string) returns (n: nat)
    requires Less(a, b)
    ensures ComesFirst(a, b, n)
  {
    if a == "" || a[0] < b[0] {
      n := 0;
    } else {
      n := LessMeans(a[1..], b[1..]);
      n := n + 1;
      assert a == [a[0]] + a[1..] && b == [b[0]] + b[1..];
      assert a[..n] == [a[0]] + a[1..][..n - 1] && b[..n] == [b[0]] + b[1..][..n - 1];
    }
  }

  /** Scores fall along the result; of two equal ones the smaller id comes first, and a note before an idea
      of the same id. */
  lemma TiesAreOrdered(lexical: seq<Doc>, notes: seq<Doc>, out: seq<Fused>, i: nat, j: nat)
    requires IsFusion(lexical, notes, out) && i < j < |out|
    ensures out[i].score >= out[j].score
    ensures out[i].score == out[j].score ==>
      || (out[i].doc.refId == out[j].doc.refId && out[i].doc.kind == Note && out[j].doc.kind == Idea)
      || exists n: nat :: ComesFirst(out[i].doc.refId, out[j].doc.refId, n)
  {
    assert Before(out[i], out[j]);
    if Less(out[i].doc.refId, out[j].doc.refId) {
      var n := LessMeans(out[i].doc.refId, out[j].doc.refId);
    }
  }

  /** One ranking alone passes through unchanged. */
  lemma OneListPassesThrough(lexical: seq<Doc>, notes: seq<Doc>, out: seq<Fused>)
    requires NoRepeats(lexical) && NoRepeats(notes) && (lexical == [] || notes == []) && IsFusion(lexical, notes, out)
    ensures |out| == |lexical + notes| && forall i :: 0 <= i < |out| ==> out[i].doc == (lexical + notes)[i]
  {
    var list := lexical + notes;
    assert list == lexical || list == notes;
    var expected := seq(|list|, i requires 0 <= i < |list| => EntryFor(lexical, notes, list[i]));
    forall i | 0 <= i < |list| ensures expected[i].score == Rrf(i) {
      OneListScore(lexical, notes, i);
    }
    hide RankSum, Rrf, Less, EntryFor;
    OneListInOrder(lexical, notes, expected);
    FusionUnique(lexical, notes, out, expected);
    forall i | 0 <= i < |list| ensures expected[i].doc == list[i] {
      EntryDoc(lexical, notes, list[i]);
    }
  }

  lemma EntryDoc(lexical: seq<Doc>, notes: seq<Doc>, d: Doc)
    ensures EntryFor(lexical, notes, d).doc == d
  {
  }

  lemma OneListScore(lexical: seq<Doc>, notes: seq<Doc>, i: nat)
    requires NoRepeats(lexical) && NoRepeats(notes) && (lexical == [] || notes == []) && i < |lexical + notes|
    ensures EntryFor(lexical, notes, (lexical + notes)[i]).score == Rrf(i)
  {
    var list := lexical + notes;
    assert list == lexical || list == notes;
    RankSumOnce(list, i);
    RankSumAbsent(lexical, list[i]);
    RankSumAbsent(notes, list[i]);
  }

  lemma OneListInOrder(lexical: seq<Doc>, notes: seq<Doc>, expected: seq<Fused>)
    requires |expected| == |lexical + notes|
    requires forall i :: 0 <= i < |expected| ==>
      expected[i] == EntryFor(lexical, notes, (lexical + notes)[i]) && expected[i].score == Rrf(i)
    ensures IsFusion(lexical, notes, expected)
  {
    var list := lexical + notes;
    hide RankSum, Rrf, Less;
    forall i, j | 0 <= i < j < |expected| ensures Before(expected[i], expected[j]) {
      RrfFalls(i, j);
    }
    forall d | d in lexical || d in notes ensures EntryFor(lexical, notes, d) in expected {
      assert d in list;
      var i :| 0 <= i < |list| && list[i] == d;
      assert expected[i] == EntryFor(lexical, notes, d);
    }
    forall e | e in expected ensures e == EntryFor(lexical, notes, e.doc) && (e.doc in lexical || e.doc in notes) {
      var i :| 0 <= i < |expected| && expected[i] == e;
    }
  }

  /** A document in both rankings comes before any document that is in one ranking only, at no better
      a rank than the first has in some ranking. */
  lemma AgreementWins(lexical: seq<Doc>, notes: seq<Doc>, i: nat, j: nat, e: Doc, m: nat)
    requires NoRepeats(lexical) && NoRepeats(notes)
    requires i < |lexical| && j < |notes| && lexical[i] == notes[j]
    requires (m < |lexical| && lexical[m] == e && e !in notes) || (m < |notes| && notes[m] == e && e !in lexical)
    requires i <= m || j <= m
    ensures Before(EntryFor(lexical, notes, lexical[i]), EntryFor(lexical, notes, e))
  {
    RankSumOnce(lexical, i);
    RankSumOnce(notes, j);
    RankSumAbsent(lexical, e);
    RankSumAbsent(notes, e);
    if m < |lexical| && lexical[m] == e {
      RankSumOnce(lexical, m);
    } else {
      RankSumOnce(notes, m);
    }
    hide RankSum, Rrf, Less;
    RrfFalls(i, i + 1);
    RrfFalls(j, j + 1);
    if i < m {
      RrfFalls(i, m);
    }
    if j < m {
      RrfFalls(j, m);
    }
  }
}
