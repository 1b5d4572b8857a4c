/** Fuzzy term matching: the two-row edit distance and the weight of a query term in a field. */
module SearchModel {

  // ── Edit distance ──────────────────────────────────────────────────────────

  function Min(a: nat, b: nat): nat {
    if a < b then a else b
  }

  function Cost(x: char, y: char): nat {
    if x == y then 0 else 1
  }

  /** The recursive edit distance, peeling the last characters. */
  function Distance(a: string, b: string): nat
    decreases |a| + |b|
  {
    if a == "" then |b|
    else if b == "" then |a|
    else
      var a', b' := a[..|a| - 1], b[..|b| - 1];
      Min(Min(Distance(a', b) + 1, Distance(a, b') + 1), Distance(a', b') + Cost(a[|a| - 1], b[|b| - 1]))
  }

  /** The two rows of the table, overwritten and swapped in place. */
  method Levenshtein(a: string, b: string) returns (d: nat)
    ensures d == Distance(a, b)
  {
    if a == "" {
      return |b|;
    }
    if b == "" {
      return |a|;
    }
    hide Distance;
    var prev := new nat[|b| + 1](j => j);
    var curr := new nat[|b| + 1](_ => 0);
    forall j | 0 <= j <= |b| ensures Distance(a[..0], b[..j]) == j {
      DistanceEdge(a[..0], b[..j]);
    }
    for i := 0 to |a|
      invariant prev.Length == |b| + 1 && curr.Length == |b| + 1 && prev != curr
      invariant fresh(prev) && fresh(curr)
      invariant forall j :: 0 <= j <= |b| ==> prev[j] == Distance(a[..i], b[..j])
    {
      FillRow(a, b, i, prev, curr);
      prev, curr := curr, prev;
    }
    assert a[..|a|] == a && b[..|b|] == b;
    return prev[|b|];
  }

  /** Overwrite the current row of the table from the previous one. */
  method FillRow(a: string, b: string, i: nat, prev: array<nat>, curr: array<nat>)
    requires i < |a| && prev.Length == |b| + 1 && curr.Length == |b| + 1 && prev != curr
    requires forall j :: 0 <= j <= |b| ==> prev[j] == Distance(a[..i], b[..j])
    modifies curr
    ensures forall j :: 0 <= j <= |b| ==> curr[j] == Distance(a[..i + 1], b[..j])
  {
    hide Distance;
    curr[0] := i + 1;
    DistanceEdge(a[..i + 1], b[..0]);
    for j := 0 to |b|
      invariant forall m :: 0 <= m <= j ==> curr[m] == Distance(a[..i + 1], b[..m])
    {
      DistanceStep(a, b, i, j);
      var cost := if a[i] == b[j] then 0 else 1;
      curr[j + 1] := Min(Min(prev[j + 1] + 1, curr[j] + 1), prev[j] + cost);
    }
  }

  lemma DistanceEdge(a: string, b: string)
    ensures a == "" ==> Distance(a, b) == |b|
    ensures b == "" ==> Distance(a, b) == |a|
  {
  }

  lemma DistanceStep(a: string, b: string, i: nat, j: nat)
    requires i < |a| && j < |b|
    ensures Distance(a[..i + 1], b[..j + 1]) ==
      Min(Min(Distance(a[..i], b[..j + 1]) + 1, Distance(a[..i + 1], b[..j]) + 1), Distance(a[..i], b[..j]) + Cost(a[i], b[j]))
  {
    assert a[..i + 1][..i] == a[..i] && b[..j + 1][..j] == b[..j];
  }

  /** Between the difference of the lengths and the longer length. */
  lemma {:induction false} DistanceBounds(a: string, b: string)
    ensures |a| - |b| <= Distance(a, b) && |b| - |a| <= Distance(a, b)
    ensures Distance(a, b) <= if |a| < |b| then |b| else |a|
    decreases |a| + |b|
  {
    if a != "" && b != "" {
      var a', b' := a[..|a| - 1], b[..|b| - 1];
      DistanceBounds(a', b);
      DistanceBounds(a, b');
      DistanceBounds(a', b');
    }
  }

  lemma {:induction false} DistanceSymmetric(a: string, b: string)
    ensures Distance(a, b) == Distance(b, a)
    decreases |a| + |b|
  {
    if a != "" && b != "" {
      var a', b' := a[..|a| - 1], b[..|b| - 1];
      DistanceSymmetric(a', b);
      DistanceSymmetric(a, b');
      DistanceSymmetric(a', b');
    }
  }

  lemma {:induction false} DistanceZero(a: string, b: string)
    ensures Distance(a, b) == 0 <==> a == b
    decreases |a| + |b|
  {
    if a != "" && b != "" {
      var a', b' := a[..|a| - 1], b[..|b| - 1];
      DistanceZero(a', b');
      assert a == a' + [a[|a| - 1]] && b == b' + [b[|b| - 1]];
    }
  }

  lemma {:induction false} DistanceTriangle(a: string, b: string, c: string)
    ensures Distance(a, c) <= Distance(a, b) + Distance(b, c)
    decreases |a| + |b| + |c|
  {
    DistanceBounds(a, b);
    DistanceBounds(b, c);
    DistanceBounds(a, c);
    if a != "" && b != "" && c != "" {
      var a', b', c' := a[..|a| - 1], b[..|b| - 1], c[..|c| - 1];
      DistanceTriangle(a', b, c);
      DistanceTriangle(a, b', c);
      DistanceTriangle(a, b, c');
      DistanceTriangle(a', b', c);
      DistanceTriangle(a, b', c');
      DistanceTriangle(a', b', c');
    }
  }

  // ── Edit scripts ───────────────────────────────────────────────────────────

  datatype Edit = Insert(at: nat, c: char) | Delete(at: nat) | Replace(at: nat, c: char)

  predicate Applies(s: string, e: Edit) {
    if e.Insert? then e.at <= |s| else e.at < |s|
  }

  function Apply(s: string, e: Edit): string
    requires Applies(s, e)
  {
    match e
    case Insert(i, c) => s[..i] + [c] + s[i..]
    case Delete(i) => s[..i] + s[i + 1..]
    case Replace(i, c) => s[..i] + [c] + s[i + 1..]
  }

  /** The script turns s into t, one edit after another. */
  ghost predicate Turns(s: string, es: seq<Edit>, t: string)
    decreases |es|
  {
    if es == [] then s == t else Applies(s, es[0]) && Turns(Apply(s, es[0]), es[1..], t)
  }

  /** A common ending costs nothing. */
  lemma {:induction false} CommonEnding(a: string, b: string, z: string)
    ensures Distance(a + z, b + z) <= Distance(a, b)
    decreases |z|
  {
    if z == "" {
      assert a + z == a && b + z == b;
    } else {
      var z' := z[..|z| - 1];
      CommonEnding(a, b, z');
      assert (a + z)[..|a + z| - 1] == a + z' && (b + z)[..|b + z| - 1] == b + z';
    }
  }

  lemma OneMore(u: string, c: char)
    ensures Distance(u, u + [c]) <= 1 && Distance(u + [c], u) <= 1
  {
    DistanceZero(u, u);
    assert (u + [c])[..|u|] == u;
  }

  lemma OneOther(u: string, c: char, d: char)
    ensures Distance(u + [c], u + [d]) <= 1
  {
    DistanceZero(u, u);
    assert (u + [c])[..|u|] == u && (u + [d])[..|u|] == u;
  }

  lemma OneEdit(s: string, e: Edit)
    requires Applies(s, e)
    ensures Distance(s, Apply(s, e)) <= 1
  {
    hide Distance;
    var u, i := s[..e.at], e.at;
    match e
    case Insert(_, c) =>
      OneMore(u, c);
      CommonEnding(u, u + [c], s[i..]);
      assert s == u + s[i..];
    case Delete(_) =>
      OneMore(u, s[i]);
      CommonEnding(u + [s[i]], u, s[i + 1..]);
      assert s == u + [s[i]] + s[i + 1..];
    case Replace(_, c) =>
      OneOther(u, s[i], c);
      CommonEnding(u + [s[i]], u + [c], s[i + 1..]);
      assert s == u + [s[i]] + s[i + 1..];
  }

  /** No script is shorter than the distance. */
  lemma {:induction false} NoShorterScript(a: string, es: seq<Edit>, b: string)
    requires Turns(a, es, b)
    ensures Distance(a, b) <= |es|
    decreases |es|
  {
    if es == [] {
      DistanceZero(a, b);
    } else {
      var m := Apply(a, es[0]);
      OneEdit(a, es[0]);
      NoShorterScript(m, es[1..], b);
      DistanceTriangle(a, m, b);
    }
  }

  lemma EditOnPrefix(a: string, e: Edit, z: string)
    requires Applies(a, e)
    ensures Applies(a + z, e) && Apply(a + z, e) == Apply(a, e) + z
  {
    assert (a + z)[..e.at] == a[..e.at];
    assert e.Insert? ==> (a + z)[e.at..] == a[e.at..] + z;
    assert !e.Insert? ==> (a + z)[e.at + 1..] == a[e.at + 1..] + z;
  }

  /** A script on a prefix leaves what follows in place. */
  lemma {:induction false} ScriptOnPrefix(a: string, es: seq<Edit>, b: string, z: string)
    requires Turns(a, es, b)
    ensures Turns(a + z, es, b + z)
    decreases |es|
  {
    hide Apply, Applies;
    if es != [] {
      EditOnPrefix(a, es[0], z);
      ScriptOnPrefix(Apply(a, es[0]), es[1..], b, z);
    }
  }

  lemma {:induction false} ThenOne(a: string, es: seq<Edit>, b: string, e: Edit)
    requires Turns(a, es, b) && Applies(b, e)
    ensures Turns(a, es + [e], Apply(b, e))
    decreases |es|
  {
    if es == [] {
      assert (es + [e])[1..] == [];
    } else {
      ThenOne(Apply(a, es[0]), es[1..], b, e);
      assert (es + [e])[1..] == es[1..] + [e];
    }
  }

  /** Some script is as short as the distance. */
  lemma {:induction false} ShortestScript(a: string, b: string) returns (es: seq<Edit>)
    ensures Turns(a, es, b) && |es| == Distance(a, b)
    decreases |a| + |b|
  {
    if a == "" && b == "" {
      es := [];
    } else if b == "" {
      es := DeleteLast(a, b);
    } else if a == "" {
      es := InsertLast(a, b);
    } else {
      if Distance(a, b) == Distance(a[..|a| - 1], b) + 1 {
        es := DeleteLast(a, b);
      } else if Distance(a, b) == Distance(a, b[..|b| - 1]) + 1 {
        es := InsertLast(a, b);
      } else {
        es := KeepLast(a, b);
      }
    }
  }

  lemma {:induction false} KeepLast(a: string, b: string) returns (es: seq<Edit>)
    requires a != "" && b != ""
    requires Distance(a, b) == Distance(a[..|a| - 1], b[..|b| - 1]) + Cost(a[|a| - 1], b[|b| - 1])
    ensures Turns(a, es, b) && |es| == Distance(a, b)
    decreases |a| + |b|, 0
  {
    hide Distance, Turns;
    var a', b', x, y := a[..|a| - 1], b[..|b| - 1], a[|a| - 1], b[|b| - 1];
    es := ShortestScript(a', b');
    ScriptOnPrefix(a', es, b', [x]);
    assert a == a' + [x] && b == b' + [y];
    if x != y {
      ThenOne(a, es, b' + [x], Replace(|b'|, y));
      assert Apply(b' + [x], Replace(|b'|, y)) == b;
      es := es + [Replace(|b'|, y)];
    }
  }

  lemma {:induction false} DeleteLast(a: string, b: string) returns (es: seq<Edit>)
    requires a != "" && Distance(a, b) == Distance(a[..|a| - 1], b) + 1
    ensures Turns(a, es, b) && |es| == Distance(a, b)
    decreases |a| + |b|, 0
  {
    hide Distance, Turns;
    var a', x := a[..|a| - 1], a[|a| - 1];
    es := ShortestScript(a', b);
    ScriptOnPrefix(a', es, b, [x]);
    assert a == a' + [x];
    ThenOne(a, es, b + [x], Delete(|b|));
    assert Apply(b + [x], Delete(|b|)) == b;
    es := es + [Delete(|b|)];
  }

  lemma {:induction false} InsertLast(a: string, b: string) returns (es: seq<Edit>)
    requires b != "" && Distance(a, b) == Distance(a, b[..|b| - 1]) + 1
    ensures Turns(a, es, b) && |es| == Distance(a, b)
    decreases |a| + |b|, 0
  {
    hide Distance, Turns;
    var b', y := b[..|b| - 1], b[|b| - 1];
    es := ShortestScript(a, b');
    ThenOne(a, es, b', Insert(|b'|, y));
    assert Apply(b', Insert(|b'|, y)) == b;
    es := es + [Insert(|b'|, y)];
  }

  // ── Term weights ───────────────────────────────────────────────────────────

  const PREFIX_WEIGHT := 0.375
  const FUZZY_WEIGHT := 0.45
  const MAX_FUZZY: nat := 6

  /** A fifth of the length, rounded half up, at most six. */
  function FuzzyMaxDistance(term: string): nat {
    Min((2 * |term| + 5) / 10, MAX_FUZZY)
  }

  /** The weight of one indexed term; a prefix match is never also a fuzzy one. */
  function Weight(query: string, term: string): real {
    if term == query then 1.0
    else if query <= term then
      PREFIX_WEIGHT * (|term| as real) / (|term| as real + 0.3 * ((|term| - |query|) as real))
    else
      var d := Distance(query, term);
      if 0 < d <= FuzzyMaxDistance(query) then FUZZY_WEIGHT * (|term| as real) / ((|term| + d) as real) else 0.0
  }

  /** A term matches when it extends the query or is within the fuzzy distance. */
  predicate Matches(query: string, term: string) {
    query <= term || (term != "" && Distance(query, term) <= FuzzyMaxDistance(query))
  }

  lemma WeightBounds(query: string, term: string)
    requires query != ""
    ensures 0.0 <= Weight(query, term) <= 1.0
    ensures Weight(query, term) > 0.0 <==> Matches(query, term)
    ensures Weight(query, term) == 1.0 <==> term == query
  {
    DistanceZero(query, term);
    hide Distance;
    if term != query && query <= term {
      var len, gap := |term| as real, (|term| - |query|) as real;
      assert len > 0.0 && gap >= 0.0;
      FractionBelow(PREFIX_WEIGHT, len, 0.3 * gap);
    } else if term != query && term != "" {
      var len, d := |term| as real, Distance(query, term) as real;
      FractionBelow(FUZZY_WEIGHT, len, d);
    }
  }

  /** Up to two characters must match exactly; from three on one edit is allowed, and one more for every five
      further characters, up to six. */
  lemma AllowedDistance(query: string)
    ensures |query| < 3 ==> FuzzyMaxDistance(query) == 0
    ensures 3 <= |query| < 28 ==> FuzzyMaxDistance(query) == 1 + (|query| - 3) / 5
    ensures |query| >= 28 ==> FuzzyMaxDistance(query) == 6
  {
  }

  /** What a term weighs against the query: an extension three eighths, less three tenths of the share it
      adds, a near miss 0.45, less its distance over the length; all else nothing. */
  lemma WeightIs(query: string, term: string)
    requires query != "" && term != query
    ensures query <= term ==>
      Weight(query, term) * (|term| as real + (|term| - |query|) as real * 0.3) == (|term| as real) * 0.375
    ensures !(query <= term) && Distance(query, term) <= FuzzyMaxDistance(query) ==>
      Weight(query, term) * ((|term| + Distance(query, term)) as real) == (|term| as real) * 0.45
    ensures !(query <= term) && Distance(query, term) > FuzzyMaxDistance(query) ==> Weight(query, term) == 0.0
  {
    DistanceZero(query, term);
    var d, len, gap := Distance(query, term), |term| as real, (|term| - |query|) as real;
    hide Distance, FuzzyMaxDistance;
    if query <= term {
      ExtensionIs(query, term);
      hide Weight;
      Quotients(0.375, len, len + 0.3 * gap);
      assert len + gap * 0.3 == len + 0.3 * gap;
    } else if d <= FuzzyMaxDistance(query) {
      NearMissIs(query, term, d);
      hide Weight;
      Quotients(0.45, len, (|term| + d) as real);
    }
  }

  lemma ExtensionIs(query: string, term: string)
    requires query <= term && term != query
    ensures Weight(query, term) == 0.375 * (|term| as real) / (|term| as real + 0.3 * ((|term| - |query|) as real))
  {
    hide Distance;
  }

  lemma NearMissIs(query: string, term: string, d: nat)
    requires !(query <= term) && term != query && d == Distance(query, term) && 0 < d <= FuzzyMaxDistance(query)
    ensures Weight(query, term) == 0.45 * (|term| as real) / ((|term| + d) as real)
  {
    hide Distance, FuzzyMaxDistance;
  }

  lemma Quotients(w: real, len: real, y: real)
    requires y > 0.0
    ensures (w * len / y) * y == len * w
  {
    var x := w * len;
    assert x / y * y == x;
  }

  /** The longer of two extensions weighs less, and of two near misses of one length the farther one. */
  lemma WeightFalls(query: string, a: string, b: string)
    requires query != "" && a != query && b != query
    ensures query <= a && query <= b && |a| < |b| ==> Weight(query, a) > Weight(query, b)
    ensures !(query <= a) && !(query <= b) && |a| == |b| > 0 && Distance(query, a) < Distance(query, b) <= FuzzyMaxDistance(query) ==>
      Weight(query, a) > Weight(query, b)
  {
    DistanceZero(query, a);
    var q, m, n, d, e := |query| as real, |a| as real, |b| as real, Distance(query, a), Distance(query, b);
    hide Distance, FuzzyMaxDistance, Weight;
    if query <= a && query <= b && |a| < |b| {
      ExtensionIs(query, a);
      ExtensionIs(query, b);
      assert (|a| - |query|) as real == m - q && (|b| - |query|) as real == n - q;
      LongerWeighsLess(q, m, n, m + 0.3 * (m - q), n + 0.3 * (n - q));
    } else if !(query <= a) && !(query <= b) && |a| == |b| > 0 && d < e <= FuzzyMaxDistance(query) {
      NearMissIs(query, a, d);
      NearMissIs(query, b, e);
      FartherWeighsLess(0.45 * m, (|a| + d) as real, (|b| + e) as real);
    }
  }

  lemma FartherWeighsLess(x: real, y: real, z: real)
    requires x > 0.0 && 0.0 < y < z
    ensures x / y > x / z
  {
    var p, q := x / y, x / z;
    assert p * y == x && q * z == x;
    if p <= q {
      Larger(p, q, y, z);
    }
  }

  lemma Larger(p: real, q: real, y: real, z: real)
    requires 0.0 < p <= q && 0.0 < y < z
    ensures p * y < q * z
  {
    assert p * y <= q * y;
    assert q * y < q * z;
  }

  lemma LongerWeighsLess(q: real, m: real, n: real, y: real, z: real)
    requires 0.0 < q <= m < n && y == m + 0.3 * (m - q) && z == n + 0.3 * (n - q)
    ensures 0.375 * m / y > 0.375 * n / z
  {
    var a, b := 0.375 * m / y, 0.375 * n / z;
    Quotients(0.375, m, y);
    Quotients(0.375, n, z);
    Cross(q, m, n, y, z);
    if a <= b {
      CrossFails(a, b, y, z, m, n);
    }
  }

  /** m/y > n/z, multiplied out. */
  lemma Cross(q: real, m: real, n: real, y: real, z: real)
    requires 0.0 < q && m < n && y == m + 0.3 * (m - q) && z == n + 0.3 * (n - q)
    ensures m * z > n * y
  {
    var k := q * (n - m);
    Positive(q, n - m);
    assert m * z == 1.3 * (m * n) - 0.3 * (m * q);
    assert n * y == 1.3 * (m * n) - 0.3 * (n * q);
    assert k == n * q - m * q;
  }

  lemma CrossFails(a: real, b: real, y: real, z: real, m: real, n: real)
    requires y > 0.0 && z > 0.0 && a * y == m * 0.375 && b * z == n * 0.375 && a <= b
    ensures m * z <= n * y
  {
    var area := y * z;
    Positive(y, z);
    Scaled(a, b, area);
    assert a * area == (a * y) * z == 0.375 * (m * z);
    assert b * area == (b * z) * y == 0.375 * (n * y);
  }

  lemma Scaled(a: real, b: real, area: real)
    requires a <= b && area > 0.0
    ensures a * area <= b * area
  {
  }

  lemma FractionBelow(w: real, len: real, extra: real)
    requires 0.0 < w < 1.0 && len > 0.0 && extra >= 0.0
    ensures 0.0 < w * len / (len + extra) < 1.0
  {
    var x, y := w * len, len + extra;
    Below(w, len, x);
    Quotient(x, y);
    assert w * len / (len + extra) == x / y;
  }

  lemma Below(w: real, len: real, x: real)
    requires 0.0 < w < 1.0 && len > 0.0 && x == w * len
    ensures 0.0 < x < len
  {
    Positive(w, len);
    Positive(1.0 - w, len);
    Distribute(w, len);
    var rest := (1.0 - w) * len;
    assert rest > 0.0 && rest == len - x;
  }

  lemma Distribute(w: real, len: real)
    ensures (1.0 - w) * len == len - w * len
  {
  }

  lemma Positive(a: real, b: real)
    requires a > 0.0 && b > 0.0
    ensures a * b > 0.0
  {
  }

  lemma AtLeast(q: real, y: real)
    requires q >= 1.0 && y > 0.0
    ensures q * y >= y
  {
    Distribute(q, y);
    if q > 1.0 {
      Positive(q - 1.0, y);
      var more := (q - 1.0) * y;
      assert more > 0.0 && more == -((1.0 - q) * y);
    }
  }

  lemma Quotient(x: real, y: real)
    requires 0.0 < x < y
    ensures 0.0 < x / y < 1.0
  {
    var q := x / y;
    assert q * y == x;
    if q >= 1.0 {
      AtLeast(q, y);
    }
  }

  /** The best weight over a field: reached by some term, exceeded by none, positive exactly when some
      term matches and 1 exactly when the query itself occurs. */
  method BestFieldWeight(query: string, terms: seq<string>) returns (best: real)
    requires query != ""
    ensures forall t :: t in terms ==> Weight(query, t) <= best
    ensures best == 0.0 || exists t :: t in terms && Weight(query, t) == best
    ensures best > 0.0 <==> exists t :: t in terms && Matches(query, t)
    ensures best == 1.0 <==> query in terms
  {
    hide Weight, Matches;
    best := 0.0;
    for i := 0 to |terms|
      invariant 0.0 <= best <= 1.0
      invariant forall t :: t in terms[..i] ==> Weight(query, t) <= best
      invariant best == 0.0 || exists t :: t in terms[..i] && Weight(query, t) == best
    {
      assert terms[..i + 1] == terms[..i] + [terms[i]];
      var w := TermWeight(query, terms[i]);
      WeightBounds(query, terms[i]);
      if w > best {
        best := w;
      }
    }
    assert terms[..|terms|] == terms;
    forall t ensures Weight(query, t) > 0.0 <==> Matches(query, t) {
      WeightBounds(query, t);
    }
    WeightBounds(query, query);
    forall t | Weight(query, t) == 1.0 ensures t == query {
      WeightBounds(query, t);
    }
  }

  method TermWeight(query: string, term: string) returns (w: real)
    requires query != ""
    ensures w == Weight(query, term)
  {
    if term == query {
      return 1.0;
    }
    if query <= term {
      return PREFIX_WEIGHT * (|term| as real) / (|term| as real + 0.3 * ((|term| - |query|) as real));
    }
    var d := Levenshtein(query, term);
    if 0 < d <= FuzzyMaxDistance(query) {
      return FUZZY_WEIGHT * (|term| as real) / ((|term| + d) as real);
    }
    return 0.0;
  }
}
