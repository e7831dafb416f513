/** Sparse subject and object vectors: dimensions, normalisation and the cosine bound,
    over real arithmetic. */
module SparseVectors {

  import opened Wrappers

  const MAX_SPARSE_INDEX: nat := 0xFFFF_FFFF

  /** Narrow a numeric id to a 32-bit dimension, or say that it does not fit. */
  function SparseIndex(id: nat): (r: Option<nat>)
    ensures r.Some? <==> id <= MAX_SPARSE_INDEX
    ensures r.Some? ==> r.value == id
  {
    if id > MAX_SPARSE_INDEX then None else Some(id)
  }

  datatype Entry = Entry(index: nat, value: real)

  datatype Sparse = Sparse(indices: seq<nat>, values: seq<real>)

  predicate WellFormed(v: Sparse) {
    && |v.indices| == |v.values|
    && (forall j, k :: 0 <= j < k < |v.indices| ==> v.indices[j] < v.indices[k])
    && (forall k :: 0 <= k < |v.indices| ==> v.indices[k] <= MAX_SPARSE_INDEX)
  }

  function Times(x: real, y: real): real {
    x * y
  }

  function Sq(x: real): real {
    Times(x, x)
  }

  function SumSq(xs: seq<real>): (r: real)
    ensures r >= 0.0
  {
    if xs == [] then 0.0 else SumSq(xs[..|xs| - 1]) + Sq(xs[|xs| - 1])
  }

  /** Unit length, or the zero vector. */
  predicate UnitOrZero(xs: seq<real>) {
    SumSq(xs) == 1.0 || forall k :: 0 <= k < |xs| ==> xs[k] == 0.0
  }

  // ------------------------------------------------ l2Normalize

  ghost predicate SquareRoot(sqrt: real -> real) {
    forall x :: x >= 0.0 ==> sqrt(x) >= 0.0 && Sq(sqrt(x)) == x
  }

  function Scaled(xs: seq<real>, norm: real): seq<real>
    requires norm != 0.0
  {
    seq(|xs|, k requires 0 <= k < |xs| => xs[k] / norm)
  }

  lemma QuotientSquared(x: real, n: real, q: real)
    requires n != 0.0 && q == Sq(n)
    ensures Sq(x / n) * q == Sq(x)
  {
    var y := x / n;
    assert y * n == x;
    assert y * y * (n * n) == (y * n) * (y * n);
  }

  lemma {:induction false} ScaledSumSq(xs: seq<real>, n: real, q: real)
    requires n != 0.0 && q == Sq(n)
    ensures SumSq(Scaled(xs, n)) * q == SumSq(xs)
  {
    if xs != [] {
      var init, last := xs[..|xs| - 1], xs[|xs| - 1];
      ScaledSumSq(init, n, q);
      QuotientSquared(last, n, q);
      assert Scaled(xs, n)[..|xs| - 1] == Scaled(init, n);
      var a, b := SumSq(Scaled(init, n)), Sq(last / n);
      assert (a + b) * q == a * q + b * q;
    }
  }

  lemma {:induction false} ZeroSumSq(xs: seq<real>)
    ensures SumSq(xs) == 0.0 <==> forall k :: 0 <= k < |xs| ==> xs[k] == 0.0
  {
    if xs != [] {
      var init, last := xs[..|xs| - 1], xs[|xs| - 1];
      ZeroSumSq(init);
      assert forall k :: 0 <= k < |init| ==> init[k] == xs[k];
      if last != 0.0 {
        SumPositive(SumSq(init), last);
        assert xs[|xs| - 1] != 0.0;
      }
    }
  }

  lemma SumPositive(s: real, x: real)
    requires s >= 0.0 && x != 0.0
    ensures s + Sq(x) > 0.0
  {
    SquarePositive(x);
  }

  lemma SquareNonNegative(x: real)
    ensures Sq(x) >= 0.0
  {
    if x != 0.0 {
      SquarePositive(x);
    }
  }

  lemma SquarePositive(x: real)
    requires x != 0.0
    ensures Sq(x) > 0.0
  {
    if x > 0.0 {
      PositiveSquare(x);
    } else {
      SquareOfNegation(x);
      PositiveSquare(-x);
    }
  }

  lemma PositiveSquare(x: real)
    requires x > 0.0
    ensures Sq(x) > 0.0
  {
    PositiveProduct(x, x);
  }

  lemma PositiveProduct(x: real, y: real)
    requires x > 0.0 && y > 0.0
    ensures Times(x, y) > 0.0
  {
  }

  lemma SquareOfNegation(x: real)
    ensures Sq(-x) == Sq(x)
  {
  }

  lemma CancelFactor(s: real, q: real, total: real)
    requires q > 0.0 && s * q == total && total == q
    ensures s == 1.0
  {
    assert (s - 1.0) * q == 0.0;
  }

  lemma ScaledIsUnit(xs: seq<real>, norm: real, q: real)
    requires norm > 0.0 && q == Sq(norm) && q == SumSq(xs) && q > 0.0
    ensures SumSq(Scaled(xs, norm)) == 1.0
  {
    ScaledSumSq(xs, norm, q);
    CancelFactor(SumSq(Scaled(xs, norm)), q, SumSq(xs));
  }

  /** Scale in place to unit norm; a zero vector stays zero. */
  method L2Normalize(values: array<real>, sqrt: real -> real) returns (norm: real)
    requires SquareRoot(sqrt)
    modifies values
    ensures norm >= 0.0 && Sq(norm) == SumSq(old(values[..]))
    ensures values[..] == if norm == 0.0 then old(values[..]) else Scaled(old(values[..]), norm)
    ensures UnitOrZero(values[..])
  {
    var sum := 0.0;
    for i := 0 to values.Length
      invariant sum == SumSq(values[..i])
    {
      assert values[..i + 1][..i] == values[..i];
      sum := sum + Sq(values[i]);
    }
    assert values[..values.Length] == values[..];
    norm := sqrt(sum);
    ZeroSumSq(values[..]);
    if norm != 0.0 {
      SquarePositive(norm);
    }
    if sum == 0.0 {
      return;
    }
    ghost var was := values[..];
    for i := 0 to values.Length
      invariant values[..i] == Scaled(was, norm)[..i] && values[i..] == was[i..]
    {
      values[i] := values[i] / norm;
    }
    assert values[..] == Scaled(was, norm);
    ScaledIsUnit(was, norm, sum);
  }

  // ------------------------------------------------ sorting by dimension

  predicate SortedByIndex(es: seq<Entry>) {
    forall j, k :: 0 <= j < k < |es| ==> es[j].index <= es[k].index
  }

  predicate DistinctIndices(es: seq<Entry>) {
    forall j, k :: 0 <= j < k < |es| ==> es[j].index != es[k].index
  }

  /** Insert before the first entry of a larger index. */
  method InsertByIndex(es: seq<Entry>, e: Entry) returns (r: seq<Entry>)
    requires SortedByIndex(es)
    ensures SortedByIndex(r) && multiset(r) == multiset(es) + multiset{e}
  {
    var k := 0;
    while k < |es| && es[k].index <= e.index
      invariant 0 <= k <= |es| && forall j :: 0 <= j < k ==> es[j].index <= e.index
    {
      k := k + 1;
    }
    r := es[..k] + [e] + es[k..];
    assert es == es[..k] + es[k..];
  }

  method SortEntries(es: seq<Entry>) returns (r: seq<Entry>)
    ensures SortedByIndex(r) && multiset(r) == multiset(es)
  {
    r := [];
    for k := 0 to |es|
      invariant SortedByIndex(r) && multiset(r) == multiset(es[..k])
    {
      assert es[..k + 1] == es[..k] + [es[k]];
      r := InsertByIndex(r, es[k]);
    }
    assert es[..|es|] == es;
  }

  // ------------------------------------------------ sparseVectorFrom

  /** Sort by dimension, split into the parallel slices, normalise: strictly increasing
      dimensions, exactly the given ones, each value divided by one common norm. */
  method SparseVectorFrom(entries: seq<Entry>, sqrt: real -> real) returns (v: Sparse, norm: real)
    requires SquareRoot(sqrt) && DistinctIndices(entries)
    requires forall k :: 0 <= k < |entries| ==> entries[k].index <= MAX_SPARSE_INDEX
    ensures WellFormed(v) && UnitOrZero(v.values) && norm >= 0.0
    ensures forall e :: e in entries ==> Has(v, e, norm)
    ensures |v.indices| == |entries| && forall i :: i in v.indices ==> exists e :: e in entries && e.index == i
  {
    var sorted := SortEntries(entries);
    SortedStrictly(entries, sorted);
    var values := new real[|sorted|](k requires 0 <= k < |sorted| => sorted[k].value);
    assert values[..] == Values(sorted);
    norm := L2Normalize(values, sqrt);
    v := Sparse(Indices(sorted), values[..]);
    CarriesEntries(entries, sorted, v, norm);
  }

  function Indices(es: seq<Entry>): seq<nat> {
    seq(|es|, k requires 0 <= k < |es| => es[k].index)
  }

  function Values(es: seq<Entry>): seq<real> {
    seq(|es|, k requires 0 <= k < |es| => es[k].value)
  }

  lemma CarriesEntries(entries: seq<Entry>, sorted: seq<Entry>, v: Sparse, norm: real)
    requires multiset(sorted) == multiset(entries) && forall e :: e in sorted <==> e in entries
    requires forall j, k :: 0 <= j < k < |sorted| ==> sorted[j].index < sorted[k].index
    requires forall k :: 0 <= k < |entries| ==> entries[k].index <= MAX_SPARSE_INDEX
    requires v.indices == Indices(sorted) && v.values == if norm == 0.0 then Values(sorted) else Scaled(Values(sorted), norm)
    ensures WellFormed(v) && |v.indices| == |entries|
    ensures forall e :: e in entries ==> Has(v, e, norm)
    ensures forall i :: i in v.indices ==> exists e :: e in entries && e.index == i
  {
    assert |multiset(sorted)| == |multiset(entries)|;
    forall k | 0 <= k < |sorted| ensures sorted[k] in entries {
      assert sorted[k] in sorted;
    }
    forall e | e in entries ensures Has(v, e, norm) {
      assert e in sorted;
      var k :| 0 <= k < |sorted| && sorted[k] == e;
      CarriesEntry(sorted, v, norm, k);
    }
    forall i | i in v.indices ensures exists e :: e in entries && e.index == i {
      var k :| 0 <= k < |v.indices| && v.indices[k] == i;
      assert sorted[k].index == i && sorted[k] in entries;
    }
  }

  lemma CarriesEntry(sorted: seq<Entry>, v: Sparse, norm: real, k: nat)
    requires k < |sorted| && v.indices == Indices(sorted) && v.values == if norm == 0.0 then Values(sorted) else Scaled(Values(sorted), norm)
    ensures Has(v, sorted[k], norm)
  {
    assert v.indices[k] == sorted[k].index && Values(sorted)[k] == sorted[k].value;
  }

  /** v carries entry e, scaled by the norm (unscaled when the vector is zero). */
  predicate Has(v: Sparse, e: Entry, norm: real)
    requires |v.indices| == |v.values|
  {
    exists k :: 0 <= k < |v.indices| && v.indices[k] == e.index && v.values[k] == if norm == 0.0 then e.value else e.value / norm
  }

  lemma SortedStrictly(es: seq<Entry>, sorted: seq<Entry>)
    requires DistinctIndices(es) && SortedByIndex(sorted) && multiset(sorted) == multiset(es)
    ensures forall j, k :: 0 <= j < k < |sorted| ==> sorted[j].index < sorted[k].index
    ensures forall e :: e in sorted <==> e in es
  {
    forall e ensures e in sorted <==> e in es {
      assert e in multiset(sorted) <==> e in multiset(es);
    }
    forall j, k | 0 <= j < k < |sorted| ensures sorted[j].index < sorted[k].index {
      if sorted[j].index == sorted[k].index {
        assert sorted[j] in sorted && sorted[k] in sorted;
        var a :| 0 <= a < |es| && es[a] == sorted[j];
        var b :| 0 <= b < |es| && es[b] == sorted[k];
        assert a == b;
        Twice(sorted, j, k);
        Once(es, a);
      }
    }
  }

  lemma Twice(s: seq<Entry>, j: nat, k: nat)
    requires j < k < |s| && s[j] == s[k]
    ensures multiset(s)[s[j]] >= 2
  {
    assert s == s[..j] + [s[j]] + s[j + 1..k] + [s[k]] + s[k + 1..];
  }

  lemma Once(s: seq<Entry>, a: nat)
    requires a < |s| && DistinctIndices(s)
    ensures multiset(s)[s[a]] == 1
  {
    assert s == s[..a] + [s[a]] + s[a + 1..];
    assert s[a] !in s[..a] && s[a] !in s[a + 1..];
  }

  // ------------------------------------------------ the score

  /** Qdrant's sparse dot product from positions i and j on, as a merge of two sorted lists. */
  function Dot(u: Sparse, i: nat, v: Sparse, j: nat): real
    requires WellFormed(u) && WellFormed(v) && i <= |u.indices| && j <= |v.indices|
    decreases |u.indices| - i + |v.indices| - j
  {
    if i == |u.indices| || j == |v.indices| then 0.0
    else if u.indices[i] < v.indices[j] then Dot(u, i + 1, v, j)
    else if u.indices[i] > v.indices[j] then Dot(u, i, v, j + 1)
    else u.values[i] * v.values[j] + Dot(u, i + 1, v, j + 1)
  }

  function SumSqFrom(xs: seq<real>, i: nat): real
    requires i <= |xs|
    decreases |xs| - i
  {
    if i == |xs| then 0.0 else Sq(xs[i]) + SumSqFrom(xs, i + 1)
  }

  lemma {:induction false} SumSqSplit(xs: seq<real>, i: nat)
    requires i <= |xs|
    ensures SumSq(xs[..i]) + SumSqFrom(xs, i) == SumSq(xs)
    decreases |xs| - i
  {
    if i == |xs| {
      assert xs[..i] == xs;
    } else {
      SumSqSplit(xs, i + 1);
      assert xs[..i + 1][..i] == xs[..i];
    }
  }

  lemma ProductBound(x: real, y: real)
    ensures -(Sq(x) + Sq(y)) <= 2.0 * (x * y) <= Sq(x) + Sq(y)
  {
    SquareNonNegative(x - y);
    SquareNonNegative(x + y);
    assert Sq(x - y) == Sq(x) - 2.0 * (x * y) + Sq(y);
    assert Sq(x + y) == Sq(x) + 2.0 * (x * y) + Sq(y);
  }

  lemma {:induction false} DotWithin(u: Sparse, i: nat, v: Sparse, j: nat)
    requires WellFormed(u) && WellFormed(v) && i <= |u.indices| && j <= |v.indices|
    ensures SumSqFrom(u.values, i) >= 0.0 && SumSqFrom(v.values, j) >= 0.0
    ensures -(SumSqFrom(u.values, i) + SumSqFrom(v.values, j)) <= 2.0 * Dot(u, i, v, j)
            <= SumSqFrom(u.values, i) + SumSqFrom(v.values, j)
    decreases |u.indices| - i + |v.indices| - j
  {
    if i < |u.indices| && j < |v.indices| {
      if u.indices[i] < v.indices[j] {
        SquareNonNegative(u.values[i]);
        DotWithin(u, i + 1, v, j);
      } else if u.indices[i] > v.indices[j] {
        SquareNonNegative(v.values[j]);
        DotWithin(u, i, v, j + 1);
      } else {
        SquareNonNegative(u.values[i]);
        SquareNonNegative(v.values[j]);
        ProductBound(u.values[i], v.values[j]);
        DotWithin(u, i + 1, v, j + 1);
      }
    } else {
      TailNonNegative(u.values, i);
      TailNonNegative(v.values, j);
    }
  }

  lemma {:induction false} TailNonNegative(xs: seq<real>, i: nat)
    requires i <= |xs|
    ensures SumSqFrom(xs, i) >= 0.0
    decreases |xs| - i
  {
    if i < |xs| {
      TailNonNegative(xs, i + 1);
      SquareNonNegative(xs[i]);
    }
  }

  /** Scores of normalised vectors are cosines: they lie in [-1, 1]. */
  lemma CosineRange(u: Sparse, v: Sparse)
    requires WellFormed(u) && WellFormed(v) && UnitOrZero(u.values) && UnitOrZero(v.values)
    ensures -1.0 <= Dot(u, 0, v, 0) <= 1.0
  {
    ZeroSumSq(u.values);
    ZeroSumSq(v.values);
    SumSqSplit(u.values, 0);
    SumSqSplit(v.values, 0);
    DotWithin(u, 0, v, 0);
  }

  // ------------------------------------------------ the merge is the dot product

  /** Value at a dimension, zero when absent. */
  function ValueAt(v: Sparse, j: nat, index: nat): real
    requires |v.indices| == |v.values| && j <= |v.indices|
    decreases |v.indices| - j
  {
    if j == |v.indices| then 0.0 else if v.indices[j] == index then v.values[j] else ValueAt(v, j + 1, index)
  }

  /** Sum over u's dimensions of u times v. */
  function DotByDimension(u: Sparse, i: nat, v: Sparse): real
    requires |u.indices| == |u.values| && |v.indices| == |v.values| && i <= |u.indices|
    decreases |u.indices| - i
  {
    if i == |u.indices| then 0.0 else u.values[i] * ValueAt(v, 0, u.indices[i]) + DotByDimension(u, i + 1, v)
  }

  lemma {:induction false} ValueSkips(v: Sparse, j: nat, index: nat)
    requires WellFormed(v) && j <= |v.indices| && forall k :: 0 <= k < j ==> v.indices[k] != index
    ensures ValueAt(v, 0, index) == ValueAt(v, j, index)
  {
    if j > 0 {
      ValueSkips(v, j - 1, index);
    }
  }

  lemma {:induction false} ValueAbsent(v: Sparse, j: nat, index: nat)
    requires WellFormed(v) && j <= |v.indices| && forall k :: j <= k < |v.indices| ==> v.indices[k] != index
    ensures ValueAt(v, j, index) == 0.0
    decreases |v.indices| - j
  {
    if j < |v.indices| {
      ValueAbsent(v, j + 1, index);
    }
  }

  lemma {:induction false} MergeIsDot(u: Sparse, i: nat, v: Sparse, j: nat)
    requires WellFormed(u) && WellFormed(v) && i <= |u.indices| && j <= |v.indices|
    requires forall a, b :: i <= a < |u.indices| && 0 <= b < j ==> v.indices[b] < u.indices[a]
    ensures Dot(u, i, v, j) == DotByDimension(u, i, v)
    decreases |u.indices| - i + |v.indices| - j
  {
    if i < |u.indices| {
      ValueSkips(v, j, u.indices[i]);
      if j == |v.indices| || u.indices[i] < v.indices[j] {
        ValueAbsent(v, j, u.indices[i]);
        MergeIsDot(u, i + 1, v, j);
      } else if u.indices[i] > v.indices[j] {
        MergeIsDot(u, i, v, j + 1);
      } else {
        MergeIsDot(u, i + 1, v, j + 1);
      }
    }
  }

  // ------------------------------------------------ the two build sites

  /** No two objects share a number. */
  ghost predicate InjectiveIds(ids: map<string, nat>) {
    forall a, b :: a in ids && b in ids && ids[a] == ids[b] ==> a == b
  }

  /** v is the vector of these scores: one dimension per id that fits, values scaled by the norm. */
  ghost predicate SubjectVector(scores: map<string, real>, ids: map<string, nat>, v: Sparse, norm: real) {
    && norm >= 0.0 && WellFormed(v) && UnitOrZero(v.values)
    && (forall i :: i in v.indices <==> i <= MAX_SPARSE_INDEX && exists o :: o in scores && o in ids && ids[o] == i)
    && (forall o :: o in scores && o in ids && ids[o] <= MAX_SPARSE_INDEX ==> Has(v, Entry(ids[o], scores[o]), norm))
  }

  /** The scored objects whose id addresses a dimension. */
  ghost function Fitting(scores: map<string, real>, ids: map<string, nat>): set<string> {
    set o | o in scores && o in ids && SparseIndex(ids[o]).Some?
  }

  lemma {:induction false} ImageSize(ids: map<string, nat>, objs: set<string>)
    requires InjectiveIds(ids) && objs <= ids.Keys
    ensures |set o | o in objs :: ids[o]| == |objs|
  {
    if objs != {} {
      var o :| o in objs;
      ImageSize(ids, objs - {o});
      assert (set k | k in objs :: ids[k]) == (set k | k in objs - {o} :: ids[k]) + {ids[o]};
    }
  }

  ghost function Elements(xs: seq<nat>): set<nat> {
    set i | i in xs
  }

  lemma {:induction false} IncreasingSize(xs: seq<nat>)
    requires forall j, k :: 0 <= j < k < |xs| ==> xs[j] < xs[k]
    ensures |Elements(xs)| == |xs|
  {
    if |xs| == 0 {
      assert Elements(xs) == {};
    } else {
      var first, x := xs[..|xs| - 1], xs[|xs| - 1];
      IncreasingSize(first);
      assert xs == first + [x] && x !in first;
      assert Elements(xs) == Elements(first) + {x};
    }
  }

  /** Narrowing never folds two objects onto one dimension: a subject vector has exactly as
      many dimensions as scored objects whose id fits. */
  lemma OneDimensionPerObject(scores: map<string, real>, ids: map<string, nat>, v: Sparse, norm: real)
    requires InjectiveIds(ids) && SubjectVector(scores, ids, v, norm)
    ensures |v.indices| == |Fitting(scores, ids)|
  {
    ImageSize(ids, Fitting(scores, ids));
    IncreasingSize(v.indices);
    var dims := set o | o in Fitting(scores, ids) :: ids[o];
    forall i ensures i in dims <==> i in v.indices {
      if i in v.indices {
        var o :| o in scores && o in ids && ids[o] == i;
        assert o in Fitting(scores, ids);
      }
    }
    assert dims == Elements(v.indices);
  }

  ghost predicate ObjectVector(row: map<nat, real>, v: Sparse, norm: real) {
    && norm >= 0.0 && WellFormed(v) && UnitOrZero(v.values)
    && (forall i :: i in v.indices <==> i in row && i <= MAX_SPARSE_INDEX)
    && (forall i :: i in row && i <= MAX_SPARSE_INDEX ==> Has(v, Entry(i, row[i]), norm))
  }

  lemma {:induction false} ValueFound(v: Sparse, j: nat, k: nat)
    requires WellFormed(v) && j <= k < |v.indices|
    ensures ValueAt(v, j, v.indices[k]) == v.values[k]
    decreases k - j
  {
    if j < k {
      ValueFound(v, j + 1, k);
    }
  }

  lemma QuotientOrder(x: real, y: real, n: real)
    requires n > 0.0 && x < y
    ensures x / n < y / n
  {
    var p, q := x / n, y / n;
    assert p * n == x && q * n == y;
  }

  /** The value stored for an entry has its sign, and two entries keep their order. */
  lemma ValuesOrdered(v: Sparse, e: Entry, f: Entry, norm: real)
    requires WellFormed(v) && norm >= 0.0 && Has(v, e, norm) && Has(v, f, norm)
    ensures ValueAt(v, 0, e.index) < ValueAt(v, 0, f.index) <==> e.value < f.value
    ensures (ValueAt(v, 0, e.index) > 0.0 <==> e.value > 0.0) && (ValueAt(v, 0, e.index) < 0.0 <==> e.value < 0.0)
  {
    var j :| 0 <= j < |v.indices| && v.indices[j] == e.index && v.values[j] == if norm == 0.0 then e.value else e.value / norm;
    var k :| 0 <= k < |v.indices| && v.indices[k] == f.index && v.values[k] == if norm == 0.0 then f.value else f.value / norm;
    ValueFound(v, 0, j);
    ValueFound(v, 0, k);
    if norm > 0.0 {
      QuotientsOrdered(e.value, f.value, norm);
      QuotientsOrdered(e.value, 0.0, norm);
      assert 0.0 / norm == 0.0;
    }
  }

  lemma QuotientsOrdered(x: real, y: real, n: real)
    requires n > 0.0
    ensures (x < y <==> x / n < y / n) && (y < x <==> y / n < x / n)
  {
    if x < y {
      QuotientOrder(x, y, n);
    } else if y < x {
      QuotientOrder(y, x, n);
    }
  }

  /** A subject's vector ranks its objects as their scores do, and keeps every sign. */
  lemma SubjectKeepsOrder(scores: map<string, real>, ids: map<string, nat>, v: Sparse, a: string, b: string)
    requires exists norm :: SubjectVector(scores, ids, v, norm)
    requires a in scores && a in ids && ids[a] <= 0xFFFF_FFFF && b in scores && b in ids && ids[b] <= 0xFFFF_FFFF
    ensures ValueAt(v, 0, ids[a]) < ValueAt(v, 0, ids[b]) <==> scores[a] < scores[b]
    ensures (ValueAt(v, 0, ids[a]) > 0.0 <==> scores[a] > 0.0) && (ValueAt(v, 0, ids[a]) < 0.0 <==> scores[a] < 0.0)
  {
    var norm :| SubjectVector(scores, ids, v, norm);
    ValuesOrdered(v, Entry(ids[a], scores[a]), Entry(ids[b], scores[b]), norm);
  }

  /** So does an object's. */
  lemma ObjectKeepsOrder(row: map<nat, real>, v: Sparse, a: nat, b: nat)
    requires (exists norm :: ObjectVector(row, v, norm)) && a in row && b in row && a <= 0xFFFF_FFFF && b <= 0xFFFF_FFFF
    ensures ValueAt(v, 0, a) < ValueAt(v, 0, b) <==> row[a] < row[b]
    ensures (ValueAt(v, 0, a) > 0.0 <==> row[a] > 0.0) && (ValueAt(v, 0, a) < 0.0 <==> row[a] < 0.0)
  {
    var norm :| ObjectVector(row, v, norm);
    ValuesOrdered(v, Entry(a, row[a]), Entry(b, row[b]), norm);
  }

  datatype Built = NoSuchId | NothingFits | Ok(vec: Sparse)

  /** The entries of the scores whose object fits, and nothing else. */
  ghost predicate EntriesOf(scores: map<string, real>, ids: map<string, nat>, entries: seq<Entry>) {
    && DistinctIndices(entries)
    && (forall e :: e in entries ==> exists o :: o in scores && o in ids && ids[o] <= MAX_SPARSE_INDEX && e == Entry(ids[o], scores[o]))
    && (forall o :: o in scores && o in ids && ids[o] <= MAX_SPARSE_INDEX ==> Entry(ids[o], scores[o]) in entries)
  }

  lemma EntryAdded(scores: map<string, real>, ids: map<string, nat>, done: set<string>, entries: seq<Entry>, o: string, entries': seq<Entry>)
    requires InjectiveIds(ids) && o in scores && o !in done && o in ids && done <= scores.Keys
    requires EntriesOf(map k | k in done :: scores[k], ids, entries)
    requires entries' == if ids[o] <= MAX_SPARSE_INDEX then entries + [Entry(ids[o], scores[o])] else entries
    ensures EntriesOf(map k | k in done + {o} :: scores[k], ids, entries')
  {
    var was, now := map k | k in done :: scores[k], map k | k in done + {o} :: scores[k];
    assert forall k :: k in was ==> k in now && now[k] == was[k];
    forall j | 0 <= j < |entries| ensures entries[j].index != ids[o] {
      assert entries[j] in entries;
    }
    forall e | e in entries' ensures exists k :: k in now && k in ids && ids[k] <= MAX_SPARSE_INDEX && e == Entry(ids[k], now[k]) {
      if e in entries {
        var k :| k in was && k in ids && ids[k] <= MAX_SPARSE_INDEX && e == Entry(ids[k], was[k]);
        assert k in now && now[k] == was[k];
      } else {
        assert o in now && e == Entry(ids[o], now[o]);
      }
    }
  }

  /** Gather the entries that fit; false when an object has no number. */
  method GatherEntries(scores: map<string, real>, ids: map<string, nat>) returns (ok: bool, entries: seq<Entry>)
    requires InjectiveIds(ids)
    ensures ok <==> scores.Keys <= ids.Keys
    ensures ok ==> EntriesOf(scores, ids, entries)
  {
    entries := [];
    var todo := scores.Keys;
    while todo != {}
      invariant todo <= scores.Keys && scores.Keys - todo <= ids.Keys
      invariant EntriesOf(map k | k in scores.Keys - todo :: scores[k], ids, entries)
      decreases todo
    {
      var o :| o in todo;
      if o !in ids {
        return false, entries;
      }
      ghost var done, was := scores.Keys - todo, entries;
      todo := todo - {o};
      assert scores.Keys - todo == done + {o};
      var fit := SparseIndex(ids[o]);
      if fit.Some? {
        entries := entries + [Entry(fit.value, scores[o])];
      }
      EntryAdded(scores, ids, done, was, o, entries);
    }
    assert scores.Keys - todo == scores.Keys;
    assert (map k | k in scores.Keys :: scores[k]) == scores;
    return true, entries;
  }

  /** One subject's scores as a sparse vector. Dimensions that do not fit are skipped; an
      unresolved object or a subject left with no dimension at all is an error. */
  method BuildSubjectVector(scores: map<string, real>, ids: map<string, nat>, sqrt: real -> real) returns (r: Built, norm: real)
    requires SquareRoot(sqrt) && InjectiveIds(ids)
    ensures r.NoSuchId? <==> exists o :: o in scores && o !in ids
    ensures r.NothingFits? <==>
              (forall o :: o in scores ==> o in ids && ids[o] > MAX_SPARSE_INDEX) && scores != map[]
    ensures r.Ok? ==> SubjectVector(scores, ids, r.vec, norm)
  {
    norm := 0.0;
    var ok, entries := GatherEntries(scores, ids);
    if !ok {
      return NoSuchId, norm;
    }
    if scores != map[] && entries == [] {
      return NothingFits, norm;
    }
    assert entries != [] ==> entries[0] in entries;
    forall k | 0 <= k < |entries| ensures entries[k].index <= MAX_SPARSE_INDEX {
      assert entries[k] in entries;
    }
    var v;
    v, norm := SparseVectorFrom(entries, sqrt);
    EntriesGiveVector(scores, ids, entries, v, norm);
    r := Ok(v);
  }

  lemma EntriesGiveVector(scores: map<string, real>, ids: map<string, nat>, entries: seq<Entry>, v: Sparse, norm: real)
    requires EntriesOf(scores, ids, entries) && WellFormed(v) && UnitOrZero(v.values) && norm >= 0.0
    requires forall e :: e in entries ==> Has(v, e, norm)
    requires forall i :: i in v.indices ==> exists e :: e in entries && e.index == i
    ensures SubjectVector(scores, ids, v, norm)
  {
    forall o | o in scores && o in ids && ids[o] <= MAX_SPARSE_INDEX ensures ids[o] in v.indices && Has(v, Entry(ids[o], scores[o]), norm) {
      assert Has(v, Entry(ids[o], scores[o]), norm);
    }
    forall i | i in v.indices ensures i <= MAX_SPARSE_INDEX && exists o :: o in scores && o in ids && ids[o] == i {
      var e :| e in entries && e.index == i;
    }
  }

  /** One object's co-occurrence row as a sparse vector; unlike a subject, an object whose
      every partner is out of range is stored as the empty vector. */
  method BuildObjectVector(row: map<nat, real>, sqrt: real -> real) returns (v: Sparse, norm: real)
    requires SquareRoot(sqrt)
    ensures ObjectVector(row, v, norm)
  {
    var entries: seq<Entry> := [];
    var todo := row.Keys;
    while todo != {}
      invariant todo <= row.Keys && DistinctIndices(entries)
      invariant forall k :: 0 <= k < |entries| ==>
                  var i := entries[k].index; i <= MAX_SPARSE_INDEX && i in row && i !in todo && entries[k].value == row[i]
      invariant forall i :: i in row && i !in todo && i <= MAX_SPARSE_INDEX ==> Entry(i, row[i]) in entries
      decreases todo
    {
      var i :| i in todo;
      todo := todo - {i};
      var fit := SparseIndex(i);
      if fit.Some? {
        entries := entries + [Entry(fit.value, row[i])];
      }
    }
    v, norm := SparseVectorFrom(entries, sqrt);
    forall i | i in row && i <= MAX_SPARSE_INDEX ensures i in v.indices {
      assert Has(v, Entry(i, row[i]), norm);
    }
  }
}
