/** The object half of a recompute: the co-occurrence matrix is accumulated pass by pass,
    each pass written in batches before the next is built. */
module ObjectPhase {
  import opened Cooccurrence
  import opened SparseVectors
  import opened Collections
  import PassPlan

  const REALS: Arith<real> := Arith(0.0, (a: real, b: real) => a + b)

  /** v encodes object id's row of the matrix. */
  ghost predicate EncodesRow(m: Matrix<real>, id: Id, v: Sparse) {
    id in m && exists norm :: ObjectVector(m[id], v, norm)
  }

  ghost function RowMade(m: Matrix<real>): (Id, Sparse) -> bool {
    (id: Id, v: Sparse) => EncodesRow(m, id, v)
  }

  lemma RowMadeGrows(m: Matrix<real>, more: Matrix<real>)
    requires m.Keys !! more.Keys
    ensures forall id, v :: RowMade(m)(id, v) || RowMade(more)(id, v) ==> RowMade(m + more)(id, v)
  {
    forall id, v | RowMade(m)(id, v) || RowMade(more)(id, v) ensures RowMade(m + more)(id, v) {
      if RowMade(m)(id, v) {
        assert EncodesRow(m, id, v) && (m + more)[id] == m[id];
      } else {
        assert EncodesRow(more, id, v) && (m + more)[id] == more[id];
      }
    }
  }

  /** Flush a batch: on failure any part of it may have landed. */
  method Flush(objs: Collection, batch: Points, ghost made: (Id, Sparse) -> bool, ghost before: Points, ghost keep: set<Id>) returns (ok: bool)
    requires Stored(made, before, objs.points) && All(made, batch) && Kept(made, objs.points + batch, keep)
    modifies objs
    ensures Stored(made, before, objs.points)
    ensures ok ==> Kept(made, objs.points, keep)
    ensures objs.failedUpserts == old(objs.failedUpserts) + if ok then 0 else 1
    ensures objs.calls >= old(objs.calls) && (Steady(objs, old(objs.calls)) ==> ok)
  {
    ghost var now := objs.points;
    ok := objs.Upsert(batch);
    ghost var landed := batch.Keys;
    if ok {
      assert Only(batch, landed) == batch;
    } else {
      landed :| objs.points == now + Only(batch, landed);
    }
    WriteKeeps(made, made, before, now, {}, batch, landed);
  }

  lemma KeptWith(made: (Id, Sparse) -> bool, now: Points, batch: Points, keep: set<Id>, id: Id, v: Sparse)
    requires All(made, batch) && Kept(made, now + batch, keep) && made(id, v)
    ensures All(made, batch[id := v]) && Kept(made, now + batch[id := v], keep + {id})
  {
  }

  lemma KeptAlone(made: (Id, Sparse) -> bool, now: Points, keep: set<Id>)
    requires Kept(made, now, keep)
    ensures All(made, map[]) && Kept(made, now + map[], keep)
  {
    assert now + map[] == now;
  }

  /** One object's point. */
  method MakePoint(accum: Matrix<real>, id: Id, sqrt: real -> real) returns (v: Sparse)
    requires SquareRoot(sqrt) && id in accum
    ensures RowMade(accum)(id, v)
  {
    var norm;
    v, norm := BuildObjectVector(accum[id], sqrt);
    RowEncoded(accum, id, v, norm);
  }

  /** Add a point to the batch and flush a full batch. */
  method AddPoint(objs: Collection, batch: Points, id: Id, v: Sparse, ghost made: (Id, Sparse) -> bool, ghost before: Points, ghost keep: set<Id>)
    returns (ok: bool, batch': Points)
    requires Stored(made, before, objs.points) && All(made, batch) && Kept(made, objs.points + batch, keep) && made(id, v)
    modifies objs
    ensures Stored(made, before, objs.points) && All(made, batch')
    ensures ok ==> Kept(made, objs.points + batch', keep + {id})
    ensures objs.failedUpserts == old(objs.failedUpserts) + if ok then 0 else 1
    ensures objs.calls >= old(objs.calls) && (Steady(objs, old(objs.calls)) ==> ok)
  {
    KeptWith(made, objs.points, batch, keep, id, v);
    batch' := batch[id := v];
    ok := true;
    if |batch'| >= BATCH {
      ok := Flush(objs, batch', made, before, keep + {id});
      batch' := map[];
      if ok {
        KeptAlone(made, objs.points, keep + {id});
      }
    }
  }

  /** One pass of co-occurrence rows, written in batches. */
  method UpsertObjectVectors(accum: Matrix<real>, objs: Collection, sqrt: real -> real) returns (ok: bool)
    requires SquareRoot(sqrt)
    modifies objs
    ensures Stored(RowMade(accum), old(objs.points), objs.points)
    ensures ok ==> Kept(RowMade(accum), objs.points, accum.Keys)
    ensures objs.failedUpserts == old(objs.failedUpserts) + if ok then 0 else 1
    ensures objs.calls >= old(objs.calls) && (Steady(objs, old(objs.calls)) ==> ok)
  {
    ok := objs.Resolve();
    if !ok {
      return;
    }
    var batch: Points, todo := map[], accum.Keys;
    while todo != {}
      invariant todo <= accum.Keys
      invariant Stored(RowMade(accum), old(objs.points), objs.points) && All(RowMade(accum), batch)
      invariant Kept(RowMade(accum), objs.points + batch, accum.Keys - todo)
      invariant objs.failedUpserts == old(objs.failedUpserts) && objs.calls >= old(objs.calls)
      decreases todo
    {
      var id :| id in todo;
      var v := MakePoint(accum, id, sqrt);
      ok, batch := AddPoint(objs, batch, id, v, RowMade(accum), old(objs.points), accum.Keys - todo);
      if !ok {
        return;
      }
      assert accum.Keys - todo + {id} == accum.Keys - (todo - {id});
      todo := todo - {id};
    }
    assert accum.Keys - todo == accum.Keys;
    ok := Flush(objs, batch, RowMade(accum), old(objs.points), accum.Keys);
  }

  lemma RowEncoded(m: Matrix<real>, id: Id, v: Sparse, norm: real)
    requires id in m && ObjectVector(m[id], v, norm)
    ensures RowMade(m)(id, v)
  {
    assert EncodesRow(m, id, v);
  }

  function MergedCell(rows: Rows<real>, passOf: map<Id, nat>, passes: nat, t: Id, o: Id): seq<real> {
    if PassOf(passOf, t) < passes then Contribs(rows, |rows|, t, o) else []
  }

  /** The rows of the first `passes` passes, put together. */
  ghost predicate Merged(rows: Rows<real>, passOf: map<Id, nat>, passes: nat, m: Matrix<real>) {
    && (forall t :: t in m ==> m[t] != map[] && PassOf(passOf, t) < passes)
    && (forall t, o :: CellIs(REALS, m, t, o, MergedCell(rows, passOf, passes, t, o)))
  }

  lemma MergePass(rows: Rows<real>, passOf: map<Id, nat>, pass: nat, next: nat, m: Matrix<real>, accum: Matrix<real>)
    requires next == pass + 1 && Merged(rows, passOf, pass, m) && IsPass(REALS, rows, passOf, pass, accum)
    ensures m.Keys !! accum.Keys && Merged(rows, passOf, next, m + accum)
  {
    forall t | t in accum ensures PassOf(passOf, t) == pass {
      var o :| o in accum[t];
      assert CellIs(REALS, accum, t, o, Cell(rows, passOf, pass, |rows|, 0, 0, t, o));
    }
    forall t, o ensures CellIs(REALS, m + accum, t, o, MergedCell(rows, passOf, next, t, o)) {
      assert CellIs(REALS, accum, t, o, Cell(rows, passOf, pass, |rows|, 0, 0, t, o));
      assert CellIs(REALS, m, t, o, MergedCell(rows, passOf, pass, t, o));
    }
  }

  /** All passes together are the unpartitioned matrix. */
  lemma MergedIsWhole(rows: Rows<real>, passOf: map<Id, nat>, passes: nat, m: Matrix<real>)
    requires Merged(rows, passOf, passes, m) && forall t :: PassOf(passOf, t) < passes
    ensures IsWhole(REALS, rows, m)
  {
    forall t, o {:trigger Cell(rows, map[], 0, |rows|, 0, 0, t, o)}
      ensures CellIs(REALS, m, t, o, Cell(rows, map[], 0, |rows|, 0, 0, t, o))
    {
      assert CellIs(REALS, m, t, o, MergedCell(rows, passOf, passes, t, o));
    }
  }

  lemma StoredThrough(made: (Id, Sparse) -> bool, more: (Id, Sparse) -> bool, both: (Id, Sparse) -> bool,
                      before: Points, now: Points, after: Points, keep: set<Id>)
    requires forall id, v :: made(id, v) || more(id, v) ==> both(id, v)
    requires Stored(made, before, now) && Stored(more, now, after)
    ensures Stored(both, before, after)
    ensures Kept(made, now, keep) ==> Kept(both, after, keep)
  {
  }

  /** The collection after some passes: nothing lost, and every merged row written. */
  ghost predicate Written(m: Matrix<real>, before: Points, now: Points) {
    Stored(RowMade(m), before, now) && Kept(RowMade(m), now, m.Keys)
  }

  /** Accumulate and write one pass. */
  method WritePass(rows: Rows<real>, passOf: map<Id, nat>, pass: nat, objs: Collection, sqrt: real -> real, ghost before: Points, ghost matrix: Matrix<real>)
    returns (ok: bool, accum: Matrix<real>)
    requires SquareRoot(sqrt) && Merged(rows, passOf, pass, matrix) && Written(matrix, before, objs.points)
    modifies objs
    ensures matrix.Keys !! accum.Keys && Merged(rows, passOf, pass + 1, matrix + accum)
    ensures Retains(before, objs.points) && (ok ==> Written(matrix + accum, before, objs.points))
    ensures objs.failedUpserts == old(objs.failedUpserts) + if ok then 0 else 1
    ensures objs.calls >= old(objs.calls) && (Steady(objs, old(objs.calls)) ==> ok)
  {
    accum := Accumulate(REALS, rows, passOf, pass);
    MergePass(rows, passOf, pass, pass + 1, matrix, accum);
    ghost var now := objs.points;
    ok := UpsertObjectVectors(accum, objs, sqrt);
    WrittenThrough(matrix, accum, before, now, objs.points, ok);
  }

  lemma WrittenThrough(matrix: Matrix<real>, accum: Matrix<real>, before: Points, now: Points, after: Points, ok: bool)
    requires matrix.Keys !! accum.Keys && Written(matrix, before, now) && Stored(RowMade(accum), now, after)
    requires ok ==> Kept(RowMade(accum), after, accum.Keys)
    ensures Retains(before, after) && (ok ==> Written(matrix + accum, before, after))
  {
    RowMadeGrows(matrix, accum);
    StoredThrough(RowMade(matrix), RowMade(accum), RowMade(matrix + accum), before, now, after, matrix.Keys);
    assert (matrix + accum).Keys == matrix.Keys + accum.Keys;
    if ok {
      KeptBoth(RowMade(matrix + accum), after, matrix.Keys, accum.Keys, RowMade(accum));
    }
  }

  lemma KeptBoth(both: (Id, Sparse) -> bool, now: Points, a: set<Id>, b: set<Id>, more: (Id, Sparse) -> bool)
    requires Kept(both, now, a) && Kept(more, now, b) && forall id, v :: more(id, v) ==> both(id, v)
    ensures Kept(both, now, a + b)
  {
  }

  /** Every pass is written before the next is accumulated. */
  method WritePasses(rows: Rows<real>, passOf: map<Id, nat>, passes: nat, objs: Collection, sqrt: real -> real)
    returns (ok: bool, keep: set<Id>, objects: nat, ghost matrix: Matrix<real>)
    requires SquareRoot(sqrt) && forall id :: PassOf(passOf, id) < passes
    modifies objs
    ensures Retains(old(objs.points), objs.points)
    ensures ok ==> IsWhole(REALS, rows, matrix) && keep == matrix.Keys && objects == |keep| && Written(matrix, old(objs.points), objs.points)
    ensures objs.failedUpserts == old(objs.failedUpserts) + if ok then 0 else 1
    ensures objs.calls >= old(objs.calls) && (Steady(objs, old(objs.calls)) ==> ok)
  {
    ok, keep, objects, matrix := true, {}, 0, map[];
    for pass := 0 to passes
      invariant Merged(rows, passOf, pass, matrix) && keep == matrix.Keys && objects == |keep|
      invariant Written(matrix, old(objs.points), objs.points)
      invariant ok && objs.failedUpserts == old(objs.failedUpserts) && objs.calls >= old(objs.calls)
    {
      var accum;
      ok, accum := WritePass(rows, passOf, pass, objs, sqrt, old(objs.points), matrix);
      if !ok {
        return;
      }
      keep, objects, matrix := keep + accum.Keys, objects + |accum.Keys|, matrix + accum;
    }
    MergedIsWhole(rows, passOf, passes, matrix);
  }

  /** The object phase: plan the passes, then write them. */
  method UpsertPasses(rows: Rows<real>, objs: Collection, sqrt: real -> real) returns (ok: bool, keep: set<Id>, objects: nat, ghost matrix: Matrix<real>)
    requires SquareRoot(sqrt)
    modifies objs
    ensures Retains(old(objs.points), objs.points)
    ensures ok ==> IsWhole(REALS, rows, matrix) && keep == matrix.Keys && objects == |matrix| && Written(matrix, old(objs.points), objs.points)
    ensures objs.failedUpserts == old(objs.failedUpserts) + if ok then 0 else 1
    ensures objs.calls >= old(objs.calls) && (Steady(objs, old(objs.calls)) ==> ok)
  {
    var load, order, passOf, passes := PassPlan.PlanPasses(rows, PassPlan.COOCCURRENCE_BUDGET);
    ok, keep, objects, matrix := WritePasses(rows, passOf, passes, objs, sqrt);
    assert |matrix| == |matrix.Keys|;
  }

  // ------------------------------------------------ who has a row

  /** Some subject interacted with t and with another object. */
  ghost predicate HasPartner(rows: Rows<real>, t: Id) {
    exists r, j, k :: 0 <= r < |rows| && 0 <= j < |rows[r]| && 0 <= k < |rows[r]| && rows[r][j].id == t && rows[r][k].id != t
  }

  lemma {:induction false} ScoreFound(row: seq<CoEntry<real>>, k: nat, o: Id)
    requires k < |row| && row[k].id == o
    ensures ScoresIn(row, o) != []
  {
    var last := |row| - 1;
    if k < last {
      ScoreFound(row[..last], k, o);
    }
  }

  lemma {:induction false} RowContributes(row: seq<CoEntry<real>>, n: nat, j: nat, t: Id, o: Id)
    requires j < n <= |row| && row[j].id == t && o != t && ScoresIn(row, o) != []
    ensures RowContribs(row, n, t, o) != []
  {
    if j < n - 1 {
      RowContributes(row, n - 1, j, t, o);
    }
  }

  lemma {:induction false} Contributes(rows: Rows<real>, n: nat, r: nat, j: nat, k: nat, t: Id, o: Id)
    requires r < n <= |rows| && j < |rows[r]| && k < |rows[r]| && rows[r][j].id == t && rows[r][k].id == o && o != t
    ensures Contribs(rows, n, t, o) != []
  {
    if r == n - 1 {
      ScoreFound(rows[r], k, o);
      RowContributes(rows[r], |rows[r]|, j, t, o);
    } else {
      Contributes(rows, n - 1, r, j, k, t, o);
    }
  }

  lemma {:induction false} PartnerFound(rows: Rows<real>, n: nat, t: Id, o: Id)
    requires n <= |rows| && o in PassPlan.Partners(rows, n, t)
    ensures HasPartner(rows, t)
  {
    var row := rows[n - 1];
    if o in PassPlan.Partners(rows, n - 1, t) {
      PartnerFound(rows, n - 1, t, o);
    } else {
      var j :| 0 <= j < |row| && row[j].id == t;
      var k := OtherAt(row, |row|, t, o);
    }
  }

  lemma {:induction false} OtherAt(row: seq<CoEntry<real>>, n: nat, t: Id, o: Id) returns (k: nat)
    requires n <= |row| && o in PassPlan.OtherIds(row, n, t)
    ensures k < n && row[k].id == o && o != t
  {
    if row[n - 1].id == o && o != t {
      k := n - 1;
    } else {
      k := OtherAt(row, n - 1, t, o);
    }
  }

  /** An object has a row exactly when it has a co-occurring partner. */
  lemma WholeKeys(rows: Rows<real>, m: Matrix<real>, t: Id)
    requires IsWhole(REALS, rows, m)
    ensures t in m <==> HasPartner(rows, t)
  {
    if t in m {
      var o :| o in m[t];
      assert CellIs(REALS, m, t, o, Cell(rows, map[], 0, |rows|, 0, 0, t, o));
      PassPlan.ContribsPartner(rows, |rows|, t, o);
      PartnerFound(rows, |rows|, t, o);
    }
    if HasPartner(rows, t) {
      var r, j, k :| 0 <= r < |rows| && 0 <= j < |rows[r]| && 0 <= k < |rows[r]| && rows[r][j].id == t && rows[r][k].id != t;
      var o := rows[r][k].id;
      Contributes(rows, |rows|, r, j, k, t, o);
      assert CellIs(REALS, m, t, o, Cell(rows, map[], 0, |rows|, 0, 0, t, o));
    }
  }

  // ------------------------------------------------ what a cell holds

  predicate Holds(row: seq<CoEntry<real>>, id: Id) {
    exists k :: 0 <= k < |row| && row[k].id == id
  }

  /** The score of an object in a row, 0 if it is not there. */
  ghost function ScoreOf(row: seq<CoEntry<real>>, id: Id): real {
    if k :| 0 <= k < |row| && row[k].id == id then row[k].score else 0.0
  }

  /** The scores of o in the first n rows that hold both t and o, added up. */
  ghost function PairSum(rows: Rows<real>, n: nat, t: Id, o: Id): real
    requires n <= |rows|
  {
    if n == 0 then 0.0
    else PairSum(rows, n - 1, t, o) + if Holds(rows[n - 1], t) && Holds(rows[n - 1], o) then ScoreOf(rows[n - 1], o) else 0.0
  }

  predicate OneEach(row: seq<CoEntry<real>>) {
    forall j, k :: 0 <= j < k < |row| ==> row[j].id != row[k].id
  }

  ghost function SumOf(xs: seq<real>): real {
    if xs == [] then 0.0 else SumOf(xs[..|xs| - 1]) + xs[|xs| - 1]
  }

  lemma {:induction false} FoldIsSum(xs: seq<real>)
    ensures FoldLeft(REALS, xs) == SumOf(xs)
  {
    if xs != [] {
      FoldIsSum(xs[..|xs| - 1]);
    }
  }

  lemma {:induction false} SumJoin(a: seq<real>, b: seq<real>)
    ensures SumOf(a + b) == SumOf(a) + SumOf(b)
    decreases |b|
  {
    if b == [] {
      assert a + b == a;
    } else {
      SumJoin(a, b[..|b| - 1]);
      assert (a + b)[..|a + b| - 1] == a + b[..|b| - 1];
    }
  }

  lemma {:induction false} ScoresOnce(row: seq<CoEntry<real>>, o: Id)
    requires OneEach(row)
    ensures |ScoresIn(row, o)| == (if Holds(row, o) then 1 else 0) && SumOf(ScoresIn(row, o)) == ScoreOf(row, o)
  {
    if row != [] {
      var init, e := row[..|row| - 1], row[|row| - 1];
      ScoresOnce(init, o);
      LastScore(init, row, o);
      SumJoin(ScoresIn(init, o), if e.id == o then [e.score] else []);
      SumOne(e.score);
    }
  }

  lemma SumOne(x: real)
    ensures SumOf([x]) == x
  {
    assert |[x][..0]| == 0;
  }

  lemma LastScore(init: seq<CoEntry<real>>, row: seq<CoEntry<real>>, o: Id)
    requires OneEach(row) && row != [] && init == row[..|row| - 1]
    ensures Holds(row, o) <==> Holds(init, o) || row[|row| - 1].id == o
    ensures ScoreOf(row, o) == ScoreOf(init, o) + if row[|row| - 1].id == o then row[|row| - 1].score else 0.0
  {
    forall k | 0 <= k < |init| ensures init[k] == row[k] {
    }
    if Holds(init, o) {
      var k :| 0 <= k < |init| && init[k].id == o && ScoreOf(init, o) == init[k].score;
      var j :| 0 <= j < |row| && row[j].id == o && ScoreOf(row, o) == row[j].score;
      assert row[k].id == o && j == k;
    } else if row[|row| - 1].id == o {
      var j :| 0 <= j < |row| && row[j].id == o && ScoreOf(row, o) == row[j].score;
      assert j == |row| - 1;
    }
  }

  lemma {:induction false} ContribsOnce(row: seq<CoEntry<real>>, n: nat, t: Id, o: Id)
    requires OneEach(row) && n <= |row| && t != o
    ensures if PassPlan.InRow(row, n, t) then RowContribs(row, n, t, o) == ScoresIn(row, o) else |RowContribs(row, n, t, o)| == 0
  {
    if n > 0 {
      ContribsOnce(row, n - 1, t, o);
      var before := RowContribs(row, n - 1, t, o);
      if row[n - 1].id == t {
        assert !PassPlan.InRow(row, n - 1, t);
        assert before + ScoresIn(row, o) == ScoresIn(row, o);
        assert PassPlan.InRow(row, n, t);
      } else {
        assert PassPlan.InRow(row, n, t) <==> PassPlan.InRow(row, n - 1, t);
        assert before + [] == before;
      }
    }
  }

  lemma RowSum(row: seq<CoEntry<real>>, t: Id, o: Id)
    requires OneEach(row) && t != o
    ensures SumOf(RowContribs(row, |row|, t, o)) == if Holds(row, t) && Holds(row, o) then ScoreOf(row, o) else 0.0
    ensures |RowContribs(row, |row|, t, o)| > 0 <==> Holds(row, t) && Holds(row, o)
  {
    ContribsOnce(row, |row|, t, o);
    ScoresOnce(row, o);
    assert PassPlan.InRow(row, |row|, t) <==> Holds(row, t);
  }

  /** Some of the first n rows holds both. */
  predicate Together(rows: Rows<real>, n: nat, t: Id, o: Id)
    requires n <= |rows|
  {
    exists r :: 0 <= r < n && Holds(rows[r], t) && Holds(rows[r], o)
  }

  lemma {:induction false} ContribsSum(rows: Rows<real>, n: nat, t: Id, o: Id)
    requires n <= |rows| && t != o && forall r :: 0 <= r < |rows| ==> OneEach(rows[r])
    ensures SumOf(Contribs(rows, n, t, o)) == PairSum(rows, n, t, o)
  {
    if n > 0 {
      ContribsSum(rows, n - 1, t, o);
      var row := rows[n - 1];
      RowSum(row, t, o);
      SumJoin(Contribs(rows, n - 1, t, o), RowContribs(row, |row|, t, o));
    }
  }

  lemma {:induction false} ContribsSome(rows: Rows<real>, n: nat, t: Id, o: Id)
    requires n <= |rows| && t != o && forall r :: 0 <= r < |rows| ==> OneEach(rows[r])
    ensures |Contribs(rows, n, t, o)| > 0 <==> Together(rows, n, t, o)
  {
    if n > 0 {
      ContribsSome(rows, n - 1, t, o);
      RowSum(rows[n - 1], t, o);
      assert Together(rows, n, t, o) <==> Together(rows, n - 1, t, o) || (Holds(rows[n - 1], t) && Holds(rows[n - 1], o));
    }
  }

  /** The matrix in its own terms, when each row lists an object once: two objects share a
      cell exactly when some subject has both, and the cell of t for o is the sum of the
      scores of o over the subjects that also have t. */
  lemma CellIsPairSum(rows: Rows<real>, m: Matrix<real>, t: Id, o: Id)
    requires IsWhole(REALS, rows, m) && t != o && forall r :: 0 <= r < |rows| ==> OneEach(rows[r])
    ensures (t in m && o in m[t]) <==> Together(rows, |rows|, t, o)
    ensures t in m && o in m[t] ==> m[t][o] == PairSum(rows, |rows|, t, o)
  {
    assert CellIs(REALS, m, t, o, Cell(rows, map[], 0, |rows|, 0, 0, t, o));
    ContribsSum(rows, |rows|, t, o);
    ContribsSome(rows, |rows|, t, o);
    FoldIsSum(Contribs(rows, |rows|, t, o));
  }
}
