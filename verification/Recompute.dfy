/** One namespace's full recompute: subjects, objects, then the sweep of stale points. */
module Recompute {
  import opened Wrappers
  import opened Cooccurrence
  import opened SparseVectors
  import opened Collections
  import opened SubjectPhase
  import opened ObjectPhase

  datatype Outcome = Error | Recomputed(subjects: nat, objects: nat)

  /** Best-effort sweep of one collection. */
  method CleanupCollection(c: Collection, keep: set<Id>, ghost made: (Id, Sparse) -> bool) returns (swept: bool)
    requires Kept(made, c.points, keep)
    modifies c`points, c`calls
    ensures Kept(made, c.points, keep)
    ensures swept ==> c.points.Keys == keep
    ensures Steady(c, old(c.calls)) ==> swept
  {
    if !c.named {
      return false;
    }
    ghost var was := c.points;
    var removed;
    removed, swept := CleanupStalePoints(c, keep);
    forall id | id in keep ensures id in c.points && c.points[id] == was[id] {
      assert id in Only(was, keep);
      assert id in Only(c.points, keep) && Only(c.points, keep)[id] == Only(was, keep)[id];
    }
  }

  /** What the run wrote, by subject index, row and matrix. */
  ghost predicate Derived(w: Window, whose: seq<nat>, rows: Rows<real>, matrix: Matrix<real>) {
    w.Picks(0, |w.subjects|, whose) && w.RowsOf(whose, rows) && IsWhole(REALS, rows, matrix)
  }

  /** The matrix behind the stored object vectors, in terms of the subjects: t has a cell for
      another object o exactly when some built subject scored both, and it is the sum of such
      subjects' scores of o. */
  lemma RunCells(w: Window, whose: seq<nat>, rows: Rows<real>, matrix: Matrix<real>, t: Id, o: Id)
    requires Derived(w, whose, rows, matrix) && t != o
    ensures (t in matrix && o in matrix[t]) <==> Together(rows, |rows|, t, o)
    ensures t in matrix && o in matrix[t] ==> matrix[t][o] == PairSum(rows, |rows|, t, o)
  {
    forall r | 0 <= r < |rows| ensures OneEach(rows[r]) {
      assert w.RowFor()(whose[r], rows[r]);
    }
    CellIsPairSum(rows, matrix, t, o);
  }

  /** Every lookup of the run answered. */
  ghost predicate Answered(w: Window) {
    forall i :: 0 <= i < |w.subjects| ==> w.At(i).Found?
  }

  /** The collections hold this run's subject and object vectors, and nothing else once swept. */
  ghost predicate Exact(w: Window, whose: seq<nat>, rows: Rows<real>, matrix: Matrix<real>, subs: Points, objs: Points, sweptSubjects: bool, sweptObjects: bool) {
    && Derived(w, whose, rows, matrix)
    && Kept(w.Made(|w.subjects|), subs, BuiltIds(w, whose)) && (sweptSubjects ==> subs.Keys == BuiltIds(w, whose))
    && Kept(RowMade(matrix), objs, matrix.Keys) && (forall t :: t in matrix <==> HasPartner(rows, t))
    && (sweptObjects ==> objs.Keys == matrix.Keys)
  }

  method Sweep(w: Window, t: Tally, keepObjects: set<Id>, subs: Collection, objs: Collection, ghost whose: seq<nat>, ghost matrix: Matrix<real>)
    returns (sweptSubjects: bool, sweptObjects: bool)
    requires subs != objs && Derived(w, whose, t.rows, matrix)
    requires t.keep == BuiltIds(w, whose) && Kept(w.Made(|w.subjects|), subs.points, t.keep)
    requires keepObjects == matrix.Keys && Kept(RowMade(matrix), objs.points, keepObjects)
    modifies subs`points, subs`calls, objs`points, objs`calls
    ensures Exact(w, whose, t.rows, matrix, subs.points, objs.points, sweptSubjects, sweptObjects)
    ensures (Steady(subs, old(subs.calls)) ==> sweptSubjects) && (Steady(objs, old(objs.calls)) ==> sweptObjects)
  {
    sweptSubjects := CleanupCollection(subs, t.keep, w.Made(|w.subjects|));
    sweptObjects := CleanupCollection(objs, keepObjects, RowMade(matrix));
    forall o ensures o in matrix <==> HasPartner(t.rows, o) {
      WholeKeys(t.rows, matrix, o);
    }
  }

  /** The subjects that were written: the buildable ones of the chunks whose lookups and
      write succeeded. */
  ghost predicate Sends(w: Window, failedWrites: int, written: set<nat>, sent: seq<nat>) {
    failedWrites >= 0 && ChunksWritten(w, |w.subjects|, failedWrites, written) && Lists(w.Landed(written), 0, |w.subjects|, sent)
  }

  /** The subject half, and what of it the rest of the run depends on. */
  method SubjectHalf(w: Window, subs: Collection, sqrt: real -> real)
    returns (t: Tally, ghost whose: seq<nat>, ghost written: set<nat>, ghost sent: seq<nat>)
    requires w.Injective() && SquareRoot(sqrt)
    modifies subs
    ensures w.Picks(0, |w.subjects|, whose) && w.RowsOf(whose, t.rows)
    ensures Sends(w, subs.failedUpserts - old(subs.failedUpserts), written, sent) && t.upserted == |sent|
    ensures Kept(w.Made(|w.subjects|), subs.points, BuiltIds(w, sent)) && Retains(old(subs.points), subs.points)
    ensures t.failed == 0 <==> Answered(w) && subs.failedUpserts == old(subs.failedUpserts)
    ensures t.failed == 0 ==> sent == whose && t.keep == BuiltIds(w, whose)
    ensures (sent != [] ==> AnyBuildable(w)) && (t.failed == 0 && AnyBuildable(w) ==> sent != [])
    ensures subs.calls >= old(subs.calls) && (Steady(subs, old(subs.calls)) ==> subs.failedUpserts == old(subs.failedUpserts))
  {
    t, whose, written, sent := ProcessSubjects(w, subs, sqrt);
    SomeBuilt(w, whose);
    SomeSent(w, written, sent);
    if t.failed == 0 {
      AllSent(w, |w.subjects|, old(subs.points), subs.points, subs.failedUpserts - old(subs.failedUpserts), t, whose, written, sent);
    }
  }

  /** The object half and the sweep, which only follows a run without failures. */
  method ObjectHalf(w: Window, t: Tally, subs: Collection, objs: Collection, sqrt: real -> real, ghost whose: seq<nat>, ghost sent: seq<nat>)
    returns (ok: bool, objects: nat, sweptSubjects: bool, sweptObjects: bool, ghost matrix: Matrix<real>)
    requires subs != objs && SquareRoot(sqrt) && w.Picks(0, |w.subjects|, whose) && w.RowsOf(whose, t.rows)
    requires Kept(w.Made(|w.subjects|), subs.points, BuiltIds(w, sent)) && (t.failed == 0 ==> sent == whose && t.keep == BuiltIds(w, whose))
    modifies subs`points, subs`calls, objs
    ensures objs.failedUpserts == old(objs.failedUpserts) + (if ok then 0 else 1) && (Steady(objs, old(objs.calls)) ==> ok)
    ensures ok ==> objects == |matrix|
    ensures Kept(w.Made(|w.subjects|), subs.points, BuiltIds(w, sent))
    ensures !ok || t.failed > 0 ==> subs.points == old(subs.points) && Retains(old(objs.points), objs.points)
    ensures ok && t.failed == 0 ==> Exact(w, whose, t.rows, matrix, subs.points, objs.points, sweptSubjects, sweptObjects)
    ensures t.failed == 0 && Steady(subs, old(subs.calls)) && Steady(objs, old(objs.calls)) ==> sweptSubjects && sweptObjects
  {
    sweptSubjects, sweptObjects := false, false;
    var keepObjects;
    ok, keepObjects, objects, matrix := UpsertPasses(t.rows, objs, sqrt);
    if ok && t.failed == 0 {
      sweptSubjects, sweptObjects := Sweep(w, t, keepObjects, subs, objs, whose, matrix);
    }
  }

  ghost predicate AnyBuildable(w: Window) {
    exists i :: w.Buildable(i)
  }

  /** How a run in which nothing failed ends. */
  ghost predicate Succeeds(w: Window, r: Outcome, whose: seq<nat>, rows: Rows<real>, matrix: Matrix<real>, subs: Points, objs: Points, sweptSubjects: bool, sweptObjects: bool) {
    if w.subjects == [] || AnyBuildable(w)
    then r == Recomputed(|whose|, |matrix|) && Exact(w, whose, rows, matrix, subs, objs, sweptSubjects, sweptObjects)
    else r.Error?
  }

  /** A full recompute.
      - It ends in error exactly when the active subjects cannot be listed, when there are
        some and none was written, or when an object write failed; a failed chunk alone only
        leaves its subjects out of the count.
      - If it ends in error, or any lookup or write on the way failed, no stored point is gone.
      - When nothing failed it succeeds unless no subject could be built, and then each
        collection whose sweep completed holds exactly this run's points: the built subjects,
        and the objects with a co-occurring partner, each with the vector of its scores or of
        its row of the unpartitioned matrix. When no call fails at all, both do. */
  method RecomputeNamespace(active: Option<Window>, subs: Collection, objs: Collection, sqrt: real -> real)
    returns (r: Outcome, sweptSubjects: bool, sweptObjects: bool, ghost whose: seq<nat>, ghost rows: Rows<real>, ghost matrix: Matrix<real>,
             ghost written: set<nat>, ghost sent: seq<nat>)
    requires subs != objs && SquareRoot(sqrt) && (active.Some? ==> active.value.Injective())
    modifies subs, objs
    ensures r.Error? <==> active.None? || (active.value.subjects != [] && sent == []) || objs.failedUpserts != old(objs.failedUpserts)
    ensures r.Recomputed? ==> r == Recomputed(|sent|, |matrix|)
    ensures active.Some? ==> Sends(active.value, subs.failedUpserts - old(subs.failedUpserts), written, sent)
    ensures active.Some? ==> Kept(active.value.Made(|active.value.subjects|), subs.points, BuiltIds(active.value, sent))
    ensures r.Error? || !Answered(active.value) || subs.failedUpserts != old(subs.failedUpserts) || objs.failedUpserts != old(objs.failedUpserts) ==>
              Retains(old(subs.points), subs.points) && Retains(old(objs.points), objs.points)
    ensures active.Some? && Answered(active.value) && subs.failedUpserts == old(subs.failedUpserts) && objs.failedUpserts == old(objs.failedUpserts) ==>
              Succeeds(active.value, r, whose, rows, matrix, subs.points, objs.points, sweptSubjects, sweptObjects)
    ensures active.Some? && Answered(active.value) && Steady(subs, old(subs.calls)) && Steady(objs, old(objs.calls)) ==>
              Succeeds(active.value, r, whose, rows, matrix, subs.points, objs.points, true, true)
  {
    r, sweptSubjects, sweptObjects, whose, rows, matrix, written, sent := Error, false, false, [], [], map[], {}, [];
    if active.Some? {
      r, sweptSubjects, sweptObjects, whose, rows, matrix, written, sent := RecomputeActive(active.value, subs, objs, sqrt);
      if Succeeds(active.value, r, whose, rows, matrix, subs.points, objs.points, sweptSubjects, sweptObjects) && (r.Recomputed? ==> sweptSubjects && sweptObjects) {
        BothSwept(active.value, r, whose, rows, matrix, subs.points, objs.points, sweptSubjects, sweptObjects);
      }
    }
  }

  lemma BothSwept(w: Window, r: Outcome, whose: seq<nat>, rows: Rows<real>, matrix: Matrix<real>, subs: Points, objs: Points, sweptSubjects: bool, sweptObjects: bool)
    requires Succeeds(w, r, whose, rows, matrix, subs, objs, sweptSubjects, sweptObjects) && (r.Recomputed? ==> sweptSubjects && sweptObjects)
    ensures Succeeds(w, r, whose, rows, matrix, subs, objs, true, true)
  {
  }

  /** The run once the active subjects are listed. */
  method RecomputeActive(w: Window, subs: Collection, objs: Collection, sqrt: real -> real)
    returns (r: Outcome, sweptSubjects: bool, sweptObjects: bool, ghost whose: seq<nat>, ghost rows: Rows<real>, ghost matrix: Matrix<real>,
             ghost written: set<nat>, ghost sent: seq<nat>)
    requires subs != objs && SquareRoot(sqrt) && w.Injective()
    modifies subs, objs
    ensures r.Error? <==> (w.subjects != [] && sent == []) || objs.failedUpserts != old(objs.failedUpserts)
    ensures r.Recomputed? ==> r == Recomputed(|sent|, |matrix|)
    ensures Sends(w, subs.failedUpserts - old(subs.failedUpserts), written, sent) && objs.failedUpserts >= old(objs.failedUpserts)
    ensures Kept(w.Made(|w.subjects|), subs.points, BuiltIds(w, sent))
    ensures r.Error? || !Answered(w) || subs.failedUpserts != old(subs.failedUpserts) || objs.failedUpserts != old(objs.failedUpserts) ==>
              Retains(old(subs.points), subs.points) && Retains(old(objs.points), objs.points)
    ensures Answered(w) && subs.failedUpserts == old(subs.failedUpserts) && objs.failedUpserts == old(objs.failedUpserts) ==>
              Succeeds(w, r, whose, rows, matrix, subs.points, objs.points, sweptSubjects, sweptObjects)
    ensures Steady(subs, old(subs.calls)) ==> subs.failedUpserts == old(subs.failedUpserts)
    ensures Steady(objs, old(objs.calls)) ==> objs.failedUpserts == old(objs.failedUpserts)
    ensures Answered(w) && Steady(subs, old(subs.calls)) && Steady(objs, old(objs.calls)) && r.Recomputed? ==> sweptSubjects && sweptObjects
  {
    r, sweptSubjects, sweptObjects, matrix := Error, false, false, map[];
    var t;
    t, whose, written, sent := SubjectHalf(w, subs, sqrt);
    rows := t.rows;
    if |w.subjects| > 0 && t.upserted == 0 {
      return;
    }
    var ok, objects;
    ok, objects, sweptSubjects, sweptObjects, matrix := ObjectHalf(w, t, subs, objs, sqrt, whose, sent);
    if ok {
      r := Recomputed(t.upserted, objects);
    }
  }

  lemma SomeSent(w: Window, written: set<nat>, sent: seq<nat>)
    requires Lists(w.Landed(written), 0, |w.subjects|, sent)
    ensures sent != [] ==> AnyBuildable(w)
  {
    if sent != [] {
      assert sent[0] in sent && w.Landed(written)(sent[0]);
    }
  }

  lemma SomeBuilt(w: Window, whose: seq<nat>)
    requires w.Picks(0, |w.subjects|, whose)
    ensures whose != [] <==> AnyBuildable(w)
  {
    if whose != [] {
      assert whose[0] in whose && w.CanBuild()(whose[0]);
    }
    if i :| w.Buildable(i) {
      assert w.CanBuild()(i) && i in whose;
    }
  }
}
