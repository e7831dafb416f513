/** The object co-occurrence matrix, built in memory-bounded passes, for an arbitrary
    addition: no associativity, commutativity or unit law is used, so the claim holds
    of floating-point sums bit for bit. */
module Cooccurrence {

  type Id = nat

  datatype CoEntry<V> = CoEntry(id: Id, score: V)

  type Rows<V> = seq<seq<CoEntry<V>>>

  /** The accumulator's arithmetic. */
  datatype Arith<!V> = Arith(zero: V, add: (V, V) -> V)

  type Matrix<V> = map<Id, map<Id, V>>

  // ------------------------------------------------ reference: one cell at a time

  function FoldLeft<V>(ar: Arith<V>, xs: seq<V>): V {
    if xs == [] then ar.zero else ar.add(FoldLeft(ar, xs[..|xs| - 1]), xs[|xs| - 1])
  }

  /** Scores of `other` in one row, in order. */
  function ScoresIn<V>(row: seq<CoEntry<V>>, other: Id): seq<V> {
    if row == [] then []
    else ScoresIn(row[..|row| - 1], other) + (if row[|row| - 1].id == other then [row[|row| - 1].score] else [])
  }

  /** What one row contributes to cell (target, other): its scores of `other`, once per
      occurrence of `target` among its first n entries. */
  function RowContribs<V>(row: seq<CoEntry<V>>, n: nat, target: Id, other: Id): seq<V>
    requires n <= |row|
  {
    if n == 0 then []
    else RowContribs(row, n - 1, target, other) + (if row[n - 1].id == target && other != target then ScoresIn(row, other) else [])
  }

  /** All contributions to cell (target, other) of the first n rows, in order. */
  function Contribs<V>(rows: Rows<V>, n: nat, target: Id, other: Id): seq<V>
    requires n <= |rows|
  {
    if n == 0 then []
    else Contribs(rows, n - 1, target, other) + RowContribs(rows[n - 1], |rows[n - 1]|, target, other)
  }

  /** The pass a target is assigned to; like a Go map lookup, a missing id reads as 0. */
  function PassOf(passOf: map<Id, nat>, id: Id): nat {
    if id in passOf then passOf[id] else 0
  }

  /** Contributions to cell (t, o) that a pass has folded in when n rows, j targets of
      row n and k partners of target j are behind it; none for another pass's target. */
  function Cell<V>(rows: Rows<V>, passOf: map<Id, nat>, pass: nat, n: nat, j: nat, k: nat, t: Id, o: Id): seq<V>
    requires Position(rows, n, j, k)
  {
    if PassOf(passOf, t) != pass then []
    else if n == |rows| then Contribs(rows, n, t, o)
    else Contribs(rows, n, t, o) + RowContribs(rows[n], j, t, o)
         + (if j < |rows[n]| && rows[n][j].id == t && o != t then ScoresIn(rows[n][..k], o) else [])
  }

  predicate Position<V>(rows: Rows<V>, n: nat, j: nat, k: nat) {
    (n == |rows| && j == 0 && k == 0) || (n < |rows| && ((j < |rows[n]| && k <= |rows[n]|) || (j == |rows[n]| && k == 0)))
  }

  /** Cell m[t][o] is the left-to-right sum of c, and absent when c is empty. */
  ghost predicate CellIs<V>(ar: Arith<V>, m: Matrix<V>, t: Id, o: Id, c: seq<V>) {
    if c == [] then !(t in m && o in m[t]) else t in m && o in m[t] && m[t][o] == FoldLeft(ar, c)
  }

  ghost predicate Building<V>(ar: Arith<V>, rows: Rows<V>, passOf: map<Id, nat>, pass: nat, n: nat, j: nat, k: nat, m: Matrix<V>)
    requires Position(rows, n, j, k)
  {
    && (forall t :: t in m ==> m[t] != map[])
    && (forall t, o {:trigger Cell(rows, passOf, pass, n, j, k, t, o)} :: CellIs(ar, m, t, o, Cell(rows, passOf, pass, n, j, k, t, o)))
  }

  /** The rows of the matrix whose targets are assigned to `pass`, complete and nothing else. */
  ghost predicate IsPass<V>(ar: Arith<V>, rows: Rows<V>, passOf: map<Id, nat>, pass: nat, m: Matrix<V>) {
    Building(ar, rows, passOf, pass, |rows|, 0, 0, m)
  }

  /** The unpartitioned matrix: all targets in one pass. */
  ghost predicate IsWhole<V>(ar: Arith<V>, rows: Rows<V>, m: Matrix<V>) {
    IsPass(ar, rows, map[], 0, m)
  }

  // ------------------------------------------------ accumulate

  /** Go's accum[t][o] += score on nested maps created on demand. */
  function Bump<V>(ar: Arith<V>, m: Matrix<V>, t: Id, o: Id, score: V): Matrix<V> {
    var row := if t in m then m[t] else map[];
    m[t := row[o := ar.add(if o in row then row[o] else ar.zero, score)]]
  }

  lemma BumpCell<V>(ar: Arith<V>, m: Matrix<V>, t: Id, o: Id, c: seq<V>, score: V)
    requires CellIs(ar, m, t, o, c)
    ensures CellIs(ar, Bump(ar, m, t, o, score), t, o, c + [score])
  {
    assert (c + [score])[..|c|] == c;
  }

  lemma CellNext<V>(rows: Rows<V>, passOf: map<Id, nat>, pass: nat, n: nat, j: nat, k: nat, t: Id, o: Id)
    requires n < |rows| && j < |rows[n]| && k < |rows[n]|
    ensures Cell(rows, passOf, pass, n, j, k + 1, t, o) ==
            Cell(rows, passOf, pass, n, j, k, t, o)
            + (if PassOf(passOf, t) == pass && rows[n][j].id == t && rows[n][k].id == o && o != t then [rows[n][k].score] else [])
  {
    assert rows[n][..k + 1][..k] == rows[n][..k];
  }

  lemma BumpElsewhere<V>(ar: Arith<V>, m: Matrix<V>, target: Id, other: Id, score: V, t: Id, o: Id, c: seq<V>)
    requires CellIs(ar, m, t, o, c) && !(t == target && o == other)
    ensures CellIs(ar, Bump(ar, m, target, other, score), t, o, c)
  {
  }

  /** One partner of one target. */
  lemma VisitPartner<V>(ar: Arith<V>, rows: Rows<V>, passOf: map<Id, nat>, pass: nat, n: nat, j: nat, k: nat, m: Matrix<V>, m': Matrix<V>)
    requires n < |rows| && j < |rows[n]| && k < |rows[n]| && PassOf(passOf, rows[n][j].id) == pass
    requires Building(ar, rows, passOf, pass, n, j, k, m)
    requires m' == if rows[n][k].id == rows[n][j].id then m else Bump(ar, m, rows[n][j].id, rows[n][k].id, rows[n][k].score)
    ensures Building(ar, rows, passOf, pass, n, j, k + 1, m')
  {
    forall t, o {:trigger Cell(rows, passOf, pass, n, j, k + 1, t, o)}
      ensures CellIs(ar, m', t, o, Cell(rows, passOf, pass, n, j, k + 1, t, o))
    {
      CellVisited(ar, rows, passOf, pass, n, j, k, m, m', t, o);
    }
  }

  lemma CellVisited<V>(ar: Arith<V>, rows: Rows<V>, passOf: map<Id, nat>, pass: nat, n: nat, j: nat, k: nat, m: Matrix<V>, m': Matrix<V>, t: Id, o: Id)
    requires n < |rows| && j < |rows[n]| && k < |rows[n]| && PassOf(passOf, rows[n][j].id) == pass
    requires CellIs(ar, m, t, o, Cell(rows, passOf, pass, n, j, k, t, o))
    requires m' == if rows[n][k].id == rows[n][j].id then m else Bump(ar, m, rows[n][j].id, rows[n][k].id, rows[n][k].score)
    ensures CellIs(ar, m', t, o, Cell(rows, passOf, pass, n, j, k + 1, t, o))
  {
    var target, other := rows[n][j].id, rows[n][k];
    var c := Cell(rows, passOf, pass, n, j, k, t, o);
    CellNext(rows, passOf, pass, n, j, k, t, o);
    if t == target && o == other.id && o != t {
      BumpCell(ar, m, t, o, c, other.score);
    } else {
      assert c + [] == c;
      if other.id != target {
        BumpElsewhere(ar, m, target, other.id, other.score, t, o, c);
      }
    }
  }

  /** Two positions with the same contributions everywhere are interchangeable. */
  lemma SameCells<V>(ar: Arith<V>, rows: Rows<V>, passOf: map<Id, nat>, pass: nat, n: nat, j: nat, k: nat, n': nat, j': nat, k': nat, m: Matrix<V>)
    requires Position(rows, n, j, k) && Position(rows, n', j', k')
    requires forall t, o :: Cell(rows, passOf, pass, n, j, k, t, o) == Cell(rows, passOf, pass, n', j', k', t, o)
    requires Building(ar, rows, passOf, pass, n, j, k, m)
    ensures Building(ar, rows, passOf, pass, n', j', k', m)
  {
  }

  lemma CellAfterTarget<V>(rows: Rows<V>, passOf: map<Id, nat>, pass: nat, n: nat, j: nat, k: nat, t: Id, o: Id)
    requires n < |rows| && j < |rows[n]| && k == if PassOf(passOf, rows[n][j].id) == pass then |rows[n]| else 0
    ensures Cell(rows, passOf, pass, n, j, k, t, o) == Cell(rows, passOf, pass, n, j + 1, 0, t, o)
  {
    var row := rows[n];
    assert row[..|row|] == row && |ScoresIn(row[..0], o)| == 0;
    var before, done := Contribs(rows, n, t, o), RowContribs(row, j, t, o);
    if PassOf(passOf, t) == pass && row[j].id == t && o != t {
      assert before + done + ScoresIn(row, o) == before + (done + ScoresIn(row, o));
    }
  }

  /** Target j of row n is finished, or belongs to another pass. */
  lemma TargetDone<V>(ar: Arith<V>, rows: Rows<V>, passOf: map<Id, nat>, pass: nat, n: nat, j: nat, m: Matrix<V>)
    requires n < |rows| && j < |rows[n]|
    requires Building(ar, rows, passOf, pass, n, j, if PassOf(passOf, rows[n][j].id) == pass then |rows[n]| else 0, m)
    ensures Building(ar, rows, passOf, pass, n, j + 1, 0, m)
  {
    var k := if PassOf(passOf, rows[n][j].id) == pass then |rows[n]| else 0;
    forall t, o ensures Cell(rows, passOf, pass, n, j, k, t, o) == Cell(rows, passOf, pass, n, j + 1, 0, t, o) {
      CellAfterTarget(rows, passOf, pass, n, j, k, t, o);
    }
    SameCells(ar, rows, passOf, pass, n, j, k, n, j + 1, 0, m);
  }

  lemma RowDone<V>(ar: Arith<V>, rows: Rows<V>, passOf: map<Id, nat>, pass: nat, n: nat, m: Matrix<V>)
    requires n < |rows| && Building(ar, rows, passOf, pass, n, |rows[n]|, 0, m)
    ensures Building(ar, rows, passOf, pass, n + 1, 0, 0, m)
  {
    forall t, o ensures Cell(rows, passOf, pass, n, |rows[n]|, 0, t, o) == Cell(rows, passOf, pass, n + 1, 0, 0, t, o) {
    }
    SameCells(ar, rows, passOf, pass, n, |rows[n]|, 0, n + 1, 0, 0, m);
  }

  /** One memory-bounded pass over all rows. */
  method Accumulate<V>(ar: Arith<V>, rows: Rows<V>, passOf: map<Id, nat>, pass: nat) returns (accum: Matrix<V>)
    ensures IsPass(ar, rows, passOf, pass, accum)
  {
    accum := map[];
    for n := 0 to |rows|
      invariant Building(ar, rows, passOf, pass, n, 0, 0, accum)
    {
      var row := rows[n];
      for j := 0 to |row|
        invariant Building(ar, rows, passOf, pass, n, j, 0, accum)
      {
        if PassOf(passOf, row[j].id) == pass {
          for k := 0 to |row|
            invariant Building(ar, rows, passOf, pass, n, j, k, accum)
          {
            ghost var before := accum;
            if row[k].id != row[j].id {
              accum := Bump(ar, accum, row[j].id, row[k].id, row[k].score);
            }
            VisitPartner(ar, rows, passOf, pass, n, j, k, before, accum);
          }
        }
        TargetDone(ar, rows, passOf, pass, n, j, accum);
      }
      RowDone(ar, rows, passOf, pass, n, accum);
    }
  }

  /** Passes partition the matrix: whatever the assignment, every row of the unpartitioned
      matrix is built in exactly one pass, with exactly the same cells. */
  lemma PassesPartitionMatrix<V>(ar: Arith<V>, rows: Rows<V>, passOf: map<Id, nat>, ms: seq<Matrix<V>>, whole: Matrix<V>)
    requires forall t :: PassOf(passOf, t) < |ms|
    requires forall p :: 0 <= p < |ms| ==> IsPass(ar, rows, passOf, p, ms[p])
    requires IsWhole(ar, rows, whole)
    ensures forall t :: t in whole ==> t in ms[PassOf(passOf, t)] && ms[PassOf(passOf, t)][t] == whole[t]
    ensures forall p, t :: 0 <= p < |ms| && t in ms[p] ==> PassOf(passOf, t) == p && t in whole
    ensures forall p, q :: 0 <= p < q < |ms| ==> ms[p].Keys !! ms[q].Keys
  {
    forall p, t | 0 <= p < |ms| && t in ms[p] ensures PassOf(passOf, t) == p && t in whole {
      var o :| o in ms[p][t];
      SameCell(ar, rows, passOf, p, ms[p], whole, t, o);
    }
    forall t | t in whole ensures t in ms[PassOf(passOf, t)] && ms[PassOf(passOf, t)][t] == whole[t] {
      var p := PassOf(passOf, t);
      assert IsPass(ar, rows, passOf, p, ms[p]);
      var o :| o in whole[t];
      SameCell(ar, rows, passOf, p, ms[p], whole, t, o);
      forall o ensures (o in ms[p][t] <==> o in whole[t]) && (o in whole[t] ==> ms[p][t][o] == whole[t][o]) {
        SameCell(ar, rows, passOf, p, ms[p], whole, t, o);
      }
    }
    forall p, q | 0 <= p < q < |ms| ensures ms[p].Keys !! ms[q].Keys {
      assert forall t :: t in ms[p].Keys ==> t in ms[p] && PassOf(passOf, t) == p;
    }
  }

  lemma SameCell<V>(ar: Arith<V>, rows: Rows<V>, passOf: map<Id, nat>, p: nat, m: Matrix<V>, whole: Matrix<V>, t: Id, o: Id)
    requires IsPass(ar, rows, passOf, p, m) && IsWhole(ar, rows, whole)
    ensures t in m && o in m[t] ==> PassOf(passOf, t) == p
    ensures PassOf(passOf, t) == p ==> ((t in m && o in m[t]) <==> (t in whole && o in whole[t]))
    ensures t in m && o in m[t] ==> t in whole && o in whole[t] && m[t][o] == whole[t][o]
  {
    assert CellIs(ar, m, t, o, Cell(rows, passOf, p, |rows|, 0, 0, t, o));
    assert CellIs(ar, whole, t, o, Cell(rows, map[], 0, |rows|, 0, 0, t, o));
  }
}
