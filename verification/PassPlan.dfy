/** Packing co-occurrence targets into passes so that no pass exceeds a budget. */
module PassPlan {
  import opened Cooccurrence

  // ------------------------------------------------ loads

  /** Contributions a target receives from the first n entries of a row: k - 1 per occurrence. */
  function RowLoad<V>(row: seq<CoEntry<V>>, n: nat, id: Id): nat
    requires n <= |row|
  {
    if n == 0 then 0 else RowLoad(row, n - 1, id) + (if row[n - 1].id == id then |row| - 1 else 0)
  }

  function Load<V>(rows: Rows<V>, n: nat, id: Id): nat
    requires n <= |rows|
  {
    if n == 0 then 0 else Load(rows, n - 1, id) + RowLoad(rows[n - 1], |rows[n - 1]|, id)
  }

  predicate InRow<V>(row: seq<CoEntry<V>>, n: nat, id: Id)
    requires n <= |row|
  {
    exists k :: 0 <= k < n && row[k].id == id
  }

  predicate InRows<V>(rows: Rows<V>, n: nat, id: Id)
    requires n <= |rows|
  {
    exists r :: 0 <= r < n && InRow(rows[r], |rows[r]|, id)
  }

  /** A missing id reads as 0. */
  function Get(load: map<Id, nat>, id: Id): nat {
    if id in load then load[id] else 0
  }

  /** load has exactly the ids seen, with these loads. */
  ghost predicate Tallies(load: map<Id, nat>, seen: Id -> bool, loads: Id -> nat) {
    forall id :: (id in load <==> seen(id)) && Get(load, id) == loads(id)
  }

  lemma TallyOne(load: map<Id, nat>, seen: Id -> bool, loads: Id -> nat, seen': Id -> bool, loads': Id -> nat, x: Id, l: nat)
    requires Tallies(load, seen, loads)
    requires forall id :: (seen'(id) <==> seen(id) || id == x) && loads'(id) == loads(id) + if id == x then l else 0
    ensures Tallies(load[x := Get(load, x) + l], seen', loads')
  {
  }

  /** Targets and loads when r rows and k entries of row r are behind. */
  ghost function SeenAt<V>(rows: Rows<V>, r: nat, k: nat): Id -> bool
    requires r < |rows| && k <= |rows[r]|
  {
    (id: Id) => InRows(rows, r, id) || InRow(rows[r], k, id)
  }

  ghost function LoadsAt<V>(rows: Rows<V>, r: nat, k: nat): Id -> nat
    requires r < |rows| && k <= |rows[r]|
  {
    (id: Id) => Load(rows, r, id) + RowLoad(rows[r], k, id)
  }

  ghost function SeenIn<V>(rows: Rows<V>, r: nat): Id -> bool
    requires r <= |rows|
  {
    (id: Id) => InRows(rows, r, id)
  }

  ghost function LoadsIn<V>(rows: Rows<V>, r: nat): Id -> nat
    requires r <= |rows|
  {
    (id: Id) => Load(rows, r, id)
  }

  lemma NextEntry<V>(rows: Rows<V>, r: nat, k: nat, id: Id)
    requires r < |rows| && k < |rows[r]|
    ensures SeenAt(rows, r, k + 1)(id) <==> SeenAt(rows, r, k)(id) || id == rows[r][k].id
    ensures LoadsAt(rows, r, k + 1)(id) == LoadsAt(rows, r, k)(id) + if id == rows[r][k].id then |rows[r]| - 1 else 0
  {
    assert id == rows[r][k].id ==> InRow(rows[r], k + 1, id);
    assert InRow(rows[r], k, id) ==> InRow(rows[r], k + 1, id);
  }

  lemma NextRow<V>(rows: Rows<V>, r: nat, id: Id)
    requires r < |rows|
    ensures SeenAt(rows, r, 0)(id) <==> SeenIn(rows, r)(id)
    ensures LoadsAt(rows, r, 0)(id) == LoadsIn(rows, r)(id)
    ensures SeenIn(rows, r + 1)(id) <==> SeenAt(rows, r, |rows[r]|)(id)
    ensures LoadsIn(rows, r + 1)(id) == LoadsAt(rows, r, |rows[r]|)(id)
  {
    assert InRow(rows[r], |rows[r]|, id) ==> InRows(rows, r + 1, id);
    assert InRows(rows, r, id) ==> InRows(rows, r + 1, id);
  }

  lemma TallyEntry<V>(rows: Rows<V>, r: nat, k: nat, load: map<Id, nat>)
    requires r < |rows| && k < |rows[r]| && Tallies(load, SeenAt(rows, r, k), LoadsAt(rows, r, k))
    ensures Tallies(load[rows[r][k].id := Get(load, rows[r][k].id) + |rows[r]| - 1], SeenAt(rows, r, k + 1), LoadsAt(rows, r, k + 1))
  {
    var x, l := rows[r][k].id, |rows[r]| - 1;
    var seen', loads' := SeenAt(rows, r, k + 1), LoadsAt(rows, r, k + 1);
    forall id: Id ensures (seen'(id) <==> SeenAt(rows, r, k)(id) || id == x) && loads'(id) == LoadsAt(rows, r, k)(id) + if id == x then l else 0 {
      NextEntry(rows, r, k, id);
    }
    TallyOne(load, SeenAt(rows, r, k), LoadsAt(rows, r, k), seen', loads', x, l);
  }

  lemma TallyRow<V>(rows: Rows<V>, r: nat, load: map<Id, nat>)
    requires r < |rows|
    ensures Tallies(load, SeenIn(rows, r), LoadsIn(rows, r)) ==> Tallies(load, SeenAt(rows, r, 0), LoadsAt(rows, r, 0))
    ensures Tallies(load, SeenAt(rows, r, |rows[r]|), LoadsAt(rows, r, |rows[r]|)) ==> Tallies(load, SeenIn(rows, r + 1), LoadsIn(rows, r + 1))
  {
    forall id: Id ensures && (SeenAt(rows, r, 0)(id) <==> SeenIn(rows, r)(id)) && LoadsAt(rows, r, 0)(id) == LoadsIn(rows, r)(id)
                          && (SeenIn(rows, r + 1)(id) <==> SeenAt(rows, r, |rows[r]|)(id)) && LoadsIn(rows, r + 1)(id) == LoadsAt(rows, r, |rows[r]|)(id) {
      NextRow(rows, r, id);
    }
  }

  /** Every object in some row is a target, with the contributions it will receive. */
  method TargetLoads<V>(rows: Rows<V>) returns (load: map<Id, nat>)
    ensures forall id :: id in load <==> InRows(rows, |rows|, id)
    ensures forall id :: id in load ==> load[id] == Load(rows, |rows|, id)
  {
    load := map[];
    for r := 0 to |rows|
      invariant Tallies(load, SeenIn(rows, r), LoadsIn(rows, r))
    {
      var row := rows[r];
      TallyRow(rows, r, load);
      for k := 0 to |row|
        invariant Tallies(load, SeenAt(rows, r, k), LoadsAt(rows, r, k))
      {
        TallyEntry(rows, r, k, load);
        load := load[row[k].id := Get(load, row[k].id) + |row| - 1];
      }
      TallyRow(rows, r, load);
    }
    forall id ensures (id in load <==> InRows(rows, |rows|, id)) && Get(load, id) == Load(rows, |rows|, id) {
      assert (id in load <==> SeenIn(rows, |rows|)(id)) && Get(load, id) == LoadsIn(rows, |rows|)(id);
    }
  }

  // ------------------------------------------------ sums over the visiting order

  ghost predicate Enumerates(order: seq<Id>, load: map<Id, nat>) {
    && (forall id :: id in load <==> id in order)
    && (forall j, k :: 0 <= j < k < |order| ==> order[j] != order[k])
  }

  /** Load of pass p among the first n targets visited. */
  ghost function PassLoad(order: seq<Id>, load: map<Id, nat>, passOf: map<Id, nat>, n: nat, p: nat): nat
    requires n <= |order| && forall k :: 0 <= k < n ==> order[k] in load && order[k] in passOf
  {
    if n == 0 then 0
    else PassLoad(order, load, passOf, n - 1, p) + (if passOf[order[n - 1]] == p then load[order[n - 1]] else 0)
  }

  /** Number of targets with a positive load in pass p among the first n visited. */
  ghost function Positives(order: seq<Id>, load: map<Id, nat>, passOf: map<Id, nat>, n: nat, p: nat): nat
    requires n <= |order| && forall k :: 0 <= k < n ==> order[k] in load && order[k] in passOf
  {
    if n == 0 then 0
    else Positives(order, load, passOf, n - 1, p) + (if passOf[order[n - 1]] == p && load[order[n - 1]] > 0 then 1 else 0)
  }

  lemma {:induction false} AssignmentFrame(order: seq<Id>, load: map<Id, nat>, passOf: map<Id, nat>, n: nat, p: nat, x: Id, q: nat)
    requires n <= |order| && forall k :: 0 <= k < n ==> order[k] in load && order[k] in passOf && order[k] != x
    ensures PassLoad(order, load, passOf[x := q], n, p) == PassLoad(order, load, passOf, n, p)
    ensures Positives(order, load, passOf[x := q], n, p) == Positives(order, load, passOf, n, p)
  {
    if n > 0 {
      AssignmentFrame(order, load, passOf, n - 1, p, x, q);
    }
  }

  // ------------------------------------------------ planPasses

  ghost function Loads(order: seq<Id>, load: map<Id, nat>, passOf: map<Id, nat>, n: nat): nat -> nat
    requires n <= |order| && forall k :: 0 <= k < n ==> order[k] in load && order[k] in passOf
  {
    (p: nat) => PassLoad(order, load, passOf, n, p)
  }

  ghost function Counts(order: seq<Id>, load: map<Id, nat>, passOf: map<Id, nat>, n: nat): nat -> nat
    requires n <= |order| && forall k :: 0 <= k < n ==> order[k] in load && order[k] in passOf
  {
    (p: nat) => Positives(order, load, passOf, n, p)
  }

  /** Passes 0..cur with loads L and positive-load counts P respect the budget: each stays
      within it or holds exactly one positive-load target, and any two neighbours exceed it. */
  ghost predicate Balanced(L: nat -> nat, P: nat -> nat, budget: nat, cur: nat) {
    && (forall p :: 0 <= p <= cur ==> L(p) <= budget || P(p) == 1)
    && (forall p: nat, q: nat :: q == p + 1 && q <= cur ==> L(p) + L(q) > budget)
  }

  /** The loop's state: later passes are empty. */
  ghost predicate Packing(L: nat -> nat, P: nat -> nat, budget: nat, cur: nat) {
    && Balanced(L, P, budget, cur)
    && (L(cur) == 0 ==> P(cur) == 0)
    && (forall p :: p > cur ==> L(p) == 0 && P(p) == 0)
  }

  /** The arithmetic of placing a load l in pass `next`. */
  lemma PlaceLoad(L: nat -> nat, P: nat -> nat, L': nat -> nat, P': nat -> nat, budget: nat, cur: nat, next: nat, l: nat)
    requires Packing(L, P, budget, cur)
    requires next == if L(cur) > 0 && L(cur) + l > budget then cur + 1 else cur
    requires forall p :: L'(p) == L(p) + (if p == next then l else 0)
    requires forall p :: P'(p) == P(p) + (if p == next && l > 0 then 1 else 0)
    ensures Packing(L', P', budget, next)
    ensures L'(next) == (if next == cur then L(cur) else 0) + l
  {
    forall p: nat, q: nat | q == p + 1 && q <= next ensures L'(p) + L'(q) > budget {
      assert p < cur ==> L(p) + L(q) > budget;
    }
  }

  /** Placing target n, in the open pass or, when it would overflow, in a new one. */
  lemma PlaceTarget(order: seq<Id>, load: map<Id, nat>, passOf: map<Id, nat>, n: nat, budget: nat, cur: nat, next: nat)
    requires n < |order| && forall k :: 0 <= k < n ==> order[k] in load && order[k] in passOf && order[k] != order[n]
    requires order[n] in load && Packing(Loads(order, load, passOf, n), Counts(order, load, passOf, n), budget, cur)
    requires var current := PassLoad(order, load, passOf, n, cur);
             next == if current > 0 && current + load[order[n]] > budget then cur + 1 else cur
    ensures Packing(Loads(order, load, passOf[order[n] := next], n + 1), Counts(order, load, passOf[order[n] := next], n + 1), budget, next)
    ensures PassLoad(order, load, passOf[order[n] := next], n + 1, next) ==
            (if next == cur then PassLoad(order, load, passOf, n, cur) else 0) + load[order[n]]
  {
    var passOf' := passOf[order[n] := next];
    var L, P := Loads(order, load, passOf, n), Counts(order, load, passOf, n);
    var L', P' := Loads(order, load, passOf', n + 1), Counts(order, load, passOf', n + 1);
    forall p: nat
      ensures L'(p) == L(p) + (if p == next then load[order[n]] else 0)
      ensures P'(p) == P(p) + (if p == next && load[order[n]] > 0 then 1 else 0)
    {
      AssignmentFrame(order, load, passOf, n, p, order[n], next);
    }
    PlaceLoad(L, P, L', P', budget, cur, next, load[order[n]]);
  }

  /** The first n targets of the order are placed, in passes up to `cur`, the open one
      carrying `current`. */
  ghost predicate Placed(order: seq<Id>, load: map<Id, nat>, passOf: map<Id, nat>, n: nat, budget: nat, cur: nat, current: nat) {
    && Enumerates(order, load) && n <= |order|
    && (forall k :: 0 <= k < n ==> order[k] in passOf)
    && (forall k :: n <= k < |order| ==> order[k] !in passOf)
    && (forall id :: id in passOf ==> id in load && passOf[id] <= cur)
    && Packing(Loads(order, load, passOf, n), Counts(order, load, passOf, n), budget, cur)
    && current == PassLoad(order, load, passOf, n, cur)
  }

  lemma PlaceNext(order: seq<Id>, load: map<Id, nat>, passOf: map<Id, nat>, n: nat, budget: nat, cur: nat, current: nat, next: nat)
    requires n < |order| && Placed(order, load, passOf, n, budget, cur, current)
    requires next == if current > 0 && current + load[order[n]] > budget then cur + 1 else cur
    ensures Placed(order, load, passOf[order[n] := next], n + 1, budget, next, (if next == cur then current else 0) + load[order[n]])
  {
    PlaceTarget(order, load, passOf, n, budget, cur, next);
  }

  lemma PlaceNone(order: seq<Id>, load: map<Id, nat>, budget: nat)
    requires Enumerates(order, load)
    ensures Placed(order, load, map[], 0, budget, 0, 0)
  {
  }

  /** The greedy assignment, for any order in which the load map is visited. */
  method Pack(load: map<Id, nat>, order: seq<Id>, budget: nat) returns (passOf: map<Id, nat>, passes: nat, ghost last: nat)
    requires Enumerates(order, load)
    ensures passes > 0 && Placed(order, load, passOf, |order|, budget, passes - 1, last)
  {
    passOf, passes := map[], 0;
    var current: nat := 0;
    PlaceNone(order, load, budget);
    for n := 0 to |order|
      invariant Placed(order, load, passOf, n, budget, passes, current)
    {
      var l := load[order[n]];
      ghost var before, open, carried := passOf, passes, current;
      if current > 0 && current + l > budget {
        passes := passes + 1;
        current := 0;
      }
      passOf := passOf[order[n] := passes];
      current := current + l;
      PlaceNext(order, load, before, n, budget, open, carried, passes);
    }
    passes, last := passes + 1, current;
  }

  /** Some visiting order of the load map. */
  method VisitKeys(load: map<Id, nat>) returns (order: seq<Id>)
    ensures Enumerates(order, load)
  {
    order := [];
    var todo := load.Keys;
    while todo != {}
      invariant todo <= load.Keys
      invariant forall id :: id in load <==> id in todo || id in order
      invariant forall k :: 0 <= k < |order| ==> order[k] !in todo
      invariant forall j, k :: 0 <= j < k < |order| ==> order[j] != order[k]
      decreases todo
    {
      var id :| id in todo;
      todo := todo - {id};
      order := order + [id];
    }
  }

  const COOCCURRENCE_BUDGET: nat := 10_000_000

  /** Assign every target to a pass, whatever order the map is visited in. */
  method PlanPasses<V>(rows: Rows<V>, budget: nat) returns (load: map<Id, nat>, order: seq<Id>, passOf: map<Id, nat>, passes: nat)
    ensures forall id :: id in load <==> InRows(rows, |rows|, id)
    ensures Enumerates(order, load) && forall id :: id in load ==> load[id] == Load(rows, |rows|, id)
    ensures forall id :: id in passOf <==> id in load
    ensures passes > 0 && forall id :: PassOf(passOf, id) < passes
    ensures Balanced(Loads(order, load, passOf, |order|), Counts(order, load, passOf, |order|), budget, passes - 1)
    ensures passes <= 1 + 2 * (TotalLoad(order, load, |order|) / (budget + 1))
  {
    load := TargetLoads(rows);
    order := VisitKeys(load);
    ghost var last;
    passOf, passes, last := Pack(load, order, budget);
    PassCountBound(order, load, passOf, budget, passes);
  }

  // ------------------------------------------------ how many passes

  ghost function TotalLoad(order: seq<Id>, load: map<Id, nat>, n: nat): nat
    requires n <= |order| && forall k :: 0 <= k < n ==> order[k] in load
  {
    if n == 0 then 0 else TotalLoad(order, load, n - 1) + load[order[n - 1]]
  }

  ghost function SumPasses(order: seq<Id>, load: map<Id, nat>, passOf: map<Id, nat>, n: nat, p: nat): nat
    requires n <= |order| && forall k :: 0 <= k < n ==> order[k] in load && order[k] in passOf
  {
    if p == 0 then 0 else SumPasses(order, load, passOf, n, p - 1) + PassLoad(order, load, passOf, n, p - 1)
  }

  lemma {:induction false} SumPassesStep(order: seq<Id>, load: map<Id, nat>, passOf: map<Id, nat>, n: nat, p: nat)
    requires 0 < n <= |order| && forall k :: 0 <= k < n ==> order[k] in load && order[k] in passOf
    ensures SumPasses(order, load, passOf, n, p) ==
            SumPasses(order, load, passOf, n - 1, p) + (if passOf[order[n - 1]] < p then load[order[n - 1]] else 0)
  {
    if p > 0 {
      SumPassesStep(order, load, passOf, n, p - 1);
    }
  }

  /** Every contribution is in some pass. */
  lemma {:induction false} PassesCarryTotal(order: seq<Id>, load: map<Id, nat>, passOf: map<Id, nat>, n: nat, p: nat)
    requires n <= |order| && forall k :: 0 <= k < n ==> order[k] in load && order[k] in passOf && passOf[order[k]] < p
    ensures SumPasses(order, load, passOf, n, p) == TotalLoad(order, load, n)
  {
    if n == 0 {
      NoLoadYet(order, load, passOf, p);
    } else {
      PassesCarryTotal(order, load, passOf, n - 1, p);
      SumPassesStep(order, load, passOf, n, p);
    }
  }

  lemma {:induction false} NoLoadYet(order: seq<Id>, load: map<Id, nat>, passOf: map<Id, nat>, p: nat)
    ensures SumPasses(order, load, passOf, 0, p) == 0
  {
    if p > 0 {
      NoLoadYet(order, load, passOf, p - 1);
    }
  }

  lemma {:induction false} PairsExceedBudget(order: seq<Id>, load: map<Id, nat>, passOf: map<Id, nat>, budget: nat, cur: nat, half: nat)
    requires forall k :: 0 <= k < |order| ==> order[k] in load && order[k] in passOf
    requires Balanced(Loads(order, load, passOf, |order|), Counts(order, load, passOf, |order|), budget, cur) && 2 * half <= cur + 1
    ensures SumPasses(order, load, passOf, |order|, 2 * half) >= half * (budget + 1)
  {
    if half > 0 {
      PairsExceedBudget(order, load, passOf, budget, cur, half - 1);
      var q := 2 * half - 2;
      var L := Loads(order, load, passOf, |order|);
      assert L(q) + L(q + 1) > budget;
      assert SumPasses(order, load, passOf, |order|, 2 * half)
          == SumPasses(order, load, passOf, |order|, q) + PassLoad(order, load, passOf, |order|, q) + PassLoad(order, load, passOf, |order|, q + 1);
      assert half * (budget + 1) == (half - 1) * (budget + 1) + (budget + 1);
    }
  }

  lemma {:induction false} SumPassesMonotone(order: seq<Id>, load: map<Id, nat>, passOf: map<Id, nat>, n: nat, p: nat, q: nat)
    requires n <= |order| && p <= q && forall k :: 0 <= k < n ==> order[k] in load && order[k] in passOf
    ensures SumPasses(order, load, passOf, n, p) <= SumPasses(order, load, passOf, n, q)
    decreases q
  {
    if p < q {
      SumPassesMonotone(order, load, passOf, n, p, q - 1);
    }
  }

  lemma MultiplyMonotone(a: nat, b: nat, d: nat)
    requires a <= b
    ensures a * d <= b * d
  {
  }

  lemma DivideBound(half: nat, d: nat, total: nat)
    requires d > 0 && half * d <= total
    ensures half <= total / d
  {
    var q := total / d;
    assert total < q * d + d;
    assert (q + 1) * d == q * d + d;
    if q + 1 <= half {
      MultiplyMonotone(q + 1, half, d);
    }
  }

  /** Greedy packing needs at most one pass more than twice the unavoidable number. */
  lemma PassCountBound(order: seq<Id>, load: map<Id, nat>, passOf: map<Id, nat>, budget: nat, passes: nat)
    requires forall k :: 0 <= k < |order| ==> order[k] in load && order[k] in passOf
    requires passes > 0 && Balanced(Loads(order, load, passOf, |order|), Counts(order, load, passOf, |order|), budget, passes - 1)
    requires forall id :: PassOf(passOf, id) < passes
    ensures passes <= 1 + 2 * (TotalLoad(order, load, |order|) / (budget + 1))
  {
    var half := passes / 2;
    PairsExceedBudget(order, load, passOf, budget, passes - 1, half);
    SumPassesMonotone(order, load, passOf, |order|, 2 * half, passes);
    assert forall k :: 0 <= k < |order| ==> passOf[order[k]] == PassOf(passOf, order[k]);
    PassesCarryTotal(order, load, passOf, |order|, passes);
    DivideBound(half, budget + 1, TotalLoad(order, load, |order|));
  }

  // ------------------------------------------------ memory of a pass

  /** Ids other than t in the rows that contain t. */
  ghost function Partners<V>(rows: Rows<V>, n: nat, t: Id): set<Id>
    requires n <= |rows|
  {
    if n == 0 then {}
    else Partners(rows, n - 1, t) + (if InRow(rows[n - 1], |rows[n - 1]|, t) then OtherIds(rows[n - 1], |rows[n - 1]|, t) else {})
  }

  ghost function OtherIds<V>(row: seq<CoEntry<V>>, n: nat, t: Id): set<Id>
    requires n <= |row|
  {
    if n == 0 then {} else OtherIds(row, n - 1, t) + (if row[n - 1].id != t then {row[n - 1].id} else {})
  }

  lemma {:induction false} OtherIdsSize<V>(row: seq<CoEntry<V>>, n: nat, t: Id)
    requires n <= |row|
    ensures |OtherIds(row, n, t)| <= n
    ensures InRow(row, n, t) ==> |OtherIds(row, n, t)| <= n - 1
  {
    if n > 0 {
      OtherIdsSize(row, n - 1, t);
      assert |OtherIds(row, n, t)| <= |OtherIds(row, n - 1, t)| + (if row[n - 1].id != t then 1 else 0);
    }
  }

  lemma {:induction false} RowLoadPositive<V>(row: seq<CoEntry<V>>, n: nat, t: Id)
    requires n <= |row| && InRow(row, n, t)
    ensures RowLoad(row, n, t) >= |row| - 1
  {
    if row[n - 1].id != t {
      RowLoadPositive(row, n - 1, t);
    }
  }

  lemma {:induction false} PartnersWithinLoad<V>(rows: Rows<V>, n: nat, t: Id)
    requires n <= |rows|
    ensures |Partners(rows, n, t)| <= Load(rows, n, t)
  {
    if n > 0 {
      var row := rows[n - 1];
      PartnersWithinLoad(rows, n - 1, t);
      if InRow(row, |row|, t) {
        OtherIdsSize(row, |row|, t);
        RowLoadPositive(row, |row|, t);
      }
    }
  }

  lemma {:induction false} ScoredIsOther<V>(row: seq<CoEntry<V>>, n: nat, t: Id, o: Id)
    requires n <= |row| && o != t && ScoresIn(row[..n], o) != []
    ensures o in OtherIds(row, n, t)
  {
    if n > 0 {
      assert row[..n][..n - 1] == row[..n - 1];
      if row[n - 1].id != o {
        ScoredIsOther(row, n - 1, t, o);
      }
    }
  }

  lemma {:induction false} RowContribsPartner<V>(row: seq<CoEntry<V>>, n: nat, t: Id, o: Id)
    requires n <= |row| && RowContribs(row, n, t, o) != []
    ensures InRow(row, n, t) && o in OtherIds(row, |row|, t)
  {
    if row[n - 1].id == t && o != t && ScoresIn(row, o) != [] {
      assert row[..|row|] == row;
      ScoredIsOther(row, |row|, t, o);
    } else {
      RowContribsPartner(row, n - 1, t, o);
    }
  }

  lemma {:induction false} ContribsPartner<V>(rows: Rows<V>, n: nat, t: Id, o: Id)
    requires n <= |rows| && Contribs(rows, n, t, o) != []
    ensures o in Partners(rows, n, t)
  {
    var row := rows[n - 1];
    if RowContribs(row, |row|, t, o) != [] {
      RowContribsPartner(row, |row|, t, o);
    } else {
      ContribsPartner(rows, n - 1, t, o);
    }
  }

  lemma SubsetSize(a: set<Id>, b: set<Id>)
    requires a <= b
    ensures |a| <= |b|
  {
    assert b == a + (b - a);
  }

  /** The map a pass builds for one target never has more entries than the target's load. */
  lemma RowWithinLoad<V>(ar: Arith<V>, rows: Rows<V>, passOf: map<Id, nat>, pass: nat, m: Matrix<V>, t: Id)
    requires IsPass(ar, rows, passOf, pass, m) && t in m
    ensures |m[t]| <= Load(rows, |rows|, t) && PassOf(passOf, t) == pass
  {
    forall o | o in m[t] ensures o in Partners(rows, |rows|, t) && PassOf(passOf, t) == pass {
      assert CellIs(ar, m, t, o, Cell(rows, passOf, pass, |rows|, 0, 0, t, o));
      ContribsPartner(rows, |rows|, t, o);
    }
    assert exists o :: o in m[t];
    SubsetSize(m[t].Keys, Partners(rows, |rows|, t));
    PartnersWithinLoad(rows, |rows|, t);
  }

  ghost function Entries<V>(order: seq<Id>, m: Matrix<V>, n: nat): nat
    requires n <= |order|
  {
    if n == 0 then 0 else Entries(order, m, n - 1) + (if order[n - 1] in m then |m[order[n - 1]]| else 0)
  }

  /** Map entries of a whole pass are bounded by its load, hence by the budget unless a
      single target exceeds it. */
  lemma {:induction false} PassMemory<V>(ar: Arith<V>, rows: Rows<V>, passOf: map<Id, nat>, pass: nat, m: Matrix<V>,
                                          order: seq<Id>, load: map<Id, nat>, n: nat)
    requires IsPass(ar, rows, passOf, pass, m) && n <= |order|
    requires forall k :: 0 <= k < n ==> order[k] in load && order[k] in passOf && load[order[k]] == Load(rows, |rows|, order[k])
    ensures Entries(order, m, n) <= PassLoad(order, load, passOf, n, pass)
  {
    if n > 0 {
      PassMemory(ar, rows, passOf, pass, m, order, load, n - 1);
      if order[n - 1] in m {
        RowWithinLoad(ar, rows, passOf, pass, m, order[n - 1]);
      }
    }
  }
}
