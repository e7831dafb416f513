/** A vector collection behind a remote interface whose every call may fail, and the sweep
    that removes stale points from it. */
module Collections {
  import opened Wrappers
  import opened SparseVectors

  type Id = nat

  type Points = map<Id, Sparse>

  /** How a write is answered. A broken write may still have landed, in any part. */
  datatype Reply = Done | Broken(landed: set<Id>)

  const SCROLL_PAGE: nat := 1000

  const BATCH: nat := 100

  function Only(points: Points, keep: set<Id>): Points {
    map id | id in points && id in keep :: points[id]
  }

  /** Nothing of `before` is lost; a point may have been overwritten. */
  ghost predicate Retains(before: Points, after: Points) {
    before.Keys <= after.Keys
  }

  /** Every point satisfies `made`. */
  ghost predicate All(made: (Id, Sparse) -> bool, points: Points) {
    forall id :: id in points ==> made(id, points[id])
  }

  /** None of the points stored before is gone; each stored one is as it was or newly made. */
  ghost predicate Stored(made: (Id, Sparse) -> bool, before: Points, now: Points) {
    && Retains(before, now)
    && forall id :: id in now ==> (id in before && now[id] == before[id]) || made(id, now[id])
  }

  /** Every id of the keep-set holds a newly made vector. */
  ghost predicate Kept(made: (Id, Sparse) -> bool, now: Points, keep: set<Id>) {
    forall id :: id in keep ==> id in now && made(id, now[id])
  }

  lemma WriteKeeps(made: (Id, Sparse) -> bool, made': (Id, Sparse) -> bool, before: Points, now: Points, keep: set<Id>, vectors: Points, landed: set<Id>)
    requires forall id, v :: made(id, v) ==> made'(id, v)
    requires Stored(made, before, now) && All(made', vectors)
    ensures Stored(made', before, now + Only(vectors, landed))
    ensures Kept(made, now, keep) && landed == vectors.Keys ==> Kept(made', now + Only(vectors, landed), keep + vectors.Keys)
  {
  }

  /** From call n on nothing fails. */
  ghost predicate Calm(c: Collection, n: nat) {
    forall k :: k >= n ==> !c.scrollFails(k) && c.reply(k).Done?
  }

  ghost predicate Steady(c: Collection, n: nat) {
    c.named && Calm(c, n)
  }

  class Collection {
    const reply: nat -> Reply
    const scrollFails: nat -> bool
    /** Whether the physical collection name can be resolved. */
    const named: bool
    var points: Points
    var calls: nat
    ghost var failedUpserts: nat

    constructor (reply: nat -> Reply, scrollFails: nat -> bool, named: bool, points: Points)
      ensures this.points == points && failedUpserts == 0
    {
      this.reply, this.scrollFails, this.named, this.points, calls, failedUpserts := reply, scrollFails, named, points, 0, 0;
    }

    method Upsert(batch: Points) returns (ok: bool)
      modifies this
      ensures ok ==> points == old(points) + batch && failedUpserts == old(failedUpserts)
      ensures !ok ==> failedUpserts == old(failedUpserts) + 1
      ensures !ok ==> exists landed :: points == old(points) + Only(batch, landed)
      ensures ok <==> batch == map[] || (named && reply(old(calls)).Done?)
      ensures calls >= old(calls)
    {
      if batch == map[] {
        assert points == points + batch;
        return true;
      }
      if !named {
        failedUpserts := failedUpserts + 1;
        assert points == points + Only(batch, {});
        return false;
      }
      var answer := reply(calls);
      calls := calls + 1;
      if answer.Broken? {
        points, failedUpserts := points + Only(batch, answer.landed), failedUpserts + 1;
        return false;
      }
      points := points + batch;
      return true;
    }

    /** Resolve the physical name before any write. */
    method Resolve() returns (ok: bool)
      modifies this`failedUpserts
      ensures ok == named && failedUpserts == old(failedUpserts) + if ok then 0 else 1
    {
      ok := named;
      if !ok {
        failedUpserts := failedUpserts + 1;
      }
    }

    method Delete(ids: set<Id>) returns (ok: bool)
      modifies this`points, this`calls
      ensures ok ==> points == old(points) - ids
      ensures !ok ==> exists landed :: landed <= ids && points == old(points) - landed
      ensures ok == reply(old(calls)).Done? && calls == old(calls) + 1
    {
      var answer := reply(calls);
      calls := calls + 1;
      if answer.Broken? {
        points := points - answer.landed * ids;
        return false;
      }
      points := points - ids;
      return true;
    }

    /** A page of ids in ascending order from `offset` on, and where the next page starts. */
    method Scroll(offset: Option<Id>) returns (ok: bool, page: seq<Id>, next: Option<Id>)
      modifies this`calls
      ensures ok ==> Page(points.Keys, offset, page, next)
      ensures ok == !scrollFails(old(calls)) && calls == old(calls) + 1
    {
      ok := !scrollFails(calls);
      calls := calls + 1;
      page, next := [], None;
      var rest := From(points.Keys, offset);
      while |page| < SCROLL_PAGE && rest != {}
        invariant forall id :: id in From(points.Keys, offset) <==> id in page || id in rest
        invariant forall j, k :: 0 <= j < k < |page| ==> page[j] < page[k]
        invariant forall k, id :: 0 <= k < |page| && id in rest ==> page[k] < id
        invariant calls == old(calls) + 1
        invariant |page| <= SCROLL_PAGE && (rest != {} || page != [] || From(points.Keys, offset) == {})
        decreases rest
      {
        var id := Least(rest);
        page, rest := page + [id], rest - {id};
      }
      if rest != {} {
        var id := Least(rest);
        next := Some(id);
      }
    }
  }

  function From(ids: set<Id>, offset: Option<Id>): set<Id> {
    match offset
    case None => ids
    case Some(lo) => set id | id in ids && id >= lo
  }

  /** `page` is the ids of `ids` from `offset` up to `next`, which is the first id after them. */
  ghost predicate Page(ids: set<Id>, offset: Option<Id>, page: seq<Id>, next: Option<Id>) {
    && (forall j, k :: 0 <= j < k < |page| ==> page[j] < page[k])
    && (forall id :: id in page <==> id in From(ids, offset) && (next.Some? ==> id < next.value))
    && (next.Some? ==> page != [] && next.value in From(ids, offset))
  }

  method Least(ids: set<Id>) returns (least: Id)
    requires ids != {}
    ensures least in ids && forall id :: id in ids ==> least <= id
  {
    least :| least in ids;
    var todo := ids - {least};
    while todo != {}
      invariant todo <= ids && least in ids && forall id :: id in ids && id !in todo ==> least <= id
      decreases todo
    {
      var id :| id in todo;
      todo := todo - {id};
      if id < least {
        least := id;
      }
    }
  }

  /** The stale ids found by scrolling to the end, each once; only a failing scroll stops it. */
  method ListStale(c: Collection, keep: set<Id>) returns (ok: bool, stale: seq<Id>)
    modifies c`calls
    ensures ok ==> forall id :: id in stale <==> id in c.points && id !in keep
    ensures forall j, k :: 0 <= j < k < |stale| ==> stale[j] < stale[k]
    ensures c.calls >= old(c.calls) && (Calm(c, old(c.calls)) ==> ok)
  {
    stale := [];
    var offset: Option<Id> := None;
    ghost var ahead := c.points.Keys;
    while true
      invariant ahead == From(c.points.Keys, offset) && c.calls >= old(c.calls)
      invariant forall id :: id in stale <==> id in c.points && id !in keep && id !in ahead
      invariant forall j, k :: 0 <= j < k < |stale| ==> stale[j] < stale[k]
      invariant forall k, id :: 0 <= k < |stale| && id in ahead ==> stale[k] < id
      decreases ahead
    {
      var page, next;
      ok, page, next := c.Scroll(offset);
      if !ok {
        return;
      }
      forall i | 0 <= i < |page| ensures page[i] in ahead {
        assert page[i] in page;
      }
      ghost var found := stale;
      for k := 0 to |page|
        invariant forall id :: id in stale <==> id in found || (id in page[..k] && id !in keep)
        invariant forall i, j :: 0 <= i < j < |stale| ==> stale[i] < stale[j]
        invariant forall j, i :: 0 <= j < |stale| && k <= i < |page| ==> stale[j] < page[i]
      {
        if page[k] !in keep {
          stale := stale + [page[k]];
        }
      }
      assert page[..|page|] == page;
      if next == None || page == [] {
        return;
      }
      assert page[0] in ahead && page[0] < next.value;
      offset := next;
      ahead := From(c.points.Keys, offset);
      forall k, id | 0 <= k < |stale| && id in ahead ensures stale[k] < id {
        assert stale[k] in found || stale[k] in page;
      }
    }
  }

  /** Delete every point whose id is not kept. Whatever fails, a kept point survives
      unchanged, nothing is added and no more is reported removed than is gone. When nothing
      fails the sweep succeeds, and then exactly the kept points remain. */
  method CleanupStalePoints(c: Collection, keep: set<Id>) returns (removed: nat, ok: bool)
    modifies c`points, c`calls
    ensures Only(c.points, keep) == Only(old(c.points), keep)
    ensures forall id :: id in c.points ==> id in old(c.points) && c.points[id] == old(c.points)[id]
    ensures ok ==> c.points == Only(old(c.points), keep)
    ensures ok ==> removed == |old(c.points).Keys - keep|
    ensures Calm(c, old(c.calls)) ==> ok
    ensures removed <= |old(c.points).Keys - c.points.Keys|
  {
    var stale;
    ok, stale := ListStale(c, keep);
    if !ok {
      return 0, false;
    }
    ghost var before := c.points;
    assert Ids(stale) == before.Keys - keep;
    removed, ok := DeleteBatches(c, stale);
    ghost var gone :| Ids(stale[..removed]) <= gone <= Ids(stale) && c.points == before - gone;
    SweepOutcome(before, keep, stale, removed, gone);
  }

  /** What is left when at least the first `removed` of the stale points are gone. */
  lemma SweepOutcome(before: Points, keep: set<Id>, stale: seq<Id>, removed: nat, gone: set<Id>)
    requires (forall j, k :: 0 <= j < k < |stale| ==> stale[j] < stale[k]) && Ids(stale) == before.Keys - keep
    requires removed <= |stale| && Ids(stale[..removed]) <= gone <= Ids(stale)
    ensures Only(before - gone, keep) == Only(before, keep)
    ensures removed == |stale| ==> before - gone == Only(before, keep) && removed == |before.Keys - keep|
    ensures removed <= |before.Keys - (before - gone).Keys|
  {
    Remaining(before, keep, gone);
    DistinctCount(stale[..removed]);
    SubsetSize(Ids(stale[..removed]), gone);
    if removed == |stale| {
      assert stale[..removed] == stale;
    }
  }

  lemma Remaining(before: Points, keep: set<Id>, gone: set<Id>)
    requires gone <= before.Keys && gone !! keep
    ensures Only(before - gone, keep) == Only(before, keep)
    ensures before.Keys - (before - gone).Keys == gone
    ensures gone == before.Keys - keep ==> before - gone == Only(before, keep)
  {
  }

  /** Delete the listed points batch by batch, stopping at a failure: exactly the batches
      before it are gone for sure. */
  method DeleteBatches(c: Collection, stale: seq<Id>) returns (removed: nat, ok: bool)
    requires forall id :: id in stale ==> id in c.points
    modifies c`points, c`calls
    ensures removed <= |stale| && (ok ==> removed == |stale|) && (Calm(c, old(c.calls)) ==> ok)
    ensures exists gone :: Ids(stale[..removed]) <= gone <= Ids(stale) && c.points == old(c.points) - gone
  {
    var start := 0;
    while start < |stale|
      invariant 0 <= start <= |stale|
      invariant c.points == old(c.points) - Ids(stale[..start]) && c.calls >= old(c.calls)
    {
      var end := if start + BATCH < |stale| then start + BATCH else |stale|;
      ghost var was := c.points;
      var done := c.Delete(Ids(stale[start..end]));
      if !done {
        ghost var landed :| landed <= Ids(stale[start..end]) && c.points == was - landed;
        assert c.points == old(c.points) - (Ids(stale[..start]) + landed);
        return start, false;
      }
      assert Ids(stale[..end]) == Ids(stale[..start]) + Ids(stale[start..end]) by {
        assert stale[..end] == stale[..start] + stale[start..end];
      }
      start := end;
    }
    return start, true;
  }

  lemma SubsetSize(a: set<Id>, b: set<Id>)
    requires a <= b
    ensures |a| <= |b|
  {
    assert b == a + (b - a);
  }

  function Ids(ids: seq<Id>): set<Id> {
    set id | id in ids
  }

  lemma {:induction false} DistinctCount(ids: seq<Id>)
    requires forall j, k :: 0 <= j < k < |ids| ==> ids[j] < ids[k]
    ensures |Ids(ids)| == |ids|
  {
    if ids != [] {
      var last := ids[|ids| - 1];
      DistinctCount(ids[..|ids| - 1]);
      assert Ids(ids) == Ids(ids[..|ids| - 1]) + {last};
    }
  }
}
