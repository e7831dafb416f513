/** The recovery sweeper: republishes rows whose stream entry was lost, but only when
    the stream owes nothing. */
module Sweeper {
  import opened Wrappers
  import opened Pipeline
  import opened Embedder

  /** An oldest row of a nonempty candidate set. */
  method Oldest(rows: map<ItemId, Row>, cands: set<ItemId>) returns (best: ItemId)
    requires cands != {} && forall i :: i in cands ==> i in rows
    ensures best in cands && forall i :: i in cands ==> rows[best].updatedAt <= rows[i].updatedAt
  {
    best :| best in cands;
    var rest := cands - {best};
    while rest != {}
      invariant best in cands && rest <= cands
      invariant forall i :: i in cands && i !in rest ==> rows[best].updatedAt <= rows[i].updatedAt
      decreases rest
    {
      var i :| i in rest;
      if rows[i].updatedAt < rows[best].updatedAt {
        best := i;
      }
      rest := rest - {i};
    }
  }

  /** SELECT ... WHERE state = st AND updated_at < cutoff ORDER BY updated_at LIMIT limit:
      distinct matching rows, oldest first, and nothing older is left behind. */
  ghost predicate Selected(rows: map<ItemId, Row>, ids: seq<ItemId>, st: ItemState, cutoff: int, limit: nat) {
    && (forall k :: 0 <= k < |ids| ==> ids[k] in rows && rows[ids[k]].state == st && rows[ids[k]].updatedAt < cutoff)
    && (forall j, k :: 0 <= j < k < |ids| ==> ids[j] != ids[k] && rows[ids[j]].updatedAt <= rows[ids[k]].updatedAt)
    && |ids| <= limit
    && (forall i :: i in rows && rows[i].state == st && rows[i].updatedAt < cutoff && i !in ids ==>
          |ids| == limit && forall k :: 0 <= k < |ids| ==> rows[ids[k]].updatedAt <= rows[i].updatedAt)
  }

  /** ids are `limit` of the candidates, or all of them, oldest first. */
  ghost predicate OldestOf(rows: map<ItemId, Row>, ids: seq<ItemId>, cands: set<ItemId>, limit: nat)
    requires cands <= rows.Keys
  {
    && (forall k :: 0 <= k < |ids| ==> ids[k] in cands)
    && (forall j, k :: 0 <= j < k < |ids| ==> ids[j] != ids[k] && rows[ids[j]].updatedAt <= rows[ids[k]].updatedAt)
    && |ids| <= limit
    && (forall i :: i in cands && i !in ids ==> |ids| == limit && forall k :: 0 <= k < |ids| ==> rows[ids[k]].updatedAt <= rows[i].updatedAt)
  }

  method TakeOldest(rows: map<ItemId, Row>, cands: set<ItemId>, limit: nat) returns (ids: seq<ItemId>)
    requires cands <= rows.Keys
    ensures OldestOf(rows, ids, cands, limit)
  {
    ids := [];
    var rest := cands;
    while |ids| < limit && rest != {}
      invariant |ids| <= limit && rest <= cands
      invariant forall i :: i in cands ==> i in rest || i in ids
      invariant forall k :: 0 <= k < |ids| ==> ids[k] in cands && ids[k] !in rest
      invariant forall j, k :: 0 <= j < k < |ids| ==> ids[j] != ids[k] && rows[ids[j]].updatedAt <= rows[ids[k]].updatedAt
      invariant forall i, k :: i in rest && 0 <= k < |ids| ==> rows[ids[k]].updatedAt <= rows[i].updatedAt
      decreases rest
    {
      var best := Oldest(rows, rest);
      ids := ids + [best];
      rest := rest - {best};
    }
  }

  method SelectStranded(rows: map<ItemId, Row>, st: ItemState, cutoff: int, limit: nat) returns (ids: seq<ItemId>)
    ensures Selected(rows, ids, st, cutoff, limit)
  {
    var cands := set i | i in rows && rows[i].state == st && rows[i].updatedAt < cutoff;
    ids := TakeOldest(rows, cands, limit);
  }

  /** How the outside world treats one sweep. */
  datatype SweepWeather = SweepWeather(inspectOk: bool, listOk: bool, reset: Fault, publish: seq<Fault>)

  function FaultAt(fs: seq<Fault>, k: nat): Fault {
    if k < |fs| then fs[k] else Done
  }

  predicate Drained(s: State) {
    s.queue == map[] && s.pel == map[]
  }

  predicate InQueue(queue: map<Entry, ItemId>, i: ItemId) {
    exists e :: e in queue && queue[e] == i
  }

  lemma QueueGrows(queue: map<Entry, ItemId>, e: Entry, i: ItemId)
    requires e !in queue
    ensures forall j :: InQueue(queue[e := i], j) <==> j == i || InQueue(queue, j)
  {
    forall j ensures InQueue(queue[e := i], j) <==> j == i || InQueue(queue, j) {
      if j == i {
        assert queue[e := i][e] == j;
      } else if InQueue(queue, j) {
        var d :| d in queue && queue[d] == j;
        assert queue[e := i][d] == j;
      }
    }
  }

  /** s' is s with more entries on the stream, each for one of the items. */
  ghost predicate OnlyPublished(s: State, s': State, items: seq<ItemId>) {
    && s' == s.(queue := s'.queue, nextEntry := s'.nextEntry)
    && (forall i :: InQueue(s.queue, i) ==> InQueue(s'.queue, i))
    && (forall i :: InQueue(s'.queue, i) ==> i in items || InQueue(s.queue, i))
  }

  /** XADD one item. */
  method Xadd(ns: Namespace, i: ItemId, ghost R: State -> bool)
    requires Closed(ns.env, ns.mode, R) && R(ns.s) && Ordinary(ns.s) && i < ns.s.nextId
    modifies ns
    ensures R(ns.s) && Onward(ns.env, ns.mode, old(ns.s), ns.s) && OnlyPublished(old(ns.s), ns.s, [i]) && InQueue(ns.s.queue, i)
  {
    QueueGrows(ns.s.queue, ns.s.nextEntry, i);
    ns.Take(Publish(i), R);
  }

  lemma PublishedMore(s: State, s': State, s'': State, items: seq<ItemId>, i: ItemId)
    requires OnlyPublished(s, s', items) && OnlyPublished(s', s'', [i]) && i in items
    ensures OnlyPublished(s, s'', items)
  {
  }

  /** Somewhere between s and s' item i was on the stream. */
  ghost predicate WasQueued(env: Env, mode: Mode, s: State, s': State, i: ItemId) {
    exists st :: Onward(env, mode, s, st) && InQueue(st.queue, i) && Onward(env, mode, st, s')
  }

  lemma QueuedLater(env: Env, mode: Mode, s: State, s': State, s'': State, i: ItemId)
    requires WasQueued(env, mode, s, s', i) && Onward(env, mode, s', s'')
    ensures WasQueued(env, mode, s, s'', i)
  {
    var st :| Onward(env, mode, s, st) && InQueue(st.queue, i) && Onward(env, mode, st, s');
    OnwardThrough(env, mode, st, s', s'');
  }

  lemma QueuedNow(env: Env, mode: Mode, s: State, s': State, i: ItemId)
    requires Onward(env, mode, s, s') && InQueue(s'.queue, i)
    ensures WasQueued(env, mode, s, s', i)
  {
    OnwardSelf(env, mode, s');
  }

  method PublishOne(ns: Namespace, i: ItemId, fault: Fault, acts: seq<Action>, ghost R: State -> bool)
    requires Closed(ns.env, ns.mode, R) && R(ns.s) && Ordinary(ns.s) && i < ns.s.nextId
    modifies ns
    ensures R(ns.s) && Onward(ns.env, ns.mode, old(ns.s), ns.s) && (fault != Lost ==> InQueue(ns.s.queue, i))
    ensures acts == [] ==> if fault == Lost then ns.s == old(ns.s) else OnlyPublished(old(ns.s), ns.s, [i])
  {
    ns.Others(acts, R);
    ghost var was := ns.s;
    if fault != Lost {
      Xadd(ns, i, R);
      OnwardThrough(ns.env, ns.mode, old(ns.s), was, ns.s);
    }
  }

  /** The first n items whose publish was not lost have been on the stream since s. */
  ghost predicate AllQueued(env: Env, mode: Mode, s: State, s': State, items: seq<ItemId>, faults: seq<Fault>, n: nat)
    requires n <= |items|
  {
    forall k :: 0 <= k < n && FaultAt(faults, k) != Lost ==> WasQueued(env, mode, s, s', items[k])
  }

  lemma AllQueuedNext(env: Env, mode: Mode, s: State, s': State, s'': State, items: seq<ItemId>, faults: seq<Fault>, n: nat, m: nat)
    requires m == n + 1 && m <= |items| && AllQueued(env, mode, s, s', items, faults, n)
    requires Onward(env, mode, s, s') && Onward(env, mode, s', s'') && (FaultAt(faults, n) != Lost ==> InQueue(s''.queue, items[n]))
    ensures Onward(env, mode, s, s'') && AllQueued(env, mode, s, s'', items, faults, m)
  {
    OnwardThrough(env, mode, s, s', s'');
    forall k | 0 <= k < m && FaultAt(faults, k) != Lost ensures WasQueued(env, mode, s, s'', items[k]) {
      if k < n {
        QueuedLater(env, mode, s, s', s'', items[k]);
      } else {
        QueuedNow(env, mode, s, s'', items[k]);
      }
    }
  }

  /** Undisturbed, nothing but the stream has changed and those items are on it. */
  ghost predicate OnStream(s: State, s': State, items: seq<ItemId>, faults: seq<Fault>, n: nat)
    requires n <= |items|
  {
    OnlyPublished(s, s', items) && forall k :: 0 <= k < n && FaultAt(faults, k) != Lost ==> InQueue(s'.queue, items[k])
  }

  lemma OnStreamNext(s: State, s': State, s'': State, items: seq<ItemId>, faults: seq<Fault>, n: nat, m: nat)
    requires m == n + 1 && m <= |items| && OnStream(s, s', items, faults, n)
    requires if FaultAt(faults, n) == Lost then s'' == s' else OnlyPublished(s', s'', [items[n]]) && InQueue(s''.queue, items[n])
    ensures OnStream(s, s'', items, faults, m)
  {
    if FaultAt(faults, n) != Lost {
      PublishedMore(s, s', s'', items, items[n]);
    }
  }

  /** XADD each item, others acting in between; a failed publish is skipped, the row stays
      pending for the next tick. */
  method PublishAll(ns: Namespace, items: seq<ItemId>, faults: seq<Fault>, noise: seq<seq<Action>>, from: nat, ghost R: State -> bool)
    requires Closed(ns.env, ns.mode, R) && R(ns.s) && Ordinary(ns.s)
    requires forall k :: 0 <= k < |items| ==> items[k] < ns.s.nextId
    modifies ns
    ensures R(ns.s) && Onward(ns.env, ns.mode, old(ns.s), ns.s)
    ensures AllQueued(ns.env, ns.mode, old(ns.s), ns.s, items, faults, |items|)
    ensures Quiet(noise) ==> OnStream(old(ns.s), ns.s, items, faults, |items|)
  {
    OnwardSelf(ns.env, ns.mode, ns.s);
    for k := 0 to |items|
      invariant R(ns.s) && Onward(ns.env, ns.mode, old(ns.s), ns.s)
      invariant AllQueued(ns.env, ns.mode, old(ns.s), ns.s, items, faults, k)
      invariant Quiet(noise) ==> OnStream(old(ns.s), ns.s, items, faults, k)
    {
      ghost var was := ns.s;
      PublishOne(ns, items[k], FaultAt(faults, k), At(noise, from + k), R);
      AllQueuedNext(ns.env, ns.mode, old(ns.s), was, ns.s, items, faults, k, k + 1);
      if Quiet(noise) {
        OnStreamNext(old(ns.s), was, ns.s, items, faults, k, k + 1);
      }
    }
  }

  /** Back to pending, for rows that were in flight. */
  function BackToPending(rows: map<ItemId, Row>, ids: seq<ItemId>, now: int): map<ItemId, Row> {
    map i | i in rows :: if i in ids then rows[i].(state := Pending, updatedAt := now) else rows[i]
  }

  lemma NothingReset(s: State)
    ensures BackToPending(s.rows, [], s.now) == s.rows && OnlyPublished(s, s, [])
  {
  }

  /** Reset the stranded rows in flight, unless the update is lost. */
  method ResetStranded(ns: Namespace, cutoff: int, batch: nat, fault: Fault, ghost R: State -> bool) returns (reset: seq<ItemId>)
    requires Closed(ns.env, ns.mode, R) && R(ns.s) && Ordinary(ns.s)
    modifies ns
    ensures R(ns.s) && Onward(ns.env, ns.mode, old(ns.s), ns.s)
    ensures if fault == Lost then reset == [] else Selected(old(ns.s.rows), reset, InFlight, cutoff, batch)
    ensures ns.s == old(ns.s).(rows := BackToPending(old(ns.s.rows), reset, old(ns.s.now)))
    ensures forall k :: 0 <= k < |reset| ==> reset[k] < ns.s.nextId
  {
    if fault == Lost {
      OnwardSelf(ns.env, ns.mode, ns.s);
      NothingReset(ns.s);
      return [];
    }
    reset := SelectStranded(ns.s.rows, InFlight, cutoff, batch);
    Numbered(ns.s, reset, InFlight, cutoff, batch);
    ResetOutcome(ns.env, ns.s, reset);
    ns.Take(SweepReset(set i | i in reset), R);
  }

  lemma Numbered(s: State, ids: seq<ItemId>, st: ItemState, cutoff: int, limit: nat)
    requires Ordinary(s) && Selected(s.rows, ids, st, cutoff, limit)
    ensures forall k :: 0 <= k < |ids| ==> ids[k] < s.nextId
  {
  }

  lemma ResetOutcome(env: Env, s: State, reset: seq<ItemId>)
    requires forall k :: 0 <= k < |reset| ==> reset[k] in s.rows && s.rows[reset[k]].state == InFlight
    ensures Enabled(env, s, SweepReset(set i | i in reset))
    ensures Apply(env, s, SweepReset(set i | i in reset)) == s.(rows := BackToPending(s.rows, reset, s.now))
  {
    assert Apply(env, s, SweepReset(set i | i in reset)).rows == BackToPending(s.rows, reset, s.now);
  }

  /** What a sweep did: `listed` and `resetAt` are the states its two statements saw, `done` the
      one before it publishes. */
  datatype Swept = Swept(listed: State, resetAt: State, done: State)

  ghost predicate Sweeps(env: Env, mode: Mode, s: State, v: Swept, pending: seq<ItemId>, reset: seq<ItemId>, pendingStale: nat, inFlightStale: nat, batch: nat, fault: Fault) {
    && Onward(env, mode, s, v.listed) && Onward(env, mode, v.listed, v.resetAt) && Ordinary(v.done)
    && Selected(v.listed.rows, pending, Pending, v.listed.now - pendingStale, batch)
    && (if fault == Lost then reset == [] else Selected(v.resetAt.rows, reset, InFlight, v.listed.now - inFlightStale, batch))
    && v.done == v.resetAt.(rows := BackToPending(v.resetAt.rows, reset, v.resetAt.now))
    && forall k :: 0 <= k < |pending + reset| ==> (pending + reset)[k] < v.done.nextId
  }

  /** What the sweep selects, others acting between its two statements. */
  method SelectBoth(ns: Namespace, pendingStale: nat, inFlightStale: nat, batch: nat, wx: SweepWeather, noise: seq<seq<Action>>, ghost R: State -> bool)
    returns (pending: seq<ItemId>, reset: seq<ItemId>, ghost v: Swept)
    requires Closed(ns.env, ns.mode, R) && R(ns.s) && Ordinary(ns.s) && wx.listOk
    modifies ns
    ensures R(ns.s) && Onward(ns.env, ns.mode, old(ns.s), ns.s) && ns.s == v.done
    ensures Sweeps(ns.env, ns.mode, old(ns.s), v, pending, reset, pendingStale, inFlightStale, batch, wx.reset)
    ensures Quiet(noise) ==> v.listed == old(ns.s) && v.resetAt == old(ns.s)
  {
    ns.Others(At(noise, 0), R);
    ghost var listed := ns.s;
    var now := ns.s.now;
    pending := SelectStranded(ns.s.rows, Pending, now - pendingStale, batch);
    Numbered(ns.s, pending, Pending, now - pendingStale, batch);
    ns.Others(At(noise, 1), R);
    ghost var resetAt := ns.s;
    reset := ResetStranded(ns, now - inFlightStale, batch, wx.reset, R);
    v := Swept(listed, resetAt, ns.s);
    OnwardThrough(ns.env, ns.mode, old(ns.s), listed, resetAt);
    OnwardThrough(ns.env, ns.mode, old(ns.s), resetAt, ns.s);
  }

  /** One sweep of the namespace, others acting between its statements. Nothing happens
      unless the stream is drained when inspected. What is selected was stranded when its
      statement looked, what was in flight is pending afterwards, and every item whose publish
      is not lost gets on the stream. Undisturbed, the oldest stranded rows of each kind, up to
      `batch`, end up pending with a queued entry, and no other row changes. */
  method SweepNamespace(ns: Namespace, pendingStale: nat, inFlightStale: nat, batch: nat, wx: SweepWeather, noise: seq<seq<Action>>, ghost R: State -> bool)
    returns (pending: seq<ItemId>, reset: seq<ItemId>, ghost v: Swept)
    requires Closed(ns.env, ns.mode, R) && R(ns.s) && Ordinary(ns.s)
    modifies ns
    ensures R(ns.s) && Onward(ns.env, ns.mode, old(ns.s), ns.s)
    ensures var sent := if wx.reset == Done then pending + reset else pending;
            if !wx.inspectOk || old(ns.s.queue) != map[] || old(ns.s.pel) != map[] || !wx.listOk then ns.s == old(ns.s) && pending == [] && reset == []
            else
              && Sweeps(ns.env, ns.mode, old(ns.s), v, pending, reset, pendingStale, inFlightStale, batch, wx.reset)
              && Onward(ns.env, ns.mode, v.done, ns.s) && AllQueued(ns.env, ns.mode, v.done, ns.s, sent, wx.publish, |sent|)
    ensures Quiet(noise) ==> v.listed == old(ns.s) && v.resetAt == old(ns.s)
    ensures Quiet(noise) ==>
              var sent := if wx.reset == Done then pending + reset else pending;
              OnStream(old(ns.s).(rows := BackToPending(old(ns.s.rows), reset, old(ns.s.now))), ns.s, sent, wx.publish, |sent|)
  {
    pending, reset, v := [], [], Swept(ns.s, ns.s, ns.s);
    OnwardSelf(ns.env, ns.mode, ns.s);
    NothingReset(ns.s);
    if !wx.inspectOk || !Drained(ns.s) || !wx.listOk {
      return;
    }
    pending, reset, v := SelectBoth(ns, pendingStale, inFlightStale, batch, wx, noise, R);
    var sent := if wx.reset == Done then pending + reset else pending;
    assert forall k :: 0 <= k < |pending| ==> pending[k] == (pending + reset)[k];
    PublishAll(ns, sent, wx.publish, noise, 2, R);
    OnwardThrough(ns.env, ns.mode, old(ns.s), v.done, ns.s);
  }
}
