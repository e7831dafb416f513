/** The other writers: ingest, re-embed, dead-letter redrive and the completion watcher. Each
    persists first and publishes afterwards, and a failed publish never rolls the rows back.
    As in the worker's code, `noise` is what other processes do between the statements. */
module Producers {
  import opened Wrappers
  import opened Pipeline
  import opened Embedder
  import opened Sweeper
  import Reembed

  predicate NeedsPublish(env: Env, s: State, i: ItemId, content: string) {
    i !in s.rows || s.rows[i].hash != env.hash(content)
  }

  // ------------------------------------------------ ingest

  /** What the namespace configuration says of an ingest; a limit of 0 or less is no limit. */
  datatype Gate = Unreadable | Missing | Paused | NotCatalog | Open(override: int, fallback: int)

  predicate Admitted(gate: Gate, bytes: nat) {
    && gate.Open?
    && var limit := if gate.override > 0 then gate.override else gate.fallback;
       limit <= 0 || bytes <= limit
  }

  datatype IngestOutcome = Refused | NotPersisted | NotPublished(item: ItemId) | Accepted(item: ItemId)

  /** Row i is the row of obj, or the next free id if there is none. */
  ghost predicate RowFor(s: State, obj: string, i: ItemId) {
    (i in s.rows && s.rows[i].obj == obj) || (i == s.nextId && forall j :: j in s.rows ==> s.rows[j].obj != obj)
  }

  /** Row i after an ingest of content: other rows untouched, the strategy pair kept, and
      the lifecycle restarted exactly when the content is new. */
  ghost predicate Persisted(env: Env, s: State, s': State, i: ItemId, obj: string, content: string) {
    && RowFor(s, obj, i)
    && i in s'.rows && s'.rows[i].content == content && s'.rows[i].hash == env.hash(content) && s'.rows[i].obj == obj
    && (forall j :: j != i ==> (j in s'.rows <==> j in s.rows) && (j in s'.rows ==> s'.rows[j] == s.rows[j]))
    && (if i in s.rows && s.rows[i].hash == env.hash(content)
        then s'.rows[i] == s.rows[i].(content := content, updatedAt := s.now)
        else s'.rows[i].state == Pending && s'.rows[i].attempts == 0 && s'.rows[i].updatedAt == s.now)
    && (if i in s.rows then s'.rows[i].sid == s.rows[i].sid && s'.rows[i].sver == s.rows[i].sver
        else s'.rows[i].sid == None && s'.rows[i].sver == None)
    && s'.queue == s.queue && s'.nextEntry == s.nextEntry
  }

  /** The row already has this very content. */
  ghost predicate Unchanged(env: Env, s: State, i: ItemId, content: string) {
    i in s.rows && s.rows[i].hash == env.hash(content)
  }

  method FindRow(s: State, obj: string) returns (i: ItemId)
    ensures RowFor(s, obj, i)
  {
    if j :| j in s.rows && s.rows[j].obj == obj {
      i := j;
    } else {
      i := s.nextId;
    }
  }

  /** INSERT ... ON CONFLICT DO UPDATE, reporting whether the content is new. */
  method Upsert(ns: Namespace, obj: string, content: string, ghost R: State -> bool) returns (i: ItemId, needs: bool)
    requires Closed(ns.env, ns.mode, R) && R(ns.s) && Ordinary(ns.s)
    modifies ns
    ensures R(ns.s) && Onward(ns.env, ns.mode, old(ns.s), ns.s) && Persisted(ns.env, old(ns.s), ns.s, i, obj, content) && i < ns.s.nextId
    ensures needs <==> i !in old(ns.s.rows) || old(ns.s.rows)[i].hash != ns.env.hash(content)
  {
    i := FindRow(ns.s, obj);
    needs := NeedsPublish(ns.env, ns.s, i, content);
    ns.Take(Ingest(i, obj, content), R);
  }

  /** Upsert the row, then publish it if its content is new, others acting before and in
      between: `at` is the state the upsert saw and `done` the one it left. Re-ingesting
      identical content leaves the lifecycle alone; new content restarts it; the strategy pair
      is never touched. */
  method IngestActive(ns: Namespace, obj: string, content: string, bytes: nat, gate: Gate, persist: Fault, publish: Fault,
                      noise: seq<seq<Action>>, ghost R: State -> bool)
    returns (r: IngestOutcome, ghost at: State, ghost done: State)
    requires Closed(ns.env, ns.mode, R) && R(ns.s) && Ordinary(ns.s)
    modifies ns
    ensures R(ns.s) && Onward(ns.env, ns.mode, old(ns.s), at) && Onward(ns.env, ns.mode, done, ns.s)
    ensures r.Refused? <==> !gate.Open? || 0 < gate.override < bytes || (gate.override <= 0 && 0 < gate.fallback < bytes)
    ensures r.NotPersisted? <==> !r.Refused? && persist != Done
    ensures r.Refused? ==> ns.s == old(ns.s)
    ensures r.NotPersisted? && persist == Lost ==> done == at
    ensures r.NotPersisted? && persist == Erred ==> ns.s == done && exists i :: Persisted(ns.env, at, done, i, obj, content)
    ensures r.Accepted? || r.NotPublished? ==> Persisted(ns.env, at, done, r.item, obj, content)
    ensures r.Accepted? || r.NotPublished? ==> (r.NotPublished? <==> !Unchanged(ns.env, at, r.item, content) && publish != Done)
    ensures (r.Accepted? || r.NotPublished?) && !Unchanged(ns.env, at, r.item, content) && publish != Lost ==> InQueue(ns.s.queue, r.item)
    ensures Quiet(noise) ==> at == old(ns.s)
    ensures Quiet(noise) && (r.Refused? || r.NotPersisted?) ==> ns.s == done
    ensures Quiet(noise) && (r.Accepted? || r.NotPublished?) ==>
              if !Unchanged(ns.env, at, r.item, content) && publish != Lost then OnlyPublished(done, ns.s, [r.item]) else ns.s == done
  {
    at, done := ns.s, ns.s;
    OnwardSelf(ns.env, ns.mode, ns.s);
    if !Admitted(gate, bytes) {
      return Refused, at, done;
    }
    ns.Others(At(noise, 0), R);
    at, done := ns.s, ns.s;
    OnwardSelf(ns.env, ns.mode, ns.s);
    if persist == Lost {
      return NotPersisted, at, done;
    }
    var i, needs := Upsert(ns, obj, content, R);
    done := ns.s;
    OnwardSelf(ns.env, ns.mode, ns.s);
    if persist == Erred {
      return NotPersisted, at, done;
    }
    if !needs {
      return Accepted(i), at, done;
    }
    PublishOne(ns, i, publish, At(noise, 1), R);
    r := if publish == Done then Accepted(i) else NotPublished(i);
  }

  // ------------------------------------------------ re-embed

  /** RETURNING id, in whatever order the database yields the rows. */
  method Enumerate(ids: set<ItemId>) returns (order: seq<ItemId>)
    ensures forall i :: i in order <==> i in ids
    ensures |order| == |ids|
  {
    order := [];
    var rest := ids;
    while rest != {}
      invariant rest <= ids && |order| + |rest| == |ids|
      invariant forall i :: i in order <==> i in ids && i !in rest
      decreases rest
    {
      var i :| i in rest;
      order, rest := order + [i], rest - {i};
    }
  }

  /** s' is s with run `run` opened for the target and exactly the listed rows reset. */
  ghost predicate RunOpened(s: State, s': State, only: OnlyState, target: Strategy, run: RunId, targets: seq<ItemId>) {
    && s' == s.(rows := s'.rows, runs := s'.runs, nextRun := s'.nextRun)
    && run in s'.runs && s'.runs[run] == ReembedRun(target, false, true)
    && (forall i :: i in targets ==> i in s.rows && s.rows[i].state in {Embedded, ItemState.Failed, DeadLetter})
    && (only == Stale ==> forall i :: i in s.rows && s.rows[i].state in {Embedded, ItemState.Failed, DeadLetter} ==>
          (i in targets <==> !(s.rows[i].sid == Some(target.id) && s.rows[i].sver == Some(target.version))))
    && (only == All ==> forall i :: i in s.rows && s.rows[i].state in {Embedded, ItemState.Failed, DeadLetter} ==> i in targets)
    && (only == OnlyEmbedded ==> forall i :: i in s.rows ==> (i in targets <==> s.rows[i].state == Embedded))
    && (only == OnlyFailed ==> forall i :: i in s.rows ==> (i in targets <==> s.rows[i].state in {ItemState.Failed, DeadLetter}))
    && (forall i :: i in targets ==> i in s'.rows && s'.rows[i] == s.rows[i].(state := Pending, attempts := 0, sver := None, updatedAt := s.now))
    && (forall i :: i !in targets ==> (i in s'.rows <==> i in s.rows) && (i in s'.rows ==> s'.rows[i] == s.rows[i]))
  }

  lemma StartOutcome(env: Env, s: State, only: OnlyState, target: Strategy, targets: seq<ItemId>)
    requires forall i :: i in targets <==> i in s.rows && ReembedSelects(only, s.rows[i], target)
    ensures RunOpened(s, Apply(env, s, StartReembed(only, target)), only, target, s.nextRun, targets)
  {
    var a := StartReembed(only, target);
    forall i ensures i in s.rows ==> i in Apply(env, s, a).rows && Apply(env, s, a).rows[i] == RowAfter(env, s, a, i, s.rows[i]) {
      RowsAfterShape(env, s, a, i);
    }
  }

  /** The one transaction that inserts the run row and resets the selected rows. */
  method StartReembedRun(ns: Namespace, only: OnlyState, target: Strategy, ghost R: State -> bool) returns (run: RunId, targets: seq<ItemId>)
    requires Closed(ns.env, ns.mode, R) && R(ns.s) && Ordinary(ns.s)
    modifies ns
    ensures R(ns.s) && Onward(ns.env, ns.mode, old(ns.s), ns.s) && RunOpened(old(ns.s), ns.s, only, target, run, targets)
  {
    run := ns.s.nextRun;
    targets := Enumerate(set i | i in ns.s.rows && ReembedSelects(only, ns.s.rows[i], target));
    StartOutcome(ns.env, ns.s, only, target, targets);
    ns.Take(StartReembed(only, target), R);
  }

  /** How the outside treats a trigger: what the strategy picker says, whether this process is
      already triggering, and whether the open-run lookup and the transaction succeed. */
  datatype TriggerWeather = TriggerWeather(picked: bool, enabled: bool, namespaceOk: bool, paused: bool, busy: bool, lookupOk: bool, start: Fault, publish: seq<Fault>)

  datatype Trigger = Disabled | PausedNow | Busy | Failure | Started(run: RunId, targets: seq<ItemId>)

  /** The checks before anything is written; the strategy read here is the run's target. */
  function Screen(s: State, wx: TriggerWeather): Option<Trigger> {
    if !wx.picked then Some(Failure)
    else if !wx.enabled then Some(Disabled)
    else if !wx.namespaceOk then Some(Failure)
    else if wx.paused then Some(PausedNow)
    else if s.cfg.strategy.version == "" then Some(Failure)
    else if wx.busy then Some(Busy)
    else None
  }

  /** A trigger may go ahead: catalog mode is on, the namespace runs and names a version, and
      this process is not triggering already. */
  predicate Ready(s: State, wx: TriggerWeather) {
    wx.picked && wx.enabled && wx.namespaceOk && !wx.paused && s.cfg.strategy.version != "" && !wx.busy
  }

  predicate Running(s: State) {
    exists r :: r in s.runs && s.runs[r].open
  }

  /** Start a re-embed run unless one is open: the strategy is read first, the run row and the
      reset are one later transaction for that strategy, then every reset row is published.
      `looked` is the state the open-run lookup saw, `at` the one the transaction saw and
      `done` the one it left. */
  method TriggerReEmbed(ns: Namespace, only: OnlyState, wx: TriggerWeather, noise: seq<seq<Action>>, ghost R: State -> bool)
    returns (r: Trigger, ghost looked: State, ghost at: State, ghost done: State)
    requires Closed(ns.env, ns.mode, R) && R(ns.s) && Ordinary(ns.s)
    modifies ns
    ensures R(ns.s) && Onward(ns.env, ns.mode, old(ns.s), looked) && Onward(ns.env, ns.mode, looked, at) && Onward(ns.env, ns.mode, done, ns.s)
    ensures !Ready(old(ns.s), wx) ==> !r.Started? && ns.s == old(ns.s)
    ensures (r == Disabled <==> wx.picked && !wx.enabled) && (r == PausedNow <==> wx.picked && wx.enabled && wx.namespaceOk && wx.paused)
    ensures Ready(old(ns.s), wx) ==>
              var running := exists x :: x in looked.runs && looked.runs[x].open;
              && (r == Busy <==> wx.lookupOk && running)
              && (r.Started? <==> wx.lookupOk && !running && wx.start == Done)
              && (wx.lookupOk && !running && wx.start == Erred ==> ns.s == done && exists run, targets :: RunOpened(at, done, only, old(ns.s.cfg.strategy), run, targets))
              && (!wx.lookupOk || running || wx.start == Lost ==> done == at == ns.s)
    ensures r.Started? ==> RunOpened(at, done, only, old(ns.s.cfg.strategy), r.run, r.targets)
    ensures r.Started? ==> AllQueued(ns.env, ns.mode, done, ns.s, r.targets, wx.publish, |r.targets|)
    ensures Quiet(noise) ==> looked == old(ns.s) && at == old(ns.s)
    ensures Quiet(noise) && r.Started? ==> OnStream(done, ns.s, r.targets, wx.publish, |r.targets|)
  {
    looked, at, done := ns.s, ns.s, ns.s;
    OnwardSelf(ns.env, ns.mode, ns.s);
    var target := ns.s.cfg.strategy;
    var screened := Screen(ns.s, wx);
    if screened.Some? {
      return screened.value, looked, at, done;
    }
    ns.Others(At(noise, 0), R);
    looked, at, done := ns.s, ns.s, ns.s;
    OnwardSelf(ns.env, ns.mode, ns.s);
    if !wx.lookupOk {
      return Failure, looked, at, done;
    }
    if Running(ns.s) {
      return Busy, looked, at, done;
    }
    ns.Others(At(noise, 1), R);
    at, done := ns.s, ns.s;
    OnwardSelf(ns.env, ns.mode, ns.s);
    if wx.start == Lost {
      return Failure, looked, at, done;
    }
    var run, targets := StartReembedRun(ns, only, target, R);
    done := ns.s;
    OnwardSelf(ns.env, ns.mode, ns.s);
    if wx.start == Erred {
      return Failure, looked, at, done;
    }
    TargetsNumbered(at, done, only, target, run, targets);
    PublishAll(ns, targets, wx.publish, noise, 2, R);
    r := Started(run, targets);
  }

  lemma TargetsNumbered(s: State, s': State, only: OnlyState, target: Strategy, run: RunId, targets: seq<ItemId>)
    requires RunOpened(s, s', only, target, run, targets) && Ordinary(s')
    ensures forall k :: 0 <= k < |targets| ==> targets[k] < s'.nextId
  {
    assert forall k :: 0 <= k < |targets| ==> targets[k] in targets;
  }

  // ------------------------------------------------ redrive

  datatype RedriveOutcome = NotFound | WriteFailed | Redriven

  predicate Redrivable(s: State, i: ItemId) {
    i in s.rows && s.rows[i].state in {ItemState.Failed, DeadLetter}
  }

  method RequeueOne(ns: Namespace, i: ItemId, ghost R: State -> bool)
    requires Closed(ns.env, ns.mode, R) && R(ns.s) && Ordinary(ns.s) && Redrivable(ns.s, i)
    modifies ns
    ensures R(ns.s) && Onward(ns.env, ns.mode, old(ns.s), ns.s) && i < ns.s.nextId
    ensures ns.s == old(ns.s).(rows := old(ns.s.rows)[i := old(ns.s.rows)[i].(state := Pending, attempts := 0, updatedAt := old(ns.s.now))])
  {
    ns.Take(Redrive(i), R);
  }

  /** s' is s with row i back to pending if it was failed or dead-lettered, and s otherwise. */
  ghost predicate OneRequeued(s: State, s': State, i: ItemId) {
    if i in s.rows && (s.rows[i].state == ItemState.Failed || s.rows[i].state == DeadLetter)
    then s' == s.(rows := s.rows[i := s.rows[i].(state := Pending, attempts := 0, updatedAt := s.now)])
    else s' == s
  }

  /** One failed or dead_letter row back to pending with a fresh budget, then published; any
      other row, or none, is left alone and reported as not found. A failed publish is not an
      error: the row is pending and the sweeper will find it. `at` is the state the update saw
      and `done` the one it left. */
  method RedriveCatalogItem(ns: Namespace, i: ItemId, picked: bool, enabled: bool, write: Fault, publish: Fault, noise: seq<seq<Action>>, ghost R: State -> bool)
    returns (r: RedriveOutcome, ghost at: State, ghost done: State)
    requires Closed(ns.env, ns.mode, R) && R(ns.s) && Ordinary(ns.s)
    modifies ns
    ensures R(ns.s) && Onward(ns.env, ns.mode, old(ns.s), at) && Onward(ns.env, ns.mode, done, ns.s)
    ensures !picked ==> r == WriteFailed && ns.s == old(ns.s)
    ensures picked && !enabled ==> r == NotFound && ns.s == old(ns.s)
    ensures picked && enabled ==>
              var found := i in at.rows && (at.rows[i].state == ItemState.Failed || at.rows[i].state == DeadLetter);
              && (r == WriteFailed <==> write != Done) && (r == Redriven <==> write == Done && found)
              && (if write == Lost then done == at else OneRequeued(at, done, i))
              && (if r == Redriven && publish != Lost then InQueue(ns.s.queue, i) else r != Redriven ==> ns.s == done)
    ensures Quiet(noise) ==> at == old(ns.s) && if r == Redriven && publish != Lost then OnlyPublished(done, ns.s, [i]) else ns.s == done
  {
    at, done := ns.s, ns.s;
    OnwardSelf(ns.env, ns.mode, ns.s);
    if !picked {
      return WriteFailed, at, done;
    }
    if !enabled {
      return NotFound, at, done;
    }
    ns.Others(At(noise, 0), R);
    at, done := ns.s, ns.s;
    OnwardSelf(ns.env, ns.mode, ns.s);
    if write == Lost {
      return WriteFailed, at, done;
    }
    var eligible := Redrivable(ns.s, i);
    if eligible {
      RequeueOne(ns, i, R);
      done := ns.s;
      OnwardSelf(ns.env, ns.mode, ns.s);
    }
    if write == Erred {
      return WriteFailed, at, done;
    }
    if !eligible {
      return NotFound, at, done;
    }
    PublishOne(ns, i, publish, At(noise, 1), R);
    r := Redriven;
  }

  /** s' is s with exactly the dead_letter rows back to pending. */
  ghost predicate DeadRequeued(s: State, s': State, targets: seq<ItemId>) {
    && s' == s.(rows := s'.rows) && s'.rows.Keys == s.rows.Keys
    && (forall i :: i in targets <==> RowIs(s, i, DeadLetter))
    && forall i :: i in s.rows ==> s'.rows[i] == if i in targets then s.rows[i].(state := Pending, attempts := 0, updatedAt := s.now) else s.rows[i]
  }

  method RequeueDead(ns: Namespace, ghost R: State -> bool) returns (targets: seq<ItemId>)
    requires Closed(ns.env, ns.mode, R) && R(ns.s) && Ordinary(ns.s)
    modifies ns
    ensures R(ns.s) && Onward(ns.env, ns.mode, old(ns.s), ns.s) && DeadRequeued(old(ns.s), ns.s, targets)
  {
    targets := Enumerate(set i | i in ns.s.rows && ns.s.rows[i].state == DeadLetter);
    ns.Take(BulkRedrive, R);
  }

  /** Every dead_letter row back to pending with a fresh budget, then published; `at` is the
      state the update saw and `done` the one it left. */
  method BulkRedriveDeadletter(ns: Namespace, picked: bool, enabled: bool, write: Fault, publish: seq<Fault>, noise: seq<seq<Action>>, ghost R: State -> bool)
    returns (r: RedriveOutcome, targets: seq<ItemId>, ghost at: State, ghost done: State)
    requires Closed(ns.env, ns.mode, R) && R(ns.s) && Ordinary(ns.s)
    modifies ns
    ensures R(ns.s) && Onward(ns.env, ns.mode, old(ns.s), at) && Onward(ns.env, ns.mode, done, ns.s)
    ensures !picked ==> r == WriteFailed && ns.s == old(ns.s)
    ensures picked && !enabled ==> r == NotFound && ns.s == old(ns.s)
    ensures picked && enabled ==> r == if write == Done then Redriven else WriteFailed
    ensures picked && enabled ==> if write == Lost then done == at == ns.s else exists ids :: DeadRequeued(at, done, ids)
    ensures r == WriteFailed ==> ns.s == done
    ensures r == Redriven ==> DeadRequeued(at, done, targets) && AllQueued(ns.env, ns.mode, done, ns.s, targets, publish, |targets|)
    ensures Quiet(noise) ==> at == old(ns.s)
    ensures Quiet(noise) && r == Redriven ==> OnStream(done, ns.s, targets, publish, |targets|)
  {
    targets, at, done := [], ns.s, ns.s;
    OnwardSelf(ns.env, ns.mode, ns.s);
    if !picked {
      return WriteFailed, targets, at, done;
    }
    if !enabled {
      return NotFound, targets, at, done;
    }
    ns.Others(At(noise, 0), R);
    at, done := ns.s, ns.s;
    OnwardSelf(ns.env, ns.mode, ns.s);
    if write == Lost {
      return WriteFailed, targets, at, done;
    }
    targets := RequeueDead(ns, R);
    done := ns.s;
    OnwardSelf(ns.env, ns.mode, ns.s);
    if write == Erred {
      return WriteFailed, targets, at, done;
    }
    assert forall k :: 0 <= k < |targets| ==> targets[k] in targets;
    PublishAll(ns, targets, publish, noise, 1, R);
    r := Redriven;
  }

  // ------------------------------------------------ the completion watcher

  /** How the outside treats one run's turn: the count, the lease and the close. */
  datatype CheckWeather = CheckWeather(countOk: bool, leaseOk: bool, close: Fault)

  /** Some row is outstanding: pending, in flight or failed, and not carrying the target pair.
      Embedded and dead-lettered rows never are. */
  ghost predicate Outstanding(rows: map<ItemId, Row>, target: Strategy) {
    exists i :: i in rows && (rows[i].state == Pending || rows[i].state == InFlight || rows[i].state == ItemState.Failed)
                && !(rows[i].sid == Some(target.id) && rows[i].sver == Some(target.version))
  }

  lemma StaleIsOutstanding(rows: map<ItemId, Row>, target: Strategy)
    ensures AnyStale(rows, target) <==> Outstanding(rows, target)
  {
    if i :| i in rows && CountsAsStale(rows[i], target) {
      assert i in rows && !(rows[i].sid == Some(target.id) && rows[i].sver == Some(target.version));
    }
    if i :| i in rows && (rows[i].state == Pending || rows[i].state == InFlight || rows[i].state == ItemState.Failed)
            && !(rows[i].sid == Some(target.id) && rows[i].sver == Some(target.version)) {
      assert CountsAsStale(rows[i], target);
    }
  }

  /** What an undisturbed turn makes of a run. */
  ghost function Checked(s: State, run: ReembedRun, wx: CheckWeather): ReembedRun {
    if !run.open || !wx.countOk then run
    else if Outstanding(s.rows, run.target) then run
    else ReembedRun(run.target, true, !(wx.leaseOk && wx.close != Lost))
  }

  /** Count the stale rows of a listed run. */
  method CountStaleItems(ns: Namespace, r: RunId, ghost R: State -> bool) returns (stale: bool)
    requires Closed(ns.env, ns.mode, R) && R(ns.s) && Ordinary(ns.s) && r in ns.s.runs
    modifies ns
    ensures R(ns.s) && Onward(ns.env, ns.mode, old(ns.s), ns.s) && r in ns.s.runs
    ensures stale <==> Outstanding(old(ns.s.rows), old(ns.s.runs)[r].target)
    ensures ns.s == old(ns.s).(runs := old(ns.s.runs)[r := if old(ns.s.runs)[r].open && !stale then old(ns.s.runs)[r].(sawZero := true) else old(ns.s.runs)[r]])
  {
    stale := AnyStale(ns.s.rows, ns.s.runs[r].target);
    StaleIsOutstanding(ns.s.rows, ns.s.runs[r].target);
    if ns.s.runs[r].open {
      Reembed.CountOutcome(ns.env, ns.s, r);
      ns.Take(CountStale(r), R);
    } else {
      OnwardSelf(ns.env, ns.mode, ns.s);
      assert ns.s.runs == ns.s.runs[r := ns.s.runs[r]];
    }
  }

  /** Close a run whose count was zero, unless somebody else has. */
  method CompleteReembedRun(ns: Namespace, r: RunId, close: Fault, ghost R: State -> bool)
    requires Closed(ns.env, ns.mode, R) && R(ns.s) && Ordinary(ns.s) && r in ns.s.runs && (ns.s.runs[r].open ==> ns.s.runs[r].sawZero)
    modifies ns
    ensures R(ns.s) && Onward(ns.env, ns.mode, old(ns.s), ns.s)
    ensures ns.s == old(ns.s).(runs := old(ns.s.runs)[r := old(ns.s.runs)[r].(open := old(ns.s.runs)[r].open && close == Lost)])
  {
    if ns.s.runs[r].open && close != Lost {
      Reembed.CloseOutcome(ns.env, ns.s, r);
      ns.Take(CloseRun(r), R);
    } else {
      OnwardSelf(ns.env, ns.mode, ns.s);
      assert ns.s.runs == ns.s.runs[r := ns.s.runs[r]];
    }
  }

  /** After a count of zero: close the run under the lease, others acting in between. */
  method CloseCounted(ns: Namespace, r: RunId, wx: CheckWeather, between: seq<Action>, ghost R: State -> bool)
    requires Closed(ns.env, ns.mode, R) && R(ns.s) && Ordinary(ns.s) && r in ns.s.runs && (ns.s.runs[r].open ==> ns.s.runs[r].sawZero)
    modifies ns
    ensures R(ns.s) && Onward(ns.env, ns.mode, old(ns.s), ns.s)
    ensures wx.leaseOk && wx.close != Lost ==> r in ns.s.runs && !ns.s.runs[r].open
    ensures between == [] ==>
              ns.s == old(ns.s).(runs := old(ns.s.runs)[r := old(ns.s.runs)[r].(open := old(ns.s.runs)[r].open && !(wx.leaseOk && wx.close != Lost))])
  {
    ns.Others(between, R);
    ghost var was := ns.s;
    CompleteReembedRun(ns, r, if wx.leaseOk then wx.close else Lost, R);
    OnwardThrough(ns.env, ns.mode, old(ns.s), was, ns.s);
  }

  /** Between s and s' a count of the run found an outstanding row. */
  ghost predicate FoundOutstanding(env: Env, mode: Mode, s: State, s': State, target: Strategy) {
    exists st :: Onward(env, mode, s, st) && Outstanding(st.rows, target) && Onward(env, mode, st, s')
  }

  lemma FoundWithin(env: Env, mode: Mode, s0: State, s: State, s': State, s'': State, target: Strategy)
    requires FoundOutstanding(env, mode, s, s', target) && Onward(env, mode, s0, s) && Onward(env, mode, s', s'')
    ensures FoundOutstanding(env, mode, s0, s'', target)
  {
    var st :| Onward(env, mode, s, st) && Outstanding(st.rows, target) && Onward(env, mode, st, s');
    OnwardThrough(env, mode, s0, s, st);
    OnwardThrough(env, mode, st, s', s'');
  }

  /** What the two statements make of a run that has no outstanding row. */
  lemma CountedThenClosed(s: State, r: RunId, wx: CheckWeather, s': State, s'': State)
    requires r in s.runs && !Outstanding(s.rows, s.runs[r].target) && wx.countOk
    requires s' == s.(runs := s.runs[r := if s.runs[r].open then s.runs[r].(sawZero := true) else s.runs[r]])
    requires s'' == s'.(runs := s'.runs[r := s'.runs[r].(open := s'.runs[r].open && !(wx.leaseOk && wx.close != Lost))])
    ensures s'' == s.(runs := s.runs[r := Checked(s, s.runs[r], wx)])
  {
    assert s''.runs == s.runs[r := Checked(s, s.runs[r], wx)];
  }

  /** Count, and close if nothing is outstanding. */
  method CountAndClose(ns: Namespace, r: RunId, wx: CheckWeather, between: seq<Action>, ghost R: State -> bool)
    requires Closed(ns.env, ns.mode, R) && R(ns.s) && Ordinary(ns.s) && r in ns.s.runs
    modifies ns
    ensures R(ns.s) && Onward(ns.env, ns.mode, old(ns.s), ns.s)
    ensures wx.countOk && wx.leaseOk && wx.close != Lost ==>
              (r in ns.s.runs && !ns.s.runs[r].open) || Outstanding(old(ns.s.rows), old(ns.s.runs)[r].target)
    ensures between == [] ==> ns.s == old(ns.s).(runs := old(ns.s.runs)[r := Checked(old(ns.s), old(ns.s.runs)[r], wx)])
  {
    if !wx.countOk {
      OnwardSelf(ns.env, ns.mode, ns.s);
      assert ns.s.runs == ns.s.runs[r := ns.s.runs[r]];
      return;
    }
    var stale := CountStaleItems(ns, r, R);
    if !stale {
      ghost var counted := ns.s;
      CloseCounted(ns, r, wx, between, R);
      OnwardThrough(ns.env, ns.mode, old(ns.s), counted, ns.s);
      if between == [] {
        CountedThenClosed(old(ns.s), r, wx, counted, ns.s);
      }
    }
  }

  /** One listed run's turn: count and, if nothing is outstanding, close, others acting before
      and in between. When nothing fails the run is closed afterwards, unless the count found
      an outstanding row. */
  method CheckRun(ns: Namespace, r: RunId, wx: CheckWeather, before: seq<Action>, between: seq<Action>, ghost R: State -> bool)
    requires Closed(ns.env, ns.mode, R) && R(ns.s) && Ordinary(ns.s) && r in ns.s.runs
    modifies ns
    ensures R(ns.s) && Onward(ns.env, ns.mode, old(ns.s), ns.s)
    ensures wx.countOk && wx.leaseOk && wx.close != Lost ==>
              (r in ns.s.runs && !ns.s.runs[r].open) || FoundOutstanding(ns.env, ns.mode, old(ns.s), ns.s, old(ns.s.runs)[r].target)
    ensures before == [] && between == [] ==>
              ns.s == old(ns.s).(runs := old(ns.s.runs)[r := Checked(old(ns.s), old(ns.s.runs)[r], wx)])
  {
    ns.Others(before, R);
    ghost var at := ns.s;
    CountAndClose(ns, r, wx, between, R);
    OnwardThrough(ns.env, ns.mode, old(ns.s), at, ns.s);
  }

  function WeatherAt(wx: seq<CheckWeather>, k: nat): CheckWeather {
    if k < |wx| then wx[k] else CheckWeather(true, true, Done)
  }

  /** Run r is closed in s', or a count found an outstanding row for it on the way. */
  ghost predicate Dealt(env: Env, mode: Mode, s: State, s': State, r: RunId) {
    r in s.runs && ((r in s'.runs && !s'.runs[r].open) || FoundOutstanding(env, mode, s, s', s.runs[r].target))
  }

  lemma DealtLater(env: Env, mode: Mode, s: State, s': State, s'': State, r: RunId)
    requires Dealt(env, mode, s, s', r) && Onward(env, mode, s, s') && Onward(env, mode, s', s'') && Ordinary(s)
    ensures Dealt(env, mode, s, s'', r)
  {
    if !(r in s'.runs && !s'.runs[r].open) {
      OnwardSelf(env, mode, s);
      FoundWithin(env, mode, s, s, s', s'', s.runs[r].target);
    }
  }

  lemma DealtNow(env: Env, mode: Mode, s: State, s': State, s'': State, r: RunId)
    requires Onward(env, mode, s, s') && Onward(env, mode, s', s'') && r in s.runs
    requires (r in s''.runs && !s''.runs[r].open) || FoundOutstanding(env, mode, s', s'', s'.runs[r].target)
    ensures Dealt(env, mode, s, s'', r)
  {
    if !(r in s''.runs && !s''.runs[r].open) {
      OnwardSelf(env, mode, s'');
      FoundWithin(env, mode, s, s', s'', s'', s.runs[r].target);
    }
  }

  /** What an undisturbed tick without failures has made of the runs but those still to do. */
  ghost predicate Ticked(s: State, s': State, todo: set<RunId>) {
    && s' == s.(runs := s'.runs) && s'.runs.Keys == s.runs.Keys
    && (forall r :: r in todo ==> r in s'.runs && s'.runs[r] == s.runs[r] && s'.runs[r].open)
    && (forall r :: r in s'.runs && r !in todo ==>
          s'.runs[r].target == s.runs[r].target && s'.runs[r].open == (s.runs[r].open && Outstanding(s.rows, s.runs[r].target)))
  }

  lemma TickedOne(s: State, s': State, s'': State, todo: set<RunId>, r: RunId)
    requires Ticked(s, s', todo) && r in todo
    requires s'' == s'.(runs := s'.runs[r := Checked(s', s'.runs[r], CheckWeather(true, true, Done))])
    ensures Ticked(s, s'', todo - {r})
  {
  }

  /** One watcher tick over the runs open when it lists them. Unless something fails, every one
      of them is closed afterwards or had an outstanding row when it was counted; undisturbed,
      exactly the open runs with no outstanding row are closed and nothing else changes. */
  method WatcherTick(ns: Namespace, listOk: bool, wx: seq<CheckWeather>, noise: seq<seq<Action>>, ghost R: State -> bool)
    requires Closed(ns.env, ns.mode, R) && R(ns.s) && Ordinary(ns.s)
    modifies ns
    ensures R(ns.s) && Onward(ns.env, ns.mode, old(ns.s), ns.s)
    ensures !listOk ==> ns.s == old(ns.s)
    ensures listOk && wx == [] ==> forall r :: r in old(ns.s.runs) && old(ns.s.runs)[r].open ==> Dealt(ns.env, ns.mode, old(ns.s), ns.s, r)
    ensures Quiet(noise) && listOk && wx == [] ==>
              && ns.s == old(ns.s).(runs := ns.s.runs) && ns.s.runs.Keys == old(ns.s.runs.Keys)
              && forall r :: r in ns.s.runs ==>
                ns.s.runs[r].target == old(ns.s.runs)[r].target
                && ns.s.runs[r].open == (old(ns.s.runs)[r].open && Outstanding(ns.s.rows, ns.s.runs[r].target))
  {
    OnwardSelf(ns.env, ns.mode, ns.s);
    if !listOk {
      return;
    }
    var todo, k := set r | r in ns.s.runs && ns.s.runs[r].open, 0;
    while todo != {}
      invariant R(ns.s) && Onward(ns.env, ns.mode, old(ns.s), ns.s) && todo <= old(ns.s.runs.Keys)
      invariant wx == [] ==> forall r :: r in old(ns.s.runs) && old(ns.s.runs)[r].open && r !in todo ==> Dealt(ns.env, ns.mode, old(ns.s), ns.s, r)
      invariant Quiet(noise) && wx == [] ==> Ticked(old(ns.s), ns.s, todo)
      decreases todo
    {
      var r :| r in todo;
      ghost var was := ns.s;
      CheckRun(ns, r, WeatherAt(wx, k), At(noise, 2 * k), At(noise, 2 * k + 1), R);
      OneDealt(ns.env, ns.mode, old(ns.s), was, ns.s, todo, r, wx == []);
      if Quiet(noise) && wx == [] {
        TickedOne(old(ns.s), was, ns.s, todo, r);
      }
      todo, k := todo - {r}, k + 1;
    }
  }

  lemma OneDealt(env: Env, mode: Mode, s: State, s': State, s'': State, todo: set<RunId>, r: RunId, fine: bool)
    requires Ordinary(s) && Onward(env, mode, s, s') && Onward(env, mode, s', s'') && r in s.runs
    requires fine ==> (r in s''.runs && !s''.runs[r].open) || FoundOutstanding(env, mode, s', s'', s'.runs[r].target)
    requires fine ==> forall q :: q in s.runs && s.runs[q].open && q !in todo ==> Dealt(env, mode, s, s', q)
    ensures Onward(env, mode, s, s'')
    ensures fine ==> forall q :: q in s.runs && s.runs[q].open && q !in todo - {r} ==> Dealt(env, mode, s, s'', q)
  {
    OnwardThrough(env, mode, s, s', s'');
    if fine {
      forall q | q in s.runs && s.runs[q].open && q !in todo - {r} ensures Dealt(env, mode, s, s'', q) {
        if q == r {
          DealtNow(env, mode, s, s', s'', q);
        } else {
          DealtLater(env, mode, s, s', s'', q);
        }
      }
    }
  }
}
