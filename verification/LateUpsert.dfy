/** Why the one-worker-per-item discipline is needed: two workers on one item can
    leave a row `embedded` with the vector of its old content, and the idempotency
    short-circuit then hides the damage until the content, the strategy or the row itself
    changes. */
module LateUpsert {
  import opened Wrappers
  import opened Pipeline
  import opened Truth
  import opened Walks

  /** Two workers may hold the same item through different entries; nothing else is relaxed. */
  const TwoWorkersPerItem := Mode(true, false, true, true)

  /** Worker w takes entry e of item i and stops just before its upsert. */
  lemma ToVector(env: Env, R: State -> bool, s: State, w: Worker, e: Entry, i: ItemId, vec: Vector)
    returns (s': State)
    requires Closed(env, TwoWorkersPerItem, R) && R(s)
    requires w !in s.jobs && e in s.queue && s.queue[e] == i && i in s.rows
    requires s.rows[i].state == Pending && s.rows[i].attempts == 0
    requires vec == env.embed(s.cfg.strategy, s.rows[i].content) && |vec| == s.cfg.dim
    ensures R(s')
    ensures s' == s.(rows := s.rows[i := s.rows[i].(state := InFlight, attempts := 1, updatedAt := s.now)],
                     queue := s.queue - {e}, pel := s.pel[e := i],
                     jobs := s.jobs[w := Job(e, i, Vectored(s.rows[i], s.cfg, vec))])
  {
    s' := Next(env, TwoWorkersPerItem, R, s, Deliver(w, e));
    assert s'.rows == s.rows;
    s' := ToConfigured(env, TwoWorkersPerItem, R, s', w);
    s' := MarkAndEmbed(env, R, s', w);
    assert s'.jobs == s.jobs[w := Job(e, i, Vectored(s.rows[i], s.cfg, vec))];
  }

  lemma MarkAndEmbed(env: Env, R: State -> bool, s: State, w: Worker) returns (s': State)
    requires Closed(env, TwoWorkersPerItem, R) && R(s)
    requires w in s.jobs && s.jobs[w].item in s.rows && s.jobs[w].pc == Configured(s.rows[s.jobs[w].item], s.cfg)
    requires var row := s.rows[s.jobs[w].item];
             row.state == Pending && row.attempts == 0 && |env.embed(s.cfg.strategy, row.content)| == s.cfg.dim
    ensures R(s')
    ensures var i := s.jobs[w].item;
            s' == s.(rows := s.rows[i := s.rows[i].(state := InFlight, attempts := 1, updatedAt := s.now)],
                     jobs := s.jobs[w := s.jobs[w].(pc := Vectored(s.rows[i], s.cfg, env.embed(s.cfg.strategy, s.rows[i].content)))])
  {
    s' := Next(env, TwoWorkersPerItem, R, s, MarkInFlight(w, Done));
    s' := Next(env, TwoWorkersPerItem, R, s', Embed(w, Ok));
  }

  /** Worker w finishes the item it holds a vector for, and acknowledges. */
  lemma ToAck(env: Env, R: State -> bool, s: State, w: Worker) returns (s': State)
    requires Closed(env, TwoWorkersPerItem, R) && R(s)
    requires w in s.jobs && s.jobs[w].pc.Vectored? && s.jobs[w].item in s.rows
    requires s.rows[s.jobs[w].item].hash == s.jobs[w].pc.snap.hash
    ensures R(s')
    ensures var job, st := s.jobs[w], s.jobs[w].pc.cfg.strategy;
            s' == s.(rows := s.rows[job.item := s.rows[job.item].(state := Embedded, attempts := 0, sid := Some(st.id),
                                                                  sver := Some(st.version), updatedAt := s.now)],
                     vectors := s.vectors[job.pc.snap.obj := job.pc.vec],
                     pel := s.pel - {job.entry}, jobs := s.jobs - {w})
  {
    s' := Next(env, TwoWorkersPerItem, R, s, Upsert(w, Done));
    s' := Next(env, TwoWorkersPerItem, R, s', MarkEmbedded(w, Done));
    s' := Next(env, TwoWorkersPerItem, R, s', Ack(w, Done));
    assert s'.jobs == s.jobs - {w};
  }

  /** Worker w upserts late, is turned away by the hash guard, and its entry is
      reclaimed by worker v, who finds the row `embedded` and acknowledges. */
  lemma LateTail(env: Env, R: State -> bool, s: State, w: Worker, v: Worker)
    returns (s': State)
    requires Closed(env, TwoWorkersPerItem, R) && R(s)
    requires s.jobs.Keys == {w} && v != w && s.jobs[w].pc.Vectored? && s.jobs[w].item in s.rows
    requires s.jobs[w].entry in s.pel && s.pel[s.jobs[w].entry] == s.jobs[w].item
    requires var row := s.rows[s.jobs[w].item];
             AlreadyEmbedded(row, s.cfg) && row.hash != s.jobs[w].pc.snap.hash
    ensures R(s')
    ensures var job := s.jobs[w];
            s' == s.(vectors := s.vectors[job.pc.snap.obj := job.pc.vec], pel := s.pel - {job.entry}, jobs := map[])
  {
    var job := s.jobs[w];
    s' := Next(env, TwoWorkersPerItem, R, s, Upsert(w, Done));
    s' := Next(env, TwoWorkersPerItem, R, s', MarkEmbedded(w, Done));
    assert s'.jobs == map[];
    s' := ReclaimAndSkip(env, R, s', v, job.entry);
  }

  /** A reclaimed entry of a row already embedded under the active strategy is acknowledged untouched. */
  lemma ReclaimAndSkip(env: Env, R: State -> bool, s: State, v: Worker, e: Entry)
    returns (s': State)
    requires Closed(env, TwoWorkersPerItem, R) && R(s)
    requires s.jobs == map[] && e in s.pel && s.pel[e] in s.rows && AlreadyEmbedded(s.rows[s.pel[e]], s.cfg)
    ensures R(s')
    ensures s' == s.(pel := s.pel - {e})
  {
    s' := Next(env, TwoWorkersPerItem, R, s, Reclaim(v, e));
    assert s'.rows == s.rows;
    s' := ToConfigured(env, TwoWorkersPerItem, R, s', v);
    s' := SkipAndAck(env, R, s', v);
    assert s'.jobs == map[];
  }

  lemma SkipAndAck(env: Env, R: State -> bool, s: State, v: Worker) returns (s': State)
    requires Closed(env, TwoWorkersPerItem, R) && R(s)
    requires v in s.jobs && s.jobs[v].pc.Configured? && AlreadyEmbedded(s.jobs[v].pc.snap, s.jobs[v].pc.cfg)
    ensures R(s')
    ensures s' == s.(pel := s.pel - {s.jobs[v].entry}, jobs := s.jobs - {v})
  {
    s' := Next(env, TwoWorkersPerItem, R, s, Skip(v));
    s' := Next(env, TwoWorkersPerItem, R, s', Ack(v, Done));
    assert s'.jobs == s.jobs - {v};
  }

  /** The start of the race: worker 0 holds a vector of content c when the object is
      re-ingested with content d and published again. */
  lemma RaceStart(env: Env, R: State -> bool, s0: State, c: string, d: string) returns (s: State)
    requires Closed(env, TwoWorkersPerItem, R) && R(s0)
    requires Initial(s0) && s0.nextId == 0 && s0.nextEntry == 0
    requires env.hash(c) != env.hash(d)
    requires |env.embed(s0.cfg.strategy, c)| == s0.cfg.dim
    ensures R(s)
    ensures s.cfg == s0.cfg && s.vectors == s0.vectors
    ensures s.rows == map[0 := Fresh(env, "o", d, s.now)]
    ensures s.queue == map[1 := 0] && s.pel == map[0 := 0]
    ensures s.jobs == map[0 := Job(0, 0, Vectored(Fresh(env, "o", c, s.now), s.cfg, env.embed(s.cfg.strategy, c)))]
  {
    s := IngestAndPublish(env, TwoWorkersPerItem, R, s0, c);
    s := ToVector(env, R, s, 0, 0, 0, env.embed(s.cfg.strategy, c));
    assert s.queue == map[] && s.rows.Keys == {0};
    s := IngestAndPublish(env, TwoWorkersPerItem, R, s, d);
  }

  // ------------------------------------------------ nothing repairs it

  /** A step that brings item i no new content, starts no re-embed, edits no configuration
      and deletes neither the row nor its point. */
  predicate Harmless(a: Action, i: ItemId, obj: string, content: string) {
    && !a.EditConfig? && !a.StartReembed? && !(a.DeleteRow? && a.item == i) && !(a.DeletePoint? && a.obj == obj)
    && (a.Ingest? && a.item == i ==> a.content == content)
  }

  /** A worker on the item can only skip it. */
  predicate Skips(pc: PC, cfg: Config) {
    || pc.Claimed? || pc.Acking?
    || (pc.Loaded? && AlreadyEmbedded(pc.snap, cfg))
    || (pc.Configured? && AlreadyEmbedded(pc.snap, pc.cfg))
  }

  /** Row i is embedded under the active strategy over vec, and nobody is about to touch it. */
  ghost predicate Settled(env: Env, s: State, i: ItemId, obj: string, content: string, vec: Vector) {
    && i in s.rows && s.rows[i].obj == obj && s.rows[i].content == content && s.rows[i].hash == env.hash(content)
    && AlreadyEmbedded(s.rows[i], s.cfg) && obj in s.vectors && s.vectors[obj] == vec
    && (forall j :: j in s.rows && j != i ==> s.rows[j].obj != obj)
    && (forall w :: w in s.jobs && s.jobs[w].item == i ==> Skips(s.jobs[w].pc, s.cfg))
    && (forall w :: w in s.jobs && s.jobs[w].item != i && HasSnap(s.jobs[w].pc) ==> s.jobs[w].pc.snap.obj != obj)
  }

  lemma EffectSkips(env: Env, now: int, live: Config, cur: Option<Row>, pc: PC, a: Action)
    requires CanWork(env, pc, a) && Skips(pc, live) && cur.Some? && AlreadyEmbedded(cur.value, live)
    ensures var e := Work(env, now, live, cur, pc, a);
            e.row.None? && e.point.None? && (e.pc.Some? ==> Skips(e.pc.value, live))
  {
  }

  lemma EffectElsewhere(env: Env, now: int, live: Config, cur: Option<Row>, pc: PC, a: Action, obj: string)
    requires CanWork(env, pc, a) && (HasSnap(pc) ==> pc.snap.obj != obj) && (cur.Some? ==> cur.value.obj != obj)
    ensures var e := Work(env, now, live, cur, pc, a);
            && (e.row.Some? ==> cur.Some? && e.row.value.obj != obj) && (e.point.Some? ==> e.point.value.0 != obj)
            && (e.pc.Some? && HasSnap(e.pc.value) ==> e.pc.value.snap.obj != obj)
  {
  }

  lemma CommitKeepsSettled(env: Env, s: State, w: Worker, e: Effect, i: ItemId, obj: string, content: string, vec: Vector)
    requires Settled(env, s, i, obj, content, vec) && w in s.jobs
    requires s.jobs[w].item == i ==> e.row.None? && e.point.None? && (e.pc.Some? ==> Skips(e.pc.value, s.cfg))
    requires s.jobs[w].item != i ==>
               && (e.row.Some? ==> s.jobs[w].item in s.rows && e.row.value.obj != obj) && (e.point.Some? ==> e.point.value.0 != obj)
               && (e.pc.Some? && HasSnap(e.pc.value) ==> e.pc.value.snap.obj != obj)
    ensures Settled(env, Commit(s, w, e), i, obj, content, vec)
  {
  }

  lemma WorkKeepsSettled(env: Env, s: State, a: Action, i: ItemId, obj: string, content: string, vec: Vector)
    requires Settled(env, s, i, obj, content, vec) && Working(a) && Enabled(env, s, a)
    ensures Settled(env, Apply(env, s, a), i, obj, content, vec)
  {
    var job := s.jobs[a.worker];
    if job.item == i {
      EffectSkips(env, s.now, s.cfg, Current(s, i), job.pc, a);
    } else {
      EffectElsewhere(env, s.now, s.cfg, Current(s, job.item), job.pc, a, obj);
    }
    CommitKeepsSettled(env, s, a.worker, EffectOf(env, s, a), i, obj, content, vec);
  }

  lemma RowAfterKeepsSettled(env: Env, s: State, a: Action, i: ItemId, j: ItemId, obj: string, content: string, vec: Vector)
    requires Settled(env, s, i, obj, content, vec) && !Working(a) && Enabled(env, s, a) && Harmless(a, i, obj, content) && j in s.rows
    ensures RowAfter(env, s, a, j, s.rows[j]).obj == s.rows[j].obj
    ensures var row := RowAfter(env, s, a, i, s.rows[i]);
            row.content == content && row.hash == env.hash(content) && AlreadyEmbedded(row, s.cfg)
  {
  }

  lemma ElsewhereKeepsSettled(env: Env, s: State, a: Action, i: ItemId, obj: string, content: string, vec: Vector)
    requires Settled(env, s, i, obj, content, vec) && !Working(a) && Enabled(env, s, a) && Harmless(a, i, obj, content)
    ensures Settled(env, Apply(env, s, a), i, obj, content, vec)
  {
    var s' := Apply(env, s, a);
    if a.DeleteRow? {
      assert s'.rows == s.rows - {a.item};
    } else {
      forall j | j in s'.rows ensures j in s.rows ==> s'.rows[j] == RowAfter(env, s, a, j, s.rows[j]) && s'.rows[j].obj == s.rows[j].obj {
        RowsAfterShape(env, s, a, j);
        if j in s.rows {
          RowAfterKeepsSettled(env, s, a, i, j, obj, content, vec);
        }
      }
      forall j | j in s'.rows && j !in s.rows ensures s'.rows[j].obj != obj {
        RowsAfterShape(env, s, a, j);
      }
      RowsAfterShape(env, s, a, i);
      RowAfterKeepsSettled(env, s, a, i, i, obj, content, vec);
    }
  }

  /** A settled row stays settled over the same vector through every run of harmless steps. */
  lemma {:induction false} StaysSettled(env: Env, s: State, acts: seq<Action>, i: ItemId, obj: string, content: string, vec: Vector)
    requires Settled(env, s, i, obj, content, vec) && Runs(env, Anything, s, acts)
    requires forall k :: 0 <= k < |acts| ==> Harmless(acts[k], i, obj, content)
    ensures Settled(env, Exec(env, Anything, s, acts), i, obj, content, vec)
    decreases |acts|
  {
    if acts != [] {
      if Working(acts[0]) {
        WorkKeepsSettled(env, s, acts[0], i, obj, content, vec);
      } else {
        ElsewhereKeepsSettled(env, s, acts[0], i, obj, content, vec);
      }
      StaysSettled(env, Apply(env, s, acts[0]), acts[1..], i, obj, content, vec);
    }
  }

  /** Whatever happens in a lying state short of new content, a re-embed, a configuration
      edit or a deletion, the row stays `embedded` and goes on lying. */
  lemma LiesOn(env: Env, s: State, acts: seq<Action>, i: ItemId, content: string, vec: Vector)
    requires i in s.rows && Settled(env, s, i, s.rows[i].obj, content, vec) && vec != env.embed(s.cfg.strategy, content)
    requires Runs(env, Anything, s, acts) && forall k :: 0 <= k < |acts| ==> Harmless(acts[k], i, s.rows[i].obj, content)
    requires s.rows[i].sid.Some? && s.rows[i].sver.Some?
    ensures var t := Exec(env, Anything, s, acts); i in t.rows && t.rows[i].state == Embedded && !Truthful(env, t, t.rows[i])
  {
    var t := Exec(env, Anything, s, acts);
    StaysSettled(env, s, acts, i, s.rows[i].obj, content, vec);
    StrategyStays(env, s, acts, i, s.rows[i].obj, content);
    if t.rows[i].sid.Some? && t.rows[i].sver.Some? {
      assert Strategy(t.rows[i].sid.value, t.rows[i].sver.value) == t.cfg.strategy;
    }
  }

  lemma {:induction false} StrategyStays(env: Env, s: State, acts: seq<Action>, i: ItemId, obj: string, content: string)
    requires Runs(env, Anything, s, acts) && forall k :: 0 <= k < |acts| ==> Harmless(acts[k], i, obj, content)
    ensures Exec(env, Anything, s, acts).cfg == s.cfg
    decreases |acts|
  {
    if acts != [] {
      StrategyStays(env, Apply(env, s, acts[0]), acts[1..], i, obj, content);
    }
  }

  /** For every strategy that tells two contents apart there is a run, with one worker
      per entry, leases granted and nothing deleted, that ends with an untruthful
      `embedded` row while nothing is queued, pending or in progress any more; and it goes
      on lying through every further run of harmless steps. */
  lemma LateUpsertLies(env: Env, s0: State, c: string, d: string) returns (s: State)
    requires Initial(s0) && s0.nextId == 0 && s0.nextEntry == 0
    requires env.hash(c) != env.hash(d)
    requires env.embed(s0.cfg.strategy, c) != env.embed(s0.cfg.strategy, d)
    requires |env.embed(s0.cfg.strategy, c)| == |env.embed(s0.cfg.strategy, d)| == s0.cfg.dim
    ensures Reachable(env, TwoWorkersPerItem, s0, s)
    ensures 0 in s.rows && s.rows[0].state == Embedded && !Truthful(env, s, s.rows[0])
    ensures s.queue == map[] && s.pel == map[] && s.jobs == map[]
    ensures forall acts :: Runs(env, Anything, s, acts) && (forall k :: 0 <= k < |acts| ==> Harmless(acts[k], 0, "o", d)) ==>
              var t := Exec(env, Anything, s, acts); 0 in t.rows && t.rows[0].state == Embedded && !Truthful(env, t, t.rows[0])
  {
    ReachableIsClosed(env, TwoWorkersPerItem, s0);
    s := Race(env, s => Reachable(env, TwoWorkersPerItem, s0, s), s0, c, d);
    forall acts | Runs(env, Anything, s, acts) && (forall k :: 0 <= k < |acts| ==> Harmless(acts[k], 0, "o", d))
      ensures var t := Exec(env, Anything, s, acts); 0 in t.rows && t.rows[0].state == Embedded && !Truthful(env, t, t.rows[0])
    {
      LiesOn(env, s, acts, 0, d, s.vectors["o"]);
    }
  }

  lemma Race(env: Env, R: State -> bool, s0: State, c: string, d: string) returns (s: State)
    requires Closed(env, TwoWorkersPerItem, R) && R(s0)
    requires Initial(s0) && s0.nextId == 0 && s0.nextEntry == 0
    requires env.hash(c) != env.hash(d)
    requires env.embed(s0.cfg.strategy, c) != env.embed(s0.cfg.strategy, d)
    requires |env.embed(s0.cfg.strategy, c)| == |env.embed(s0.cfg.strategy, d)| == s0.cfg.dim
    ensures R(s)
    ensures 0 in s.rows && s.rows[0].state == Embedded && !Truthful(env, s, s.rows[0])
    ensures s.queue == map[] && s.pel == map[] && s.jobs == map[]
    ensures s.rows[0].obj == "o" && s.rows[0].sid.Some? && s.rows[0].sver.Some?
    ensures "o" in s.vectors && Settled(env, s, 0, "o", d, s.vectors["o"]) && s.vectors["o"] != env.embed(s.cfg.strategy, d)
  {
    s := RaceStart(env, R, s0, c, d);
    s := ToVector(env, R, s, 1, 1, 0, env.embed(s.cfg.strategy, d));
    s := ToAck(env, R, s, 1);
    assert s.pel == map[0 := 0] && s.jobs.Keys == {0};
    s := LateTail(env, R, s, 0, 2);
  }
}
