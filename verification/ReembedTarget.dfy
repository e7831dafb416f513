/** Under which strategy a re-embed run leaves the rows it reset. A closed run means they
    were settled, not that they were settled at its target: a worker that read its
    configuration earlier records the strategy it read. */
module ReembedTarget {
  import opened Wrappers
  import opened Pipeline
  import opened Reembed

  /** The strategy a step records as item i's success, if it does. */
  function Records(env: Env, s: State, a: Action, i: ItemId): Option<Strategy>
    requires Enabled(env, s, a)
  {
    if a.MarkEmbedded? && s.jobs[a.worker].item == i && EffectOf(env, s, a).row.Some?
    then Some(s.jobs[a.worker].pc.cfg.strategy) else None
  }

  function Latest(earlier: Option<Strategy>, later: Option<Strategy>): Option<Strategy> {
    if later.Some? then later else earlier
  }

  /** The strategy recorded last during a run, starting from `last`. */
  function LastRecorded(env: Env, s: State, acts: seq<Action>, i: ItemId, last: Option<Strategy>): Option<Strategy>
    requires Runs(env, Anything, s, acts)
    decreases |acts|
  {
    if acts == [] then last
    else LastRecorded(env, Apply(env, s, acts[0]), acts[1..], i, Latest(last, Records(env, s, acts[0], i)))
  }

  predicate RowPair(row: Row, last: Option<Strategy>) {
    row.state == Embedded ==> last.Some? && row.sid == Some(last.value.id) && row.sver == Some(last.value.version)
  }

  /** If item i is embedded, its pair is the one recorded last. */
  predicate PairIs(s: State, i: ItemId, last: Option<Strategy>) {
    i in s.rows ==> RowPair(s.rows[i], last)
  }

  lemma EffectKeepsPair(env: Env, now: int, live: Config, cur: Option<Row>, pc: PC, a: Action, last: Option<Strategy>)
    requires CanWork(env, pc, a) && (cur.Some? ==> RowPair(cur.value, last))
    ensures var e := Work(env, now, live, cur, pc, a);
            e.row.Some? ==> cur.Some? && RowPair(e.row.value, if a.MarkEmbedded? then Some(pc.cfg.strategy) else last)
  {
  }

  lemma WorkKeepsPair(env: Env, s: State, a: Action, i: ItemId, last: Option<Strategy>)
    requires Working(a) && Enabled(env, s, a) && PairIs(s, i, last)
    ensures PairIs(Apply(env, s, a), i, Latest(last, Records(env, s, a, i)))
  {
    var job := s.jobs[a.worker];
    if job.item == i {
      EffectKeepsPair(env, s.now, s.cfg, Current(s, i), job.pc, a, last);
    }
  }

  lemma RowAfterKeepsPair(env: Env, s: State, a: Action, i: ItemId, last: Option<Strategy>)
    requires !Working(a) && i in s.rows && RowPair(s.rows[i], last)
    ensures RowPair(RowAfter(env, s, a, i, s.rows[i]), last)
  {
  }

  lemma ElsewhereKeepsPair(env: Env, s: State, a: Action, i: ItemId, last: Option<Strategy>)
    requires !Working(a) && Enabled(env, s, a) && PairIs(s, i, last)
    ensures PairIs(Apply(env, s, a), i, last)
  {
    if !a.DeleteRow? {
      RowsAfterShape(env, s, a, i);
      if i in s.rows {
        RowAfterKeepsPair(env, s, a, i, last);
      }
    }
  }

  lemma {:induction false} PairIsLastRecorded(env: Env, s: State, acts: seq<Action>, i: ItemId, last: Option<Strategy>)
    requires Runs(env, Anything, s, acts) && PairIs(s, i, last)
    ensures PairIs(Exec(env, Anything, s, acts), i, LastRecorded(env, s, acts, i, last))
    decreases |acts|
  {
    if acts != [] {
      if Working(acts[0]) {
        WorkKeepsPair(env, s, acts[0], i, last);
      } else {
        ElsewhereKeepsPair(env, s, acts[0], i, last);
      }
      PairIsLastRecorded(env, Apply(env, s, acts[0]), acts[1..], i, Latest(last, Records(env, s, acts[0], i)));
    }
  }

  /** Exactly when a reset row ends up at the run's target: a row the start reset and that is
      embedded later is on target if and only if the last success recorded for it since was
      recorded under the target strategy. */
  lemma OnTargetExactly(env: Env, s: State, only: OnlyState, target: Strategy, s1: State, acts: seq<Action>, i: ItemId)
    requires s1 == Apply(env, s, StartReembed(only, target)) && Runs(env, Anything, s1, acts)
    requires i in s.rows && ReembedSelects(only, s.rows[i], target)
    ensures var t := Exec(env, Anything, s1, acts);
            i in t.rows && t.rows[i].state == Embedded ==>
              && LastRecorded(env, s1, acts, i, None).Some?
              && (!OffTarget(t.rows[i], target) <==> LastRecorded(env, s1, acts, i, None).value == target)
  {
    RowsAfterShape(env, s, StartReembed(only, target), i);
    PairIsLastRecorded(env, s1, acts, i, None);
  }

  // ------------------------------------------------ when that is guaranteed

  predicate HoldsConfig(pc: PC) {
    pc.Configured? || pc.Flying? || pc.Vectored? || pc.Stored?
  }

  /** The active strategy is the target and no worker on item i holds another. */
  ghost predicate OnlyTarget(s: State, i: ItemId, target: Strategy) {
    && s.cfg.strategy == target
    && forall w :: w in s.jobs && s.jobs[w].item == i && HoldsConfig(s.jobs[w].pc) ==> s.jobs[w].pc.cfg.strategy == target
  }

  predicate KeepsStrategy(acts: seq<Action>, target: Strategy) {
    forall k :: 0 <= k < |acts| && acts[k].EditConfig? ==> acts[k].cfg.strategy == target
  }

  lemma EffectKeepsTarget(env: Env, now: int, live: Config, cur: Option<Row>, pc: PC, a: Action, target: Strategy)
    requires CanWork(env, pc, a) && live.strategy == target && (HoldsConfig(pc) ==> pc.cfg.strategy == target)
    ensures var e := Work(env, now, live, cur, pc, a);
            e.pc.Some? && HoldsConfig(e.pc.value) ==> e.pc.value.cfg.strategy == target
  {
  }

  lemma StepKeepsTarget(env: Env, s: State, a: Action, i: ItemId, target: Strategy)
    requires Enabled(env, s, a) && OnlyTarget(s, i, target) && (a.EditConfig? ==> a.cfg.strategy == target)
    ensures OnlyTarget(Apply(env, s, a), i, target)
    ensures Records(env, s, a, i).Some? ==> Records(env, s, a, i).value == target
  {
    if Working(a) && s.jobs[a.worker].item == i {
      var job := s.jobs[a.worker];
      EffectKeepsTarget(env, s.now, s.cfg, Current(s, i), job.pc, a, target);
    }
  }

  lemma {:induction false} RecordsOnlyTarget(env: Env, s: State, acts: seq<Action>, i: ItemId, target: Strategy, last: Option<Strategy>)
    requires Runs(env, Anything, s, acts) && OnlyTarget(s, i, target) && KeepsStrategy(acts, target) && (last.Some? ==> last.value == target)
    ensures var r := LastRecorded(env, s, acts, i, last); r.Some? ==> r.value == target
    decreases |acts|
  {
    if acts != [] {
      StepKeepsTarget(env, s, acts[0], i, target);
      RecordsOnlyTarget(env, Apply(env, s, acts[0]), acts[1..], i, target, Latest(last, Records(env, s, acts[0], i)));
    }
  }

  /** If the target is the active strategy, stays it, and no worker on the item holds another
      when the run starts, every reset row found embedded later is on target. */
  lemma ReachesTarget(env: Env, s: State, only: OnlyState, target: Strategy, s1: State, acts: seq<Action>, i: ItemId)
    requires s1 == Apply(env, s, StartReembed(only, target)) && Runs(env, Anything, s1, acts)
    requires i in s.rows && ReembedSelects(only, s.rows[i], target)
    requires OnlyTarget(s, i, target) && KeepsStrategy(acts, target)
    ensures var t := Exec(env, Anything, s1, acts);
            i in t.rows && t.rows[i].state == Embedded ==> !OffTarget(t.rows[i], target)
  {
    OnTargetExactly(env, s, only, target, s1, acts, i);
    RecordsOnlyTarget(env, s1, acts, i, target, None);
  }

  // ------------------------------------------------ and that it is needed

  lemma FlyAndRecord(env: Env, R: State -> bool, s: State, w: Worker) returns (s': State)
    requires Closed(env, Anything, R) && R(s) && w in s.jobs && s.jobs[w].pc.Configured? && s.jobs[w].item in s.rows
    requires var pc, row := s.jobs[w].pc, s.rows[s.jobs[w].item];
             && !AlreadyEmbedded(pc.snap, pc.cfg) && row.attempts == 0 && row.hash == pc.snap.hash
             && |env.embed(pc.cfg.strategy, pc.snap.content)| == pc.cfg.dim
    ensures R(s') && s'.runs == s.runs && s'.rows.Keys == s.rows.Keys
    ensures var i, st := s.jobs[w].item, s.jobs[w].pc.cfg.strategy;
            s'.rows[i].state == Embedded && s'.rows[i].sid == Some(st.id) && s'.rows[i].sver == Some(st.version)
    ensures forall j :: j in s.rows && j != s.jobs[w].item ==> s'.rows[j] == s.rows[j]
  {
    s' := Next(env, Anything, R, s, MarkInFlight(w, Done));
    s' := Next(env, Anything, R, s', Embed(w, Ok));
    s' := Next(env, Anything, R, s', Upsert(w, Done));
    s' := Next(env, Anything, R, s', MarkEmbedded(w, Done));
  }

  /** A worker that read its configuration before the run started settles the row under the
      strategy it read; the run then closes with the row embedded off target. */
  lemma OldWorkerSettlesOffTarget(env: Env, s: State, only: OnlyState, target: Strategy, w: Worker) returns (t: State)
    requires w in s.jobs && s.jobs[w].pc.Configured? && s.rows.Keys == {s.jobs[w].item}
    requires var pc, row := s.jobs[w].pc, s.rows[s.jobs[w].item];
             && ReembedSelects(only, row, target) && row.hash == pc.snap.hash && pc.cfg.strategy != target
             && !AlreadyEmbedded(pc.snap, pc.cfg) && |env.embed(pc.cfg.strategy, pc.snap.content)| == pc.cfg.dim
    ensures Reachable(env, Anything, Apply(env, s, StartReembed(only, target)), t)
    ensures var i := s.jobs[w].item;
            && i in t.rows && t.rows[i].state == Embedded && OffTarget(t.rows[i], target)
            && s.nextRun in t.runs && !t.runs[s.nextRun].open
  {
    var s1 := Apply(env, s, StartReembed(only, target));
    var i := s.jobs[w].item;
    RowsAfterShape(env, s, StartReembed(only, target), i);
    ReachableIsClosed(env, Anything, s1);
    var R := x => Reachable(env, Anything, s1, x);
    var s2 := FlyAndRecord(env, R, s1, w);
    assert !AnyStale(s2.rows, target) by {
      assert s2.rows.Keys == {i};
    }
    t := CountAndClose(env, R, s2, s.nextRun);
  }
}
