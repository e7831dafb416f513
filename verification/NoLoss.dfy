/** No work is lost: every row is embedded, dead-lettered, still owed by the stream,
    or in a state the recovery sweeper selects. */
module NoLoss {
  import opened Wrappers
  import opened Pipeline

  predicate Unacked(s: State, e: Entry, i: ItemId) {
    (e in s.queue && s.queue[e] == i) || (e in s.pel && s.pel[e] == i)
  }

  /** States the sweeper's two statements select from once a row is old enough. */
  predicate Sweepable(row: Row) {
    row.state == Pending || row.state == InFlight
  }

  ghost predicate Accounted(s: State, i: ItemId)
    requires i in s.rows
  {
    || s.rows[i].state == Embedded || s.rows[i].state == DeadLetter
    || Sweepable(s.rows[i])
    || exists e :: Unacked(s, e, i)
  }

  ghost predicate NothingLost(s: State) {
    forall i :: i in s.rows ==> Accounted(s, i)
  }

  // ------------------------------------------------ the invariant

  /** A worker that may still acknowledge its entry without rewriting the row first. */
  predicate MayAck(pc: PC) {
    || ((pc.Loaded? || pc.Configured?) && pc.snap.state == Embedded)
    || pc.Flying? || pc.Vectored? || pc.Stored? || pc.Burying? || pc.Acking?
  }

  /** Entry e keeps item i alive: unacknowledged, and nobody is about to acknowledge it. */
  ghost predicate Keeps(s: State, e: Entry, i: ItemId) {
    && e in s.pel && s.pel[e] == i
    && forall w :: w in s.jobs && s.jobs[w].entry == e ==> !MayAck(s.jobs[w].pc)
  }

  ghost predicate Entries(s: State) {
    && (forall e :: e in s.queue ==> e < s.nextEntry && e !in s.pel)
    && (forall e :: e in s.pel ==> e < s.nextEntry)
  }

  ghost predicate Stream(s: State) {
    && Entries(s)
    && (forall w :: w in s.jobs ==> s.jobs[w].entry in s.pel && s.pel[s.jobs[w].entry] == s.jobs[w].item)
    && (forall v, w :: v in s.jobs && w in s.jobs && v != w ==> s.jobs[v].entry != s.jobs[w].entry)
  }

  ghost predicate FailedKept(s: State) {
    forall i :: i in s.rows && s.rows[i].state == Failed ==> exists e :: Keeps(s, e, i)
  }

  ghost predicate Inv(s: State) {
    Stream(s) && FailedKept(s)
  }

  /** One worker per stream entry and every lease granted; any number of workers per
      item, deletions, crashes and failed writes. */
  const OneWorkerPerEntry := Mode(true, false, true, false)

  // ------------------------------------------------ worker steps

  /** Acknowledging ends the job. */
  lemma AckEnds(env: Env, now: int, live: Config, cur: Option<Row>, pc: PC, a: Action)
    requires CanWork(env, pc, a)
    ensures Work(env, now, live, cur, pc, a).acked ==> Work(env, now, live, cur, pc, a).pc.None?
  {
  }

  lemma CommitKeepsStream(s: State, w: Worker, e: Effect)
    requires Stream(s) && w in s.jobs && (e.acked ==> e.pc.None?)
    ensures Stream(Commit(s, w, e))
  {
    var s' := Commit(s, w, e);
    forall v | v in s'.jobs ensures s'.jobs[v].entry in s'.pel && s'.pel[s'.jobs[v].entry] == s'.jobs[v].item {
      assert s'.jobs[v].entry == s.jobs[v].entry && s'.jobs[v].item == s.jobs[v].item;
    }
  }

  lemma WorkKeepsStream(env: Env, s: State, a: Action)
    requires Stream(s) && Working(a) && Enabled(env, s, a)
    ensures Stream(Apply(env, s, a))
  {
    var job := s.jobs[a.worker];
    AckEnds(env, s.now, s.cfg, Current(s, job.item), job.pc, a);
    CommitKeepsStream(s, a.worker, EffectOf(env, s, a));
  }

  /** What a worker step does to a `failed` row and to its own claim on the entry. */
  lemma EffectOnFailed(env: Env, now: int, live: Config, cur: Option<Row>, pc: PC, a: Action)
    requires CanWork(env, pc, a) && !a.RefuseLease?
    ensures var e := Work(env, now, live, cur, pc, a);
            && (e.row.Some? && e.row.value.state == Failed ==> a.MarkFailed? && e.pc.None? && !e.acked)
            && (e.row.None? && cur.Some? && cur.value.state == Failed && !MayAck(pc) ==>
                  !e.acked && (e.pc.Some? ==> !MayAck(e.pc.value)))
  {
  }

  lemma WorkKeepsFailed(env: Env, s: State, a: Action)
    requires Inv(s) && Working(a) && !a.RefuseLease? && Enabled(env, s, a)
    ensures FailedKept(Apply(env, s, a))
  {
    var s', w := Apply(env, s, a), a.worker;
    var job := s.jobs[w];
    EffectOnFailed(env, s.now, s.cfg, Current(s, job.item), job.pc, a);
    var eff := EffectOf(env, s, a);
    forall i | i in s'.rows && s'.rows[i].state == Failed ensures exists e :: Keeps(s', e, i) {
      if i == job.item && eff.row.Some? {
        assert Keeps(s', job.entry, i);
      } else {
        assert eff.row.Some? ==> Current(s, job.item).Some?;
        assert i in s.rows && s.rows[i] == s'.rows[i];
        var e :| Keeps(s, e, i);
        assert Keeps(s', e, i);
      }
    }
  }

  // ------------------------------------------------ everyone else

  /** No other writer makes a row `failed`. */
  lemma FailedOnlyByWorkers(env: Env, s: State, a: Action, i: ItemId)
    requires !Working(a) && Enabled(env, s, a)
    requires i in Apply(env, s, a).rows && Apply(env, s, a).rows[i].state == Failed
    ensures i in s.rows && s.rows[i].state == Failed
  {
  }

  lemma StreamStepKeepsStream(s: State, a: Action)
    requires Stream(s) && EnabledElsewhere(s, a) && (a.Reclaim? ==> !Held(s, a.entry))
    ensures Stream(StreamAfter(s, a))
  {
  }

  lemma SameStream(s: State, s': State)
    requires Stream(s) && s'.queue == s.queue && s'.pel == s.pel && s'.jobs == s.jobs && s'.nextEntry == s.nextEntry
    ensures Stream(s')
  {
  }

  lemma ElsewhereKeepsStream(env: Env, s: State, a: Action)
    requires Stream(s) && !Working(a) && Step(env, OneWorkerPerEntry, s, a)
    ensures Stream(Apply(env, s, a))
  {
    StreamStepKeepsStream(s, a);
    SameStream(StreamAfter(s, a), Apply(env, s, a));
  }

  lemma ElsewhereKeepsEntry(env: Env, s: State, a: Action, e: Entry, i: ItemId)
    requires Stream(s) && !Working(a) && Step(env, OneWorkerPerEntry, s, a) && Keeps(s, e, i)
    ensures Keeps(Apply(env, s, a), e, i)
  {
  }

  lemma StepKeepsInv(env: Env, s: State, a: Action)
    requires Inv(s) && Step(env, OneWorkerPerEntry, s, a)
    ensures Inv(Apply(env, s, a))
  {
    var s' := Apply(env, s, a);
    if Working(a) {
      WorkKeepsStream(env, s, a);
      WorkKeepsFailed(env, s, a);
    } else {
      ElsewhereKeepsStream(env, s, a);
      forall i | i in s'.rows && s'.rows[i].state == Failed ensures exists e :: Keeps(s', e, i) {
        FailedOnlyByWorkers(env, s, a, i);
        var e :| Keeps(s, e, i);
        ElsewhereKeepsEntry(env, s, a, e, i);
      }
    }
  }

  /** In every reachable state nothing is lost; in particular a `failed` row always has
      an unacknowledged entry, whichever stream commands and state writes failed. */
  lemma {:induction false} NoWorkIsLost(env: Env, s: State, acts: seq<Action>)
    requires Inv(s) && Runs(env, OneWorkerPerEntry, s, acts)
    ensures var t := Exec(env, OneWorkerPerEntry, s, acts);
            && Inv(t) && NothingLost(t)
            && forall i :: i in t.rows && t.rows[i].state == Failed ==> exists e :: Unacked(t, e, i)
    decreases |acts|
  {
    if acts == [] {
      forall i | i in s.rows && s.rows[i].state == Failed ensures exists e :: Unacked(s, e, i) {
        var e :| Keeps(s, e, i);
        assert Unacked(s, e, i);
      }
    } else {
      StepKeepsInv(env, s, acts[0]);
      NoWorkIsLost(env, Apply(env, s, acts[0]), acts[1..]);
    }
  }

  lemma InvIsClosed(env: Env)
    ensures Closed(env, OneWorkerPerEntry, s => Inv(s))
  {
    forall s, a | Inv(s) && Step(env, OneWorkerPerEntry, s, a) ensures Inv(Apply(env, s, a)) {
      StepKeepsInv(env, s, a);
    }
  }

  lemma InitialInv(s: State)
    requires Initial(s)
    ensures Inv(s)
  {
  }

  /** From an empty namespace on, no reachable state has lost anything. */
  lemma NeverLost(env: Env, s0: State, s: State)
    requires Initial(s0) && Reachable(env, OneWorkerPerEntry, s0, s)
    ensures NothingLost(s) && forall i :: i in s.rows && s.rows[i].state == Failed ==> exists e :: Unacked(s, e, i)
  {
    InitialInv(s0);
    var acts :| Runs(env, OneWorkerPerEntry, s0, acts) && Exec(env, OneWorkerPerEntry, s0, acts) == s;
    NoWorkIsLost(env, s0, acts);
  }

  // ------------------------------------------------ exactly when work is lost

  /** The steps that strand an item: acknowledging the last entry of a `failed` row, and
      marking a row `failed` when no entry is left. */
  ghost predicate Strands(s: State, a: Action) {
    match a
    case Ack(w, f) =>
      && f != Lost && w in s.jobs && s.jobs[w].entry in s.pel
      && var i := s.pel[s.jobs[w].entry];
         && i in s.rows && s.rows[i].state == Failed
         && forall e :: Unacked(s, e, i) ==> e == s.jobs[w].entry
    case MarkFailed(w, f) =>
      && f != Lost && w in s.jobs && s.jobs[w].item in s.rows
      && forall e :: !Unacked(s, e, s.jobs[w].item)
    case _ => false
  }

  /** Only MarkFailed makes a row `failed`, only Ack acknowledges, and no step does both. */
  lemma EffectStrands(env: Env, now: int, live: Config, cur: Option<Row>, pc: PC, a: Action)
    requires CanWork(env, pc, a)
    ensures var e := Work(env, now, live, cur, pc, a);
            && (e.row.Some? ==> cur.Some? && !e.acked)
            && (e.row.Some? && e.row.value.state == Failed <==> a.MarkFailed? && a.fault != Lost && cur.Some?)
            && (e.acked <==> a.Ack? && a.fault != Lost)
  {
  }

  /** After an acknowledgement a row is accounted for unless that entry was all it had. */
  lemma AckStrands(s: State, w: Worker, e: Effect, i: ItemId)
    requires Entries(s) && w in s.jobs && e.acked && e.row.None? && i in s.rows && s.rows[i].state == Failed && Accounted(s, i)
    ensures Accounted(Commit(s, w, e), i) <==>
            !(s.jobs[w].entry in s.pel && s.pel[s.jobs[w].entry] == i && forall d :: Unacked(s, d, i) ==> d == s.jobs[w].entry)
  {
    var s', entry := Commit(s, w, e), s.jobs[w].entry;
    assert forall d :: Unacked(s', d, i) <==> Unacked(s, d, i) && (d != entry || entry !in s.pel);
    assert Accounted(s', i) <==> exists d :: Unacked(s', d, i);
    var x :| Unacked(s, x, i);
    if entry in s.pel && s.pel[entry] == i && !(forall d :: Unacked(s, d, i) ==> d == entry) {
      var d :| Unacked(s, d, i) && d != entry;
      assert Unacked(s', d, i);
    }
  }

  lemma WorkStrandsExactly(env: Env, s: State, a: Action)
    requires Entries(s) && NothingLost(s) && Working(a) && Enabled(env, s, a)
    ensures NothingLost(Apply(env, s, a)) <==> !Strands(s, a)
  {
    var job := s.jobs[a.worker];
    EffectStrands(env, s.now, s.cfg, Current(s, job.item), job.pc, a);
    var e := EffectOf(env, s, a);
    if e.acked {
      AckStrandsExactly(s, a, e);
    } else {
      OtherStrandsExactly(s, a, e);
    }
  }

  lemma AckStrandsExactly(s: State, a: Action, e: Effect)
    requires Entries(s) && NothingLost(s) && a.Ack? && a.fault != Lost && a.worker in s.jobs && e.acked && e.row.None?
    ensures NothingLost(Commit(s, a.worker, e)) <==> !Strands(s, a)
  {
    var s', entry := Commit(s, a.worker, e), s.jobs[a.worker].entry;
    forall i | i in s'.rows ensures Accounted(s', i) <==> !(Strands(s, a) && s.pel[entry] == i) {
      assert Accounted(s, i);
      if s.rows[i].state == Failed {
        AckStrands(s, a.worker, e, i);
      }
    }
  }

  /** Without an acknowledgement the stream still owes what it owed. */
  lemma OtherStrandsExactly(s: State, a: Action, e: Effect)
    requires NothingLost(s) && Working(a) && a.worker in s.jobs && !e.acked && !(a.Ack? && a.fault != Lost)
    requires e.row.Some? ==> s.jobs[a.worker].item in s.rows
    requires e.row.Some? && e.row.value.state == Failed <==> a.MarkFailed? && a.fault != Lost && s.jobs[a.worker].item in s.rows
    ensures NothingLost(Commit(s, a.worker, e)) <==> !Strands(s, a)
  {
    var s', item := Commit(s, a.worker, e), s.jobs[a.worker].item;
    assert forall d, i :: Unacked(s', d, i) <==> Unacked(s, d, i);
    forall i | i in s'.rows && !(i == item && e.row.Some? && e.row.value.state == Failed) ensures Accounted(s', i) {
      assert i in s.rows && Accounted(s, i);
    }
    if e.row.Some? && e.row.value.state == Failed {
      assert Accounted(s', item) <==> exists d :: Unacked(s', d, item);
    }
  }

  lemma ElsewhereStrandsNothing(env: Env, s: State, a: Action)
    requires Entries(s) && NothingLost(s) && !Working(a) && Enabled(env, s, a)
    ensures NothingLost(Apply(env, s, a))
  {
    var s' := Apply(env, s, a);
    forall i | i in s'.rows ensures Accounted(s', i) {
      if s'.rows[i].state == Failed {
        FailedOnlyByWorkers(env, s, a, i);
        assert Accounted(s, i);
        var e :| Unacked(s, e, i);
        assert Unacked(s', e, i);
      }
    }
  }

  /** Under any discipline at all, the two steps above are the only ones that lose work. */
  lemma WorkLostExactly(env: Env, s: State, a: Action)
    requires Entries(s) && NothingLost(s) && Enabled(env, s, a)
    ensures NothingLost(Apply(env, s, a)) <==> !Strands(s, a)
  {
    if Working(a) {
      WorkStrandsExactly(env, s, a);
    } else {
      ElsewhereStrandsNothing(env, s, a);
    }
  }

  /** A refused writer lease leaves ProcessItem's outcome at its zero value, which the
      worker takes for success. If the row was `failed` and this was its last entry,
      the item is lost: no entry is left and the sweeper never looks at it. */
  lemma RefusedLeaseLosesWork(env: Env, s: State, w: Worker)
    requires w in s.jobs && s.jobs[w].pc.Loaded? && s.jobs[w].item in s.rows && s.rows[s.jobs[w].item].state == Failed
    requires s.jobs[w].entry in s.pel && s.pel[s.jobs[w].entry] == s.jobs[w].item && s.jobs[w].entry !in s.queue
    requires forall e :: Unacked(s, e, s.jobs[w].item) ==> e == s.jobs[w].entry
    ensures Runs(env, Anything, s, [RefuseLease(w), Ack(w, Done)])
    ensures var t := Exec(env, Anything, s, [RefuseLease(w), Ack(w, Done)]); var i := s.jobs[w].item;
            i in t.rows && t.rows[i].state == Failed && !Sweepable(t.rows[i]) && forall e :: !Unacked(t, e, i)
  {
    var i := s.jobs[w].item;
    var s1 := Apply(env, s, RefuseLease(w));
    var s2 := Apply(env, s1, Ack(w, Done));
    OneStep(env, Anything, s1, Ack(w, Done));
    assert [RefuseLease(w), Ack(w, Done)][1..] == [Ack(w, Done)];
    forall e ensures !Unacked(s2, e, i) {
      assert Unacked(s2, e, i) ==> Unacked(s, e, i);
    }
  }
}
