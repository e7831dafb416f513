/** A row marked `embedded` tells the truth: the stored vector is the embedding of
    the row's current content under the strategy pair on the row. */
module Truth {
  import opened Wrappers
  import opened Pipeline

  ghost predicate Injective(env: Env) {
    forall c, d :: env.hash(c) == env.hash(d) ==> c == d
  }

  /** The stored vector of row i is what its bookkeeping claims. */
  predicate Truthful(env: Env, s: State, row: Row) {
    RowTruthful(env, s.vectors, row)
  }

  predicate RowTruthful(env: Env, vectors: map<string, Vector>, row: Row) {
    row.state == Embedded ==>
      && row.sid.Some? && row.sver.Some?
      && row.obj in vectors
      && vectors[row.obj] == env.embed(Strategy(row.sid.value, row.sver.value), row.content)
  }

  ghost predicate AllTruthful(env: Env, s: State) {
    forall i :: i in s.rows ==> Truthful(env, s, s.rows[i])
  }

  /** Table facts: digests match contents, one row per object, fresh ids. */
  ghost predicate Table(env: Env, s: State) {
    && (forall i :: i in s.rows ==> s.rows[i].hash == env.hash(s.rows[i].content) && i < s.nextId)
    && (forall i, j :: i in s.rows && j in s.rows && i != j ==> s.rows[i].obj != s.rows[j].obj)
    && (forall e :: e in s.queue ==> s.queue[e] < s.nextId)
    && (forall e :: e in s.pel ==> s.pel[e] < s.nextId)
  }

  predicate HasSnap(pc: PC) {
    pc.Loaded? || pc.Configured? || pc.Flying? || pc.Vectored? || pc.Stored?
  }

  /** What a worker may rely on at its program point, however others interleave; cur is
      its row as it is now. */
  ghost predicate PcOk(env: Env, cur: Option<Row>, vectors: map<string, Vector>, pc: PC) {
    && (HasSnap(pc) ==> cur.Some? && pc.snap.obj == cur.value.obj && pc.snap.hash == env.hash(pc.snap.content))
    && (pc.Flying? || pc.Vectored? || pc.Stored? ==> cur.value.state != Embedded)
    && (pc.Vectored? ==> pc.vec == env.embed(pc.cfg.strategy, pc.snap.content))
    && (pc.Stored? ==> pc.snap.obj in vectors && vectors[pc.snap.obj] == env.embed(pc.cfg.strategy, pc.snap.content))
  }

  ghost predicate JobOk(env: Env, s: State, job: Job) {
    job.item < s.nextId && PcOk(env, Current(s, job.item), s.vectors, job.pc)
  }

  ghost predicate JobsOk(env: Env, s: State) {
    && (forall w :: w in s.jobs ==> JobOk(env, s, s.jobs[w]))
    && (forall v, w :: v in s.jobs && w in s.jobs && v != w ==> s.jobs[v].item != s.jobs[w].item)
  }

  ghost predicate Inv(env: Env, s: State) {
    Table(env, s) && JobsOk(env, s) && AllTruthful(env, s)
  }

  /** At most one ProcessItem per item, and no object deletion; everything else interleaves freely. */
  const OneWorkerPerItem := Mode(false, true, false, true)

  // ------------------------------------------------ actions outside the workers

  /** A row change no worker makes: nothing becomes embedded, and a row that stays
      embedded keeps its content and strategy pair. */
  ghost predicate SoftRow(env: Env, r: Row, r': Row) {
    && r'.obj == r.obj
    && r'.hash == env.hash(r'.content)
    && (r'.state == Embedded ==> r == r'.(updatedAt := r.updatedAt))
  }

  ghost predicate SoftStep(env: Env, s: State, s': State) {
    && s'.jobs == s.jobs && s'.vectors == s.vectors && s'.pel == s.pel && s.nextId <= s'.nextId
    && (forall e :: e in s'.queue ==> s'.queue[e] < s'.nextId)
    && (forall i :: i in s.rows ==> i in s'.rows && SoftRow(env, s.rows[i], s'.rows[i]))
    && (forall i :: i in s'.rows && i !in s.rows ==>
          && i == s.nextId < s'.nextId
          && s'.rows[i].state == Pending && s'.rows[i].hash == env.hash(s'.rows[i].content)
          && forall j :: j in s.rows ==> s.rows[j].obj != s'.rows[i].obj)
  }

  predicate Outside(a: Action) {
    !Working(a) && !a.Deliver? && !a.Reclaim? && !a.DeletePoint? && !a.DeleteRow?
  }

  lemma RowAfterIsSoft(env: Env, s: State, a: Action, i: ItemId)
    requires Injective(env) && Outside(a) && EnabledElsewhere(s, a) && i in s.rows && s.rows[i].hash == env.hash(s.rows[i].content)
    ensures SoftRow(env, s.rows[i], RowAfter(env, s, a, i, s.rows[i]))
  {
  }

  lemma OutsideIsSoft(env: Env, s: State, a: Action)
    requires Injective(env) && Table(env, s)
    requires Outside(a) && Enabled(env, s, a)
    ensures SoftStep(env, s, Apply(env, s, a))
  {
    var s' := Apply(env, s, a);
    OutsideLeaves(env, s, a);
    forall i | i in s.rows ensures i in s'.rows && SoftRow(env, s.rows[i], s'.rows[i]) {
      RowsAfterShape(env, s, a, i);
      RowAfterIsSoft(env, s, a, i);
    }
    forall i | i in s'.rows && i !in s.rows
      ensures && i == s.nextId < s'.nextId && s'.rows[i].state == Pending && s'.rows[i].hash == env.hash(s'.rows[i].content)
              && forall j :: j in s.rows ==> s.rows[j].obj != s'.rows[i].obj
    {
      RowsAfterShape(env, s, a, i);
    }
  }

  /** Outside the workers' own steps, jobs, vectors and pending entries stay as they are. */
  lemma OutsideLeaves(env: Env, s: State, a: Action)
    requires Table(env, s) && Outside(a) && Enabled(env, s, a)
    ensures var s' := Apply(env, s, a);
            && s'.jobs == s.jobs && s'.vectors == s.vectors && s'.pel == s.pel && s.nextId <= s'.nextId
            && forall e :: e in s'.queue ==> s'.queue[e] < s'.nextId
  {
  }

  lemma SoftKeepsInv(env: Env, s: State, s': State)
    requires Inv(env, s) && SoftStep(env, s, s')
    ensures Inv(env, s')
  {
    forall i | i in s'.rows ensures Truthful(env, s', s'.rows[i]) {
    }
    forall w | w in s'.jobs ensures JobOk(env, s', s'.jobs[w]) {
      assert JobOk(env, s, s.jobs[w]);
    }
  }

  // ------------------------------------------------ worker actions

  /** Everything but w's job, w's row and w's vector stays put. */
  ghost predicate Local(s: State, s': State, w: Worker) {
    && w in s.jobs && s'.nextId == s.nextId && s'.queue == s.queue
    && (forall e :: e in s'.pel ==> e in s.pel && s'.pel[e] == s.pel[e])
    && (forall v :: v != w ==> (v in s'.jobs <==> v in s.jobs))
    && (forall v :: v != w && v in s.jobs ==> s'.jobs[v] == s.jobs[v])
    && (w in s'.jobs ==> s'.jobs[w].item == s.jobs[w].item)
    && s'.rows.Keys == s.rows.Keys
    && (forall j :: j in s.rows && j != s.jobs[w].item ==> s'.rows[j] == s.rows[j])
    && (forall j :: j in s.rows ==> s'.rows[j].obj == s.rows[j].obj && s'.rows[j].content == s.rows[j].content && s'.rows[j].hash == s.rows[j].hash)
    && (forall o :: s.jobs[w].item !in s.rows || o != s.rows[s.jobs[w].item].obj ==>
          (o in s'.vectors <==> o in s.vectors) && (o in s.vectors ==> s'.vectors[o] == s.vectors[o]))
  }

  lemma LocalKeepsTable(env: Env, s: State, s': State, w: Worker)
    requires Table(env, s) && Local(s, s', w)
    ensures Table(env, s')
  {
  }

  lemma LocalKeepsJob(env: Env, s: State, s': State, w: Worker, v: Worker)
    requires Inv(env, s) && Local(s, s', w) && v in s'.jobs && v != w
    ensures JobOk(env, s', s'.jobs[v])
  {
    var job := s.jobs[v];
    assert JobOk(env, s, job) && s'.jobs[v] == job && job.item != s.jobs[w].item;
    assert Current(s', job.item) == Current(s, job.item);
    if job.pc.Stored? {
      var o := job.pc.snap.obj;
      assert s.jobs[w].item !in s.rows || o != s.rows[s.jobs[w].item].obj;
      assert s'.vectors[o] == s.vectors[o];
    }
  }

  lemma LocalKeepsRow(env: Env, s: State, s': State, w: Worker, j: ItemId)
    requires Inv(env, s) && Local(s, s', w) && j in s'.rows && j != s.jobs[w].item
    ensures Truthful(env, s', s'.rows[j])
  {
    assert Truthful(env, s, s.rows[j]) && s'.rows[j] == s.rows[j];
  }

  lemma LocalKeepsInv(env: Env, s: State, s': State, w: Worker)
    requires Inv(env, s) && Local(s, s', w)
    requires w in s'.jobs ==> JobOk(env, s', s'.jobs[w])
    requires s.jobs[w].item in s.rows ==> Truthful(env, s', s'.rows[s.jobs[w].item])
    ensures Inv(env, s')
  {
    LocalKeepsTable(env, s, s', w);
    forall j | j in s'.rows ensures Truthful(env, s', s'.rows[j]) {
      if j != s.jobs[w].item {
        LocalKeepsRow(env, s, s', w, j);
      }
    }
    forall v | v in s'.jobs ensures JobOk(env, s', s'.jobs[v]) {
      if v != w {
        LocalKeepsJob(env, s, s', w, v);
      }
    }
    forall u, v | u in s'.jobs && v in s'.jobs && u != v ensures s'.jobs[u].item != s'.jobs[v].item {
      assert s'.jobs[u].item == s.jobs[u].item && s'.jobs[v].item == s.jobs[v].item;
    }
  }

  /** A worker step rewrites only lifecycle columns, and its vector only from `Vectored`. */
  lemma EffectShape(env: Env, now: int, live: Config, cur: Option<Row>, pc: PC, a: Action)
    requires CanWork(env, pc, a)
    ensures var e := Work(env, now, live, cur, pc, a);
            && (e.row.Some? ==>
                  && cur.Some? && e.row.value.obj == cur.value.obj
                  && e.row.value.content == cur.value.content && e.row.value.hash == cur.value.hash)
            && (e.point.Some? ==> pc.Vectored? && e.point.value == (pc.snap.obj, pc.vec))
  {
  }

  lemma WorkIsLocal(env: Env, s: State, a: Action)
    requires Inv(env, s) && Working(a) && Enabled(env, s, a)
    ensures Local(s, Apply(env, s, a), a.worker)
  {
    var job := s.jobs[a.worker];
    assert JobOk(env, s, job);
    EffectShape(env, s.now, s.cfg, Current(s, job.item), job.pc, a);
  }

  /** What a step leaves behind: the row and the vector store as the effect changes them. */
  function RowWith(cur: Option<Row>, e: Effect): Option<Row> {
    if e.row.Some? then e.row else cur
  }

  function VectorsWith(vectors: map<string, Vector>, e: Effect): map<string, Vector> {
    if e.point.Some? then vectors[e.point.value.0 := e.point.value.1] else vectors
  }

  lemma EffectKeepsPcOk(env: Env, now: int, live: Config, cur: Option<Row>, vectors: map<string, Vector>, pc: PC, a: Action)
    requires CanWork(env, pc, a) && PcOk(env, cur, vectors, pc) && (cur.Some? ==> cur.value.hash == env.hash(cur.value.content))
    ensures var e := Work(env, now, live, cur, pc, a);
            e.pc.Some? ==> PcOk(env, RowWith(cur, e), VectorsWith(vectors, e), e.pc.value)
  {
  }

  lemma EffectKeepsTruth(env: Env, now: int, live: Config, row: Row, vectors: map<string, Vector>, pc: PC, a: Action)
    requires Injective(env) && CanWork(env, pc, a) && PcOk(env, Some(row), vectors, pc) && row.hash == env.hash(row.content)
    requires RowTruthful(env, vectors, row)
    ensures var e := Work(env, now, live, Some(row), pc, a);
            RowTruthful(env, VectorsWith(vectors, e), RowWith(Some(row), e).value)
  {
  }

  lemma WorkKeepsJobOk(env: Env, s: State, a: Action)
    requires Inv(env, s) && Working(a) && Enabled(env, s, a)
    ensures a.worker in Apply(env, s, a).jobs ==> JobOk(env, Apply(env, s, a), Apply(env, s, a).jobs[a.worker])
  {
    var job := s.jobs[a.worker];
    var cur := Current(s, job.item);
    assert JobOk(env, s, job);
    EffectKeepsPcOk(env, s.now, s.cfg, cur, s.vectors, job.pc, a);
    EffectShape(env, s.now, s.cfg, cur, job.pc, a);
    CommitCurrent(s, a.worker, EffectOf(env, s, a));
  }

  lemma CommitCurrent(s: State, w: Worker, e: Effect)
    requires w in s.jobs && (e.row.Some? ==> s.jobs[w].item in s.rows)
    ensures var s' := Commit(s, w, e);
            && Current(s', s.jobs[w].item) == RowWith(Current(s, s.jobs[w].item), e)
            && s'.vectors == VectorsWith(s.vectors, e) && s'.nextId == s.nextId
            && (w in s'.jobs <==> e.pc.Some?) && (e.pc.Some? ==> s'.jobs[w] == s.jobs[w].(pc := e.pc.value))
  {
  }

  /** The step that records success only does so for the content that was embedded. */
  lemma WorkKeepsRowTruthful(env: Env, s: State, a: Action)
    requires Injective(env)
    requires Inv(env, s) && Working(a) && Enabled(env, s, a)
    requires s.jobs[a.worker].item in s.rows
    ensures s.jobs[a.worker].item in Apply(env, s, a).rows
    ensures Truthful(env, Apply(env, s, a), Apply(env, s, a).rows[s.jobs[a.worker].item])
  {
    var job := s.jobs[a.worker];
    var row := s.rows[job.item];
    assert JobOk(env, s, job) && Truthful(env, s, row);
    EffectKeepsTruth(env, s.now, s.cfg, row, s.vectors, job.pc, a);
    CommitCurrent(s, a.worker, EffectOf(env, s, a));
  }

  /** Taking an entry adds one fresh worker and touches no row and no vector. */
  ghost predicate Claims(s: State, s': State, w: Worker, e: Entry, i: ItemId) {
    && w !in s.jobs && i < s.nextId && !Busy(s, i)
    && s'.rows == s.rows && s'.vectors == s.vectors && s'.nextId == s.nextId
    && s'.jobs == s.jobs[w := Job(e, i, Claimed)]
    && (forall d :: d in s'.queue ==> d in s.queue && s'.queue[d] == s.queue[d])
    && (forall d :: d in s'.pel ==> s'.pel[d] < s.nextId)
  }

  lemma DeliverClaims(env: Env, s: State, w: Worker, e: Entry)
    requires Table(env, s) && Step(env, OneWorkerPerItem, s, Deliver(w, e))
    ensures Claims(s, Apply(env, s, Deliver(w, e)), w, e, s.queue[e])
  {
  }

  lemma ReclaimClaims(env: Env, s: State, w: Worker, e: Entry)
    requires Table(env, s) && Step(env, OneWorkerPerItem, s, Reclaim(w, e))
    ensures Claims(s, Apply(env, s, Reclaim(w, e)), w, e, s.pel[e])
  {
  }

  lemma ClaimKeepsInv(env: Env, s: State, s': State, w: Worker, e: Entry, i: ItemId)
    requires Inv(env, s) && Claims(s, s', w, e, i)
    ensures Inv(env, s')
  {
    forall v | v in s'.jobs ensures JobOk(env, s', s'.jobs[v]) {
      if v != w {
        assert JobOk(env, s, s.jobs[v]);
      }
    }
    forall j | j in s'.rows ensures Truthful(env, s', s'.rows[j]) {
      assert Truthful(env, s, s.rows[j]);
    }
  }

  lemma StepKeepsInv(env: Env, s: State, a: Action)
    requires Injective(env)
    requires Inv(env, s) && Step(env, OneWorkerPerItem, s, a)
    ensures Inv(env, Apply(env, s, a))
  {
    if Outside(a) {
      OutsideIsSoft(env, s, a);
      SoftKeepsInv(env, s, Apply(env, s, a));
    } else if a.Deliver? {
      DeliverClaims(env, s, a.worker, a.entry);
      ClaimKeepsInv(env, s, Apply(env, s, a), a.worker, a.entry, s.queue[a.entry]);
    } else if a.Reclaim? {
      ReclaimClaims(env, s, a.worker, a.entry);
      ClaimKeepsInv(env, s, Apply(env, s, a), a.worker, a.entry, s.pel[a.entry]);
    } else {
      WorkIsLocal(env, s, a);
      WorkKeepsJobOk(env, s, a);
      if s.jobs[a.worker].item in s.rows {
        WorkKeepsRowTruthful(env, s, a);
      }
      LocalKeepsInv(env, s, Apply(env, s, a), a.worker);
    }
  }

  /** In every reachable state every `embedded` row is truthful, whatever ingests,
      redrives, resets, sweeps, configuration edits, failures and crashes interleave. */
  lemma {:induction false} EmbeddedIsTruthful(env: Env, s: State, acts: seq<Action>)
    requires Injective(env)
    requires Inv(env, s) && Runs(env, OneWorkerPerItem, s, acts)
    ensures Inv(env, Exec(env, OneWorkerPerItem, s, acts))
    ensures AllTruthful(env, Exec(env, OneWorkerPerItem, s, acts))
    decreases |acts|
  {
    if acts != [] {
      StepKeepsInv(env, s, acts[0]);
      EmbeddedIsTruthful(env, Apply(env, s, acts[0]), acts[1..]);
    }
  }

  /** The invariant is one of the closed sets the code's contracts speak about. */
  lemma InvIsClosed(env: Env)
    requires Injective(env)
    ensures Closed(env, OneWorkerPerItem, s => Inv(env, s))
  {
    forall s, a | Inv(env, s) && Step(env, OneWorkerPerItem, s, a) ensures Inv(env, Apply(env, s, a)) {
      StepKeepsInv(env, s, a);
    }
  }

  lemma InitialInv(env: Env, s: State)
    requires Initial(s)
    ensures Inv(env, s)
  {
  }

  /** From an empty namespace on, every `embedded` row of every reachable state is truthful. */
  lemma AlwaysTruthful(env: Env, s0: State, s: State)
    requires Injective(env) && Initial(s0) && Reachable(env, OneWorkerPerItem, s0, s)
    ensures AllTruthful(env, s)
  {
    InitialInv(env, s0);
    var acts :| Runs(env, OneWorkerPerItem, s0, acts) && Exec(env, OneWorkerPerItem, s0, acts) == s;
    EmbeddedIsTruthful(env, s0, acts);
  }

  // ------------------------------------------------ exactly when truth is lost

  /** The steps that make an `embedded` row lie: a vector written under a row that is
      already `embedded` with another one, success recorded over somebody else's
      vector, and deleting the point of an `embedded` row. */
  ghost predicate Breaks(env: Env, s: State, a: Action)
    requires Enabled(env, s, a)
  {
    match a
    case Upsert(w, f) =>
      var pc := s.jobs[w].pc;
      f != Lost && exists i :: i in s.rows && s.rows[i].state == Embedded && s.rows[i].obj == pc.snap.obj
                               && env.embed(Strategy(OrEmpty(s.rows[i].sid), OrEmpty(s.rows[i].sver)), s.rows[i].content) != pc.vec
    case MarkEmbedded(w, f) =>
      var job := s.jobs[w];
      && f != Lost && job.item in s.rows && s.rows[job.item].hash == job.pc.snap.hash
      && var row := s.rows[job.item];
         row.obj !in s.vectors || s.vectors[row.obj] != env.embed(job.pc.cfg.strategy, row.content)
    case DeletePoint(o) => exists i :: i in s.rows && s.rows[i].state == Embedded && s.rows[i].obj == o
    case _ => false
  }

  /** Without the one-worker-per-item discipline, the steps above are the only ones
      that break truth, and each of them does. */
  lemma TruthBrokenExactly(env: Env, s: State, a: Action)
    requires Injective(env) && Table(env, s) && AllTruthful(env, s)
    requires Enabled(env, s, a)
    ensures AllTruthful(env, Apply(env, s, a)) <==> !Breaks(env, s, a)
  {
    if Working(a) {
      WorkBreaksExactly(env, s, a);
    } else {
      ElsewhereBreaksExactly(env, s, a);
    }
  }

  lemma WorkBreaksExactly(env: Env, s: State, a: Action)
    requires AllTruthful(env, s)
    requires Working(a) && Enabled(env, s, a)
    ensures AllTruthful(env, Apply(env, s, a)) <==> !Breaks(env, s, a)
  {
    var s' := Apply(env, s, a);
    var job := s.jobs[a.worker];
    if Breaks(env, s, a) && a.Upsert? {
      var i :| i in s.rows && s.rows[i].state == Embedded && s.rows[i].obj == job.pc.snap.obj
               && env.embed(Strategy(OrEmpty(s.rows[i].sid), OrEmpty(s.rows[i].sver)), s.rows[i].content) != job.pc.vec;
      assert Truthful(env, s, s.rows[i]) && !Truthful(env, s', s'.rows[i]);
    } else if Breaks(env, s, a) {
      assert !Truthful(env, s', s'.rows[job.item]);
    } else {
      forall i | i in s'.rows ensures Truthful(env, s', s'.rows[i]) {
        assert i in s.rows ==> Truthful(env, s, s.rows[i]);
      }
    }
  }

  /** No writer but a worker makes or keeps a row `embedded` that was not. */
  lemma RowAfterTruthful(env: Env, s: State, a: Action, i: ItemId)
    requires Injective(env) && !Working(a) && EnabledElsewhere(s, a) && i in s.rows && s.rows[i].hash == env.hash(s.rows[i].content)
    requires RowTruthful(env, s.vectors, s.rows[i])
    ensures RowTruthful(env, s.vectors, RowAfter(env, s, a, i, s.rows[i]))
    ensures RowAfter(env, s, a, i, s.rows[i]).obj == s.rows[i].obj
    ensures RowAfter(env, s, a, i, s.rows[i]).state == Embedded ==> s.rows[i].state == Embedded
  {
  }

  lemma ElsewhereKeepsTruth(env: Env, s: State, a: Action, i: ItemId)
    requires Injective(env) && Table(env, s) && AllTruthful(env, s)
    requires !Working(a) && Enabled(env, s, a) && !Breaks(env, s, a) && i in Apply(env, s, a).rows
    ensures Truthful(env, Apply(env, s, a), Apply(env, s, a).rows[i])
  {
    var s' := Apply(env, s, a);
    assert i in s.rows ==> Truthful(env, s, s.rows[i]);
    if !a.DeleteRow? {
      RowsAfterShape(env, s, a, i);
      if i in s.rows {
        RowAfterTruthful(env, s, a, i);
      }
    }
  }

  lemma ElsewhereBreaksExactly(env: Env, s: State, a: Action)
    requires Injective(env) && Table(env, s) && AllTruthful(env, s)
    requires !Working(a) && Enabled(env, s, a)
    ensures AllTruthful(env, Apply(env, s, a)) <==> !Breaks(env, s, a)
  {
    var s' := Apply(env, s, a);
    if Breaks(env, s, a) {
      var i :| i in s.rows && s.rows[i].state == Embedded && s.rows[i].obj == a.obj;
      assert !Truthful(env, s', s'.rows[i]);
    } else {
      forall i | i in s'.rows ensures Truthful(env, s', s'.rows[i]) {
        ElsewhereKeepsTruth(env, s, a, i);
      }
    }
  }
}
