/** The catalog embedding pipeline of one namespace generation, as a state machine.

    Separate processes share one `catalog_items` table, one Redis stream with a
    pending-entries list, and one vector store. Every SQL statement, every stream
    command and every vector upsert is one atomic action, and each write may fail
    with or without having taken effect. */
module Pipeline {

  import opened Wrappers

  type ItemId = nat
  type Entry = nat
  type Worker = nat
  type RunId = nat
  type Vector = seq<real>

  datatype Strategy = Strategy(id: string, version: string)

  datatype ItemState = Pending | InFlight | Embedded | Failed | DeadLetter

  datatype Row = Row(obj: string, content: string, hash: nat, state: ItemState,
                     attempts: nat, sid: Option<string>, sver: Option<string>, updatedAt: int)

  datatype Config = Config(strategy: Strategy, maxAttempts: int, dim: nat)

  /** What the pipeline takes from outside: the content digest, the embedding
      function and the process-wide retry default. */
  datatype Env = Env(hash: string -> nat, embed: (Strategy, string) -> Vector, defaultMax: int)

  /** Where a worker stands inside ProcessItem; each point carries the locals that
      are live there. */
  datatype PC =
    | Claimed
    | Loaded(snap: Row)
    | Configured(snap: Row, cfg: Config)
    | Flying(snap: Row, cfg: Config, attempt: nat)
    | Vectored(snap: Row, cfg: Config, vec: Vector)
    | Stored(snap: Row, cfg: Config)
    | Failing
    | Burying
    | Acking

  datatype Job = Job(entry: Entry, item: ItemId, pc: PC)

  /** An open or closed re-embed run; `sawZero` says some watcher tick has counted
      no stale row since the run started. */
  datatype ReembedRun = ReembedRun(target: Strategy, sawZero: bool, open: bool)

  datatype State = State(
    now: int,
    cfg: Config,
    rows: map<ItemId, Row>,
    nextId: ItemId,
    vectors: map<string, Vector>,
    queue: map<Entry, ItemId>,
    pel: map<Entry, ItemId>,
    nextEntry: Entry,
    jobs: map<Worker, Job>,
    runs: map<RunId, ReembedRun>,
    nextRun: RunId)

  /** Outcome of one external write: it happened and was confirmed, it did not
      happen, or it happened although the caller saw an error. */
  datatype Fault = Done | Lost | Erred

  datatype EmbedResult = Ok | Terminal | Transient

  datatype OnlyState = Stale | All | OnlyEmbedded | OnlyFailed

  datatype Action =
    | Tick(delta: nat)
    | EditConfig(cfg: Config)
    | Ingest(item: ItemId, obj: string, content: string)
    | Publish(item: ItemId)
    | Redrive(item: ItemId)
    | BulkRedrive
    | StartReembed(only: OnlyState, target: Strategy)
    | CountStale(run: RunId)
    | CloseRun(run: RunId)
    | SweepReset(items: set<ItemId>)
    | DeletePoint(obj: string)
    | DeleteRow(item: ItemId)
    | Deliver(worker: Worker, entry: Entry)
    | Reclaim(worker: Worker, entry: Entry)
    | Abandon(worker: Worker)
    | Load(worker: Worker)
    | RefuseLease(worker: Worker)
    | ReadConfig(worker: Worker)
    | Skip(worker: Worker)
    | MarkInFlight(worker: Worker, fault: Fault)
    | Exhaust(worker: Worker)
    | ResolveFail(worker: Worker)
    | Embed(worker: Worker, result: EmbedResult)
    | PrepareFail(worker: Worker)
    | Upsert(worker: Worker, fault: Fault)
    | MarkEmbedded(worker: Worker, fault: Fault)
    | MarkFailed(worker: Worker, fault: Fault)
    | MarkDeadLetter(worker: Worker, fault: Fault)
    | Ack(worker: Worker, fault: Fault)

  // ---------------------------------------------------------------- row updates

  /** Namespace override, then the process default, then 5. */
  function MaxAttempts(env: Env, cfg: Config): (n: nat)
    ensures n > 0
  {
    if cfg.maxAttempts > 0 then cfg.maxAttempts
    else if env.defaultMax > 0 then env.defaultMax
    else 5
  }

  function OrEmpty(o: Option<string>): string {
    if o.Some? then o.value else ""
  }

  /** The idempotency short-circuit on the loaded snapshot. */
  predicate AlreadyEmbedded(snap: Row, cfg: Config) {
    snap.state == Embedded && OrEmpty(snap.sid) == cfg.strategy.id && OrEmpty(snap.sver) == cfg.strategy.version
  }

  function Ingested(env: Env, row: Row, content: string, now: int): Row {
    var h := env.hash(content);
    if row.hash == h
    then row.(content := content, updatedAt := now)
    else row.(content := content, hash := h, state := Pending, attempts := 0, updatedAt := now)
  }

  function Fresh(env: Env, obj: string, content: string, now: int): Row {
    Row(obj, content, env.hash(content), Pending, 0, None, None, now)
  }

  function Requeued(row: Row, now: int): Row {
    row.(state := Pending, attempts := 0, updatedAt := now)
  }

  /** The version test shared by the re-embed reset and the stale count. */
  predicate OffTarget(row: Row, target: Strategy) {
    row.sid.None? || row.sver.None? || row.sid.value != target.id || row.sver.value != target.version
  }

  /** Which rows the re-embed reset statement selects for each filter. */
  predicate ReembedSelects(only: OnlyState, row: Row, target: Strategy) {
    match only
    case Stale => row.state in {Embedded, Failed, DeadLetter} && OffTarget(row, target)
    case All => row.state in {Embedded, Failed, DeadLetter}
    case OnlyEmbedded => row.state == Embedded
    case OnlyFailed => row.state in {Failed, DeadLetter}
  }

  /** Which rows the completion watcher still counts as outstanding. */
  predicate CountsAsStale(row: Row, target: Strategy) {
    row.state in {Pending, InFlight, Failed} && OffTarget(row, target)
  }

  predicate AnyStale(rows: map<ItemId, Row>, target: Strategy) {
    exists i :: i in rows && CountsAsStale(rows[i], target)
  }

  // ---------------------------------------------------------------- worker steps

  predicate Working(a: Action) {
    a.Abandon? || a.Load? || a.RefuseLease? || a.ReadConfig? || a.Skip? || a.MarkInFlight? || a.Exhaust? || a.ResolveFail?
    || a.Embed? || a.PrepareFail? || a.Upsert? || a.MarkEmbedded? || a.MarkFailed? || a.MarkDeadLetter? || a.Ack?
  }

  /** All a worker step can do: rewrite its row, move on (or end without acknowledging
      when `pc` is None), upsert a vector, remove its entry from the pending list. */
  datatype Effect = Effect(row: Option<Row>, pc: Option<PC>, point: Option<(string, Vector)>, acked: bool)

  function Move(pc: PC): Effect {
    Effect(None, Some(pc), None, false)
  }

  const Quit := Effect(None, None, None, false)

  predicate CanWork(env: Env, pc: PC, a: Action) {
    match a
    case Abandon(_) => true
    case Load(_) => pc.Claimed?
    case RefuseLease(_) => pc.Loaded?
    case ReadConfig(_) => pc.Loaded?
    case Skip(_) => pc.Configured? && AlreadyEmbedded(pc.snap, pc.cfg)
    case MarkInFlight(_, _) => pc.Configured? && !AlreadyEmbedded(pc.snap, pc.cfg)
    case Exhaust(_) => pc.Flying? && pc.attempt > MaxAttempts(env, pc.cfg)
    case ResolveFail(_) => pc.Flying? && pc.attempt <= MaxAttempts(env, pc.cfg)
    case Embed(_, _) => pc.Flying? && pc.attempt <= MaxAttempts(env, pc.cfg)
    case PrepareFail(_) => pc.Vectored?
    case Upsert(_, _) => pc.Vectored?
    case MarkEmbedded(_, _) => pc.Stored?
    case MarkFailed(_, _) => pc.Failing?
    case MarkDeadLetter(_, _) => pc.Burying?
    case Ack(_, _) => pc.Acking?
    case _ => false
  }

  /** One step of the worker at `pc`, given the clock, the live configuration and the
      row as it is now (None when it has been deleted). */
  function Work(env: Env, now: int, live: Config, cur: Option<Row>, pc: PC, a: Action): Effect
    requires CanWork(env, pc, a)
  {
    match a
    case Load(_) => if cur.Some? then Move(Loaded(cur.value)) else Move(Acking)
    case RefuseLease(_) => Move(Acking)
    case ReadConfig(_) => Move(Configured(pc.snap, live))
    case Skip(_) => Move(Acking)
    case MarkInFlight(_, f) => WorkMarkInFlight(now, cur, pc, f)
    case Exhaust(_) => Move(Burying)
    case ResolveFail(_) => Move(Burying)
    case Embed(_, r) => WorkEmbed(env, pc, r)
    case PrepareFail(_) => Move(Failing)
    case Upsert(_, f) => WorkUpsert(pc, f)
    case MarkEmbedded(_, f) => WorkMarkEmbedded(now, cur, pc, f)
    case MarkFailed(_, f) =>
      if f == Lost || cur.None? then Quit
      else Quit.(row := Some(cur.value.(state := Failed, updatedAt := now)))
    case MarkDeadLetter(_, f) =>
      if f == Lost || cur.None? then Quit
      else Effect(Some(cur.value.(state := DeadLetter, updatedAt := now)), if f == Done then Some(Acking) else None, None, false)
    case Ack(_, f) => Quit.(acked := f != Lost)
    case _ => Quit
  }

  function WorkMarkInFlight(now: int, cur: Option<Row>, pc: PC, f: Fault): Effect
    requires pc.Configured?
  {
    if f == Lost then Quit
    else if cur.None? then (if f == Done then Move(Acking) else Quit)
    else
      var attempt := cur.value.attempts + 1;
      Effect(Some(cur.value.(state := InFlight, attempts := attempt, updatedAt := now)),
             if f == Done then Some(Flying(pc.snap, pc.cfg, attempt)) else None, None, false)
  }

  function WorkEmbed(env: Env, pc: PC, r: EmbedResult): Effect
    requires pc.Flying?
  {
    match r
    case Terminal => Move(Burying)
    case Transient => Move(Failing)
    case Ok =>
      var vec := env.embed(pc.cfg.strategy, pc.snap.content);
      if |vec| != pc.cfg.dim then Move(Burying) else Move(Vectored(pc.snap, pc.cfg, vec))
  }

  function WorkUpsert(pc: PC, f: Fault): Effect
    requires pc.Vectored?
  {
    Effect(None, Some(if f == Done then Stored(pc.snap, pc.cfg) else Failing),
           if f == Lost then None else Some((pc.snap.obj, pc.vec)), false)
  }

  /** Success is recorded only while the row still holds the digest that was embedded. */
  function WorkMarkEmbedded(now: int, cur: Option<Row>, pc: PC, f: Fault): Effect
    requires pc.Stored?
  {
    if f == Lost || cur.None? || cur.value.hash != pc.snap.hash then Quit
    else
      var st := pc.cfg.strategy;
      var row := cur.value.(state := Embedded, attempts := 0, sid := Some(st.id), sver := Some(st.version), updatedAt := now);
      Effect(Some(row), if f == Done then Some(Acking) else None, None, false)
  }

  function Current(s: State, i: ItemId): Option<Row> {
    if i in s.rows then Some(s.rows[i]) else None
  }

  function Commit(s: State, w: Worker, e: Effect): State
    requires w in s.jobs
  {
    var job := s.jobs[w];
    s.(rows := if e.row.Some? then s.rows[job.item := e.row.value] else s.rows,
       vectors := if e.point.Some? then s.vectors[e.point.value.0 := e.point.value.1] else s.vectors,
       pel := if e.acked then s.pel - {job.entry} else s.pel,
       jobs := if e.pc.Some? then s.jobs[w := job.(pc := e.pc.value)] else s.jobs - {w})
  }

  // ---------------------------------------------------------------- steps of everyone else

  /** What the other writers' statements do to row i. */
  function RowAfter(env: Env, s: State, a: Action, i: ItemId, row: Row): Row {
    match a
    case Ingest(j, _, c) => if i == j then Ingested(env, row, c, s.now) else row
    case Redrive(j) => if i == j then Requeued(row, s.now) else row
    case BulkRedrive => if row.state == DeadLetter then Requeued(row, s.now) else row
    case StartReembed(only, target) =>
      if ReembedSelects(only, row, target) then Requeued(row, s.now).(sver := None) else row
    case SweepReset(items) => if i in items then row.(state := Pending, updatedAt := s.now) else row
    case _ => row
  }

  function RowsAfter(env: Env, s: State, a: Action): map<ItemId, Row> {
    match a
    case Ingest(i, o, c) => s.rows[i := if i in s.rows then RowAfter(env, s, a, i, s.rows[i]) else Fresh(env, o, c, s.now)]
    case DeleteRow(i) => s.rows - {i}
    case _ =>
      if a.Redrive? || a.BulkRedrive? || a.StartReembed? || a.SweepReset?
      then map i | i in s.rows :: RowAfter(env, s, a, i, s.rows[i])
      else s.rows
  }

  /** Rows change one by one, and only an ingest adds one. */
  lemma RowsAfterShape(env: Env, s: State, a: Action, i: ItemId)
    requires !a.DeleteRow?
    ensures i in s.rows ==> i in RowsAfter(env, s, a) && RowsAfter(env, s, a)[i] == RowAfter(env, s, a, i, s.rows[i])
    ensures i in RowsAfter(env, s, a) && i !in s.rows ==>
              a.Ingest? && i == a.item && RowsAfter(env, s, a)[i] == Fresh(env, a.obj, a.content, s.now)
  {
    if a.Ingest? || !(a.Redrive? || a.BulkRedrive? || a.StartReembed? || a.SweepReset?) {
      RowsAfterSimple(env, s, a, i);
    }
  }

  lemma RowsAfterSimple(env: Env, s: State, a: Action, i: ItemId)
    requires !a.DeleteRow? && (a.Ingest? || !(a.Redrive? || a.BulkRedrive? || a.StartReembed? || a.SweepReset?))
    ensures i in s.rows ==> i in RowsAfter(env, s, a) && RowsAfter(env, s, a)[i] == RowAfter(env, s, a, i, s.rows[i])
    ensures i in RowsAfter(env, s, a) && i !in s.rows ==>
              a.Ingest? && i == a.item && RowsAfter(env, s, a)[i] == Fresh(env, a.obj, a.content, s.now)
  {
  }

  function RunsAfter(s: State, a: Action): map<RunId, ReembedRun> {
    match a
    case StartReembed(_, target) => s.runs[s.nextRun := ReembedRun(target, false, true)]
    case CountStale(r) =>
      if r !in s.runs || AnyStale(s.rows, s.runs[r].target) then s.runs
      else s.runs[r := s.runs[r].(sawZero := true)]
    case CloseRun(r) => if r in s.runs then s.runs[r := s.runs[r].(open := false)] else s.runs
    case _ => s.runs
  }

  function StreamAfter(s: State, a: Action): State {
    match a
    case Publish(i) => s.(queue := s.queue[s.nextEntry := i], nextEntry := s.nextEntry + 1)
    case Deliver(w, e) =>
      if e !in s.queue then s
      else s.(queue := s.queue - {e}, pel := s.pel[e := s.queue[e]], jobs := s.jobs[w := Job(e, s.queue[e], Claimed)])
    case Reclaim(w, e) => if e !in s.pel then s else s.(jobs := s.jobs[w := Job(e, s.pel[e], Claimed)])
    case _ => s
  }

  function Elsewhere(env: Env, s: State, a: Action): State {
    StreamAfter(s, a).(
      now := if a.Tick? then s.now + a.delta else s.now,
      cfg := if a.EditConfig? then a.cfg else s.cfg,
      rows := RowsAfter(env, s, a),
      nextId := if a.Ingest? && a.item !in s.rows then s.nextId + 1 else s.nextId,
      vectors := if a.DeletePoint? then s.vectors - {a.obj} else s.vectors,
      runs := RunsAfter(s, a),
      nextRun := if a.StartReembed? then s.nextRun + 1 else s.nextRun)
  }

  predicate EnabledElsewhere(s: State, a: Action) {
    match a
    case Ingest(i, o, _) =>
      (i in s.rows && s.rows[i].obj == o)
      || (i == s.nextId && forall j :: j in s.rows ==> j < s.nextId && s.rows[j].obj != o)
    case Publish(i) => i < s.nextId
    case Redrive(i) => i in s.rows && s.rows[i].state in {Failed, DeadLetter}
    case CountStale(r) => r in s.runs && s.runs[r].open
    case CloseRun(r) => r in s.runs && s.runs[r].open && s.runs[r].sawZero
    case SweepReset(items) => forall i :: i in items ==> i in s.rows && s.rows[i].state == InFlight
    case DeleteRow(i) => i in s.rows
    case Deliver(w, e) => w !in s.jobs && e in s.queue
    case Reclaim(w, e) => w !in s.jobs && e in s.pel
    case _ => true
  }

  // ---------------------------------------------------------------- the machine

  predicate Enabled(env: Env, s: State, a: Action) {
    if Working(a) then a.worker in s.jobs && CanWork(env, s.jobs[a.worker].pc, a)
    else EnabledElsewhere(s, a)
  }

  function EffectOf(env: Env, s: State, a: Action): Effect
    requires Working(a) && Enabled(env, s, a)
  {
    var job := s.jobs[a.worker];
    Work(env, s.now, s.cfg, Current(s, job.item), job.pc, a)
  }

  function Apply(env: Env, s: State, a: Action): State
    requires Enabled(env, s, a)
  {
    if Working(a) then Commit(s, a.worker, EffectOf(env, s, a)) else Elsewhere(env, s, a)
  }

  // ---------------------------------------------------------------- runs

  /** Which interleavings a theorem quantifies over. Every flag set to true narrows
      the runs; `Anything` is the machine itself. */
  datatype Mode = Mode(onePerEntry: bool, onePerItem: bool, leasesGranted: bool, noDeletes: bool)

  const Anything := Mode(false, false, false, false)

  predicate Busy(s: State, item: ItemId) {
    exists w :: w in s.jobs && s.jobs[w].item == item
  }

  predicate Held(s: State, e: Entry) {
    exists w :: w in s.jobs && s.jobs[w].entry == e
  }

  predicate Admits(mode: Mode, s: State, a: Action) {
    && (mode.onePerEntry && a.Reclaim? ==> !Held(s, a.entry))
    && (mode.onePerItem && a.Deliver? && a.entry in s.queue ==> !Busy(s, s.queue[a.entry]))
    && (mode.onePerItem && a.Reclaim? && a.entry in s.pel ==> !Busy(s, s.pel[a.entry]))
    && (mode.leasesGranted ==> !a.RefuseLease?)
    && (mode.noDeletes ==> !a.DeletePoint? && !a.DeleteRow?)
  }

  predicate Step(env: Env, mode: Mode, s: State, a: Action) {
    Enabled(env, s, a) && Admits(mode, s, a)
  }

  /** The actions `acts` can be taken one after another from s. */
  predicate Runs(env: Env, mode: Mode, s: State, acts: seq<Action>)
    decreases |acts|
  {
    acts == [] || (Step(env, mode, s, acts[0]) && Runs(env, mode, Apply(env, s, acts[0]), acts[1..]))
  }

  function Exec(env: Env, mode: Mode, s: State, acts: seq<Action>): State
    requires Runs(env, mode, s, acts)
    decreases |acts|
  {
    if acts == [] then s else Exec(env, mode, Apply(env, s, acts[0]), acts[1..])
  }

  /** A new namespace: no rows, no stream entries, no workers. */
  predicate Initial(s: State) {
    s.rows == map[] && s.queue == map[] && s.pel == map[] && s.jobs == map[] && s.runs == map[]
  }

  lemma RunsCons(env: Env, mode: Mode, s: State, a: Action, rest: seq<Action>, s': State)
    requires Step(env, mode, s, a) && s' == Apply(env, s, a) && Runs(env, mode, s', rest)
    ensures Runs(env, mode, s, [a] + rest) && Exec(env, mode, s, [a] + rest) == Exec(env, mode, s', rest)
  {
    assert ([a] + rest)[1..] == rest;
  }

  /** A run begins with a step. */
  lemma RunsHead(env: Env, mode: Mode, s: State, acts: seq<Action>) returns (s': State)
    requires acts != [] && Runs(env, mode, s, acts)
    ensures Step(env, mode, s, acts[0]) && s' == Apply(env, s, acts[0]) && Runs(env, mode, s', acts[1..])
    ensures Exec(env, mode, s, acts) == Exec(env, mode, s', acts[1..])
  {
    s' := Apply(env, s, acts[0]);
  }

  lemma {:induction false} RunsCompose(env: Env, mode: Mode, s: State, a: seq<Action>, b: seq<Action>)
    requires Runs(env, mode, s, a)
    requires Runs(env, mode, Exec(env, mode, s, a), b)
    ensures Runs(env, mode, s, a + b)
    ensures Exec(env, mode, s, a + b) == Exec(env, mode, Exec(env, mode, s, a), b)
    decreases |a|
  {
    if a == [] {
      assert a + b == b;
    } else {
      var s' := RunsHead(env, mode, s, a);
      RunsCompose(env, mode, s', a[1..], b);
      RunsCons(env, mode, s, a[0], a[1..] + b, s');
      assert a + b == [a[0]] + (a[1..] + b);
    }
  }

  /** A set of states closed under the steps of a mode: reachability without naming the run. */
  ghost predicate Closed(env: Env, mode: Mode, R: State -> bool) {
    forall s, a :: R(s) && Step(env, mode, s, a) ==> R(Apply(env, s, a))
  }

  lemma Next(env: Env, mode: Mode, R: State -> bool, s: State, a: Action) returns (s': State)
    requires Closed(env, mode, R) && R(s) && Step(env, mode, s, a)
    ensures s' == Apply(env, s, a) && R(s')
  {
    s' := Apply(env, s, a);
  }

  ghost predicate Reachable(env: Env, mode: Mode, s0: State, s: State) {
    exists acts :: Runs(env, mode, s0, acts) && Exec(env, mode, s0, acts) == s
  }

  lemma ReachableIsClosed(env: Env, mode: Mode, s0: State)
    ensures Closed(env, mode, s => Reachable(env, mode, s0, s))
    ensures Reachable(env, mode, s0, s0)
  {
    assert Runs(env, mode, s0, []) && Exec(env, mode, s0, []) == s0;
    forall s, a | Reachable(env, mode, s0, s) && Step(env, mode, s, a) ensures Reachable(env, mode, s0, Apply(env, s, a)) {
      ReachableNext(env, mode, s0, s, a);
    }
  }

  lemma ReachableThrough(env: Env, mode: Mode, s: State, s': State, s'': State)
    requires Reachable(env, mode, s, s') && Reachable(env, mode, s', s'')
    ensures Reachable(env, mode, s, s'')
  {
    var acts :| Runs(env, mode, s, acts) && Exec(env, mode, s, acts) == s';
    var more :| Runs(env, mode, s', more) && Exec(env, mode, s', more) == s'';
    RunsCompose(env, mode, s, acts, more);
  }

  lemma ReachableStep(env: Env, mode: Mode, s: State, a: Action)
    requires Step(env, mode, s, a)
    ensures Reachable(env, mode, s, s) && Reachable(env, mode, s, Apply(env, s, a))
  {
    assert Runs(env, mode, s, []) && Exec(env, mode, s, []) == s;
    OneStep(env, mode, s, a);
  }

  lemma ReachableNext(env: Env, mode: Mode, s0: State, s: State, a: Action)
    requires Reachable(env, mode, s0, s) && Step(env, mode, s, a)
    ensures Reachable(env, mode, s0, Apply(env, s, a))
  {
    var acts :| Runs(env, mode, s0, acts) && Exec(env, mode, s0, acts) == s;
    OneStep(env, mode, s, a);
    RunsCompose(env, mode, s0, acts, [a]);
  }

  lemma OneStep(env: Env, mode: Mode, s: State, a: Action)
    requires Step(env, mode, s, a)
    ensures Runs(env, mode, s, [a]) && Exec(env, mode, s, [a]) == Apply(env, s, a)
  {
  }
}
