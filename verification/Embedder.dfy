/** The embed worker's code, as methods over the shared state: ProcessItem and the message
    handler around it.

    Each method takes `noise`: the actions other processes take between its own
    statements. Its contract says that the whole call is a run of the pipeline machine
    (`R` is any set of states closed under the machine's steps), and, for a call nobody
    disturbs, what it computes. */
module Embedder {
  import opened Wrappers
  import opened Pipeline

  datatype Outcome = OutcomeEmbedded | OutcomeDeadLetter | OutcomeSkipped | OutcomeFailed

  predicate ShouldAck(o: Outcome) {
    o != OutcomeFailed
  }

  /** How the outside world treats one ProcessItem call. */
  datatype Weather = Weather(
    loadOk: bool, leaseOk: bool, configOk: bool, markInFlight: Fault, resolves: bool, embed: EmbedResult,
    prepared: bool, upsert: Fault, record: Fault, bury: Fault, fail: Fault, ack: Fault)

  predicate ByWorker(a: Action, w: Worker) {
    (Working(a) || a.Deliver? || a.Reclaim?) && a.worker == w
  }

  function At(noise: seq<seq<Action>>, k: nat): seq<Action> {
    if k < |noise| then noise[k] else []
  }

  predicate Quiet(noise: seq<seq<Action>>) {
    forall k :: 0 <= k < |noise| ==> noise[k] == []
  }

  /** Every call of the attempt succeeds. */
  predicate Sunny(wx: Weather) {
    && wx.loadOk && wx.leaseOk && wx.configOk && wx.markInFlight == Done && wx.resolves && wx.embed == Ok
    && wx.prepared && wx.upsert == Done && wx.record == Done && wx.bury == Done
  }

  /** The store was ready, and both the upsert and the record of success were confirmed. */
  predicate Confirmed(wx: Weather) {
    wx.prepared && wx.upsert == Done && wx.record == Done
  }

  /** The attempt is within its budget and the vector has the configured dimension. */
  predicate Embeddable(env: Env, pc: PC)
    requires pc.Flying?
  {
    pc.attempt <= MaxAttempts(env, pc.cfg) && |env.embed(pc.cfg.strategy, pc.snap.content)| == pc.cfg.dim
  }

  /** The outcome a row calls for. */
  function Expected(env: Env, cfg: Config, row: Option<Row>): Outcome {
    if row.None? || AlreadyEmbedded(row.value, cfg) then OutcomeSkipped
    else if row.value.attempts + 1 <= MaxAttempts(env, cfg) && |env.embed(cfg.strategy, row.value.content)| == cfg.dim then OutcomeEmbedded
    else OutcomeDeadLetter
  }

  /** How the retry budget decides, over the configured numbers: the namespace's own limit if
      it has one, else the process default if there is one, else 5. A row that has used it up
      is dead-lettered; below it the row is embedded if its vector has the right dimension. */
  lemma RetryBudget(env: Env, cfg: Config, row: Row)
    requires Expected(env, cfg, Some(row)) != OutcomeSkipped
    ensures var fits := |env.embed(cfg.strategy, row.content)| == cfg.dim;
            var outcome := Expected(env, cfg, Some(row));
            && (cfg.maxAttempts > 0 ==> outcome == if row.attempts >= cfg.maxAttempts || !fits then OutcomeDeadLetter else OutcomeEmbedded)
            && (cfg.maxAttempts <= 0 < env.defaultMax ==> outcome == if row.attempts >= env.defaultMax || !fits then OutcomeDeadLetter else OutcomeEmbedded)
            && (cfg.maxAttempts <= 0 && env.defaultMax <= 0 ==> outcome == if row.attempts >= 5 || !fits then OutcomeDeadLetter else OutcomeEmbedded)
  {
  }

  /** The short-circuit, over the row's columns: exactly an embedded row under the configured
      strategy is skipped; one under another strategy is embedded again. */
  lemma SkippedExactly(env: Env, cfg: Config, row: Row)
    requires cfg.strategy.id != "" && cfg.strategy.version != ""
    ensures Expected(env, cfg, Some(row)) == OutcomeSkipped <==>
            row.state == Embedded && row.sid == Some(cfg.strategy.id) && row.sver == Some(cfg.strategy.version)
  {
  }

  /** The attempt cannot succeed: its budget is spent, its strategy is unknown, or its content
      cannot be embedded at the configured dimension. */
  predicate Hopeless(env: Env, pc: PC, wx: Weather)
    requires pc.Flying?
  {
    || pc.attempt > MaxAttempts(env, pc.cfg) || !wx.resolves || wx.embed == Terminal
    || (wx.embed == Ok && |env.embed(pc.cfg.strategy, pc.snap.content)| != pc.cfg.dim)
  }

  /** A transient failure before success could be recorded. */
  predicate Stumbles(wx: Weather) {
    wx.embed == Transient || !wx.prepared || wx.upsert != Done
  }

  /** The outcome of a counted attempt, whatever fails, while its row is still as loaded. */
  function OutcomeUnder(hopeless: bool, wx: Weather): Outcome {
    if hopeless then (if wx.bury == Done then OutcomeDeadLetter else OutcomeFailed)
    else if Stumbles(wx) || wx.record != Done then OutcomeFailed
    else OutcomeEmbedded
  }

  /** And the row it leaves: a write that is lost leaves it as it was. */
  function RowUnder(hopeless: bool, wx: Weather, st: Strategy, row: Row, now: int): Row {
    if hopeless then (if wx.bury == Lost then row else row.(state := DeadLetter, updatedAt := now))
    else if Stumbles(wx) then (if wx.fail == Lost then row else row.(state := Failed, updatedAt := now))
    else if wx.record == Lost then row
    else row.(state := Embedded, attempts := 0, sid := Some(st.id), sver := Some(st.version), updatedAt := now)
  }

  lemma UnderWeather(env: Env, pc: PC, wx: Weather)
    requires pc.Flying?
    ensures OutcomeUnder(Hopeless(env, pc, wx), wx) == OutcomeEmbedded <==> Embeddable(env, pc) && wx.resolves && wx.embed == Ok && Confirmed(wx)
    ensures Sunny(wx) ==> OutcomeUnder(Hopeless(env, pc, wx), wx) == if Embeddable(env, pc) then OutcomeEmbedded else OutcomeDeadLetter
  {
  }

  /** A whole undisturbed job on a loaded row, whatever fails: its outcome and what becomes of
      the row. */
  function Course(env: Env, cfg: Config, wx: Weather, row: Row, now: int): (Outcome, Row) {
    if !wx.configOk then (OutcomeFailed, row)
    else if AlreadyEmbedded(row, cfg) then (OutcomeSkipped, row)
    else Attempt(env, cfg, wx, row, now)
  }

  function Attempt(env: Env, cfg: Config, wx: Weather, row: Row, now: int): (Outcome, Row) {
    if wx.markInFlight == Lost then (OutcomeFailed, row)
    else
      var flying := row.(state := InFlight, attempts := row.attempts + 1, updatedAt := now);
      var hopeless := Hopeless(env, Flying(row, cfg, row.attempts + 1), wx);
      if wx.markInFlight == Erred then (OutcomeFailed, flying)
      else (OutcomeUnder(hopeless, wx), RowUnder(hopeless, wx, cfg.strategy, flying, now))
  }

  lemma SunnyCourse(env: Env, cfg: Config, wx: Weather, row: Row, now: int)
    ensures Sunny(wx) ==> Course(env, cfg, wx, row, now).0 == Expected(env, cfg, Some(row))
  {
  }

  predicate RowIs(s: State, i: ItemId, st: ItemState) {
    i in s.rows && s.rows[i].state == st
  }

  /** Row i says that the snapshot's content was embedded with this strategy. */
  predicate Recorded(s: State, i: ItemId, snap: Row, st: Strategy) {
    && RowIs(s, i, Embedded) && s.rows[i].attempts == 0 && s.rows[i].hash == snap.hash
    && s.rows[i].sid == Some(st.id) && s.rows[i].sver == Some(st.version)
  }

  predicate Stores(s: State, obj: string, vec: Vector) {
    obj in s.vectors && s.vectors[obj] == vec
  }

  /** Row i still has the snapshot's digest. */
  predicate Holds(s: State, i: ItemId, snap: Row) {
    i in s.rows && s.rows[i].hash == snap.hash
  }

  predicate SameStream(s: State, s': State) {
    s'.queue == s.queue && s'.pel == s.pel
  }

  /** The job is over, or ready to be acknowledged when the outcome says so. */
  predicate Finishes(s: State, w: Worker, job: Job, out: Outcome) {
    if ShouldAck(out) then w in s.jobs && s.jobs[w] == job.(pc := Acking) else w !in s.jobs
  }

  function Taking(w: Worker, e: Entry, again: bool): Action {
    if again then Reclaim(w, e) else Deliver(w, e)
  }

  /** The item an entry names. */
  function ItemOf(s: State, e: Entry, again: bool): ItemId
    requires if again then e in s.pel else e in s.queue
  {
    if again then s.pel[e] else s.queue[e]
  }

  /** An idle worker can take the entry: it is on the stream, or pending and to be reclaimed. */
  predicate Takable(mode: Mode, s: State, w: Worker, e: Entry, again: bool) {
    w !in s.jobs && (if again then e in s.pel else e in s.queue) && Admits(mode, s, Taking(w, e, again))
  }

  lemma OthersKeepJob(env: Env, s: State, a: Action, w: Worker)
    requires Enabled(env, s, a) && w in s.jobs && !ByWorker(a, w)
    ensures w in Apply(env, s, a).jobs && Apply(env, s, a).jobs[w] == s.jobs[w]
  {
  }

  /** Ids are handed out in increasing order. */
  ghost predicate Ordinary(s: State) {
    && (forall i :: i in s.rows ==> i < s.nextId)
    && (forall e :: e in s.queue ==> e < s.nextEntry)
    && (forall r :: r in s.runs ==> r < s.nextRun)
  }

  /** s' comes after s in a run, and what no step of anybody takes back: ids only grow, a run
      keeps its target, once counted zero stays so, and once closed stays closed. */
  ghost predicate Onward(env: Env, mode: Mode, s: State, s': State) {
    Reachable(env, mode, s, s') && Kept(s, s')
  }

  ghost predicate Kept(s: State, s': State) {
    && Ordinary(s') && s.nextId <= s'.nextId
    && forall r :: r in s.runs ==>
         && r in s'.runs && s'.runs[r].target == s.runs[r].target
         && (s.runs[r].sawZero ==> s'.runs[r].sawZero) && (!s.runs[r].open ==> !s'.runs[r].open)
  }

  lemma WorkOnward(env: Env, s: State, a: Action)
    requires Ordinary(s) && Working(a) && Enabled(env, s, a)
    ensures Kept(s, Apply(env, s, a))
  {
    var job := s.jobs[a.worker];
    var e := EffectOf(env, s, a);
    EffectOnRow(env, s.now, s.cfg, Current(s, job.item), job.pc, a);
    assert Commit(s, a.worker, e).rows.Keys == s.rows.Keys;
  }

  lemma EffectOnRow(env: Env, now: int, live: Config, cur: Option<Row>, pc: PC, a: Action)
    requires CanWork(env, pc, a)
    ensures Work(env, now, live, cur, pc, a).row.Some? ==> cur.Some?
  {
  }

  lemma ElsewhereOnward(env: Env, s: State, a: Action)
    requires Ordinary(s) && !Working(a) && Enabled(env, s, a)
    ensures Kept(s, Apply(env, s, a))
  {
    var s' := Apply(env, s, a);
    forall i | i in s'.rows ensures i < s'.nextId {
      if !a.DeleteRow? {
        RowsAfterShape(env, s, a, i);
      }
    }
  }

  lemma KeptThrough(s: State, s': State, s'': State)
    requires Kept(s, s') && Kept(s', s'')
    ensures Kept(s, s'')
  {
  }

  lemma OnwardThrough(env: Env, mode: Mode, s: State, s': State, s'': State)
    requires Onward(env, mode, s, s') && Onward(env, mode, s', s'')
    ensures Onward(env, mode, s, s'')
  {
    KeptThrough(s, s', s'');
    ReachableThrough(env, mode, s, s', s'');
  }

  lemma OnwardSelf(env: Env, mode: Mode, s: State)
    requires Ordinary(s)
    ensures Onward(env, mode, s, s)
  {
    ReachableIsClosed(env, mode, s);
  }

  lemma StepOnward(env: Env, mode: Mode, s: State, a: Action)
    requires Ordinary(s) && Step(env, mode, s, a)
    ensures Onward(env, mode, s, Apply(env, s, a))
  {
    if Working(a) {
      WorkOnward(env, s, a);
    } else {
      ElsewhereOnward(env, s, a);
    }
    ReachableStep(env, mode, s, a);
  }

  /** Row i was there in s, and is gone or has other content in s'. */
  ghost predicate MovedOn(s: State, s': State, i: ItemId) {
    i in s.rows && !Holds(s', i, s.rows[i])
  }

  ghost predicate GoneOrEmbedded(s: State, i: ItemId) {
    i !in s.rows || s.rows[i].state == Embedded
  }

  class Namespace {
    const env: Env
    const mode: Mode
    var s: State

    constructor (env: Env, mode: Mode, s: State)
      ensures this.env == env && this.mode == mode && this.s == s
    {
      this.env, this.mode, this.s := env, mode, s;
    }

    /** One statement of the code. */
    method Do(a: Action, ghost R: State -> bool)
      requires Step(env, mode, s, a) && Closed(env, mode, R) && R(s)
      modifies this
      ensures s == Apply(env, old(s), a) && R(s)
    {
      s := Apply(env, s, a);
    }

    /** Whatever the others manage to do before w's next statement. */
    method Interfere(w: Worker, acts: seq<Action>, ghost R: State -> bool)
      requires Closed(env, mode, R) && R(s) && w in s.jobs
      modifies this
      ensures R(s) && w in s.jobs && s.jobs[w] == old(s.jobs[w])
      ensures acts == [] ==> s == old(s)
    {
      for k := 0 to |acts|
        invariant R(s) && w in s.jobs && s.jobs[w] == old(s.jobs[w])
        invariant acts == [] ==> s == old(s)
      {
        if !ByWorker(acts[k], w) && Step(env, mode, s, acts[k]) {
          OthersKeepJob(env, s, acts[k], w);
          Do(acts[k], R);
        }
      }
    }

    /** Whatever happens before the next statement of a process that holds no entry. */
    method Others(acts: seq<Action>, ghost R: State -> bool)
      requires Closed(env, mode, R) && R(s) && Ordinary(s)
      modifies this
      ensures R(s) && Onward(env, mode, old(s), s)
      ensures acts == [] ==> s == old(s)
    {
      OnwardSelf(env, mode, s);
      for k := 0 to |acts|
        invariant R(s) && Onward(env, mode, old(s), s)
        invariant acts == [] ==> s == old(s)
      {
        if Step(env, mode, s, acts[k]) {
          ghost var was := s;
          Take(acts[k], R);
          OnwardThrough(env, mode, old(s), was, s);
        }
      }
    }

    /** One statement of such a process. */
    method Take(a: Action, ghost R: State -> bool)
      requires Closed(env, mode, R) && R(s) && Step(env, mode, s, a) && Ordinary(s)
      modifies this
      ensures s == Apply(env, old(s), a) && R(s) && Onward(env, mode, old(s), s)
    {
      StepOnward(env, mode, s, a);
      Do(a, R);
    }

    /** A statement that only moves the worker on. */
    method Advance(w: Worker, a: Action, pc: PC, ghost R: State -> bool)
      requires Closed(env, mode, R) && R(s) && Step(env, mode, s, a) && Working(a) && a.worker == w && EffectOf(env, s, a) == Move(pc)
      modifies this
      ensures R(s) && s == old(s).(jobs := old(s.jobs)[w := old(s.jobs[w]).(pc := pc)])
    {
      Do(a, R);
    }

    /** Give up without a trace; the entry stays pending. */
    method GiveUp(w: Worker, ghost R: State -> bool)
      requires Closed(env, mode, R) && R(s) && w in s.jobs
      modifies this
      ensures R(s) && s == old(s).(jobs := old(s.jobs) - {w})
    {
      Do(Abandon(w), R);
    }

    method Acknowledge(w: Worker, f: Fault, ghost R: State -> bool)
      requires Closed(env, mode, R) && R(s) && w in s.jobs && s.jobs[w].pc == Acking
      modifies this
      ensures R(s) && s == old(s).(jobs := old(s.jobs) - {w}, pel := if f != Lost then old(s.pel) - {old(s.jobs[w].entry)} else old(s.pel))
    {
      Do(Ack(w, f), R);
    }

    /** Take an entry: a new one from the stream, or a pending one nobody finished. */
    method Receive(w: Worker, e: Entry, again: bool, ghost R: State -> bool)
      requires Closed(env, mode, R) && R(s) && Takable(mode, s, w, e, again)
      modifies this
      ensures R(s)
      ensures s == old(s).(queue := old(s.queue) - (if again then {} else {e}), pel := old(s.pel)[e := ItemOf(old(s), e, again)],
                           jobs := old(s.jobs)[w := Job(e, ItemOf(old(s), e, again), Claimed)])
    {
      Do(Taking(w, e, again), R);
      assert again ==> old(s.pel) == old(s.pel)[e := ItemOf(old(s), e, again)];
      assert again ==> old(s.queue) - {} == old(s.queue);
    }

    /** Best-effort bookkeeping of a transient failure; the entry is never acknowledged. */
    method RecordFailure(w: Worker, wx: Weather, noise: seq<seq<Action>>, ghost R: State -> bool) returns (out: Outcome)
      requires Closed(env, mode, R) && R(s) && w in s.jobs && s.jobs[w].pc == Failing
      modifies this
      ensures R(s) && out == OutcomeFailed && w !in s.jobs
      ensures Quiet(noise) ==> SameStream(old(s), s) && s.vectors == old(s.vectors)
      ensures Quiet(noise) && wx.fail != Lost && old(s.jobs[w].item in s.rows) ==>
                old(s.jobs[w].item) in s.rows && s.rows[old(s.jobs[w].item)].state == Failed
      ensures Quiet(noise) && old(s.jobs[w].item in s.rows) ==>
                s.rows == if wx.fail == Lost then old(s.rows)
                          else old(s.rows)[old(s.jobs[w].item) := old(s.rows[s.jobs[w].item]).(state := Failed, updatedAt := old(s.now))]
    {
      Interfere(w, At(noise, 6), R);
      Do(MarkFailed(w, wx.fail), R);
      out := OutcomeFailed;
    }

    /** Terminal failure: acknowledged only if the dead_letter write succeeded. */
    method DeadLetterOutcome(w: Worker, wx: Weather, noise: seq<seq<Action>>, ghost R: State -> bool) returns (out: Outcome)
      requires Closed(env, mode, R) && R(s) && w in s.jobs && s.jobs[w].pc == Burying
      modifies this
      ensures R(s) && (out == OutcomeDeadLetter || out == OutcomeFailed) && Finishes(s, w, old(s.jobs[w]), out)
      ensures out == OutcomeDeadLetter ==> RowIs(s, old(s.jobs[w].item), DeadLetter)
      ensures Quiet(noise) ==> SameStream(old(s), s)
      ensures wx.bury == Done && out == OutcomeFailed ==> old(s.jobs[w].item) !in s.rows
      ensures Quiet(noise) && old(s.jobs[w].item in s.rows) ==>
                && (out == OutcomeDeadLetter <==> wx.bury == Done)
                && s.rows == if wx.bury == Lost then old(s.rows)
                             else old(s.rows)[old(s.jobs[w].item) := old(s.rows[s.jobs[w].item]).(state := DeadLetter, updatedAt := old(s.now))]
    {
      Interfere(w, At(noise, 6), R);
      Do(MarkDeadLetter(w, wx.bury), R);
      out := if w in s.jobs then OutcomeDeadLetter else OutcomeFailed;
    }

    /** Record success, unless the row has moved on to other content. */
    method RecordSuccess(w: Worker, wx: Weather, noise: seq<seq<Action>>, ghost R: State -> bool) returns (out: Outcome)
      requires Closed(env, mode, R) && R(s) && w in s.jobs && s.jobs[w].pc.Stored?
      modifies this
      ensures R(s) && (out == OutcomeEmbedded || out == OutcomeFailed) && Finishes(s, w, old(s.jobs[w]), out)
      ensures out == OutcomeEmbedded ==> Recorded(s, old(s.jobs[w].item), old(s.jobs[w].pc.snap), old(s.jobs[w].pc.cfg.strategy))
      ensures Quiet(noise) ==> SameStream(old(s), s) && s.vectors == old(s.vectors)
      ensures out == OutcomeEmbedded ==> wx.record == Done
      ensures wx.record == Done && out == OutcomeFailed ==> !Holds(s, old(s.jobs[w].item), old(s.jobs[w].pc.snap))
      ensures Quiet(noise) ==> (out == OutcomeEmbedded <==> wx.record == Done && Holds(old(s), old(s.jobs[w].item), old(s.jobs[w].pc.snap)))
      ensures Quiet(noise) && Holds(old(s), old(s.jobs[w].item), old(s.jobs[w].pc.snap)) ==>
                s.rows == if wx.record == Lost then old(s.rows)
                          else old(s.rows)[old(s.jobs[w].item) :=
                                 old(s.rows[s.jobs[w].item]).(state := Embedded, attempts := 0, sid := Some(old(s.jobs[w].pc.cfg.strategy.id)),
                                                              sver := Some(old(s.jobs[w].pc.cfg.strategy.version)), updatedAt := old(s.now))]
    {
      Interfere(w, At(noise, 5), R);
      Do(MarkEmbedded(w, wx.record), R);
      out := if w in s.jobs then OutcomeEmbedded else OutcomeFailed;
    }

    /** Upsert the vector; on an error the attempt fails. */
    method UpsertVector(w: Worker, wx: Weather, noise: seq<seq<Action>>, ghost R: State -> bool) returns (ok: bool)
      requires Closed(env, mode, R) && R(s) && w in s.jobs && s.jobs[w].pc.Vectored?
      modifies this
      ensures R(s) && w in s.jobs && (ok <==> wx.prepared && wx.upsert == Done)
      ensures s.jobs[w] == old(s.jobs[w]).(pc := if ok then Stored(old(s.jobs[w].pc.snap), old(s.jobs[w].pc.cfg)) else Failing)
      ensures Quiet(noise) ==> SameStream(old(s), s) && s.rows == old(s.rows) && s.now == old(s.now)
      ensures Quiet(noise) && (!wx.prepared || wx.upsert == Lost) ==> s.vectors == old(s.vectors)
      ensures Quiet(noise) && wx.prepared && wx.upsert != Lost ==> s.vectors == old(s.vectors)[old(s.jobs[w].pc.snap.obj) := old(s.jobs[w].pc.vec)]
    {
      if !wx.prepared {
        Do(PrepareFail(w), R);
        return false;
      }
      Interfere(w, At(noise, 4), R);
      Do(Upsert(w, wx.upsert), R);
      ok := s.jobs[w].pc.Stored?;
    }

    /** From a vector in hand to the recorded success. */
    method StoreVector(w: Worker, wx: Weather, noise: seq<seq<Action>>, ghost R: State -> bool) returns (out: Outcome)
      requires Closed(env, mode, R) && R(s) && w in s.jobs && s.jobs[w].pc.Vectored?
      modifies this
      ensures R(s) && (out == OutcomeEmbedded || out == OutcomeFailed) && Finishes(s, w, old(s.jobs[w]), out)
      ensures out == OutcomeEmbedded ==> Recorded(s, old(s.jobs[w].item), old(s.jobs[w].pc.snap), old(s.jobs[w].pc.cfg.strategy))
      ensures Quiet(noise) ==> SameStream(old(s), s)
      ensures Quiet(noise) && out == OutcomeEmbedded ==> Stores(s, old(s.jobs[w].pc.snap.obj), old(s.jobs[w].pc.vec))
      ensures out == OutcomeEmbedded ==> Confirmed(wx)
      ensures Confirmed(wx) && out == OutcomeFailed ==> !Holds(s, old(s.jobs[w].item), old(s.jobs[w].pc.snap))
      ensures Quiet(noise) ==> (out == OutcomeEmbedded <==> Confirmed(wx) && Holds(old(s), old(s.jobs[w].item), old(s.jobs[w].pc.snap)))
      ensures Quiet(noise) && wx.embed == Ok && Holds(old(s), old(s.jobs[w].item), old(s.jobs[w].pc.snap)) ==>
                s.rows == old(s.rows)[old(s.jobs[w].item) := RowUnder(false, wx, old(s.jobs[w].pc.cfg.strategy), old(s.rows[s.jobs[w].item]), old(s.now))]
    {
      var ok := UpsertVector(w, wx, noise, R);
      if ok {
        out := RecordSuccess(w, wx, noise, R);
      } else {
        out := RecordFailure(w, wx, noise, R);
      }
    }

    /** Within the retry budget: resolve the strategy and embed. */
    method CallStrategy(w: Worker, wx: Weather, noise: seq<seq<Action>>, ghost R: State -> bool)
      requires Closed(env, mode, R) && R(s) && w in s.jobs && s.jobs[w].pc.Flying?
      modifies this
      ensures R(s) && w in s.jobs && s.jobs[w] == old(s.jobs[w]).(pc := s.jobs[w].pc)
      ensures Quiet(noise) ==> SameStream(old(s), s) && s.rows == old(s.rows) && s.vectors == old(s.vectors) && s.now == old(s.now)
      ensures var pc, now := old(s.jobs[w].pc), s.jobs[w].pc;
              var vec := env.embed(pc.cfg.strategy, pc.snap.content);
              now == if Hopeless(env, pc, wx) then Burying else if wx.embed == Transient then Failing else Vectored(pc.snap, pc.cfg, vec)
    {
      if s.jobs[w].pc.attempt > MaxAttempts(env, s.jobs[w].pc.cfg) {
        Advance(w, Exhaust(w), Burying, R);
      } else if !wx.resolves {
        Advance(w, ResolveFail(w), Burying, R);
      } else {
        Interfere(w, At(noise, 3), R);
        Do(Embed(w, wx.embed), R);
      }
    }

    /** From the counted attempt to an outcome: retry budget, strategy, embedding. */
    method EmbedItem(w: Worker, wx: Weather, noise: seq<seq<Action>>, ghost R: State -> bool) returns (out: Outcome)
      requires Closed(env, mode, R) && R(s) && w in s.jobs && s.jobs[w].pc.Flying?
      modifies this
      ensures R(s) && out != OutcomeSkipped && Finishes(s, w, old(s.jobs[w]), out)
      ensures out == OutcomeDeadLetter ==> RowIs(s, old(s.jobs[w].item), DeadLetter)
      ensures out == OutcomeEmbedded ==>
                && Recorded(s, old(s.jobs[w].item), old(s.jobs[w].pc.snap), old(s.jobs[w].pc.cfg.strategy))
                && Embeddable(env, old(s.jobs[w].pc)) && wx.resolves && wx.embed == Ok && Confirmed(wx)
      ensures out == OutcomeDeadLetter ==> Hopeless(env, old(s.jobs[w].pc), wx)
      ensures Sunny(wx) && out == OutcomeFailed ==> !Holds(s, old(s.jobs[w].item), old(s.jobs[w].pc.snap))
      ensures Quiet(noise) ==>
                (out == OutcomeEmbedded <==>
                   && Embeddable(env, old(s.jobs[w].pc)) && wx.resolves && wx.embed == Ok && Confirmed(wx)
                   && Holds(old(s), old(s.jobs[w].item), old(s.jobs[w].pc.snap)))
      ensures Quiet(noise) ==> SameStream(old(s), s)
      ensures Quiet(noise) && out == OutcomeEmbedded ==>
                Stores(s, old(s.jobs[w].pc.snap.obj), env.embed(old(s.jobs[w].pc.cfg.strategy), old(s.jobs[w].pc.snap.content)))
      ensures Quiet(noise) && Sunny(wx) && Holds(old(s), old(s.jobs[w].item), old(s.jobs[w].pc.snap)) ==>
                out == if Embeddable(env, old(s.jobs[w].pc)) then OutcomeEmbedded else OutcomeDeadLetter
      ensures Quiet(noise) && Holds(old(s), old(s.jobs[w].item), old(s.jobs[w].pc.snap)) ==>
                var hopeless := Hopeless(env, old(s.jobs[w].pc), wx);
                && out == OutcomeUnder(hopeless, wx)
                && s.rows == old(s.rows)[old(s.jobs[w].item) := RowUnder(hopeless, wx, old(s.jobs[w].pc.cfg.strategy), old(s.rows[s.jobs[w].item]), old(s.now))]
    {
      UnderWeather(env, s.jobs[w].pc, wx);
      CallStrategy(w, wx, noise, R);
      if s.jobs[w].pc == Burying {
        out := DeadLetterOutcome(w, wx, noise, R);
      } else if s.jobs[w].pc == Failing {
        out := RecordFailure(w, wx, noise, R);
      } else {
        out := StoreVector(w, wx, noise, R);
      }
    }

    /** Count an attempt: the row goes in flight, unless it is gone. */
    method CountAttempt(w: Worker, wx: Weather, noise: seq<seq<Action>>, ghost R: State -> bool) returns (begun: bool)
      requires Closed(env, mode, R) && R(s) && w in s.jobs && s.jobs[w].pc.Configured? && !AlreadyEmbedded(s.jobs[w].pc.snap, s.jobs[w].pc.cfg)
      modifies this
      ensures R(s)
      ensures begun ==> w in s.jobs && s.jobs[w].pc.Flying? && s.jobs[w].pc == Flying(old(s.jobs[w].pc.snap), old(s.jobs[w].pc.cfg), s.jobs[w].pc.attempt) && s.jobs[w] == old(s.jobs[w]).(pc := s.jobs[w].pc)
      ensures !begun && w in s.jobs ==> s.jobs[w] == old(s.jobs[w]).(pc := Acking)
      ensures wx.markInFlight == Done && !begun ==> w in s.jobs && old(s.jobs[w].item) !in s.rows
      ensures begun ==> RowIs(s, old(s.jobs[w].item), InFlight) && s.rows[old(s.jobs[w].item)].attempts == s.jobs[w].pc.attempt
      ensures Quiet(noise) ==> SameStream(old(s), s) && s.vectors == old(s.vectors)
      ensures Quiet(noise) && !begun && w in s.jobs ==> s.rows == old(s.rows) && old(s.jobs[w].item) !in s.rows
      ensures Quiet(noise) && wx.markInFlight == Done ==>
                if old(s.jobs[w].item in s.rows)
                then begun && s.jobs[w].pc.attempt == old(s.rows[s.jobs[w].item].attempts) + 1
                     && s.rows == old(s.rows)[old(s.jobs[w].item) := old(s.rows[s.jobs[w].item]).(state := InFlight, attempts := s.jobs[w].pc.attempt, updatedAt := old(s.now))]
                else !begun && w in s.jobs
      ensures Quiet(noise) ==> s.now == old(s.now)
      ensures Quiet(noise) && wx.markInFlight != Done ==> !begun && w !in s.jobs
      ensures Quiet(noise) && wx.markInFlight == Lost ==> s.rows == old(s.rows)
      ensures Quiet(noise) && wx.markInFlight == Erred && old(s.jobs[w].item in s.rows) ==>
                s.rows == old(s.rows)[old(s.jobs[w].item) := old(s.rows[s.jobs[w].item]).(state := InFlight, attempts := old(s.rows[s.jobs[w].item]).attempts + 1, updatedAt := old(s.now))]
    {
      Interfere(w, At(noise, 2), R);
      Do(MarkInFlight(w, wx.markInFlight), R);
      begun := w in s.jobs && s.jobs[w].pc.Flying?;
    }

    /** An attempt on a row that is not embedded yet: count it, then embed. */
    method ProcessAttempt(w: Worker, wx: Weather, noise: seq<seq<Action>>, ghost R: State -> bool) returns (out: Outcome)
      requires Closed(env, mode, R) && R(s) && w in s.jobs && s.jobs[w].pc.Configured? && !AlreadyEmbedded(s.jobs[w].pc.snap, s.jobs[w].pc.cfg)
      modifies this
      ensures R(s) && Finishes(s, w, old(s.jobs[w]), out)
      ensures out == OutcomeDeadLetter ==> RowIs(s, old(s.jobs[w].item), DeadLetter)
      ensures out == OutcomeEmbedded ==> Recorded(s, old(s.jobs[w].item), old(s.jobs[w].pc.snap), old(s.jobs[w].pc.cfg.strategy))
      ensures Quiet(noise) ==> SameStream(old(s), s)
      ensures Sunny(wx) && out == OutcomeSkipped ==> old(s.jobs[w].item) !in s.rows
      ensures Sunny(wx) && out == OutcomeFailed ==> !Holds(s, old(s.jobs[w].item), old(s.jobs[w].pc.snap))
      ensures Quiet(noise) && out == OutcomeSkipped ==> s.rows == old(s.rows) && s.vectors == old(s.vectors) && old(s.jobs[w].item) !in s.rows
      ensures Quiet(noise) && out == OutcomeEmbedded ==>
                Stores(s, old(s.jobs[w].pc.snap.obj), env.embed(old(s.jobs[w].pc.cfg.strategy), old(s.jobs[w].pc.snap.content)))
      ensures Quiet(noise) && old(Current(s, s.jobs[w].item)) == Some(old(s.jobs[w].pc.snap)) ==>
                var course := Attempt(env, old(s.jobs[w].pc.cfg), wx, old(s.jobs[w].pc.snap), old(s.now));
                out == course.0 && s.rows == old(s.rows)[old(s.jobs[w].item) := course.1]
    {
      assert Current(s, s.jobs[w].item) == Some(s.jobs[w].pc.snap) ==> s.rows == s.rows[s.jobs[w].item := s.jobs[w].pc.snap];
      var begun := CountAttempt(w, wx, noise, R);
      if begun {
        out := EmbedItem(w, wx, noise, R);
      } else {
        out := if w in s.jobs then OutcomeSkipped else OutcomeFailed;
      }
    }

    /** Read the namespace configuration. */
    method Configure(w: Worker, ghost R: State -> bool)
      requires Closed(env, mode, R) && R(s) && w in s.jobs && s.jobs[w].pc.Loaded?
      modifies this
      ensures R(s) && s == old(s).(jobs := old(s.jobs)[w := old(s.jobs[w]).(pc := Configured(old(s.jobs[w].pc.snap), old(s.cfg)))])
    {
      Advance(w, ReadConfig(w), Configured(s.jobs[w].pc.snap, s.cfg), R);
    }

    method ShortCircuit(w: Worker, ghost R: State -> bool)
      requires Closed(env, mode, R) && R(s) && w in s.jobs && s.jobs[w].pc.Configured? && AlreadyEmbedded(s.jobs[w].pc.snap, s.jobs[w].pc.cfg)
      modifies this
      ensures R(s) && s == old(s).(jobs := old(s.jobs)[w := old(s.jobs[w]).(pc := Acking)])
    {
      Advance(w, Skip(w), Acking, R);
    }

    /** With the configuration in hand: short-circuit, or an attempt. */
    method ProcessConfigured(w: Worker, wx: Weather, noise: seq<seq<Action>>, ghost R: State -> bool) returns (out: Outcome)
      requires Closed(env, mode, R) && R(s) && w in s.jobs && s.jobs[w].pc.Configured?
      modifies this
      ensures R(s) && Finishes(s, w, old(s.jobs[w]), out)
      ensures out == OutcomeDeadLetter ==> RowIs(s, old(s.jobs[w].item), DeadLetter)
      ensures out == OutcomeEmbedded ==> Recorded(s, old(s.jobs[w].item), old(s.jobs[w].pc.snap), old(s.jobs[w].pc.cfg.strategy))
      ensures out == OutcomeEmbedded ==> !AlreadyEmbedded(old(s.jobs[w].pc.snap), old(s.jobs[w].pc.cfg))
      ensures Sunny(wx) && out == OutcomeSkipped ==> AlreadyEmbedded(old(s.jobs[w].pc.snap), old(s.jobs[w].pc.cfg)) || old(s.jobs[w].item) !in s.rows
      ensures Sunny(wx) && out == OutcomeFailed ==> !Holds(s, old(s.jobs[w].item), old(s.jobs[w].pc.snap))
      ensures Quiet(noise) ==> SameStream(old(s), s)
      ensures Quiet(noise) && out == OutcomeSkipped ==>
                s.rows == old(s.rows) && s.vectors == old(s.vectors)
                && (AlreadyEmbedded(old(s.jobs[w].pc.snap), old(s.jobs[w].pc.cfg)) || old(s.jobs[w].item) !in s.rows)
      ensures Quiet(noise) && out == OutcomeEmbedded ==>
                Stores(s, old(s.jobs[w].pc.snap.obj), env.embed(old(s.jobs[w].pc.cfg.strategy), old(s.jobs[w].pc.snap.content)))
      ensures Quiet(noise) && wx.configOk && old(Current(s, s.jobs[w].item)) == Some(old(s.jobs[w].pc.snap)) ==>
                var course := Course(env, old(s.jobs[w].pc.cfg), wx, old(s.jobs[w].pc.snap), old(s.now));
                out == course.0 && s.rows == old(s.rows)[old(s.jobs[w].item) := course.1]
    {
      if AlreadyEmbedded(s.jobs[w].pc.snap, s.jobs[w].pc.cfg) {
        assert Current(s, s.jobs[w].item) == Some(s.jobs[w].pc.snap) ==> s.rows == s.rows[s.jobs[w].item := s.jobs[w].pc.snap];
        ShortCircuit(w, R);
        return OutcomeSkipped;
      }
      out := ProcessAttempt(w, wx, noise, R);
    }

    /** The body run under the writer lease: configuration, idempotency short-circuit, attempt,
        embedding. */
    method ProcessLoadedItem(w: Worker, wx: Weather, noise: seq<seq<Action>>, ghost R: State -> bool) returns (out: Outcome)
      requires Closed(env, mode, R) && R(s) && w in s.jobs && s.jobs[w].pc.Loaded?
      modifies this
      ensures R(s) && Finishes(s, w, old(s.jobs[w]), out)
      ensures out == OutcomeDeadLetter ==> RowIs(s, old(s.jobs[w].item), DeadLetter)
      ensures out == OutcomeEmbedded ==> Recorded(s, old(s.jobs[w].item), old(s.jobs[w].pc.snap), old(s.cfg.strategy))
      ensures out == OutcomeEmbedded ==> !AlreadyEmbedded(old(s.jobs[w].pc.snap), old(s.cfg))
      ensures Sunny(wx) && out == OutcomeSkipped ==> AlreadyEmbedded(old(s.jobs[w].pc.snap), old(s.cfg)) || old(s.jobs[w].item) !in s.rows
      ensures Sunny(wx) && out == OutcomeFailed ==> !Holds(s, old(s.jobs[w].item), old(s.jobs[w].pc.snap))
      ensures Quiet(noise) ==> SameStream(old(s), s)
      ensures Quiet(noise) && out == OutcomeSkipped ==>
                s.rows == old(s.rows) && s.vectors == old(s.vectors)
                && (AlreadyEmbedded(old(s.jobs[w].pc.snap), old(s.cfg)) || old(s.jobs[w].item) !in s.rows)
      ensures Quiet(noise) && out == OutcomeEmbedded ==> Stores(s, old(s.jobs[w].pc.snap.obj), env.embed(old(s.cfg.strategy), old(s.jobs[w].pc.snap.content)))
      ensures Quiet(noise) && Sunny(wx) && old(Current(s, s.jobs[w].item)) == Some(old(s.jobs[w].pc.snap)) ==>
                out == Expected(env, old(s.cfg), Some(old(s.jobs[w].pc.snap)))
      ensures Quiet(noise) && old(Current(s, s.jobs[w].item)) == Some(old(s.jobs[w].pc.snap)) ==>
                var course := Course(env, old(s.cfg), wx, old(s.jobs[w].pc.snap), old(s.now));
                out == course.0 && s.rows == old(s.rows)[old(s.jobs[w].item) := course.1]
    {
      assert Current(s, s.jobs[w].item) == Some(s.jobs[w].pc.snap) ==> s.rows == s.rows[s.jobs[w].item := s.jobs[w].pc.snap];
      SunnyCourse(env, s.cfg, wx, s.jobs[w].pc.snap, s.now);
      if !wx.configOk {
        GiveUp(w, R);
        return OutcomeFailed;
      }
      Configure(w, R);
      out := ProcessConfigured(w, wx, noise, R);
    }

    /** Load the row by id. */
    method LoadItem(w: Worker, noise: seq<seq<Action>>, ghost R: State -> bool) returns (row: Option<Row>)
      requires Closed(env, mode, R) && R(s) && w in s.jobs && s.jobs[w].pc == Claimed
      modifies this
      ensures R(s) && w in s.jobs && s.jobs[w] == old(s.jobs[w]).(pc := if row.Some? then Loaded(row.value) else Acking)
      ensures exists st :: R(st) && row == Current(st, old(s.jobs[w].item))
      ensures Quiet(noise) ==> row == old(Current(s, s.jobs[w].item)) && s == old(s).(jobs := s.jobs)
    {
      Interfere(w, At(noise, 0), R);
      row := Current(s, s.jobs[w].item);
      assert R(s) && row == Current(s, old(s.jobs[w].item));
      Advance(w, Load(w), if row.Some? then Loaded(row.value) else Acking, R);
      Interfere(w, At(noise, 1), R);
    }

    /** Take the writer lease around the processing. A refusal returns the zero value of the
        outcome, which reads as success. */
    method ProcessLeased(w: Worker, wx: Weather, noise: seq<seq<Action>>, ghost R: State -> bool) returns (out: Outcome)
      requires Closed(env, mode, R) && R(s) && w in s.jobs && s.jobs[w].pc.Loaded? && (mode.leasesGranted ==> wx.leaseOk)
      modifies this
      ensures R(s) && Finishes(s, w, old(s.jobs[w]), out)
      ensures !wx.leaseOk ==> out == OutcomeEmbedded && s == old(s).(jobs := s.jobs)
      ensures wx.leaseOk && out == OutcomeDeadLetter ==> RowIs(s, old(s.jobs[w].item), DeadLetter)
      ensures wx.leaseOk && out == OutcomeEmbedded ==> Recorded(s, old(s.jobs[w].item), old(s.jobs[w].pc.snap), old(s.cfg.strategy))
      ensures Sunny(wx) && out == OutcomeSkipped ==> AlreadyEmbedded(old(s.jobs[w].pc.snap), old(s.cfg)) || old(s.jobs[w].item) !in s.rows
      ensures Sunny(wx) && out == OutcomeFailed ==> !Holds(s, old(s.jobs[w].item), old(s.jobs[w].pc.snap))
      ensures Quiet(noise) ==> SameStream(old(s), s)
      ensures Quiet(noise) && wx.leaseOk && out == OutcomeSkipped ==>
                s.rows == old(s.rows) && s.vectors == old(s.vectors)
                && (AlreadyEmbedded(old(s.jobs[w].pc.snap), old(s.cfg)) || old(s.jobs[w].item) !in s.rows)
      ensures Quiet(noise) && wx.leaseOk && out == OutcomeEmbedded ==>
                Stores(s, old(s.jobs[w].pc.snap.obj), env.embed(old(s.cfg.strategy), old(s.jobs[w].pc.snap.content)))
      ensures Quiet(noise) && Sunny(wx) && old(Current(s, s.jobs[w].item)) == Some(old(s.jobs[w].pc.snap)) ==>
                out == Expected(env, old(s.cfg), Some(old(s.jobs[w].pc.snap)))
      ensures Quiet(noise) && wx.leaseOk && old(Current(s, s.jobs[w].item)) == Some(old(s.jobs[w].pc.snap)) ==>
                var course := Course(env, old(s.cfg), wx, old(s.jobs[w].pc.snap), old(s.now));
                out == course.0 && s.rows == old(s.rows)[old(s.jobs[w].item) := course.1]
    {
      if !wx.leaseOk {
        Advance(w, RefuseLease(w), Acking, R);
        return OutcomeEmbedded;
      }
      out := ProcessLoadedItem(w, wx, noise, R);
    }

    /** Load the row, take the writer lease, process. Undisturbed and with every call
        succeeding, the outcome is the one the row and the configuration call for. Disturbed, a
        job whose calls all succeed fails only if the row moved on meanwhile, and skips only if
        the row was gone or embedded. */
    method ProcessItem(w: Worker, wx: Weather, noise: seq<seq<Action>>, ghost R: State -> bool) returns (out: Outcome)
      requires Closed(env, mode, R) && R(s) && w in s.jobs && s.jobs[w].pc == Claimed
      requires mode.leasesGranted ==> wx.leaseOk
      modifies this
      ensures R(s) && Finishes(s, w, old(s.jobs[w]), out)
      ensures wx.leaseOk && out == OutcomeDeadLetter ==> RowIs(s, old(s.jobs[w].item), DeadLetter)
      ensures wx.leaseOk && out == OutcomeEmbedded ==> RowIs(s, old(s.jobs[w].item), Embedded)
      ensures Sunny(wx) && out == OutcomeFailed ==> exists st :: R(st) && MovedOn(st, s, old(s.jobs[w].item))
      ensures Sunny(wx) && out == OutcomeSkipped ==> exists st :: R(st) && GoneOrEmbedded(st, old(s.jobs[w].item))
      ensures Quiet(noise) ==> SameStream(old(s), s)
      ensures Quiet(noise) && wx.loadOk && !wx.leaseOk && old(s.jobs[w].item in s.rows) ==>
                out == OutcomeEmbedded && s.rows == old(s.rows) && s.vectors == old(s.vectors)
      ensures Quiet(noise) && wx.leaseOk && out == OutcomeSkipped ==>
                s.rows == old(s.rows) && s.vectors == old(s.vectors) && (old(s.jobs[w].item) in s.rows ==> RowIs(s, old(s.jobs[w].item), Embedded))
      ensures Quiet(noise) && wx.leaseOk && out == OutcomeEmbedded ==>
                && old(s.jobs[w].item in s.rows)
                && Recorded(s, old(s.jobs[w].item), old(s.rows[s.jobs[w].item]), old(s.cfg.strategy))
                && Stores(s, old(s.rows[s.jobs[w].item].obj), env.embed(old(s.cfg.strategy), old(s.rows[s.jobs[w].item].content)))
      ensures Quiet(noise) && Sunny(wx) ==> out == Expected(env, old(s.cfg), old(Current(s, s.jobs[w].item)))
      ensures Quiet(noise) && !wx.loadOk ==> out == OutcomeFailed && s.rows == old(s.rows)
      ensures Quiet(noise) && wx.loadOk && old(s.jobs[w].item !in s.rows) ==> out == OutcomeSkipped
      ensures Quiet(noise) && wx.loadOk && wx.leaseOk && old(s.jobs[w].item in s.rows) ==>
                var course := Course(env, old(s.cfg), wx, old(s.rows[s.jobs[w].item]), old(s.now));
                out == course.0 && s.rows == old(s.rows)[old(s.jobs[w].item) := course.1]
    {
      if !wx.loadOk {
        Interfere(w, At(noise, 0), R);
        GiveUp(w, R);
        return OutcomeFailed;
      }
      var row := LoadItem(w, noise, R);
      ghost var st :| R(st) && row == Current(st, s.jobs[w].item);
      if row.None? {
        assert GoneOrEmbedded(st, s.jobs[w].item);
        return OutcomeSkipped;
      }
      out := ProcessLeased(w, wx, noise, R);
      if Sunny(wx) && out == OutcomeFailed {
        assert MovedOn(st, s, old(s.jobs[w].item));
      }
      if Sunny(wx) && out == OutcomeSkipped {
        assert GoneOrEmbedded(st, old(s.jobs[w].item)) || GoneOrEmbedded(s, old(s.jobs[w].item));
      }
    }

    method AckUnlessTransient(w: Worker, out: Outcome, ack: Fault, acts: seq<Action>, ghost R: State -> bool)
      requires Closed(env, mode, R) && R(s) && (if ShouldAck(out) then w in s.jobs && s.jobs[w].pc == Acking else w !in s.jobs)
      modifies this
      ensures R(s) && w !in s.jobs
      ensures acts == [] ==> s.rows == old(s.rows) && s.queue == old(s.queue)
      ensures acts == [] ==> s.pel == if ShouldAck(out) && ack != Lost then old(s.pel) - {old(s.jobs[w].entry)} else old(s.pel)
    {
      if ShouldAck(out) {
        Interfere(w, acts, R);
        Acknowledge(w, ack, R);
      }
    }

    /** One entry, new or reclaimed: process, then acknowledge unless the outcome is
        transient. Undisturbed, the entry leaves the stream exactly when an acknowledgement
        was due and was not lost. */
    method HandleMessage(w: Worker, e: Entry, again: bool, wx: Weather, noise: seq<seq<Action>>, ghost R: State -> bool) returns (out: Outcome)
      requires Closed(env, mode, R) && R(s) && Takable(mode, s, w, e, again)
      requires mode.leasesGranted ==> wx.leaseOk
      modifies this
      ensures R(s) && w !in s.jobs
      ensures Quiet(noise) ==> s.queue == old(s.queue) - (if again then {} else {e})
      ensures Quiet(noise) ==> s.pel == if ShouldAck(out) && wx.ack != Lost then old(s.pel) - {e} else old(s.pel)[e := ItemOf(old(s), e, again)]
      ensures Quiet(noise) && wx.leaseOk && ShouldAck(out) && ItemOf(old(s), e, again) in s.rows ==>
                RowIs(s, ItemOf(old(s), e, again), Embedded) || RowIs(s, ItemOf(old(s), e, again), DeadLetter)
      ensures Quiet(noise) && Sunny(wx) ==> out == Expected(env, old(s.cfg), Current(old(s), ItemOf(old(s), e, again)))
    {
      Receive(w, e, again, R);
      out := ProcessItem(w, wx, noise, R);
      AckUnlessTransient(w, out, wx.ack, At(noise, 7), R);
    }
  }
}
