/** How often an item can be embedded. */
module Budget {
  import opened Wrappers
  import opened Pipeline

  /** Workers holding an unused permit for item i: marked in flight within budget, not yet embedding. */
  ghost function Permits(env: Env, jobs: map<Worker, Job>, i: ItemId): set<Worker> {
    Those(jobs, Permitted(env, i))
  }

  ghost function Those(jobs: map<Worker, Job>, p: Job -> bool): set<Worker> {
    set w | w in jobs && p(jobs[w])
  }

  ghost function Permitted(env: Env, i: ItemId): Job -> bool {
    (job: Job) => job.item == i && HasPermit(env, job.pc)
  }

  lemma ThoseWithout(jobs: map<Worker, Job>, w: Worker, p: Job -> bool)
    requires w in jobs
    ensures |Those(jobs, p)| == |Those(jobs - {w}, p)| + if p(jobs[w]) then 1 else 0
  {
    var rest := Those(jobs - {w}, p);
    assert w !in rest;
    assert Those(jobs, p) == if p(jobs[w]) then rest + {w} else rest;
  }

  predicate HasPermit(env: Env, pc: PC) {
    pc.Flying? && pc.attempt <= MaxAttempts(env, pc.cfg)
  }

  predicate Calls(env: Env, s: State, a: Action, i: ItemId)
    requires Enabled(env, s, a)
  {
    a.Embed? && s.jobs[a.worker].item == i
  }

  /** The step gives item i a fresh retry budget: changed content, redrive, re-embed or success. */
  predicate Resets(env: Env, s: State, a: Action, i: ItemId)
    requires Enabled(env, s, a)
  {
    match a
    case Ingest(j, _, c) => j == i && i in s.rows && s.rows[i].hash != env.hash(c)
    case Redrive(j) => j == i
    case BulkRedrive => i in s.rows && s.rows[i].state == DeadLetter
    case StartReembed(only, target) => i in s.rows && ReembedSelects(only, s.rows[i], target)
    case MarkEmbedded(w, _) => s.jobs[w].item == i && EffectOf(env, s, a).row.Some?
    case _ => false
  }

  function CallCount(env: Env, s: State, acts: seq<Action>, i: ItemId): nat
    requires Runs(env, Anything, s, acts)
    decreases |acts|
  {
    if acts == [] then 0
    else (if Calls(env, s, acts[0], i) then 1 else 0) + CallCount(env, Apply(env, s, acts[0]), acts[1..], i)
  }

  function ResetCount(env: Env, s: State, acts: seq<Action>, i: ItemId): nat
    requires Runs(env, Anything, s, acts)
    decreases |acts|
  {
    if acts == [] then 0
    else (if Resets(env, s, acts[0], i) then 1 else 0) + ResetCount(env, Apply(env, s, acts[0]), acts[1..], i)
  }

  /** Every configuration a worker holds or can read allows at most m attempts. */
  ghost predicate Bounded(env: Env, s: State, m: nat) {
    && MaxAttempts(env, s.cfg) <= m
    && (forall i :: i in s.rows ==> i < s.nextId)
    && forall w :: w in s.jobs && (s.jobs[w].pc.Configured? || s.jobs[w].pc.Flying?) ==> MaxAttempts(env, s.jobs[w].pc.cfg) <= m
  }

  predicate BoundedEdits(env: Env, acts: seq<Action>, m: nat) {
    forall k :: 0 <= k < |acts| && acts[k].EditConfig? ==> MaxAttempts(env, acts[k].cfg) <= m
  }

  /** The part of the budget already used up by item i. */
  function Used(s: State, i: ItemId, m: nat): nat {
    if i in s.rows then Min(s.rows[i].attempts, m) else if i < s.nextId then m else 0
  }

  function Min(a: nat, b: nat): nat {
    if a < b then a else b
  }

  lemma EffectBounded(env: Env, now: int, live: Config, cur: Option<Row>, pc: PC, a: Action, m: nat)
    requires CanWork(env, pc, a) && MaxAttempts(env, live) <= m && (pc.Configured? || pc.Flying? ==> MaxAttempts(env, pc.cfg) <= m)
    ensures var e := Work(env, now, live, cur, pc, a);
            && (e.row.Some? ==> cur.Some?)
            && (e.pc.Some? && (e.pc.value.Configured? || e.pc.value.Flying?) ==> MaxAttempts(env, e.pc.value.cfg) <= m)
  {
  }

  lemma WorkKeepsBounded(env: Env, s: State, a: Action, m: nat)
    requires Bounded(env, s, m) && Working(a) && Enabled(env, s, a)
    ensures Bounded(env, Apply(env, s, a), m)
  {
    var job := s.jobs[a.worker];
    EffectBounded(env, s.now, s.cfg, Current(s, job.item), job.pc, a, m);
    CommitBounded(env, s, a.worker, EffectOf(env, s, a), m);
  }

  lemma CommitBounded(env: Env, s: State, w: Worker, e: Effect, m: nat)
    requires Bounded(env, s, m) && w in s.jobs && (e.row.Some? ==> s.jobs[w].item in s.rows)
    requires e.pc.Some? && (e.pc.value.Configured? || e.pc.value.Flying?) ==> MaxAttempts(env, e.pc.value.cfg) <= m
    ensures Bounded(env, Commit(s, w, e), m)
  {
  }

  lemma ElsewhereKeepsBounded(env: Env, s: State, a: Action, m: nat)
    requires Bounded(env, s, m) && !Working(a) && Enabled(env, s, a) && (a.EditConfig? ==> MaxAttempts(env, a.cfg) <= m)
    ensures Bounded(env, Apply(env, s, a), m)
  {
  }

  /** A worker step trades: each permit is paid by an attempt, each call by a permit. */
  lemma EffectPays(env: Env, now: int, live: Config, cur: Option<Row>, pc: PC, a: Action, m: nat)
    requires CanWork(env, pc, a) && (pc.Configured? ==> MaxAttempts(env, pc.cfg) <= m)
    ensures var e := Work(env, now, live, cur, pc, a);
            var call, had, has := if a.Embed? then 1 else 0, if HasPermit(env, pc) then 1 else 0,
                                  if e.pc.Some? && HasPermit(env, e.pc.value) then 1 else 0;
            var used, used' := if cur.Some? then Min(cur.value.attempts, m) else 0,
                               if e.row.Some? then Min(e.row.value.attempts, m) else if cur.Some? then Min(cur.value.attempts, m) else 0;
            && (e.row.Some? ==> cur.Some?)
            && call + has + used <= had + (if a.MarkEmbedded? && e.row.Some? then m else 0) + used'
  {
  }

  lemma PermitsWithout(env: Env, jobs: map<Worker, Job>, w: Worker, i: ItemId)
    requires w in jobs
    ensures |Permits(env, jobs, i)| == |Permits(env, jobs - {w}, i)| + (if jobs[w].item == i && HasPermit(env, jobs[w].pc) then 1 else 0)
  {
    ThoseWithout(jobs, w, Permitted(env, i));
  }

  lemma PermitsAfterCommit(env: Env, s: State, w: Worker, e: Effect, i: ItemId)
    requires w in s.jobs
    ensures var job := s.jobs[w];
            |Permits(env, Commit(s, w, e).jobs, i)| + (if job.item == i && HasPermit(env, job.pc) then 1 else 0)
            == |Permits(env, s.jobs, i)| + (if job.item == i && e.pc.Some? && HasPermit(env, e.pc.value) then 1 else 0)
  {
    var jobs' := Commit(s, w, e).jobs;
    PermitsWithout(env, s.jobs, w, i);
    assert jobs' - {w} == s.jobs - {w};
    if e.pc.Some? {
      PermitsWithout(env, jobs', w, i);
    }
  }

  lemma WorkPays(env: Env, s: State, a: Action, i: ItemId, m: nat)
    requires Working(a) && Enabled(env, s, a) && Bounded(env, s, m)
    ensures var s' := Apply(env, s, a);
            (if Calls(env, s, a, i) then 1 else 0) + |Permits(env, s'.jobs, i)| + Used(s, i, m)
            <= |Permits(env, s.jobs, i)| + (if Resets(env, s, a, i) then m else 0) + Used(s', i, m)
  {
    var job := s.jobs[a.worker];
    PermitsAfterCommit(env, s, a.worker, EffectOf(env, s, a), i);
    EffectPays(env, s.now, s.cfg, Current(s, job.item), job.pc, a, m);
    if job.item != i {
      assert Used(Apply(env, s, a), i, m) == Used(s, i, m);
    }
  }

  lemma ElsewherePays(env: Env, s: State, a: Action, i: ItemId, m: nat)
    requires !Working(a) && Enabled(env, s, a) && Bounded(env, s, m)
    ensures var s' := Apply(env, s, a);
            |Permits(env, s'.jobs, i)| + Used(s, i, m) <= |Permits(env, s.jobs, i)| + (if Resets(env, s, a, i) then m else 0) + Used(s', i, m)
  {
    assert Permits(env, Apply(env, s, a).jobs, i) == Permits(env, s.jobs, i);
  }

  lemma {:induction false} RunPays(env: Env, s: State, acts: seq<Action>, i: ItemId, m: nat)
    requires Runs(env, Anything, s, acts) && Bounded(env, s, m) && BoundedEdits(env, acts, m)
    ensures CallCount(env, s, acts, i) + Used(s, i, m)
            <= |Permits(env, s.jobs, i)| + m * ResetCount(env, s, acts, i) + Used(Exec(env, Anything, s, acts), i, m)
    decreases |acts|
  {
    if acts != [] {
      var s' := Apply(env, s, acts[0]);
      if Working(acts[0]) {
        WorkPays(env, s, acts[0], i, m);
        WorkKeepsBounded(env, s, acts[0], m);
      } else {
        ElsewherePays(env, s, acts[0], i, m);
        ElsewhereKeepsBounded(env, s, acts[0], m);
      }
      RunPays(env, s', acts[1..], i, m);
      Distribute(m, if Resets(env, s, acts[0], i) then 1 else 0, ResetCount(env, s', acts[1..], i));
    }
  }

  lemma Distribute(m: nat, x: nat, y: nat)
    ensures m * (x + y) == m * x + m * y
  {
  }

  /** The limit in force under a configuration is at most m: the namespace's own if it has one,
      else the process default if there is one, else 5. */
  predicate LimitAtMost(env: Env, cfg: Config, m: nat) {
    && (cfg.maxAttempts > 0 ==> cfg.maxAttempts <= m)
    && (cfg.maxAttempts <= 0 < env.defaultMax ==> env.defaultMax <= m)
    && (cfg.maxAttempts <= 0 && env.defaultMax <= 0 ==> 5 <= m)
  }

  /** Over any run from an empty namespace, whatever is delivered twice, swept, crashed or
      processed by many workers at once, an item is embedded at most m times per budget, m
      being any bound on the limits configured meanwhile. */
  lemma EmbedCallsBounded(env: Env, s: State, acts: seq<Action>, i: ItemId, m: nat)
    requires Initial(s) && Runs(env, Anything, s, acts)
    requires LimitAtMost(env, s.cfg, m) && forall k :: 0 <= k < |acts| && acts[k].EditConfig? ==> LimitAtMost(env, acts[k].cfg, m)
    ensures CallCount(env, s, acts, i) <= m * (1 + ResetCount(env, s, acts, i))
  {
    assert Permits(env, s.jobs, i) == {};
    RunPays(env, s, acts, i, m);
    Distribute(m, 1, ResetCount(env, s, acts, i));
  }

  /** With an override that is never edited, the override is that bound, whatever the process
      default. */
  lemma OverrideBoundsCalls(env: Env, s: State, acts: seq<Action>, i: ItemId)
    requires Initial(s) && Runs(env, Anything, s, acts) && s.cfg.maxAttempts > 0
    requires forall k :: 0 <= k < |acts| && acts[k].EditConfig? ==> acts[k].cfg.maxAttempts == s.cfg.maxAttempts
    ensures CallCount(env, s, acts, i) <= s.cfg.maxAttempts * (1 + ResetCount(env, s, acts, i))
  {
    EmbedCallsBounded(env, s, acts, i, s.cfg.maxAttempts);
  }
}
