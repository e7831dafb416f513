/** The concrete run behind `NoLoss.RefusedLeaseLosesWork`, from an empty namespace. */
module LeaseRefusal {
  import opened Pipeline
  import opened Walks
  import NoLoss

  /** One worker per entry and per item, nothing deleted; only the lease may be refused. */
  const LeaseMayFail := Mode(true, true, false, true)

  /** A worker meets a transient embedding failure and records it. */
  lemma FailOnce(env: Env, R: State -> bool, s: State, w: Worker) returns (s': State)
    requires Closed(env, LeaseMayFail, R) && R(s)
    requires w in s.jobs && s.jobs[w].item in s.rows && s.jobs[w].pc == Configured(s.rows[s.jobs[w].item], s.cfg)
    requires var row := s.rows[s.jobs[w].item]; row.state == Pending && row.attempts == 0
    ensures R(s')
    ensures var i := s.jobs[w].item;
            s' == s.(rows := s.rows[i := s.rows[i].(state := Failed, attempts := 1, updatedAt := s.now)], jobs := s.jobs - {w})
  {
    s' := Next(env, LeaseMayFail, R, s, MarkInFlight(w, Done));
    s' := Next(env, LeaseMayFail, R, s', Embed(w, Transient));
    s' := Next(env, LeaseMayFail, R, s', MarkFailed(w, Done));
    assert s'.jobs == s.jobs - {w};
  }

  lemma FailedItem(env: Env, R: State -> bool, s0: State, c: string) returns (s: State)
    requires Closed(env, LeaseMayFail, R) && R(s0)
    requires Initial(s0) && s0.nextId == 0 && s0.nextEntry == 0
    ensures R(s)
    ensures s.rows.Keys == {0} && s.rows[0].state == Failed
    ensures s.queue == map[] && s.pel == map[0 := 0] && s.jobs == map[]
  {
    s := IngestAndPublish(env, LeaseMayFail, R, s0, c);
    s := Next(env, LeaseMayFail, R, s, Deliver(0, 0));
    assert s.rows == map[0 := Fresh(env, "o", c, s.now)];
    s := ToConfigured(env, LeaseMayFail, R, s, 0);
    s := FailOnce(env, R, s, 0);
  }

  lemma RefusedAndAcked(env: Env, R: State -> bool, s: State) returns (s': State)
    requires Closed(env, LeaseMayFail, R) && R(s)
    requires s.queue == map[] && s.pel == map[0 := 0] && s.jobs == map[] && 0 in s.rows
    ensures R(s')
    ensures s' == s.(pel := map[])
  {
    s' := Next(env, LeaseMayFail, R, s, Reclaim(0, 0));
    s' := LoadRefusedAck(env, R, s', 0);
    assert s'.jobs == map[] && s'.pel == map[];
  }

  lemma LoadRefusedAck(env: Env, R: State -> bool, s: State, w: Worker) returns (s': State)
    requires Closed(env, LeaseMayFail, R) && R(s)
    requires w in s.jobs && s.jobs[w].pc == Claimed && s.jobs[w].item in s.rows
    ensures R(s')
    ensures s' == s.(pel := s.pel - {s.jobs[w].entry}, jobs := s.jobs - {w})
  {
    s' := Next(env, LeaseMayFail, R, s, Load(w));
    s' := Next(env, LeaseMayFail, R, s', RefuseLease(w));
    s' := Next(env, LeaseMayFail, R, s', Ack(w, Done));
    assert s'.jobs == s.jobs - {w};
  }

  /** One transient failure followed by one refused lease strands the item for good. */
  lemma RefusedLeaseRun(env: Env, s0: State, c: string) returns (s: State)
    requires Initial(s0) && s0.nextId == 0 && s0.nextEntry == 0
    ensures Reachable(env, LeaseMayFail, s0, s)
    ensures 0 in s.rows && s.rows[0].state == Failed && s.queue == map[] && s.pel == map[] && s.jobs == map[]
    ensures !NoLoss.NothingLost(s)
  {
    ReachableIsClosed(env, LeaseMayFail, s0);
    s := FailedItem(env, s => Reachable(env, LeaseMayFail, s0, s), s0, c);
    s := RefusedAndAcked(env, s => Reachable(env, LeaseMayFail, s0, s), s);
    assert !NoLoss.Accounted(s, 0);
  }
}
