/** A re-embed run is closed with success only after every row it reset has been
    embedded or dead-lettered at least once since, or no longer exists. */
module Reembed {
  import opened Wrappers
  import opened Pipeline

  /** Taking `a` in `s` settles item i: it is embedded, dead-lettered or deleted. */
  predicate Settles(env: Env, s: State, a: Action, i: ItemId)
    requires Enabled(env, s, a)
  {
    || (a.DeleteRow? && a.item == i)
    || (&& (a.MarkEmbedded? || a.MarkDeadLetter?) && s.jobs[a.worker].item == i
        && EffectOf(env, s, a).row.Some?)
  }

  /** Some step of the run settles i. */
  predicate SettledDuring(env: Env, s: State, acts: seq<Action>, i: ItemId)
    requires Runs(env, Anything, s, acts)
    decreases |acts|
  {
    acts != [] && (Settles(env, s, acts[0], i) || SettledDuring(env, Apply(env, s, acts[0]), acts[1..], i))
  }

  /** Row i is still owed to run r: its version is gone, no worker has finished it, and
      therefore no watcher tick can have counted zero. */
  predicate Owing(s: State, r: RunId, i: ItemId) {
    && i in s.rows && s.rows[i].sver == None && s.rows[i].state in {Pending, InFlight, Failed}
    && r in s.runs && r < s.nextRun && s.runs[r].open && !s.runs[r].sawZero
  }

  lemma WorkKeepsOwing(env: Env, s: State, a: Action, r: RunId, i: ItemId)
    requires Working(a) && Enabled(env, s, a) && Owing(s, r, i) && !Settles(env, s, a, i)
    ensures Owing(Apply(env, s, a), r, i)
  {
  }

  lemma ElsewhereKeepsOwing(env: Env, s: State, a: Action, r: RunId, i: ItemId)
    requires !Working(a) && Enabled(env, s, a) && Owing(s, r, i) && !Settles(env, s, a, i)
    ensures Owing(Apply(env, s, a), r, i)
  {
    assert a.CountStale? && a.run == r ==> CountsAsStale(s.rows[i], s.runs[r].target);
  }

  lemma {:induction false} OwingUntilSettled(env: Env, s: State, acts: seq<Action>, r: RunId, i: ItemId)
    requires Runs(env, Anything, s, acts) && Owing(s, r, i)
    ensures Owing(Exec(env, Anything, s, acts), r, i) || SettledDuring(env, s, acts, i)
    decreases |acts|
  {
    if acts != [] && !Settles(env, s, acts[0], i) {
      if Working(acts[0]) {
        WorkKeepsOwing(env, s, acts[0], r, i);
      } else {
        ElsewhereKeepsOwing(env, s, acts[0], r, i);
      }
      OwingUntilSettled(env, Apply(env, s, acts[0]), acts[1..], r, i);
    }
  }

  /** Start a run in any state, let anything happen afterwards: if the run is closed in
      the end, every row the start reset has been settled in between. */
  lemma ClosedMeansSettled(env: Env, s: State, only: OnlyState, target: Strategy, acts: seq<Action>, i: ItemId)
    requires Runs(env, Anything, Apply(env, s, StartReembed(only, target)), acts)
    requires i in s.rows && ReembedSelects(only, s.rows[i], target)
    requires var t := Exec(env, Anything, Apply(env, s, StartReembed(only, target)), acts);
             s.nextRun in t.runs && !t.runs[s.nextRun].open
    ensures SettledDuring(env, Apply(env, s, StartReembed(only, target)), acts, i)
  {
    OwingUntilSettled(env, Apply(env, s, StartReembed(only, target)), acts, s.nextRun, i);
  }

  /** What a watcher tick does to a run: the stale count, and the close it permits. */
  lemma CountOutcome(env: Env, s: State, r: RunId)
    requires r in s.runs && s.runs[r].open
    ensures Enabled(env, s, CountStale(r))
    ensures Apply(env, s, CountStale(r)) ==
            s.(runs := s.runs[r := s.runs[r].(sawZero := s.runs[r].sawZero || !AnyStale(s.rows, s.runs[r].target))])
  {
    assert s.runs == s.runs[r := s.runs[r]];
  }

  lemma CloseOutcome(env: Env, s: State, r: RunId)
    requires r in s.runs && s.runs[r].open && s.runs[r].sawZero
    ensures Enabled(env, s, CloseRun(r))
    ensures Apply(env, s, CloseRun(r)) == s.(runs := s.runs[r := s.runs[r].(open := false)])
  {
  }

  /** Had the run row been inserted before the reset, in its own transaction, a watcher
      tick in between could close the run at once with nothing re-embedded. */
  lemma TwoTransactionsWouldLose(env: Env, s: State, target: Strategy) returns (s1: State, t: State)
    requires forall i :: i in s.rows ==> !CountsAsStale(s.rows[i], target)
    ensures s1 == s.(runs := s.runs[s.nextRun := ReembedRun(target, false, true)], nextRun := s.nextRun + 1)
    ensures Reachable(env, Anything, s1, t)
    ensures t.rows == s.rows && s.nextRun in t.runs && !t.runs[s.nextRun].open
  {
    s1 := s.(runs := s.runs[s.nextRun := ReembedRun(target, false, true)], nextRun := s.nextRun + 1);
    ReachableIsClosed(env, Anything, s1);
    t := CountAndClose(env, x => Reachable(env, Anything, s1, x), s1, s.nextRun);
  }

  lemma CountAndClose(env: Env, R: State -> bool, s: State, r: RunId) returns (t: State)
    requires Closed(env, Anything, R) && R(s) && r in s.runs && s.runs[r].open && !AnyStale(s.rows, s.runs[r].target)
    ensures R(t) && t.rows == s.rows && r in t.runs && !t.runs[r].open
  {
    CountOutcome(env, s, r);
    t := Next(env, Anything, R, s, CountStale(r));
    CloseOutcome(env, t, r);
    t := Next(env, Anything, R, t, CloseRun(r));
  }
}
