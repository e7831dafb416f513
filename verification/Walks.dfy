/** Short undisturbed stretches of a run, for building concrete runs of the pipeline. */
module Walks {
  import opened Pipeline

  /** A worker that has just claimed an item reads its row and the configuration. */
  lemma ToConfigured(env: Env, m: Mode, R: State -> bool, s: State, w: Worker) returns (s': State)
    requires Closed(env, m, R) && R(s)
    requires w in s.jobs && s.jobs[w].pc == Claimed && s.jobs[w].item in s.rows
    ensures R(s')
    ensures s' == s.(jobs := s.jobs[w := s.jobs[w].(pc := Configured(s.rows[s.jobs[w].item], s.cfg))])
  {
    s' := Next(env, m, R, s, Load(w));
    s' := Next(env, m, R, s', ReadConfig(w));
  }

  function RowsWith(env: Env, s: State, c: string): map<ItemId, Row> {
    map[0 := if 0 in s.rows then Ingested(env, s.rows[0], c, s.now) else Fresh(env, "o", c, s.now)]
  }

  lemma IngestOnly(env: Env, m: Mode, s: State, c: string)
    requires (s.rows == map[] && s.nextId == 0) || (s.rows.Keys == {0} && s.nextId == 1 && s.rows[0].obj == "o")
    ensures Step(env, m, s, Ingest(0, "o", c))
    ensures Apply(env, s, Ingest(0, "o", c)) == s.(rows := RowsWith(env, s, c), nextId := 1)
  {
    assert Apply(env, s, Ingest(0, "o", c)).rows == RowsWith(env, s, c);
  }

  lemma IngestAndPublish(env: Env, m: Mode, R: State -> bool, s: State, c: string) returns (s': State)
    requires Closed(env, m, R) && R(s)
    requires (s.rows == map[] && s.nextId == 0) || (s.rows.Keys == {0} && s.nextId == 1 && s.rows[0].obj == "o")
    ensures R(s')
    ensures s' == s.(rows := RowsWith(env, s, c), nextId := 1, queue := s.queue[s.nextEntry := 0], nextEntry := s.nextEntry + 1)
  {
    IngestOnly(env, m, s, c);
    s' := Next(env, m, R, s, Ingest(0, "o", c));
    s' := Next(env, m, R, s', Publish(0));
  }
}
