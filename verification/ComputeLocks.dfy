/** The cross-process compute locks: session-scoped advisory locks taken over pooled
    connections by runs (try), wipes (blocking) and maintenance (all namespaces).

    Every step touches one session; what the server grants depends on all of them. Any query
    may be refused, may lose its connection with or without having taken effect, or may
    report an error after taking effect; the server may end any session at any time. */
module ComputeLocks {

  type Conn = nat

  type Key = int

  datatype Op = Try(ns: string) | Block(ns: string) | All

  datatype Want = Maintenance(exclusive: bool) | Namespace(key: Key)

  datatype Wait = Wait(want: Want, ticket: nat)

  datatype PC =
    | Idle                                    // in the pool
    | Start(op: Op)                           // checked out
    | WaitMaintenance(op: Op, wait: Wait)
    | HaveMaintenance(op: Op)
    | WaitNamespace(op: Op, wait: Wait)
    | Holding(op: Op)                         // the caller's work runs
    | Orphaned(op: Op)                        // it runs on, though the server ended the session
    | UnlockNamespace(op: Op)
    | UnlockMaintenance(op: Op, failed: bool)
    | Undoing                                 // giving the shared maintenance lock back
    | Dying(pending: seq<Wait>)               // closed by the client, not yet noticed by the server

  /** A server session: where its client is, and the locks the server counts for it. */
  datatype Session = Session(pc: PC, shared: nat, excl: nat, keys: multiset<Key>)

  datatype State = State(sessions: map<Conn, Session>, ticket: nat)

  /** Leaked: an error is reported although the statement took effect. */
  datatype Reply = Answered | Refused | Leaked | Lost(effect: bool)

  datatype Action =
    | Acquire(c: Conn, op: Op)
    | Ask(c: Conn, reply: Reply)        // send a lock query
    | Grant(c: Conn, reply: Reply)      // the server serves a waiting query
    | CancelWait(c: Conn, lost: bool)   // a waiting query fails
    | Undo(c: Conn, reply: Reply)
    | Finish(c: Conn)
    | UnlockNs(c: Conn, reply: Reply)
    | UnlockM(c: Conn, reply: Reply)
    | SessionEnd(c: Conn)               // the server drops a closed session
    | Terminate(c: Conn)                // the server ends a session the client still uses

  // ------------------------------------------------ the server

  function NoLocks(pc: PC): Session {
    Session(pc, 0, 0, multiset{})
  }

  function Take(x: Session, w: Want): Session {
    match w
    case Maintenance(true) => x.(excl := x.excl + 1)
    case Maintenance(false) => x.(shared := x.shared + 1)
    case Namespace(k) => x.(keys := x.keys + multiset{k})
  }

  function Drop(x: Session, w: Want): Session {
    match w
    case Maintenance(true) => x.(excl := if x.excl > 0 then x.excl - 1 else 0)
    case Maintenance(false) => x.(shared := if x.shared > 0 then x.shared - 1 else 0)
    case Namespace(k) => x.(keys := x.keys - multiset{k})
  }

  predicate Conflict(w: Want, v: Want) {
    match w
    case Maintenance(e) => v.Maintenance? && (e || v.exclusive)
    case Namespace(k) => v == w
  }

  /** x holds something that w must wait for. */
  predicate Blocks(x: Session, w: Want) {
    match w
    case Maintenance(e) => x.excl > 0 || (e && x.shared > 0)
    case Namespace(k) => k in x.keys
  }

  function Waiting(x: Session): seq<Wait> {
    match x.pc
    case WaitMaintenance(_, wait) => [wait]
    case WaitNamespace(_, wait) => [wait]
    case Dying(pending) => pending
    case _ => []
  }

  predicate Ahead(x: Session, w: Wait) {
    exists v :: v in Waiting(x) && v.ticket < w.ticket && Conflict(w.want, v.want)
  }

  /** Session c can be given w now: nobody holds or has earlier asked for a conflicting lock. */
  predicate Grantable(s: State, c: Conn, w: Wait) {
    forall d :: d in s.sessions && d != c ==> !Blocks(s.sessions[d], w.want) && !Ahead(s.sessions[d], w)
  }

  // ------------------------------------------------ the client

  /** The lock a session asks for next. */
  function Wanted(hash: string -> Key, pc: PC): Want
    requires pc.Start? || (pc.HaveMaintenance? && !pc.op.All?)
  {
    if pc.Start? then Maintenance(pc.op.All?) else Namespace(hash(pc.op.ns))
  }

  /** Where an error leaves a session that was asking: straight back to the pool before it
      holds the maintenance lock, otherwise giving that lock back first. */
  function GiveUp(pc: PC): PC {
    if pc.Start? || pc.WaitMaintenance? then Idle else Undoing
  }

  /** Where success leaves it. */
  function Got(pc: PC): PC {
    match pc
    case Start(op) => if op.All? then Holding(op) else HaveMaintenance(op)
    case WaitMaintenance(op, _) => if op.All? then Holding(op) else HaveMaintenance(op)
    case HaveMaintenance(op) => Holding(op)
    case WaitNamespace(op, _) => Holding(op)
    case Dying(_) => Dying([])
    case _ => pc
  }

  function Queued(pc: PC, w: Wait): PC {
    match pc
    case Start(op) => WaitMaintenance(op, w)
    case HaveMaintenance(op) => WaitNamespace(op, w)
    case _ => pc
  }

  function Resumed(x: Session, pc: PC): Session {
    x.(pc := pc)
  }

  /** A lock query: a try-lock is decided at once, a blocking one joins the queue. */
  function Asked(x: Session, reply: Reply, w: Wait, grant: bool): Session
    requires x.pc.Start? || x.pc.HaveMaintenance?
  {
    match reply
    case Refused => Resumed(x, GiveUp(x.pc))
    case Lost(effect) =>
      if !effect then Resumed(x, Dying([]))
      else if !x.pc.op.Try? then Resumed(x, Dying([w]))
      else if grant then Resumed(Take(x, w.want), Dying([])) else Resumed(x, Dying([]))
    case Leaked =>
      if x.pc.op.Try? && grant then Resumed(Take(x, w.want), GiveUp(x.pc)) else Resumed(x, GiveUp(x.pc))
    case Answered =>
      if !x.pc.op.Try? then Resumed(x, Queued(x.pc, w))
      else if grant then Resumed(Take(x, w.want), Got(x.pc)) else Resumed(x, GiveUp(x.pc))
  }

  /** A waiting query is served. */
  function Granted(x: Session, reply: Reply, w: Want): Session {
    if x.pc.Dying? || reply.Lost? then Resumed(Take(x, w), Dying([]))
    else if reply.Answered? then Resumed(Take(x, w), Got(x.pc))
    else Resumed(Take(x, w), GiveUp(x.pc))
  }

  predicate TookEffect(reply: Reply) {
    reply.Answered? || reply.Leaked? || (reply.Lost? && reply.effect)
  }

  /** An unlock query. */
  function Unlocked(x: Session, w: Want, reply: Reply): Session {
    if TookEffect(reply) then Drop(x, w) else x
  }

  predicate Enabled(s: State, a: Action) {
    match a
    case Acquire(c, _) => c in s.sessions ==> s.sessions[c].pc.Idle?
    case Ask(c, _) => c in s.sessions && (s.sessions[c].pc.Start? || (s.sessions[c].pc.HaveMaintenance? && !s.sessions[c].pc.op.All?))
    case Grant(c, reply) => c in s.sessions && |Waiting(s.sessions[c])| == 1 && Grantable(s, c, Waiting(s.sessions[c])[0]) && TookEffect(reply)
    case CancelWait(c, _) => c in s.sessions && (s.sessions[c].pc.WaitMaintenance? || s.sessions[c].pc.WaitNamespace?)
    case Undo(c, _) => c in s.sessions && s.sessions[c].pc.Undoing?
    case Finish(c) => c in s.sessions && (s.sessions[c].pc.Holding? || s.sessions[c].pc.Orphaned?)
    case UnlockNs(c, _) => c in s.sessions && s.sessions[c].pc.UnlockNamespace? && !s.sessions[c].pc.op.All?
    case UnlockM(c, _) => c in s.sessions && s.sessions[c].pc.UnlockMaintenance?
    case SessionEnd(c) => c in s.sessions && s.sessions[c].pc.Dying?
    case Terminate(c) => c in s.sessions && !s.sessions[c].pc.Dying? && !s.sessions[c].pc.Orphaned?
  }

  /** The acting session after the step; the last case never applies. */
  function After(hash: string -> Key, s: State, a: Action): Session
    requires Enabled(s, a) && !a.SessionEnd?
  {
    match a
    case Acquire(c, op) => if c in s.sessions then Resumed(s.sessions[c], Start(op)) else NoLocks(Start(op))
    case Ask(c, reply) =>
      var w := Wait(Wanted(hash, s.sessions[c].pc), s.ticket);
      Asked(s.sessions[c], reply, w, Grantable(s, c, w))
    case Grant(c, reply) => Granted(s.sessions[c], reply, Waiting(s.sessions[c])[0].want)
    case CancelWait(c, lost) =>
      Resumed(s.sessions[c], if lost then Dying(Waiting(s.sessions[c])) else GiveUp(s.sessions[c].pc))
    case Undo(c, reply) =>
      Resumed(Unlocked(s.sessions[c], Maintenance(false), reply), if reply.Answered? then Idle else Dying([]))
    case Finish(c) =>
      var op := s.sessions[c].pc.op;
      if s.sessions[c].pc.Orphaned? then NoLocks(Dying([]))
      else Resumed(s.sessions[c], if op.All? then UnlockMaintenance(op, false) else UnlockNamespace(op))
    case UnlockNs(c, reply) =>
      var op := s.sessions[c].pc.op;
      Resumed(Unlocked(s.sessions[c], Namespace(hash(op.ns)), reply),
              if reply.Lost? then Dying([]) else UnlockMaintenance(op, !reply.Answered?))
    case UnlockM(c, reply) =>
      var pc := s.sessions[c].pc;
      Resumed(Unlocked(s.sessions[c], Maintenance(pc.op.All?), reply),
              if reply.Answered? && !pc.failed then Idle else Dying([]))
    case Terminate(c) =>
      NoLocks(if s.sessions[c].pc.Holding? then Orphaned(s.sessions[c].pc.op) else Dying([]))
  }

  function Apply(hash: string -> Key, s: State, a: Action): State
    requires Enabled(s, a)
  {
    if a.SessionEnd? then s.(sessions := s.sessions - {a.c})
    else State(s.sessions[a.c := After(hash, s, a)], s.ticket + 1)
  }

  // ------------------------------------------------ mutual exclusion, whatever fails

  predicate Free(x: Session) {
    x.shared == 0 && x.excl == 0 && x.keys == multiset{}
  }

  /** A session at work holds what it asked for, and waits for what it needs. */
  predicate Holds(hash: string -> Key, x: Session) {
    match x.pc
    case HaveMaintenance(op) => !op.All? && x.shared > 0
    case WaitMaintenance(op, wait) => wait.want == Maintenance(op.All?)
    case WaitNamespace(op, wait) => !op.All? && x.shared > 0 && wait.want == Namespace(hash(op.ns))
    case Holding(op) => if op.All? then x.excl > 0 else x.shared > 0 && hash(op.ns) in x.keys
    case Orphaned(_) => Free(x)
    case _ => true
  }

  /** No two sessions hold conflicting locks. */
  predicate Compatible(x: Session, y: Session) {
    && (x.excl > 0 ==> y.excl == 0 && y.shared == 0)
    && (y.excl > 0 ==> x.excl == 0 && x.shared == 0)
    && x.keys !! y.keys
  }

  ghost predicate Excludes(hash: string -> Key, s: State) {
    && (forall c :: c in s.sessions ==> Holds(hash, s.sessions[c]))
    && (forall c, d :: c in s.sessions && d in s.sessions && c != d ==> Compatible(s.sessions[c], s.sessions[d]))
  }

  /** The acting session keeps only locks it had, or takes one the server granted. */
  predicate Gains(x: Session, y: Session) {
    && y.shared <= x.shared && y.excl <= x.excl && y.keys <= x.keys
  }

  lemma AskedGains(hash: string -> Key, x: Session, reply: Reply, w: Wait, grant: bool)
    requires (x.pc.Start? || (x.pc.HaveMaintenance? && !x.pc.op.All?)) && w.want == Wanted(hash, x.pc) && Holds(hash, x)
    ensures Holds(hash, Asked(x, reply, w, grant))
    ensures Gains(x, Asked(x, reply, w, grant)) || (grant && Gains(Take(x, w.want), Asked(x, reply, w, grant)))
  {
  }

  lemma GrantedGains(hash: string -> Key, x: Session, reply: Reply)
    requires |Waiting(x)| == 1 && Holds(hash, x) && TookEffect(reply)
    ensures Holds(hash, Granted(x, reply, Waiting(x)[0].want))
    ensures Gains(Take(x, Waiting(x)[0].want), Granted(x, reply, Waiting(x)[0].want))
  {
  }

  lemma UnlockGains(hash: string -> Key, s: State, a: Action)
    requires Enabled(s, a) && (a.Undo? || a.UnlockNs? || a.UnlockM?)
    ensures Holds(hash, After(hash, s, a)) && Gains(s.sessions[a.c], After(hash, s, a))
  {
  }

  /** A step leaves its session with locks it had, plus at most one that is grantable. */
  lemma StepGains(hash: string -> Key, s: State, a: Action) returns (w: Wait)
    requires Excludes(hash, s) && Enabled(s, a) && !a.SessionEnd?
    ensures Holds(hash, After(hash, s, a))
    ensures var x := if a.c in s.sessions then s.sessions[a.c] else NoLocks(Idle);
            Gains(x, After(hash, s, a)) || (Grantable(s, a.c, w) && Gains(Take(x, w.want), After(hash, s, a)))
  {
    w := Wait(Maintenance(false), 0);
    match a {
      case Ask(c, reply) =>
        w := Wait(Wanted(hash, s.sessions[c].pc), s.ticket);
        AskedGains(hash, s.sessions[c], reply, w, Grantable(s, c, w));
      case Grant(c, reply) =>
        w := Waiting(s.sessions[c])[0];
        GrantedGains(hash, s.sessions[c], reply);
      case Undo(_, _) => UnlockGains(hash, s, a);
      case UnlockNs(_, _) => UnlockGains(hash, s, a);
      case UnlockM(_, _) => UnlockGains(hash, s, a);
      case _ =>
    }
  }

  lemma GainsCompatible(x: Session, y: Session, z: Session)
    requires Compatible(x, z) && Gains(x, y)
    ensures Compatible(y, z)
  {
  }

  lemma TakeCompatible(x: Session, w: Want, z: Session)
    requires Compatible(x, z) && !Blocks(z, w)
    ensures Compatible(Take(x, w), z)
  {
  }

  lemma StepExcludes(hash: string -> Key, s: State, a: Action)
    requires Excludes(hash, s) && Enabled(s, a)
    ensures Excludes(hash, Apply(hash, s, a))
  {
    if !a.SessionEnd? {
      var w := StepGains(hash, s, a);
      var x := if a.c in s.sessions then s.sessions[a.c] else NoLocks(Idle);
      var y := After(hash, s, a);
      forall d | d in s.sessions && d != a.c ensures Compatible(y, s.sessions[d]) && Compatible(s.sessions[d], y) {
        if Gains(x, y) {
          GainsCompatible(x, y, s.sessions[d]);
        } else {
          TakeCompatible(x, w.want, s.sessions[d]);
          GainsCompatible(Take(x, w.want), y, s.sessions[d]);
        }
      }
    }
  }

  // ------------------------------------------------ runs

  /** Whether lock queries only report errors when they did not take effect, and whether the
      server leaves a session alone while the work under its lock runs. */
  datatype Mode = Mode(cleanErrors: bool, sessionsLive: bool)

  predicate Admits(mode: Mode, s: State, a: Action) {
    && (mode.cleanErrors && (a.Ask? || a.Grant?) ==> !a.reply.Leaked?)
    && (mode.sessionsLive && a.Terminate? ==> a.c in s.sessions ==> !s.sessions[a.c].pc.Holding?)
  }

  predicate Step(mode: Mode, s: State, a: Action) {
    Enabled(s, a) && Admits(mode, s, a)
  }

  predicate Runs(hash: string -> Key, mode: Mode, s: State, acts: seq<Action>)
    decreases |acts|
  {
    acts == [] || (Step(mode, s, acts[0]) && Runs(hash, mode, Apply(hash, s, acts[0]), acts[1..]))
  }

  function Exec(hash: string -> Key, mode: Mode, s: State, acts: seq<Action>): State
    requires Runs(hash, mode, s, acts)
    decreases |acts|
  {
    if acts == [] then s else Exec(hash, mode, Apply(hash, s, acts[0]), acts[1..])
  }

  const NOBODY := State(map[], 0)

  lemma {:induction false} RunsCompose(hash: string -> Key, mode: Mode, s: State, acts: seq<Action>, more: seq<Action>)
    requires Runs(hash, mode, s, acts) && Runs(hash, mode, Exec(hash, mode, s, acts), more)
    ensures Runs(hash, mode, s, acts + more)
    ensures Exec(hash, mode, s, acts + more) == Exec(hash, mode, Exec(hash, mode, s, acts), more)
    decreases |acts|
  {
    if acts == [] {
      assert acts + more == more;
    } else {
      assert (acts + more)[0] == acts[0] && (acts + more)[1..] == acts[1..] + more;
      RunsCompose(hash, mode, Apply(hash, s, acts[0]), acts[1..], more);
    }
  }

  lemma TwoSteps(hash: string -> Key, mode: Mode, s: State, a: Action, b: Action)
    requires Step(mode, s, a) && Step(mode, Apply(hash, s, a), b)
    ensures Runs(hash, mode, s, [a, b])
    ensures Exec(hash, mode, s, [a, b]) == Apply(hash, Apply(hash, s, a), b)
  {
    var s1 := Apply(hash, s, a);
    var s2 := Apply(hash, s1, b);
    assert [a, b][1..] == [b] && [b][1..] == [];
    assert Runs(hash, mode, s2, []) && Exec(hash, mode, s2, []) == s2;
    assert Runs(hash, mode, s1, [b]) && Exec(hash, mode, s1, [b]) == s2;
  }

  /** Session c does the work of op, whether or not the server still has the session. */
  predicate AtWork(s: State, c: Conn, op: Op) {
    c in s.sessions && (s.sessions[c].pc == Holding(op) || s.sessions[c].pc == Orphaned(op))
  }

  predicate Clash(hash: string -> Key, p: Op, q: Op) {
    p.All? || q.All? || hash(p.ns) == hash(q.ns)
  }

  /** Nobody works on the same namespace as another, nor on one whose name collides, and
      whoever works on all namespaces is alone. */
  ghost predicate Exclusive(hash: string -> Key, s: State) {
    forall c, d, p, q :: c != d && AtWork(s, c, p) && AtWork(s, d, q) ==> !Clash(hash, p, q)
  }

  lemma {:induction false} RunExcludes(hash: string -> Key, mode: Mode, s: State, acts: seq<Action>)
    requires Excludes(hash, s) && Runs(hash, mode, s, acts)
    ensures Excludes(hash, Exec(hash, mode, s, acts))
    decreases |acts|
  {
    if acts != [] {
      StepExcludes(hash, s, acts[0]);
      RunExcludes(hash, mode, Apply(hash, s, acts[0]), acts[1..]);
    }
  }

  /** In every run, whatever queries fail and however names hash: two sessions do clashing
      work only if the server has ended one of them under its work. */
  lemma MutualExclusion(hash: string -> Key, mode: Mode, acts: seq<Action>, c: Conn, d: Conn, p: Op, q: Op)
    requires Runs(hash, mode, NOBODY, acts) && c != d && Clash(hash, p, q)
    requires AtWork(Exec(hash, mode, NOBODY, acts), c, p) && AtWork(Exec(hash, mode, NOBODY, acts), d, q)
    ensures var s := Exec(hash, mode, NOBODY, acts); s.sessions[c].pc.Orphaned? || s.sessions[d].pc.Orphaned?
  {
    var s := Exec(hash, mode, NOBODY, acts);
    RunExcludes(hash, mode, NOBODY, acts);
    assert Holds(hash, s.sessions[c]) && Holds(hash, s.sessions[d]) && Compatible(s.sessions[c], s.sessions[d]);
  }

  ghost predicate NoOrphans(s: State) {
    forall c :: c in s.sessions ==> !s.sessions[c].pc.Orphaned?
  }

  lemma {:induction false} RunNoOrphans(hash: string -> Key, mode: Mode, s: State, acts: seq<Action>)
    requires NoOrphans(s) && mode.sessionsLive && Runs(hash, mode, s, acts)
    ensures NoOrphans(Exec(hash, mode, s, acts))
    decreases |acts|
  {
    if acts != [] {
      StepNoOrphans(hash, mode, s, acts[0]);
      RunNoOrphans(hash, mode, Apply(hash, s, acts[0]), acts[1..]);
    }
  }

  lemma StepNoOrphans(hash: string -> Key, mode: Mode, s: State, a: Action)
    requires NoOrphans(s) && mode.sessionsLive && Step(mode, s, a)
    ensures NoOrphans(Apply(hash, s, a))
  {
    var s' := Apply(hash, s, a);
    forall d | d in s'.sessions ensures !s'.sessions[d].pc.Orphaned? {
      if d != a.c {
        assert s'.sessions[d] == s.sessions[d];
      }
    }
  }

  function Entering(c: Conn, ns: string): seq<Action> {
    [Acquire(c, Try(ns)), Ask(c, Answered)]
  }

  lemma EnteringWorks(hash: string -> Key, mode: Mode, s: State, c: Conn, ns: string)
    requires c !in s.sessions && forall d :: d in s.sessions ==> Free(s.sessions[d]) && Waiting(s.sessions[d]) == []
    ensures Runs(hash, mode, s, Entering(c, ns))
    ensures Exec(hash, mode, s, Entering(c, ns)) == State(s.sessions[c := Session(HaveMaintenance(Try(ns)), 1, 0, multiset{})], s.ticket + 2)
  {
    var s1 := Apply(hash, s, Acquire(c, Try(ns)));
    assert forall d :: d in s1.sessions && d != c ==> s1.sessions[d] == s.sessions[d];
    assert Grantable(s1, c, Wait(Maintenance(false), s.ticket + 1));
    TwoSteps(hash, mode, s, Acquire(c, Try(ns)), Ask(c, Answered));
    assert Apply(hash, s1, Ask(c, Answered)).sessions == s.sessions[c := Session(HaveMaintenance(Try(ns)), 1, 0, multiset{})];
  }

  function Locking(c: Conn, ns: string): seq<Action> {
    Entering(c, ns) + [Ask(c, Answered)]
  }

  lemma OneStep(hash: string -> Key, mode: Mode, s: State, a: Action)
    requires Step(mode, s, a)
    ensures Runs(hash, mode, s, [a]) && Exec(hash, mode, s, [a]) == Apply(hash, s, a)
  {
    assert [a][1..] == [];
    assert Runs(hash, mode, Apply(hash, s, a), []);
  }

  /** A free connection gets a free namespace. */
  lemma LockingWorks(hash: string -> Key, mode: Mode, s: State, c: Conn, ns: string)
    requires c !in s.sessions && forall d :: d in s.sessions ==> Free(s.sessions[d]) && Waiting(s.sessions[d]) == []
    ensures Runs(hash, mode, s, Locking(c, ns))
    ensures Exec(hash, mode, s, Locking(c, ns)) == State(s.sessions[c := Session(Holding(Try(ns)), 1, 0, multiset{hash(ns)})], s.ticket + 3)
  {
    EnteringWorks(hash, mode, s, c, ns);
    var s2 := Exec(hash, mode, s, Entering(c, ns));
    assert Grantable(s2, c, Wait(Namespace(hash(ns)), s2.ticket));
    OneStep(hash, mode, s2, Ask(c, Answered));
    assert multiset{} + multiset{hash(ns)} == multiset{hash(ns)};
    assert Apply(hash, s2, Ask(c, Answered)).sessions == s.sessions[c := Session(Holding(Try(ns)), 1, 0, multiset{hash(ns)})];
    RunsCompose(hash, mode, s, Entering(c, ns), [Ask(c, Answered)]);
  }

  function Overlap(ns: string): seq<Action> {
    Locking(0, ns) + [Terminate(0)] + Locking(1, ns)
  }

  /** The work of a session that the server ends goes on while another session is given the
      same namespace. */
  lemma WorkOutlivesSession(hash: string -> Key, mode: Mode, ns: string)
    requires !mode.sessionsLive
    ensures Runs(hash, mode, NOBODY, Overlap(ns)) && var s := Exec(hash, mode, NOBODY, Overlap(ns)); AtWork(s, 0, Try(ns)) && AtWork(s, 1, Try(ns))
  {
    LockingWorks(hash, mode, NOBODY, 0, ns);
    var s := Exec(hash, mode, NOBODY, Locking(0, ns));
    var s' := Apply(hash, s, Terminate(0));
    OneStep(hash, mode, s, Terminate(0));
    RunsCompose(hash, mode, NOBODY, Locking(0, ns), [Terminate(0)]);
    assert s'.sessions[0] == NoLocks(Orphaned(Try(ns)));
    LockingWorks(hash, mode, s', 1, ns);
    RunsCompose(hash, mode, NOBODY, Locking(0, ns) + [Terminate(0)], Locking(1, ns));
  }

  ghost predicate AlwaysExclusive(hash: string -> Key, mode: Mode) {
    forall acts :: Runs(hash, mode, NOBODY, acts) ==> Exclusive(hash, Exec(hash, mode, NOBODY, acts))
  }

  /** Every run is exclusive exactly when the server never ends a session under its work. */
  lemma ExclusiveExactly(hash: string -> Key, mode: Mode)
    ensures AlwaysExclusive(hash, mode) <==> mode.sessionsLive
  {
    if mode.sessionsLive {
      forall acts | Runs(hash, mode, NOBODY, acts) ensures Exclusive(hash, Exec(hash, mode, NOBODY, acts)) {
        var s := Exec(hash, mode, NOBODY, acts);
        RunNoOrphans(hash, mode, NOBODY, acts);
        forall c, d, p, q | c != d && AtWork(s, c, p) && AtWork(s, d, q) ensures !Clash(hash, p, q) {
          if Clash(hash, p, q) {
            MutualExclusion(hash, mode, acts, c, d, p, q);
          }
        }
      }
    } else {
      WorkOutlivesSession(hash, mode, "n");
      assert Clash(hash, Try("n"), Try("n"));
    }
  }

  // ------------------------------------------------ the pool

  predicate OnlyShared(x: Session) {
    x.shared == 1 && x.excl == 0 && x.keys == multiset{}
  }

  /** A session holds exactly what its client will give back. */
  predicate Tidy(hash: string -> Key, x: Session) {
    match x.pc
    case Idle => Free(x)
    case Start(_) => Free(x)
    case WaitMaintenance(_, _) => Free(x)
    case HaveMaintenance(_) => OnlyShared(x)
    case WaitNamespace(_, _) => OnlyShared(x)
    case Undoing => OnlyShared(x)
    case Orphaned(_) => Free(x)
    case Holding(op) => HoldsExactly(hash, op, x)
    case UnlockNamespace(op) => !op.All? && HoldsExactly(hash, op, x)
    case UnlockMaintenance(op, failed) =>
      if op.All? then x.shared == 0 && x.excl == 1 && x.keys == multiset{}
      else x.shared == 1 && x.excl == 0 && (!failed ==> x.keys == multiset{})
    case Dying(pending) =>
      |pending| <= 1 && (pending != [] ==> if pending[0].want.Maintenance? then Free(x) else OnlyShared(x))
  }

  predicate HoldsExactly(hash: string -> Key, op: Op, x: Session) {
    if op.All? then x.shared == 0 && x.excl == 1 && x.keys == multiset{}
    else x.shared == 1 && x.excl == 0 && x.keys == multiset{hash(op.ns)}
  }

  ghost predicate AllTidy(hash: string -> Key, s: State) {
    forall c :: c in s.sessions ==> Tidy(hash, s.sessions[c])
  }

  /** A lock query reported an error although its lock was taken. */
  predicate LeaksLock(hash: string -> Key, s: State, a: Action)
    requires Enabled(s, a)
  {
    match a
    case Ask(c, reply) =>
      reply.Leaked? && s.sessions[c].pc.op.Try? && Grantable(s, c, Wait(Wanted(hash, s.sessions[c].pc), s.ticket))
    case Grant(c, reply) => reply.Leaked? && !s.sessions[c].pc.Dying?
    case _ => false
  }

  lemma AskedTidy(hash: string -> Key, x: Session, reply: Reply, w: Wait, grant: bool)
    requires (x.pc.Start? || (x.pc.HaveMaintenance? && !x.pc.op.All?)) && w.want == Wanted(hash, x.pc) && Tidy(hash, x)
    ensures Tidy(hash, Asked(x, reply, w, grant)) <==> !(reply.Leaked? && x.pc.op.Try? && grant)
  {
  }

  lemma GrantedTidy(hash: string -> Key, x: Session, reply: Reply)
    requires |Waiting(x)| == 1 && Holds(hash, x) && TookEffect(reply) && Tidy(hash, x)
    ensures Tidy(hash, Granted(x, reply, Waiting(x)[0].want)) <==> !(reply.Leaked? && !x.pc.Dying?)
  {
  }

  lemma UnlockTidy(hash: string -> Key, s: State, a: Action)
    requires Enabled(s, a) && (a.Undo? || a.UnlockNs? || a.UnlockM?) && Tidy(hash, s.sessions[a.c])
    ensures Tidy(hash, After(hash, s, a))
  {
  }

  lemma StepTidy(hash: string -> Key, s: State, a: Action)
    requires Excludes(hash, s) && AllTidy(hash, s) && Enabled(s, a) && !a.SessionEnd?
    ensures Tidy(hash, After(hash, s, a)) <==> !LeaksLock(hash, s, a)
  {
    match a {
      case Ask(c, reply) =>
        var w := Wait(Wanted(hash, s.sessions[c].pc), s.ticket);
        AskedTidy(hash, s.sessions[c], reply, w, Grantable(s, c, w));
      case Grant(c, reply) =>
        GrantedTidy(hash, s.sessions[c], reply);
      case Undo(_, _) => UnlockTidy(hash, s, a);
      case UnlockNs(_, _) => UnlockTidy(hash, s, a);
      case UnlockM(_, _) => UnlockTidy(hash, s, a);
      case _ =>
    }
  }

  /** The only step that leaves a session holding more than its client will give back. */
  lemma LeakedExactly(hash: string -> Key, s: State, a: Action)
    requires Excludes(hash, s) && AllTidy(hash, s) && Enabled(s, a)
    ensures AllTidy(hash, Apply(hash, s, a)) <==> !LeaksLock(hash, s, a)
  {
    if !a.SessionEnd? {
      StepTidy(hash, s, a);
      var s' := Apply(hash, s, a);
      assert s'.sessions[a.c] == After(hash, s, a);
      assert forall d :: d in s'.sessions && d != a.c ==> s'.sessions[d] == s.sessions[d];
    }
  }

  lemma {:induction false} RunTidy(hash: string -> Key, mode: Mode, s: State, acts: seq<Action>)
    requires Excludes(hash, s) && AllTidy(hash, s) && mode.cleanErrors && Runs(hash, mode, s, acts)
    ensures Excludes(hash, Exec(hash, mode, s, acts)) && AllTidy(hash, Exec(hash, mode, s, acts))
    decreases |acts|
  {
    if acts != [] {
      StepExcludes(hash, s, acts[0]);
      LeakedExactly(hash, s, acts[0]);
      RunTidy(hash, mode, Apply(hash, s, acts[0]), acts[1..]);
    }
  }

  /** A connection in the pool holds nothing. */
  ghost predicate PoolFree(s: State) {
    forall c :: c in s.sessions && s.sessions[c].pc.Idle? ==> Free(s.sessions[c])
  }

  ghost predicate AlwaysPoolFree(hash: string -> Key, mode: Mode) {
    forall acts :: Runs(hash, mode, NOBODY, acts) ==> PoolFree(Exec(hash, mode, NOBODY, acts))
  }

  function Leaking(c: Conn, ns: string): seq<Action> {
    [Acquire(c, Try(ns)), Ask(c, Leaked)]
  }

  /** An error reported after the shared maintenance lock was taken puts the connection back
      with the lock. */
  lemma LeakingWorks(hash: string -> Key, mode: Mode, s: State, c: Conn, ns: string)
    requires !mode.cleanErrors && c !in s.sessions
    requires forall d :: d in s.sessions ==> s.sessions[d].excl == 0 && Waiting(s.sessions[d]) == []
    ensures Runs(hash, mode, s, Leaking(c, ns))
    ensures Exec(hash, mode, s, Leaking(c, ns)) == State(s.sessions[c := Session(Idle, 1, 0, multiset{})], s.ticket + 2)
  {
    var s1 := Apply(hash, s, Acquire(c, Try(ns)));
    assert Grantable(s1, c, Wait(Maintenance(false), s.ticket + 1));
    TwoSteps(hash, mode, s, Acquire(c, Try(ns)), Ask(c, Leaked));
    assert Apply(hash, s1, Ask(c, Leaked)).sessions == s.sessions[c := Session(Idle, 1, 0, multiset{})];
  }

  /** In every run the pool holds nothing, whatever unlock queries do and whichever sessions
      end, exactly when no lock query reports an error after taking effect. */
  lemma PoolFreeExactly(hash: string -> Key, mode: Mode)
    ensures AlwaysPoolFree(hash, mode) <==> mode.cleanErrors
  {
    if mode.cleanErrors {
      forall acts | Runs(hash, mode, NOBODY, acts) ensures PoolFree(Exec(hash, mode, NOBODY, acts)) {
        RunTidy(hash, mode, NOBODY, acts);
      }
    } else {
      LeakingWorks(hash, mode, NOBODY, 0, "n");
      var s := Exec(hash, mode, NOBODY, Leaking(0, "n"));
      assert 0 in s.sessions && s.sessions[0].pc.Idle? && !Free(s.sessions[0]);
    }
  }

  /** The shared maintenance locks a client will give back. */
  function Owned(pc: PC): nat {
    match pc
    case HaveMaintenance(_) => 1
    case WaitNamespace(_, _) => 1
    case Undoing => 1
    case Holding(op) => if op.All? then 0 else 1
    case UnlockNamespace(op) => if op.All? then 0 else 1
    case UnlockMaintenance(op, _) => if op.All? then 0 else 1
    case _ => 0
  }

  /** The session has a shared maintenance lock that nobody will give back. */
  predicate Stray(x: Session) {
    x.shared > Owned(x.pc)
  }

  lemma StepKeepsStray(hash: string -> Key, s: State, a: Action)
    requires Excludes(hash, s) && Enabled(s, a) && a.c in s.sessions && Stray(s.sessions[a.c]) && !a.SessionEnd? && !a.Terminate?
    ensures Stray(After(hash, s, a))
  {
    assert Holds(hash, s.sessions[a.c]);
  }

  /** A stray lock outlives every later use of its connection: until the session ends,
      lock-all is granted to nobody else. */
  lemma {:induction false} StrayBlocksMaintenance(hash: string -> Key, mode: Mode, s: State, acts: seq<Action>, c: Conn, d: Conn, reply: Reply)
    requires Excludes(hash, s) && c in s.sessions && Stray(s.sessions[c]) && Runs(hash, mode, s, acts)
    requires forall a :: a in acts && a.c == c ==> !a.SessionEnd? && !a.Terminate?
    ensures var s' := Exec(hash, mode, s, acts);
            && c in s'.sessions && Stray(s'.sessions[c])
            && (d != c && d in s'.sessions && |Waiting(s'.sessions[d])| == 1 && Waiting(s'.sessions[d])[0].want == Maintenance(true) ==>
                  !Enabled(s', Grant(d, reply)))
    decreases |acts|
  {
    if acts == [] {
      if d != c && d in s.sessions && |Waiting(s.sessions[d])| == 1 && Waiting(s.sessions[d])[0].want == Maintenance(true) {
        assert Blocks(s.sessions[c], Waiting(s.sessions[d])[0].want);
      }
    } else {
      var s' := Apply(hash, s, acts[0]);
      StepExcludes(hash, s, acts[0]);
      if acts[0].c == c {
        assert acts[0] in acts;
        StepKeepsStray(hash, s, acts[0]);
      }
      assert forall a :: a in acts[1..] ==> a in acts;
      StrayBlocksMaintenance(hash, mode, s', acts[1..], c, d, reply);
    }
  }

  function Queueing(c: Conn): seq<Action> {
    [Acquire(c, All), Ask(c, Answered)]
  }

  lemma QueueingWorks(hash: string -> Key, mode: Mode, s: State, c: Conn)
    requires c in s.sessions ==> s.sessions[c].pc.Idle?
    ensures Runs(hash, mode, s, Queueing(c))
    ensures var x := if c in s.sessions then s.sessions[c] else NoLocks(Idle);
            Exec(hash, mode, s, Queueing(c)) == State(s.sessions[c := x.(pc := WaitMaintenance(All, Wait(Maintenance(true), s.ticket + 1)))], s.ticket + 2)
  {
    TwoSteps(hash, mode, s, Acquire(c, All), Ask(c, Answered));
    var x := if c in s.sessions then s.sessions[c] else NoLocks(Idle);
    assert Exec(hash, mode, s, Queueing(c)).sessions == s.sessions[c := x.(pc := WaitMaintenance(All, Wait(Maintenance(true), s.ticket + 1)))];
  }

  /** From the first leak on: session 1 queues for lock-all and, until session 0 ends, is not
      granted it, whatever anybody does. */
  lemma LeakedLockStaysInPool(hash: string -> Key, mode: Mode, ns: string, acts: seq<Action>, reply: Reply)
    requires !mode.cleanErrors
    ensures Runs(hash, mode, NOBODY, Leaking(0, ns) + Queueing(1))
    ensures var s := Exec(hash, mode, NOBODY, Leaking(0, ns) + Queueing(1));
            && s.sessions.Keys == {0, 1} && s.sessions[0].pc.Idle? && s.sessions[1].pc.WaitMaintenance?
            && (Runs(hash, mode, s, acts) && (forall a :: a in acts && a.c == 0 ==> !a.SessionEnd? && !a.Terminate?) ==>
                  var s' := Exec(hash, mode, s, acts);
                  1 in s'.sessions && s'.sessions[1].pc == s.sessions[1].pc ==> !Enabled(s', Grant(1, reply)))
  {
    LeakingWorks(hash, mode, NOBODY, 0, ns);
    var leaked := Exec(hash, mode, NOBODY, Leaking(0, ns));
    QueueingWorks(hash, mode, leaked, 1);
    RunsCompose(hash, mode, NOBODY, Leaking(0, ns), Queueing(1));
    var s := Exec(hash, mode, NOBODY, Leaking(0, ns) + Queueing(1));
    assert s.sessions == map[0 := Session(Idle, 1, 0, multiset{}), 1 := NoLocks(WaitMaintenance(All, Wait(Maintenance(true), 3)))];
    if Runs(hash, mode, s, acts) && forall a :: a in acts && a.c == 0 ==> !a.SessionEnd? && !a.Terminate? {
      RunExcludes(hash, mode, NOBODY, Leaking(0, ns) + Queueing(1));
      StrayBlocksMaintenance(hash, mode, s, acts, 0, 1, reply);
    }
  }

  // ------------------------------------------------ who waits for whom

  /** c is queued for a lock that d holds or has asked for earlier. */
  predicate WaitsFor(s: State, c: Conn, d: Conn) {
    && c in s.sessions && d in s.sessions && c != d
    && exists w :: w in Waiting(s.sessions[c]) && (Blocks(s.sessions[d], w.want) || Ahead(s.sessions[d], w))
  }

  /** Waiting for maintenance ranks above waiting for a namespace, later above earlier. */
  ghost function Rank(s: State, x: Session): nat {
    var q := Waiting(x);
    if q == [] then 0
    else if q[0].want.Namespace? then 1 + q[0].ticket
    else 1 + s.ticket + 1 + q[0].ticket
  }

  predicate Ticketed(s: State, x: Session) {
    && |Waiting(x)| <= 1
    && forall w :: w in Waiting(x) ==> w.ticket < s.ticket
  }

  ghost predicate AllTicketed(s: State) {
    forall c :: c in s.sessions ==> Ticketed(s, s.sessions[c])
  }

  lemma StepTicketed(hash: string -> Key, s: State, a: Action)
    requires AllTicketed(s) && Enabled(s, a)
    ensures AllTicketed(Apply(hash, s, a))
  {
    var s' := Apply(hash, s, a);
    forall d | d in s'.sessions ensures Ticketed(s', s'.sessions[d]) {
      if d != a.c || a.SessionEnd? {
        assert s'.sessions[d] == s.sessions[d] && Ticketed(s, s.sessions[d]);
      } else {
        AfterTicketed(hash, s, a);
      }
    }
  }

  lemma AskedWaits(x: Session, reply: Reply, w: Wait, grant: bool)
    requires x.pc.Start? || x.pc.HaveMaintenance?
    ensures Waiting(Asked(x, reply, w, grant)) == [w] || Waiting(Asked(x, reply, w, grant)) == []
  {
  }

  lemma AfterTicketed(hash: string -> Key, s: State, a: Action)
    requires AllTicketed(s) && Enabled(s, a) && !a.SessionEnd?
    ensures |Waiting(After(hash, s, a))| <= 1
    ensures forall w :: w in Waiting(After(hash, s, a)) ==> w.ticket <= s.ticket
  {
    assert a.c in s.sessions ==> Ticketed(s, s.sessions[a.c]);
    if a.Ask? {
      var w := Wait(Wanted(hash, s.sessions[a.c].pc), s.ticket);
      AskedWaits(s.sessions[a.c], a.reply, w, Grantable(s, a.c, w));
    } else if a.CancelWait? {
      assert Waiting(After(hash, s, a)) == Waiting(s.sessions[a.c]) || Waiting(After(hash, s, a)) == [];
    } else {
      OtherwiseAwake(hash, s, a);
    }
  }

  lemma OtherwiseAwake(hash: string -> Key, s: State, a: Action)
    requires Enabled(s, a) && !a.SessionEnd? && !a.Ask? && !a.CancelWait?
    ensures Waiting(After(hash, s, a)) == []
  {
  }

  /** A wait leads strictly down: nobody holding a namespace lock waits for anything, and
      nobody holding a maintenance lock waits for maintenance. */
  lemma WaitLowersRank(hash: string -> Key, s: State, c: Conn, d: Conn)
    requires Excludes(hash, s) && AllTidy(hash, s) && AllTicketed(s) && WaitsFor(s, c, d)
    ensures Rank(s, s.sessions[d]) < Rank(s, s.sessions[c])
  {
    var x, y := s.sessions[c], s.sessions[d];
    assert Ticketed(s, x) && Ticketed(s, y) && Tidy(hash, x) && Tidy(hash, y) && Holds(hash, y);
    var w :| w in Waiting(x) && (Blocks(y, w.want) || Ahead(y, w));
    assert Waiting(x) == [w];
    if Waiting(y) != [] {
      assert Waiting(y) == [Waiting(y)[0]];
      assert Waiting(y)[0].ticket < s.ticket;
    }
  }

  predicate Chain(s: State, path: seq<Conn>) {
    forall k :: 0 <= k < |path| - 1 ==> WaitsFor(s, path[k], path[k + 1])
  }

  lemma {:induction false} ChainDescends(hash: string -> Key, s: State, path: seq<Conn>)
    requires Excludes(hash, s) && AllTidy(hash, s) && AllTicketed(s) && |path| >= 2 && Chain(s, path)
    ensures path[0] in s.sessions && path[|path| - 1] in s.sessions
    ensures Rank(s, s.sessions[path[|path| - 1]]) < Rank(s, s.sessions[path[0]])
  {
    assert WaitsFor(s, path[0], path[1]);
    WaitLowersRank(hash, s, path[0], path[1]);
    if |path| > 2 {
      forall k | 0 <= k < |path[1..]| - 1 ensures WaitsFor(s, path[1..][k], path[1..][k + 1]) {
        assert WaitsFor(s, path[k + 1], path[k + 2]);
      }
      ChainDescends(hash, s, path[1..]);
    }
  }

  lemma {:induction false} RunTicketed(hash: string -> Key, mode: Mode, s: State, acts: seq<Action>)
    requires AllTicketed(s) && Runs(hash, mode, s, acts)
    ensures AllTicketed(Exec(hash, mode, s, acts))
    decreases |acts|
  {
    if acts != [] {
      StepTicketed(hash, s, acts[0]);
      RunTicketed(hash, mode, Apply(hash, s, acts[0]), acts[1..]);
    }
  }

  /** No run in which lock queries err cleanly ever closes a circle of sessions waiting for
      each other. */
  lemma WaitForIsAcyclic(hash: string -> Key, mode: Mode, acts: seq<Action>, path: seq<Conn>)
    requires mode.cleanErrors && Runs(hash, mode, NOBODY, acts) && |path| >= 2
    requires Chain(Exec(hash, mode, NOBODY, acts), path)
    ensures path[0] != path[|path| - 1]
  {
    RunTidy(hash, mode, NOBODY, acts);
    RunTicketed(hash, mode, NOBODY, acts);
    ChainDescends(hash, Exec(hash, mode, NOBODY, acts), path);
  }

  /** The client or the server can take a step for this session that is not a wait. */
  ghost predicate CanMove(s: State, c: Conn) {
    exists a: Action :: a.c == c && !a.Acquire? && !a.CancelWait? && !a.Terminate? && Enabled(s, a)
  }

  lemma AwakeCanMove(hash: string -> Key, s: State, c: Conn)
    requires Excludes(hash, s) && AllTidy(hash, s) && c in s.sessions && Waiting(s.sessions[c]) == [] && !s.sessions[c].pc.Idle?
    ensures CanMove(s, c)
  {
    var x := s.sessions[c];
    assert Holds(hash, x) && Tidy(hash, x);
    var a := match x.pc
      case Start(_) => Ask(c, Answered)
      case HaveMaintenance(_) => Ask(c, Answered)
      case Holding(_) => Finish(c)
      case Orphaned(_) => Finish(c)
      case UnlockNamespace(_) => UnlockNs(c, Answered)
      case UnlockMaintenance(_, _) => UnlockM(c, Answered)
      case Undoing => Undo(c, Answered)
      case _ => SessionEnd(c);
    assert Enabled(s, a);
  }

  /** Whoever waits, somebody can move: a waiting query can be served, or what it waits for
      leads to a session that is not waiting. */
  lemma {:induction false} SomebodyMoves(hash: string -> Key, s: State, c: Conn) returns (d: Conn)
    requires Excludes(hash, s) && AllTidy(hash, s) && AllTicketed(s) && c in s.sessions && Waiting(s.sessions[c]) != []
    ensures d in s.sessions && CanMove(s, d)
    decreases Rank(s, s.sessions[c])
  {
    var x := s.sessions[c];
    assert Ticketed(s, x);
    var w := Waiting(x)[0];
    if Grantable(s, c, w) {
      d := c;
      assert Enabled(s, Grant(c, Answered));
    } else {
      var e :| e in s.sessions && e != c && (Blocks(s.sessions[e], w.want) || Ahead(s.sessions[e], w));
      assert w in Waiting(x) && WaitsFor(s, c, e);
      WaitLowersRank(hash, s, c, e);
      if Waiting(s.sessions[e]) == [] {
        assert Tidy(hash, s.sessions[e]);
        AwakeCanMove(hash, s, e);
        d := e;
      } else {
        d := SomebodyMoves(hash, s, e);
      }
    }
  }

  /** No deadlock in any run in which lock queries err cleanly. */
  lemma NoDeadlock(hash: string -> Key, mode: Mode, acts: seq<Action>, c: Conn) returns (d: Conn)
    requires mode.cleanErrors && Runs(hash, mode, NOBODY, acts)
    requires var s := Exec(hash, mode, NOBODY, acts); c in s.sessions && Waiting(s.sessions[c]) != []
    ensures d in Exec(hash, mode, NOBODY, acts).sessions && CanMove(Exec(hash, mode, NOBODY, acts), d)
  {
    RunTidy(hash, mode, NOBODY, acts);
    RunTicketed(hash, mode, NOBODY, acts);
    d := SomebodyMoves(hash, Exec(hash, mode, NOBODY, acts), c);
  }

  // ------------------------------------------------ the circle that leaked locks close

  ghost predicate Circular(s: State) {
    exists path :: |path| >= 2 && Chain(s, path) && path[0] == path[|path| - 1]
  }

  /** Somebody waits and nobody can move. */
  ghost predicate Deadlocked(s: State) {
    (exists c :: c in s.sessions && Waiting(s.sessions[c]) != []) && forall d :: d in s.sessions ==> !CanMove(s, d)
  }

  function Circling(ns: string): seq<Action> {
    Leaking(0, ns) + Leaking(1, ns) + Queueing(0) + Queueing(1)
  }

  /** Session c waits for all namespaces, holding the shared maintenance lock. */
  function Knotted(ticket: nat): Session {
    Session(WaitMaintenance(All, Wait(Maintenance(true), ticket)), 1, 0, multiset{})
  }

  lemma CirclingWorks(hash: string -> Key, mode: Mode, ns: string)
    requires !mode.cleanErrors
    ensures Runs(hash, mode, NOBODY, Circling(ns))
    ensures Exec(hash, mode, NOBODY, Circling(ns)).sessions == map[0 := Knotted(5), 1 := Knotted(7)]
  {
    LeakingWorks(hash, mode, NOBODY, 0, ns);
    var s1 := Exec(hash, mode, NOBODY, Leaking(0, ns));
    LeakingWorks(hash, mode, s1, 1, ns);
    RunsCompose(hash, mode, NOBODY, Leaking(0, ns), Leaking(1, ns));
    var s2 := Exec(hash, mode, s1, Leaking(1, ns));
    QueueingWorks(hash, mode, s2, 0);
    RunsCompose(hash, mode, NOBODY, Leaking(0, ns) + Leaking(1, ns), Queueing(0));
    var s3 := Exec(hash, mode, s2, Queueing(0));
    QueueingWorks(hash, mode, s3, 1);
    RunsCompose(hash, mode, NOBODY, Leaking(0, ns) + Leaking(1, ns) + Queueing(0), Queueing(1));
    assert Exec(hash, mode, s3, Queueing(1)).sessions == map[0 := Knotted(5), 1 := Knotted(7)];
  }

  /** Two connections with a leaked lock, both asking for all namespaces, wait for each other. */
  lemma LeaksCloseCircle(s: State)
    requires s.sessions == map[0 := Knotted(5), 1 := Knotted(7)]
    ensures Chain(s, [0, 1, 0]) && Circular(s) && Deadlocked(s)
  {
    var w0, w1 := Wait(Maintenance(true), 5), Wait(Maintenance(true), 7);
    assert w0 in Waiting(s.sessions[0]) && Blocks(s.sessions[1], w0.want);
    assert w1 in Waiting(s.sessions[1]) && Blocks(s.sessions[0], w1.want);
    assert WaitsFor(s, 0, 1) && WaitsFor(s, 1, 0);
    assert Chain(s, [0, 1, 0]);
    assert !Grantable(s, 0, w0) && !Grantable(s, 1, w1);
    assert Waiting(s.sessions[0]) == [w0] && Waiting(s.sessions[1]) == [w1];
  }

  /** The run that fails: both sessions are stuck for good unless a wait is given up or a
      session ends. */
  lemma LeaksDeadlock(hash: string -> Key, mode: Mode, ns: string)
    requires !mode.cleanErrors
    ensures Runs(hash, mode, NOBODY, Circling(ns))
    ensures var s := Exec(hash, mode, NOBODY, Circling(ns)); Chain(s, [0, 1, 0]) && Circular(s) && Deadlocked(s)
  {
    CirclingWorks(hash, mode, ns);
    LeaksCloseCircle(Exec(hash, mode, NOBODY, Circling(ns)));
  }

  ghost predicate AlwaysAcyclic(hash: string -> Key, mode: Mode) {
    forall acts :: Runs(hash, mode, NOBODY, acts) ==> !Circular(Exec(hash, mode, NOBODY, acts))
  }

  ghost predicate NeverDeadlocked(hash: string -> Key, mode: Mode) {
    forall acts :: Runs(hash, mode, NOBODY, acts) ==> !Deadlocked(Exec(hash, mode, NOBODY, acts))
  }

  /** Every run is free of circles exactly when no lock query reports an error after taking
      effect. */
  lemma AcyclicExactly(hash: string -> Key, mode: Mode)
    ensures AlwaysAcyclic(hash, mode) <==> mode.cleanErrors
  {
    if mode.cleanErrors {
      forall acts | Runs(hash, mode, NOBODY, acts) ensures !Circular(Exec(hash, mode, NOBODY, acts)) {
        forall path | |path| >= 2 && Chain(Exec(hash, mode, NOBODY, acts), path) ensures path[0] != path[|path| - 1] {
          WaitForIsAcyclic(hash, mode, acts, path);
        }
      }
    } else {
      LeaksDeadlock(hash, mode, "n");
    }
  }

  /** And free of deadlock exactly then. */
  lemma DeadlockFreeExactly(hash: string -> Key, mode: Mode)
    ensures NeverDeadlocked(hash, mode) <==> mode.cleanErrors
  {
    if mode.cleanErrors {
      forall acts | Runs(hash, mode, NOBODY, acts) ensures !Deadlocked(Exec(hash, mode, NOBODY, acts)) {
        var s := Exec(hash, mode, NOBODY, acts);
        if c :| c in s.sessions && Waiting(s.sessions[c]) != [] {
          var d := NoDeadlock(hash, mode, acts, c);
        }
      }
    } else {
      LeaksDeadlock(hash, mode, "n");
    }
  }
}
