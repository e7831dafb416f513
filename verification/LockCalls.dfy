/** The lock calls as written, over the shared server state. `noise` is what other sessions
    do between the statements of a call, and `R` any set of states closed under the steps of
    the lock machine: a call, disturbed or not, is a run of that machine. */
module LockCalls {
  import opened ComputeLocks

  ghost predicate Closed(hash: string -> Key, mode: Mode, R: State -> bool) {
    forall s, a :: R(s) && Step(mode, s, a) ==> R(Apply(hash, s, a))
  }

  /** The invariants of the lock machine are such a set. */
  ghost predicate Sound(hash: string -> Key, s: State) {
    Excludes(hash, s) && AllTidy(hash, s) && AllTicketed(s)
  }

  lemma SoundIsClosed(hash: string -> Key, mode: Mode)
    requires mode.cleanErrors
    ensures Closed(hash, mode, s => Sound(hash, s)) && Sound(hash, NOBODY)
  {
    forall s, a | Sound(hash, s) && Step(mode, s, a) ensures Sound(hash, Apply(hash, s, a)) {
      StepExcludes(hash, s, a);
      LeakedExactly(hash, s, a);
      StepTicketed(hash, s, a);
    }
  }

  /** How the outside treats one call: the answers to its queries, how a wait ends. */
  datatype Weather = Weather(maintenance: Reply, namespace: Reply, undo: Reply, waitLost: bool)

  predicate Permitted(mode: Mode, wx: Weather) {
    mode.cleanErrors ==> !wx.maintenance.Leaked? && !wx.namespace.Leaked?
  }

  function At(noise: seq<seq<Action>>, k: nat): seq<Action> {
    if k < |noise| then noise[k] else []
  }

  /** The connection is back in the pool, or closed. */
  predicate Returned(s: State, c: Conn) {
    c in s.sessions && (s.sessions[c].pc.Idle? || s.sessions[c].pc.Dying?)
  }

  predicate Owns(s: State, c: Conn, op: Op) {
    c in s.sessions && s.sessions[c].pc == Holding(op)
  }

  /** Both locks of a namespace could be had, by queries sent in the next and the k-th step. */
  predicate Available(hash: string -> Key, s: State, c: Conn, ns: string, k: nat) {
    Grantable(s, c, Wait(Maintenance(false), s.ticket + 1)) && Grantable(s, c, Wait(Namespace(hash(ns)), s.ticket + k))
  }

  /** Nobody acts between the statements, nor in the first round of a wait. */
  predicate Undisturbed(noise: seq<seq<Action>>, waits: seq<seq<Action>>) {
    noise == [] && waits != [] && waits[0] == []
  }

  /** Nobody but c changed. */
  ghost predicate OthersSame(s: State, s': State, c: Conn) {
    s.sessions - {c} == s'.sessions - {c}
  }

  /** What the others make of s, those of their actions that can be taken. */
  ghost function Meddled(hash: string -> Key, mode: Mode, s: State, c: Conn, acts: seq<Action>): State {
    if acts == [] then s else
      var s', a := Meddled(hash, mode, s, c, acts[..|acts| - 1]), acts[|acts| - 1];
      if a.c != c && Step(mode, s', a) then Apply(hash, s', a) else s'
  }

  ghost function AfterRounds(hash: string -> Key, mode: Mode, s: State, c: Conn, rounds: seq<seq<Action>>, k: nat): State
    requires k <= |rounds|
  {
    if k == 0 then s else Meddled(hash, mode, AfterRounds(hash, mode, s, c, rounds, k - 1), c, rounds[k - 1])
  }

  lemma NotServedYet(hash: string -> Key, mode: Mode, s: State, c: Conn, rounds: seq<seq<Action>>, w: Wait, n: nat, m: nat)
    requires m == n + 1 && m <= |rounds| && !ServedIn(hash, mode, s, c, rounds, w, n) && !Grantable(AfterRounds(hash, mode, s, c, rounds, m), c, w)
    ensures !ServedIn(hash, mode, s, c, rounds, w, m)
  {
  }

  /** Nobody acts in the first round and the lock is free: then it is served in that round. */
  lemma ServedAtOnce(hash: string -> Key, mode: Mode, s: State, c: Conn, rounds: seq<seq<Action>>, w: Wait)
    ensures rounds != [] && rounds[0] == [] ==> AfterRounds(hash, mode, s, c, rounds, 1) == s
    ensures rounds != [] && rounds[0] == [] && Grantable(s, c, w) ==> forall n :: 0 < n <= |rounds| ==> ServedIn(hash, mode, s, c, rounds, w, n)
  {
    if rounds != [] && rounds[0] == [] {
      assert AfterRounds(hash, mode, s, c, rounds, 1) == Meddled(hash, mode, AfterRounds(hash, mode, s, c, rounds, 0), c, rounds[0]);
    }
  }

  /** s once a checked-out connection waits for the maintenance lock. */
  ghost function Enqueued(s: State, c: Conn, op: Op): State {
    var x := if c in s.sessions then s.sessions[c] else NoLocks(Idle);
    State(s.sessions[c := x.(pc := WaitMaintenance(op, Wait(Maintenance(op.All?), s.ticket + 1)))], s.ticket + 2)
  }

  /** In one of the first n rounds what c waits for becomes free. */
  ghost predicate ServedIn(hash: string -> Key, mode: Mode, s: State, c: Conn, rounds: seq<seq<Action>>, w: Wait, n: nat)
    requires n <= |rounds|
  {
    exists k :: 0 < k <= n && Grantable(AfterRounds(hash, mode, s, c, rounds, k), c, w)
  }

  /** The maintenance lock becomes free while the queued query waits. */
  ghost predicate ServedWaiting(hash: string -> Key, mode: Mode, s: State, c: Conn, op: Op, waits: seq<seq<Action>>) {
    ServedIn(hash, mode, Enqueued(s, c, op), c, waits, Wait(Maintenance(op.All?), s.ticket + 1), |waits|)
  }

  /** Somebody else holds or waits for a lock that c would need for the namespace. */
  ghost predicate Contended(hash: string -> Key, s: State, c: Conn, ns: string) {
    exists d :: d in s.sessions && d != c
                && (s.sessions[d].excl > 0 || hash(ns) in s.sessions[d].keys
                    || exists w :: w in Waiting(s.sessions[d]) && (w.want == Maintenance(true) || w.want == Namespace(hash(ns))))
  }

  lemma RefusedIfContended(hash: string -> Key, s: State, c: Conn, ns: string, w: Wait)
    requires !Grantable(s, c, w) && (w.want == Maintenance(false) || w.want == Namespace(hash(ns)))
    ensures Contended(hash, s, c, ns)
  {
    var d :| d in s.sessions && d != c && (Blocks(s.sessions[d], w.want) || Ahead(s.sessions[d], w));
    if Ahead(s.sessions[d], w) {
      var v :| v in Waiting(s.sessions[d]) && v.ticket < w.ticket && Conflict(w.want, v.want);
      assert v.want == Maintenance(true) || v.want == Namespace(hash(ns));
    }
  }

  lemma SameGrantable(s: State, s': State, c: Conn, w: Wait)
    requires OthersSame(s, s', c)
    ensures Grantable(s, c, w) <==> Grantable(s', c, w)
  {
    forall d | d != c ensures (d in s.sessions <==> d in s'.sessions) && (d in s.sessions ==> s.sessions[d] == s'.sessions[d]) {
      assert d in s.sessions <==> d in s.sessions - {c};
      assert d in s'.sessions <==> d in s'.sessions - {c};
    }
  }

  /** What "to be had" means, over the locks themselves: a shared maintenance lock unless some
      other session holds or waits ahead for all namespaces, a namespace lock unless some
      other session holds its key or waits ahead for it. */
  lemma AvailableExactly(hash: string -> Key, s: State, c: Conn, ns: string, k: nat)
    ensures Available(hash, s, c, ns, k) <==>
            forall d :: d in s.sessions && d != c ==>
              && s.sessions[d].excl == 0 && hash(ns) !in s.sessions[d].keys
              && forall w :: w in Waiting(s.sessions[d]) ==>
                   && (w.want == Maintenance(true) ==> w.ticket > s.ticket)
                   && (w.want == Namespace(hash(ns)) ==> w.ticket >= s.ticket + k)
  {
  }

  /** All namespaces, unless some other session holds or waits ahead for any maintenance lock. */
  lemma AllAvailableExactly(s: State, c: Conn, t: nat)
    ensures Grantable(s, c, Wait(Maintenance(true), t)) <==>
            forall d :: d in s.sessions && d != c ==>
              && s.sessions[d].excl == 0 && s.sessions[d].shared == 0
              && forall w :: w in Waiting(s.sessions[d]) && w.want.Maintenance? ==> w.ticket >= t
  {
  }

  class Pool {
    const hash: string -> Key
    const mode: Mode
    var s: State

    constructor (hash: string -> Key, mode: Mode, s: State)
      ensures this.hash == hash && this.mode == mode && this.s == s
    {
      this.hash, this.mode, this.s := hash, mode, s;
    }

    /** One statement, by the client or the server. */
    method Do(a: Action, ghost R: State -> bool)
      requires Step(mode, s, a) && Closed(hash, mode, R) && R(s)
      modifies this
      ensures s == Apply(hash, old(s), a) && R(s)
    {
      s := Apply(hash, s, a);
    }

    method Interfere(c: Conn, acts: seq<Action>, ghost R: State -> bool)
      requires Closed(hash, mode, R) && R(s) && c in s.sessions
      modifies this
      ensures R(s) && c in s.sessions && s.sessions[c] == old(s.sessions[c])
      ensures acts == [] ==> s == old(s)
    {
      Meddle(c, acts, R);
    }

    method Meddle(c: Conn, acts: seq<Action>, ghost R: State -> bool)
      requires Closed(hash, mode, R) && R(s) && c in s.sessions
      modifies this
      ensures R(s) && c in s.sessions && s.sessions[c] == old(s.sessions[c])
      ensures s == Meddled(hash, mode, old(s), c, acts) && (acts == [] ==> s == old(s))
    {
      for k := 0 to |acts|
        invariant R(s) && c in s.sessions && s.sessions[c] == old(s.sessions[c])
        invariant s == Meddled(hash, mode, old(s), c, acts[..k])
      {
        assert acts[..k + 1][..k] == acts[..k];
        if acts[k].c != c && Step(mode, s, acts[k]) {
          Do(acts[k], R);
        }
      }
      assert acts[..|acts|] == acts;
    }

    /** A try-lock query. */
    method TryAsk(c: Conn, reply: Reply, ghost R: State -> bool)
      requires Closed(hash, mode, R) && R(s) && c in s.sessions && (mode.cleanErrors ==> !reply.Leaked?)
      requires (s.sessions[c].pc.Start? || s.sessions[c].pc.HaveMaintenance?) && s.sessions[c].pc.op.Try?
      modifies this
      ensures R(s) && c in s.sessions
      ensures var was, now := old(s.sessions[c].pc), s.sessions[c].pc;
              now.Dying? || now == GiveUp(was) || (reply.Answered? && now == Got(was))
      ensures reply.Answered? ==>
                s.sessions[c].pc == if Grantable(old(s), c, Wait(Wanted(hash, old(s.sessions[c].pc)), old(s.ticket))) then Got(old(s.sessions[c].pc)) else GiveUp(old(s.sessions[c].pc))
      ensures s.ticket == old(s.ticket) + 1 && OthersSame(old(s), s, c)
    {
      Do(Ask(c, reply), R);
    }

    /** Wait until what the query asks for becomes free; `n` is the round in which it does. */
    method WaitRounds(c: Conn, rounds: seq<seq<Action>>, ghost R: State -> bool) returns (free: bool, ghost n: nat)
      requires Closed(hash, mode, R) && R(s) && c in s.sessions && (s.sessions[c].pc.WaitMaintenance? || s.sessions[c].pc.WaitNamespace?)
      modifies this
      ensures R(s) && c in s.sessions && s.sessions[c] == old(s.sessions[c]) && n <= |rounds|
      ensures s == AfterRounds(hash, mode, old(s), c, rounds, n)
      ensures if free then n > 0 && Grantable(s, c, s.sessions[c].pc.wait) && !ServedIn(hash, mode, old(s), c, rounds, old(s.sessions[c].pc.wait), n - 1)
              else !ServedIn(hash, mode, old(s), c, rounds, old(s.sessions[c].pc.wait), |rounds|)
    {
      ghost var wait := s.sessions[c].pc.wait;
      for k := 0 to |rounds|
        invariant R(s) && c in s.sessions && s.sessions[c] == old(s.sessions[c])
        invariant s == AfterRounds(hash, mode, old(s), c, rounds, k)
        invariant !ServedIn(hash, mode, old(s), c, rounds, wait, k)
      {
        Meddle(c, rounds[k], R);
        if Grantable(s, c, s.sessions[c].pc.wait) {
          return true, k + 1;
        }
        NotServedYet(hash, mode, old(s), c, rounds, wait, k, k + 1);
      }
      return false, |rounds|;
    }

    /** A blocking lock query: served as soon as it can be, given up when patience ends. */
    method Await(c: Conn, reply: Reply, lost: bool, noise: seq<seq<Action>>, ghost R: State -> bool)
      requires Closed(hash, mode, R) && R(s) && c in s.sessions && (mode.cleanErrors ==> !reply.Leaked?)
      requires s.sessions[c].pc.WaitMaintenance? || s.sessions[c].pc.WaitNamespace?
      modifies this
      ensures R(s) && c in s.sessions
      ensures var was, now := old(s.sessions[c].pc), s.sessions[c].pc;
              now.Dying? || now == GiveUp(was) || (reply.Answered? && now == Got(was))
      ensures noise != [] && noise[0] == [] && reply.Answered? && Grantable(old(s), c, old(s.sessions[c].pc.wait)) ==>
                s.sessions[c].pc == Got(old(s.sessions[c].pc)) && OthersSame(old(s), s, c) && s.ticket == old(s.ticket) + 1
      ensures reply.Answered? && ServedIn(hash, mode, old(s), c, noise, old(s.sessions[c].pc.wait), |noise|) ==> s.sessions[c].pc == Got(old(s.sessions[c].pc))
    {
      ghost var wait := s.sessions[c].pc.wait;
      var free;
      ghost var n;
      free, n := WaitRounds(c, noise, R);
      ServedAtOnce(hash, mode, old(s), c, noise, wait);
      if free && TookEffect(reply) {
        Do(Grant(c, reply), R);
      } else {
        Do(CancelWait(c, lost), R);
      }
    }

    /** Give the shared maintenance lock back; a failed unlock closes the connection. */
    method ReleaseSharedMaintenanceLock(c: Conn, wx: Weather, noise: seq<seq<Action>>, ghost R: State -> bool)
      requires Closed(hash, mode, R) && R(s) && c in s.sessions && s.sessions[c].pc.Undoing?
      modifies this
      ensures R(s) && Returned(s, c) && (s.sessions[c].pc.Idle? <==> wx.undo.Answered?)
      ensures noise == [] ==> OthersSame(old(s), s, c)
    {
      Interfere(c, At(noise, 2), R);
      Do(Undo(c, wx.undo), R);
    }

    /** Check out a connection and try the shared maintenance lock. */
    method TryMaintenance(c: Conn, ns: string, reply: Reply, noise: seq<seq<Action>>, ghost R: State -> bool) returns (got: bool)
      requires Closed(hash, mode, R) && R(s) && Enabled(s, Acquire(c, Try(ns))) && (mode.cleanErrors ==> !reply.Leaked?)
      modifies this
      ensures R(s) && (if got then c in s.sessions && s.sessions[c].pc == HaveMaintenance(Try(ns)) else Returned(s, c)) && (got ==> reply.Answered?)
      ensures noise == [] ==> OthersSame(old(s), s, c) && s.ticket == old(s.ticket) + 2
      ensures noise == [] && reply.Answered? ==> (got <==> Grantable(old(s), c, Wait(Maintenance(false), old(s.ticket) + 1)))
      ensures reply.Answered? && !got ==> exists st :: R(st) && Contended(hash, st, c, ns)
    {
      Do(Acquire(c, Try(ns)), R);
      SameGrantable(old(s), s, c, Wait(Maintenance(false), old(s.ticket) + 1));
      Interfere(c, At(noise, 0), R);
      ghost var at := s;
      TryAsk(c, reply, R);
      if reply.Answered? && !s.sessions[c].pc.HaveMaintenance? {
        RefusedIfContended(hash, at, c, ns, Wait(Maintenance(false), at.ticket));
      }
      return s.sessions[c].pc.HaveMaintenance?;
    }

    /** With the maintenance lock held, try the namespace lock, or give the first one back. */
    method TryKey(c: Conn, ns: string, wx: Weather, noise: seq<seq<Action>>, ghost R: State -> bool) returns (ok: bool)
      requires Closed(hash, mode, R) && R(s) && c in s.sessions && s.sessions[c].pc == HaveMaintenance(Try(ns)) && Permitted(mode, wx)
      modifies this
      ensures R(s) && (if ok then Owns(s, c, Try(ns)) else Returned(s, c)) && (ok ==> wx.namespace.Answered?)
      ensures noise == [] && wx.namespace.Answered? ==> (ok <==> Grantable(old(s), c, Wait(Namespace(hash(ns)), old(s.ticket))))
      ensures noise == [] ==> OthersSame(old(s), s, c)
      ensures wx.namespace.Answered? && !ok ==> exists st :: R(st) && Contended(hash, st, c, ns)
    {
      Interfere(c, At(noise, 1), R);
      ghost var at := s;
      TryAsk(c, wx.namespace, R);
      if wx.namespace.Answered? && !s.sessions[c].pc.Holding? {
        RefusedIfContended(hash, at, c, ns, Wait(Namespace(hash(ns)), at.ticket));
      }
      if s.sessions[c].pc.Undoing? {
        ReleaseSharedMaintenanceLock(c, wx, noise, R);
        return false;
      }
      return s.sessions[c].pc.Holding?;
    }

    /** True exactly when the caller now holds the namespace; otherwise the connection is back
        or closed. Answered but refused, somebody contended for one of the locks. Undisturbed
        and answered, it succeeds exactly when both locks are to be had. */
    method TryLockNamespace(c: Conn, ns: string, wx: Weather, noise: seq<seq<Action>>, ghost R: State -> bool) returns (ok: bool)
      requires Closed(hash, mode, R) && R(s) && Enabled(s, Acquire(c, Try(ns))) && Permitted(mode, wx)
      modifies this
      ensures R(s) && (if ok then Owns(s, c, Try(ns)) else Returned(s, c))
      ensures ok ==> wx.maintenance.Answered? && wx.namespace.Answered?
      ensures noise == [] && wx.maintenance.Answered? && wx.namespace.Answered? ==> (ok <==> Available(hash, old(s), c, ns, 2))
      ensures noise == [] ==> OthersSame(old(s), s, c)
      ensures wx.maintenance.Answered? && wx.namespace.Answered? && !ok ==> exists st :: R(st) && Contended(hash, st, c, ns)
    {
      var got := TryMaintenance(c, ns, wx.maintenance, noise, R);
      if !got {
        return false;
      }
      if noise == [] {
        SameGrantable(old(s), s, c, Wait(Namespace(hash(ns)), old(s.ticket) + 2));
      }
      ok := TryKey(c, ns, wx, noise, R);
    }

    /** Check out a connection and wait for the maintenance lock, shared or exclusive;
        `waits` is what happens while the query is queued. */
    method WaitForMaintenance(c: Conn, op: Op, wx: Weather, noise: seq<seq<Action>>, waits: seq<seq<Action>>, ghost R: State -> bool) returns (got: bool)
      requires Closed(hash, mode, R) && R(s) && !op.Try? && Enabled(s, Acquire(c, op)) && Permitted(mode, wx)
      modifies this
      ensures R(s) && c in s.sessions && (if got then s.sessions[c].pc == Got(Start(op)) else Returned(s, c))
      ensures Undisturbed(noise, waits) && wx.maintenance.Answered? && Grantable(old(s), c, Wait(Maintenance(op.All?), old(s.ticket) + 1)) ==>
                got && OthersSame(old(s), s, c) && s.ticket == old(s.ticket) + 3
      ensures noise == [] && wx.maintenance.Answered? && ServedWaiting(hash, mode, old(s), c, op, waits) ==> got
    {
      Do(Acquire(c, op), R);
      Interfere(c, At(noise, 0), R);
      Do(Ask(c, Answered), R);
      if noise == [] {
        SameGrantable(old(s), s, c, Wait(Maintenance(op.All?), old(s.ticket) + 1));
        assert s == Enqueued(old(s), c, op);
      }
      Await(c, wx.maintenance, wx.waitLost, waits, R);
      return s.sessions[c].pc == Got(Start(op));
    }

    /** With the maintenance lock held, wait for the namespace lock, or give the first one back. */
    method WaitForKey(c: Conn, ns: string, wx: Weather, noise: seq<seq<Action>>, waits: seq<seq<Action>>, ghost R: State -> bool) returns (ok: bool)
      requires Closed(hash, mode, R) && R(s) && c in s.sessions && s.sessions[c].pc == HaveMaintenance(Block(ns)) && Permitted(mode, wx)
      modifies this
      ensures R(s) && (if ok then Owns(s, c, Block(ns)) else Returned(s, c))
      ensures Undisturbed(noise, waits) && wx.namespace.Answered? && Grantable(old(s), c, Wait(Namespace(hash(ns)), old(s.ticket))) ==> ok
    {
      Interfere(c, At(noise, 1), R);
      Do(Ask(c, Answered), R);
      if noise == [] {
        SameGrantable(old(s), s, c, Wait(Namespace(hash(ns)), old(s.ticket)));
      }
      Await(c, wx.namespace, wx.waitLost, waits, R);
      if s.sessions[c].pc.Undoing? {
        ReleaseSharedMaintenanceLock(c, wx, noise, R);
        return false;
      }
      return s.sessions[c].pc.Holding?;
    }

    /** The blocking variant. Undisturbed and answered, it gets locks that are to be had. */
    method LockNamespace(c: Conn, ns: string, wx: Weather, noise: seq<seq<Action>>, waits: seq<seq<Action>>, ghost R: State -> bool) returns (ok: bool)
      requires Closed(hash, mode, R) && R(s) && Enabled(s, Acquire(c, Block(ns))) && Permitted(mode, wx)
      modifies this
      ensures R(s) && (if ok then Owns(s, c, Block(ns)) else Returned(s, c))
      ensures Undisturbed(noise, waits) && wx.maintenance.Answered? && wx.namespace.Answered? && Available(hash, old(s), c, ns, 3) ==> ok
    {
      var got := WaitForMaintenance(c, Block(ns), wx, noise, waits, R);
      if !got {
        return false;
      }
      if OthersSame(old(s), s, c) {
        SameGrantable(old(s), s, c, Wait(Namespace(hash(ns)), old(s.ticket) + 3));
      }
      ok := WaitForKey(c, ns, wx, noise, waits, R);
    }

    method LockAllNamespaces(c: Conn, wx: Weather, noise: seq<seq<Action>>, waits: seq<seq<Action>>, ghost R: State -> bool) returns (ok: bool)
      requires Closed(hash, mode, R) && R(s) && Enabled(s, Acquire(c, All)) && Permitted(mode, wx)
      modifies this
      ensures R(s) && (if ok then Owns(s, c, All) else Returned(s, c))
      ensures Undisturbed(noise, waits) && wx.maintenance.Answered? && Grantable(old(s), c, Wait(Maintenance(true), old(s.ticket) + 1)) ==> ok
      ensures noise == [] && wx.maintenance.Answered? && ServedWaiting(hash, mode, old(s), c, All, waits) ==> ok
    {
      ok := WaitForMaintenance(c, All, wx, noise, waits, R);
    }

    /** The last unlock of a release: back to the pool unless it or an earlier one failed. */
    method UnlockLast(c: Conn, reply: Reply, acts: seq<Action>, ghost R: State -> bool)
      requires Closed(hash, mode, R) && R(s) && c in s.sessions && s.sessions[c].pc.UnlockMaintenance?
      modifies this
      ensures R(s) && Returned(s, c) && (s.sessions[c].pc.Idle? <==> reply.Answered? && !old(s.sessions[c].pc.failed))
      ensures acts == [] ==> OthersSame(old(s), s, c)
    {
      Interfere(c, acts, R);
      Do(UnlockM(c, reply), R);
    }

    /** Unlock the namespace; false when the connection is lost. */
    method UnlockFirst(c: Conn, reply: Reply, acts: seq<Action>, ghost R: State -> bool) returns (goOn: bool)
      requires Closed(hash, mode, R) && R(s) && c in s.sessions && s.sessions[c].pc.UnlockNamespace? && !s.sessions[c].pc.op.All?
      modifies this
      ensures R(s) && c in s.sessions && goOn == !reply.Lost?
      ensures s.sessions[c].pc == if goOn then UnlockMaintenance(old(s.sessions[c].pc.op), !reply.Answered?) else Dying([])
      ensures acts == [] ==> OthersSame(old(s), s, c)
    {
      Interfere(c, acts, R);
      Do(UnlockNs(c, reply), R);
      goOn := !reply.Lost?;
    }

    /** The release closures: unlock the namespace, then maintenance; any failure closes the
        connection, so only a connection whose every unlock succeeded returns to the pool. */
    method Release(c: Conn, op: Op, ns: Reply, maintenance: Reply, noise: seq<seq<Action>>, ghost R: State -> bool)
      requires Closed(hash, mode, R) && R(s) && Owns(s, c, op)
      modifies this
      ensures R(s) && Returned(s, c)
      ensures s.sessions[c].pc.Idle? <==> maintenance.Answered? && (op.All? || ns.Answered?)
      ensures noise == [] ==> OthersSame(old(s), s, c)
    {
      Do(Finish(c), R);
      if !op.All? {
        var goOn := UnlockFirst(c, ns, At(noise, 0), R);
        if !goOn {
          return;
        }
      }
      UnlockLast(c, maintenance, At(noise, 1), R);
    }

    /** Run work under the namespace's lifecycle lease and compute lock. The work is done only
        with both; afterwards the connection is back or closed. Undisturbed and answered, it is
        done exactly when leased and both locks are to be had. `locked` is the state in which
        the work begins and `during` the one in which it ends, others acting meanwhile. */
    method WithNamespaceLocks(c: Conn, ns: string, leased: bool, wx: Weather, unlockNs: Reply, unlockM: Reply,
                              noise: seq<seq<Action>>, work: seq<Action>, ghost R: State -> bool) returns (ran: bool, ghost locked: State, ghost during: State)
      requires Closed(hash, mode, R) && R(s) && Enabled(s, Acquire(c, Try(ns))) && Permitted(mode, wx)
      modifies this
      ensures R(s) && (!leased ==> !ran && s == old(s)) && (leased ==> Returned(s, c))
      ensures ran ==> leased && wx.maintenance.Answered? && wx.namespace.Answered?
      ensures leased && wx.maintenance.Answered? && wx.namespace.Answered? && !ran ==> exists st :: R(st) && Contended(hash, st, c, ns)
      ensures ran ==> R(locked) && R(during) && Owns(locked, c, Try(ns)) && Owns(during, c, Try(ns)) && during == Meddled(hash, mode, locked, c, work)
      ensures ran ==> (s.sessions[c].pc.Idle? <==> unlockNs.Answered? && unlockM.Answered?)
      ensures noise == [] && leased && wx.maintenance.Answered? && wx.namespace.Answered? ==> (ran <==> Available(hash, old(s), c, ns, 2))
      ensures noise == [] && ran ==> OthersSame(old(s), locked, c) && OthersSame(during, s, c)
    {
      locked, during := s, s;
      if !leased {
        return false, s, s;
      }
      ran := TryLockNamespace(c, ns, wx, noise, R);
      if ran {
        locked := s;
        Meddle(c, work, R);
        during := s;
        Release(c, Try(ns), unlockNs, unlockM, noise, R);
      }
    }
  }
}
