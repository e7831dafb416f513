/** The per-address token bucket in front of the login endpoint. Times are seconds. */
module RateLimiter {

  const BURST: real := 5.0

  const REFILL_EVERY: real := 10.0

  const PRUNE_AFTER: real := 3600.0

  datatype Bucket = Bucket(tokens: real, last: real)

  type Buckets = map<string, Bucket>

  datatype Op = Allow | Blocked | RecordFailure

  datatype Call = Call(op: Op, ip: string, now: real)

  // ------------------------------------------------ one call, as a value

  function Least(x: real, y: real): real {
    if x < y then x else y
  }

  /** Tokens an address would find at `now`; one not on record has a full bucket. */
  function Budget(m: Buckets, ip: string, now: real): real {
    if ip in m then Least(BURST, m[ip].tokens + (now - m[ip].last) / REFILL_EVERY) else BURST
  }

  predicate Prunable(m: Buckets, k: string, ip: string, now: real)
    requires k in m
  {
    k != ip && m[k].tokens >= BURST && now - m[k].last > PRUNE_AFTER
  }

  /** The address's bucket refilled, and long-full others dropped. */
  function Touched(prunes: bool, m: Buckets, ip: string, now: real): Buckets {
    map k | k in m.Keys + {ip} && !(prunes && k in m && Prunable(m, k, ip, now)) ::
      if k == ip then Bucket(Budget(m, ip, now), now) else m[k]
  }

  function Spend(m: Buckets, ip: string): Buckets
    requires ip in m
  {
    m[ip := m[ip].(tokens := m[ip].tokens - 1.0)]
  }

  /** The answer to a call: whether an attempt is allowed, or blocked; a failure has none. */
  function Answer(m: Buckets, c: Call): bool {
    match c.op
    case Allow => Budget(m, c.ip, c.now) >= 1.0
    case Blocked => Budget(m, c.ip, c.now) < 1.0
    case RecordFailure => false
  }

  predicate Spends(m: Buckets, c: Call) {
    !c.op.Blocked? && Budget(m, c.ip, c.now) >= 1.0
  }

  function After(prunes: bool, m: Buckets, c: Call): Buckets {
    var m' := Touched(prunes, m, c.ip, c.now);
    if Spends(m, c) then Spend(m', c.ip) else m'
  }

  // ------------------------------------------------ the limiter

  class Limiter {
    var buckets: Buckets

    constructor ()
      ensures buckets == map[]
    {
      buckets := map[];
    }

    /** Refill the address's bucket and drop others that sat full for over an hour. */
    method BucketLocked(ip: string, now: real)
      modifies this
      ensures buckets == Touched(true, old(buckets), ip, now)
    {
      if ip !in buckets {
        buckets := buckets[ip := Bucket(BURST, now)];
      }
      var b := buckets[ip];
      buckets := buckets[ip := Bucket(Least(BURST, b.tokens + (now - b.last) / REFILL_EVERY), now)];
      var todo := buckets.Keys;
      while todo != {}
        invariant todo <= buckets.Keys && ip in buckets
        invariant buckets[ip] == Bucket(Budget(old(buckets), ip, now), now)
        invariant forall k :: k in buckets && k != ip ==> k in old(buckets) && buckets[k] == old(buckets)[k]
        invariant forall k :: k in buckets && k !in todo && k != ip ==> !Prunable(old(buckets), k, ip, now)
        invariant forall k :: k in old(buckets) && k !in buckets ==> Prunable(old(buckets), k, ip, now)
        decreases todo
      {
        var k :| k in todo;
        todo := todo - {k};
        if k != ip && buckets[k].tokens >= BURST && now - buckets[k].last > PRUNE_AFTER {
          buckets := buckets - {k};
        }
      }
    }

    /** Reserve an attempt. */
    method Allow(ip: string, now: real) returns (ok: bool)
      modifies this
      ensures ok == Answer(old(buckets), Call(Op.Allow, ip, now))
      ensures buckets == After(true, old(buckets), Call(Op.Allow, ip, now))
    {
      BucketLocked(ip, now);
      if buckets[ip].tokens < 1.0 {
        return false;
      }
      buckets := Spend(buckets, ip);
      return true;
    }

    method Blocked(ip: string, now: real) returns (blocked: bool)
      modifies this
      ensures blocked == Answer(old(buckets), Call(Op.Blocked, ip, now))
      ensures buckets == After(true, old(buckets), Call(Op.Blocked, ip, now))
    {
      BucketLocked(ip, now);
      return buckets[ip].tokens < 1.0;
    }

    method RecordFailure(ip: string, now: real)
      modifies this
      ensures buckets == After(true, old(buckets), Call(Op.RecordFailure, ip, now))
    {
      BucketLocked(ip, now);
      if buckets[ip].tokens >= 1.0 {
        buckets := Spend(buckets, ip);
      }
    }
  }

  // ------------------------------------------------ histories

  /** The calls in the order the lock serialises them. Allow reads the clock under the lock,
      the other two before it, so their readings may lag behind those of earlier calls. */
  function Run(prunes: bool, m: Buckets, h: seq<Call>): Buckets {
    if h == [] then m else After(prunes, Run(prunes, m, h[..|h| - 1]), h[|h| - 1])
  }

  function Answers(prunes: bool, m: Buckets, h: seq<Call>): (r: seq<bool>)
    ensures |r| == |h|
  {
    if h == [] then [] else
      var last := |h| - 1;
      Answers(prunes, m, h[..last]) + [Answer(Run(prunes, m, h[..last]), h[last])]
  }

  lemma RunNext(prunes: bool, m: Buckets, h: seq<Call>, c: Call)
    ensures Run(prunes, m, h + [c]) == After(prunes, Run(prunes, m, h), c)
  {
    assert (h + [c])[..|h|] == h;
  }

  function Most(x: real, y: real): real {
    if x < y then y else x
  }

  /** The latest reading among calls 0..k. */
  function Mark(h: seq<Call>, k: nat): real
    requires k < |h|
  {
    if k == 0 then h[0].now else Most(Mark(h, k - 1), h[k].now)
  }

  /** No earlier call has a later reading. */
  predicate Timely(h: seq<Call>, k: nat)
    requires k < |h|
  {
    forall j :: 0 <= j < k ==> h[j].now <= h[k].now
  }

  /** What the lock gives: every Allow is timely. */
  predicate Clocked(h: seq<Call>) {
    forall k :: 0 <= k < |h| && h[k].op.Allow? ==> Timely(h, k)
  }

  lemma {:induction false} MarkAtMost(h: seq<Call>, k: nat, t: real)
    requires k < |h| && forall j :: 0 <= j <= k ==> h[j].now <= t
    ensures Mark(h, k) <= t
  {
    if k > 0 {
      MarkAtMost(h, k - 1, t);
    }
  }

  lemma TimelyMark(h: seq<Call>, k: nat)
    requires k < |h| && Timely(h, k)
    ensures Mark(h, k) == h[k].now
  {
    MarkAtMost(h, k, h[k].now);
  }

  lemma {:induction false} MarkOfPrefix(h: seq<Call>, n: nat, k: nat)
    requires k < n <= |h|
    ensures Mark(h[..n], k) == Mark(h, k)
  {
    if k > 0 {
      MarkOfPrefix(h, n, k - 1);
    }
  }

  // ------------------------------------------------ tokens

  /** At most 5 tokens, and none owed by the latest reading t. */
  predicate Sane(m: Buckets, t: real) {
    forall ip :: ip in m ==> m[ip].tokens <= BURST && m[ip].last <= t && 0.0 <= m[ip].tokens + (t - m[ip].last) / REFILL_EVERY
  }

  lemma AfterSane(prunes: bool, m: Buckets, c: Call, t: real)
    requires Sane(m, t)
    ensures Sane(After(prunes, m, c), Most(t, c.now))
  {
  }

  lemma {:induction false} RunSane(prunes: bool, h: seq<Call>)
    requires h != []
    ensures Sane(Run(prunes, map[], h), Mark(h, |h| - 1))
  {
    var last := |h| - 1;
    if last == 0 {
      assert Run(prunes, map[], h[..0]) == map[];
      AfterSane(prunes, map[], h[0], h[0].now);
    } else {
      RunSane(prunes, h[..last]);
      MarkOfPrefix(h, last, last - 1);
      AfterSane(prunes, Run(prunes, map[], h[..last]), h[last], Mark(h, last - 1));
    }
  }

  /** In every history, with any readings: never more than 5 tokens, never below 0 once the
      bucket is refilled to the latest reading, and so never below 0 after a timely call. */
  lemma TokensInRange(h: seq<Call>, ip: string)
    requires h != [] && ip in Run(true, map[], h)
    ensures var b := Run(true, map[], h)[ip];
            && b.tokens <= 5.0 && b.last <= Mark(h, |h| - 1)
            && 0.0 <= b.tokens + (Mark(h, |h| - 1) - b.last) / 10.0
            && (h[|h| - 1].ip == ip && Timely(h, |h| - 1) ==> 0.0 <= b.tokens)
  {
    RunSane(true, h);
    LastCallStamps(h);
    if Timely(h, |h| - 1) {
      TimelyMark(h, |h| - 1);
    }
    SaneBucket(Run(true, map[], h), ip, Mark(h, |h| - 1));
  }

  lemma SaneBucket(m: Buckets, ip: string, t: real)
    requires Sane(m, t) && ip in m
    ensures m[ip].tokens <= 5.0 && m[ip].last <= t && 0.0 <= m[ip].tokens + (t - m[ip].last) / 10.0
    ensures m[ip].last == t ==> 0.0 <= m[ip].tokens
  {
  }

  lemma LastCallStamps(h: seq<Call>)
    requires h != []
    ensures var c := h[|h| - 1]; c.ip in Run(true, map[], h) && Run(true, map[], h)[c.ip].last == c.now
  {
  }

  /** A call leaves its address below 0 exactly when its reading is further behind the last
      one than the tokens there take to refill. */
  lemma BelowZeroExactly(m: Buckets, c: Call)
    ensures c.ip in After(true, m, c)
    ensures After(true, m, c)[c.ip].tokens < 0.0 <==> c.ip in m && m[c.ip].last - c.now > 10.0 * m[c.ip].tokens
  {
  }

  function FiveAllows(ip: string, now: real): seq<Call> {
    [Call(Allow, ip, now), Call(Allow, ip, now), Call(Allow, ip, now), Call(Allow, ip, now), Call(Allow, ip, now)]
  }

  lemma {:induction false} SameInstant(prunes: bool, m: Buckets, h: seq<Call>, ip: string, now: real)
    requires ip in m && m[ip].last == now && |h| as real <= m[ip].tokens <= BURST
    requires forall k :: 0 <= k < |h| ==> !h[k].op.Blocked? && h[k].ip == ip && h[k].now == now
    ensures ip in Run(prunes, m, h) && Run(prunes, m, h)[ip] == Bucket(m[ip].tokens - |h| as real, now)
  {
    if h != [] {
      SameInstant(prunes, m, h[..|h| - 1], ip, now);
    }
  }

  /** Such a call: five attempts at 10 s, then a failure recorded with a reading of 5 s. */
  lemma LaggingFailureOwes(ip: string)
    ensures var h := FiveAllows(ip, 10.0) + [Call(RecordFailure, ip, 5.0)];
            Clocked(h) && ip in Run(true, map[], h) && Run(true, map[], h)[ip].tokens == -0.5
  {
    var first, rest := [Call(Allow, ip, 10.0)], FiveAllows(ip, 10.0)[1..];
    RunNext(true, map[], [], first[0]);
    assert [] + first == first;
    var m := Run(true, map[], first);
    assert m[ip] == Bucket(4.0, 10.0);
    SameInstant(true, m, rest, ip, 10.0);
    RunConcat(true, map[], first, rest);
    assert first + rest == FiveAllows(ip, 10.0);
    RunNext(true, map[], FiveAllows(ip, 10.0), Call(RecordFailure, ip, 5.0));
  }

  lemma {:induction false} RunConcat(prunes: bool, m: Buckets, h: seq<Call>, g: seq<Call>)
    ensures Run(prunes, m, h + g) == Run(prunes, Run(prunes, m, h), g)
  {
    if g == [] {
      assert h + g == h;
    } else {
      var last := |g| - 1;
      RunConcat(prunes, m, h, g[..last]);
      assert (h + g)[..|h + g| - 1] == h + g[..last];
    }
  }

  // ------------------------------------------------ when pruning can be observed

  /** No reading is more than d seconds behind an earlier one. */
  predicate LagsWithin(h: seq<Call>, d: real) {
    forall j, k :: 0 <= j < k < |h| ==> h[j].now - h[k].now <= d
  }

  /** m is n without some full buckets untouched for over an hour at t. */
  predicate Pruned(m: Buckets, n: Buckets, t: real) {
    && (forall ip :: ip in m ==> ip in n && m[ip] == n[ip])
    && (forall ip :: ip in n && ip !in m ==> n[ip].tokens >= BURST && t - n[ip].last > PRUNE_AFTER)
  }

  lemma AfterPruned(m: Buckets, n: Buckets, c: Call, t: real)
    requires Pruned(m, n, t) && t - c.now <= PRUNE_AFTER
    ensures Answer(m, c) == Answer(n, c) && Pruned(After(true, m, c), After(false, n, c), Most(t, c.now))
  {
    assert Budget(m, c.ip, c.now) == Budget(n, c.ip, c.now);
  }

  lemma {:induction false} RunPruned(h: seq<Call>)
    requires h != [] && LagsWithin(h, PRUNE_AFTER)
    ensures Pruned(Run(true, map[], h), Run(false, map[], h), Mark(h, |h| - 1))
    ensures Answers(true, map[], h) == Answers(false, map[], h)
  {
    var last := |h| - 1;
    if last == 0 {
      assert h[..0] == [];
      AfterPruned(map[], map[], h[0], h[0].now);
    } else {
      RunPruned(h[..last]);
      MarkOfPrefix(h, last, last - 1);
      MarkAtMost(h, last - 1, h[last].now + PRUNE_AFTER);
      AfterPruned(Run(true, map[], h[..last]), Run(false, map[], h[..last]), h[last], Mark(h, last - 1));
    }
  }

  /** Calls that need not be timely, with readings in a range. */
  predicate Between(h: seq<Call>, lo: real, hi: real) {
    forall k :: 0 <= k < |h| ==> !h[k].op.Allow? && lo <= h[k].now <= hi
  }

  /** A full bucket for "a" at 0 is pruned by "b" over an hour later. */
  lemma FullThenPruned(e: real) returns (h: seq<Call>)
    requires e > 0.0
    ensures Between(h, -e, PRUNE_AFTER + e) && "a" !in Run(true, map[], h)
    ensures "a" in Run(false, map[], h) && Run(false, map[], h)["a"] == Bucket(5.0, 0.0)
  {
    var a, b := Call(Blocked, "a", 0.0), Call(Blocked, "b", PRUNE_AFTER + e);
    h := [a] + [b];
    assert [] + [a] == [a];
    forall prunes ensures Run(prunes, map[], h) == After(prunes, After(prunes, map[], a), b) {
      RunNext(prunes, map[], [], a);
      RunNext(prunes, map[], [a], b);
    }
    assert forall prunes :: After(prunes, map[], a)["a"] == Bucket(5.0, 0.0);
  }

  function Failures(n: nat, t: real): seq<Call> {
    seq(n, _ => Call(RecordFailure, "a", t))
  }

  /** Four failures of "a" with a reading from before 0, when "a" has or has not been pruned. */
  lemma FourFailures(prunes: bool, m: Buckets, e: real)
    requires 0.0 < e <= 10.0 && if prunes then "a" !in m else "a" in m && m["a"] == Bucket(5.0, 0.0)
    ensures var m' := Run(prunes, m, Failures(4, -e));
            "a" in m' && m'["a"] == Bucket(if prunes then 1.0 else 1.0 - e / REFILL_EVERY, -e)
  {
    var c := Call(RecordFailure, "a", -e);
    assert Budget(m, "a", -e) == if prunes then 5.0 else 5.0 - e / REFILL_EVERY;
    var m' := After(prunes, m, c);
    assert m'["a"] == Bucket(if prunes then 4.0 else 4.0 - e / REFILL_EVERY, -e);
    assert [] + [c] == [c] && [c] + Failures(3, -e) == Failures(4, -e);
    RunNext(prunes, m, [], c);
    SameInstant(prunes, m', Failures(3, -e), "a", -e);
    RunConcat(prunes, m, [c], Failures(3, -e));
  }

  /** Asking then, the address is blocked unless it was pruned. */
  lemma AskedAfter(prunes: bool, early: seq<Call>, late: seq<Call>, ip: string, now: real, tokens: real)
    requires ip in Run(prunes, Run(prunes, map[], early), late) && tokens <= BURST
    requires Run(prunes, Run(prunes, map[], early), late)[ip] == Bucket(tokens, now)
    ensures Answer(Run(prunes, map[], early + late), Call(Blocked, ip, now)) == (tokens < 1.0)
  {
    RunConcat(prunes, map[], early, late);
  }

  lemma LastAnswer(prunes: bool, h: seq<Call>, c: Call)
    ensures Answers(prunes, map[], h + [c])[|h|] == Answer(Run(prunes, map[], h), c)
  {
    assert (h + [c])[..|h|] == h;
  }

  lemma LateAnswer(prunes: bool, early: seq<Call>, e: real)
    requires 0.0 < e <= 10.0
    requires var m := Run(prunes, map[], early); if prunes then "a" !in m else "a" in m && m["a"] == Bucket(5.0, 0.0)
    ensures Answer(Run(prunes, map[], early + Failures(4, -e)), Call(Blocked, "a", -e)) == !prunes
  {
    FourFailures(prunes, Run(prunes, map[], early), e);
    AskedAfter(prunes, early, Failures(4, -e), "a", -e, if prunes then 1.0 else 1.0 - e / REFILL_EVERY);
  }

  lemma LateRun(e: real) returns (h: seq<Call>)
    requires 0.0 < e <= 10.0
    ensures Between(h, -e, PRUNE_AFTER + e)
    ensures forall prunes :: Answer(Run(prunes, map[], h), Call(Blocked, "a", -e)) == !prunes
  {
    var early := FullThenPruned(e);
    LateAnswer(true, early, e);
    LateAnswer(false, early, e);
    h := early + Failures(4, -e);
  }

  lemma PruningShows(d: real) returns (h: seq<Call>)
    requires d > PRUNE_AFTER
    ensures Clocked(h) && LagsWithin(h, d) && Answers(true, map[], h) != Answers(false, map[], h)
  {
    var e := Least(10.0, (d - PRUNE_AFTER) / 2.0);
    var c := Call(Blocked, "a", -e);
    var late := LateRun(e);
    LastAnswer(true, late, c);
    LastAnswer(false, late, c);
    h := late + [c];
    WithinReadings(h, -e, PRUNE_AFTER + e, d);
  }

  lemma WithinReadings(h: seq<Call>, lo: real, hi: real, d: real)
    requires hi - lo <= d && Between(h, lo, hi)
    ensures Clocked(h) && LagsWithin(h, d)
  {
  }

  ghost predicate PruningUnseen(d: real) {
    forall h :: Clocked(h) && LagsWithin(h, d) ==> Answers(true, map[], h) == Answers(false, map[], h)
  }

  /** Every answer of every history is that of a limiter that never prunes, exactly when no
      reading may lag by more than the hour after which full buckets are dropped. */
  lemma PruningUnobservable(d: real)
    ensures PruningUnseen(d) <==> d <= 3600.0
  {
    if d <= PRUNE_AFTER {
      forall h | Clocked(h) && LagsWithin(h, d) ensures Answers(true, map[], h) == Answers(false, map[], h) {
        if h != [] {
          RunPruned(h);
        }
      }
    } else {
      var h := PruningShows(d);
    }
  }

  // ------------------------------------------------ how many attempts are let through

  /** 1 if call k of a history is an allowed attempt of this address, else 0. */
  function AllowedAt(h: seq<Call>, ip: string, k: nat): nat
    requires k < |h|
  {
    if h[k].op.Allow? && h[k].ip == ip && Answer(Run(true, map[], h[..k]), h[k]) then 1 else 0
  }

  /** Attempts of one address allowed among calls i..j-1 of a history. */
  function Allowed(h: seq<Call>, ip: string, i: nat, j: nat): nat
    requires i <= j <= |h|
  {
    if i == j then 0 else Allowed(h, ip, i, j - 1) + AllowedAt(h, ip, j - 1)
  }

  /** What call k leaves an address with, refilled to the latest reading. */
  function Left(h: seq<Call>, ip: string, k: nat): real
    requires k < |h|
  {
    Budget(Run(true, map[], h[..k + 1]), ip, Mark(h, k))
  }

  /** A bucket holds no more than a burst. */
  function Cap(x: real): real {
    Least(BURST, x)
  }

  /** 1 for an allowed attempt of this address, else 0. */
  function Price(m: Buckets, c: Call, ip: string): real {
    if c.op.Allow? && c.ip == ip && Answer(m, c) then 1.0 else 0.0
  }

  /** An allowed attempt is paid for out of the budget and the refill since. */
  predicate Paid(m: Buckets, m': Buckets, c: Call, t: real, t': real, ip: string) {
    Price(m, c, ip) + Budget(m', ip, t') <= Cap(Budget(m, ip, t) + (t' - t) / REFILL_EVERY)
  }

  lemma AttemptPaid(m: Buckets, m': Buckets, c: Call, t: real, t': real, ip: string)
    requires Sane(m, t) && (c.op.Allow? ==> t <= c.now) && t' == Most(t, c.now) && m' == After(true, m, c)
    ensures Paid(m, m', c, t, t', ip)
  {
    if ip == c.ip {
      AfterOwn(m, c, t');
    }
  }

  /** A bucket after its own call, seen from a later reading. */
  lemma AfterOwn(m: Buckets, c: Call, t: real)
    requires c.now <= t
    ensures Budget(After(true, m, c), c.ip, t) == Least(BURST, Budget(m, c.ip, c.now) - (if Spends(m, c) then 1.0 else 0.0) + (t - c.now) / REFILL_EVERY)
  {
  }

  ghost function Lefts(h: seq<Call>, ip: string): nat -> real {
    (k: nat) => if k < |h| then Left(h, ip, k) else 0.0
  }

  ghost function Allows(h: seq<Call>, ip: string): nat -> nat {
    (k: nat) => if k < |h| then AllowedAt(h, ip, k) else 0
  }

  ghost function Marks(h: seq<Call>): nat -> real {
    (k: nat) => if k < |h| then Mark(h, k) else 0.0
  }

  lemma LeftNonnegative(h: seq<Call>, ip: string, k: nat)
    requires k < |h|
    ensures 0.0 <= Lefts(h, ip)(k)
  {
    RunSane(true, h[..k + 1]);
    MarkOfPrefix(h, k + 1, k);
  }

  /** The state call k finds, and what it makes of it. */
  lemma CallAt(h: seq<Call>, p: nat, k: nat) returns (m: Buckets)
    requires k < |h| && p == k - 1 && Clocked(h)
    ensures m == Run(true, map[], h[..k]) && h[..k] == h[..p + 1] && Run(true, map[], h[..k + 1]) == After(true, m, h[k])
    ensures Sane(m, Mark(h, p)) && (h[k].op.Allow? ==> Mark(h, p) <= h[k].now) && Mark(h, k) == Most(Mark(h, p), h[k].now)
  {
    m := Run(true, map[], h[..k]);
    RunSane(true, h[..k]);
    MarkOfPrefix(h, k, p);
    if h[k].op.Allow? {
      MarkAtMost(h, p, h[k].now);
    }
    assert h[..k + 1] == h[..k] + [h[k]];
    RunNext(true, map[], h[..k], h[k]);
  }

  /** What call k left, read off the states before and after it. */
  lemma LeftAround(h: seq<Call>, ip: string, p: nat, k: nat, m: Buckets, m': Buckets)
    requires k < |h| && p == k - 1 && m == Run(true, map[], h[..p + 1]) && m' == Run(true, map[], h[..k + 1])
    ensures Left(h, ip, p) == Budget(m, ip, Mark(h, p)) && Left(h, ip, k) == Budget(m', ip, Mark(h, k))
  {
  }

  lemma AllowedFrom(h: seq<Call>, ip: string, k: nat, m: Buckets)
    requires k < |h| && m == Run(true, map[], h[..k])
    ensures AllowedAt(h, ip, k) as real == Price(m, h[k], ip)
  {
  }

  lemma StatePaid(h: seq<Call>, ip: string, p: nat, k: nat) returns (m: Buckets, m': Buckets)
    requires k < |h| && p == k - 1 && Clocked(h)
    ensures m == Run(true, map[], h[..k]) == Run(true, map[], h[..p + 1]) && m' == Run(true, map[], h[..k + 1])
    ensures Paid(m, m', h[k], Mark(h, p), Mark(h, k), ip)
  {
    m := CallAt(h, p, k);
    m' := After(true, m, h[k]);
    AttemptPaid(m, m', h[k], Mark(h, p), Mark(h, k), ip);
  }

  lemma CallPaid(h: seq<Call>, ip: string, p: nat, k: nat)
    requires k < |h| && p == k - 1 && Clocked(h)
    ensures AllowedAt(h, ip, k) as real + Left(h, ip, k) <= Cap(Left(h, ip, p) + (Mark(h, k) - Mark(h, p)) / REFILL_EVERY)
  {
    var m, m' := StatePaid(h, ip, p, k);
    LeftAround(h, ip, p, k, m, m');
    AllowedFrom(h, ip, k, m);
  }

  lemma NextPaid(h: seq<Call>, ip: string, p: nat, k: nat)
    requires k < |h| && p == k - 1 && Clocked(h)
    ensures Allows(h, ip)(k) as real + Lefts(h, ip)(k) <= Cap(Lefts(h, ip)(p) + (Marks(h)(k) - Marks(h)(p)) / REFILL_EVERY)
  {
    CallPaid(h, ip, p, k);
  }

  lemma FirstPaid(h: seq<Call>, ip: string, k: nat)
    requires k < |h| && Clocked(h)
    ensures Allows(h, ip)(k) as real + Lefts(h, ip)(k) <= BURST
  {
    if k > 0 {
      NextPaid(h, ip, k - 1, k);
    } else {
      assert h[..0] == [] && h[..1] == h[..0] + [h[0]];
      RunNext(true, map[], h[..0], h[0]);
      AttemptPaid(map[], After(true, map[], h[0]), h[0], h[0].now, h[0].now, ip);
    }
  }

  ghost function Sum(x: nat -> nat, i: nat, j: nat): nat
    requires i <= j
  {
    if i == j then 0 else Sum(x, i, j - 1) + x(j - 1)
  }

  lemma {:induction false} SumIsAllowed(h: seq<Call>, ip: string, i: nat, j: nat)
    requires i <= j <= |h|
    ensures Allowed(h, ip, i, j) == Sum(Allows(h, ip), i, j)
  {
    if i < j {
      SumIsAllowed(h, ip, i, j - 1);
    }
  }

  /** What was allowed plus what is left never exceeds a full bucket plus the refill. */
  lemma {:induction false} Telescopes(x: nat -> nat, left: nat -> real, mark: nat -> real, n: nat, i: nat, j: nat)
    requires i < j <= n
    requires x(i) as real + left(i) <= BURST
    requires forall p: nat, k: nat :: i < k < n && p == k - 1 ==> x(k) as real + left(k) <= left(p) + (mark(k) - mark(p)) / REFILL_EVERY
    ensures Sum(x, i, j) as real + left(j - 1) <= BURST + (mark(j - 1) - mark(i)) / REFILL_EVERY
  {
    if i + 1 < j {
      Telescopes(x, left, mark, n, i, j - 1);
    } else {
      assert Sum(x, i, j) == Sum(x, i, i) + x(i);
    }
  }

  lemma AttemptsAndLeft(h: seq<Call>, ip: string, i: nat, j: nat)
    requires i < j <= |h| && Clocked(h)
    ensures Sum(Allows(h, ip), i, j) as real + Lefts(h, ip)(j - 1) <= BURST + (Marks(h)(j - 1) - Marks(h)(i)) / REFILL_EVERY
  {
    var x, left, mark := Allows(h, ip), Lefts(h, ip), Marks(h);
    FirstPaid(h, ip, i);
    forall p: nat, k: nat | i < k < |h| && p == k - 1 ensures x(k) as real + left(k) <= left(p) + (mark(k) - mark(p)) / REFILL_EVERY {
      NextPaid(h, ip, p, k);
    }
    Telescopes(x, left, mark, |h|, i, j);
  }

  /** In any stretch of any history that begins and ends with a timely call, as every Allow
      is, and lasts T seconds, one address is allowed at most 5 + T/10 attempts, however much
      the readings of Blocked and RecordFailure lag. */
  lemma AttemptsBounded(h: seq<Call>, ip: string, i: nat, j: nat)
    requires i < j <= |h| && Clocked(h) && Timely(h, i) && Timely(h, j - 1)
    ensures Allowed(h, ip, i, j) as real <= 5.0 + (h[j - 1].now - h[i].now) / 10.0
  {
    AttemptsAndLeft(h, ip, i, j);
    SumIsAllowed(h, ip, i, j);
    LeftNonnegative(h, ip, j - 1);
    TimelyMark(h, i);
    TimelyMark(h, j - 1);
  }

  // ------------------------------------------------ exactly which attempts are let through

  /** Call k takes a token of this address: an attempt or a recorded failure that fits. */
  predicate Takes(h: seq<Call>, ip: string, k: nat)
    requires k < |h|
    decreases k, 2
  {
    (h[k].op == Allow || h[k].op == RecordFailure) && h[k].ip == ip && Fits(h, ip, k, h[k].now)
  }

  /** Tokens taken by calls i..j-1. */
  function TakenIn(h: seq<Call>, ip: string, i: nat, j: nat): nat
    requires i <= j <= |h|
    decreases j, 0
  {
    if i == j then 0 else TakenIn(h, ip, i, j - 1) + if Takes(h, ip, j - 1) then 1 else 0
  }

  /** After k calls, one more token at `now` keeps every window that began with a call of this
      address within 5 plus one per ten seconds. */
  predicate Fits(h: seq<Call>, ip: string, k: nat, now: real)
    requires k <= |h|
    decreases k, 1
  {
    forall i: nat | i < k && h[i].ip == ip :: TakenIn(h, ip, i, k) as real + 1.0 <= 5.0 + (now - h[i].now) / 10.0
  }

  /** What a window that began at call i still allows at `now`. */
  function Room(h: seq<Call>, ip: string, i: nat, k: nat, now: real): real
    requires i < k <= |h|
  {
    5.0 + (now - h[i].now) / 10.0 - TakenIn(h, ip, i, k) as real
  }

  /** The budget is the least room of any window of the address, at most 5. */
  ghost predicate LeastRoom(h: seq<Call>, ip: string, k: nat, now: real, b: real)
    requires k <= |h|
  {
    && b <= 5.0 && (forall i: nat :: i < k && h[i].ip == ip ==> b <= Room(h, ip, i, k, now))
    && (b == 5.0 || exists i: nat :: i < k && h[i].ip == ip && b == Room(h, ip, i, k, now))
  }

  lemma RoomFits(h: seq<Call>, ip: string, k: nat, now: real, b: real)
    requires k <= |h| && LeastRoom(h, ip, k, now, b)
    ensures b >= 1.0 <==> Fits(h, ip, k, now)
  {
    if b >= 1.0 {
      forall i: nat | i < k && h[i].ip == ip ensures TakenIn(h, ip, i, k) as real + 1.0 <= 5.0 + (now - h[i].now) / 10.0 {
        assert b <= Room(h, ip, i, k, now);
      }
    } else {
      var i: nat :| i < k && h[i].ip == ip && b == Room(h, ip, i, k, now);
      assert !(TakenIn(h, ip, i, k) as real + 1.0 <= 5.0 + (now - h[i].now) / 10.0);
    }
  }

  /** One more call narrows every window by what it takes, and begins a new one. */
  lemma RoomNext(h: seq<Call>, ip: string, i: nat, k: nat, m: nat, now: real)
    requires i < m <= |h| && m == k + 1
    ensures Room(h, ip, i, m, now) == (if i < k then Room(h, ip, i, k, h[k].now) + (now - h[k].now) / 10.0 else 5.0 + (now - h[k].now) / 10.0)
                                      - (if Takes(h, ip, k) then 1.0 else 0.0)
  {
    assert TakenIn(h, ip, i, m) == TakenIn(h, ip, i, k) + if Takes(h, ip, k) then 1 else 0;
  }

  lemma OwnCall(h: seq<Call>, ip: string, k: nat, m: nat, now: real, b: real, b': real)
    requires m == k + 1 && m <= |h| && h[k].ip == ip && LeastRoom(h, ip, k, h[k].now, b)
    requires b' == Least(5.0, b - (if Takes(h, ip, k) then 1.0 else 0.0) + (now - h[k].now) / 10.0)
    ensures LeastRoom(h, ip, m, now, b')
  {
    forall i: nat | i < m && h[i].ip == ip ensures b' <= Room(h, ip, i, m, now) {
      RoomNext(h, ip, i, k, m, now);
      if i < k {
        assert b <= Room(h, ip, i, k, h[k].now);
      }
    }
    if b' != 5.0 {
      if b == 5.0 {
        RoomNext(h, ip, k, k, m, now);
        assert b' == Room(h, ip, k, m, now);
      } else {
        var i: nat :| i < k && h[i].ip == ip && b == Room(h, ip, i, k, h[k].now);
        RoomNext(h, ip, i, k, m, now);
        assert b' == Room(h, ip, i, m, now);
      }
    }
  }

  lemma OthersCall(h: seq<Call>, ip: string, k: nat, m: nat, now: real, b: real)
    requires m == k + 1 && m <= |h| && h[k].ip != ip && LeastRoom(h, ip, k, now, b)
    ensures LeastRoom(h, ip, m, now, b)
  {
    forall i: nat | i < k ensures Room(h, ip, i, m, now) == Room(h, ip, i, k, now) {
      assert TakenIn(h, ip, i, m) == TakenIn(h, ip, i, k) + if Takes(h, ip, k) then 1 else 0;
    }
    if b != 5.0 {
      var i: nat :| i < k && h[i].ip == ip && b == Room(h, ip, i, k, now);
      assert b == Room(h, ip, i, m, now);
    }
  }

  /** A bucket after a call to a limiter that never prunes, seen from any reading. */
  lemma UnprunedBudget(m: Buckets, c: Call, ip: string, now: real)
    ensures Budget(After(false, m, c), ip, now) ==
            if ip != c.ip then Budget(m, ip, now)
            else Least(5.0, Budget(m, ip, c.now) - (if Spends(m, c) then 1.0 else 0.0) + (now - c.now) / 10.0)
  {
  }

  /** Without pruning the budget found is the least room, whatever the readings. */
  lemma {:induction false} BudgetIsLeastRoom(h: seq<Call>, ip: string, k: nat, now: real)
    requires k <= |h|
    ensures LeastRoom(h, ip, k, now, Budget(Run(false, map[], h[..k]), ip, now))
    decreases k
  {
    if k > 0 {
      var p := k - 1;
      var m, c := Run(false, map[], h[..p]), h[p];
      assert h[..k] == h[..p] + [c];
      RunNext(false, map[], h[..p], c);
      UnprunedBudget(m, c, ip, now);
      if c.ip == ip {
        BudgetIsLeastRoom(h, ip, p, c.now);
        RoomFits(h, ip, p, c.now, Budget(m, ip, c.now));
        OwnCall(h, ip, p, k, now, Budget(m, ip, c.now), Budget(After(false, m, c), ip, now));
      } else {
        BudgetIsLeastRoom(h, ip, p, now);
        OthersCall(h, ip, p, k, now, Budget(m, ip, now));
      }
    }
  }

  lemma SameAnswer(h: seq<Call>, k: nat)
    requires k < |h| && LagsWithin(h, PRUNE_AFTER)
    ensures Answer(Run(true, map[], h[..k]), h[k]) == Answer(Run(false, map[], h[..k]), h[k])
  {
    assert h[..k + 1] == h[..k] + [h[k]];
    RunPruned(h[..k + 1]);
    LastAnswer(true, h[..k], h[k]);
    LastAnswer(false, h[..k], h[k]);
  }

  /** In every history whose readings lag by no more than an hour, an attempt is let through
      exactly when it keeps every window that began with a call of its address within 5 plus
      one per ten seconds, and Blocked says so of the next attempt. */
  lemma AllowedExactly(h: seq<Call>, k: nat)
    requires k < |h| && LagsWithin(h, 3600.0)
    ensures h[k].op == Allow ==> (Answer(Run(true, map[], h[..k]), h[k]) <==> Fits(h, h[k].ip, k, h[k].now))
    ensures h[k].op == Blocked ==> (Answer(Run(true, map[], h[..k]), h[k]) <==> !Fits(h, h[k].ip, k, h[k].now))
  {
    SameAnswer(h, k);
    BudgetIsLeastRoom(h, h[k].ip, k, h[k].now);
    RoomFits(h, h[k].ip, k, h[k].now, Budget(Run(false, map[], h[..k]), h[k].ip, h[k].now));
  }

  lemma {:induction false} TakenWithin(h: seq<Call>, ip: string, i: nat, j: nat)
    requires i <= j <= |h|
    ensures TakenIn(h, ip, i, j) <= TakenIn(h, ip, 0, j)
    decreases j - i
  {
    if i < j {
      TakenWithin(h, ip, i, j - 1);
    }
  }

  /** An address that has taken fewer than five tokens is let through. */
  lemma FirstFiveAllowed(h: seq<Call>, k: nat)
    requires LagsWithin(h, 3600.0) && k < |h| && h[k].op == Allow && Timely(h, k) && TakenIn(h, h[k].ip, 0, k) < 5
    ensures Answer(Run(true, map[], h[..k]), h[k])
  {
    AllowedExactly(h, k);
    forall i: nat | i < k && h[i].ip == h[k].ip ensures TakenIn(h, h[k].ip, i, k) as real + 1.0 <= 5.0 + (h[k].now - h[i].now) / 10.0 {
      TakenWithin(h, h[k].ip, i, k);
      assert h[i].now <= h[k].now;
    }
  }
}
