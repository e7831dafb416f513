/** Namespace credentials checked through a short memory of rejected ones. Times are seconds. */
module NegativeCache {

  const TTL: real := 30.0

  // ------------------------------------------------ the uncached check

  datatype Lookup = LookupFailed | KeyHash(hash: string)

  datatype Verdict = Verdict(valid: bool, definitive: bool)

  /** Digest equality and the slow hash comparison, left abstract. */
  datatype Crypto = Crypto(digest: string -> nat, matches: (string, string) -> bool)

  /** An accepted token is the admin key or matches the stored hash. Only a failed lookup
      leaves the question open. */
  function Validate(crypto: Crypto, token: string, adminKey: string, lookup: Lookup): (v: Verdict)
    ensures v.valid ==> v.definitive && token != ""
    ensures v.valid <==> token != "" && ((adminKey != "" && crypto.digest(token) == crypto.digest(adminKey))
                                          || (lookup.KeyHash? && lookup.hash != "" && crypto.matches(lookup.hash, token)))
    ensures !v.definitive ==> lookup.LookupFailed?
    ensures lookup.LookupFailed? && !v.valid && token != "" ==> !v.definitive
  {
    if token == "" then Verdict(false, true)
    else if adminKey != "" && crypto.digest(token) == crypto.digest(adminKey) then Verdict(true, true)
    else
      match lookup
      case LookupFailed => Verdict(false, false)
      case KeyHash(hash) => if hash == "" then Verdict(false, true) else Verdict(crypto.matches(hash, token), true)
  }

  // ------------------------------------------------ keys

  function Join(token: string, ns: string): string {
    ns + ['\0'] + token
  }

  predicate NulFree(s: string) {
    '\0' !in s
  }

  lemma NoNulAfterSeparator(token: string, ns: string)
    requires NulFree(token)
    ensures forall i :: |ns| < i < |Join(token, ns)| ==> Join(token, ns)[i] != '\0'
  {
    forall i | |ns| < i < |Join(token, ns)| ensures Join(token, ns)[i] != '\0' {
      assert Join(token, ns)[i] == token[i - |ns| - 1];
    }
  }

  /** The key names the pair: the last NUL is the separator. */
  lemma JoinInjective(token: string, ns: string, token': string, ns': string)
    requires NulFree(token) && NulFree(token') && Join(token, ns) == Join(token', ns')
    ensures token == token' && ns == ns'
  {
    var s := Join(token, ns);
    NoNulAfterSeparator(token, ns);
    NoNulAfterSeparator(token', ns');
    assert s[|ns|] == '\0' && s[|ns'|] == '\0';
    assert ns == s[..|ns|] && ns' == s[..|ns'|] && token == s[|ns| + 1..] && token' == s[|ns'| + 1..];
  }

  // ------------------------------------------------ the cache

  type Entries = map<nat, real>

  predicate Live(m: Entries, key: nat, now: real) {
    key in m && now <= m[key]
  }

  function AfterHit(m: Entries, key: nat, now: real): Entries {
    if key in m && now > m[key] then m - {key} else m
  }

  function AfterPut(m: Entries, key: nat, now: real): Entries {
    (map k | k in m && now <= m[k] :: m[k])[key := now + TTL]
  }

  class Cache {
    const digest: string -> nat
    var entries: Entries

    constructor (digest: string -> nat)
      ensures this.digest == digest && entries == map[]
    {
      this.digest, this.entries := digest, map[];
    }

    method Hit(token: string, ns: string, now: real) returns (hit: bool)
      modifies this
      ensures hit == Live(old(entries), digest(Join(token, ns)), now)
      ensures entries == AfterHit(old(entries), digest(Join(token, ns)), now)
    {
      var key := digest(Join(token, ns));
      if key !in entries {
        return false;
      }
      if now > entries[key] {
        entries := entries - {key};
        return false;
      }
      return true;
    }

    /** Remember a rejection; entries that have expired are dropped on the way. */
    method Put(token: string, ns: string, now: real)
      modifies this
      ensures entries == AfterPut(old(entries), digest(Join(token, ns)), now)
    {
      var todo := entries.Keys;
      while todo != {}
        invariant todo <= old(entries).Keys
        invariant forall k :: k in entries ==> k in old(entries) && entries[k] == old(entries)[k]
        invariant forall k :: k in entries && k !in todo ==> now <= entries[k]
        invariant forall k :: k in old(entries) && now <= old(entries)[k] ==> k in entries
        decreases todo
      {
        var k :| k in todo;
        todo := todo - {k};
        if k in entries && now > entries[k] {
          entries := entries - {k};
        }
      }
      entries := entries[digest(Join(token, ns)) := now + TTL];
    }

    /** A request's decision: `lookedAt` and `noted` are the clock before the check and when a
        rejection is noted. */
    method RequireNamespace(crypto: Crypto, token: string, ns: string, adminKey: string, lookup: Lookup, lookedAt: real, noted: real) returns (accepted: bool)
      requires crypto.digest == digest
      modifies this
      ensures accepted <==> Validate(crypto, token, adminKey, lookup).valid && !Live(old(entries), digest(Join(token, ns)), lookedAt)
      ensures var key, checked := digest(Join(token, ns)), AfterHit(old(entries), digest(Join(token, ns)), lookedAt);
              entries == if Live(old(entries), key, lookedAt) || Validate(crypto, token, adminKey, lookup) != Verdict(false, true)
                         then checked else AfterPut(checked, key, noted)
    {
      var hit := Hit(token, ns, lookedAt);
      if hit {
        return false;
      }
      var v := Validate(crypto, token, adminKey, lookup);
      if !v.valid && v.definitive {
        Put(token, ns, noted);
      }
      return v.valid;
    }
  }

  // ------------------------------------------------ every interleaving of requests

  /** A request and what the uncached check says of it. */
  datatype Request = Request(token: string, ns: string, verdict: Verdict)

  /** The cache's steps, in the order its lock serialises them. A lookup reads the clock under
      the lock; a rejection is noted with a reading taken before the lock, so its time may be
      older than that of an earlier event. */
  datatype Event = Looked(req: Request, now: real) | Noted(req: Request, now: real)

  function Key(digest: string -> nat, r: Request): nat {
    digest(Join(r.token, r.ns))
  }

  function Replay(digest: string -> nat, h: seq<Event>): Entries {
    if h == [] then map[] else
      var m, e := Replay(digest, h[..|h| - 1]), h[|h| - 1];
      if e.Looked? then AfterHit(m, Key(digest, e.req), e.now) else AfterPut(m, Key(digest, e.req), e.now)
  }

  /** Event j notes the key. */
  predicate Notes(digest: string -> nat, h: seq<Event>, j: nat, key: nat) {
    j < |h| && h[j].Noted? && Key(digest, h[j].req) == key
  }

  /** Key was noted among the first n events, no more than 30 seconds before `now`. */
  predicate NotedWithin(digest: string -> nat, h: seq<Event>, n: nat, key: nat, now: real)
    requires n <= |h|
  {
    exists j: nat :: j < n && Notes(digest, h, j, key) && now <= h[j].now + TTL
  }

  /** In every history, with any readings: only keys noted in the last 30 seconds are live. */
  lemma {:induction false} RemembersOnly(digest: string -> nat, h: seq<Event>, key: nat, now: real)
    requires Live(Replay(digest, h), key, now)
    ensures NotedWithin(digest, h, |h|, key, now)
  {
    if h != [] {
      var last := |h| - 1;
      if Notes(digest, h, last, key) {
        assert Replay(digest, h)[key] == h[last].now + TTL;
      } else {
        RemembersOnly(digest, h[..last], key, now);
        var j: nat :| j < last && Notes(digest, h[..last], j, key) && now <= h[..last][j].now + TTL;
        assert Notes(digest, h, j, key);
      }
    }
  }

  /** Event j is the last to note the key. */
  predicate LastNote(digest: string -> nat, h: seq<Event>, j: nat, key: nat) {
    Notes(digest, h, j, key) && forall i: nat :: j < i < |h| ==> !Notes(digest, h, i, key)
  }

  /** At a time no earlier than any reading, the cache remembers exactly the keys whose last
      note is within 30 seconds: neither pruning nor the deletion of an expired entry loses a
      live one, even when the pruning call's reading is old. */
  lemma {:induction false} RemembersLastNote(digest: string -> nat, h: seq<Event>, key: nat, now: real)
    requires forall k :: 0 <= k < |h| ==> h[k].now <= now
    ensures Live(Replay(digest, h), key, now) <==> exists j: nat :: LastNote(digest, h, j, key) && now <= h[j].now + TTL
  {
    if h != [] {
      var last := |h| - 1;
      if Notes(digest, h, last, key) {
        assert Replay(digest, h)[key] == h[last].now + TTL;
        assert LastNote(digest, h, last, key);
        assert forall j: nat :: LastNote(digest, h, j, key) ==> j == last;
      } else {
        RemembersLastNote(digest, h[..last], key, now);
        LastNoteStays(digest, h, key);
      }
    }
  }

  lemma LastNoteStays(digest: string -> nat, h: seq<Event>, key: nat)
    requires |h| > 0 && !Notes(digest, h, |h| - 1, key)
    ensures forall j: nat :: LastNote(digest, h, j, key) <==> LastNote(digest, h[..|h| - 1], j, key)
  {
    var p := h[..|h| - 1];
    forall j: nat ensures Notes(digest, h, j, key) <==> Notes(digest, p, j, key) {
    }
    forall j: nat ensures LastNote(digest, h, j, key) <==> LastNote(digest, p, j, key) {
      if LastNote(digest, p, j, key) {
        assert forall i: nat :: j < i < |h| ==> !Notes(digest, h, i, key);
      }
    }
  }

  lemma {:induction false} SomeLastNote(digest: string -> nat, h: seq<Event>, key: nat, i: nat) returns (j: nat)
    requires Notes(digest, h, i, key)
    ensures i <= j && LastNote(digest, h, j, key)
    decreases |h| - i
  {
    if k: nat :| i < k < |h| && Notes(digest, h, k, key) {
      j := SomeLastNote(digest, h, key, k);
    } else {
      j := i;
    }
  }

  /** The last note of the key does not replace a newer reading that is still live at t. */
  ghost predicate LastNoteStands(digest: string -> nat, h: seq<Event>, key: nat, t: real) {
    forall i: nat, j: nat :: i < j && Notes(digest, h, i, key) && LastNote(digest, h, j, key) ==>
      h[i].now <= h[j].now || h[i].now + TTL < t
  }

  /** From t on, no earlier than any reading, the cache remembers exactly the keys noted in the
      last 30 seconds if and only if the last note of the key stands. */
  lemma RemembersExactly(digest: string -> nat, h: seq<Event>, key: nat, t: real)
    requires forall k :: 0 <= k < |h| ==> h[k].now <= t
    ensures (forall now :: t <= now ==> (Live(Replay(digest, h), key, now) <==> NotedWithin(digest, h, |h|, key, now)))
              <==> LastNoteStands(digest, h, key, t)
  {
    if LastNoteStands(digest, h, key, t) {
      forall now | t <= now ensures Live(Replay(digest, h), key, now) <==> NotedWithin(digest, h, |h|, key, now) {
        RemembersLastNote(digest, h, key, now);
        if NotedWithin(digest, h, |h|, key, now) {
          var i: nat :| i < |h| && Notes(digest, h, i, key) && now <= h[i].now + TTL;
          var j := SomeLastNote(digest, h, key, i);
        }
      }
    } else {
      var i: nat, j: nat :| i < j && Notes(digest, h, i, key) && LastNote(digest, h, j, key) && h[i].now > h[j].now && h[i].now + TTL >= t;
      var now := h[i].now + TTL;
      RemembersLastNote(digest, h, key, now);
      assert forall k: nat :: LastNote(digest, h, k, key) ==> k == j;
      assert NotedWithin(digest, h, |h|, key, now);
    }
  }

  // ------------------------------------------------ the cached decision

  /** The cached decision of the request looked up at event k. */
  predicate Accepts(digest: string -> nat, h: seq<Event>, k: nat)
    requires k < |h| && h[k].Looked?
  {
    h[k].req.verdict.valid && !Live(Replay(digest, h[..k]), Key(digest, h[k].req), h[k].now)
  }

  /** Only definitive rejections are noted. */
  predicate Definitive(h: seq<Event>) {
    forall k :: 0 <= k < |h| && h[k].Noted? ==> h[k].req.verdict == Verdict(false, true)
  }

  /** Distinct pairs have distinct keys. */
  ghost predicate Distinguishes(digest: string -> nat, h: seq<Event>) {
    && (forall s, s' :: digest(s) == digest(s') ==> s == s')
    && (forall j :: 0 <= j < |h| ==> NulFree(h[j].req.token))
  }

  /** A lookup reads the clock under the lock: no event before it has a later reading. */
  predicate Clocked(h: seq<Event>) {
    forall j, k :: 0 <= j < k < |h| && h[k].Looked? ==> h[j].now <= h[k].now
  }

  /** The very same pair was definitively rejected at event j, at most 30 seconds before event k. */
  predicate RejectedBefore(h: seq<Event>, j: nat, k: nat)
    requires j < k < |h|
  {
    h[j].Noted? && h[j].req.token == h[k].req.token && h[j].req.ns == h[k].req.ns && h[j].req.verdict == Verdict(false, true)
    && h[k].now - h[j].now <= 30.0
  }

  lemma SameKey(digest: string -> nat, h: seq<Event>, j: nat, k: nat)
    requires j < k < |h| && Definitive(h) && Distinguishes(digest, h)
    ensures RejectedBefore(h, j, k) <==> Notes(digest, h[..k], j, Key(digest, h[k].req)) && h[k].now <= h[j].now + TTL
  {
    if h[j].Noted? && Key(digest, h[j].req) == Key(digest, h[k].req) {
      JoinInjective(h[j].req.token, h[j].req.ns, h[k].req.token, h[k].req.ns);
    }
  }

  /** The cached check refines the uncached one in every interleaving, with any readings:
      what it accepts the uncached check accepts now, and a valid request it refuses is one of
      a pair definitively rejected in the last 30 s. */
  lemma CachedRefinesUncached(digest: string -> nat, h: seq<Event>, k: nat)
    requires k < |h| && h[k].Looked? && Definitive(h) && Distinguishes(digest, h)
    ensures Accepts(digest, h, k) ==> h[k].req.verdict.valid
    ensures h[k].req.verdict.valid && !Accepts(digest, h, k) ==> exists j :: 0 <= j < k && RejectedBefore(h, j, k)
  {
    var key, now := Key(digest, h[k].req), h[k].now;
    if Live(Replay(digest, h[..k]), key, now) {
      RemembersOnly(digest, h[..k], key, now);
      var j: nat :| j < k && Notes(digest, h[..k], j, key) && now <= h[..k][j].now + TTL;
      SameKey(digest, h, j, k);
      assert RejectedBefore(h, j, k);
    }
  }

  /** And exactly, in every interleaving the lock allows: a valid request is refused if and
      only if the last rejection of its pair to be noted is at most 30 s old. */
  lemma CachedDecisionExactly(digest: string -> nat, h: seq<Event>, k: nat)
    requires k < |h| && h[k].Looked? && Definitive(h) && Distinguishes(digest, h) && Clocked(h)
    ensures Accepts(digest, h, k) <==>
            h[k].req.verdict.valid && !exists j: nat :: j < k && LastNote(digest, h[..k], j, Key(digest, h[k].req)) && RejectedBefore(h, j, k)
  {
    var key, now := Key(digest, h[k].req), h[k].now;
    RemembersLastNote(digest, h[..k], key, now);
    forall j: nat | j < k ensures RejectedBefore(h, j, k) <==> Notes(digest, h[..k], j, key) && now <= h[j].now + TTL {
      SameKey(digest, h, j, k);
    }
    if j: nat :| LastNote(digest, h[..k], j, key) && now <= h[..k][j].now + TTL {
      assert h[..k][j] == h[j] && RejectedBefore(h, j, k);
    }
    if j: nat :| j < k && LastNote(digest, h[..k], j, key) && RejectedBefore(h, j, k) {
      assert h[..k][j] == h[j];
    }
  }

  /** The last note of the pair before event k is recent if any is. */
  predicate NoLaggingNote(digest: string -> nat, h: seq<Event>, k: nat)
    requires k < |h|
  {
    forall i: nat, j: nat :: i < k && j < k && RejectedBefore(h, i, k) && LastNote(digest, h[..k], j, Key(digest, h[k].req)) ==>
      h[k].now <= h[j].now + TTL
  }

  /** A valid request is refused exactly when its pair was rejected in the last 30 s, if and
      only if no note with an older, expired reading has replaced that rejection. */
  lemma RecentRejectionRefused(digest: string -> nat, h: seq<Event>, k: nat)
    requires k < |h| && h[k].Looked? && h[k].req.verdict.valid && Definitive(h) && Distinguishes(digest, h) && Clocked(h)
    ensures (Accepts(digest, h, k) <==> !exists j :: 0 <= j < k && RejectedBefore(h, j, k)) <==> NoLaggingNote(digest, h, k)
  {
    var key := Key(digest, h[k].req);
    CachedDecisionExactly(digest, h, k);
    CachedRefinesUncached(digest, h, k);
    forall j: nat | j < k ensures RejectedBefore(h, j, k) <==> Notes(digest, h[..k], j, key) && h[k].now <= h[j].now + TTL {
      SameKey(digest, h, j, k);
    }
    if i: nat :| i < k && RejectedBefore(h, i, k) {
      var j := SomeLastNote(digest, h[..k], key, i);
      assert forall j': nat :: LastNote(digest, h[..k], j', key) ==> j' == j;
      if Accepts(digest, h, k) {
        assert !RejectedBefore(h, j, k);
      } else {
        assert RejectedBefore(h, j, k);
      }
    }
  }

  /** Such a note: a rejection 29.95 s old is forgotten because one with an older reading was
      noted after it. */
  lemma LaggingNoteForgets(digest: string -> nat, token: string, ns: string)
    ensures var bad, good := Request(token, ns, Verdict(false, true)), Request(token, ns, Verdict(true, true));
            var h := [Noted(bad, 100.0), Noted(bad, 99.9), Looked(good, 129.95)];
            Definitive(h) && Clocked(h) && Accepts(digest, h, 2) && RejectedBefore(h, 0, 2) && !NoLaggingNote(digest, h, 2)
  {
    var bad, good := Request(token, ns, Verdict(false, true)), Request(token, ns, Verdict(true, true));
    var h := [Noted(bad, 100.0), Noted(bad, 99.9), Looked(good, 129.95)];
    var key := Key(digest, good);
    assert Notes(digest, h[..2], 1, key);
    assert LastNote(digest, h[..2], 1, key);
    RemembersLastNote(digest, h[..2], key, 129.95);
    assert forall j: nat :: LastNote(digest, h[..2], j, key) ==> j == 1;
    assert RejectedBefore(h, 0, 2);
  }
}
