/** Deleting one namespace and resetting the application: durable lifecycle records over a
    table, a key store and a vector store, where any call may fail, with or without having
    taken effect, and whatever is left behind is finished by a retry. A crash is a failure
    of every call that would have followed. */
module NamespaceDelete {

  datatype NsState = Active | Deleting | Deleted

  datatype Lifecycle = Lifecycle(generation: nat, state: NsState)

  datatype SystemState = SystemActive | Resetting

  datatype Reply = Done | Broken(effect: bool)

  datatype Kind = Subjects | Objects | SubjectsDense | ObjectsDense

  const KINDS: seq<Kind> := [Subjects, Objects, SubjectsDense, ObjectsDense]

  // ------------------------------------------------ physical names

  /** Decimal numerals and base64url, left abstract. */
  datatype Text = Text(decimal: nat -> string, base64: string -> string)

  function RedisNamespace(text: Text, ns: string, gen: nat): string {
    if gen < 2 then ns else ns + ":g" + text.decimal(gen)
  }

  function QdrantNamespace(text: Text, ns: string, gen: nat): string {
    if gen < 2 then ns else ns + "_g" + text.decimal(gen)
  }

  function Suffix(kind: Kind): string {
    match kind
    case Subjects => "_subjects"
    case Objects => "_objects"
    case SubjectsDense => "_subjects_dense"
    case ObjectsDense => "_objects_dense"
  }

  function CollectionName(text: Text, ns: string, gen: nat, kind: Kind): string {
    QdrantNamespace(text, ns, gen) + Suffix(kind)
  }

  function TrendingKey(text: Text, ns: string, gen: nat): string {
    "trending:" + RedisNamespace(text, ns, gen)
  }

  function StreamKey(text: Text, ns: string, gen: nat): string {
    "catalog:embed:" + RedisNamespace(text, ns, gen)
  }

  function CachePrefix(text: Text, ns: string, gen: nat): string {
    "rec:v3:" + text.base64(RedisNamespace(text, ns, gen)) + ":"
  }

  /** The keys a generation owns: its trending set, its stream, and every cached answer. */
  predicate OwnsKey(text: Text, ns: string, gen: nat, key: string) {
    key == TrendingKey(text, ns, gen) || key == StreamKey(text, ns, gen) || CachePrefix(text, ns, gen) <= key
  }

  predicate HasSuffix(s: string, suffix: string) {
    |suffix| <= |s| && s[|s| - |suffix|..] == suffix
  }

  const PATTERNS: seq<string> := ["trending:", "catalog:embed:", "rec:"]

  predicate Flushable(name: string) {
    exists k :: 0 <= k < |KINDS| && HasSuffix(name, Suffix(KINDS[k]))
  }

  /** The reset's patterns cover every generation of every namespace. */
  lemma PatternsCoverKeys(text: Text, ns: string, gen: nat, key: string)
    requires OwnsKey(text, ns, gen, key)
    ensures exists p :: 0 <= p < |PATTERNS| && PATTERNS[p] <= key
  {
    if key == TrendingKey(text, ns, gen) {
      assert PATTERNS[0] <= key;
    } else if key == StreamKey(text, ns, gen) {
      assert PATTERNS[1] <= key;
    } else {
      var prefix := CachePrefix(text, ns, gen);
      assert "rec:v3:"[..4] == "rec:" && prefix[..4] == "rec:" && key[..|prefix|] == prefix && key[..4] == prefix[..4];
      assert PATTERNS[2] <= key;
    }
  }

  lemma SuffixesCoverCollections(text: Text, ns: string, gen: nat, kind: Kind)
    ensures Flushable(CollectionName(text, ns, gen, kind))
  {
    var name := CollectionName(text, ns, gen, kind);
    assert name[|name| - |Suffix(kind)|..] == Suffix(kind);
    var k := match kind case Subjects => 0 case Objects => 1 case SubjectsDense => 2 case ObjectsDense => 3;
    assert KINDS[k] == kind;
  }

  /** A collection is dropped by a reset exactly for one of the four endings. */
  lemma FlushableExactly(name: string)
    ensures Flushable(name) <==>
            HasSuffix(name, "_subjects") || HasSuffix(name, "_objects") || HasSuffix(name, "_subjects_dense") || HasSuffix(name, "_objects_dense")
  {
    assert KINDS[0] == Subjects && KINDS[1] == Objects && KINDS[2] == SubjectsDense && KINDS[3] == ObjectsDense;
    if HasSuffix(name, "_subjects") {
      assert HasSuffix(name, Suffix(KINDS[0]));
    }
    if HasSuffix(name, "_objects") {
      assert HasSuffix(name, Suffix(KINDS[1]));
    }
    if HasSuffix(name, "_subjects_dense") {
      assert HasSuffix(name, Suffix(KINDS[2]));
    }
    if HasSuffix(name, "_objects_dense") {
      assert HasSuffix(name, Suffix(KINDS[3]));
    }
  }

  // ------------------------------------------------ generations never meet

  /** What is needed of numerals and base64url: distinct inputs read differently, numerals
      hold no underscore and base64url no colon. */
  ghost predicate Legible(text: Text) {
    && (forall a, b :: text.decimal(a) == text.decimal(b) ==> a == b)
    && (forall a, b :: text.base64(a) == text.base64(b) ==> a == b)
    && (forall a :: '_' !in text.decimal(a)) && (forall s :: ':' !in text.base64(s))
  }

  /** The first generation keeps the plain names, later ones are marked. */
  lemma NamesByGeneration(text: Text, ns: string, gen: nat)
    ensures gen == 1 ==> && TrendingKey(text, ns, gen) == "trending:" + ns && StreamKey(text, ns, gen) == "catalog:embed:" + ns
                         && CachePrefix(text, ns, gen) == "rec:v3:" + text.base64(ns) + ":" && CollectionName(text, ns, gen, Subjects) == ns + "_subjects"
                         && CollectionName(text, ns, gen, Objects) == ns + "_objects" && CollectionName(text, ns, gen, SubjectsDense) == ns + "_subjects_dense"
                         && CollectionName(text, ns, gen, ObjectsDense) == ns + "_objects_dense"
    ensures gen > 1 ==> RedisNamespace(text, ns, gen) == ns + ":g" + text.decimal(gen) && QdrantNamespace(text, ns, gen) == ns + "_g" + text.decimal(gen)
  {
  }

  lemma JoinTail(a: string, b: string, c: string)
    ensures a + b == a + c ==> b == c
  {
    assert (a + b)[|a|..] == b && (a + c)[|a|..] == c;
  }

  lemma RedisNamesDiffer(text: Text, ns: string, gen: nat, other: nat)
    requires Legible(text) && 1 <= gen && 1 <= other && gen != other
    ensures RedisNamespace(text, ns, gen) != RedisNamespace(text, ns, other)
  {
    if gen >= 2 && other >= 2 {
      JoinTail(ns + ":g", text.decimal(gen), text.decimal(other));
    } else {
      assert |RedisNamespace(text, ns, gen)| != |RedisNamespace(text, ns, other)|;
    }
  }

  /** A piece without the separator is all that stands before the first one. */
  lemma FirstPiece(a: string, b: string, sep: char, rest: string, more: string)
    requires sep !in a && sep !in b && a + [sep] + rest == b + [sep] + more
    ensures a == b
  {
    var s := a + [sep] + rest;
    assert s[|a|] == sep && (b + [sep] + more)[|b|] == sep;
    assert (forall i :: 0 <= i < |a| ==> s[i] == a[i]) && forall i :: 0 <= i < |b| ==> s[i] == b[i];
    assert a == s[..|a|] && b == s[..|b|];
  }

  lemma CachePrefixesDiffer(text: Text, ns: string, gen: nat, other: nat, key: string)
    requires Legible(text) && 1 <= gen && 1 <= other && gen != other
    requires CachePrefix(text, ns, gen) <= key
    ensures !(CachePrefix(text, ns, other) <= key)
  {
    RedisNamesDiffer(text, ns, gen, other);
    var a, b := text.base64(RedisNamespace(text, ns, gen)), text.base64(RedisNamespace(text, ns, other));
    if CachePrefix(text, ns, other) <= key {
      var p, q := "rec:v3:" + a + ":", "rec:v3:" + b + ":";
      var rest, more := key[|p|..], key[|q|..];
      assert key == p + rest && key == q + more;
      assert key[7..] == a + [':'] + rest && key[7..] == b + [':'] + more;
      FirstPiece(a, b, ':', rest, more);
      assert false;
    }
  }

  /** No key belongs to two generations of a name: what a delayed writer of an old generation
      stores is invisible to the new one, and deleting the old one leaves the new one alone. */
  lemma KeysDisjoint(text: Text, ns: string, gen: nat, other: nat, key: string)
    requires Legible(text) && 1 <= gen && 1 <= other && gen != other && OwnsKey(text, ns, gen, key)
    ensures !OwnsKey(text, ns, other, key)
  {
    RedisNamesDiffer(text, ns, gen, other);
    var x, y := RedisNamespace(text, ns, gen), RedisNamespace(text, ns, other);
    JoinTail("trending:", x, y);
    JoinTail("catalog:embed:", x, y);
    if CachePrefix(text, ns, gen) <= key {
      CachePrefixesDiffer(text, ns, gen, other, key);
      assert key[0] == CachePrefix(text, ns, gen)[0] == 'r';
    } else {
      assert key[0] == 't' || key[0] == 'c';
      assert CachePrefix(text, ns, other)[0] == 'r';
      assert TrendingKey(text, ns, gen)[0] == 't' && StreamKey(text, ns, other)[0] == 'c' && StreamKey(text, ns, gen)[0] == 'c' && TrendingKey(text, ns, other)[0] == 't';
    }
  }

  lemma SuffixShape(kind: Kind)
    ensures |Suffix(kind)| > 1 && Suffix(kind)[0] == '_' && Suffix(kind)[1] != 'g'
  {
  }

  lemma MarkedNamesDiffer(ns: string, a: string, b: string, k1: Kind, k2: Kind)
    requires '_' !in a && '_' !in b && a != b
    ensures ns + "_g" + a + Suffix(k1) != ns + "_g" + b + Suffix(k2)
  {
    SuffixShape(k1);
    SuffixShape(k2);
    var rest, more := Suffix(k1)[1..], Suffix(k2)[1..];
    assert Suffix(k1) == ['_'] + rest && Suffix(k2) == ['_'] + more;
    assert ns + "_g" + a + Suffix(k1) == ns + "_g" + (a + ['_'] + rest);
    assert ns + "_g" + b + Suffix(k2) == ns + "_g" + (b + ['_'] + more);
    JoinTail(ns + "_g", a + ['_'] + rest, b + ['_'] + more);
    if a + ['_'] + rest == b + ['_'] + more {
      FirstPiece(a, b, '_', rest, more);
    }
  }

  lemma PlainNameDiffers(ns: string, a: string, k1: Kind, k2: Kind)
    ensures ns + Suffix(k1) != ns + "_g" + a + Suffix(k2)
  {
    SuffixShape(k1);
    assert ns + "_g" + a + Suffix(k2) == ns + ("_g" + a + Suffix(k2));
    assert ("_g" + a + Suffix(k2))[1] == 'g';
    JoinTail(ns, Suffix(k1), "_g" + a + Suffix(k2));
  }

  /** Nor does any collection. */
  lemma CollectionsDisjoint(text: Text, ns: string, gen: nat, other: nat, k1: Kind, k2: Kind)
    requires Legible(text) && 1 <= gen && 1 <= other && gen != other
    ensures CollectionName(text, ns, gen, k1) != CollectionName(text, ns, other, k2)
  {
    if gen == 1 {
      PlainNameDiffers(ns, text.decimal(other), k1, k2);
    } else if other == 1 {
      PlainNameDiffers(ns, text.decimal(gen), k2, k1);
    } else {
      MarkedNamesDiffer(ns, text.decimal(gen), text.decimal(other), k1, k2);
    }
  }

  // ------------------------------------------------ the stores

  /** The name has a generation that is not deleted. */
  predicate Open(ledger: map<string, Lifecycle>, ns: string) {
    ns in ledger && ledger[ns].state != Deleted
  }

  datatype Outcome = NotFound | Failed | Succeeded

  class Admin {
    const text: Text
    const reply: nat -> Reply
    /** Which optional collaborators are configured. */
    const hasJob: bool
    const hasRedis: bool
    const hasQdrant: bool
    var calls: nat
    var system: SystemState
    var ledger: map<string, Lifecycle>
    var configs: set<string>
    var redis: set<string>
    var qdrant: set<string>

    constructor (text: Text, reply: nat -> Reply, hasJob: bool, hasRedis: bool, hasQdrant: bool,
                 ledger: map<string, Lifecycle>, configs: set<string>, redis: set<string>, qdrant: set<string>)
      ensures this.ledger == ledger && system == SystemActive && this.configs == configs && this.redis == redis && this.qdrant == qdrant
    {
      this.text, this.reply, this.hasJob, this.hasRedis, this.hasQdrant := text, reply, hasJob, hasRedis, hasQdrant;
      this.calls, this.system, this.ledger, this.configs, this.redis, this.qdrant := 0, SystemActive, ledger, configs, redis, qdrant;
    }

    /** No trace of the generation is left in the table or in any configured store. */
    ghost predicate Absent(ns: string, gen: nat)
      reads this`configs, this`redis, this`qdrant
    {
      ns !in configs && RedisAbsent(ns, gen) && QdrantAbsent(ns, gen)
    }

    ghost predicate AllAbsent()
      reads this`configs, this`redis, this`qdrant
    {
      forall ns, gen :: Absent(ns, gen)
    }

    ghost predicate RedisAbsent(ns: string, gen: nat)
      reads this`redis
    {
      hasRedis ==> forall key :: key in redis ==> key != TrendingKey(text, ns, gen) && key != StreamKey(text, ns, gen) && !(CachePrefix(text, ns, gen) <= key)
    }

    ghost predicate QdrantAbsent(ns: string, gen: nat)
      reads this`qdrant
    {
      hasQdrant ==> forall kind :: CollectionName(text, ns, gen, kind) !in qdrant
    }

    /** What does not belong to the generation stays. */
    twostate predicate SparesOthers(ns: string, gen: nat)
      reads this
    {
      && (forall m :: m in old(configs) && m != ns ==> m in configs)
      && (forall key :: key in old(redis) && key != TrendingKey(text, ns, gen) && key != StreamKey(text, ns, gen) && !(CachePrefix(text, ns, gen) <= key) ==> key in redis)
      && (forall name :: name in old(qdrant) && (forall kind :: name != CollectionName(text, ns, gen, kind)) ==> name in qdrant)
    }

    /** From call n on nothing fails. */
    ghost predicate CalmFrom(n: nat) {
      forall k :: k >= n ==> reply(k).Done?
    }

    /** Nothing is ever added to the stores. */
    twostate predicate OnlyRemoves()
      reads this
    {
      configs <= old(configs) && redis <= old(redis) && qdrant <= old(qdrant) && calls >= old(calls)
    }

    method Call() returns (r: Reply)
      modifies this`calls
      ensures calls == old(calls) + 1 && r == reply(old(calls))
    {
      r := reply(calls);
      calls := calls + 1;
    }

    /** Up to k round trips that change nothing; false at the first that fails. */
    method Ask(k: nat) returns (ok: bool)
      modifies this`calls
      ensures calls >= old(calls) && (k > 0 ==> calls > old(calls)) && (CalmFrom(old(calls)) ==> ok)
    {
      for j := 0 to k
        invariant calls >= old(calls) && (j > 0 ==> calls > old(calls))
      {
        var r := Call();
        if r.Broken? {
          return false;
        }
      }
      return true;
    }

    // ---------------------------------------------- lifecycle ledger

    /** Close an active namespace, or confirm it is closing; its generation never changes. */
    method StartDelete(ns: string) returns (ok: bool, gen: nat)
      modifies this`ledger, this`calls
      ensures calls == old(calls) + 1
      ensures ledger == old(ledger) || (Open(old(ledger), ns) && ledger == old(ledger)[ns := Lifecycle(old(ledger)[ns].generation, Deleting)])
      ensures ok ==> ns in ledger && ledger[ns] == Lifecycle(gen, Deleting) && Open(old(ledger), ns)
      ensures CalmFrom(old(calls)) && Open(old(ledger), ns) ==> ok
    {
      var r := Call();
      if !Open(ledger, ns) {
        return false, 0;
      }
      gen := ledger[ns].generation;
      if r.Done? || r.effect {
        ledger := ledger[ns := Lifecycle(gen, Deleting)];
      }
      ok := r.Done?;
    }

    /** Record the verified end of a deletion; the name's tombstone stays. */
    method CompleteDelete(ns: string, gen: nat) returns (ok: bool)
      modifies this`ledger, this`calls
      ensures calls == old(calls) + 1
      ensures ledger == old(ledger) || (ns in old(ledger) && old(ledger)[ns] == Lifecycle(gen, Deleting) && ledger == old(ledger)[ns := Lifecycle(gen, Deleted)])
      ensures ok ==> ns in ledger && ledger[ns] == Lifecycle(gen, Deleted)
      ensures CalmFrom(old(calls)) && ns in old(ledger) && old(ledger)[ns] == Lifecycle(gen, Deleting) ==> ok
    {
      var r := Call();
      if ns !in ledger || ledger[ns] != Lifecycle(gen, Deleting) {
        return false;
      }
      if r.Done? || r.effect {
        ledger := ledger[ns := Lifecycle(gen, Deleted)];
      }
      return r.Done?;
    }

    // ---------------------------------------------- clearing one generation

    /** One DEL of the listed keys and every cached answer. */
    method ClearRedis(ns: string, gen: nat) returns (ok: bool)
      requires hasRedis
      modifies this`redis, this`calls
      ensures OnlyRemoves() && (ok ==> RedisAbsent(ns, gen)) && (CalmFrom(old(calls)) ==> ok)
      ensures forall key :: key in old(redis) && !OwnsKey(text, ns, gen, key) ==> key in redis
    {
      var r := Call();
      if r.Broken? {
        return false;
      }
      var keys := set key | key in redis && OwnsKey(text, ns, gen, key);
      r := Call();
      if r.Done? || r.effect {
        redis := redis - keys;
      }
      return r.Done?;
    }

    method DropCollection(name: string) returns (ok: bool)
      modifies this`qdrant, this`calls
      ensures OnlyRemoves() && (qdrant == old(qdrant) || qdrant == old(qdrant) - {name})
      ensures (ok ==> name !in qdrant) && (CalmFrom(old(calls)) ==> ok)
    {
      var r := Call();
      if r.Done? || r.effect {
        qdrant := qdrant - {name};
      }
      return r.Done?;
    }

    method ClearQdrant(ns: string, gen: nat) returns (ok: bool)
      modifies this`qdrant, this`calls
      ensures OnlyRemoves() && (ok ==> QdrantAbsent(ns, gen)) && (CalmFrom(old(calls)) ==> ok)
      ensures forall name :: name in old(qdrant) && (forall kind :: name != CollectionName(text, ns, gen, kind)) ==> name in qdrant
    {
      for k := 0 to |KINDS|
        invariant OnlyRemoves()
        invariant forall j :: 0 <= j < k ==> CollectionName(text, ns, gen, KINDS[j]) !in qdrant
        invariant forall name :: name in old(qdrant) && (forall kind :: name != CollectionName(text, ns, gen, kind)) ==> name in qdrant
      {
        var name := CollectionName(text, ns, gen, KINDS[k]);
        var exists_ := Call();
        if exists_.Broken? {
          return false;
        }
        if name in qdrant {
          var dropped := DropCollection(name);
          if !dropped {
            return false;
          }
        }
      }
      forall kind ensures CollectionName(text, ns, gen, kind) !in qdrant {
        EveryKind(kind);
      }
      return true;
    }

    method ClearNamespaceData(ns: string) returns (ok: bool)
      modifies this`configs, this`calls
      ensures OnlyRemoves() && (configs == old(configs) || configs == old(configs) - {ns})
      ensures (ok ==> ns !in configs) && (CalmFrom(old(calls)) ==> ok)
    {
      var r := Call();
      if r.Done? || r.effect {
        configs := configs - {ns};
      }
      return r.Done?;
    }

    /** Table first, then keys, then collections; the first failure stops it. */
    method ClearGeneration(ns: string, gen: nat) returns (ok: bool)
      modifies this`configs, this`redis, this`qdrant, this`calls
      ensures OnlyRemoves() && SparesOthers(ns, gen) && (ok ==> Absent(ns, gen)) && (CalmFrom(old(calls)) ==> ok)
    {
      ok := ClearNamespaceData(ns);
      if ok && hasRedis {
        ok := ClearRedis(ns, gen);
      }
      if ok && hasQdrant {
        ok := ClearQdrant(ns, gen);
      }
    }

    /** Look again: true only if nothing is left. */
    method VerifyAbsent(ns: string, gen: nat) returns (ok: bool)
      modifies this`calls
      ensures calls >= old(calls) && (ok ==> Absent(ns, gen))
      ensures CalmFrom(old(calls)) && Absent(ns, gen) ==> ok
    {
      var r := Call();
      if r.Broken? || ns in configs {
        return false;
      }
      if hasRedis {
        r := Call();
        var r2 := Call();
        if r.Broken? || r2.Broken? || exists key :: key in redis && OwnsKey(text, ns, gen, key) {
          return false;
        }
      }
      if hasQdrant {
        for k := 0 to |KINDS|
          invariant calls >= old(calls)
          invariant forall j :: 0 <= j < k ==> CollectionName(text, ns, gen, KINDS[j]) !in qdrant
        {
          r := Call();
          if r.Broken? || CollectionName(text, ns, gen, KINDS[k]) in qdrant {
            return false;
          }
        }
        forall kind ensures CollectionName(text, ns, gen, kind) !in qdrant {
          EveryKind(kind);
        }
      }
      return true;
    }

    // ---------------------------------------------- deleting a namespace

    method DeleteGeneration(ns: string, gen: nat) returns (ok: bool)
      modifies this`configs, this`redis, this`qdrant, this`calls
      ensures OnlyRemoves() && SparesOthers(ns, gen) && (ok ==> Absent(ns, gen)) && (CalmFrom(old(calls)) ==> ok)
    {
      if hasJob {
        var locked := Call();
        if locked.Broken? {
          return false;
        }
      }
      ok := ClearGeneration(ns, gen);
      if ok {
        ok := VerifyAbsent(ns, gen);
      }
    }

    /** What a delete or reset may do to the ledger: no name or generation changes, a closed
        name never reopens, and one is recorded deleted only when nothing of it is left. */
    twostate predicate Fences()
      reads this
    {
      && ledger.Keys == old(ledger).Keys
      && forall ns :: ns in ledger ==>
           && ledger[ns].generation == old(ledger)[ns].generation
           && (old(ledger)[ns].state == Deleted ==> ledger[ns].state == Deleted)
           && (old(ledger)[ns].state == Deleting ==> ledger[ns].state != Active)
           && (old(ledger)[ns].state != Deleted && ledger[ns].state == Deleted ==> Absent(ns, ledger[ns].generation))
    }

    twostate predicate StoresUntouched()
      reads this
    {
      configs == old(configs) && redis == old(redis) && qdrant == old(qdrant)
    }

    /** The part of a delete that runs under the exclusive lease. */
    method DeleteLeased(ns: string) returns (out: Outcome)
      modifies this`ledger, this`configs, this`redis, this`qdrant, this`calls
      ensures OnlyRemoves() && Fences() && forall m :: m in ledger && m != ns ==> ledger[m] == old(ledger)[m]
      ensures out == Succeeded ==> Open(old(ledger), ns) && ledger[ns].state == Deleted
      ensures out == NotFound ==> !Open(ledger, ns) && StoresUntouched() && ledger == old(ledger)
      ensures ns in ledger && ledger[ns].state == Active ==> StoresUntouched()
      ensures if ns in old(ledger) then SparesOthers(ns, old(ledger)[ns].generation) else StoresUntouched()
      ensures !Open(old(ledger), ns) ==> out == NotFound
      ensures CalmFrom(old(calls)) && Open(old(ledger), ns) ==> out == Succeeded
    {
      if !Open(ledger, ns) {
        return NotFound;
      }
      var ok, gen := StartDelete(ns);
      if !ok {
        return Failed;
      }
      ok := DeleteGeneration(ns, gen);
      if !ok {
        return Failed;
      }
      ok := CompleteDelete(ns, gen);
      return if ok then Succeeded else Failed;
    }

    /** Delete a namespace. Whatever fails, the record says deleted only when nothing is left,
        nothing is removed before the record says deleting, and a call during which nothing
        fails succeeds. */
    method DeleteNamespace(ns: string) returns (out: Outcome)
      modifies this`ledger, this`configs, this`redis, this`qdrant, this`calls
      ensures OnlyRemoves() && calls > old(calls) && Fences()
      ensures forall m :: m in ledger && m != ns ==> ledger[m] == old(ledger)[m]
      ensures out == Succeeded ==> Open(old(ledger), ns) && ledger[ns].state == Deleted
      ensures out == NotFound ==> !Open(ledger, ns) && StoresUntouched() && ledger == old(ledger)
      ensures ns in ledger && ledger[ns].state == Active ==> StoresUntouched()
      ensures if ns in old(ledger) then SparesOthers(ns, old(ledger)[ns].generation) else StoresUntouched()
      ensures system == Resetting ==> out == Failed && ledger == old(ledger) && StoresUntouched()
      ensures CalmFrom(old(calls)) && system == SystemActive ==> out == if Open(old(ledger), ns) then Succeeded else NotFound
    {
      var ok := Ask(2); // the config row, then the exclusive lease
      if !ok {
        return Failed;
      }
      out := Failed;
      ok := Ask(2); // the system gate, then the lifecycle row
      if ok && system == SystemActive {
        out := DeleteLeased(ns);
      }
      ok := Ask(1); // giving the lease back
      if !ok {
        out := Failed;
      }
    }

    /** Retrying: if calls stop failing from the n-th on, the name ends up deleted, with
        nothing of the generation left, however often and wherever they failed before. */
    method RetryDelete(ns: string, n: nat)
      requires CalmFrom(n) && system == SystemActive && ns in ledger
      modifies this`ledger, this`configs, this`redis, this`qdrant, this`calls
      ensures ns in ledger && ledger[ns] == Lifecycle(old(ledger)[ns].generation, Deleted)
      ensures old(ledger)[ns].state != Deleted ==> Absent(ns, ledger[ns].generation)
    {
      var out := Failed;
      while out == Failed
        invariant ns in ledger && ledger[ns].generation == old(ledger)[ns].generation
        invariant out != Failed ==> ledger[ns].state == Deleted
        invariant old(ledger)[ns].state != Deleted && ledger[ns].state == Deleted ==> Absent(ns, ledger[ns].generation)
        decreases if out != Failed then 0 else 1 + if calls < n then n - calls else 0
      {
        out := DeleteNamespace(ns);
      }
    }

    /** A new or fully deleted name starts its next generation; a closing one stays closed. */
    method Activate(ns: string) returns (ok: bool)
      modifies this`ledger, this`calls
      ensures calls >= old(calls)
      ensures ok ==> system == SystemActive && ns in ledger && ledger[ns].state == Active
      ensures ledger == old(ledger) || ledger == old(ledger)[ns := Lifecycle(if ns in old(ledger) then old(ledger)[ns].generation + 1 else 1, Active)]
      ensures ns in old(ledger) && old(ledger)[ns].state == Deleting ==> !ok
      ensures (ns in old(ledger) && old(ledger)[ns].state != Deleted) || system == Resetting ==> ledger == old(ledger)
      ensures CalmFrom(old(calls)) && system == SystemActive && (ns in old(ledger) ==> old(ledger)[ns].state != Deleting) ==>
                ok && ledger == if ns !in old(ledger) then old(ledger)[ns := Lifecycle(1, Active)]
                                else if old(ledger)[ns].state == Deleted then old(ledger)[ns := Lifecycle(old(ledger)[ns].generation + 1, Active)]
                                else old(ledger)
    {
      ok := Ask(2);
      if !ok || system != SystemActive {
        return false;
      }
      if ns in ledger && ledger[ns].state == Deleting {
        return false;
      }
      var r := Call();
      if !Open(ledger, ns) && (r.Done? || r.effect) {
        ledger := ledger[ns := Lifecycle(if ns in ledger then ledger[ns].generation + 1 else 1, Active)];
      }
      return r.Done?;
    }

    // ---------------------------------------------- resetting the application

    /** Delete every key of one pattern, in batches. */
    method FlushPattern(pattern: string) returns (ok: bool)
      modifies this`redis, this`calls
      ensures OnlyRemoves() && (ok ==> forall key :: key in redis ==> !(pattern <= key)) && (CalmFrom(old(calls)) ==> ok)
      ensures forall key :: key in old(redis) && !(pattern <= key) ==> key in redis
    {
      var batch: set<string>, todo := {}, set key | key in redis && pattern <= key;
      while todo != {}
        invariant OnlyRemoves() && (forall key :: key in todo || key in batch ==> pattern <= key)
        invariant forall key :: key in redis && pattern <= key ==> key in todo || key in batch
        invariant forall key :: key in old(redis) && !(pattern <= key) ==> key in redis
        decreases todo
      {
        var next := Call(); // the scan's next page
        if next.Broken? {
          return false;
        }
        var key :| key in todo;
        batch, todo := batch + {key}, todo - {key};
        if |batch| >= 500 {
          ok := DeleteKeys(batch);
          if !ok {
            return;
          }
          batch := {};
        }
      }
      ok := DeleteKeys(batch);
    }

    method DeleteKeys(batch: set<string>) returns (ok: bool)
      modifies this`redis, this`calls
      ensures OnlyRemoves() && (redis == old(redis) || redis == old(redis) - batch)
      ensures (ok ==> redis == old(redis) - batch) && (CalmFrom(old(calls)) ==> ok)
    {
      if batch == {} {
        assert redis - batch == redis;
        return true;
      }
      var r := Call();
      if r.Done? || r.effect {
        redis := redis - batch;
      }
      return r.Done?;
    }

    /** True only when no generation of any namespace has a key left. */
    method FlushAllRedis() returns (ok: bool)
      modifies this`redis, this`calls
      ensures OnlyRemoves() && (CalmFrom(old(calls)) ==> ok)
      ensures ok ==> forall p, key :: 0 <= p < |PATTERNS| && key in redis ==> !(PATTERNS[p] <= key)
      ensures forall key :: key in old(redis) && !("trending:" <= key) && !("catalog:embed:" <= key) && !("rec:" <= key) ==> key in redis
    {
      for p := 0 to |PATTERNS|
        invariant OnlyRemoves()
        invariant forall q, key :: 0 <= q < p && key in redis ==> !(PATTERNS[q] <= key)
        invariant forall key :: key in old(redis) && !("trending:" <= key) && !("catalog:embed:" <= key) && !("rec:" <= key) ==> key in redis
      {
        ok := FlushPattern(PATTERNS[p]);
        if !ok {
          return;
        }
      }
      return true;
    }

    /** True only when no collection of any namespace is left; others are not touched. */
    method FlushAllQdrant() returns (ok: bool)
      modifies this`qdrant, this`calls
      ensures OnlyRemoves() && (CalmFrom(old(calls)) ==> ok)
      ensures ok ==> forall name :: name in qdrant ==> !Flushable(name)
      ensures forall name :: name in old(qdrant) && !Flushable(name) ==> name in qdrant
    {
      ok := Ask(1);
      if !ok {
        return;
      }
      var todo := qdrant;
      while todo != {}
        invariant OnlyRemoves() && forall name :: name in qdrant && Flushable(name) ==> name in todo
        invariant forall name :: name in old(qdrant) && !Flushable(name) ==> name in qdrant
        decreases todo
      {
        var name :| name in todo;
        todo := todo - {name};
        if Flushable(name) {
          ok := DropCollection(name);
          if !ok {
            return;
          }
        }
      }
      return true;
    }

    /** With the table empty and both flushes done, nothing of any namespace is left. */
    method FlushEverything() returns (ok: bool)
      modifies this`configs, this`redis, this`qdrant, this`calls
      ensures OnlyRemoves() && (CalmFrom(old(calls)) ==> ok)
      ensures ok ==> AllAbsent()
    {
      var r := Call(); // one transaction empties the tables
      if r.Done? || r.effect {
        configs := {};
      }
      if r.Broken? {
        return false;
      }
      if hasRedis {
        ok := FlushAllRedis();
        if !ok {
          return;
        }
      }
      if hasQdrant {
        ok := FlushAllQdrant();
        if !ok {
          return;
        }
      }
      forall ns, gen ensures Absent(ns, gen) {
        forall key | key in redis && hasRedis ensures !OwnsKey(text, ns, gen, key) {
          if OwnsKey(text, ns, gen, key) {
            PatternsCoverKeys(text, ns, gen, key);
          }
        }
        forall kind | hasQdrant ensures CollectionName(text, ns, gen, kind) !in qdrant {
          SuffixesCoverCollections(text, ns, gen, kind);
        }
      }
      return true;
    }

    /** Close every open name. */
    method FenceAll(names: set<string>) returns (ok: bool)
      requires forall ns :: ns in names <==> Open(ledger, ns)
      modifies this`ledger, this`calls
      ensures calls >= old(calls) && ledger.Keys == old(ledger).Keys
      ensures forall ns :: ns in ledger ==> ledger[ns] == old(ledger)[ns] || (ns in names && ledger[ns] == Lifecycle(old(ledger)[ns].generation, Deleting))
      ensures ok ==> forall ns :: ns in names ==> ns in ledger && ledger[ns].state == Deleting
      ensures CalmFrom(old(calls)) ==> ok
    {
      var todo := names;
      while todo != {}
        invariant todo <= names && calls >= old(calls) && ledger.Keys == old(ledger).Keys
        invariant forall ns :: ns in ledger ==> ledger[ns] == old(ledger)[ns] || (ns in names && ledger[ns] == Lifecycle(old(ledger)[ns].generation, Deleting))
        invariant forall ns :: ns in names && ns !in todo ==> ledger[ns].state == Deleting
        decreases todo
      {
        var ns :| ns in todo;
        todo := todo - {ns};
        var gen;
        ok, gen := StartDelete(ns);
        if !ok {
          return;
        }
      }
      return true;
    }

    /** Verify and record every closed name as deleted. */
    method RecordAll(names: set<string>) returns (ok: bool)
      requires names <= ledger.Keys && forall ns :: ns in names ==> ledger[ns].state == Deleting
      modifies this`ledger, this`calls
      ensures calls >= old(calls) && ledger.Keys == old(ledger).Keys
      ensures forall ns :: ns in ledger ==> ledger[ns] == old(ledger)[ns] || (ns in names && ledger[ns] == Lifecycle(old(ledger)[ns].generation, Deleted) && Absent(ns, ledger[ns].generation))
      ensures ok ==> forall ns :: ns in names ==> ledger[ns].state == Deleted
      ensures CalmFrom(old(calls)) && old(AllAbsent()) ==> ok
    {
      var todo := names;
      while todo != {}
        invariant todo <= names && calls >= old(calls) && ledger.Keys == old(ledger).Keys
        invariant forall ns :: ns in ledger ==> ledger[ns] == old(ledger)[ns] || (ns in names && ledger[ns] == Lifecycle(old(ledger)[ns].generation, Deleted) && Absent(ns, ledger[ns].generation))
        invariant forall ns :: ns in names && ns !in todo ==> ledger[ns].state == Deleted
        invariant old(AllAbsent()) ==> AllAbsent()
        invariant forall ns :: ns in todo ==> ledger[ns].state == Deleting
        decreases todo
      {
        var ns :| ns in todo;
        todo := todo - {ns};
        var gen := ledger[ns].generation;
        ok := VerifyAbsent(ns, gen);
        if !ok {
          return;
        }
        ok := CompleteDelete(ns, gen);
        if !ok {
          return;
        }
      }
      return true;
    }

    /** Close every open name, and only then remove the data. */
    method FenceAndFlush(names: set<string>) returns (ok: bool)
      requires forall ns :: ns in names <==> Open(ledger, ns)
      modifies this`ledger, this`configs, this`redis, this`qdrant, this`calls
      ensures OnlyRemoves() && ledger.Keys == old(ledger).Keys && (CalmFrom(old(calls)) ==> ok)
      ensures forall ns :: ns in ledger ==> ledger[ns] == old(ledger)[ns] || (ns in names && ledger[ns] == Lifecycle(old(ledger)[ns].generation, Deleting))
      ensures ok ==> AllAbsent() && forall ns :: ns in names ==> ns in ledger && ledger[ns].state == Deleting
      ensures (exists ns :: ns in ledger && ledger[ns].state == Active) ==> StoresUntouched()
    {
      ok := FenceAll(names);
      if !ok {
        return;
      }
      ok := Ask(if hasJob then 1 else 0); // the compute maintenance lock
      if !ok {
        return;
      }
      ok := FlushEverything();
    }

    /** The part of a reset after the system record says resetting. */
    method ResetFenced() returns (ok: bool)
      modifies this`ledger, this`configs, this`redis, this`qdrant, this`calls
      ensures OnlyRemoves() && Fences() && (CalmFrom(old(calls)) ==> ok)
      ensures ok ==> forall ns :: ns in ledger ==> ledger[ns].state == Deleted
      ensures (exists ns :: ns in ledger && ledger[ns].state == Active) ==> StoresUntouched()
    {
      ok := Ask(1); // list what is not deleted
      if !ok {
        return;
      }
      var names := set ns | ns in ledger && ledger[ns].state != Deleted;
      ok := FenceAndFlush(names);
      if !ok {
        return;
      }
      ok := RecordAll(names);
    }

    /** Wipe everything. Whatever fails, a name is recorded deleted only when nothing of it is
        left, no data goes before every name is closed, and unless the reset is complete the
        system stays resetting (or was never marked, and nothing changed). */
    method ResetApp() returns (ok: bool)
      modifies this
      ensures OnlyRemoves() && calls > old(calls) && Fences() && (CalmFrom(old(calls)) ==> ok)
      ensures ok ==> system == SystemActive
      ensures system == SystemActive ==> (forall ns :: ns in ledger ==> ledger[ns].state == Deleted) || (ledger == old(ledger) && StoresUntouched() && system == old(system))
      ensures ok ==> forall ns :: ns in ledger ==> ledger[ns].state == Deleted
      ensures (exists ns :: ns in ledger && ledger[ns].state == Active) ==> StoresUntouched()
    {
      ok := Ask(2); // the global lease and the system row
      if !ok {
        return;
      }
      var r := Call();
      if r.Done? || r.effect {
        system := Resetting;
      }
      ok := r.Done?;
      if ok {
        ok := ResetFenced();
      }
      if ok {
        r := Call();
        if r.Done? || r.effect {
          system := SystemActive;
        }
        ok := r.Done?;
      }
      var released := Ask(1);
      ok := ok && released;
    }

    /** A reset retried until calls stop failing completes: every name deleted, nothing left of
        any generation that was open, the system active again. */
    method RetryReset(n: nat)
      requires CalmFrom(n)
      modifies this
      ensures system == SystemActive && ledger.Keys == old(ledger).Keys
      ensures forall ns :: ns in ledger ==> ledger[ns] == Lifecycle(old(ledger)[ns].generation, Deleted)
      ensures forall ns :: ns in ledger && old(ledger)[ns].state != Deleted ==> Absent(ns, ledger[ns].generation)
    {
      var ok := false;
      while !ok
        invariant ledger.Keys == old(ledger).Keys
        invariant forall ns :: ns in ledger ==> ledger[ns].generation == old(ledger)[ns].generation
        invariant forall ns :: ns in ledger && old(ledger)[ns].state != Deleted && ledger[ns].state == Deleted ==> Absent(ns, ledger[ns].generation)
        invariant ok ==> system == SystemActive && forall ns :: ns in ledger ==> ledger[ns].state == Deleted
        decreases if ok then 0 else 1 + if calls < n then n - calls else 0
      {
        ok := ResetApp();
      }
    }
  }

  lemma EveryKind(kind: Kind)
    ensures exists k :: 0 <= k < |KINDS| && KINDS[k] == kind
  {
    var k := match kind case Subjects => 0 case Objects => 1 case SubjectsDense => 2 case ObjectsDense => 3;
    assert KINDS[k] == kind;
  }
}
