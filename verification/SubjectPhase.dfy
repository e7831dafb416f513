/** The subject half of a recompute: chunks of subjects are looked up, built and written,
    any lookup or write failing anywhere. */
module SubjectPhase {
  import opened Cooccurrence
  import opened SparseVectors
  import opened Collections

  /** What the events query and the two id resolutions of one chunk return. */
  datatype Lookup = Failed | Found(scores: map<string, map<string, real>>, subjectIds: map<string, Id>, objectIds: map<string, Id>)

  const CHUNK: nat := 100

  /** A run's inputs: the active subjects and the answers to each chunk's lookups. */
  datatype Window = Window(subjects: seq<string>, lookup: nat -> Lookup)
  {
    function At(i: nat): Lookup {
      lookup(i / CHUNK)
    }

    /** A subject without events has no scores. */
    function Scores(i: nat): map<string, real>
      requires i < |subjects|
    {
      if At(i).Found? && subjects[i] in At(i).scores then At(i).scores[subjects[i]] else map[]
    }

    /** Its ids resolved, and it has no scores or keeps at least one dimension. */
    predicate Buildable(i: nat) {
      && i < |subjects| && At(i).Found? && subjects[i] in At(i).subjectIds
      && (forall o :: o in Scores(i) ==> o in At(i).objectIds)
      && (Scores(i) == map[] || exists o :: o in Scores(i) && o in At(i).objectIds && At(i).objectIds[o] <= MAX_SPARSE_INDEX)
    }

    function SubjectId(i: nat): Id
      requires Buildable(i)
    {
      At(i).subjectIds[subjects[i]]
    }

    /** Id resolution never gives two objects one number. */
    ghost predicate Injective() {
      forall i :: At(i).Found? ==> InjectiveIds(At(i).objectIds)
    }

    /** v is the vector built for subject i. */
    ghost predicate VectorFor(i: nat, v: Sparse) {
      Buildable(i) && exists norm :: SubjectVector(Scores(i), At(i).objectIds, v, norm)
    }

    /** v was built this run for a subject numbered id, among the first n. */
    ghost predicate BuiltPoint(n: nat, id: Id, v: Sparse) {
      exists i :: 0 <= i < n && VectorFor(i, v) && SubjectId(i) == id
    }

    ghost function Made(n: nat): (Id, Sparse) -> bool {
      (id: Id, v: Sparse) => BuiltPoint(n, id, v)
    }

    ghost function CanBuild(): nat -> bool {
      (i: nat) => Buildable(i)
    }

    /** Subject i could be built and its chunk is among the written ones. */
    ghost function Landed(written: set<nat>): nat -> bool {
      (i: nat) => Buildable(i) && i / CHUNK in written
    }

    ghost function RowFor(): (nat, seq<CoEntry<real>>) -> bool {
      (i: nat, row: seq<CoEntry<real>>) => Buildable(i) && RowOf(Scores(i), At(i).objectIds, row)
    }

    /** `whose` lists exactly the buildable subjects among lo..hi-1, in order. */
    ghost predicate Picks(lo: nat, hi: nat, whose: seq<nat>) {
      Lists(CanBuild(), lo, hi, whose)
    }

    /** One co-occurrence row per listed subject, holding its scores by object number. */
    ghost predicate RowsOf(whose: seq<nat>, rows: Rows<real>) {
      Aligned(RowFor(), whose, rows)
    }
  }

  ghost predicate Lists(P: nat -> bool, lo: nat, hi: nat, whose: seq<nat>) {
    && (forall j, k :: 0 <= j < k < |whose| ==> whose[j] < whose[k])
    && (forall i :: i in whose <==> lo <= i < hi && P(i))
  }

  ghost predicate Aligned<T>(R: (nat, T) -> bool, whose: seq<nat>, xs: seq<T>) {
    |xs| == |whose| && forall k :: 0 <= k < |whose| ==> R(whose[k], xs[k])
  }

  lemma ListsJoin(P: nat -> bool, lo: nat, mid: nat, hi: nat, whose: seq<nat>, more: seq<nat>)
    requires lo <= mid <= hi && Lists(P, lo, mid, whose) && Lists(P, mid, hi, more)
    ensures Lists(P, lo, hi, whose + more)
  {
    forall j, k | 0 <= j < k < |whose + more| ensures (whose + more)[j] < (whose + more)[k] {
      assert j < |whose| ==> whose[j] in whose;
      assert k >= |whose| ==> more[k - |whose|] in more;
    }
  }

  lemma ListsPush(P: nat -> bool, lo: nat, n: nat, whose: seq<nat>)
    requires lo <= n && Lists(P, lo, n, whose)
    ensures Lists(P, lo, n + 1, if P(n) then whose + [n] else whose)
  {
    forall k | 0 <= k < |whose| ensures whose[k] < n {
      assert whose[k] in whose;
    }
  }

  lemma AlignedPush<T>(R: (nat, T) -> bool, whose: seq<nat>, k: nat, xs: seq<T>, x: T)
    requires k < |whose| && Aligned(R, whose[..k], xs) && R(whose[k], x)
    ensures Aligned(R, whose[..k + 1], xs + [x])
  {
  }

  lemma AlignedJoin<T>(R: (nat, T) -> bool, whose: seq<nat>, more: seq<nat>, xs: seq<T>, ys: seq<T>)
    requires Aligned(R, whose, xs) && Aligned(R, more, ys)
    ensures Aligned(R, whose + more, xs + ys)
  {
  }

  ghost predicate RowOf(scores: map<string, real>, ids: map<string, Id>, row: seq<CoEntry<real>>) {
    && (forall o :: o in scores ==> o in ids && CoEntry(ids[o], scores[o]) in row)
    && (forall e :: e in row ==> exists o :: o in scores && o in ids && e == CoEntry(ids[o], scores[o]))
    && (forall j, k :: 0 <= j < k < |row| ==> row[j].id != row[k].id)
  }

  /** A subject's scores as a co-occurrence row, in whatever order the map is visited. */
  method MakeRow(scores: map<string, real>, ids: map<string, Id>) returns (row: seq<CoEntry<real>>)
    requires scores.Keys <= ids.Keys && InjectiveIds(ids)
    ensures RowOf(scores, ids, row)
  {
    row := [];
    var todo := scores.Keys;
    while todo != {}
      invariant todo <= scores.Keys
      invariant forall o :: o in scores && o !in todo ==> CoEntry(ids[o], scores[o]) in row
      invariant forall e :: e in row ==> exists o :: o in scores && o !in todo && e == CoEntry(ids[o], scores[o])
      invariant forall j, k :: 0 <= j < k < |row| ==> row[j].id != row[k].id
      decreases todo
    {
      var o :| o in todo;
      forall k | 0 <= k < |row| ensures row[k].id != ids[o] {
        assert row[k] in row;
      }
      row, todo := row + [CoEntry(ids[o], scores[o])], todo - {o};
    }
  }

  datatype BuiltSubject = BuiltSubject(id: Id, vec: Sparse, scores: map<string, real>)

  ghost predicate Describes(w: Window, i: nat, b: BuiltSubject) {
    w.VectorFor(i, b.vec) && b.id == w.SubjectId(i) && b.scores == w.Scores(i)
  }

  ghost function Described(w: Window): (nat, BuiltSubject) -> bool {
    (i: nat, b: BuiltSubject) => Describes(w, i, b)
  }

  /** built holds exactly the buildable subjects among start..end-1, in order. */
  ghost predicate BuiltFrom(w: Window, start: nat, end: nat, built: seq<BuiltSubject>) {
    exists whose :: w.Picks(start, end, whose) && Aligned(Described(w), whose, built)
  }

  /** The vectors of one chunk; a subject that cannot be built is left out alone. */
  method BuildChunk(w: Window, start: nat, end: nat, found: Lookup, sqrt: real -> real) returns (built: seq<BuiltSubject>)
    requires start <= end <= |w.subjects| && w.Injective() && SquareRoot(sqrt)
    requires found.Found? && forall i :: start <= i < end ==> w.At(i) == found
    ensures BuiltFrom(w, start, end, built)
  {
    built := [];
    ghost var whose: seq<nat> := [];
    for i := start to end
      invariant w.Picks(start, i, whose)
      invariant Aligned(Described(w), whose, built)
    {
      assert w.At(i) == found;
      var subject := w.subjects[i];
      if subject in found.subjectIds {
        var scores := if subject in found.scores then found.scores[subject] else map[];
        var r, norm := BuildSubjectVector(scores, found.objectIds, sqrt);
        if r.Ok? {
          var b := BuiltSubject(found.subjectIds[subject], r.vec, scores);
          assert w.CanBuild()(i) && Described(w)(i, b);
          ListsPush(w.CanBuild(), start, i, whose);
          built, whose := built + [b], whose + [i];
          continue;
        }
      }
      assert !w.CanBuild()(i);
      ListsPush(w.CanBuild(), start, i, whose);
    }
  }

  ghost function Vectors(built: seq<BuiltSubject>): Points {
    if built == [] then map[] else Vectors(built[..|built| - 1])[built[|built| - 1].id := built[|built| - 1].vec]
  }

  ghost function BuiltIds(w: Window, whose: seq<nat>): set<Id> {
    set i | i in whose && w.Buildable(i) :: w.SubjectId(i)
  }

  lemma VectorAdded(w: Window, n: nat, points: Points, i: nat, b: BuiltSubject)
    requires All(w.Made(n), points) && i < n && Described(w)(i, b)
    ensures All(w.Made(n), points[b.id := b.vec])
  {
    assert w.BuiltPoint(n, b.id, b.vec);
    assert w.Made(n)(b.id, b.vec);
  }

  lemma OneBuiltId(w: Window, i: nat, b: BuiltSubject)
    requires Described(w)(i, b)
    ensures BuiltIds(w, [i]) == {b.id}
  {
    assert Describes(w, i, b);
  }

  lemma {:induction false} VectorsFrom(w: Window, n: nat, built: seq<BuiltSubject>, whose: seq<nat>)
    requires Aligned(Described(w), whose, built) && forall k :: 0 <= k < |whose| ==> whose[k] < n
    ensures All(w.Made(n), Vectors(built))
    ensures Vectors(built).Keys == BuiltIds(w, whose)
  {
    if built != [] {
      var m := |built| - 1;
      var b, init := built[m], built[..m];
      VectorsFrom(w, n, init, whose[..m]);
      assert Described(w)(whose[m], b);
      VectorAdded(w, n, Vectors(init), whose[m], b);
      OneBuiltId(w, whose[m], b);
      BuiltIdsJoin(w, whose[..m], [whose[m]]);
      assert whose == whose[..m] + [whose[m]];
    }
  }

  /** Where the subject phase stands. */
  datatype Tally = Tally(upserted: nat, failed: nat, keep: set<Id>, rows: Rows<real>)

  /** The chunks written so far: each answered its lookups, and none is missing unless its
      lookups or a write failed. */
  ghost predicate ChunksWritten(w: Window, n: nat, broken: nat, written: set<nat>) {
    && (forall c :: c in written ==> c * CHUNK < n && w.lookup(c).Found?)
    && (broken == 0 ==> forall i :: 0 <= i < n && w.At(i).Found? ==> i / CHUNK in written)
  }

  /** After n subjects: the keep-set is the ids of the buildable subjects of the written
      chunks, each stored with its vector; no chunk has failed exactly when every lookup and
      every write succeeded. */
  ghost predicate Progress(w: Window, n: nat, before: Points, now: Points, broken: nat, t: Tally, whose: seq<nat>, written: set<nat>, sent: seq<nat>) {
    && n <= |w.subjects| && w.Picks(0, n, whose) && w.RowsOf(whose, t.rows)
    && Stored(w.Made(n), before, now)
    && ChunksWritten(w, n, broken, written) && Lists(w.Landed(written), 0, n, sent)
    && t.upserted == |sent| && t.keep == BuiltIds(w, sent) && Kept(w.Made(n), now, t.keep)
    && (t.failed == 0 <==> broken == 0 && forall i :: 0 <= i < n ==> w.At(i).Found?)
  }

  lemma ListsSame(P: nat -> bool, Q: nat -> bool, lo: nat, hi: nat, whose: seq<nat>)
    requires Lists(P, lo, hi, whose) && forall i :: lo <= i < hi ==> P(i) == Q(i)
    ensures Lists(Q, lo, hi, whose)
  {
  }

  /** Two lists of the same numbers are the same list. */
  lemma {:induction false} ListsUnique(P: nat -> bool, lo: nat, hi: nat, a: seq<nat>, b: seq<nat>)
    requires lo <= hi && Lists(P, lo, hi, a) && Lists(P, lo, hi, b)
    ensures a == b
    decreases hi - lo
  {
    if lo == hi {
      NothingListed(P, lo, a);
      NothingListed(P, lo, b);
    } else {
      var m := hi - 1;
      var a' := WithoutLast(P, lo, m, a);
      var b' := WithoutLast(P, lo, m, b);
      ListsUnique(P, lo, m, a', b');
    }
  }

  lemma NothingListed(P: nat -> bool, lo: nat, whose: seq<nat>)
    requires Lists(P, lo, lo, whose)
    ensures whose == []
  {
    SomeElement(whose);
  }

  lemma SomeElement(xs: seq<nat>)
    ensures xs == [] || exists i :: i in xs
  {
    if xs != [] {
      assert xs[0] in xs;
    }
  }

  lemma WithoutLast(P: nat -> bool, lo: nat, m: nat, whose: seq<nat>) returns (init: seq<nat>)
    requires lo <= m && Lists(P, lo, m + 1, whose)
    ensures Lists(P, lo, m, init) && whose == if P(m) then init + [m] else init
  {
    init := whose;
    if P(m) {
      assert m in whose;
      var k := |whose| - 1;
      assert whose[k] in whose && whose[k] == m;
      init := whose[..k];
      forall i | i in init ensures i in whose && i != m {
      }
      forall i | i in whose && i != m ensures i in init {
        var j :| 0 <= j < |whose| && whose[j] == i;
        assert init[j] == i;
      }
    }
  }

  /** When no chunk failed everybody built was written. */
  lemma AllSent(w: Window, n: nat, before: Points, now: Points, broken: nat, t: Tally, whose: seq<nat>, written: set<nat>, sent: seq<nat>)
    requires Progress(w, n, before, now, broken, t, whose, written, sent) && t.failed == 0
    ensures sent == whose
  {
    ListsSame(w.Landed(written), w.CanBuild(), 0, n, sent);
    ListsUnique(w.CanBuild(), 0, n, sent, whose);
  }

  lemma MadeGrows(w: Window, m: nat, n: nat)
    requires m <= n
    ensures forall id, v :: w.Made(m)(id, v) ==> w.Made(n)(id, v)
  {
    forall id, v | w.Made(m)(id, v) ensures w.Made(n)(id, v) {
      assert w.BuiltPoint(m, id, v);
    }
  }

  lemma BuiltIdsJoin(w: Window, whose: seq<nat>, more: seq<nat>)
    ensures BuiltIds(w, whose + more) == BuiltIds(w, whose) + BuiltIds(w, more)
  {
  }

  lemma NobodyLanded(w: Window, m: nat, n: nat, written: set<nat>, sent: seq<nat>)
    requires m <= n && Lists(w.Landed(written), 0, m, sent) && forall i :: m <= i < n ==> !w.Landed(written)(i)
    ensures Lists(w.Landed(written), 0, n, sent)
  {
    assert Lists(w.Landed(written), m, n, []);
    ListsJoin(w.Landed(written), 0, m, n, sent, []);
    assert sent + [] == sent;
  }

  /** A chunk whose lookups failed only counts as failed. */
  lemma ChunkDropped(w: Window, m: nat, n: nat, before: Points, now: Points, broken: nat, t: Tally, whose: seq<nat>, written: set<nat>, sent: seq<nat>)
    requires Progress(w, m, before, now, broken, t, whose, written, sent) && m < n <= |w.subjects|
    requires forall i :: m <= i < n ==> w.At(i).Failed?
    ensures Progress(w, n, before, now, broken, t.(failed := t.failed + 1), whose, written, sent)
  {
    MadeGrows(w, m, n);
    assert w.At(m).Failed?;
    NobodyLanded(w, m, n, written, sent);
  }

  /** The tally after a chunk was built and sent. */
  function Counted(t: Tally, ok: bool, vectors: Points, rows: Rows<real>): Tally {
    if ok then Tally(t.upserted + |rows|, t.failed, t.keep + vectors.Keys, t.rows + rows)
    else Tally(t.upserted, t.failed + 1, t.keep, t.rows + rows)
  }

  /** The chunk beginning at m is the c-th. */
  predicate IsChunk(m: nat, n: nat, c: nat) {
    c * CHUNK == m < n <= m + CHUNK
  }

  lemma ChunkAdds(w: Window, m: nat, n: nat, c: nat, broken: nat, written: set<nat>, sent: seq<nat>, more: seq<nat>)
    requires IsChunk(m, n, c) && ChunksWritten(w, m, broken, written) && Lists(w.Landed(written), 0, m, sent)
    requires w.lookup(c).Found? && w.Picks(m, n, more)
    ensures ChunksWritten(w, n, broken, written + {c}) && Lists(w.Landed(written + {c}), 0, n, sent + more)
  {
    var written' := written + {c};
    forall i | 0 <= i < n ensures i >= m <==> i / CHUNK == c {
    }
    ListsSame(w.Landed(written), w.Landed(written'), 0, m, sent);
    ListsSame(w.CanBuild(), w.Landed(written'), m, n, more);
    ListsJoin(w.Landed(written'), 0, m, n, sent, more);
  }

  lemma ChunkLost(w: Window, m: nat, n: nat, c: nat, broken: nat, written: set<nat>, sent: seq<nat>)
    requires IsChunk(m, n, c) && ChunksWritten(w, m, broken, written) && Lists(w.Landed(written), 0, m, sent)
    ensures ChunksWritten(w, n, broken + 1, written) && Lists(w.Landed(written), 0, n, sent)
  {
    forall i | m <= i < n ensures !w.Landed(written)(i) {
      assert i / CHUNK == c;
    }
    NobodyLanded(w, m, n, written, sent);
  }

  lemma ChunkSent(w: Window, m: nat, n: nat, c: nat, before: Points, now: Points, broken: nat, t: Tally, whose: seq<nat>, written: set<nat>, sent: seq<nat>,
                  vectors: Points, more: seq<nat>, rows: Rows<real>, ok: bool, landed: set<Id>, now': Points)
    requires Progress(w, m, before, now, broken, t, whose, written, sent) && IsChunk(m, n, c) && n <= |w.subjects|
    requires w.lookup(c).Found? && forall i :: m <= i < n ==> w.At(i).Found?
    requires w.Picks(m, n, more) && w.RowsOf(more, rows)
    requires vectors.Keys == BuiltIds(w, more) && All(w.Made(n), vectors)
    requires now' == now + Only(vectors, landed) && (ok ==> landed == vectors.Keys)
    ensures Progress(w, n, before, now', if ok then broken else broken + 1, Counted(t, ok, vectors, rows), whose + more,
                     if ok then written + {c} else written, if ok then sent + more else sent)
  {
    MadeGrows(w, m, n);
    WriteKeeps(w.Made(m), w.Made(n), before, now, t.keep, vectors, landed);
    ListsJoin(w.CanBuild(), 0, m, n, whose, more);
    AlignedJoin(w.RowFor(), whose, more, t.rows, rows);
    if ok {
      ChunkAdds(w, m, n, c, broken, written, sent, more);
      BuiltIdsJoin(w, sent, more);
    } else {
      ChunkLost(w, m, n, c, broken, written, sent);
    }
  }

  /** The upsert batch and the co-occurrence rows of a built chunk. */
  method Collect(w: Window, built: seq<BuiltSubject>, ids: map<string, Id>, n: nat, ghost whose: seq<nat>) returns (vectors: Points, rows: Rows<real>)
    requires Aligned(Described(w), whose, built) && InjectiveIds(ids)
    requires forall k :: 0 <= k < |whose| ==> whose[k] < n && w.At(whose[k]).Found? && w.At(whose[k]).objectIds == ids
    ensures vectors.Keys == BuiltIds(w, whose) && All(w.Made(n), vectors)
    ensures w.RowsOf(whose, rows)
  {
    vectors, rows := map[], [];
    for k := 0 to |built|
      invariant vectors == Vectors(built[..k])
      invariant w.RowsOf(whose[..k], rows)
    {
      assert built[..k + 1][..k] == built[..k] && Described(w)(whose[k], built[k]);
      vectors := vectors[built[k].id := built[k].vec];
      var row := MakeRow(built[k].scores, ids);
      assert w.RowFor()(whose[k], row);
      AlignedPush(w.RowFor(), whose, k, rows, row);
      rows := rows + [row];
    }
    assert built[..|built|] == built && whose[..|whose|] == whose;
    VectorsFrom(w, n, built, whose);
  }

  /** Build a chunk whose lookups answered. */
  method ChunkBatch(w: Window, start: nat, end: nat, found: Lookup, sqrt: real -> real) returns (vectors: Points, rows: Rows<real>, ghost more: seq<nat>)
    requires start < end <= |w.subjects| && w.Injective() && SquareRoot(sqrt)
    requires found.Found? && forall i :: start <= i < end ==> w.At(i) == found
    ensures w.Picks(start, end, more) && w.RowsOf(more, rows)
    ensures vectors.Keys == BuiltIds(w, more) && All(w.Made(end), vectors)
  {
    var built := BuildChunk(w, start, end, found, sqrt);
    more :| w.Picks(start, end, more) && Aligned(Described(w), more, built);
    forall k | 0 <= k < |more| ensures start <= more[k] < end {
      assert more[k] in more;
    }
    assert w.At(start) == found;
    vectors, rows := Collect(w, built, found.objectIds, end, more);
  }

  method SendVectors(subs: Collection, vectors: Points) returns (ok: bool, ghost landed: set<Id>)
    modifies subs
    ensures subs.points == old(subs.points) + Only(vectors, landed) && (ok ==> landed == vectors.Keys)
    ensures subs.failedUpserts == old(subs.failedUpserts) + if ok then 0 else 1
    ensures subs.calls >= old(subs.calls) && (Steady(subs, old(subs.calls)) ==> ok)
  {
    ghost var now := subs.points;
    ok := subs.Upsert(vectors);
    landed := vectors.Keys;
    if ok {
      assert Only(vectors, landed) == vectors;
    } else {
      landed :| subs.points == now + Only(vectors, landed);
    }
  }

  /** One chunk: look up, build, upsert, and feed the co-occurrence rows. */
  method ProcessChunk(w: Window, start: nat, end: nat, subs: Collection, t: Tally, sqrt: real -> real,
                      ghost before: Points, ghost base: nat, ghost whose: seq<nat>, ghost written: set<nat>, ghost sent: seq<nat>)
    returns (t': Tally, ghost whose': seq<nat>, ghost written': set<nat>, ghost sent': seq<nat>)
    requires IsChunk(start, end, start / CHUNK) && end <= |w.subjects| && (forall i :: start <= i < end ==> w.At(i) == w.lookup(start / CHUNK))
    requires w.Injective() && SquareRoot(sqrt) && base <= subs.failedUpserts
    requires Progress(w, start, before, subs.points, subs.failedUpserts - base, t, whose, written, sent)
    modifies subs
    ensures base <= subs.failedUpserts && Progress(w, end, before, subs.points, subs.failedUpserts - base, t', whose', written', sent')
    ensures subs.calls >= old(subs.calls) && (Steady(subs, old(subs.calls)) ==> subs.failedUpserts == old(subs.failedUpserts))
  {
    ghost var now, broken := subs.points, subs.failedUpserts - base;
    var found := w.lookup(start / CHUNK);
    if found.Failed? {
      ChunkDropped(w, start, end, before, now, broken, t, whose, written, sent);
      return t.(failed := t.failed + 1), whose, written, sent;
    }
    var vectors, rows;
    ghost var more;
    vectors, rows, more := ChunkBatch(w, start, end, found, sqrt);
    var ok;
    ghost var landed;
    ok, landed := SendVectors(subs, vectors);
    ChunkSent(w, start, end, start / CHUNK, before, now, broken, t, whose, written, sent, vectors, more, rows, ok, landed, subs.points);
    t', whose' := Counted(t, ok, vectors, rows), whose + more;
    written', sent' := if ok then written + {start / CHUNK} else written, if ok then sent + more else sent;
  }

  method ProcessSubjects(w: Window, subs: Collection, sqrt: real -> real)
    returns (t: Tally, ghost whose: seq<nat>, ghost written: set<nat>, ghost sent: seq<nat>)
    requires w.Injective() && SquareRoot(sqrt)
    modifies subs
    ensures old(subs.failedUpserts) <= subs.failedUpserts
    ensures Progress(w, |w.subjects|, old(subs.points), subs.points, subs.failedUpserts - old(subs.failedUpserts), t, whose, written, sent)
    ensures subs.calls >= old(subs.calls) && (Steady(subs, old(subs.calls)) ==> subs.failedUpserts == old(subs.failedUpserts))
  {
    t, whose, written, sent := Tally(0, 0, {}, []), [], {}, [];
    var start := 0;
    while start < |w.subjects|
      invariant start <= |w.subjects| && (start % CHUNK == 0 || start == |w.subjects|)
      invariant old(subs.failedUpserts) <= subs.failedUpserts
      invariant Progress(w, start, old(subs.points), subs.points, subs.failedUpserts - old(subs.failedUpserts), t, whose, written, sent)
      invariant subs.calls >= old(subs.calls) && (Steady(subs, old(subs.calls)) ==> subs.failedUpserts == old(subs.failedUpserts))
    {
      var end := if start + CHUNK < |w.subjects| then start + CHUNK else |w.subjects|;
      forall i | start <= i < end ensures w.At(i) == w.lookup(start / CHUNK) {
        assert i / CHUNK == start / CHUNK;
      }
      t, whose, written, sent := ProcessChunk(w, start, end, subs, t, sqrt, old(subs.points), old(subs.failedUpserts), whose, written, sent);
      start := end;
    }
  }
}
