/** Feature hashing: every feature adds its sign to one slot, and the vector is normalised. */
module Hashing {
  import opened SparseVectors
  import Tokenizer

  const WORD: nat := 0x1_0000_0000_0000_0000

  const TOP_BIT: nat := 0x8000_0000_0000_0000

  type Hash = string -> nat

  function Slot(hash: Hash, dim: nat, f: string): nat
    requires dim > 0
  {
    hash(f) % WORD % dim
  }

  /** The hash's top bit decides the sign. */
  function Sign(hash: Hash, f: string): int {
    if hash(f) % WORD >= TOP_BIT then -1 else 1
  }

  /** The signed sum of the features that fall in slot j. */
  function Cell(hash: Hash, dim: nat, fs: seq<string>, j: nat): int
    requires dim > 0
  {
    if fs == [] then 0
    else Cell(hash, dim, fs[..|fs| - 1], j) + (if Slot(hash, dim, fs[|fs| - 1]) == j then Sign(hash, fs[|fs| - 1]) else 0)
  }

  /** The raw vector of a list of features, before normalising. */
  method SumFeatures(hash: Hash, dim: nat, fs: seq<string>) returns (vec: array<int>)
    requires dim > 0
    ensures fresh(vec) && vec.Length == dim && forall j :: 0 <= j < dim ==> vec[j] == Cell(hash, dim, fs, j)
  {
    vec := new int[dim](_ => 0);
    for n := 0 to |fs|
      invariant forall j :: 0 <= j < dim ==> vec[j] == Cell(hash, dim, fs[..n], j)
    {
      assert fs[..n + 1][..n] == fs[..n];
      var slot := Slot(hash, dim, fs[n]);
      vec[slot] := vec[slot] + Sign(hash, fs[n]);
    }
    assert fs[..|fs|] == fs;
  }

  predicate Falls(word: nat, dim: nat, j: nat, top: bool)
    requires dim > 0
  {
    word % dim == j && (word >= 0x8000_0000_0000_0000) == top
  }

  /** Feature n's 64-bit hash falls in slot j, with the top bit set or clear. */
  ghost function FallsAt(hash: Hash, dim: nat, fs: seq<string>, j: nat, top: bool): nat -> bool
    requires dim > 0
  {
    (n: nat) => n < |fs| && Falls(hash(fs[n]) % 0x1_0000_0000_0000_0000, dim, j, top)
  }

  ghost function Where(p: nat -> bool, n: nat): set<nat> {
    set k | 0 <= k < n && p(k)
  }

  lemma WhereNext(p: nat -> bool, n: nat, m: nat)
    requires m == n + 1
    ensures |Where(p, m)| == |Where(p, n)| + if p(n) then 1 else 0
  {
    assert Where(p, m) == if p(n) then Where(p, n) + {n} else Where(p, n);
  }

  lemma {:induction false} PrefixCounts(hash: Hash, dim: nat, fs: seq<string>, n: nat, j: nat)
    requires dim > 0 && n <= |fs|
    ensures Cell(hash, dim, fs[..n], j) == |Where(FallsAt(hash, dim, fs, j, false), n)| - |Where(FallsAt(hash, dim, fs, j, true), n)|
  {
    if n == 0 {
      assert Where(FallsAt(hash, dim, fs, j, false), 0) == {} && Where(FallsAt(hash, dim, fs, j, true), 0) == {};
    } else {
      PrefixCounts(hash, dim, fs, n - 1, j);
      WhereNext(FallsAt(hash, dim, fs, j, false), n - 1, n);
      WhereNext(FallsAt(hash, dim, fs, j, true), n - 1, n);
      assert fs[..n][..n - 1] == fs[..n - 1];
    }
  }

  /** A slot holds the number of features that fall in it with the top bit clear, less those
      with it set. */
  lemma CellCounts(hash: Hash, dim: nat, fs: seq<string>, j: nat)
    requires dim > 0
    ensures Cell(hash, dim, fs, j) == |Where(FallsAt(hash, dim, fs, j, false), |fs|)| - |Where(FallsAt(hash, dim, fs, j, true), |fs|)|
  {
    PrefixCounts(hash, dim, fs, |fs|, j);
    assert fs[..|fs|] == fs;
  }

  // ------------------------------------------------ laws of the raw vector

  lemma {:induction false} CellsAdd(hash: Hash, dim: nat, fs: seq<string>, gs: seq<string>, j: nat)
    requires dim > 0
    ensures Cell(hash, dim, fs + gs, j) == Cell(hash, dim, fs, j) + Cell(hash, dim, gs, j)
  {
    if gs == [] {
      assert fs + gs == fs;
    } else {
      var all := fs + gs;
      CellsAdd(hash, dim, fs, gs[..|gs| - 1], j);
      assert all[..|all| - 1] == fs + gs[..|gs| - 1] && all[|all| - 1] == gs[|gs| - 1];
    }
  }

  lemma SameRest(rest: seq<string>, a: seq<string>, f: string, b: seq<string>)
    requires multiset(rest + [f]) == multiset(a + [f] + b)
    ensures multiset(rest) == multiset(a + b)
  {
    assert multiset(rest + [f]) == multiset(rest) + multiset{f};
    assert multiset(a + [f] + b) == multiset(a + b) + multiset{f};
    assert multiset(rest) == multiset(rest + [f]) - multiset{f};
    assert multiset(a + b) == multiset(a + [f] + b) - multiset{f};
  }

  /** The order of the features does not matter. */
  lemma {:induction false} OrderIrrelevant(hash: Hash, dim: nat, fs: seq<string>, gs: seq<string>, j: nat)
    requires dim > 0 && multiset(fs) == multiset(gs)
    ensures Cell(hash, dim, fs, j) == Cell(hash, dim, gs, j)
    decreases |fs|
  {
    if fs == [] {
      assert |multiset(gs)| == |gs|;
    } else {
      var last := |fs| - 1;
      var f := fs[last];
      assert fs == fs[..last] + [f];
      assert f in multiset(gs);
      var k :| 0 <= k < |gs| && gs[k] == f;
      var a, b := gs[..k], gs[k + 1..];
      assert gs == a + [f] + b;
      SameRest(fs[..last], a, f, b);
      OrderIrrelevant(hash, dim, fs[..last], a + b, j);
      CellsAdd(hash, dim, a, b, j);
      CellsAdd(hash, dim, a + [f], b, j);
      CellsAdd(hash, dim, a, [f], j);
      CellsAdd(hash, dim, fs[..last], [f], j);
    }
  }

  function Magnitude(x: int): nat {
    if x < 0 then -x else x
  }

  /** Magnitudes of the first n cells together. */
  function Mass(hash: Hash, dim: nat, fs: seq<string>, n: nat): nat
    requires dim > 0
  {
    if n == 0 then 0 else Mass(hash, dim, fs, n - 1) + Magnitude(Cell(hash, dim, fs, n - 1))
  }

  function Total(hash: Hash, dim: nat, fs: seq<string>, n: nat): int
    requires dim > 0
  {
    if n == 0 then 0 else Total(hash, dim, fs, n - 1) + Cell(hash, dim, fs, n - 1)
  }

  /** One more feature changes one cell by one. */
  lemma {:induction false} OneMore(hash: Hash, dim: nat, fs: seq<string>, n: nat)
    requires dim > 0 && fs != []
    ensures var init, f := fs[..|fs| - 1], fs[|fs| - 1];
            && Mass(hash, dim, fs, n) <= Mass(hash, dim, init, n) + (if Slot(hash, dim, f) < n then 1 else 0)
            && Total(hash, dim, fs, n) == Total(hash, dim, init, n) + (if Slot(hash, dim, f) < n then Sign(hash, f) else 0)
  {
    if n > 0 {
      OneMore(hash, dim, fs, n - 1);
    }
  }

  lemma {:induction false} NoMass(hash: Hash, dim: nat, n: nat)
    requires dim > 0
    ensures Mass(hash, dim, [], n) == 0 && Total(hash, dim, [], n) == 0
  {
    if n > 0 {
      NoMass(hash, dim, n - 1);
    }
  }

  /** All cells together are no larger than the feature count, and of its parity. */
  lemma {:induction false} MassBounded(hash: Hash, dim: nat, fs: seq<string>)
    requires dim > 0
    ensures Mass(hash, dim, fs, dim) <= |fs|
    ensures (Total(hash, dim, fs, dim) - |fs|) % 2 == 0
  {
    if fs == [] {
      NoMass(hash, dim, dim);
    } else {
      MassBounded(hash, dim, fs[..|fs| - 1]);
      OneMore(hash, dim, fs, dim);
    }
  }

  lemma {:induction false} CellWithinMass(hash: Hash, dim: nat, fs: seq<string>, n: nat, j: nat)
    requires dim > 0 && j < n
    ensures Magnitude(Cell(hash, dim, fs, j)) <= Mass(hash, dim, fs, n)
  {
    if j < n - 1 {
      CellWithinMass(hash, dim, fs, n - 1, j);
    }
  }

  lemma {:induction false} ZeroTotal(hash: Hash, dim: nat, fs: seq<string>, n: nat)
    requires dim > 0 && forall j :: 0 <= j < n ==> Cell(hash, dim, fs, j) == 0
    ensures Total(hash, dim, fs, n) == 0
  {
    if n > 0 {
      ZeroTotal(hash, dim, fs, n - 1);
    }
  }

  /** No entry exceeds the feature count; an odd number of features never cancels out. */
  lemma RawBoundedAndOddNonzero(hash: Hash, dim: nat, fs: seq<string>)
    requires dim > 0
    ensures forall j :: 0 <= j < dim ==> -|fs| <= Cell(hash, dim, fs, j) <= |fs|
    ensures |fs| % 2 == 1 ==> exists j :: 0 <= j < dim && Cell(hash, dim, fs, j) != 0
  {
    MassBounded(hash, dim, fs);
    forall j | 0 <= j < dim ensures -|fs| <= Cell(hash, dim, fs, j) <= |fs| {
      CellWithinMass(hash, dim, fs, dim, j);
    }
    if forall j :: 0 <= j < dim ==> Cell(hash, dim, fs, j) == 0 {
      ZeroTotal(hash, dim, fs, dim);
    }
  }

  // ------------------------------------------------ the strategy

  datatype Embedding = ZeroNorm | Embedded(vec: seq<real>)

  function RawOf(hash: Hash, dim: nat, fs: seq<string>): seq<real>
    requires dim > 0
  {
    seq(dim, j requires 0 <= j < dim => Cell(hash, dim, fs, j) as real)
  }

  /** The raw vector of a text. */
  function Raw(hash: Hash, tables: Tokenizer.Tables, dim: nat, text: string): seq<real>
    requires dim > 0
  {
    RawOf(hash, dim, Tokenizer.Features(tables, text))
  }

  /** Raw vectors of texts joined by a space add up. */
  lemma RawAdds(hash: Hash, tables: Tokenizer.Tables, dim: nat, a: string, space: char, b: string, j: nat)
    requires dim > 0 && tables.isSpace(space) && j < dim
    ensures Raw(hash, tables, dim, a + [space] + b)[j] == Raw(hash, tables, dim, a)[j] + Raw(hash, tables, dim, b)[j]
  {
    Tokenizer.SpaceSeparates(tables, a, space, b);
    CellsAdd(hash, dim, Tokenizer.Features(tables, a), Tokenizer.Features(tables, b), j);
  }

  /** vec points the same way as raw and has unit length. */
  ghost predicate UnitOf(raw: seq<real>, vec: seq<real>) {
    SumSq(vec) == 1.0 && exists norm :: norm > 0.0 && vec == Scaled(raw, norm)
  }

  lemma RawZero(hash: Hash, dim: nat, fs: seq<string>)
    requires dim > 0
    ensures SumSq(RawOf(hash, dim, fs)) == 0.0 <==> forall j :: 0 <= j < dim ==> Cell(hash, dim, fs, j) == 0
  {
    var raw := RawOf(hash, dim, fs);
    ZeroSumSq(raw);
    if SumSq(raw) == 0.0 {
      forall j | 0 <= j < dim ensures Cell(hash, dim, fs, j) == 0 {
        assert raw[j] == 0.0;
      }
    } else {
      var k :| 0 <= k < |raw| && raw[k] != 0.0;
      assert raw[k] == Cell(hash, dim, fs, k) as real;
      assert !(Cell(hash, dim, fs, k) == 0);
    }
  }

  method RawArray(hash: Hash, dim: nat, fs: seq<string>) returns (vec: array<real>)
    requires dim > 0
    ensures fresh(vec) && vec[..] == RawOf(hash, dim, fs)
  {
    var counts := SumFeatures(hash, dim, fs);
    vec := new real[dim](_ => 0.0);
    for j := 0 to dim
      invariant forall k :: 0 <= k < dim ==> counts[k] == Cell(hash, dim, fs, k)
      invariant forall k :: 0 <= k < j ==> vec[k] == Cell(hash, dim, fs, k) as real
    {
      vec[j] := counts[j] as real;
    }
  }

  /** The embedding is the raw vector scaled to unit length; there is none exactly when every
      cell is zero, which an odd number of features rules out. */
  method Embed(hash: Hash, tables: Tokenizer.Tables, dim: nat, lowered: string, sqrt: real -> real) returns (e: Embedding)
    requires dim > 0 && SquareRoot(sqrt)
    ensures e.ZeroNorm? <==> forall j :: 0 <= j < dim ==> Cell(hash, dim, Tokenizer.Features(tables, lowered), j) == 0
    ensures |Tokenizer.Features(tables, lowered)| % 2 == 1 ==> e.Embedded?
    ensures e.Embedded? ==> UnitOf(Raw(hash, tables, dim, lowered), e.vec)
  {
    var features := Tokenizer.Tokenize(tables, lowered);
    e := EmbedFeatures(hash, dim, features, sqrt);
  }

  method EmbedFeatures(hash: Hash, dim: nat, fs: seq<string>, sqrt: real -> real) returns (e: Embedding)
    requires dim > 0 && SquareRoot(sqrt)
    ensures e.ZeroNorm? <==> forall j :: 0 <= j < dim ==> Cell(hash, dim, fs, j) == 0
    ensures |fs| % 2 == 1 ==> e.Embedded?
    ensures e.Embedded? ==> UnitOf(RawOf(hash, dim, fs), e.vec)
  {
    RawBoundedAndOddNonzero(hash, dim, fs);
    if fs == [] {
      return ZeroNorm;
    }
    var vec := RawArray(hash, dim, fs);
    RawZero(hash, dim, fs);
    var norm := L2Normalize(vec, sqrt);
    UnitUnlessZero(RawOf(hash, dim, fs), norm);
    if norm == 0.0 {
      return ZeroNorm;
    }
    return Embedded(vec[..]);
  }

  lemma UnitUnlessZero(raw: seq<real>, norm: real)
    requires norm >= 0.0 && Sq(norm) == SumSq(raw)
    ensures norm == 0.0 <==> SumSq(raw) == 0.0
    ensures norm > 0.0 ==> SumSq(Scaled(raw, norm)) == 1.0
  {
    if norm > 0.0 {
      SquarePositive(norm);
      ScaledIsUnit(raw, norm, SumSq(raw));
    }
  }
}
