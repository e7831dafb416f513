/** From lowered text to features: split on spaces, drop URLs, trim punctuation, and emit
    each token with its shorter character windows. */
module Tokenizer {

  const NGRAM_MIN: nat := 3

  const NGRAM_MAX: nat := 5

  /** Unicode's space and punctuation tables. */
  datatype Tables = Tables(isSpace: char -> bool, isPunct: char -> bool)

  // ------------------------------------------------ what the features are

  predicate IsUrl(word: string) {
    "http://" <= word || "https://" <= word
  }

  /** Where the punctuation from index k on ends. */
  function Lead(isPunct: char -> bool, word: string, k: nat): (r: nat)
    requires k <= |word|
    ensures k <= r <= |word| && (r < |word| ==> !isPunct(word[r])) && forall j :: k <= j < r ==> isPunct(word[j])
    decreases |word| - k
  {
    if k < |word| && isPunct(word[k]) then Lead(isPunct, word, k + 1) else k
  }

  /** Where the punctuation up to index k, and after lo, starts. */
  function Trail(isPunct: char -> bool, word: string, lo: nat, k: nat): (r: nat)
    requires lo <= k <= |word|
    ensures lo <= r <= k && (lo < r ==> !isPunct(word[r - 1])) && forall j :: r <= j < k ==> isPunct(word[j])
    decreases k
  {
    if lo < k && isPunct(word[k - 1]) then Trail(isPunct, word, lo, k - 1) else k
  }

  /** The word without leading and trailing punctuation. */
  function Trim(isPunct: char -> bool, word: string): string {
    var lo := Lead(isPunct, word, 0);
    word[lo..Trail(isPunct, word, lo, |word|)]
  }

  /** Every window of n characters, left to right, if shorter than the token. */
  function Windows(token: string, n: nat): (ws: seq<string>)
    ensures |ws| == if n >= |token| then 0 else |token| - n + 1
    ensures forall i :: 0 <= i < |ws| ==> ws[i] == token[i..i + n]
  {
    if n >= |token| then [] else seq(|token| - n + 1, i requires 0 <= i < |token| - n + 1 => token[i..i + n])
  }

  /** The windows of lengths 3..n. */
  function WindowsUpTo(token: string, n: nat): seq<string> {
    if n < NGRAM_MIN then [] else WindowsUpTo(token, n - 1) + Windows(token, n)
  }

  function TokenFeatures(token: string): seq<string> {
    [token] + WindowsUpTo(token, NGRAM_MAX)
  }

  function WordFeatures(tables: Tables, word: string): seq<string> {
    var token := Trim(tables.isPunct, word);
    if IsUrl(word) || token == [] then [] else TokenFeatures(token)
  }

  function FirstSpace(isSpace: char -> bool, s: string): (i: nat)
    ensures i <= |s| && (i < |s| ==> isSpace(s[i]))
    ensures forall k :: 0 <= k < i ==> !isSpace(s[k])
  {
    if s == [] || isSpace(s[0]) then 0 else 1 + FirstSpace(isSpace, s[1..])
  }

  lemma FirstSpaceAt(isSpace: char -> bool, s: string, i: nat)
    requires i <= |s| && (i < |s| ==> isSpace(s[i])) && forall k :: 0 <= k < i ==> !isSpace(s[k])
    ensures FirstSpace(isSpace, s) == i
  {
    var j := FirstSpace(isSpace, s);
    assert !(j < i) && !(i < j);
  }

  /** What `each` makes of the space-separated words, in order. */
  function PerWord(isSpace: char -> bool, each: string -> seq<string>, s: string): seq<string>
    decreases |s|
  {
    var i := FirstSpace(isSpace, s);
    if i < |s| then each(s[..i]) + PerWord(isSpace, each, s[i + 1..]) else each(s)
  }

  function Joined(a: string, space: char, b: string): string {
    a + [space] + b
  }

  predicate SpaceFree(isSpace: char -> bool, s: string) {
    forall k :: 0 <= k < |s| ==> !isSpace(s[k])
  }

  /** pw treats a text word by word. */
  ghost predicate SplitsWords(isSpace: char -> bool, each: string -> seq<string>, pw: string -> seq<string>) {
    && (forall s :: SpaceFree(isSpace, s) ==> pw(s) == each(s))
    && (forall a, space, b :: SpaceFree(isSpace, a) && isSpace(space) ==> pw(Joined(a, space, b)) == each(a) + pw(b))
  }

  lemma PerWordSplits(isSpace: char -> bool, each: string -> seq<string>)
    ensures SplitsWords(isSpace, each, s => PerWord(isSpace, each, s))
  {
    forall s | SpaceFree(isSpace, s) ensures PerWord(isSpace, each, s) == each(s) {
      FirstSpaceAt(isSpace, s, |s|);
    }
    forall a, space, b | SpaceFree(isSpace, a) && isSpace(space)
      ensures PerWord(isSpace, each, Joined(a, space, b)) == each(a) + PerWord(isSpace, each, b)
    {
      PerWordJoined(isSpace, each, a, space, b);
    }
  }

  lemma PerWordJoined(isSpace: char -> bool, each: string -> seq<string>, a: string, space: char, b: string)
    requires SpaceFree(isSpace, a) && isSpace(space)
    ensures PerWord(isSpace, each, Joined(a, space, b)) == each(a) + PerWord(isSpace, each, b)
  {
    var s := Joined(a, space, b);
    FirstSpaceAt(isSpace, s, |a|);
    assert s[..|a|] == a && s[|a| + 1..] == b;
  }

  function Each(tables: Tables): string -> seq<string> {
    word => WordFeatures(tables, word)
  }

  /** The features of a text are those of its words. */
  function Features(tables: Tables, s: string): seq<string> {
    PerWord(tables.isSpace, Each(tables), s)
  }

  // ------------------------------------------------ the tokenizer

  method TrimFunc(isPunct: char -> bool, word: string) returns (token: string)
    ensures token == Trim(isPunct, word)
  {
    var lo := 0;
    while lo < |word| && isPunct(word[lo])
      invariant lo <= |word| && Lead(isPunct, word, lo) == Lead(isPunct, word, 0)
    {
      lo := lo + 1;
    }
    var hi := |word|;
    while lo < hi && isPunct(word[hi - 1])
      invariant lo <= hi <= |word| && Trail(isPunct, word, lo, hi) == Trail(isPunct, word, lo, |word|)
    {
      hi := hi - 1;
    }
    token := word[lo..hi];
  }

  method AppendWindows(token: string, features: seq<string>) returns (out: seq<string>)
    ensures out == features + WindowsUpTo(token, NGRAM_MAX)
  {
    out := features;
    var n := NGRAM_MIN;
    while n <= NGRAM_MAX
      invariant NGRAM_MIN <= n <= NGRAM_MAX + 1 && out == features + WindowsUpTo(token, n - 1)
    {
      if n >= |token| {
        NoLongerWindows(token, n - 1);
        return;
      }
      out := AppendLength(token, n, out);
      n := n + 1;
    }
  }

  method AppendLength(token: string, n: nat, features: seq<string>) returns (out: seq<string>)
    requires n < |token|
    ensures out == features + Windows(token, n)
  {
    out := features;
    ghost var ws := Windows(token, n);
    for i := 0 to |token| - n + 1
      invariant out == features + ws[..i]
    {
      assert ws[..i + 1] == ws[..i] + [token[i..i + n]];
      out := out + [token[i..i + n]];
    }
    assert ws[..|ws|] == ws;
  }

  /** Once a window would reach the token's length, longer ones add nothing. */
  lemma {:induction false} NoLongerWindows(token: string, n: nat)
    requires n + 1 >= |token| && n <= NGRAM_MAX
    ensures WindowsUpTo(token, NGRAM_MAX) == WindowsUpTo(token, n)
    decreases NGRAM_MAX - n
  {
    if n < NGRAM_MAX {
      NoLongerWindows(token, n + 1);
      assert Windows(token, n + 1) == [];
    }
  }

  method Flush(tables: Tables, word: string, features: seq<string>) returns (out: seq<string>)
    ensures out == features + WordFeatures(tables, word)
  {
    out := features;
    if word == [] || "http://" <= word || "https://" <= word {
      return;
    }
    var token := TrimFunc(tables.isPunct, word);
    if token == [] {
      return;
    }
    out := AppendWindows(token, out + [token]);
    assert out == features + TokenFeatures(token);
  }

  method FlushWord(tables: Tables, word: string, features: seq<string>) returns (out: seq<string>)
    ensures out == features + Each(tables)(word)
  {
    out := Flush(tables, word, features);
  }

  lemma Associate(x: seq<string>, y: seq<string>, z: seq<string>)
    ensures x + y + z == x + (y + z)
  {
  }

  /** The rune loop's state: `word` is open, `tail` is unread, and what is read so far is out. */
  ghost predicate Reading(isSpace: char -> bool, pw: string -> seq<string>, all: seq<string>, features: seq<string>, word: string, tail: string) {
    SpaceFree(isSpace, word) && all == features + pw(word + tail)
  }

  lemma ReadSpace(isSpace: char -> bool, each: string -> seq<string>, pw: string -> seq<string>, all: seq<string>, features: seq<string>, word: string, tail: string)
    requires SplitsWords(isSpace, each, pw) && Reading(isSpace, pw, all, features, word, tail) && tail != [] && isSpace(tail[0])
    ensures Reading(isSpace, pw, all, features + each(word), [], tail[1..])
  {
    var after := tail[1..];
    assert word + tail == Joined(word, tail[0], after);
    assert [] + after == after;
    Associate(features, each(word), pw(after));
  }

  lemma ReadRune(isSpace: char -> bool, pw: string -> seq<string>, all: seq<string>, features: seq<string>, word: string, tail: string)
    requires Reading(isSpace, pw, all, features, word, tail) && tail != [] && !isSpace(tail[0])
    ensures Reading(isSpace, pw, all, features, word + [tail[0]], tail[1..])
  {
    assert word + [tail[0]] + tail[1..] == word + tail;
  }

  lemma ReadEnd(isSpace: char -> bool, each: string -> seq<string>, pw: string -> seq<string>, all: seq<string>, features: seq<string>, word: string)
    requires SplitsWords(isSpace, each, pw) && Reading(isSpace, pw, all, features, word, [])
    ensures all == features + each(word)
  {
    assert word + [] == word;
  }

  /** The rune loop, for any word-by-word reading of the text. */
  method TokenizeBy(tables: Tables, lowered: string, ghost pw: string -> seq<string>) returns (features: seq<string>)
    requires SplitsWords(tables.isSpace, Each(tables), pw)
    ensures features == pw(lowered)
  {
    features := [];
    var word: string := [];
    ghost var tail := lowered;
    assert [] + tail == tail;
    for k := 0 to |lowered|
      invariant tail == lowered[k..] && Reading(tables.isSpace, pw, pw(lowered), features, word, tail)
    {
      var r := lowered[k];
      assert tail[1..] == lowered[k + 1..];
      if tables.isSpace(r) {
        ReadSpace(tables.isSpace, Each(tables), pw, pw(lowered), features, word, tail);
        features := FlushWord(tables, word, features);
        word := [];
      } else {
        ReadRune(tables.isSpace, pw, pw(lowered), features, word, tail);
        word := word + [r];
      }
      tail := tail[1..];
    }
    ReadEnd(tables.isSpace, Each(tables), pw, pw(lowered), features, word);
    features := FlushWord(tables, word, features);
  }

  method Tokenize(tables: Tables, lowered: string) returns (features: seq<string>)
    ensures features == Features(tables, lowered)
  {
    PerWordSplits(tables.isSpace, Each(tables));
    features := TokenizeBy(tables, lowered, s => PerWord(tables.isSpace, Each(tables), s));
  }

  // ------------------------------------------------ laws

  lemma FindSpace(isSpace: char -> bool, s: string) returns (i: nat)
    ensures i <= |s| && SpaceFree(isSpace, s[..i]) && (i < |s| ==> isSpace(s[i]))
  {
    i := FirstSpace(isSpace, s);
  }

  lemma {:induction false} WordsSeparate(isSpace: char -> bool, each: string -> seq<string>, pw: string -> seq<string>, a: string, space: char, b: string)
    requires isSpace(space) && SplitsWords(isSpace, each, pw)
    ensures pw(Joined(a, space, b)) == pw(a) + pw(b)
    decreases |a|
  {
    var i := FindSpace(isSpace, a);
    if i < |a| {
      var x, y := a[..i], a[i + 1..];
      WordsSeparate(isSpace, each, pw, y, space, b);
      assert a == Joined(x, a[i], y);
      assert Joined(a, space, b) == Joined(x, a[i], Joined(y, space, b));
      Associate(each(x), pw(y), pw(b));
    } else {
      assert a[..i] == a;
    }
  }

  /** A space separates texts completely. */
  lemma SpaceSeparates(tables: Tables, a: string, space: char, b: string)
    requires tables.isSpace(space)
    ensures Features(tables, a + [space] + b) == Features(tables, a) + Features(tables, b)
  {
    PerWordSplits(tables.isSpace, Each(tables));
    WordsSeparate(tables.isSpace, Each(tables), s => PerWord(tables.isSpace, Each(tables), s), a, space, b);
  }

  /** Trimming removes punctuation at both ends, all of it, and nothing else. */
  lemma TrimExactly(isPunct: char -> bool, word: string) returns (lo: nat, hi: nat)
    ensures lo <= hi <= |word| && Trim(isPunct, word) == word[lo..hi]
    ensures forall k :: 0 <= k < lo || hi <= k < |word| ==> isPunct(word[k])
    ensures lo < hi ==> !isPunct(word[lo]) && !isPunct(word[hi - 1])
  {
    lo := Lead(isPunct, word, 0);
    hi := Trail(isPunct, word, lo, |word|);
  }

  /** How often f is among the features. */
  function Count(fs: seq<string>, f: string): nat {
    if |fs| == 0 then 0 else Count(fs[..|fs| - 1], f) + if fs[|fs| - 1] == f then 1 else 0
  }

  lemma {:induction false} CountJoin(a: seq<string>, b: seq<string>, f: string)
    ensures Count(a + b, f) == Count(a, f) + Count(b, f)
    decreases |b|
  {
    if |b| == 0 {
      assert a + b == a;
    } else {
      CountJoin(a, b[..|b| - 1], f);
      assert (a + b)[..|a + b| - 1] == a + b[..|b| - 1];
    }
  }

  /** Positions i < n where f occurs in the token. */
  function Occurrences(token: string, f: string, n: nat): nat
    requires n <= |token| - |f| + 1
  {
    if n == 0 then 0 else Occurrences(token, f, n - 1) + if token[n - 1..n - 1 + |f|] == f then 1 else 0
  }

  /** Windows of n characters equal to f. */
  function WindowsEqual(token: string, f: string, n: nat): nat {
    if |f| == n < |token| then Occurrences(token, f, |token| - n + 1) else 0
  }

  lemma {:induction false} WindowPrefixCount(token: string, n: nat, f: string, m: nat)
    requires n < |token| && m <= |token| - n + 1
    ensures Count(Windows(token, n)[..m], f) == if |f| == n then Occurrences(token, f, m) else 0
  {
    if m > 0 {
      WindowPrefixCount(token, n, f, m - 1);
      assert Windows(token, n)[..m][..m - 1] == Windows(token, n)[..m - 1];
    }
  }

  lemma WindowCount(token: string, n: nat, f: string)
    ensures Count(Windows(token, n), f) == WindowsEqual(token, f, n)
  {
    var ws := Windows(token, n);
    if n < |token| {
      WindowPrefixCount(token, n, f, |ws|);
      assert ws[..|ws|] == ws;
    }
  }

  /** f's occurrences among the windows of lengths 3..n. */
  function Expected(token: string, f: string, n: nat): nat {
    if NGRAM_MIN <= |f| <= n then WindowsEqual(token, f, |f|) else 0
  }

  lemma {:induction false} WindowsUpToCount(token: string, f: string, n: nat)
    ensures Count(WindowsUpTo(token, n), f) == Expected(token, f, n)
  {
    if n >= NGRAM_MIN {
      WindowsUpToCount(token, f, n - 1);
      WindowCount(token, n, f);
      CountJoin(WindowsUpTo(token, n - 1), Windows(token, n), f);
    }
  }

  /** A token's features are itself once and every window of 3 to 5 characters that is
      strictly shorter, once per position. */
  lemma TokenFeaturesExactly(token: string, f: string)
    ensures TokenFeatures(token)[0] == token
    ensures Count(TokenFeatures(token), f) == (if 3 <= |f| <= 5 then WindowsEqual(token, f, |f|) else 0) + if f == token then 1 else 0
  {
    WindowsUpToCount(token, f, NGRAM_MAX);
    CountJoin([token], WindowsUpTo(token, NGRAM_MAX), f);
    assert |[token][..0]| == 0;
  }
}
