/** `str.count` and `str.index`, and what `count == 1` says about a quote. */
module Occurrences {

  predicate OccursAt(text: string, quote: string, i: nat) {
    i + |quote| <= |text| && text[i..i + |quote|] == quote
  }

  /** Python's count from position `i`: left to right, resuming after each match. The
      empty string matches at every position, ends included. */
  function CountFrom(text: string, quote: string, i: nat): nat
    requires i <= |text|
    decreases |text| - i
  {
    if quote == "" then |text| - i + 1
    else if |text| - i < |quote| then 0
    else if OccursAt(text, quote, i) then 1 + CountFrom(text, quote, i + |quote|)
    else CountFrom(text, quote, i + 1)
  }

  function Count(text: string, quote: string): nat {
    CountFrom(text, quote, 0)
  }

  /** `str.index`: the leftmost occurrence at or after `i`, or `|text| + 1`. */
  function IndexFrom(text: string, quote: string, i: nat): (start: nat)
    requires i <= |text| + 1
    ensures i <= start <= |text| + 1
    ensures start <= |text| ==> OccursAt(text, quote, start)
    ensures forall x: nat :: i <= x < start ==> !OccursAt(text, quote, x)
    decreases |text| + 1 - i
  {
    if i == |text| + 1 || OccursAt(text, quote, i) then i else IndexFrom(text, quote, i + 1)
  }

  // ---- the greedy count is optimal -----------------------------------------------

  ghost predicate AllOccur(text: string, quote: string, starts: set<nat>) {
    forall i: nat :: i in starts ==> OccursAt(text, quote, i)
  }

  /** No two of the occurrences share a character. */
  ghost predicate PairwiseDisjoint(quote: string, starts: set<nat>) {
    forall i: nat, k: nat :: i in starts && k in starts && i < k ==> i + |quote| <= k
  }

  ghost predicate Packing(text: string, quote: string, starts: set<nat>) {
    AllOccur(text, quote, starts) && PairwiseDisjoint(quote, starts)
  }

  /** The occurrences the scan stops at are pairwise disjoint, and it counts them all. */
  lemma {:induction false} GreedyPacking(text: string, quote: string, i: nat) returns (starts: set<nat>)
    requires quote != "" && i <= |text|
    ensures Packing(text, quote, starts) && |starts| == CountFrom(text, quote, i)
    ensures forall k: nat :: k in starts ==> i <= k
    decreases |text| - i
  {
    if |text| - i < |quote| {
      starts := {};
    } else if OccursAt(text, quote, i) {
      var rest := GreedyPacking(text, quote, i + |quote|);
      starts := {i} + rest;
    } else {
      starts := GreedyPacking(text, quote, i + 1);
    }
  }

  /** A packing has at most one member that starts within the reach of a match at `i`. */
  lemma WithoutEarly(text: string, quote: string, i: nat, starts: set<nat>) returns (rest: set<nat>)
    requires Packing(text, quote, starts)
    requires forall k: nat :: k in starts ==> i <= k
    ensures Packing(text, quote, rest) && |starts| <= 1 + |rest|
    ensures forall k: nat :: k in rest ==> i + |quote| <= k
  {
    rest := starts;
    if early: nat :| early in starts && early < i + |quote| {
      rest := starts - {early};
      assert forall k: nat :: k in rest ==> early < k || k < early;
    }
  }

  lemma NoneFit(text: string, quote: string, i: nat, starts: set<nat>)
    requires AllOccur(text, quote, starts) && |text| < i + |quote|
    requires forall k: nat :: k in starts ==> i <= k
    ensures starts == {}
  {
    assert forall k: nat :: k in starts ==> OccursAt(text, quote, k);
  }

  /** No family of pairwise disjoint occurrences is larger than the scan's. */
  lemma {:induction false} NoLargerPacking(text: string, quote: string, i: nat, starts: set<nat>)
    requires quote != "" && i <= |text| && Packing(text, quote, starts)
    requires forall k: nat :: k in starts ==> i <= k
    ensures |starts| <= CountFrom(text, quote, i)
    decreases |text| - i
  {
    if |text| - i < |quote| {
      NoneFit(text, quote, i, starts);
      return;
    }
    if !OccursAt(text, quote, i) {
      assert i !in starts;
      NoLargerPacking(text, quote, i + 1, starts);
      return;
    }
    var rest := WithoutEarly(text, quote, i, starts);
    NoLargerPacking(text, quote, i + |quote|, rest);
  }

  /** The count is the largest number of pairwise disjoint occurrences. */
  lemma CountIsMaximal(text: string, quote: string)
    requires quote != ""
    ensures exists starts :: Packing(text, quote, starts) && |starts| == Count(text, quote)
    ensures forall starts :: Packing(text, quote, starts) ==> |starts| <= Count(text, quote)
  {
    var best := GreedyPacking(text, quote, 0);
    forall starts | Packing(text, quote, starts) ensures |starts| <= Count(text, quote) {
      NoLargerPacking(text, quote, 0, starts);
    }
  }

  // ---- what `count == 1` says --------------------------------------------------------

  ghost predicate Overlap(quote: string, i: nat, k: nat) {
    i < k + |quote| && k < i + |quote|
  }

  /** A quote is counted once exactly when it occurs and any two different occurrences
      overlap. The empty quote, which overlaps nothing, is counted once in the empty text. */
  lemma CountedOnceIff(text: string, quote: string)
    ensures Count(text, quote) == 1 <==>
      && (exists i: nat :: OccursAt(text, quote, i))
      && (forall i: nat, k: nat ::
            OccursAt(text, quote, i) && OccursAt(text, quote, k) ==> i == k || Overlap(quote, i, k))
  {
    if quote == "" {
      assert OccursAt(text, quote, 0) && OccursAt(text, quote, |text|);
    } else {
      CountedOnceProperly(text, quote);
    }
  }

  lemma CountedOnceProperly(text: string, quote: string)
    requires quote != ""
    ensures Count(text, quote) == 1 <==>
      && (exists i: nat :: OccursAt(text, quote, i))
      && (forall i: nat, k: nat :: OccursAt(text, quote, i) && OccursAt(text, quote, k) ==> Overlap(quote, i, k))
  {
    CountIsMaximal(text, quote);
    if Count(text, quote) == 1 {
      var best :| Packing(text, quote, best) && |best| == 1;
      assert best != {};
      var i: nat :| i in best;
      assert OccursAt(text, quote, i);
      forall a: nat, b: nat | OccursAt(text, quote, a) && OccursAt(text, quote, b) ensures Overlap(quote, a, b) {
        var both := {a, b};
        assert !Overlap(quote, a, b) ==> Packing(text, quote, both) && |both| == 2;
      }
    } else if Count(text, quote) == 0 {
      forall i: nat | OccursAt(text, quote, i) ensures false {
        assert Packing(text, quote, {i});
      }
    } else {
      var best :| Packing(text, quote, best) && |best| == Count(text, quote);
      TwoOf(best);
      var a: nat, b: nat :| a in best && b in best && a < b;
      assert OccursAt(text, quote, a) && OccursAt(text, quote, b) && !Overlap(quote, a, b);
    }
  }

  lemma TwoOf(s: set<nat>)
    requires |s| >= 2
    ensures exists a: nat, b: nat :: a in s && b in s && a < b
  {
    assert s != {};
    var a :| a in s;
    assert |s - {a}| == |s| - 1;
    assert s - {a} != {};
    var b :| b in s - {a};
    assert a < b || b < a;
  }

  ghost predicate OccursOnce(text: string, quote: string) {
    exists i: nat :: OccursAt(text, quote, i) && forall k: nat :: OccursAt(text, quote, k) ==> k == i
  }

  /** A proper border: a shorter non-empty prefix that is also a suffix. */
  ghost predicate HasBorder(quote: string) {
    exists n: nat :: 0 < n < |quote| && quote[..n] == quote[|quote| - n..]
  }

  /** Two different overlapping occurrences show a border of the quote. */
  lemma OverlapShowsBorder(text: string, quote: string, i: nat, k: nat)
    requires OccursAt(text, quote, i) && OccursAt(text, quote, k) && i < k < i + |quote|
    ensures HasBorder(quote)
  {
    var n := i + |quote| - k;
    forall x | 0 <= x < n ensures quote[x] == quote[|quote| - n + x] {
      assert quote[x] == text[k..k + |quote|][x] == text[k + x];
      assert quote[k - i + x] == text[i..i + |quote|][k - i + x] == text[k + x];
    }
    assert quote[..n] == quote[|quote| - n..];
  }

  /** The text that repeats a quote over its border holds it twice and counts it once. */
  lemma BorderFoolsCount(quote: string, n: nat)
    requires 0 < n < |quote| && quote[..n] == quote[|quote| - n..]
    ensures var text := quote + quote[n..];
      Count(text, quote) == 1 && OccursAt(text, quote, 0) && OccursAt(text, quote, |quote| - n)
  {
    var text, m := quote + quote[n..], |quote| - n;
    assert text[..|quote|] == quote;
    forall x | 0 <= x < |quote| ensures text[m + x] == quote[x] {
      if x < n {
        assert quote[..n][x] == quote[m..][x];
      }
    }
    assert text[m..m + |quote|] == quote;
    assert CountFrom(text, quote, |quote|) == 0;
  }

  /** Counted once, a borderless quote occurs once. */
  lemma BorderlessOccursOnce(text: string, quote: string)
    requires !HasBorder(quote) && Count(text, quote) == 1
    ensures OccursOnce(text, quote)
  {
    CountedOnceIff(text, quote);
    var i: nat :| OccursAt(text, quote, i);
    forall k: nat | OccursAt(text, quote, k) ensures k == i {
      assert i == k || Overlap(quote, i, k);
      if i < k { OverlapShowsBorder(text, quote, i, k); }
      if k < i { OverlapShowsBorder(text, quote, k, i); }
    }
  }

  /** `count == 1` guarantees the single occurrence the builder asks for exactly for the
      quotes without a proper border. */
  lemma CountOneMeansOnceIffBorderless(quote: string)
    ensures (forall text :: Count(text, quote) == 1 ==> OccursOnce(text, quote)) <==> !HasBorder(quote)
  {
    if HasBorder(quote) {
      var text := BorderedCounterexample(quote);
    } else {
      forall text | Count(text, quote) == 1 ensures OccursOnce(text, quote) {
        BorderlessOccursOnce(text, quote);
      }
    }
  }

  lemma BorderedCounterexample(quote: string) returns (text: string)
    requires HasBorder(quote)
    ensures Count(text, quote) == 1 && !OccursOnce(text, quote)
  {
    var n: nat :| 0 < n < |quote| && quote[..n] == quote[|quote| - n..];
    BorderFoolsCount(quote, n);
    text := quote + quote[n..];
  }

  /** The smallest case: "aa" is counted once in "aaa" and occurs there twice. */
  lemma CountedOnceOccursTwice()
    ensures Count("aaa", "aa") == 1 && OccursAt("aaa", "aa", 0) && OccursAt("aaa", "aa", 1)
    ensures !OccursOnce("aaa", "aa")
  {
    BorderFoolsCount("aa", 1);
    assert "aa" + "aa"[1..] == "aaa";
  }

  /** What a counted-once quote always has: a leftmost occurrence, inside the text. An
      empty quote is counted once only in the empty text. */
  lemma CountedOnceIsLocated(text: string, quote: string)
    requires Count(text, quote) == 1
    ensures var start := IndexFrom(text, quote, 0);
      && start + |quote| <= |text| && text[start..start + |quote|] == quote
      && forall i: nat :: OccursAt(text, quote, i) ==> start <= i && (i < start + |quote| || quote == "")
  {
    var start := IndexFrom(text, quote, 0);
    if quote == "" {
      assert OccursAt(text, quote, 0);
    } else {
      CountedOnceIff(text, quote);
      var i: nat :| OccursAt(text, quote, i);
      assert start <= i;
      forall k: nat | OccursAt(text, quote, k) ensures start <= k < start + |quote| {
        assert Overlap(quote, start, k);
      }
    }
  }
}
