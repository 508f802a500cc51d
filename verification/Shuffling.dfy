/** The in-place backwards shuffle of scripts/event/MagatiaPQ_A.js.

    Randomness is an oracle: draws[i] is the index drawn in the iteration that
    has just lowered currentIndex to i, so an in-range draw satisfies draws[i] <= i. */
module Shuffling {
  import opened Basics

  predicate InRange(draws: seq<nat>) {
    forall i :: 0 <= i < |draws| ==> draws[i] <= i
  }

  function Swap<T>(s: seq<T>, i: nat, j: nat): (r: seq<T>)
    requires i < |s| && j < |s|
    ensures |r| == |s| && r[i] == s[j] && r[j] == s[i]
    ensures forall k :: 0 <= k < |s| && k != i && k != j ==> r[k] == s[k]
  {
    s[i := s[j]][j := s[i]]
  }

  lemma SwapPermutes<T>(s: seq<T>, i: nat, j: nat)
    requires i < |s| && j < |s|
    ensures multiset(Swap(s, i, j)) == multiset(s)
  {
  }

  /** What the loop makes of s when it has |draws| iterations left. */
  function Shuffled<T>(s: seq<T>, draws: seq<nat>): (r: seq<T>)
    requires |draws| <= |s| && InRange(draws)
    ensures |r| == |s|
    decreases |draws|
  {
    var n := |draws|;
    if n == 0 then s else Shuffled(Swap(s, n - 1, draws[n - 1]), draws[..n - 1])
  }

  method Shuffle<T>(a: array<T>, draws: seq<nat>)
    requires |draws| == a.Length && InRange(draws)
    modifies a
    ensures a[..] == Shuffled(old(a[..]), draws)
  {
    var currentIndex := a.Length;
    assert draws[..currentIndex] == draws;
    while 0 != currentIndex
      invariant 0 <= currentIndex <= a.Length
      invariant InRange(draws[..currentIndex])
      invariant Shuffled(a[..], draws[..currentIndex]) == Shuffled(old(a[..]), draws)
      decreases currentIndex
    {
      ghost var before := a[..];
      var randomIndex := draws[currentIndex - 1];
      currentIndex := currentIndex - 1;
      var temporaryValue := a[currentIndex];
      a[currentIndex] := a[randomIndex];
      a[randomIndex] := temporaryValue;
      assert a[..] == Swap(before, currentIndex, randomIndex);
      assert draws[..currentIndex + 1][..currentIndex] == draws[..currentIndex];
    }
  }

  /** Every draw sequence yields a permutation. */
  lemma {:induction false} ShuffledPermutes<T>(s: seq<T>, draws: seq<nat>)
    requires |draws| <= |s| && InRange(draws)
    ensures multiset(Shuffled(s, draws)) == multiset(s)
    decreases |draws|
  {
    var n := |draws|;
    if n > 0 {
      SwapPermutes(s, n - 1, draws[n - 1]);
      ShuffledPermutes(Swap(s, n - 1, draws[n - 1]), draws[..n - 1]);
    }
  }

  /** Positions the loop has already left behind are final. */
  lemma {:induction false} ShuffledKeepsTail<T>(s: seq<T>, draws: seq<nat>, k: nat)
    requires |draws| <= k < |s| && InRange(draws)
    ensures Shuffled(s, draws)[k] == s[k]
    decreases |draws|
  {
    var n := |draws|;
    if n > 0 {
      ShuffledKeepsTail(Swap(s, n - 1, draws[n - 1]), draws[..n - 1], k);
    }
  }

  ghost function IndexOf<T>(s: seq<T>, x: T): (i: nat)
    requires x in s
    ensures i < |s| && s[i] == x
  {
    if s[0] == x then 0 else 1 + IndexOf(s[1..], x)
  }

  lemma LastOfSameElements<T>(s: seq<T>, t: seq<T>)
    requires |s| == |t| > 0 && multiset(s) == multiset(t)
    ensures t[|t| - 1] in s
  {
    assert t[|t| - 1] in multiset(s);
  }

  lemma DropLast<T>(s: seq<T>, n: nat)
    requires 0 < n <= |s|
    ensures multiset(s[..n - 1]) == multiset(s[..n]) - multiset{s[n - 1]}
  {
    assert s[..n] == s[..n - 1] + [s[n - 1]];
  }

  lemma SwapLastOut<T>(s: seq<T>, t: seq<T>, n: nat, j: nat)
    requires 0 < n <= |s| == |t| && j < n
    requires multiset(s[..n]) == multiset(t[..n]) && s[j] == t[n - 1]
    ensures multiset(Swap(s, n - 1, j)[..n - 1]) == multiset(t[..n - 1])
  {
    var u := Swap(s, n - 1, j);
    assert u[..n] == Swap(s[..n], n - 1, j);
    SwapPermutes(s[..n], n - 1, j);
    DropLast(u, n);
    DropLast(t, n);
  }

  /** Surjectivity: some draws rearrange the first n elements of s into those of t. */
  lemma {:induction false} DrawsReaching<T>(s: seq<T>, t: seq<T>, n: nat) returns (draws: seq<nat>)
    requires n <= |s| == |t| && multiset(s[..n]) == multiset(t[..n])
    requires forall k :: n <= k < |s| ==> s[k] == t[k]
    ensures |draws| == n && InRange(draws) && Shuffled(s, draws) == t
    decreases n
  {
    if n == 0 {
      draws := [];
      assert s == t;
    } else {
      LastOfSameElements(s[..n], t[..n]);
      var j := IndexOf(s[..n], t[n - 1]);
      SwapLastOut(s, t, n, j);
      draws := DrawsReaching(Swap(s, n - 1, j), t, n - 1);
      UnfoldLast(s, draws, j);
      draws := draws + [j];
    }
  }

  lemma UnfoldLast<T>(s: seq<T>, draws: seq<nat>, j: nat)
    requires |draws| < |s| && InRange(draws) && j <= |draws|
    ensures InRange(draws + [j])
    ensures Shuffled(s, draws + [j]) == Shuffled(Swap(s, |draws|, j), draws)
  {
  }

  /** The first element to be placed is the one that the last draw points at. */
  lemma {:induction false} LastPlaceIsDrawn<T>(s: seq<T>, draws: seq<nat>)
    requires 0 < |draws| <= |s| && InRange(draws)
    ensures var n := |draws| - 1; Shuffled(s, draws)[n] == s[draws[n]]
  {
    var n := |draws| - 1;
    ShuffledKeepsTail(Swap(s, n, draws[n]), draws[..n], n);
  }

  /** Injectivity: on distinct elements the permutation determines the draws. */
  lemma {:induction false} ShuffledDeterminesDraws<T>(s: seq<T>, d: seq<nat>, e: seq<nat>)
    requires |d| == |e| <= |s| && InRange(d) && InRange(e) && Distinct(s)
    requires Shuffled(s, d) == Shuffled(s, e)
    ensures d == e
    decreases |d|
  {
    var n := |d|;
    if n > 0 {
      var u, v := Swap(s, n - 1, d[n - 1]), Swap(s, n - 1, e[n - 1]);
      ShuffledKeepsTail(u, d[..n - 1], n - 1);
      ShuffledKeepsTail(v, e[..n - 1], n - 1);
      assert s[d[n - 1]] == u[n - 1] == v[n - 1] == s[e[n - 1]];
      ShuffledDeterminesDraws(u, d[..n - 1], e[..n - 1]);
      assert d == d[..n - 1] + [d[n - 1]] && e == e[..n - 1] + [e[n - 1]];
    }
  }

  ghost predicate Yields<T>(s: seq<T>, d: seq<nat>, t: seq<T>) {
    |d| == |s| && InRange(d) && Shuffled(s, d) == t
  }

  /** The draw sequences of length |s| and the permutations of a distinct s correspond
      one to one: t is reached iff it is a permutation, and from one sequence only. */
  lemma {:induction false} ShuffleIsBijective<T>(s: seq<T>, t: seq<T>)
    requires Distinct(s)
    ensures multiset(s) == multiset(t) <==> exists d :: Yields(s, d, t)
    ensures forall d, e :: Yields(s, d, t) && Yields(s, e, t) ==> d == e
  {
    if multiset(s) == multiset(t) {
      assert |s| == |multiset(s)| == |multiset(t)| == |t|;
      assert s[..|s|] == s && t[..|s|] == t;
      var draws := DrawsReaching(s, t, |s|);
      assert Yields(s, draws, t);
    }
    forall d | Yields(s, d, t) ensures multiset(s) == multiset(t) {
      ShuffledPermutes(s, d);
    }
    forall d, e | Yields(s, d, t) && Yields(s, e, t) ensures d == e {
      ShuffledDeterminesDraws(s, d, e);
    }
  }
}
