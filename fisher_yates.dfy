// The in-place Fisher-Yates shuffle. The random index drawn at each step is
// supplied by an oracle: a sequence of draws, one per iteration, in the order
// the loop consumes them.

module FisherYates {

  /** How many iterations the loop makes on an array of length `n`: `i` runs from `n - 1` down to `1`. */
  function Steps(n: nat): nat
  {
    if n == 0 then 0 else n - 1
  }

  /**
   * An oracle fit for an array of length `n`: one draw per iteration, and the
   * `k`-th draw, made when `i == n - 1 - k`, lies in `[0, i]`.
   */
  predicate ValidDraws(draws: seq<nat>, n: nat)
  {
    |draws| == Steps(n) && forall k :: 0 <= k < |draws| ==> draws[k] <= n - 1 - k
  }

  /** `a` and `b` hold the same elements, each as often: one is a permutation of the other. */
  ghost predicate Perm<T>(a: seq<T>, b: seq<T>)
  {
    multiset(a) == multiset(b)
  }

  lemma PermTrans<T>(a: seq<T>, b: seq<T>, c: seq<T>)
    requires Perm(a, b) && Perm(b, c)
    ensures Perm(a, c)
  {
  }

  /** `s` with the elements at `i` and `j` exchanged. */
  function Swap<T>(s: seq<T>, i: nat, j: nat): (r: seq<T>)
    requires i < |s| && j < |s|
    ensures |r| == |s|
  {
    seq(|s|, k requires 0 <= k < |s| => if k == i then s[j] else if k == j then s[i] else s[k])
  }

  /** A swap exchanges the two positions and leaves every other position as it was. */
  lemma SwapTouchesOnly<T>(s: seq<T>, i: nat, j: nat)
    requires i < |s| && j < |s|
    ensures Swap(s, i, j)[i] == s[j] && Swap(s, i, j)[j] == s[i]
    ensures forall k :: 0 <= k < |s| && k != i && k != j ==> Swap(s, i, j)[k] == s[k]
  {
  }

  lemma SwapPermutes<T>(s: seq<T>, i: nat, j: nat)
    requires i < |s| && j < |s|
    ensures Perm(Swap(s, i, j), s)
  {
    assert Swap(s, i, j) == s[i := s[j]][j := s[i]];
  }

  /** The array after the first `k` iterations; iteration `k` swaps position `|s| - k` with its draw. */
  function ShuffleSteps<T>(s: seq<T>, draws: seq<nat>, k: nat): (r: seq<T>)
    requires ValidDraws(draws, |s|) && k <= |draws|
    ensures |r| == |s|
    decreases k
  {
    if k == 0 then s else Swap(ShuffleSteps(s, draws, k - 1), |s| - k, draws[k - 1])
  }

  /**
   * The shuffle of `s` under the oracle `draws`: all iterations done. It keeps the
   * length, and an array of at most one element is left as it is (the loop never
   * runs).
   */
  function Shuffled<T>(s: seq<T>, draws: seq<nat>): (r: seq<T>)
    requires ValidDraws(draws, |s|)
    ensures |r| == |s|
    ensures |s| <= 1 ==> r == s
  {
    ShuffleSteps(s, draws, |draws|)
  }

  lemma {:induction false} ShuffleStepsPermutes<T>(s: seq<T>, draws: seq<nat>, k: nat)
    requires ValidDraws(draws, |s|) && k <= |draws|
    ensures Perm(ShuffleSteps(s, draws, k), s)
    decreases k
  {
    if k > 0 {
      var t := ShuffleSteps(s, draws, k - 1);
      ShuffleStepsPermutes(s, draws, k - 1);
      SwapPermutes(t, |s| - k, draws[k - 1]);
      PermTrans(ShuffleSteps(s, draws, k), t, s);
    }
  }

  /** The shuffle is a permutation: same length, same multiset of elements. */
  lemma ShuffledPermutes<T>(s: seq<T>, draws: seq<nat>)
    requires ValidDraws(draws, |s|)
    ensures |Shuffled(s, draws)| == |s|
    ensures multiset(Shuffled(s, draws)) == multiset(s)
  {
    ShuffleStepsPermutes(s, draws, |draws|);
  }

  /** `[a[i], a[j]] = [a[j], a[i]]`: exchange two elements of `a` in place. */
  method SwapElements<T>(a: array<T>, i: nat, j: nat)
    requires i < a.Length && j < a.Length
    modifies a
    ensures a[..] == Swap(old(a[..]), i, j)
  {
    a[i], a[j] := a[j], a[i];
  }

  /**
   * Shuffle `a` in place, drawing the index for each iteration from `draws`.
   * The array ends up as `Shuffled(old(a[..]), draws)`, a permutation of what it held.
   */
  method Shuffle<T>(a: array<T>, draws: seq<nat>)
    requires ValidDraws(draws, a.Length)
    modifies a
    ensures a[..] == Shuffled(old(a[..]), draws)
    ensures multiset(a[..]) == multiset(old(a[..]))
  {
    ghost var s := a[..];
    var n := a.Length;
    var i: int := n - 1;
    while i > 0
      invariant -1 <= i < n && (n > 0 ==> 0 <= i)
      invariant a[..] == ShuffleSteps(s, draws, n - 1 - i)
    {
      var j := draws[n - 1 - i];
      SwapElements(a, i, j);
      i := i - 1;
    }
    ShuffledPermutes(s, draws);
  }
}
