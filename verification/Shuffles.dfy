/** The trainer's shuffle leaves no arrangement out: each comes out for some draws. */
module Shuffles {
  import opened Text
  import opened Money
  import opened Learned
  import opened Training

  lemma ShareBelowOne(j: nat, n: nat, x: real)
    requires j < n && x * n as real == j as real
    ensures 0.0 <= x < 1.0
  {
    var m := n as real;
    assert (x - 1.0) * m == x * m - m && -x * m == -(x * m);
    if x >= 1.0 {
      NonNegativeProduct(x - 1.0, m);
    } else if x < 0.0 {
      PositiveProduct(-x, m);
    }
  }

  /** A number whose draw for position `i` is `j`. */
  lemma {:induction false} DrawFor(j: nat, i: nat) returns (r: Unit)
    requires j <= i
    ensures Drawn(r, i) == j
  {
    var x := j as real / (i + 1) as real;
    assert x * (i + 1) as real == j as real;
    ShareBelowOne(j, i + 1, x);
    r := x;
  }

  /** A shuffle depends on the draws it uses, and on no earlier ones. */
  lemma {:induction false} SameDraws<T>(f: Random, g: Random, seed: int, s: seq<T>, i: int, k: nat)
    requires i < |s| && forall n: nat | n >= k :: f(seed, n) == g(seed, n)
    ensures Shuffled(f, seed, s, i, k) == Shuffled(g, seed, s, i, k)
    decreases i
  {
    if i > 0 {
      SameDraws(f, g, seed, Swapped(s, i, Drawn(f(seed, k), i)), i - 1, k + 1);
    }
  }

  /** The same elements, and already the same from position `n` on. */
  ghost predicate SettledFrom<T>(s: seq<T>, t: seq<T>, n: int) {
    |s| == |t| && multiset(s) == multiset(t) && forall m | 0 <= m < |s| && m >= n :: s[m] == t[m]
  }

  lemma {:induction false} FrontsAgree<T>(s: seq<T>, t: seq<T>, n: nat)
    requires SettledFrom(s, t, n) && n <= |s|
    ensures multiset(s[..n]) == multiset(t[..n])
  {
    assert s[n..] == t[n..] && s == s[..n] + s[n..] && t == t[..n] + t[n..];
    assert multiset(s[..n]) == multiset(s) - multiset(s[n..]) && multiset(t[..n]) == multiset(t) - multiset(t[n..]);
  }

  /** The element that belongs at `i` is still in front of it, or there. */
  lemma {:induction false} StillInFront<T>(s: seq<T>, t: seq<T>, i: nat) returns (j: nat)
    requires SettledFrom(s, t, i + 1) && i < |s|
    ensures j <= i && s[j] == t[i]
  {
    FrontsAgree(s, t, i + 1);
    assert t[..i + 1][i] in multiset(s[..i + 1]);
    j :| 0 <= j < |s[..i + 1]| && s[..i + 1][j] == t[i];
  }

  lemma {:induction false} SwapSettles<T>(s: seq<T>, t: seq<T>, i: nat, j: nat)
    requires SettledFrom(s, t, i + 1) && j <= i < |s| && s[j] == t[i]
    ensures SettledFrom(Swapped(s, i, j), t, i)
  {
    SwapPermutes(s, i, j);
  }

  lemma {:induction false} AllSettled<T>(s: seq<T>, t: seq<T>)
    requires SettledFrom(s, t, 1)
    ensures s == t
  {
    if s != [] {
      var j := StillInFront(s, t, 0);
    }
  }

  /** One more draw in front of those a source gives. */
  function With(k: nat, r: Unit, rest: Random): Random {
    (seed, n) => if n == k then r else rest(seed, n)
  }

  /** Every arrangement of the first `i` + 1 elements comes out, for some draws. */
  lemma {:induction false} EveryArrangement<T>(seed: int, s: seq<T>, t: seq<T>, i: int, k: nat)
    returns (random: Random)
    requires -1 <= i < |s| && SettledFrom(s, t, i + 1)
    ensures Shuffled(random, seed, s, i, k) == t
    decreases i
  {
    if i <= 0 {
      AllSettled(s, t);
      random := (_, _) => 0.0;
    } else {
      var j := StillInFront(s, t, i);
      var u := Swapped(s, i, j);
      SwapSettles(s, t, i, j);
      var rest := EveryArrangement(seed, u, t, i - 1, k + 1);
      var r := DrawFor(j, i);
      random := With(k, r, rest);
      SameDraws(random, rest, seed, u, i - 1, k + 1);
    }
  }

  /** Every order of the samples is the order of some epoch, for some random source. */
  lemma {:induction false} EveryOrderComesOut(c: LearnedConfig, xs: seq<Sample>, order: seq<Sample>, seed: int,
                                              epoch: nat) returns (random: Random)
    requires multiset(order) == multiset(xs)
    ensures OrderOf(c.(random := random), xs, Some(seed), epoch) == order
  {
    assert |xs| == |multiset(xs)| == |multiset(order)| == |order|;
    random := EveryArrangement(seed + epoch, xs, order, |xs| - 1, 0);
  }
}
