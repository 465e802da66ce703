/** The trajectory helpers of the reinforcement-learning utilities: splitting trajectories of
    observations into current and next observations, and the discounted return of a trajectory's
    rewards. */
module RlUtil {
  import opened Numeric

  /** Python's s[:-1]: all but the last element, and [] for an empty list. */
  function DropLast<T>(s: seq<T>): seq<T>
  {
    if s == [] then [] else s[..|s| - 1]
  }

  /** Python's s[1:]: all but the first element, and [] for an empty list. */
  function DropFirst<T>(s: seq<T>): seq<T>
  {
    if s == [] then [] else s[1..]
  }

  /** split_observations: for each trajectory, its observations without the last (the current
      observation of each transition) and without the first (the next observation). A trajectory
      of n > 0 observations has n - 1 transitions, an empty one none. */
  function SplitObservations<T>(observations: seq<seq<T>>): (r: (seq<seq<T>>, seq<seq<T>>))
    ensures |r.0| == |observations| && |r.1| == |observations|
    ensures forall i :: 0 <= i < |observations| ==>
      |r.0[i]| == |r.1[i]| == (if observations[i] == [] then 0 else |observations[i]| - 1)
    ensures forall i, j :: 0 <= i < |observations| && 0 <= j < |observations[i]| - 1 ==>
      r.0[i][j] == observations[i][j] && r.1[i][j] == observations[i][j + 1]
  {
    (seq(|observations|, i requires 0 <= i < |observations| => DropLast(observations[i])),
     seq(|observations|, i requires 0 <= i < |observations| => DropFirst(observations[i])))
  }

  /** Each non-empty trajectory is its current observations followed by its last observation,
      and its first observation followed by its next observations; the next observation of each
      transition is the current observation of the transition after it. */
  lemma SplitObservationsRebuild<T>(observations: seq<seq<T>>, i: nat)
    requires i < |observations| && observations[i] != []
    ensures var (curr, next) := SplitObservations(observations);
      var o := observations[i];
      && curr[i] + [o[|o| - 1]] == o
      && [o[0]] + next[i] == o
      && (|o| > 1 ==> next[i][..|next[i]| - 1] == curr[i][1..])
  {
    var (curr, next) := SplitObservations(observations);
    var o := observations[i];
    assert curr[i] + [o[|o| - 1]] == o;
    assert [o[0]] + next[i] == o;
  }

  /** gamma ** numpy.arange(n): the powers gamma^0 .. gamma^(n-1). */
  function Powers(gamma: real, n: nat): (p: seq<real>)
    ensures |p| == n
    ensures forall i :: 0 <= i < n ==> p[i] == Pow(gamma, i)
  {
    seq(n, i requires 0 <= i < n => Pow(gamma, i))
  }

  /** discount_return: the dot product of the rewards with the powers of gamma, that is the sum of
      rewards[i] * gamma^i. */
  function DiscountReturn(rewards: seq<real>, gamma: real): real
  {
    Dot(rewards, Powers(gamma, |rewards|))
  }

  lemma {:induction false} PowNonNegative(x: real, n: nat)
    requires x >= 0.0
    ensures Pow(x, n) >= 0.0
  {
    if n > 0 { PowNonNegative(x, n - 1); }
  }

  lemma {:induction false} DotNonNegative(a: seq<real>, b: seq<real>)
    requires |a| == |b|
    requires forall i :: 0 <= i < |a| ==> a[i] >= 0.0 && b[i] >= 0.0
    ensures Dot(a, b) >= 0.0
  {
    if a != [] {
      DotNonNegative(a[..|a| - 1], b[..|b| - 1]);
    }
  }

  /** Non-negative rewards discounted by a non-negative gamma give a non-negative return. */
  lemma DiscountReturnNonNegative(rewards: seq<real>, gamma: real)
    requires gamma >= 0.0 && forall i :: 0 <= i < |rewards| ==> rewards[i] >= 0.0
    ensures DiscountReturn(rewards, gamma) >= 0.0
  {
    var p := Powers(gamma, |rewards|);
    forall i | 0 <= i < |p|
      ensures p[i] >= 0.0
    {
      PowNonNegative(gamma, i);
    }
    DotNonNegative(rewards, p);
  }

  /** No rewards give a return of 0. */
  lemma DiscountReturnEmpty(gamma: real)
    ensures DiscountReturn([], gamma) == 0.0
  {
  }

  /** A reward appended at step n adds reward * gamma^n. */
  lemma DiscountReturnAppend(rewards: seq<real>, x: real, gamma: real)
    ensures DiscountReturn(rewards + [x], gamma) == DiscountReturn(rewards, gamma) + x * Pow(gamma, |rewards|)
  {
    var s := rewards + [x];
    assert s[..|s| - 1] == rewards;
    assert Powers(gamma, |s|)[..|rewards|] == Powers(gamma, |rewards|);
  }

  /** The return discounts recursively: the first reward plus gamma times the return of the rest. */
  lemma {:induction false} DiscountReturnRecurrence(x: real, rewards: seq<real>, gamma: real)
    ensures DiscountReturn([x] + rewards, gamma) == x + gamma * DiscountReturn(rewards, gamma)
  {
    if rewards == [] {
      assert [x] + rewards == [] + [x];
      DiscountReturnAppend([], x, gamma);
    } else {
      var n := |rewards|;
      var init := rewards[..n - 1];
      var last := rewards[n - 1];
      assert rewards == init + [last];
      assert [x] + rewards == ([x] + init) + [last];
      DiscountReturnRecurrence(x, init, gamma);
      DiscountReturnAppend([x] + init, last, gamma);
      DiscountReturnAppend(init, last, gamma);
      assert Pow(gamma, n) == gamma * Pow(gamma, n - 1);
    }
  }

  /** With gamma = 1 the return is the plain sum of the rewards (the undiscounted return). */
  lemma {:induction false} UndiscountedReturn(rewards: seq<real>)
    ensures DiscountReturn(rewards, 1.0) == Sum(rewards)
  {
    if rewards != [] {
      var init := rewards[..|rewards| - 1];
      assert rewards == init + [rewards[|rewards| - 1]];
      UndiscountedReturn(init);
      DiscountReturnAppend(init, rewards[|rewards| - 1], 1.0);
      PowOne(|init|);
      SumConcat(init, [rewards[|rewards| - 1]]);
    }
  }

  /** With gamma = 0 only the first reward counts (0.0 ** 0 is 1). */
  lemma NoDiscountFuture(x: real, rewards: seq<real>)
    ensures DiscountReturn([x] + rewards, 0.0) == x
  {
    DiscountReturnRecurrence(x, rewards, 0.0);
  }

  /** discount_returns: the return of each trajectory, in order. */
  function DiscountReturns(rewards: seq<seq<real>>, gamma: real): (r: seq<real>)
    ensures |r| == |rewards|
    ensures forall i :: 0 <= i < |rewards| ==> r[i] == DiscountReturn(rewards[i], gamma)
  {
    seq(|rewards|, i requires 0 <= i < |rewards| => DiscountReturn(rewards[i], gamma))
  }
}
