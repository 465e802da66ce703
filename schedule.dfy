/** The two schedules of training: the staircase learning rate base_lr * gamma ** (iter //
    stepsize), and the events due at the multiples of an interval. */
module Schedule {
  import opened Errors
  import opened Numeric

  /** base_lr * gamma ** (iter // stepsize), with Python's floor division; a zero stepsize and a
      zero gamma raised to a negative step raise ZeroDivisionError. */
  function StepRate(baseLr: real, gamma: real, stepsize: int, i: int): (r: Result<real>)
    ensures r.Err? <==> stepsize == 0 || (FloorDiv(i, stepsize) < 0 && gamma == 0.0)
    ensures r.Err? ==> r.error == ZeroDivisionError
  {
    if stepsize == 0 then Err(ZeroDivisionError)
    else
      var step := FloorDiv(i, stepsize);
      if step < 0 && gamma == 0.0 then Err(ZeroDivisionError)
      else Ok(baseLr * PowInt(gamma, step))
  }

  /** With a positive stepsize, the rate is base_lr * gamma ** k throughout block k, the
      iterations k*stepsize .. (k+1)*stepsize - 1. */
  lemma StepRateStaircase(baseLr: real, gamma: real, stepsize: int, i: int, k: nat)
    requires stepsize > 0
    requires k * stepsize <= i < (k + 1) * stepsize
    ensures StepRate(baseLr, gamma, stepsize, i).Ok?
    ensures StepRate(baseLr, gamma, stepsize, i).value == baseLr * Pow(gamma, k)
  {
    assert (k + 1) * stepsize == k * stepsize + stepsize;
    FloorDivUnique(i, stepsize, k);
    StepRateInBlock(baseLr, gamma, stepsize, i);
  }

  /** In a block k = iter // stepsize >= 0 the rate is base_lr * gamma ** k. */
  lemma StepRateInBlock(baseLr: real, gamma: real, stepsize: int, i: int)
    requires stepsize > 0 && FloorDiv(i, stepsize) >= 0
    ensures StepRate(baseLr, gamma, stepsize, i).Ok?
    ensures StepRate(baseLr, gamma, stepsize, i).value == baseLr * Pow(gamma, FloorDiv(i, stepsize))
  {
  }

  /** One stepsize later the rate has been multiplied by gamma. */
  lemma StepRateDecay(baseLr: real, gamma: real, stepsize: int, i: int)
    requires stepsize > 0 && i >= 0
    ensures StepRate(baseLr, gamma, stepsize, i).Ok? && StepRate(baseLr, gamma, stepsize, i + stepsize).Ok?
    ensures StepRate(baseLr, gamma, stepsize, i + stepsize).value == StepRate(baseLr, gamma, stepsize, i).value * gamma
  {
    var b := stepsize;
    var q := FloorDiv(i, b);
    FloorDivBounds(i, b);
    assert q >= 0 by {
      assert (-(q + 1)) * b == -(b * q + b);
      NegativeProduct(-(q + 1), b);
    }
    var k: nat := q;
    assert (k + 1) * b == k * b + b && (k + 2) * b == (k + 1) * b + b;
    StepRateStaircase(baseLr, gamma, b, i, k);
    StepRateStaircase(baseLr, gamma, b, i + b, k + 1);
    assert Pow(gamma, k + 1) == Pow(gamma, k) * gamma;
  }

  /** The values lo .. lo+n-1 at which due holds, in order. */
  function DueIn(due: int -> bool, lo: int, n: nat): seq<int>
  {
    if n == 0 then []
    else DueIn(due, lo, n - 1) + (if due(lo + n - 1) then [lo + n - 1] else [])
  }

  predicate StrictlyIncreasing(s: seq<int>)
  {
    forall a, b :: 0 <= a < b < |s| ==> s[a] < s[b]
  }

  /** Two strictly increasing sequences separated by m concatenate to a strictly increasing one. */
  lemma IncreasingConcat(a: seq<int>, b: seq<int>, m: int)
    requires StrictlyIncreasing(a) && StrictlyIncreasing(b)
    requires forall k :: 0 <= k < |a| ==> a[k] <= m
    requires forall k :: 0 <= k < |b| ==> m < b[k]
    ensures StrictlyIncreasing(a + b)
  {
    var c := a + b;
    forall x, y | 0 <= x < y < |c| ensures c[x] < c[y] {
      if y >= |a| && x < |a| {
        assert c[x] == a[x] && c[y] == b[y - |a|];
      } else if y >= |a| {
        assert c[x] == b[x - |a|] && c[y] == b[y - |a|];
      }
    }
  }

  /** The values DueIn lists are strictly increasing, lie in lo .. lo+n-1, and are exactly the
      values there at which due holds. */
  lemma {:induction false} DueInFacts(due: int -> bool, lo: int, n: nat)
    ensures StrictlyIncreasing(DueIn(due, lo, n))
    ensures forall k :: 0 <= k < |DueIn(due, lo, n)| ==>
      lo <= DueIn(due, lo, n)[k] < lo + n && due(DueIn(due, lo, n)[k])
    ensures forall i :: lo <= i < lo + n && due(i) ==> i in DueIn(due, lo, n)
  {
    if n > 0 {
      DueInFacts(due, lo, n - 1);
      var pre := DueIn(due, lo, n - 1);
      var extra := if due(lo + n - 1) then [lo + n - 1] else [];
      var cur := DueIn(due, lo, n);
      assert cur == pre + extra;
      IncreasingConcat(pre, extra, lo + n - 2);
      forall i | lo <= i < lo + n && due(i) ensures i in cur {
        if i < lo + n - 1 {
          assert i in pre;
        } else {
          assert cur[|cur| - 1] == i;
        }
      }
    }
  }

  /** Nothing is listed when nothing is due. */
  lemma {:induction false} DueInNever(due: int -> bool, lo: int, n: nat)
    requires forall i :: !due(i)
    ensures DueIn(due, lo, n) == []
  {
    if n > 0 {
      DueInNever(due, lo, n - 1);
    }
  }
}
