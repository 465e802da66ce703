/** The training loop of TheanoNetFeaturePredictor.train: max_iter iterations at the staircase
    learning rate base_lr * gamma ** (iter_ / stepsize) (integer division, as in Python 2), a
    validation pass every test_interval iterations when a validation file is given, a snapshot
    after every snapshot-th iteration, and a last snapshot and validation after the loop.

    The network is left out: drawing the batch of an iteration and training on it either
    succeed or raise, as step(iter) says, and the test_iter draws and val_fn calls of the
    validation pass at an iteration either succeed or raise, as val(iter) says. The losses are
    only printed, so the model records what the loop does that is seen afterwards: the rate set
    at each iteration, the iterations validated and the iterations snapshotted. */
module LegacyTrain {
  import opened Errors
  import opened Numeric
  import opened Schedule
  import NetSolver

  /** The arguments of train that the loop reads; val_hdf5_fname is only compared with None. */
  datatype TrainArgs = TrainArgs(
    valGiven: bool, testIter: int, solverType: string, testInterval: int,
    baseLr: real, gamma: real, stepsize: int, maxIter: int, snapshot: int, snapshotPrefix: string)

  /** What the loop has done: the rates set, the iterations validated and snapshotted. */
  datatype Log = Log(rates: seq<real>, validations: seq<int>, snapshots: seq<int>)

  const NoEvents := Log([], [], [])

  /** `validate = test_interval and val_hdf5_fname is not None`. */
  predicate Validates(a: TrainArgs)
  {
    a.testInterval != 0 && a.valGiven
  }

  /** The validation pass at an iteration is due. */
  predicate ValidationDue(a: TrainArgs, i: int)
  {
    Validates(a) && i % a.testInterval == 0
  }

  /** test_all: test_iter draws summed, then divided by test_iter; with test_iter = 0 the sum
      is the integer 0 and the division raises ZeroDivisionError, and with a negative test_iter
      nothing is drawn. draws is the failure, if any, of the draws. */
  function TestAll(testIter: int, draws: Option<Error>): (e: Option<Error>)
    ensures testIter == 0 ==> e == Some(ZeroDivisionError)
    ensures testIter < 0 ==> e.None?
    ensures testIter > 0 ==> e == draws
  {
    if testIter > 0 then draws else if testIter == 0 then Some(ZeroDivisionError) else None
  }

  /** The validation step at iteration i: when due, test_all runs, and i is recorded if it
      returns. */
  function Validate(a: TrainArgs, val: nat -> Option<Error>, i: nat, log: Log): (Log, Option<Error>)
  {
    if ValidationDue(a, i) then
      var e := TestAll(a.testIter, val(i));
      if e.Some? then (log, e) else (log.(validations := log.validations + [i]), None)
    else (log, None)
  }

  /** `snapshot and iter_ % snapshot == 0 and iter_ > 0`. */
  predicate SnapshotDue(a: TrainArgs, i: int)
  {
    a.snapshot != 0 && i % a.snapshot == 0 && i > 0
  }

  /** After the loop: a snapshot unless the last iteration just took one, then a validation. */
  function Finish(a: TrainArgs, val: nat -> Option<Error>, i: nat, log: Log): (Log, Option<Error>)
  {
    var snapped := if a.snapshot != 0 && !SnapshotDue(a, i) then log.(snapshots := log.snapshots + [i]) else log;
    Validate(a, val, i, snapped)
  }

  /** The while loop from iteration i on, and what follows it. */
  function Loop(a: TrainArgs, step: nat -> Option<Error>, val: nat -> Option<Error>, i: nat, log: Log)
    : (Log, Option<Error>)
    decreases a.maxIter - i
  {
    if i >= a.maxIter then Finish(a, val, i, log)
    else
      var (validated, e) := Validate(a, val, i, log);
      if e.Some? then (validated, e)
      else match StepRate(a.baseLr, a.gamma, a.stepsize, i)
        case Err(rateError) => (validated, Some(rateError))
        case Ok(rate) =>
          var rated := validated.(rates := validated.rates + [rate]);
          if step(i).Some? then (rated, step(i))
          else
            var next := i + 1;
            Loop(a, step, val, next, if SnapshotDue(a, next) then rated.(snapshots := rated.snapshots + [next]) else rated)
  }

  /** train: the solver_type dispatch (anything but SGD or ADAM reaches a bare `raise`, which
      with no exception being handled raises TypeError), then the loop. */
  function TrainRun(a: TrainArgs, step: nat -> Option<Error>, val: nat -> Option<Error>): (Log, Option<Error>)
  {
    if !NetSolver.KnownSolverType(a.solverType) then (NoEvents, Some(TypeError))
    else Loop(a, step, val, 0, NoEvents)
  }

  /** train, with its while loop over iter_. */
  method Train(a: TrainArgs, step: nat -> Option<Error>, val: nat -> Option<Error>)
    returns (log: Log, error: Option<Error>)
    ensures (log, error) == TrainRun(a, step, val)
  {
    if a.solverType != "SGD" && a.solverType != "ADAM" {
      return NoEvents, Some(TypeError);
    }
    var validate := a.testInterval != 0 && a.valGiven;
    log := NoEvents;
    var iter: nat := 0;
    while iter < a.maxIter
      invariant Loop(a, step, val, iter, log) == TrainRun(a, step, val)
      decreases a.maxIter - iter
    {
      if validate && iter % a.testInterval == 0 {
        var failure := TestAll(a.testIter, val(iter));
        if failure.Some? {
          return log, failure;
        }
        log := log.(validations := log.validations + [iter]);
      }
      var rate := StepRate(a.baseLr, a.gamma, a.stepsize, iter);
      if rate.Err? {
        return log, Some(rate.error);
      }
      log := log.(rates := log.rates + [rate.value]);
      var failure := step(iter);
      if failure.Some? {
        return log, failure;
      }
      iter := iter + 1;
      if a.snapshot != 0 && iter % a.snapshot == 0 && iter > 0 {
        log := log.(snapshots := log.snapshots + [iter]);
      }
    }
    if a.snapshot != 0 && !(a.snapshot != 0 && iter % a.snapshot == 0 && iter > 0) {
      log := log.(snapshots := log.snapshots + [iter]);
    }
    if validate && iter % a.testInterval == 0 {
      var failure := TestAll(a.testIter, val(iter));
      if failure.Some? {
        return log, failure;
      }
      log := log.(validations := log.validations + [iter]);
    }
    error := None;
  }

  // ----- the run in closed form -----

  /** The iteration the loop stops at: max_iter, or 0 when max_iter is not positive. */
  function LastIter(a: TrainArgs): nat
  {
    if a.maxIter > 0 then a.maxIter else 0
  }

  /** iter_ / stepsize and gamma raised to it succeed at every iteration: a positive stepsize,
      or a negative one with gamma != 0 (Python 2 floors the quotient, which is negative from
      iteration 1 on, so gamma is raised to a negative power). */
  predicate RatesDefined(a: TrainArgs)
  {
    a.stepsize > 0 || (a.stepsize < 0 && a.gamma != 0.0)
  }

  lemma RateOk(a: TrainArgs, i: nat)
    requires RatesDefined(a)
    ensures StepRate(a.baseLr, a.gamma, a.stepsize, i).Ok?
    ensures a.stepsize > 0 ==> StepRate(a.baseLr, a.gamma, a.stepsize, i).value == a.baseLr * Pow(a.gamma, i / a.stepsize)
  {
    if a.stepsize > 0 {
      StepRateInBlock(a.baseLr, a.gamma, a.stepsize, i);
    }
  }

  /** Every iteration below n has a rate. */
  lemma RatesOk(a: TrainArgs, n: nat)
    requires RatesDefined(a)
    ensures forall k: nat :: k < n ==> StepRate(a.baseLr, a.gamma, a.stepsize, k).Ok?
  {
    forall k: nat | k < n
      ensures StepRate(a.baseLr, a.gamma, a.stepsize, k).Ok?
    {
      RateOk(a, k);
    }
  }

  /** The rates of iterations 0 .. n-1: the schedule's rate at each iteration. */
  function Rates(a: TrainArgs, n: nat): (r: seq<real>)
    requires RatesDefined(a)
    ensures |r| == n
    ensures forall k :: 0 <= k < n ==> StepRate(a.baseLr, a.gamma, a.stepsize, k) == Ok(r[k])
  {
    RatesOk(a, n);
    seq(n, k requires 0 <= k < n => StepRate(a.baseLr, a.gamma, a.stepsize, k).value)
  }

  /** With a positive stepsize the rate of iteration k is base_lr * gamma ** (k / stepsize). */
  lemma RatesPositiveStepsize(a: TrainArgs, n: nat)
    requires a.stepsize > 0
    ensures forall k :: 0 <= k < n ==> Rates(a, n)[k] == a.baseLr * Pow(a.gamma, k / a.stepsize)
  {
    var r := Rates(a, n);
    forall k | 0 <= k < n
      ensures r[k] == a.baseLr * Pow(a.gamma, k / a.stepsize)
    {
      RateOk(a, k);
      assert StepRate(a.baseLr, a.gamma, a.stepsize, k) == Ok(r[k]);
    }
  }

  function ValidationFilter(a: TrainArgs): int -> bool
  {
    i => ValidationDue(a, i)
  }

  function SnapshotFilter(a: TrainArgs): int -> bool
  {
    i => SnapshotDue(a, i)
  }

  /** The log after iterations 0 .. i-1 ran cleanly. */
  function LogAt(a: TrainArgs, i: nat): Log
    requires RatesDefined(a)
  {
    Log(Rates(a, i), DueIn(ValidationFilter(a), 0, i), DueIn(SnapshotFilter(a), 1, i))
  }

  /** The validation pass at i, when due, returns. */
  predicate ValidationOk(a: TrainArgs, val: nat -> Option<Error>, i: nat)
  {
    ValidationDue(a, i) ==> TestAll(a.testIter, val(i)).None?
  }

  /** Iterations 0 .. n-1 raise nothing: every rate is defined, and no draw fails. */
  ghost predicate RunsClean(a: TrainArgs, step: nat -> Option<Error>, val: nat -> Option<Error>, n: nat)
  {
    RatesDefined(a) && forall i: nat :: i < n ==> step(i).None? && ValidationOk(a, val, i)
  }

  /** One clean iteration takes the log from LogAt(i) to LogAt(i + 1). */
  lemma LoopStep(a: TrainArgs, step: nat -> Option<Error>, val: nat -> Option<Error>, i: nat)
    requires RatesDefined(a) && i < a.maxIter && step(i).None? && ValidationOk(a, val, i)
    ensures Loop(a, step, val, i, LogAt(a, i)) == Loop(a, step, val, i + 1, LogAt(a, i + 1))
  {
    var log := LogAt(a, i);
    ValidateClean(a, val, i);
    RateStep(a, i);
    var rated := Log(Rates(a, i + 1), DueIn(ValidationFilter(a), 0, i + 1), log.snapshots);
    var next := if SnapshotDue(a, i + 1) then rated.(snapshots := rated.snapshots + [i + 1]) else rated;
    assert Loop(a, step, val, i, log) == Loop(a, step, val, i + 1, next);
    assert DueIn(SnapshotFilter(a), 1, i + 1) == log.snapshots + (if SnapshotDue(a, i + 1) then [i + 1] else []);
    if !SnapshotDue(a, i + 1) {
      assert DueIn(SnapshotFilter(a), 1, i + 1) == log.snapshots;
    }
    assert next == LogAt(a, i + 1);
  }

  /** A clean validation step at i records i exactly when it is due. */
  lemma ValidateClean(a: TrainArgs, val: nat -> Option<Error>, i: nat)
    requires RatesDefined(a) && ValidationOk(a, val, i)
    ensures Validate(a, val, i, LogAt(a, i)) == (LogAt(a, i).(validations := DueIn(ValidationFilter(a), 0, i + 1)), None)
  {
    var log := LogAt(a, i);
    assert DueIn(ValidationFilter(a), 0, i + 1) == DueIn(ValidationFilter(a), 0, i) + (if ValidationDue(a, i) then [i] else []);
    if ValidationDue(a, i) {
      assert TestAll(a.testIter, val(i)).None?;
      assert Validate(a, val, i, log) == (log.(validations := log.validations + [i]), None);
    } else {
      assert DueIn(ValidationFilter(a), 0, i + 1) == log.validations;
    }
  }

  /** Clean iterations i .. j-1 take the log from LogAt(i) to LogAt(j). */
  lemma {:induction false} LoopAdvance(a: TrainArgs, step: nat -> Option<Error>, val: nat -> Option<Error>, i: nat, j: nat)
    requires RunsClean(a, step, val, j) && i <= j <= LastIter(a)
    ensures Loop(a, step, val, i, LogAt(a, i)) == Loop(a, step, val, j, LogAt(a, j))
    decreases j - i
  {
    if i < j {
      LoopStep(a, step, val, i);
      LoopAdvance(a, step, val, i + 1, j);
    }
  }

  /** A known solver type with nothing raising: train runs LastIter iterations at the rates
      base_lr * gamma ** (iter_ / stepsize), validates at every multiple of test_interval in
      0 .. LastIter, and snapshots at every positive multiple of snapshot up to LastIter and,
      unless LastIter is one, at LastIter too. */
  lemma TrainCompletes(a: TrainArgs, step: nat -> Option<Error>, val: nat -> Option<Error>)
    requires NetSolver.KnownSolverType(a.solverType)
    requires RunsClean(a, step, val, LastIter(a)) && ValidationOk(a, val, LastIter(a))
    ensures TrainRun(a, step, val)
      == (Log(Rates(a, LastIter(a)), DueIn(ValidationFilter(a), 0, LastIter(a) + 1), SnapshotsThrough(a, LastIter(a))), None)
    ensures !Validates(a) ==> TrainRun(a, step, val).0.validations == []
    ensures a.snapshot == 0 ==> TrainRun(a, step, val).0.snapshots == []
  {
    var m := LastIter(a);
    LogAtStart(a);
    LoopAdvance(a, step, val, 0, m);
    FinishClean(a, step, val, m);
    if !Validates(a) {
      DueInNever(ValidationFilter(a), 0, m + 1);
    }
    if a.snapshot == 0 {
      DueInNever(SnapshotFilter(a), 1, m);
      assert SnapshotsThrough(a, m) == [];
    }
  }

  lemma LogAtStart(a: TrainArgs)
    requires RatesDefined(a)
    ensures LogAt(a, 0) == NoEvents
  {
  }

  /** After max_iter clean iterations, the loop ends with the last snapshot and validation. */
  lemma FinishClean(a: TrainArgs, step: nat -> Option<Error>, val: nat -> Option<Error>, m: nat)
    requires RatesDefined(a) && m == LastIter(a) && ValidationOk(a, val, m)
    ensures Loop(a, step, val, m, LogAt(a, m)) == (Log(Rates(a, m), DueIn(ValidationFilter(a), 0, m + 1), SnapshotsThrough(a, m)), None)
  {
    var log := LogAt(a, m);
    var snapped := log.(snapshots := SnapshotsThrough(a, m));
    if !(a.snapshot != 0 && !SnapshotDue(a, m)) {
      assert SnapshotsThrough(a, m) == log.snapshots;
    }
    assert Loop(a, step, val, m, log) == Validate(a, val, m, snapped);
    assert DueIn(ValidationFilter(a), 0, m + 1) == log.validations + (if ValidationDue(a, m) then [m] else []);
    if !ValidationDue(a, m) {
      assert DueIn(ValidationFilter(a), 0, m + 1) == log.validations;
    }
  }

  /** With snapshot != 0 a clean run snapshots max_iter exactly once, as its last snapshot, and
      no iteration twice: the snapshots are strictly increasing, each a positive multiple of
      snapshot or the last iteration, and every positive multiple up to the last is there. */
  lemma TrainSnapshotsOnce(a: TrainArgs, step: nat -> Option<Error>, val: nat -> Option<Error>)
    requires NetSolver.KnownSolverType(a.solverType) && a.snapshot != 0
    requires RunsClean(a, step, val, LastIter(a)) && ValidationOk(a, val, LastIter(a))
    ensures var s := TrainRun(a, step, val).0.snapshots;
      var m := LastIter(a);
      && StrictlyIncreasing(s)
      && s != [] && s[|s| - 1] == m
      && (forall k :: 0 <= k < |s| ==> 0 <= s[k] <= m && (s[k] == m || SnapshotDue(a, s[k])))
      && (forall i :: 1 <= i <= m && i % a.snapshot == 0 ==> i in s)
  {
    TrainCompletes(a, step, val);
    FinalSnapshots(a, LastIter(a));
  }

  /** The snapshots at the positive multiples up to m, then m unless it is one of them. */
  function SnapshotsThrough(a: TrainArgs, m: nat): seq<int>
  {
    DueIn(SnapshotFilter(a), 1, m) + (if a.snapshot != 0 && !SnapshotDue(a, m) then [m] else [])
  }

  lemma FinalSnapshots(a: TrainArgs, m: nat)
    requires a.snapshot != 0
    ensures var s := SnapshotsThrough(a, m);
      && StrictlyIncreasing(s)
      && s != [] && s[|s| - 1] == m
      && (forall k :: 0 <= k < |s| ==> 0 <= s[k] <= m && (s[k] == m || SnapshotDue(a, s[k])))
      && (forall i :: 1 <= i <= m && i % a.snapshot == 0 ==> i in s)
  {
    var multiples := DueIn(SnapshotFilter(a), 1, m);
    MultiplesFacts(a, m);
    if SnapshotDue(a, m) {
      assert multiples == DueIn(SnapshotFilter(a), 1, m - 1) + [m];
      assert SnapshotsThrough(a, m) == multiples;
    } else {
      forall k | 0 <= k < |multiples| ensures multiples[k] <= m - 1 {
        assert multiples[k] != m;
      }
      IncreasingConcat(multiples, [m], m - 1);
    }
  }

  /** The positive multiples of snapshot in 1 .. m, in increasing order, and all of them. */
  lemma MultiplesFacts(a: TrainArgs, m: nat)
    requires a.snapshot != 0
    ensures var s := DueIn(SnapshotFilter(a), 1, m);
      && StrictlyIncreasing(s)
      && (forall k :: 0 <= k < |s| ==> 1 <= s[k] <= m && SnapshotDue(a, s[k]))
      && (forall i :: 1 <= i <= m && i % a.snapshot == 0 ==> i in s)
  {
    var due := SnapshotFilter(a);
    DueInFacts(due, 1, m);
    var s := DueIn(due, 1, m);
    forall k | 0 <= k < |s| ensures SnapshotDue(a, s[k]) {
      assert due(s[k]);
    }
    forall i | 1 <= i <= m && i % a.snapshot == 0 ensures i in s {
      assert due(i);
    }
  }

  /** With nothing raising before it, the first failing draw or training call at iteration
      f < max_iter ends train with its exception: the rate of iterations 0 .. f was set, and
      neither the snapshot after the loop nor the last validation is taken. */
  lemma TrainStepFails(a: TrainArgs, step: nat -> Option<Error>, val: nat -> Option<Error>, f: nat)
    requires NetSolver.KnownSolverType(a.solverType)
    requires RunsClean(a, step, val, f) && ValidationOk(a, val, f) && f < a.maxIter && step(f).Some?
    ensures TrainRun(a, step, val) == (Log(Rates(a, f + 1), DueIn(ValidationFilter(a), 0, f + 1), DueIn(SnapshotFilter(a), 1, f)), step(f))
  {
    LogAtStart(a);
    LoopAdvance(a, step, val, 0, f);
    LoopFails(a, step, val, f);
  }

  /** A clean validation and a failing step at iteration i end the loop there. */
  lemma LoopFails(a: TrainArgs, step: nat -> Option<Error>, val: nat -> Option<Error>, i: nat)
    requires RatesDefined(a) && i < a.maxIter && step(i).Some? && ValidationOk(a, val, i)
    ensures Loop(a, step, val, i, LogAt(a, i)) == (Log(Rates(a, i + 1), DueIn(ValidationFilter(a), 0, i + 1), DueIn(SnapshotFilter(a), 1, i)), step(i))
  {
    ValidateClean(a, val, i);
    RateStep(a, i);
  }

  /** The rate set at iteration i extends the rates of the iterations before it. */
  lemma RateStep(a: TrainArgs, i: nat)
    requires RatesDefined(a)
    ensures StepRate(a.baseLr, a.gamma, a.stepsize, i).Ok?
    ensures Rates(a, i) + [StepRate(a.baseLr, a.gamma, a.stepsize, i).value] == Rates(a, i + 1)
  {
    RateOk(a, i);
    var r := Rates(a, i) + [StepRate(a.baseLr, a.gamma, a.stepsize, i).value];
    forall k | 0 <= k < i + 1 ensures r[k] == Rates(a, i + 1)[k] {
      assert StepRate(a.baseLr, a.gamma, a.stepsize, k) == Ok(Rates(a, i + 1)[k]);
    }
  }

  /** With validation on and test_iter = 0, the first validation pass, at iteration 0, raises
      ZeroDivisionError before any rate is set; when max_iter is not positive that pass comes
      after the final snapshot, of iteration 0. */
  lemma TrainZeroTestIter(a: TrainArgs, step: nat -> Option<Error>, val: nat -> Option<Error>)
    requires NetSolver.KnownSolverType(a.solverType) && Validates(a) && a.testIter == 0
    ensures TrainRun(a, step, val).1 == Some(ZeroDivisionError)
    ensures TrainRun(a, step, val).0 == Log([], [], if a.maxIter <= 0 && a.snapshot != 0 then [0] else [])
  {
  }

  /** A zero stepsize makes iter_ / stepsize raise ZeroDivisionError at iteration 0, after the
      first validation pass. */
  lemma TrainZeroStepsize(a: TrainArgs, step: nat -> Option<Error>, val: nat -> Option<Error>)
    requires NetSolver.KnownSolverType(a.solverType) && a.stepsize == 0 && a.maxIter > 0
    requires ValidationOk(a, val, 0)
    ensures TrainRun(a, step, val) == (Log([], if Validates(a) then [0] else [], []), Some(ZeroDivisionError))
  {
    var v := Validate(a, val, 0, NoEvents);
    if Validates(a) {
      assert ValidationDue(a, 0);
      assert TestAll(a.testIter, val(0)).None?;
      assert NoEvents.validations + [0] == [0];
      assert v == (Log([], [0], []), None);
    } else {
      assert v == (NoEvents, None);
    }
    assert StepRate(a.baseLr, a.gamma, a.stepsize, 0) == Err(ZeroDivisionError);
  }

  /** A solver type other than SGD and ADAM stops train before its loop. */
  lemma TrainUnknownSolver(a: TrainArgs, step: nat -> Option<Error>, val: nat -> Option<Error>)
    requires a.solverType != "SGD" && a.solverType != "ADAM"
    ensures TrainRun(a, step, val) == (NoEvents, Some(TypeError))
  {
  }

  // ----- snapshot files -----

  /** snapshot(iter_, prefix) writes the pickle file prefix + '_iter_%d.pkl' % iter_. */
  function SnapshotFiles(prefix: string, snapshots: seq<int>): (files: seq<string>)
    ensures |files| == |snapshots|
    ensures forall k :: 0 <= k < |snapshots| ==> files[k] == NetSolver.SnapshotFileName(prefix, snapshots[k], ".pkl")
  {
    seq(|snapshots|, k requires 0 <= k < |snapshots| => NetSolver.SnapshotFileName(prefix, snapshots[k], ".pkl"))
  }

  /** Snapshots of distinct iterations write distinct files, so a clean run overwrites none. */
  lemma SnapshotFilesDistinct(prefix: string, snapshots: seq<int>)
    requires StrictlyIncreasing(snapshots)
    ensures var files := SnapshotFiles(prefix, snapshots);
      forall x, y :: 0 <= x < y < |files| ==> files[x] != files[y]
  {
    var files := SnapshotFiles(prefix, snapshots);
    forall x, y | 0 <= x < y < |files| ensures files[x] != files[y] {
      if files[x] == files[y] {
        NetSolver.SnapshotFileNameInjective(prefix, snapshots[x], snapshots[y], ".pkl");
      }
    }
  }
}
