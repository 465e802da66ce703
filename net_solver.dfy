/** The training bookkeeping of TheanoNetSolver: the iteration counter, the per-iteration loss
    history, the smoothed loss records taken for the loss plot, the staircase learning rate and
    the snapshot schedule. The network's loss on a batch is an oracle: trainLoss(iter, lr) is the
    training loss of the batch drawn at iteration iter when trained at rate lr, and
    valSum(iter, slot) is the sum of the validation losses of the test_iter batches drawn at
    that iteration (slot 0 at the start of the iteration, slot 1 for a loss record, slot 2 after
    the last iteration). */
module NetSolver {
  import opened Errors
  import opened Numeric
  import opened Schedule
  import Decimal
  import OutputNames

  /** The constructor's settings other than base_lr and the training progress. */
  datatype Settings = Settings(
    trainDataFnames: seq<string>, valDataFname: Option<string>, dataNames: seq<string>,
    inputNames: seq<string>, outputNames: seq<OutputNames.OutputEntry>,
    batchSize: int, testIter: int, solverType: string, testInterval: int, gamma: real,
    stepsize: int, display: int, maxIter: int, momentum: real, momentum2: real,
    weightDecay: real, snapshotInterval: int, snapshotPrefix: string, averageLoss: int,
    lossInterval: int, plotInterval: int)

  /** All hyper-parameters of a solver. */
  datatype Hyper = Hyper(settings: Settings, baseLr: real)

  /** The state that training changes. snapshots is the sequence of iterations at which
      snapshot files were written. */
  datatype Progress = Progress(
    iter: int, losses: seq<real>, trainLosses: seq<real>, valLosses: seq<real>,
    lossIters: seq<int>, lastSnapshot: Option<int>, snapshots: seq<int>)

  /** Constructor arguments; a list argument left at None is given as []. */
  datatype SolverArgs = SolverArgs(
    settings: Settings, baseLr: real, iter: int, losses: seq<real>, trainLosses: seq<real>,
    valLosses: seq<real>, lossIters: seq<int>)

  /** The dictionary get_config returns: every constructor argument except base_lr. */
  datatype Config = Config(
    settings: Settings, iter: int, losses: seq<real>, trainLosses: seq<real>,
    valLosses: seq<real>, lossIters: seq<int>)

  const DefaultBaseLr: real := 0.001
  const DefaultDataNames: seq<string> := ["image", "vel"]
  const DefaultInputNames: seq<string> := ["x", "u", "x_next"]
  const DefaultOutputNames: seq<OutputNames.OutputEntry> :=
    [OutputNames.Sequence([OutputNames.Plain("x_next_pred"), OutputNames.Plain("x_next")], OutputNames.TupleSeq)]

  /** The constructor's default arguments, for given training files. */
  function DefaultArgs(trainDataFnames: seq<string>): SolverArgs
  {
    SolverArgs(
      Settings(trainDataFnames, None, [], [], [], 32, 10, "ADAM", 1000, 1.0, 1000, 20, 10000,
               0.9, 0.999, 0.0005, 1000, "", 10, 100, 100),
      DefaultBaseLr, 0, [], [], [], [])
  }

  /** Python's `x or default` on a list. */
  function OrDefault<T>(x: seq<T>, default: seq<T>): seq<T>
  {
    if x == [] then default else x
  }

  /** The settings the constructor stores: empty name lists replaced by their defaults. */
  function Coalesce(s: Settings): (c: Settings)
    ensures c.dataNames != [] && c.inputNames != [] && c.outputNames != []
    ensures s.dataNames != [] && s.inputNames != [] && s.outputNames != [] ==> c == s
  {
    s.(dataNames := OrDefault(s.dataNames, DefaultDataNames),
       inputNames := OrDefault(s.inputNames, DefaultInputNames),
       outputNames := OrDefault(s.outputNames, DefaultOutputNames))
  }

  function InitHyper(args: SolverArgs): Hyper
  {
    Hyper(Coalesce(args.settings), args.baseLr)
  }

  function InitProgress(args: SolverArgs): Progress
  {
    Progress(args.iter, args.losses, args.trainLosses, args.valLosses, args.lossIters, None, [])
  }

  function ConfigOf(h: Hyper, p: Progress): Config
  {
    Config(h.settings, p.iter, p.losses, p.trainLosses, p.valLosses, p.lossIters)
  }

  /** The arguments of a solver rebuilt from a configuration: base_lr takes its default. */
  function ArgsFromConfig(c: Config): SolverArgs
  {
    SolverArgs(c.settings, DefaultBaseLr, c.iter, c.losses, c.trainLosses, c.valLosses, c.lossIters)
  }

  /** Rebuilding a solver from its configuration, at any point of its training, restores every
      setting and the whole loss history; base_lr falls back to its default and the snapshot
      log starts empty. The round trip keeps the hyper-parameters exactly when base_lr already
      had the default value. The settings of a solver are always coalesced (CoalesceStored). */
  lemma ConfigRoundTrip(h: Hyper, p: Progress)
    requires Coalesce(h.settings) == h.settings
    ensures var args := ArgsFromConfig(ConfigOf(h, p));
      && InitHyper(args) == h.(baseLr := DefaultBaseLr)
      && InitProgress(args) == p.(lastSnapshot := None, snapshots := [])
      && (InitHyper(args) == h <==> h.baseLr == DefaultBaseLr)
  {
  }

  /** The settings the constructor stores are already coalesced. */
  lemma CoalesceStored(args: SolverArgs)
    ensures Coalesce(InitHyper(args).settings) == InitHyper(args).settings
  {
  }

  // ----- the schedule -----

  predicate KnownSolverType(t: string)
  {
    t == "SGD" || t == "ADAM"
  }

  /** Validation runs only with a non-zero test_interval and a validation file. */
  predicate Validating(s: Settings)
  {
    s.testInterval != 0 && s.valDataFname.Some?
  }

  predicate ValidationDue(s: Settings, i: int)
  {
    Validating(s) && i % s.testInterval == 0
  }

  /** A loss record is taken at multiples of loss_interval and, when loss_interval is set, at
      multiples of snapshot_interval. */
  predicate RecordDue(s: Settings, i: int)
  {
    s.lossInterval != 0 && (i % s.lossInterval == 0 || (s.snapshotInterval != 0 && i % s.snapshotInterval == 0))
  }

  /** A snapshot is taken when the incremented counter is a multiple of snapshot_interval. */
  predicate SnapshotDue(s: Settings, i: int)
  {
    s.snapshotInterval != 0 && i % s.snapshotInterval == 0
  }

  /** base_lr * gamma ** (iter // stepsize). */
  function LearningRate(h: Hyper, i: int): Result<real>
  {
    StepRate(h.baseLr, h.settings.gamma, h.settings.stepsize, i)
  }

  /** Python's s[-a:] for the window size a = min(average_loss, len(s)) <= len(s). */
  function TrailingWindow(s: seq<real>, a: int): seq<real>
    requires a <= |s|
  {
    if a > 0 then s[|s| - a..]
    else if a == 0 then s
    else s[if -a < |s| then -a else |s|..]
  }

  /** float(sum(losses[-average_loss:]) / average_loss) with average_loss = min(average_loss,
      len(losses)); a zero window divides by zero. */
  function Smoothed(losses: seq<real>, averageLoss: int): Result<real>
  {
    var a := if averageLoss < |losses| then averageLoss else |losses|;
    if a == 0 then Err(ZeroDivisionError)
    else Ok(Sum(TrailingWindow(losses, a)) / a as real)
  }

  /** With a positive average_loss and some history, the smoothed loss is the mean of the last
      min(average_loss, len(losses)) losses, and so lies between their least and greatest. */
  lemma SmoothedIsTrailingMean(losses: seq<real>, averageLoss: int, lo: real, hi: real)
    requires averageLoss > 0 && |losses| > 0
    requires forall i :: 0 <= i < |losses| ==> lo <= losses[i] <= hi
    ensures var a := if averageLoss < |losses| then averageLoss else |losses|;
      Smoothed(losses, averageLoss) == Ok(Mean(losses[|losses| - a..]))
    ensures lo <= Smoothed(losses, averageLoss).value <= hi
  {
    var a := if averageLoss < |losses| then averageLoss else |losses|;
    var w := losses[|losses| - a..];
    assert forall i :: 0 <= i < |w| ==> w[i] == losses[|losses| - a + i];
    MeanBounds(w, lo, hi);
  }

  /** float(sum(loss(...) for _ in range(count)) / count), given the sum of the count losses:
      an empty range sums to 0, and dividing by a zero count raises. */
  function BatchMean(count: int, total: real): Result<real>
  {
    if count == 0 then Err(ZeroDivisionError)
    else if count < 0 then Ok(0.0)
    else Ok(total / count as real)
  }

  /** The mean fails exactly for a zero count; it is 0 for a negative count and otherwise the
      value whose count-fold is the total. */
  lemma BatchMeanMeaning(count: int, total: real)
    ensures BatchMean(count, total).Err? <==> count == 0
    ensures count < 0 ==> BatchMean(count, total) == Ok(0.0)
    ensures count > 0 ==> BatchMean(count, total).Ok? && BatchMean(count, total).value * count as real == total
  {
  }

  /** The validation loss: the mean of the test_iter validation batch losses. */
  function ValidationLoss(s: Settings, valSum: (int, nat) -> real, i: int, slot: nat): Result<real>
  {
    BatchMean(s.testIter, valSum(i, slot))
  }

  // ----- one iteration -----

  function TakeSnapshot(p: Progress): Progress
  {
    p.(snapshots := p.snapshots + [p.iter], lastSnapshot := Some(p.iter))
  }

  /** A loss record: the smoothed training loss, the validation loss when validating, and the
      iteration. An error leaves the mutations made before it in place. */
  function Record(s: Settings, p: Progress, valSum: (int, nat) -> real): (Progress, Option<Error>)
  {
    match Smoothed(p.losses, s.averageLoss)
    case Err(e) => (p, Some(e))
    case Ok(train) =>
      var p1 := p.(trainLosses := p.trainLosses + [train]);
      if Validating(s) then
        match ValidationLoss(s, valSum, p.iter, 1)
        case Err(e) => (p1, Some(e))
        case Ok(v) => (p1.(valLosses := p1.valLosses + [v], lossIters := p1.lossIters + [p.iter]), None)
      else (p1.(lossIters := p1.lossIters + [p.iter]), None)
  }

  /** One pass of the training loop of step. */
  function Iterate(h: Hyper, p: Progress, trainLoss: (int, real) -> real, valSum: (int, nat) -> real)
    : (Progress, Option<Error>)
  {
    var s := h.settings;
    var i := p.iter;
    if ValidationDue(s, i) && ValidationLoss(s, valSum, i, 0).Err? then (p, Some(ZeroDivisionError))
    else match LearningRate(h, i)
      case Err(e) => (p, Some(e))
      case Ok(lr) =>
        var p1 := p.(losses := p.losses + [trainLoss(i, lr)]);
        var (p2, e) := if RecordDue(s, i) then Record(s, p1, valSum) else (p1, None);
        if e.Some? then (p2, e)
        else
          var p3 := p2.(iter := i + 1);
          if SnapshotDue(s, i + 1) then (TakeSnapshot(p3), None) else (p3, None)
  }

  /** n passes of the training loop, stopping at the first error. */
  function Run(h: Hyper, p: Progress, n: nat, trainLoss: (int, real) -> real, valSum: (int, nat) -> real)
    : (Progress, Option<Error>)
  {
    if n == 0 then (p, None)
    else
      var (q, e) := Run(h, p, n - 1, trainLoss, valSum);
      if e.Some? then (q, e) else Iterate(h, q, trainLoss, valSum)
  }

  /** The losses step reports after its loop: the smoothed training loss and, when validating,
      the validation loss. */
  function FinalLosses(s: Settings, p: Progress, valSum: (int, nat) -> real): Result<(real, Option<real>)>
  {
    match Smoothed(p.losses, s.averageLoss)
    case Err(e) => Err(e)
    case Ok(train) =>
      if Validating(s) then
        match ValidationLoss(s, valSum, p.iter, 2)
        case Err(e) => Err(e)
        case Ok(v) => Ok((train, Some(v)))
      else Ok((train, None))
  }

  /** step(iters), given what compiling the losses raised (the layer lookups and the parse of
      the output names, OutputNames.CompileError): that error, or the solver-type test of
      compile_train_fn, max(iters, 0) passes and the losses. */
  function StepSpec(h: Hyper, p: Progress, iters: int, compiled: Option<Error>, trainLoss: (int, real) -> real, valSum: (int, nat) -> real)
    : (Progress, Result<(real, Option<real>)>)
  {
    match compiled
    case Some(e) => (p, Err(e))
    case None => TrainSpec(h, p, iters, trainLoss, valSum)
  }

  /** What step does once the output names have parsed: the solver-type test of
      compile_train_fn, max(iters, 0) passes, the losses. */
  function TrainSpec(h: Hyper, p: Progress, iters: int, trainLoss: (int, real) -> real, valSum: (int, nat) -> real)
    : (Progress, Result<(real, Option<real>)>)
  {
    if !KnownSolverType(h.settings.solverType) then
      (p, Err(ValueError("Unknown solver type " + h.settings.solverType)))
    else
      var (q, e) := Run(h, p, if iters > 0 then iters else 0, trainLoss, valSum);
      if e.Some? then (q, Err(e.value)) else (q, FinalLosses(h.settings, q, valSum))
  }

  /** solve: step up to max_iter, then snapshot unless the last snapshot was taken at the final
      iteration. */
  function SolveSpec(h: Hyper, p: Progress, compiled: Option<Error>, trainLoss: (int, real) -> real, valSum: (int, nat) -> real)
    : (Progress, Result<(real, Option<real>)>)
  {
    FinishSolve(StepSpec(h, p, h.settings.maxIter - p.iter, compiled, trainLoss, valSum))
  }

  /** What solve does after its step: the final snapshot, unless the step failed. */
  function FinishSolve(t: (Progress, Result<(real, Option<real>)>)): (Progress, Result<(real, Option<real>)>)
  {
    if t.1.Err? then t else (FinalSnapshot(t.0), t.1)
  }

  /** The snapshot solve takes after its step unless the last one was at the final iteration. */
  function FinalSnapshot(p: Progress): Progress
  {
    if p.lastSnapshot != Some(p.iter) then TakeSnapshot(p) else p
  }

  // ----- what the schedule does over many iterations -----

  /** The iterations lo .. lo+n-1 at which a loss record is due, in order. */
  function RecordIters(s: Settings, lo: int, n: nat): seq<int>
  {
    DueIn(i => RecordDue(s, i), lo, n)
  }

  /** The counter values lo+1 .. lo+n at which a snapshot is due, in order. */
  function SnapshotIters(s: Settings, lo: int, n: nat): seq<int>
  {
    DueIn(i => SnapshotDue(s, i), lo + 1, n)
  }

  /** The record iterations are strictly increasing, lie in lo .. lo+n-1, and are exactly the
      iterations there at which a record is due. */
  lemma RecordItersFacts(s: Settings, lo: int, n: nat)
    ensures StrictlyIncreasing(RecordIters(s, lo, n))
    ensures forall k :: 0 <= k < |RecordIters(s, lo, n)| ==>
      lo <= RecordIters(s, lo, n)[k] < lo + n && RecordDue(s, RecordIters(s, lo, n)[k])
    ensures forall i :: lo <= i < lo + n && RecordDue(s, i) ==> i in RecordIters(s, lo, n)
  {
    DueInFacts(i => RecordDue(s, i), lo, n);
  }

  /** The snapshot counters are strictly increasing, lie in lo+1 .. lo+n, and are exactly the
      counters there that are multiples of snapshot_interval. */
  lemma SnapshotItersFacts(s: Settings, lo: int, n: nat)
    ensures StrictlyIncreasing(SnapshotIters(s, lo, n))
    ensures forall k :: 0 <= k < |SnapshotIters(s, lo, n)| ==>
      lo < SnapshotIters(s, lo, n)[k] <= lo + n && SnapshotDue(s, SnapshotIters(s, lo, n)[k])
    ensures forall i :: lo < i <= lo + n && SnapshotDue(s, i) ==> i in SnapshotIters(s, lo, n)
  {
    DueInFacts(i => SnapshotDue(s, i), lo + 1, n);
  }

  /** What one error-free pass does to the counter and the losses: it trains at the scheduled
      rate, appends the loss and increments the counter. */
  lemma IterateTrains(h: Hyper, p: Progress, trainLoss: (int, real) -> real, valSum: (int, nat) -> real)
    requires Iterate(h, p, trainLoss, valSum).1.None?
    ensures var q := Iterate(h, p, trainLoss, valSum).0;
      && LearningRate(h, p.iter).Ok?
      && q.iter == p.iter + 1
      && q.losses == p.losses + [trainLoss(p.iter, LearningRate(h, p.iter).value)]
  {
  }

  /** What one error-free pass does to the loss records: when one is due it appends the smoothed
      training loss, the iteration and, when validating, the validation loss; otherwise none
      changes. */
  lemma IterateRecords(h: Hyper, p: Progress, trainLoss: (int, real) -> real, valSum: (int, nat) -> real)
    requires Iterate(h, p, trainLoss, valSum).1.None?
    ensures var q := Iterate(h, p, trainLoss, valSum).0;
      var s := h.settings;
      && (RecordDue(s, p.iter) ==>
            && Smoothed(q.losses, s.averageLoss).Ok?
            && q.trainLosses == p.trainLosses + [Smoothed(q.losses, s.averageLoss).value]
            && q.lossIters == p.lossIters + [p.iter]
            && q.valLosses == (if Validating(s) then p.valLosses + [ValidationLoss(s, valSum, p.iter, 1).value] else p.valLosses))
      && (!RecordDue(s, p.iter) ==>
            q.trainLosses == p.trainLosses && q.lossIters == p.lossIters && q.valLosses == p.valLosses)
  {
  }

  /** What one error-free pass does to the snapshot log: it snapshots the incremented counter
      when that is due. */
  lemma IterateSnapshots(h: Hyper, p: Progress, trainLoss: (int, real) -> real, valSum: (int, nat) -> real)
    requires Iterate(h, p, trainLoss, valSum).1.None?
    ensures var q := Iterate(h, p, trainLoss, valSum).0;
      && q.snapshots == p.snapshots + (if SnapshotDue(h.settings, p.iter + 1) then [p.iter + 1] else [])
      && q.lastSnapshot == (if SnapshotDue(h.settings, p.iter + 1) then Some(p.iter + 1) else p.lastSnapshot)
  {
  }

  /** An error-free run of n passes advances the counter by n. */
  lemma {:induction false} RunCounter(h: Hyper, p: Progress, n: nat,
                                      trainLoss: (int, real) -> real, valSum: (int, nat) -> real)
    requires Run(h, p, n, trainLoss, valSum).1.None?
    ensures Run(h, p, n, trainLoss, valSum).0.iter == p.iter + n
  {
    if n > 0 {
      var q0 := Run(h, p, n - 1, trainLoss, valSum).0;
      assert Run(h, p, n - 1, trainLoss, valSum).1.None?;
      RunCounter(h, p, n - 1, trainLoss, valSum);
      RunUnfold(h, p, n, trainLoss, valSum);
      IterateTrains(h, q0, trainLoss, valSum);
    }
  }

  /** Run(n) is Run(n - 1) followed by one more pass when Run(n - 1) succeeded. */
  lemma RunUnfold(h: Hyper, p: Progress, n: nat, trainLoss: (int, real) -> real, valSum: (int, nat) -> real)
    requires n > 0 && Run(h, p, n - 1, trainLoss, valSum).1.None?
    ensures Run(h, p, n, trainLoss, valSum) == Iterate(h, Run(h, p, n - 1, trainLoss, valSum).0, trainLoss, valSum)
  {
  }

  /** Once a run has failed, further passes are not made. */
  lemma {:induction false} RunErrorSticks(h: Hyper, p: Progress, m: nat, n: nat,
                                          trainLoss: (int, real) -> real, valSum: (int, nat) -> real)
    requires m <= n && Run(h, p, m, trainLoss, valSum).1.Some?
    ensures Run(h, p, n, trainLoss, valSum) == Run(h, p, m, trainLoss, valSum)
    decreases n
  {
    if m < n {
      RunErrorSticks(h, p, m, n - 1, trainLoss, valSum);
    }
  }

  /** The k-th loss a run appends is the training loss at iteration iter+k and its scheduled rate. */
  predicate LossAt(h: Hyper, p: Progress, q: Progress, k: nat, trainLoss: (int, real) -> real)
  {
    && LearningRate(h, p.iter + k).Ok?
    && |p.losses| + k < |q.losses|
    && q.losses[|p.losses| + k] == trainLoss(p.iter + k, LearningRate(h, p.iter + k).value)
  }

  /** An error-free run of n passes advances the counter by n and appends exactly n losses, the
      k-th being the training loss at iteration iter+k and its scheduled rate. */
  lemma {:induction false} RunLosses(h: Hyper, p: Progress, n: nat,
                                     trainLoss: (int, real) -> real, valSum: (int, nat) -> real)
    requires Run(h, p, n, trainLoss, valSum).1.None?
    ensures LossesAppended(h, p, Run(h, p, n, trainLoss, valSum).0, n, trainLoss)
  {
    if n > 0 {
      var q0 := Run(h, p, n - 1, trainLoss, valSum).0;
      assert Run(h, p, n - 1, trainLoss, valSum).1.None?;
      RunLosses(h, p, n - 1, trainLoss, valSum);
      RunUnfold(h, p, n, trainLoss, valSum);
      IterateTrains(h, q0, trainLoss, valSum);
      LossesStep(h, p, q0, Run(h, p, n, trainLoss, valSum).0, n, trainLoss);
    }
  }

  /** q is n passes past p, and its losses extend p's by the n training losses in between. */
  predicate LossesAppended(h: Hyper, p: Progress, q: Progress, n: nat, trainLoss: (int, real) -> real)
  {
    && q.iter == p.iter + n
    && |q.losses| == |p.losses| + n
    && q.losses[..|p.losses|] == p.losses
    && (forall k: nat :: k < n ==> LossAt(h, p, q, k, trainLoss))
  }

  lemma LossesStep(h: Hyper, p: Progress, q0: Progress, q: Progress, n: nat, trainLoss: (int, real) -> real)
    requires n > 0 && LossesAppended(h, p, q0, n - 1, trainLoss)
    requires LearningRate(h, q0.iter).Ok?
    requires q.iter == q0.iter + 1 && q.losses == q0.losses + [trainLoss(q0.iter, LearningRate(h, q0.iter).value)]
    ensures LossesAppended(h, p, q, n, trainLoss)
  {
    assert q.losses[..|q0.losses|] == q0.losses;
    assert q.losses[..|p.losses|] == q0.losses[..|p.losses|];
    forall k: nat | k < n ensures LossAt(h, p, q, k, trainLoss) {
      if k < n - 1 {
        assert LossAt(h, p, q0, k, trainLoss);
      }
    }
  }

  /** An error-free run appends to loss_iters exactly the iterations at which a record was due,
      and one entry to train_losses per record, so the two grow together. */
  lemma {:induction false} RunRecords(h: Hyper, p: Progress, n: nat,
                                      trainLoss: (int, real) -> real, valSum: (int, nat) -> real)
    requires Run(h, p, n, trainLoss, valSum).1.None?
    ensures RecordsAppended(h.settings, p, Run(h, p, n, trainLoss, valSum).0, n)
  {
    if n > 0 {
      var q0 := Run(h, p, n - 1, trainLoss, valSum).0;
      assert Run(h, p, n - 1, trainLoss, valSum).1.None?;
      RunRecords(h, p, n - 1, trainLoss, valSum);
      RunUnfold(h, p, n, trainLoss, valSum);
      IterateRecordCounts(h, q0, trainLoss, valSum);
      RecordsStep(h.settings, p, q0, Run(h, p, n, trainLoss, valSum).0, n);
    }
  }

  /** q is n iterations past p, and its loss_iters and train_losses extend p's by the records
      due in between. */
  predicate RecordsAppended(s: Settings, p: Progress, q: Progress, n: nat)
  {
    && q.iter == p.iter + n
    && q.lossIters == p.lossIters + RecordIters(s, p.iter, n)
    && |q.trainLosses| == |p.trainLosses| + |RecordIters(s, p.iter, n)|
    && q.trainLosses[..|p.trainLosses|] == p.trainLosses
  }

  /** What one pass from q0 to q does to the records. */
  predicate RecordStep(s: Settings, q0: Progress, q: Progress)
  {
    && q.iter == q0.iter + 1
    && q.lossIters == q0.lossIters + (if RecordDue(s, q0.iter) then [q0.iter] else [])
    && |q.trainLosses| == |q0.trainLosses| + (if RecordDue(s, q0.iter) then 1 else 0)
    && q.trainLosses[..|q0.trainLosses|] == q0.trainLosses
  }

  lemma IterateRecordCounts(h: Hyper, p: Progress, trainLoss: (int, real) -> real, valSum: (int, nat) -> real)
    requires Iterate(h, p, trainLoss, valSum).1.None?
    ensures RecordStep(h.settings, p, Iterate(h, p, trainLoss, valSum).0)
  {
    IterateTrains(h, p, trainLoss, valSum);
    IterateRecords(h, p, trainLoss, valSum);
  }

  lemma RecordsStep(s: Settings, p: Progress, q0: Progress, q: Progress, n: nat)
    requires n > 0 && RecordsAppended(s, p, q0, n - 1) && RecordStep(s, q0, q)
    ensures RecordsAppended(s, p, q, n)
  {
    var extra := if RecordDue(s, q0.iter) then [q0.iter] else [];
    assert RecordIters(s, p.iter, n) == RecordIters(s, p.iter, n - 1) + extra;
    PrefixOfPrefix(p.trainLosses, q0.trainLosses, q.trainLosses);
  }

  /** When validating, an error-free run appends one validation loss per record; otherwise
      val_losses is unchanged. */
  lemma {:induction false} RunValidationRecords(h: Hyper, p: Progress, n: nat,
                                                trainLoss: (int, real) -> real, valSum: (int, nat) -> real)
    requires Run(h, p, n, trainLoss, valSum).1.None?
    ensures ValidationsAppended(h.settings, p, Run(h, p, n, trainLoss, valSum).0, n)
  {
    if n > 0 {
      var q0 := Run(h, p, n - 1, trainLoss, valSum).0;
      assert Run(h, p, n - 1, trainLoss, valSum).1.None?;
      RunValidationRecords(h, p, n - 1, trainLoss, valSum);
      RunUnfold(h, p, n, trainLoss, valSum);
      IterateValidations(h, q0, trainLoss, valSum);
      ValidationsStep(h.settings, p, q0, Run(h, p, n, trainLoss, valSum).0, n);
    }
  }

  /** q's val_losses extend p's by one entry per record due in the n iterations from p's, when
      validating. */
  predicate ValidationsAppended(s: Settings, p: Progress, q: Progress, n: nat)
  {
    && q.iter == p.iter + n
    && |q.valLosses| == |p.valLosses| + (if Validating(s) then |RecordIters(s, p.iter, n)| else 0)
    && q.valLosses[..|p.valLosses|] == p.valLosses
  }

  lemma ValidationsStep(s: Settings, p: Progress, q0: Progress, q: Progress, n: nat)
    requires n > 0 && ValidationsAppended(s, p, q0, n - 1) && ValidationStep(s, q0, q)
    ensures ValidationsAppended(s, p, q, n)
  {
    var extra := if RecordDue(s, q0.iter) then [q0.iter] else [];
    assert RecordIters(s, p.iter, n) == RecordIters(s, p.iter, n - 1) + extra;
    PrefixOfPrefix(p.valLosses, q0.valLosses, q.valLosses);
  }

  /** What one pass from p to q does to val_losses: one more entry when a record is due and
      validation runs, none otherwise. */
  predicate ValidationStep(s: Settings, p: Progress, q: Progress)
  {
    && q.iter == p.iter + 1
    && |q.valLosses| == |p.valLosses| + (if Validating(s) && RecordDue(s, p.iter) then 1 else 0)
    && q.valLosses[..|p.valLosses|] == p.valLosses
  }

  lemma IterateValidations(h: Hyper, p: Progress, trainLoss: (int, real) -> real, valSum: (int, nat) -> real)
    requires Iterate(h, p, trainLoss, valSum).1.None?
    ensures ValidationStep(h.settings, p, Iterate(h, p, trainLoss, valSum).0)
  {
    IterateTrains(h, p, trainLoss, valSum);
    IterateRecords(h, p, trainLoss, valSum);
  }

  /** A prefix of a prefix is a prefix. */
  lemma PrefixOfPrefix<T>(a: seq<T>, b: seq<T>, c: seq<T>)
    requires |a| <= |b| <= |c| && b[..|a|] == a && c[..|b|] == b
    ensures c[..|a|] == a
  {
    assert c[..|a|] == c[..|b|][..|a|];
  }

  /** An error-free run writes a snapshot at exactly the multiples of snapshot_interval the
      counter reaches, in order, and remembers the last one. */
  lemma {:induction false} RunSnapshots(h: Hyper, p: Progress, n: nat,
                                        trainLoss: (int, real) -> real, valSum: (int, nat) -> real)
    requires Run(h, p, n, trainLoss, valSum).1.None?
    ensures SnapshotsTaken(h.settings, p, Run(h, p, n, trainLoss, valSum).0, n)
  {
    if n > 0 {
      var q0 := Run(h, p, n - 1, trainLoss, valSum).0;
      assert Run(h, p, n - 1, trainLoss, valSum).1.None?;
      RunSnapshots(h, p, n - 1, trainLoss, valSum);
      RunUnfold(h, p, n, trainLoss, valSum);
      IterateTrains(h, q0, trainLoss, valSum);
      IterateSnapshots(h, q0, trainLoss, valSum);
      SnapshotsStep(h.settings, p, q0, Run(h, p, n, trainLoss, valSum).0, n);
    }
  }

  /** q is n passes past p, with a snapshot at each due counter in between, the last one
      remembered. */
  predicate SnapshotsTaken(s: Settings, p: Progress, q: Progress, n: nat)
  {
    var snaps := SnapshotIters(s, p.iter, n);
    && q.iter == p.iter + n
    && q.snapshots == p.snapshots + snaps
    && q.lastSnapshot == (if snaps == [] then p.lastSnapshot else Some(snaps[|snaps| - 1]))
  }

  lemma SnapshotsStep(s: Settings, p: Progress, q0: Progress, q: Progress, n: nat)
    requires n > 0 && SnapshotsTaken(s, p, q0, n - 1)
    requires q.iter == q0.iter + 1
    requires q.snapshots == q0.snapshots + (if SnapshotDue(s, q0.iter + 1) then [q0.iter + 1] else [])
    requires q.lastSnapshot == (if SnapshotDue(s, q0.iter + 1) then Some(q0.iter + 1) else q0.lastSnapshot)
    ensures SnapshotsTaken(s, p, q, n)
  {
    var extra := if SnapshotDue(s, q0.iter + 1) then [q0.iter + 1] else [];
    assert SnapshotIters(s, p.iter, n) == SnapshotIters(s, p.iter, n - 1) + extra;
  }

  /** A successful step found every layer it looked up, parsed the output names, knew the
      solver type and made an error-free run of max(iters, 0) passes. */
  lemma StepSpecRun(h: Hyper, p: Progress, iters: int, compiled: Option<Error>, trainLoss: (int, real) -> real, valSum: (int, nat) -> real)
    requires StepSpec(h, p, iters, compiled, trainLoss, valSum).1.Ok?
    ensures compiled.None?
    ensures KnownSolverType(h.settings.solverType)
    ensures var n: nat := if iters > 0 then iters else 0;
      && Run(h, p, n, trainLoss, valSum).1.None?
      && StepSpec(h, p, iters, compiled, trainLoss, valSum).0 == Run(h, p, n, trainLoss, valSum).0
  {
  }

  /** The snapshot log: strictly increasing iterations, none beyond the counter, the last one
      remembered as _last_snapshot_iter (None before the first). */
  predicate SnapshotLog(p: Progress)
  {
    LogInvariant(p.snapshots, p.iter, p.lastSnapshot)
  }

  predicate LogInvariant(snapshots: seq<int>, iter: int, last: Option<int>)
  {
    && StrictlyIncreasing(snapshots)
    && (forall k :: 0 <= k < |snapshots| ==> snapshots[k] <= iter)
    && last == (if snapshots == [] then None else Some(snapshots[|snapshots| - 1]))
  }

  lemma InitialSnapshotLog(args: SolverArgs)
    ensures SnapshotLog(InitProgress(args)) && InitProgress(args).snapshots == []
  {
  }

  /** An error-free run keeps the snapshot log and only appends to it. */
  lemma RunKeepsSnapshotLog(h: Hyper, p: Progress, n: nat, trainLoss: (int, real) -> real, valSum: (int, nat) -> real)
    requires SnapshotLog(p) && Run(h, p, n, trainLoss, valSum).1.None?
    ensures LogExtended(p, Run(h, p, n, trainLoss, valSum).0)
  {
    RunSnapshots(h, p, n, trainLoss, valSum);
    LogAfterRun(h.settings, p, Run(h, p, n, trainLoss, valSum).0, n);
  }

  /** q's snapshot log is a valid log extending p's. */
  predicate LogExtended(p: Progress, q: Progress)
  {
    && SnapshotLog(q)
    && |p.snapshots| <= |q.snapshots|
    && q.snapshots[..|p.snapshots|] == p.snapshots
  }

  lemma LogAfterRun(s: Settings, p: Progress, q: Progress, n: nat)
    requires SnapshotLog(p) && SnapshotsTaken(s, p, q, n)
    ensures LogExtended(p, q)
  {
    SnapshotItersFacts(s, p.iter, n);
    ExtendLog(p.snapshots, p.iter, p.lastSnapshot, SnapshotIters(s, p.iter, n), q.iter);
  }

  /** Appending increasing entries after the counter and up to a new counter keeps the log. */
  lemma ExtendLog(s: seq<int>, iter: int, last: Option<int>, snaps: seq<int>, iter': int)
    requires LogInvariant(s, iter, last) && iter <= iter'
    requires StrictlyIncreasing(snaps) && forall k :: 0 <= k < |snaps| ==> iter < snaps[k] <= iter'
    ensures LogInvariant(s + snaps, iter', if snaps == [] then last else Some(snaps[|snaps| - 1]))
    ensures (s + snaps)[..|s|] == s
  {
    IncreasingConcat(s, snaps, iter);
    var c := s + snaps;
    forall k | 0 <= k < |c| ensures c[k] <= iter' {
      if k >= |s| {
        assert c[k] == snaps[k - |s|];
      }
    }
    if snaps != [] {
      assert c[|c| - 1] == snaps[|snaps| - 1];
    } else {
      assert c == s;
    }
  }

  /** A successful solve is an error-free run to max_iter followed by the final snapshot when the
      last one was not at the final iteration. */
  lemma SolveSpecStep(h: Hyper, p: Progress, compiled: Option<Error>, trainLoss: (int, real) -> real, valSum: (int, nat) -> real)
    requires SolveSpec(h, p, compiled, trainLoss, valSum).1.Ok?
    ensures StepSpec(h, p, h.settings.maxIter - p.iter, compiled, trainLoss, valSum).1.Ok?
    ensures SolveSpec(h, p, compiled, trainLoss, valSum).0 == FinalSnapshot(StepSpec(h, p, h.settings.maxIter - p.iter, compiled, trainLoss, valSum).0)
  {
  }

  /** An error-free solve keeps the snapshot log and ends with the final iteration snapshotted:
      the final snapshot is taken only if the last periodic one was not at that iteration, so
      no iteration is snapshotted twice. */
  lemma SolveSnapshotsOnce(h: Hyper, p: Progress, compiled: Option<Error>, trainLoss: (int, real) -> real, valSum: (int, nat) -> real)
    requires SnapshotLog(p)
    requires SolveSpec(h, p, compiled, trainLoss, valSum).1.Ok?
    ensures var q := SolveSpec(h, p, compiled, trainLoss, valSum).0;
      && SnapshotLog(q)
      && q.lastSnapshot == Some(q.iter)
      && |p.snapshots| <= |q.snapshots|
      && q.snapshots[..|p.snapshots|] == p.snapshots
  {
    var iters := h.settings.maxIter - p.iter;
    var n: nat := if iters > 0 then iters else 0;
    SolveSpecStep(h, p, compiled, trainLoss, valSum);
    StepSpecRun(h, p, iters, compiled, trainLoss, valSum);
    RunKeepsSnapshotLog(h, p, n, trainLoss, valSum);
    var q0 := Run(h, p, n, trainLoss, valSum).0;
    assert q0.snapshots[..|p.snapshots|] == p.snapshots;
    FinalSnapshotLog(Run(h, p, n, trainLoss, valSum).0);
  }

  /** The final snapshot keeps the log, only appends to it, and leaves the final iteration
      snapshotted exactly once. */
  lemma FinalSnapshotLog(q: Progress)
    requires SnapshotLog(q)
    ensures SnapshotLog(FinalSnapshot(q)) && FinalSnapshot(q).lastSnapshot == Some(q.iter)
    ensures FinalSnapshot(q).iter == q.iter
    ensures |q.snapshots| <= |FinalSnapshot(q).snapshots|
    ensures FinalSnapshot(q).snapshots[..|q.snapshots|] == q.snapshots
  {
    if q.lastSnapshot != Some(q.iter) {
      AppendToLog(q.snapshots, q.iter, q.lastSnapshot);
    }
  }

  /** Appending the counter to a log whose last entry is not the counter keeps the log. */
  lemma AppendToLog(s: seq<int>, m: int, last: Option<int>)
    requires LogInvariant(s, m, last) && last != Some(m)
    ensures LogInvariant(s + [m], m, Some(m)) && (s + [m])[..|s|] == s
  {
    forall k | 0 <= k < |s| ensures s[k] < m {
      if k < |s| - 1 {
        assert s[k] < s[|s| - 1];
      }
    }
    IncreasingConcat(s, [m], m - 1);
    assert (s + [m])[|s|] == m;
  }

  // ----- snapshot file names -----

  /** get_snapshot_fname: prefix + "_iter_" + str(iter) + ext. */
  function SnapshotFileName(prefix: string, iter: int, ext: string): (name: string)
    ensures |prefix| + 6 + |ext| < |name|
    ensures name[..|prefix| + 6] == prefix + "_iter_" && name[|name| - |ext|..] == ext
    ensures (name[|prefix| + 6] == '-') <==> iter < 0
  {
    prefix + "_iter_" + Decimal.IntToString(iter) + ext
  }

  /** Snapshot files of different iterations have different names. */
  lemma SnapshotFileNameInjective(prefix: string, i: int, j: int, ext: string)
    requires SnapshotFileName(prefix, i, ext) == SnapshotFileName(prefix, j, ext)
    ensures i == j
  {
    var a := Decimal.IntToString(i);
    var b := Decimal.IntToString(j);
    var n := |prefix + "_iter_"|;
    assert SnapshotFileName(prefix, i, ext)[n..] == a + ext;
    assert SnapshotFileName(prefix, j, ext)[n..] == b + ext;
    assert |a| == |b|;
    assert a == (a + ext)[..|a|] && b == (b + ext)[..|b|];
    Decimal.IntToStringInjective(i, j);
  }

  /** A snapshot file name names one iteration only. */
  lemma SnapshotFileNameNames(prefix: string, i: int, ext: string)
    ensures forall j :: SnapshotFileName(prefix, j, ext) == SnapshotFileName(prefix, i, ext) ==> j == i
  {
    forall j | SnapshotFileName(prefix, j, ext) == SnapshotFileName(prefix, i, ext)
      ensures j == i
    {
      SnapshotFileNameInjective(prefix, j, i, ext);
    }
  }

  /** The files one snapshot writes: the model, the solver and, when loss_interval is set, the
      loss plot. */
  function SnapshotFiles(s: Settings, iter: int): (files: seq<string>)
    ensures |files| == if s.lossInterval != 0 then 3 else 2
    ensures forall k :: 0 <= k < |files| ==>
      |s.snapshotPrefix| + 6 < |files[k]| && files[k][..|s.snapshotPrefix| + 6] == s.snapshotPrefix + "_iter_"
    ensures forall a, b :: 0 <= a < b < |files| ==> |files[a]| != |files[b]|
  {
    var n := |s.snapshotPrefix + "_iter_" + Decimal.IntToString(iter)|;
    assert |SnapshotFileName(s.snapshotPrefix, iter, "_model.yaml")| == n + 11;
    assert |SnapshotFileName(s.snapshotPrefix, iter, "_solver.yaml")| == n + 12;
    assert |SnapshotFileName(s.snapshotPrefix, iter, "_loss.pdf")| == n + 9;
    [SnapshotFileName(s.snapshotPrefix, iter, "_model.yaml"), SnapshotFileName(s.snapshotPrefix, iter, "_solver.yaml")]
    + (if s.lossInterval != 0 then [SnapshotFileName(s.snapshotPrefix, iter, "_loss.pdf")] else [])
  }

  /** The error compiling a loss raises on a network whose prediction layers have the given
      names: compile_train_fn and compile_val_fn look up the input layers, then parse the
      output names as get_output_vars does. */
  function CompileLookup(s: Settings, layers: set<string>): Option<Error>
  {
    OutputNames.CompileError(s.inputNames, s.outputNames, layers)
  }

  /** The solver, with its hyper-parameters and its training progress as fields. */
  class TheanoNetSolver {
    var settings: Settings
    var baseLr: real
    var iter: int
    var losses: seq<real>
    var trainLosses: seq<real>
    var valLosses: seq<real>
    var lossIters: seq<int>
    var lastSnapshotIter: Option<int>
    var snapshots: seq<int>

    function Params(): Hyper
      reads this
    {
      Hyper(settings, baseLr)
    }

    function State(): Progress
      reads this
    {
      Progress(iter, losses, trainLosses, valLosses, lossIters, lastSnapshotIter, snapshots)
    }

    constructor (args: SolverArgs)
      ensures Params() == InitHyper(args) && State() == InitProgress(args)
    {
      settings := Coalesce(args.settings);
      baseLr := args.baseLr;
      iter := args.iter;
      losses := args.losses;
      trainLosses := args.trainLosses;
      valLosses := args.valLosses;
      lossIters := args.lossIters;
      lastSnapshotIter := None;
      snapshots := [];
    }

    /** get_config: a solver rebuilt from it has this solver's settings and loss history, with
        base_lr at its default (the stored settings are coalesced, see CoalesceStored), and an
        empty snapshot log. */
    function GetConfig(): (c: Config)
      reads this
      ensures Coalesce(settings) == settings ==> InitHyper(ArgsFromConfig(c)) == Params().(baseLr := DefaultBaseLr)
      ensures InitProgress(ArgsFromConfig(c)) == State().(lastSnapshot := None, snapshots := [])
    {
      ConfigOf(Params(), State())
    }

    /** get_snapshot_fname: the snapshot prefix, "_iter_", the counter and the extension; the
        name identifies the counter. */
    function GetSnapshotFname(ext: string): (name: string)
      reads this
      ensures |settings.snapshotPrefix| + 6 + |ext| < |name|
      ensures name[..|settings.snapshotPrefix| + 6] == settings.snapshotPrefix + "_iter_"
      ensures name[|name| - |ext|..] == ext
      ensures forall j :: SnapshotFileName(settings.snapshotPrefix, j, ext) == name ==> j == iter
    {
      SnapshotFileNameNames(settings.snapshotPrefix, iter, ext);
      SnapshotFileName(settings.snapshotPrefix, iter, ext)
    }

    /** snapshot: writes the snapshot files of the current iteration and remembers it. */
    method Snapshot()
      modifies this
      ensures Params() == old(Params()) && State() == TakeSnapshot(old(State()))
    {
      snapshots := snapshots + [iter];
      lastSnapshotIter := Some(iter);
    }

    /** The loss record of one pass: the smoothed training loss, then the validation loss. */
    method RecordLosses(valSum: (int, nat) -> real) returns (e: Option<Error>)
      modifies this
      ensures Params() == old(Params())
      ensures (State(), e) == Record(old(settings), old(State()), valSum)
    {
      var train := Smoothed(losses, settings.averageLoss);
      if train.Err? {
        return Some(train.error);
      }
      trainLosses := trainLosses + [train.value];
      if Validating(settings) {
        var v := ValidationLoss(settings, valSum, iter, 1);
        if v.Err? {
          return Some(v.error);
        }
        valLosses := valLosses + [v.value];
      }
      lossIters := lossIters + [iter];
      return None;
    }

    /** One pass of step's while loop. */
    method Iteration(trainLoss: (int, real) -> real, valSum: (int, nat) -> real) returns (e: Option<Error>)
      modifies this
      ensures Params() == old(Params())
      ensures (State(), e) == Iterate(old(Params()), old(State()), trainLoss, valSum)
    {
      ghost var h := Params();
      ghost var p := State();
      if ValidationDue(settings, iter) {
        var v := ValidationLoss(settings, valSum, iter, 0);
        if v.Err? {
          return Some(v.error);
        }
      }
      var lr := LearningRate(Params(), iter);
      if lr.Err? {
        return Some(lr.error);
      }
      losses := losses + [trainLoss(iter, lr.value)];
      ghost var p1 := State();
      assert p1 == p.(losses := p.losses + [trainLoss(p.iter, lr.value)]);
      if RecordDue(settings, iter) {
        e := RecordLosses(valSum);
        if e.Some? {
          return;
        }
      }
      ghost var p2 := State();
      assert (p2, None) == (if RecordDue(h.settings, p.iter) then Record(h.settings, p1, valSum) else (p1, None));
      iter := iter + 1;
      if SnapshotDue(settings, iter) {
        Snapshot();
      }
      return None;
    }

    /** step(iters): compiles the training function, then runs the training loop from iter_ up
        to iter_ + iters. */
    method Step(iters: int, layers: set<string>, trainLoss: (int, real) -> real, valSum: (int, nat) -> real)
      returns (r: Result<(real, Option<real>)>)
      modifies this
      ensures Params() == old(Params())
      ensures (State(), r) == StepSpec(old(Params()), old(State()), iters, CompileLookup(old(settings), layers), trainLoss, valSum)
    {
      var compileError := CompileLookup(settings, layers);
      if compileError.Some? {
        return Err(compileError.value);
      }
      r := Train(iters, trainLoss, valSum);
    }

    /** The part of step after the training function is compiled. */
    method Train(iters: int, trainLoss: (int, real) -> real, valSum: (int, nat) -> real)
      returns (r: Result<(real, Option<real>)>)
      modifies this
      ensures Params() == old(Params())
      ensures (State(), r) == TrainSpec(old(Params()), old(State()), iters, trainLoss, valSum)
    {
      if !KnownSolverType(settings.solverType) {
        return Err(ValueError("Unknown solver type " + settings.solverType));
      }
      ghost var h := Params();
      ghost var p0 := State();
      ghost var n: nat := if iters > 0 then iters else 0;
      ghost var k: nat := 0;
      var stopIter := iter + iters;
      while iter < stopIter
        invariant Params() == h
        invariant k <= n && iter == p0.iter + k
        invariant Run(h, p0, k, trainLoss, valSum) == (State(), None)
        decreases stopIter - iter
      {
        var e := Iteration(trainLoss, valSum);
        RunUnfold(h, p0, k + 1, trainLoss, valSum);
        k := k + 1;
        if e.Some? {
          RunErrorSticks(h, p0, k, n, trainLoss, valSum);
          assert TrainSpec(h, p0, iters, trainLoss, valSum) == (State(), Err(e.value));
          return Err(e.value);
        }
      }
      assert k == n;
      r := FinalLosses(settings, State(), valSum);
      assert TrainSpec(h, p0, iters, trainLoss, valSum) == (State(), r);
    }

    /** solve: step to max_iter, then take the final snapshot unless it was just taken; the
        result is SolveSpec, written out as its definition. */
    method Solve(layers: set<string>, trainLoss: (int, real) -> real, valSum: (int, nat) -> real) returns (r: Result<(real, Option<real>)>)
      modifies this
      ensures Params() == old(Params())
      ensures (State(), r) == FinishSolve(StepSpec(old(Params()), old(State()), old(settings.maxIter - iter), CompileLookup(old(settings), layers), trainLoss, valSum))
    {
      r := Step(settings.maxIter - iter, layers, trainLoss, valSum);
      if r.Err? {
        return;
      }
      if lastSnapshotIter != Some(iter) {
        Snapshot();
      }
    }
  }
}
