/** BilinearSolver: each cycle of step checks the output pairs, aggregates the normal equations
    of every bilinear layer over one pass of the training data, solves the regularised systems and
    sets the layers' parameters. Everything the network and numpy compute is an oracle (a Source):
    the shape of each layer's output on each batch, the solver terms of each batch, numpy's
    linear solver and the post_fit of the terms. */
module BilinearSolving {
  import opened Errors
  import opened OutputNames
  import opened BilinearPreflight
  import NetSolver

  // ----- matrices and the accumulators of the normal equations -----

  type Matrix = seq<seq<real>>

  predicate SameShape(x: Matrix, y: Matrix)
  {
    |x| == |y| && forall r :: 0 <= r < |x| ==> |x[r]| == |y[r]|
  }

  predicate Square(x: Matrix)
  {
    forall r :: 0 <= r < |x| ==> |x[r]| == |x|
  }

  function MatAdd(x: Matrix, y: Matrix): (z: Matrix)
    requires SameShape(x, y)
    ensures SameShape(z, x)
  {
    seq(|x|, r requires 0 <= r < |x| => seq(|x[r]|, c requires 0 <= c < |x[r]| => x[r][c] + y[r][c]))
  }

  /** An accumulator, As[i] or Bs[i]: the integer 0 it starts as, or a matrix. */
  datatype Acc = Zero | Mat(m: Matrix)

  const BroadcastError := ValueError("operands could not be broadcast together")

  /** acc += m: 0 + m is m; matrices of one shape add entrywise and others do not broadcast. */
  function AddTerm(acc: Acc, m: Matrix): Result<Acc>
  {
    match acc
    case Zero => Ok(Mat(m))
    case Mat(x) => if SameShape(x, m) then Ok(Mat(MatAdd(x, m))) else Err(BroadcastError)
  }

  /** The sum of a sequence of matrices, added one by one to the integer 0. */
  function Accumulate(ms: seq<Matrix>): Result<Acc>
  {
    if ms == [] then Ok(Zero)
    else match Accumulate(ms[..|ms| - 1])
      case Err(e) => Err(e)
      case Ok(acc) => AddTerm(acc, ms[|ms| - 1])
  }

  /** The terms compute_solver_terms returns for one batch: A, B and the post_fit function,
      identified by a handle. */
  datatype Terms = Terms(a: Matrix, b: Matrix, postFit: nat)

  /** The parameters (Q, R, S, b) post_fit makes of a solution. */
  datatype Fit = Fit(q: Matrix, r: Matrix, s: Matrix, bias: Matrix)

  /** What a bilinear layer's parameters are set to: one fit, or one fit per channel. */
  datatype LayerParams = Whole(fit: Fit) | PerChannel(fits: seq<Fit>)

  /** The system handed to numpy.linalg.solve: A / (2N) plus the weight decay on the diagonal,
      and B / (2N). With N = 0, numpy divides by zero without raising and the entries are
      infinite or NaN; that system is passed on unevaluated. */
  datatype LinearSystem =
    | System(a: Matrix, b: Matrix)
    | DividedByZero(a: Matrix, b: Matrix, weightDecay: real)

  /** The data and the numerics step relies on. For cycle iter: batches is the number of batches
      in one pass of the training data; shape(iter, b, i) the number of rows and of channels of
      layer i's current output on batch b; terms(iter, b, i, ch) the solver terms of that batch
      (of channel ch); solve the linear solver, None for a singular system; postFit(handle, x)
      the parameters; trainSum(iter) and valSum(iter) the sums of the average_loss training and
      test_iter validation batch losses reported when the counter is iter. */
  datatype Source = Source(
    batches: nat,
    shape: (int, nat, nat) -> (nat, nat),
    terms: (int, nat, nat, nat) -> Terms,
    solve: LinearSystem -> Option<Matrix>,
    postFit: (nat, Matrix) -> Fit,
    trainSum: int -> real,
    valSum: int -> real)

  // ----- aggregation -----

  /** The locals of the aggregation: Ns, As and Bs (paired per layer, one pair per channel or a
      single pair), post_fit_all, and the last post_fit assigned. */
  datatype Agg = Agg(ns: seq<int>, sums: map<nat, seq<(Acc, Acc)>>, postFits: map<nat, nat>, postFit: Option<nat>)

  function InitialAgg(layers: nat, postFit: Option<nat>): Agg
  {
    Agg(seq(layers, _ => 0), map[], map[], postFit)
  }

  predicate Shared(mode: string)
  {
    mode == "share" || mode == "full"
  }

  predicate KnownMode(mode: string)
  {
    Shared(mode) || mode == "channelwise"
  }

  const AggregatePrefix := "aggregating matrices for bilinear_type "
  const ExactSolvePrefix := "exact solve for bilinear_type "

  /** The rows a batch adds to Ns[i]: in share mode every channel of every row is a sample. */
  function BatchRows(mode: string, rows: nat, channels: nat): nat
  {
    if mode == "share" then rows * channels else rows
  }

  /** As[i] += A; Bs[i] += B. */
  function AddPair(p: (Acc, Acc), t: Terms): Result<(Acc, Acc)>
  {
    match AddTerm(p.0, t.a)
    case Err(e) => Err(e)
    case Ok(a) =>
      match AddTerm(p.1, t.b)
      case Err(e) => Err(e)
      case Ok(b) => Ok((a, b))
  }

  /** The channel loop of the channelwise mode over channels 0 .. k-1: the per-channel sums and
      the last post_fit. */
  function AddChannels(src: Source, iter: int, b: nat, i: nat, k: nat, sums: seq<(Acc, Acc)>, postFit: Option<nat>)
    : (r: Result<(seq<(Acc, Acc)>, Option<nat>)>)
    ensures r.Ok? ==> |r.value.0| == |sums|
  {
    if k == 0 then Ok((sums, postFit))
    else match AddChannels(src, iter, b, i, k - 1, sums, postFit)
      case Err(e) => Err(e)
      case Ok((s, _)) =>
        var t := src.terms(iter, b, i, k - 1);
        if k - 1 >= |s| then Err(IndexError)
        else match AddPair(s[k - 1], t)
          case Err(e) => Err(e)
          case Ok(p) => Ok((s[k - 1 := p], Some(t.postFit)))
  }

  /** The aggregation of layer i's terms on batch b. */
  function AggLayer(mode: string, src: Source, iter: int, b: nat, i: nat, st: Agg): (r: Result<Agg>)
    requires i < |st.ns|
    ensures r.Ok? ==> |r.value.ns| == |st.ns|
  {
    var (rows, c) := src.shape(iter, b, i);
    var ns := st.ns[i := st.ns[i] + BatchRows(mode, rows, c)];
    var summed: Result<(seq<(Acc, Acc)>, Option<nat>)> :=
      if Shared(mode) then
        var s := if i in st.sums then st.sums[i] else [(Zero, Zero)];
        var t := src.terms(iter, b, i, 0);
        if |s| == 0 then Err(IndexError)
        else match AddPair(s[0], t)
          case Err(e) => Err(e)
          case Ok(p) => Ok((s[0 := p], Some(t.postFit)))
      else if mode == "channelwise" then
        var s := if i in st.sums then st.sums[i] else seq(c, _ => (Zero, Zero));
        AddChannels(src, iter, b, i, c, s, st.postFit)
      else Err(NotImplementedError(AggregatePrefix + mode));
    match summed
    case Err(e) => Err(e)
    case Ok((s, postFit)) =>
      var st1 := Agg(ns, st.sums[i := s], st.postFits, postFit);
      if i in st.postFits then Ok(st1)
      else match postFit
        case None => Err(UnboundLocalError)
        case Some(h) => Ok(st1.(postFits := st.postFits[i := h]))
  }

  /** Layers 0 .. k-1 of batch b. */
  function AggLayers(mode: string, src: Source, iter: int, b: nat, k: nat, st: Agg): (r: Result<Agg>)
    requires k <= |st.ns|
    ensures r.Ok? ==> |r.value.ns| == |st.ns|
  {
    if k == 0 then Ok(st)
    else match AggLayers(mode, src, iter, b, k - 1, st)
      case Err(e) => Err(e)
      case Ok(st1) => AggLayer(mode, src, iter, b, k - 1, st1)
  }

  /** Batches 0 .. nb-1, every layer of each. */
  function AggBatches(mode: string, src: Source, iter: int, nb: nat, st: Agg): (r: Result<Agg>)
    ensures r.Ok? ==> |r.value.ns| == |st.ns|
  {
    if nb == 0 then Ok(st)
    else match AggBatches(mode, src, iter, nb - 1, st)
      case Err(e) => Err(e)
      case Ok(st1) => AggLayers(mode, src, iter, nb - 1, |st1.ns|, st1)
  }

  /** The aggregation of one cycle over the given number of layers. */
  function Aggregation(mode: string, src: Source, iter: int, layers: nat, postFit: Option<nat>): Result<Agg>
  {
    AggBatches(mode, src, iter, src.batches, InitialAgg(layers, postFit))
  }

  // ----- the regularised solve -----

  /** Entry (r, c) of numpy.diag([1.] * (k - 1) + [0.]): the identity without its last entry,
      so that the bias, the last unknown, is not regularised. */
  function BiasFreeIdentity(k: nat, r: nat, c: nat): real
  {
    if r == c && r + 1 < k then 1.0 else 0.0
  }

  function Halved(x: Matrix, n: int): Matrix
    requires n != 0
  {
    seq(|x|, r requires 0 <= r < |x| => seq(|x[r]|, c requires 0 <= c < |x[r]| => x[r][c] / (2.0 * n as real)))
  }

  /** A / (2N) + wd * diag([1.] * (len(A) - 1) + [0.]) and B / (2N). The in-place addition
      broadcasts the len(A) x len(A) diagonal into A, which works for a square A and for a
      single-row A (whose diagonal is the 1 x 1 zero matrix) and raises ValueError otherwise. */
  function Regularise(a: Matrix, b: Matrix, n: int, wd: real): Result<LinearSystem>
  {
    if !(Square(a) || |a| == 1) then Err(BroadcastError)
    else if n == 0 then Ok(DividedByZero(a, b, wd))
    else
      var h := Halved(a, n);
      Ok(System(seq(|a|, r requires 0 <= r < |a| => seq(|a[r]|, c requires 0 <= c < |a[r]| =>
                  h[r][c] + wd * BiasFreeIdentity(|a|, r, c))),
                Halved(b, n)))
  }

  /** The solve of one (A, B) pair, then post_fit. An accumulator still 0 cannot be measured
      with len, which raises TypeError. */
  function FitPair(p: (Acc, Acc), n: int, wd: real, h: nat, src: Source): Result<Fit>
  {
    if p.0.Zero? || p.1.Zero? then Err(TypeError)
    else match Regularise(p.0.m, p.1.m, n, wd)
      case Err(e) => Err(e)
      case Ok(sys) =>
        match src.solve(sys)
        case None => Err(LinAlgError)
        case Some(x) => Ok(src.postFit(h, x))
  }

  /** The solves of the first k channels, in order. */
  function FitChannels(chans: seq<(Acc, Acc)>, k: nat, n: int, wd: real, h: nat, src: Source): (r: Result<seq<Fit>>)
    requires k <= |chans|
    ensures r.Ok? ==> |r.value| == k
  {
    if k == 0 then Ok([])
    else match FitChannels(chans, k - 1, n, wd, h, src)
      case Err(e) => Err(e)
      case Ok(fs) =>
        match FitPair(chans[k - 1], n, wd, h, src)
        case Err(e) => Err(e)
        case Ok(f) => Ok(fs + [f])
  }

  /** The parameters of layer i: post_fit_all[i] is looked up first, then the mode decides. */
  function FitLayer(mode: string, agg: Agg, i: nat, wd: real, src: Source): Result<LayerParams>
  {
    if i !in agg.postFits then Err(KeyError)
    else if !KnownMode(mode) then Err(NotImplementedError(ExactSolvePrefix + mode))
    else if i !in agg.sums || i >= |agg.ns| then Err(KeyError)
    else
      var h := agg.postFits[i];
      var s := agg.sums[i];
      if Shared(mode) then
        if |s| == 0 then Err(IndexError)
        else match FitPair(s[0], agg.ns[i], wd, h, src)
          case Err(e) => Err(e)
          case Ok(f) => Ok(Whole(f))
      else match FitChannels(s, |s|, agg.ns[i], wd, h, src)
        case Err(e) => Err(e)
        case Ok(fs) => Ok(PerChannel(fs))
  }

  const MissingBiasError := ValueError("not enough values to unpack (expected 4, got 3)")

  /** get_params of a bilinear layer yields Q, R, S and, when it has one, b. */
  predicate HasBias(g: LayerGraph, layer: LayerId)
  {
    layer in g.bilinear && g.bilinear[layer]
  }

  /** The parameters of each accepted layer, by its position. */
  function LayerFits(mode: string, agg: Agg, wd: real, src: Source): nat -> Result<LayerParams>
  {
    (i: nat) => FitLayer(mode, agg, i, wd, src)
  }

  /** The solve loop over the first k accepted layers, given the parameters fits(i) of the i-th:
      the network's parameters, set layer by layer, and the error that stopped the loop. */
  function SolveLayers(fits: nat -> Result<LayerParams>, layers: seq<LayerId>, k: nat,
                       g: LayerGraph, params: map<LayerId, LayerParams>)
    : (map<LayerId, LayerParams>, Option<Error>)
    requires k <= |layers|
  {
    if k == 0 then (params, None)
    else
      var (ps, e) := SolveLayers(fits, layers, k - 1, g, params);
      if e.Some? then (ps, e)
      else match fits(k - 1)
        case Err(err) => (ps, Some(err))
        case Ok(fit) =>
          if HasBias(g, layers[k - 1]) then (ps[layers[k - 1] := fit], None) else (ps, Some(MissingBiasError))
  }

  // ----- the solver -----

  /** The constructor's settings other than output_names and iter_. */
  datatype Settings = Settings(
    trainDataFnames: seq<string>, valDataFname: Option<string>, dataNames: seq<string>,
    inputNames: seq<string>, lossBatchSize: int, aggregatingBatchSize: int, testIter: int,
    maxIter: int, weightDecay: real, snapshotPrefix: string, averageLoss: int)

  /** The constructor's arguments, which are also the dictionary get_config returns. A list
      argument left at None is given as []. */
  datatype Config = Config(settings: Settings, outputNames: seq<OutputEntry>, iter: int)

  /** The solver's state: its output pairs (reversed in place by the check), the counter and the
      snapshot log. */
  datatype Progress = Progress(outputNames: seq<OutputEntry>, iter: int, lastSnapshot: Option<int>, snapshots: seq<int>)

  const DefaultDataNames: seq<string> := ["image", "vel"]
  const DefaultInputNames: seq<string> := ["x", "u", "x_next"]

  /** The configuration the constructor stores: empty name lists replaced by their defaults. */
  function Coalesce(c: Config): Config
  {
    Config(c.settings.(dataNames := NetSolver.OrDefault(c.settings.dataNames, DefaultDataNames),
                       inputNames := NetSolver.OrDefault(c.settings.inputNames, DefaultInputNames)),
           NetSolver.OrDefault(c.outputNames, NetSolver.DefaultOutputNames),
           c.iter)
  }

  predicate Validating(s: Settings)
  {
    s.valDataFname.Some?
  }

  /** The state of step's while loop: the solver's pairs and counter, the network's parameters
      and step's local post_fit, which outlives each cycle. */
  datatype Loop = Loop(names: seq<OutputEntry>, iter: int, params: map<LayerId, LayerParams>, postFit: Option<nat>)

  function LayerIds(acc: seq<Accepted>): (ls: seq<LayerId>)
    ensures |ls| == |acc| && forall k :: 0 <= k < |acc| ==> ls[k] == acc[k].layer
  {
    seq(|acc|, k requires 0 <= k < |acc| => acc[k].layer)
  }

  /** One pass of step's while loop: the loss reports, the check of the pairs, the aggregation,
      the solves and the increment of the counter. An error leaves the mutations made before it. */
  function CycleSpec(s: Settings, g: LayerGraph, mode: string, src: Source, l: Loop): (Loop, Option<Error>)
  {
    if NetSolver.BatchMean(s.averageLoss, src.trainSum(l.iter)).Err? then (l, Some(ZeroDivisionError))
    else if Validating(s) && NetSolver.BatchMean(s.testIter, src.valSum(l.iter)).Err? then (l, Some(ZeroDivisionError))
    else
      var (names, pre) := Preflight(l.names, g);
      var l1 := l.(names := names);
      match pre
      case Err(e) => (l1, Some(e))
      case Ok(acc) =>
        var layers := LayerIds(acc);
        match Aggregation(mode, src, l.iter, |layers|, l.postFit)
        case Err(e) => (l1, Some(e))
        case Ok(agg) =>
          var (params, e) := SolveLayers(LayerFits(mode, agg, s.weightDecay, src), layers, |layers|, g, l.params);
          var l2 := l1.(params := params, postFit := agg.postFit);
          if e.Some? then (l2, e) else (l2.(iter := l.iter + 1), None)
  }

  /** n passes of a loop body, stopping at the first error. */
  function Repeat(pass: Loop -> (Loop, Option<Error>), l: Loop, n: nat): (Loop, Option<Error>)
  {
    if n == 0 then (l, None)
    else
      var (l1, e) := Repeat(pass, l, n - 1);
      if e.Some? then (l1, e) else pass(l1)
  }

  /** n passes of the loop of step. */
  function RunCycles(s: Settings, g: LayerGraph, mode: string, src: Source, l: Loop, n: nat): (Loop, Option<Error>)
  {
    Repeat(l' => CycleSpec(s, g, mode, src, l'), l, n)
  }

  /** The losses step reports after its loop. */
  function FinalLosses(s: Settings, src: Source, iter: int): Result<(real, Option<real>)>
  {
    match NetSolver.BatchMean(s.averageLoss, src.trainSum(iter))
    case Err(e) => Err(e)
    case Ok(train) =>
      if Validating(s) then
        match NetSolver.BatchMean(s.testIter, src.valSum(iter))
        case Err(e) => Err(e)
        case Ok(v) => Ok((train, Some(v)))
      else Ok((train, None))
  }

  /** The error compile_val_fn raises, if any: the lookup of the input layers by name, then
      get_output_vars on the current output pairs, against the network's named layers. */
  function CompileLookup(s: Settings, names: seq<OutputEntry>, g: LayerGraph): Option<Error>
  {
    CompileError(s.inputNames, names, g.predLayers.Keys)
  }

  /** step(iters): first the compilation of the validation function, whose error leaves
      everything unchanged, then TrainSpec; the solver's new state, the network's parameters
      and the result. */
  function StepSpec(s: Settings, g: LayerGraph, mode: string, src: Source, p: Progress,
                    params: map<LayerId, LayerParams>, iters: int, compiled: Option<Error>)
    : (Progress, map<LayerId, LayerParams>, Result<(real, Option<real>)>)
  {
    match compiled
    case Some(e) => (p, params, Err(e))
    case None => TrainSpec(s, g, mode, src, p, params, iters)
  }

  /** The part of step after compilation: max(iters, 0) passes from a loop whose post_fit is
      not yet assigned, then the losses. */
  function TrainSpec(s: Settings, g: LayerGraph, mode: string, src: Source, p: Progress,
                     params: map<LayerId, LayerParams>, iters: int)
    : (Progress, map<LayerId, LayerParams>, Result<(real, Option<real>)>)
  {
    var (l, e) := RunCycles(s, g, mode, src, Loop(p.outputNames, p.iter, params, None), if iters > 0 then iters else 0);
    var q := p.(outputNames := l.names, iter := l.iter);
    if e.Some? then (q, l.params, Err(e.value)) else (q, l.params, FinalLosses(s, src, l.iter))
  }

  function TakeSnapshot(p: Progress): Progress
  {
    p.(snapshots := p.snapshots + [p.iter], lastSnapshot := Some(p.iter))
  }

  /** What solve does after its step: the final snapshot, unless the step failed or the last
      snapshot was at the final counter. */
  function FinishSolve(t: (Progress, map<LayerId, LayerParams>, Result<(real, Option<real>)>))
    : (Progress, map<LayerId, LayerParams>, Result<(real, Option<real>)>)
  {
    var (q, ps, r) := t;
    if r.Err? then t
    else if q.lastSnapshot != Some(q.iter) then (TakeSnapshot(q), ps, r)
    else t
  }

  /** solve: step to max_iter, then the final snapshot. */
  function SolveSpec(s: Settings, g: LayerGraph, mode: string, src: Source, p: Progress, params: map<LayerId, LayerParams>,
                     compiled: Option<Error>)
    : (Progress, map<LayerId, LayerParams>, Result<(real, Option<real>)>)
  {
    FinishSolve(StepSpec(s, g, mode, src, p, params, s.maxIter - p.iter, compiled))
  }

  // ----- failures stop the loops -----

  lemma {:induction false} ChannelsErrorSticks(src: Source, iter: int, b: nat, i: nat, k: nat, m: nat,
                                               sums: seq<(Acc, Acc)>, postFit: Option<nat>)
    requires k <= m && AddChannels(src, iter, b, i, k, sums, postFit).Err?
    ensures AddChannels(src, iter, b, i, m, sums, postFit) == AddChannels(src, iter, b, i, k, sums, postFit)
    decreases m
  {
    if k < m {
      ChannelsErrorSticks(src, iter, b, i, k, m - 1, sums, postFit);
    }
  }

  lemma {:induction false} LayersErrorSticks(mode: string, src: Source, iter: int, b: nat, k: nat, m: nat, st: Agg)
    requires k <= m <= |st.ns| && AggLayers(mode, src, iter, b, k, st).Err?
    ensures AggLayers(mode, src, iter, b, m, st) == AggLayers(mode, src, iter, b, k, st)
    decreases m
  {
    if k < m {
      LayersErrorSticks(mode, src, iter, b, k, m - 1, st);
    }
  }

  lemma {:induction false} BatchesErrorSticks(mode: string, src: Source, iter: int, k: nat, m: nat, st: Agg)
    requires k <= m && AggBatches(mode, src, iter, k, st).Err?
    ensures AggBatches(mode, src, iter, m, st) == AggBatches(mode, src, iter, k, st)
    decreases m
  {
    if k < m {
      BatchesErrorSticks(mode, src, iter, k, m - 1, st);
    }
  }

  lemma {:induction false} FitChannelsErrorSticks(chans: seq<(Acc, Acc)>, k: nat, m: nat, n: int, wd: real, h: nat, src: Source)
    requires k <= m <= |chans| && FitChannels(chans, k, n, wd, h, src).Err?
    ensures FitChannels(chans, m, n, wd, h, src) == FitChannels(chans, k, n, wd, h, src)
    decreases m
  {
    if k < m {
      FitChannelsErrorSticks(chans, k, m - 1, n, wd, h, src);
    }
  }

  lemma {:induction false} SolveLayersErrorSticks(fits: nat -> Result<LayerParams>, layers: seq<LayerId>, k: nat, m: nat,
                                                  g: LayerGraph, params: map<LayerId, LayerParams>)
    requires k <= m <= |layers| && SolveLayers(fits, layers, k, g, params).1.Some?
    ensures SolveLayers(fits, layers, m, g, params) == SolveLayers(fits, layers, k, g, params)
    decreases m
  {
    if k < m {
      SolveLayersErrorSticks(fits, layers, k, m - 1, g, params);
    }
  }

  lemma {:induction false} RepeatErrorSticks(pass: Loop -> (Loop, Option<Error>), l: Loop, k: nat, m: nat)
    requires k <= m && Repeat(pass, l, k).1.Some?
    ensures Repeat(pass, l, m) == Repeat(pass, l, k)
    decreases m
  {
    if k < m {
      RepeatErrorSticks(pass, l, k, m - 1);
    }
  }

  lemma CyclesErrorSticks(s: Settings, g: LayerGraph, mode: string, src: Source, l: Loop, k: nat, m: nat)
    requires k <= m && RunCycles(s, g, mode, src, l, k).1.Some?
    ensures RunCycles(s, g, mode, src, l, m) == RunCycles(s, g, mode, src, l, k)
  {
    RepeatErrorSticks(l' => CycleSpec(s, g, mode, src, l'), l, k, m);
  }

  /** The check of the first k + 1 pairs, after the first k were accepted. */
  lemma PreflightNext(es: seq<OutputEntry>, g: LayerGraph, k: nat)
    requires k < |es| && Preflight(es[..k], g).1.Ok?
    ensures var (pre, res) := Preflight(es[..k], g);
      var (e, a) := CheckPair(es[k], g);
      Preflight(es[..k + 1], g) == (pre + [e], if a.Err? then Err(a.error) else Ok(res.value + [a.value]))
  {
    assert es[..k + 1][..k] == es[..k];
  }

  /** A rejected pair ends the check: the pairs after it are left as they are. */
  lemma {:induction false} PreflightErrorSticks(es: seq<OutputEntry>, g: LayerGraph, m: nat)
    requires m <= |es| && Preflight(es[..m], g).1.Err?
    ensures Preflight(es, g) == (Preflight(es[..m], g).0 + es[m..], Preflight(es[..m], g).1)
  {
    if m == |es| {
      assert es[..m] == es && es[m..] == [];
      assert Preflight(es, g).0 + [] == Preflight(es, g).0;
    } else {
      var init := es[..|es| - 1];
      assert init[..m] == es[..m];
      PreflightErrorSticks(init, g, m);
      var (pre, res) := Preflight(init, g);
      assert res.Err?;
      assert Preflight(es, g) == (pre + [es[|es| - 1]], res);
      var head := Preflight(es[..m], g).0;
      assert pre == head + init[m..];
      assert es[m..] == init[m..] + [es[|es| - 1]];
      assert pre + [es[|es| - 1]] == head + es[m..];
    }
  }

  /** One more pass after n passes without error. */
  lemma CycleNext(s: Settings, g: LayerGraph, mode: string, src: Source, l0: Loop, n: nat, l: Loop)
    requires RunCycles(s, g, mode, src, l0, n) == (l, None)
    ensures RunCycles(s, g, mode, src, l0, n + 1) == CycleSpec(s, g, mode, src, l)
    ensures CycleSpec(s, g, mode, src, l).1.None? ==> CycleSpec(s, g, mode, src, l).0.iter == l.iter + 1
  {
  }

  /** Replacing entry k of a sequence that agrees with names from k on. */
  lemma ReplaceAt(names: seq<OutputEntry>, before: seq<OutputEntry>, k: nat, e: OutputEntry)
    requires k < |names| && |before| == |names| && before[k..] == names[k..]
    ensures before[k := e][..k + 1] == before[..k] + [e]
    ensures before[k := e][k + 1..] == names[k + 1..]
    ensures before[k := e] == before[k := e][..k + 1] + names[k + 1..]
  {
    var after := before[k := e];
    assert after[k + 1..] == before[k + 1..] == before[k..][1..] == names[k + 1..];
    assert after == after[..k + 1] + after[k + 1..];
  }

  /** One pass of the reversing loop of the check: the pair at k is checked and replaced by the
      pair as it then stands. */
  lemma PreflightLoopStep(names: seq<OutputEntry>, g: LayerGraph, k: nat, before: seq<OutputEntry>, accepted: seq<Accepted>)
    requires k < |names| && |before| == |names| && before[k..] == names[k..]
    requires Preflight(names[..k], g) == (before[..k], Ok(accepted))
    ensures var (e, a) := CheckPair(before[k], g);
      var after := before[k := e];
      && after[k + 1..] == names[k + 1..]
      && (a.Ok? ==> Preflight(names[..k + 1], g) == (after[..k + 1], Ok(accepted + [a.value])))
      && (a.Err? ==> Preflight(names, g) == (after, Err(a.error)))
  {
    assert before[k] == before[k..][0] == names[k];
    var (e, a) := CheckPair(before[k], g);
    ReplaceAt(names, before, k, e);
    PreflightNext(names, g, k);
    if a.Err? {
      PreflightErrorSticks(names, g, k + 1);
    }
  }

  // ----- the network and the solver -----

  /** The parts of the network the solver uses: its layer graph, its bilinear_type, and the
      parameters of its bilinear layers, which the solver sets. */
  class BilinearNet {
    const graph: LayerGraph
    const bilinearType: string
    var params: map<LayerId, LayerParams>

    constructor (graph: LayerGraph, bilinearType: string, params: map<LayerId, LayerParams>)
      ensures this.graph == graph && this.bilinearType == bilinearType && this.params == params
    {
      this.graph := graph;
      this.bilinearType := bilinearType;
      this.params := params;
    }
  }

  /** The channel loop of the aggregation for one layer and batch. */
  method AccumulateChannels(src: Source, iter: int, b: nat, i: nat, c: nat, sums: seq<(Acc, Acc)>, postFit: Option<nat>)
    returns (r: Result<(seq<(Acc, Acc)>, Option<nat>)>)
    ensures r == AddChannels(src, iter, b, i, c, sums, postFit)
  {
    var s := sums;
    var last := postFit;
    for ch := 0 to c
      invariant AddChannels(src, iter, b, i, ch, sums, postFit) == Ok((s, last))
    {
      var t := src.terms(iter, b, i, ch);
      last := Some(t.postFit);
      if ch >= |s| {
        ChannelsErrorSticks(src, iter, b, i, ch + 1, c, sums, postFit);
        return Err(IndexError);
      }
      var p := AddPair(s[ch], t);
      if p.Err? {
        ChannelsErrorSticks(src, iter, b, i, ch + 1, c, sums, postFit);
        return Err(p.error);
      }
      s := s[ch := p.value];
    }
    return Ok((s, last));
  }

  /** The body of the aggregation loop for layer i on batch b. */
  method AggregateLayer(mode: string, src: Source, iter: int, b: nat, i: nat, st: Agg) returns (r: Result<Agg>)
    requires i < |st.ns|
    ensures r == AggLayer(mode, src, iter, b, i, st)
  {
    var (rows, c) := src.shape(iter, b, i);
    var ns := st.ns[i := st.ns[i] + BatchRows(mode, rows, c)];
    var sums := st.sums;
    var postFit := st.postFit;
    if Shared(mode) {
      var s := if i in sums then sums[i] else [(Zero, Zero)];
      var t := src.terms(iter, b, i, 0);
      postFit := Some(t.postFit);
      if |s| == 0 {
        return Err(IndexError);
      }
      var p := AddPair(s[0], t);
      if p.Err? {
        return Err(p.error);
      }
      sums := sums[i := s[0 := p.value]];
    } else if mode == "channelwise" {
      var s := if i in sums then sums[i] else seq(c, _ => (Zero, Zero));
      var acc := AccumulateChannels(src, iter, b, i, c, s, postFit);
      if acc.Err? {
        return Err(acc.error);
      }
      sums := sums[i := acc.value.0];
      postFit := acc.value.1;
    } else {
      return Err(NotImplementedError(AggregatePrefix + mode));
    }
    var postFits := st.postFits;
    if i !in postFits {
      if postFit.None? {
        return Err(UnboundLocalError);
      }
      postFits := postFits[i := postFit.value];
    }
    return Ok(Agg(ns, sums, postFits, postFit));
  }

  /** The aggregation loop: every layer of every batch of one pass over the training data. */
  method Aggregate(mode: string, src: Source, iter: int, layers: nat, postFit: Option<nat>) returns (r: Result<Agg>)
    ensures r == Aggregation(mode, src, iter, layers, postFit)
  {
    var st := InitialAgg(layers, postFit);
    ghost var init := st;
    for b := 0 to src.batches
      invariant |st.ns| == layers
      invariant AggBatches(mode, src, iter, b, init) == Ok(st)
    {
      ghost var start := st;
      for i := 0 to layers
        invariant |st.ns| == layers
        invariant AggLayers(mode, src, iter, b, i, start) == Ok(st)
      {
        var next := AggregateLayer(mode, src, iter, b, i, st);
        if next.Err? {
          LayersErrorSticks(mode, src, iter, b, i + 1, layers, start);
          BatchesErrorSticks(mode, src, iter, b + 1, src.batches, init);
          return next;
        }
        st := next.value;
      }
    }
    return Ok(st);
  }

  /** The channel loop of the solve for one layer. */
  method SolveChannels(chans: seq<(Acc, Acc)>, n: int, wd: real, h: nat, src: Source) returns (r: Result<seq<Fit>>)
    ensures r == FitChannels(chans, |chans|, n, wd, h, src)
  {
    var fits: seq<Fit> := [];
    for k := 0 to |chans|
      invariant FitChannels(chans, k, n, wd, h, src) == Ok(fits)
    {
      var f := FitPair(chans[k], n, wd, h, src);
      if f.Err? {
        FitChannelsErrorSticks(chans, k + 1, |chans|, n, wd, h, src);
        return Err(f.error);
      }
      fits := fits + [f.value];
    }
    return Ok(fits);
  }

  /** The solve of layer i. */
  method SolveLayer(mode: string, agg: Agg, i: nat, wd: real, src: Source) returns (r: Result<LayerParams>)
    ensures r == FitLayer(mode, agg, i, wd, src)
  {
    if i !in agg.postFits {
      return Err(KeyError);
    }
    if !KnownMode(mode) {
      return Err(NotImplementedError(ExactSolvePrefix + mode));
    }
    if i !in agg.sums || i >= |agg.ns| {
      return Err(KeyError);
    }
    var h := agg.postFits[i];
    var s := agg.sums[i];
    if Shared(mode) {
      if |s| == 0 {
        return Err(IndexError);
      }
      var f := FitPair(s[0], agg.ns[i], wd, h, src);
      if f.Err? {
        return Err(f.error);
      }
      return Ok(Whole(f.value));
    }
    var fs := SolveChannels(s, agg.ns[i], wd, h, src);
    if fs.Err? {
      return Err(fs.error);
    }
    return Ok(PerChannel(fs.value));
  }

  /** The solver, with its settings, its output pairs and its progress as fields. */
  class BilinearSolver {
    var settings: Settings
    var outputNames: seq<OutputEntry>
    var iter: int
    var lastSnapshotIter: Option<int>
    var snapshots: seq<int>

    function State(): Progress
      reads this
    {
      Progress(outputNames, iter, lastSnapshotIter, snapshots)
    }

    constructor (c: Config)
      ensures Config(settings, outputNames, iter) == Coalesce(c)
      ensures lastSnapshotIter == None && snapshots == []
    {
      var d := Coalesce(c);
      settings := d.settings;
      outputNames := d.outputNames;
      iter := d.iter;
      lastSnapshotIter := None;
      snapshots := [];
    }

    /** get_config: the constructor's arguments, with the current pairs and counter; a solver
        rebuilt from it gets exactly this configuration unless a name list is empty. */
    function GetConfig(): (c: Config)
      reads this
      ensures c.settings == settings && c.outputNames == outputNames && c.iter == iter
      ensures Coalesce(c) == c <==> settings.dataNames != [] && settings.inputNames != [] && outputNames != []
    {
      Config(settings, outputNames, iter)
    }

    /** get_snapshot_fname, inherited: the name identifies the counter. */
    function GetSnapshotFname(ext: string): (name: string)
      reads this
      ensures |settings.snapshotPrefix| + 6 + |ext| < |name|
      ensures name[..|settings.snapshotPrefix| + 6] == settings.snapshotPrefix + "_iter_"
      ensures name[|name| - |ext|..] == ext
      ensures forall j :: NetSolver.SnapshotFileName(settings.snapshotPrefix, j, ext) == name ==> j == iter
    {
      NetSolver.SnapshotFileNameNames(settings.snapshotPrefix, iter, ext);
      NetSolver.SnapshotFileName(settings.snapshotPrefix, iter, ext)
    }

    /** snapshot: writes the model and solver files of the current iteration (the loss plot
        needs loss_interval, which this solver does not have, and the resulting AttributeError
        is swallowed) and remembers the iteration. */
    method Snapshot()
      modifies this
      ensures settings == old(settings) && State() == TakeSnapshot(old(State()))
    {
      snapshots := snapshots + [iter];
      lastSnapshotIter := Some(iter);
    }

    /** The check of the output pairs, reversing accepted pairs in place. */
    method CheckOutputPairs(g: LayerGraph) returns (r: Result<seq<Accepted>>)
      modifies this
      ensures settings == old(settings) && iter == old(iter)
      ensures lastSnapshotIter == old(lastSnapshotIter) && snapshots == old(snapshots)
      ensures (outputNames, r) == Preflight(old(outputNames), g)
    {
      ghost var names := outputNames;
      var accepted: seq<Accepted> := [];
      for k := 0 to |outputNames|
        invariant settings == old(settings) && iter == old(iter)
        invariant lastSnapshotIter == old(lastSnapshotIter) && snapshots == old(snapshots)
        invariant |outputNames| == |names| && outputNames[k..] == names[k..]
        invariant Preflight(names[..k], g) == (outputNames[..k], Ok(accepted))
      {
        PreflightLoopStep(names, g, k, outputNames, accepted);
        var (e, a) := CheckPair(outputNames[k], g);
        outputNames := outputNames[k := e];
        if a.Err? {
          return Err(a.error);
        }
        accepted := accepted + [a.value];
      }
      assert names[..|names|] == names && outputNames[..|names|] == outputNames;
      return Ok(accepted);
    }

    /** The solve loop: each accepted layer's parameters, set on the network. */
    method SolveSystems(net: BilinearNet, src: Source, agg: Agg, layers: seq<LayerId>) returns (e: Option<Error>)
      modifies net
      ensures (net.params, e) == SolveLayers(LayerFits(net.bilinearType, agg, settings.weightDecay, src), layers, |layers|, net.graph, old(net.params))
    {
      for k := 0 to |layers|
        invariant SolveLayers(LayerFits(net.bilinearType, agg, settings.weightDecay, src), layers, k, net.graph, old(net.params)) == (net.params, None)
      {
        var fit := SolveLayer(net.bilinearType, agg, k, settings.weightDecay, src);
        if fit.Err? {
          SolveLayersErrorSticks(LayerFits(net.bilinearType, agg, settings.weightDecay, src), layers, k + 1, |layers|, net.graph, old(net.params));
          return Some(fit.error);
        }
        if !HasBias(net.graph, layers[k]) {
          SolveLayersErrorSticks(LayerFits(net.bilinearType, agg, settings.weightDecay, src), layers, k + 1, |layers|, net.graph, old(net.params));
          return Some(MissingBiasError);
        }
        net.params := net.params[layers[k] := fit.value];
      }
      return None;
    }

    /** One pass of step's while loop. */
    method Cycle(net: BilinearNet, src: Source, postFit: Option<nat>) returns (e: Option<Error>, postFitNext: Option<nat>)
      modifies this, net
      ensures settings == old(settings) && lastSnapshotIter == old(lastSnapshotIter) && snapshots == old(snapshots)
      ensures (Loop(outputNames, iter, net.params, postFitNext), e)
        == CycleSpec(old(settings), net.graph, net.bilinearType, src, Loop(old(outputNames), old(iter), old(net.params), postFit))
    {
      postFitNext := postFit;
      var train := NetSolver.BatchMean(settings.averageLoss, src.trainSum(iter));
      if train.Err? {
        return Some(train.error), postFit;
      }
      if Validating(settings) {
        var v := NetSolver.BatchMean(settings.testIter, src.valSum(iter));
        if v.Err? {
          return Some(v.error), postFit;
        }
      }
      var pre := CheckOutputPairs(net.graph);
      if pre.Err? {
        return Some(pre.error), postFit;
      }
      var layers := LayerIds(pre.value);
      var agg := Aggregate(net.bilinearType, src, iter, |layers|, postFit);
      if agg.Err? {
        return Some(agg.error), postFit;
      }
      e := SolveSystems(net, src, agg.value, layers);
      postFitNext := agg.value.postFit;
      if e.Some? {
        return;
      }
      iter := iter + 1;
    }

    /** The while loop of step: passes until the counter has advanced by iters or a pass fails. */
    method RunPasses(iters: int, net: BilinearNet, src: Source) returns (e: Option<Error>, postFit: Option<nat>)
      modifies this, net
      ensures settings == old(settings) && lastSnapshotIter == old(lastSnapshotIter) && snapshots == old(snapshots)
      ensures (Loop(outputNames, iter, net.params, postFit), e)
        == RunCycles(settings, net.graph, net.bilinearType, src,
                     Loop(old(outputNames), old(iter), old(net.params), None), if iters > 0 then iters else 0)
    {
      ghost var l0 := Loop(outputNames, iter, net.params, None);
      ghost var n: nat := if iters > 0 then iters else 0;
      ghost var k: nat := 0;
      ghost var iter0 := iter;
      postFit := None;
      var stopIter := iter + iters;
      while iter < stopIter
        invariant settings == old(settings)
        invariant lastSnapshotIter == old(lastSnapshotIter) && snapshots == old(snapshots)
        invariant k <= n && iter == iter0 + k
        invariant RunCycles(settings, net.graph, net.bilinearType, src, l0, k) == (Loop(outputNames, iter, net.params, postFit), None)
        decreases stopIter - iter
      {
        CycleNext(settings, net.graph, net.bilinearType, src, l0, k, Loop(outputNames, iter, net.params, postFit));
        e, postFit := Cycle(net, src, postFit);
        k := k + 1;
        if e.Some? {
          CyclesErrorSticks(settings, net.graph, net.bilinearType, src, l0, k, n);
          return;
        }
      }
      assert k == n;
      e := None;
    }

    /** step(iters): compiles the validation function, then the passes from iter_ up to
        iter_ + iters and the losses. */
    method Step(iters: int, net: BilinearNet, src: Source) returns (r: Result<(real, Option<real>)>)
      modifies this, net
      ensures settings == old(settings)
      ensures (State(), net.params, r)
        == StepSpec(old(settings), net.graph, net.bilinearType, src, old(State()), old(net.params), iters,
                    CompileLookup(old(settings), old(outputNames), net.graph))
    {
      var compileError := CompileLookup(settings, outputNames, net.graph);
      if compileError.Some? {
        return Err(compileError.value);
      }
      r := Train(iters, net, src);
    }

    /** The part of step after the validation function is compiled. */
    method Train(iters: int, net: BilinearNet, src: Source) returns (r: Result<(real, Option<real>)>)
      modifies this, net
      ensures settings == old(settings)
      ensures (State(), net.params, r)
        == TrainSpec(old(settings), net.graph, net.bilinearType, src, old(State()), old(net.params), iters)
    {
      var e, postFit := RunPasses(iters, net, src);
      if e.Some? {
        r := Err(e.value);
      } else {
        r := FinalLosses(settings, src, iter);
      }
    }

    /** solve: step to max_iter, then the final snapshot unless it was just taken; the result
        is SolveSpec, written out as its definition. */
    method Solve(net: BilinearNet, src: Source) returns (r: Result<(real, Option<real>)>)
      modifies this, net
      ensures settings == old(settings)
      ensures (State(), net.params, r)
        == FinishSolve(StepSpec(old(settings), net.graph, net.bilinearType, src, old(State()), old(net.params),
                                old(settings.maxIter - iter), CompileLookup(old(settings), old(outputNames), net.graph)))
    {
      r := Step(settings.maxIter - iter, net, src);
      if r.Err? {
        return;
      }
      if lastSnapshotIter != Some(iter) {
        Snapshot();
      }
    }
  }
}
