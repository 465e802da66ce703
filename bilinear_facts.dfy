/** Properties of the bilinear solver's step and solve: the counter, the output pairs, the
    snapshot log, the configuration, the aggregation sums and counts, the regularised systems
    and the errors a cycle can raise. */
module BilinearFacts {
  import opened Errors
  import opened OutputNames
  import opened BilinearPreflight
  import opened BilinearSolving
  import NetSolver
  import Decimal

  // ----- passes of the loop -----

  lemma RunCyclesUnfold(s: Settings, g: LayerGraph, mode: string, src: Source, l: Loop, n: nat)
    requires n > 0
    ensures var prev := RunCycles(s, g, mode, src, l, n - 1);
      RunCycles(s, g, mode, src, l, n) == if prev.1.Some? then prev else CycleSpec(s, g, mode, src, prev.0)
  {
  }

  /** A pass that completes advances the counter by one; a failing pass leaves it as it was. */
  lemma CycleCounter(s: Settings, g: LayerGraph, mode: string, src: Source, l: Loop)
    ensures var (l1, e) := CycleSpec(s, g, mode, src, l);
      && (e.None? ==> l1.iter == l.iter + 1)
      && (e.Some? ==> l1.iter == l.iter)
  {
  }

  predicate CounterAfter(l: Loop, r: (Loop, Option<Error>), n: nat)
  {
    && l.iter <= r.0.iter <= l.iter + n
    && (r.1.None? ==> r.0.iter == l.iter + n)
  }

  /** n passes advance the counter by n, or by fewer when one of them fails. */
  lemma {:induction false} RunCyclesCounter(s: Settings, g: LayerGraph, mode: string, src: Source, l: Loop, n: nat)
    ensures CounterAfter(l, RunCycles(s, g, mode, src, l, n), n)
  {
    if n > 0 {
      RunCyclesCounter(s, g, mode, src, l, n - 1);
      RunCyclesUnfold(s, g, mode, src, l, n);
      CycleCounter(s, g, mode, src, RunCycles(s, g, mode, src, l, n - 1).0);
    }
  }

  /** step(iters) runs iters passes, none for iters <= 0: a successful step advances the counter
      by exactly that many, and no step takes a snapshot; a failed compilation changes nothing. */
  lemma StepCounter(s: Settings, g: LayerGraph, mode: string, src: Source, p: Progress,
                    params: map<LayerId, LayerParams>, iters: int, compiled: Option<Error>)
    ensures compiled.Some? ==> StepSpec(s, g, mode, src, p, params, iters, compiled) == (p, params, Err(compiled.value))
    ensures var (q, _, r) := StepSpec(s, g, mode, src, p, params, iters, compiled);
      var n := if iters > 0 then iters else 0;
      && p.iter <= q.iter <= p.iter + n
      && (r.Ok? ==> q.iter == p.iter + n)
      && q.snapshots == p.snapshots && q.lastSnapshot == p.lastSnapshot
  {
    RunCyclesCounter(s, g, mode, src, Loop(p.outputNames, p.iter, params, None), if iters > 0 then iters else 0);
  }

  /** A pass that completes has accepted every pair and leaves the pairs as the check left them. */
  lemma CycleNames(s: Settings, g: LayerGraph, mode: string, src: Source, l: Loop)
    ensures CycleSpec(s, g, mode, src, l).1.None? ==>
      && Preflight(l.names, g).1.Ok?
      && CycleSpec(s, g, mode, src, l).0.names == Preflight(l.names, g).0
  {
  }

  /** After any number of completed passes the pairs are as the first check left them: the
      in-place reversal happens in the first pass only. */
  lemma {:induction false} RunCyclesNames(s: Settings, g: LayerGraph, mode: string, src: Source, l: Loop, n: nat)
    requires n > 0 && RunCycles(s, g, mode, src, l, n).1.None?
    ensures Preflight(l.names, g).1.Ok?
    ensures RunCycles(s, g, mode, src, l, n).0.names == Preflight(l.names, g).0
  {
    RunCyclesUnfold(s, g, mode, src, l, n);
    var prev := RunCycles(s, g, mode, src, l, n - 1);
    CycleNames(s, g, mode, src, prev.0);
    if n > 1 {
      RunCyclesNames(s, g, mode, src, l, n - 1);
      PreflightIdempotent(l.names, g);
    }
  }

  // ----- the snapshot log -----

  /** solve keeps the snapshot log of the solver. A successful solve ends at max_iter (or at the
      counter, if that was already beyond it) with that iteration snapshotted, and it adds at most
      that one snapshot; a failing solve takes none. */
  lemma SolveSnapshots(s: Settings, g: LayerGraph, mode: string, src: Source, p: Progress, params: map<LayerId, LayerParams>,
                       compiled: Option<Error>)
    requires NetSolver.LogInvariant(p.snapshots, p.iter, p.lastSnapshot)
    ensures var (q, _, r) := SolveSpec(s, g, mode, src, p, params, compiled);
      && NetSolver.LogInvariant(q.snapshots, q.iter, q.lastSnapshot)
      && |p.snapshots| <= |q.snapshots| <= |p.snapshots| + 1
      && q.snapshots[..|p.snapshots|] == p.snapshots
      && (r.Err? ==> q.snapshots == p.snapshots && q.lastSnapshot == p.lastSnapshot)
      && (r.Ok? ==> q.lastSnapshot == Some(q.iter) && q.iter == (if s.maxIter > p.iter then s.maxIter else p.iter))
  {
    StepCounter(s, g, mode, src, p, params, s.maxIter - p.iter, compiled);
    FinishSolveLog(p, StepSpec(s, g, mode, src, p, params, s.maxIter - p.iter, compiled));
  }

  /** The log after a step that took no snapshot, and after the final snapshot of solve. */
  lemma FinishSolveLog(p: Progress, t: (Progress, map<LayerId, LayerParams>, Result<(real, Option<real>)>))
    requires NetSolver.LogInvariant(p.snapshots, p.iter, p.lastSnapshot)
    requires p.iter <= t.0.iter && t.0.snapshots == p.snapshots && t.0.lastSnapshot == p.lastSnapshot
    ensures NetSolver.LogInvariant(FinishSolve(t).0.snapshots, FinishSolve(t).0.iter, FinishSolve(t).0.lastSnapshot)
    ensures |p.snapshots| <= |FinishSolve(t).0.snapshots| <= |p.snapshots| + 1
    ensures FinishSolve(t).0.snapshots[..|p.snapshots|] == p.snapshots
    ensures FinishSolve(t).0.iter == t.0.iter && FinishSolve(t).2 == t.2
    ensures t.2.Err? ==> FinishSolve(t).0 == t.0
    ensures t.2.Ok? ==> FinishSolve(t).0.lastSnapshot == Some(t.0.iter)
  {
    SnapshotAtEnd(p, t.0);
  }

  lemma SnapshotAtEnd(p: Progress, q: Progress)
    requires NetSolver.LogInvariant(p.snapshots, p.iter, p.lastSnapshot)
    requires p.iter <= q.iter && q.snapshots == p.snapshots && q.lastSnapshot == p.lastSnapshot
    ensures NetSolver.LogInvariant(q.snapshots, q.iter, q.lastSnapshot)
    ensures var f := if q.lastSnapshot != Some(q.iter) then TakeSnapshot(q) else q;
      && NetSolver.LogInvariant(f.snapshots, f.iter, f.lastSnapshot)
      && |p.snapshots| <= |f.snapshots| <= |p.snapshots| + 1
      && f.snapshots[..|p.snapshots|] == p.snapshots
      && f.lastSnapshot == Some(f.iter) && f.iter == q.iter
  {
    NetSolver.ExtendLog(p.snapshots, p.iter, p.lastSnapshot, [], q.iter);
    assert p.snapshots + [] == p.snapshots;
    if q.lastSnapshot != Some(q.iter) {
      NetSolver.AppendToLog(q.snapshots, q.iter, q.lastSnapshot);
    }
  }

  // ----- the configuration -----

  /** The constructor's defaults are applied once: a solver rebuilt from get_config has the same
      configuration, and the constructor changes a configuration exactly when one of its name
      lists is empty. */
  lemma ConfigRoundTrip(c: Config)
    ensures Coalesce(Coalesce(c)) == Coalesce(c)
    ensures Coalesce(c).settings.dataNames != [] && Coalesce(c).settings.inputNames != [] && Coalesce(c).outputNames != []
    ensures Coalesce(c) == c <==> c.settings.dataNames != [] && c.settings.inputNames != [] && c.outputNames != []
  {
  }

  /** The default output pair ('x_next_pred', 'x_next') is a tuple of two plain names: neither
      unpacking fits, and formatting the two-element tuple into the message raises TypeError. */
  lemma DefaultPairRejected(g: LayerGraph)
    ensures Preflight(NetSolver.DefaultOutputNames, g) == (NetSolver.DefaultOutputNames, Err(TypeError))
  {
    var e := NetSolver.DefaultOutputNames[0];
    assert !UnpacksInTwo(e.items[1]) && !UnpacksInTwo(e.items[0]);
    assert Unpack(e) == None;
    assert PairError(e) == TypeError;
    assert CheckPair(e, g) == (e, Err(TypeError));
    var es := NetSolver.DefaultOutputNames;
    assert es == [e] && es[..0] == [];
    assert Preflight(es[..0], g) == ([], Ok([]));
    assert Preflight(es, g) == ([] + [e], Err(TypeError));
    assert [] + [e] == es;
    assert Preflight(es, g).0 == es && Preflight(es, g).1 == Err(TypeError);
  }

  /** A solver left with the default output pair fails in the first pass of step, with
      ZeroDivisionError from a zero loss batch count or else with TypeError. */
  lemma DefaultPairFails(s: Settings, g: LayerGraph, mode: string, src: Source, l: Loop)
    requires l.names == NetSolver.DefaultOutputNames
    ensures CycleSpec(s, g, mode, src, l).1 in {Some(ZeroDivisionError), Some(TypeError)}
  {
    DefaultPairRejected(g);
  }

  // ----- aggregation: the counts Ns -----

  /** What batch b adds to Ns[j]: its rows, times its channels in share mode. */
  function LayerRows(mode: string, src: Source, iter: int, b: nat, j: nat): nat
  {
    BatchRows(mode, src.shape(iter, b, j).0, src.shape(iter, b, j).1)
  }

  /** The samples of layer j in the first nb batches. */
  function Rows(mode: string, src: Source, iter: int, j: nat, nb: nat): int
  {
    if nb == 0 then 0 else Rows(mode, src, iter, j, nb - 1) + LayerRows(mode, src, iter, nb - 1, j)
  }

  lemma AggLayerCounts(mode: string, src: Source, iter: int, b: nat, i: nat, st: Agg)
    requires i < |st.ns| && AggLayer(mode, src, iter, b, i, st).Ok?
    ensures var r := AggLayer(mode, src, iter, b, i, st).value;
      forall j :: 0 <= j < |st.ns| ==> r.ns[j] == st.ns[j] + (if j == i then LayerRows(mode, src, iter, b, i) else 0)
  {
  }

  lemma {:induction false} AggLayersCounts(mode: string, src: Source, iter: int, b: nat, k: nat, st: Agg)
    requires k <= |st.ns| && AggLayers(mode, src, iter, b, k, st).Ok?
    ensures var r := AggLayers(mode, src, iter, b, k, st).value;
      forall j :: 0 <= j < |st.ns| ==> r.ns[j] == st.ns[j] + (if j < k then LayerRows(mode, src, iter, b, j) else 0)
  {
    if k > 0 {
      AggLayersCounts(mode, src, iter, b, k - 1, st);
      AggLayerCounts(mode, src, iter, b, k - 1, AggLayers(mode, src, iter, b, k - 1, st).value);
    }
  }

  lemma {:induction false} AggBatchesCounts(mode: string, src: Source, iter: int, nb: nat, st: Agg)
    requires AggBatches(mode, src, iter, nb, st).Ok?
    ensures var r := AggBatches(mode, src, iter, nb, st).value;
      forall j :: 0 <= j < |st.ns| ==> r.ns[j] == st.ns[j] + Rows(mode, src, iter, j, nb)
  {
    if nb > 0 {
      AggBatchesCounts(mode, src, iter, nb - 1, st);
      var st1 := AggBatches(mode, src, iter, nb - 1, st).value;
      AggLayersCounts(mode, src, iter, nb - 1, |st1.ns|, st1);
    }
  }

  /** A successful aggregation counts, for every accepted layer, the samples of all batches of
      the pass: Ns[i] is the sum over batches of the rows, times the channels in share mode. */
  lemma AggregationCounts(mode: string, src: Source, iter: int, layers: nat, postFit: Option<nat>)
    requires Aggregation(mode, src, iter, layers, postFit).Ok?
    ensures var r := Aggregation(mode, src, iter, layers, postFit).value;
      && |r.ns| == layers
      && forall j :: 0 <= j < layers ==> r.ns[j] == Rows(mode, src, iter, j, src.batches)
  {
    AggBatchesCounts(mode, src, iter, src.batches, InitialAgg(layers, postFit));
  }

  // ----- aggregation: the accumulators and post_fit_all -----

  /** The channel of the terms whose post_fit a layer's aggregation leaves behind: the only one
      in share and full modes, the last in channelwise mode. */
  function LastChannel(mode: string, src: Source, iter: int, b: nat, j: nat): int
  {
    if Shared(mode) then 0 else src.shape(iter, b, j).1 - 1
  }

  lemma AggLayerKeys(mode: string, src: Source, iter: int, b: nat, i: nat, st: Agg)
    requires i < |st.ns| && AggLayer(mode, src, iter, b, i, st).Ok?
    ensures KnownMode(mode)
    ensures var r := AggLayer(mode, src, iter, b, i, st).value;
      && (forall j :: j in r.sums <==> j in st.sums || j == i)
      && (forall j :: j in st.sums && j != i ==> r.sums[j] == st.sums[j])
      && (forall j :: j in r.postFits <==> j in st.postFits || j == i)
      && (forall j :: j in st.postFits ==> r.postFits[j] == st.postFits[j])
      && (i !in st.postFits && LastChannel(mode, src, iter, b, i) >= 0 ==>
            r.postFits[i] == src.terms(iter, b, i, LastChannel(mode, src, iter, b, i)).postFit)
  {
    if mode == "channelwise" && i !in st.postFits && LastChannel(mode, src, iter, b, i) >= 0 {
      var c := src.shape(iter, b, i).1;
      var s := if i in st.sums then st.sums[i] else seq(c, _ => (Zero, Zero));
      ChannelsEffect(src, iter, b, i, c, s, st.postFit);
    }
  }

  /** The channel loop adds each channel's terms to that channel's pair, leaves the others, and
      ends with the post_fit of the last channel. */
  lemma {:induction false} ChannelsEffect(src: Source, iter: int, b: nat, i: nat, k: nat, s: seq<(Acc, Acc)>, postFit: Option<nat>)
    requires AddChannels(src, iter, b, i, k, s, postFit).Ok?
    ensures k <= |s|
    ensures var (s', last) := AddChannels(src, iter, b, i, k, s, postFit).value;
      && |s'| == |s|
      && (forall ch :: 0 <= ch < k ==> AddPair(s[ch], src.terms(iter, b, i, ch)) == Ok(s'[ch]))
      && (forall ch :: k <= ch < |s| ==> s'[ch] == s[ch])
      && last == (if k == 0 then postFit else Some(src.terms(iter, b, i, k - 1).postFit))
  {
    if k > 0 {
      ChannelsEffect(src, iter, b, i, k - 1, s, postFit);
    }
  }

  /** The accumulator keys and post_fit_all after layers 0 .. k-1 of batch b. */
  ghost predicate KeysAfter(mode: string, src: Source, iter: int, b: nat, k: nat, st: Agg, r: Agg)
  {
    && (forall j :: j in r.sums <==> j in st.sums || 0 <= j < k)
    && (forall j :: j in r.postFits <==> j in st.postFits || 0 <= j < k)
    && (forall j :: j in st.postFits ==> r.postFits[j] == st.postFits[j])
    && (forall j :: 0 <= j < k && j !in st.postFits && LastChannel(mode, src, iter, b, j) >= 0 ==>
          r.postFits[j] == src.terms(iter, b, j, LastChannel(mode, src, iter, b, j)).postFit)
  }

  lemma KeysAfterStep(mode: string, src: Source, iter: int, b: nat, i: nat, st0: Agg, st: Agg)
    requires i < |st.ns| && AggLayer(mode, src, iter, b, i, st).Ok?
    requires KeysAfter(mode, src, iter, b, i, st0, st)
    ensures KnownMode(mode)
    ensures KeysAfter(mode, src, iter, b, i + 1, st0, AggLayer(mode, src, iter, b, i, st).value)
  {
    AggLayerKeys(mode, src, iter, b, i, st);
  }

  lemma {:induction false} AggLayersKeys(mode: string, src: Source, iter: int, b: nat, k: nat, st: Agg)
    requires k <= |st.ns| && AggLayers(mode, src, iter, b, k, st).Ok?
    ensures k > 0 ==> KnownMode(mode)
    ensures KeysAfter(mode, src, iter, b, k, st, AggLayers(mode, src, iter, b, k, st).value)
  {
    if k > 0 {
      AggLayersKeys(mode, src, iter, b, k - 1, st);
      var st1 := AggLayers(mode, src, iter, b, k - 1, st).value;
      assert AggLayers(mode, src, iter, b, k, st) == AggLayer(mode, src, iter, b, k - 1, st1);
      KeysAfterStep(mode, src, iter, b, k - 1, st, st1);
    }
  }

  /** The accumulator keys and post_fit_all after the first nb batches, from an empty start. */
  ghost predicate KeysAfterBatches(mode: string, src: Source, iter: int, nb: nat, layers: nat, r: Agg)
  {
    && (forall j :: j in r.sums <==> 0 <= j < layers && nb > 0)
    && (forall j :: j in r.postFits <==> 0 <= j < layers && nb > 0)
    && (forall j :: 0 <= j < layers && nb > 0 && LastChannel(mode, src, iter, 0, j) >= 0 ==>
          r.postFits[j] == src.terms(iter, 0, j, LastChannel(mode, src, iter, 0, j)).postFit)
  }

  lemma {:induction false} AggBatchesKeys(mode: string, src: Source, iter: int, nb: nat, layers: nat, postFit: Option<nat>)
    requires AggBatches(mode, src, iter, nb, InitialAgg(layers, postFit)).Ok?
    ensures nb > 0 && layers > 0 ==> KnownMode(mode)
    ensures KeysAfterBatches(mode, src, iter, nb, layers, AggBatches(mode, src, iter, nb, InitialAgg(layers, postFit)).value)
  {
    if nb > 0 {
      var init := InitialAgg(layers, postFit);
      AggBatchesKeys(mode, src, iter, nb - 1, layers, postFit);
      var st1 := AggBatches(mode, src, iter, nb - 1, init).value;
      assert AggBatches(mode, src, iter, nb, init) == AggLayers(mode, src, iter, nb - 1, |st1.ns|, st1);
      AggBatchesCounts(mode, src, iter, nb - 1, init);
      AggLayersKeys(mode, src, iter, nb - 1, |st1.ns|, st1);
    }
  }

  /** After a successful aggregation every accepted layer has its accumulators and its entry in
      post_fit_all exactly when the pass had a batch, and the entry is the post_fit of the first
      batch's terms (of its last channel, in channelwise mode); later batches do not replace it.
      Only a known bilinear_type aggregates anything. */
  lemma AggregationKeys(mode: string, src: Source, iter: int, layers: nat, postFit: Option<nat>)
    requires Aggregation(mode, src, iter, layers, postFit).Ok?
    ensures src.batches > 0 && layers > 0 ==> KnownMode(mode)
    ensures KeysAfterBatches(mode, src, iter, src.batches, layers, Aggregation(mode, src, iter, layers, postFit).value)
  {
    AggBatchesKeys(mode, src, iter, src.batches, layers, postFit);
  }

  // ----- aggregation: the sums As and Bs -----

  /** The A terms of layer j's channel ch on the first nb batches, in batch order. */
  function ATerms(src: Source, iter: int, j: nat, ch: nat, nb: nat): seq<Matrix>
  {
    if nb == 0 then [] else ATerms(src, iter, j, ch, nb - 1) + [src.terms(iter, nb - 1, j, ch).a]
  }

  function BTerms(src: Source, iter: int, j: nat, ch: nat, nb: nat): seq<Matrix>
  {
    if nb == 0 then [] else BTerms(src, iter, j, ch, nb - 1) + [src.terms(iter, nb - 1, j, ch).b]
  }

  /** The pair p holds the sums of channel ch's A and B terms over the first nb batches. */
  predicate Summed(src: Source, iter: int, j: nat, ch: nat, nb: nat, p: (Acc, Acc))
  {
    Accumulate(ATerms(src, iter, j, ch, nb)) == Ok(p.0) && Accumulate(BTerms(src, iter, j, ch, nb)) == Ok(p.1)
  }

  lemma AccumulateSnoc(ms: seq<Matrix>, m: Matrix)
    ensures Accumulate(ms + [m]) == match Accumulate(ms) case Err(e) => Err(e) case Ok(acc) => AddTerm(acc, m)
  {
    assert (ms + [m])[..|ms|] == ms;
  }

  /** Adding batch nb's terms to the sums of the batches before it gives the sums of the
      batches up to nb. */
  lemma SummedStep(src: Source, iter: int, j: nat, ch: nat, nb: nat, p: (Acc, Acc), p': (Acc, Acc))
    requires Summed(src, iter, j, ch, nb, p)
    requires AddPair(p, src.terms(iter, nb, j, ch)) == Ok(p')
    ensures Summed(src, iter, j, ch, nb + 1, p')
  {
    var t := src.terms(iter, nb, j, ch);
    AccumulateSnoc(ATerms(src, iter, j, ch, nb), t.a);
    AccumulateSnoc(BTerms(src, iter, j, ch, nb), t.b);
  }

  function SumsOr(sums: map<nat, seq<(Acc, Acc)>>, j: nat, default: seq<(Acc, Acc)>): seq<(Acc, Acc)>
  {
    if j in sums then sums[j] else default
  }

  /** Layer j's accumulators (or the ones the aggregation starts it with) after nb batches: in
      share and full modes a single pair with the sums of all A and B terms; in channelwise mode
      one pair per channel, each with the sums of its channel's terms. */
  predicate LayerSummed(mode: string, src: Source, iter: int, sums: map<nat, seq<(Acc, Acc)>>, j: nat, nb: nat)
  {
    if Shared(mode) then
      var s := SumsOr(sums, j, [(Zero, Zero)]);
      |s| == 1 && Summed(src, iter, j, 0, nb, s[0])
    else
      var c := src.shape(iter, 0, j).1;
      var s := SumsOr(sums, j, seq(c, _ => (Zero, Zero)));
      |s| == c && forall ch :: 0 <= ch < c ==> Summed(src, iter, j, ch, nb, s[ch])
  }

  /** Layers lo .. hi-1 have their sums over the first nb batches. */
  predicate AllSummed(mode: string, src: Source, iter: int, sums: map<nat, seq<(Acc, Acc)>>, lo: nat, hi: nat, nb: nat)
  {
    forall j :: lo <= j < hi ==> LayerSummed(mode, src, iter, sums, j, nb)
  }

  /** Every layer has the same number of channels on each of the first nb batches. */
  predicate UniformChannels(src: Source, iter: int, nb: nat, layers: nat)
  {
    forall b, j :: 0 <= b < nb && 0 <= j < layers ==> src.shape(iter, b, j).1 == src.shape(iter, 0, j).1
  }

  lemma AggLayerSums(mode: string, src: Source, iter: int, b: nat, i: nat, st: Agg)
    requires i < |st.ns| && AggLayer(mode, src, iter, b, i, st).Ok?
    requires mode == "channelwise" ==> src.shape(iter, b, i).1 == src.shape(iter, 0, i).1
    requires LayerSummed(mode, src, iter, st.sums, i, b)
    ensures LayerSummed(mode, src, iter, AggLayer(mode, src, iter, b, i, st).value.sums, i, b + 1)
  {
    var r := AggLayer(mode, src, iter, b, i, st).value;
    AggLayerKeys(mode, src, iter, b, i, st);
    if Shared(mode) {
      var s := SumsOr(st.sums, i, [(Zero, Zero)]);
      SummedStep(src, iter, i, 0, b, s[0], r.sums[i][0]);
    } else {
      var c := src.shape(iter, b, i).1;
      var s := SumsOr(st.sums, i, seq(c, _ => (Zero, Zero)));
      ChannelsEffect(src, iter, b, i, c, s, st.postFit);
      forall ch | 0 <= ch < c ensures Summed(src, iter, i, ch, b + 1, r.sums[i][ch]) {
        SummedStep(src, iter, i, ch, b, s[ch], r.sums[i][ch]);
      }
    }
  }

  /** Layer j's sums are a matter of its own accumulators only. */
  lemma LayerSummedFrame(mode: string, src: Source, iter: int, sums: map<nat, seq<(Acc, Acc)>>,
                         sums': map<nat, seq<(Acc, Acc)>>, j: nat, nb: nat)
    requires (j in sums <==> j in sums') && (j in sums ==> sums[j] == sums'[j])
    ensures LayerSummed(mode, src, iter, sums, j, nb) == LayerSummed(mode, src, iter, sums', j, nb)
  {
    assert SumsOr(sums', j, [(Zero, Zero)]) == SumsOr(sums, j, [(Zero, Zero)]);
    var c := src.shape(iter, 0, j).1;
    assert SumsOr(sums', j, seq(c, _ => (Zero, Zero))) == SumsOr(sums, j, seq(c, _ => (Zero, Zero)));
  }

  /** After layer k - 1 of a batch, with the other layers' accumulators unchanged. */
  lemma AllSummedStep(mode: string, src: Source, iter: int, sums: map<nat, seq<(Acc, Acc)>>,
                      sums': map<nat, seq<(Acc, Acc)>>, k: nat, n: nat, b: nat)
    requires 0 < k <= n
    requires AllSummed(mode, src, iter, sums, 0, k - 1, b + 1) && AllSummed(mode, src, iter, sums, k, n, b)
    requires forall j :: 0 <= j < n && j != k - 1 ==> (j in sums <==> j in sums') && (j in sums ==> sums[j] == sums'[j])
    requires LayerSummed(mode, src, iter, sums', k - 1, b + 1)
    ensures AllSummed(mode, src, iter, sums', 0, k, b + 1) && AllSummed(mode, src, iter, sums', k, n, b)
  {
    var next := b + 1;
    forall j | 0 <= j < k - 1 ensures LayerSummed(mode, src, iter, sums', j, next) {
      LayerSummedFrame(mode, src, iter, sums, sums', j, next);
    }
    forall j | k <= j < n ensures LayerSummed(mode, src, iter, sums', j, b) {
      LayerSummedFrame(mode, src, iter, sums, sums', j, b);
    }
  }

  /** Layer i of batch b adds that batch's terms to layer i's sums and leaves the others. */
  lemma AggLayerSumsStep(mode: string, src: Source, iter: int, b: nat, i: nat, st: Agg)
    requires i < |st.ns| && AggLayer(mode, src, iter, b, i, st).Ok?
    requires mode == "channelwise" ==> src.shape(iter, b, i).1 == src.shape(iter, 0, i).1
    requires AllSummed(mode, src, iter, st.sums, 0, i, b + 1) && AllSummed(mode, src, iter, st.sums, i, |st.ns|, b)
    ensures var r := AggLayer(mode, src, iter, b, i, st).value;
      AllSummed(mode, src, iter, r.sums, 0, i + 1, b + 1) && AllSummed(mode, src, iter, r.sums, i + 1, |st.ns|, b)
  {
    assert LayerSummed(mode, src, iter, st.sums, i, b);
    AggLayerSums(mode, src, iter, b, i, st);
    AggLayerKeys(mode, src, iter, b, i, st);
    AllSummedStep(mode, src, iter, st.sums, AggLayer(mode, src, iter, b, i, st).value.sums, i + 1, |st.ns|, b);
  }

  lemma {:induction false} AggLayersSums(mode: string, src: Source, iter: int, b: nat, k: nat, st: Agg)
    requires k <= |st.ns| && AggLayers(mode, src, iter, b, k, st).Ok?
    requires mode == "channelwise" ==> forall j :: 0 <= j < |st.ns| ==> src.shape(iter, b, j).1 == src.shape(iter, 0, j).1
    requires AllSummed(mode, src, iter, st.sums, 0, |st.ns|, b)
    ensures var r := AggLayers(mode, src, iter, b, k, st).value;
      AllSummed(mode, src, iter, r.sums, 0, k, b + 1) && AllSummed(mode, src, iter, r.sums, k, |st.ns|, b)
  {
    if k > 0 {
      AggLayersSums(mode, src, iter, b, k - 1, st);
      var st1 := AggLayers(mode, src, iter, b, k - 1, st).value;
      assert AggLayers(mode, src, iter, b, k, st) == AggLayer(mode, src, iter, b, k - 1, st1);
      AggLayerSumsStep(mode, src, iter, b, k - 1, st1);
    }
  }

  /** Before the first batch every layer's accumulators are the zeros the aggregation starts
      them with, the sums of no terms. */
  lemma NothingSummed(mode: string, src: Source, iter: int, layers: nat)
    ensures AllSummed(mode, src, iter, map[], 0, layers, 0)
  {
    forall j | 0 <= j < layers ensures LayerSummed(mode, src, iter, map[], j, 0) {
      var c := src.shape(iter, 0, j).1;
      var zeros := seq(c, _ => (Zero, Zero));
      forall ch | 0 <= ch < c ensures Summed(src, iter, j, ch, 0, zeros[ch]) {
        assert zeros[ch] == (Zero, Zero);
      }
    }
  }

  lemma {:induction false} AggBatchesSums(mode: string, src: Source, iter: int, nb: nat, layers: nat, postFit: Option<nat>)
    requires AggBatches(mode, src, iter, nb, InitialAgg(layers, postFit)).Ok?
    requires mode == "channelwise" ==> UniformChannels(src, iter, nb, layers)
    ensures AllSummed(mode, src, iter, AggBatches(mode, src, iter, nb, InitialAgg(layers, postFit)).value.sums, 0, layers, nb)
  {
    var init := InitialAgg(layers, postFit);
    if nb == 0 {
      NothingSummed(mode, src, iter, layers);
    } else {
      AggBatchesSums(mode, src, iter, nb - 1, layers, postFit);
      var st1 := AggBatches(mode, src, iter, nb - 1, init).value;
      assert AggBatches(mode, src, iter, nb, init) == AggLayers(mode, src, iter, nb - 1, |st1.ns|, st1);
      AggLayersSums(mode, src, iter, nb - 1, |st1.ns|, st1);
    }
  }

  /** After a successful aggregation each accepted layer's accumulators hold the sums of its
      terms over every batch of the pass: As[i] and Bs[i] in share and full modes, and As[i][ch]
      and Bs[i][ch] for each of the c_dim channels in channelwise mode, when every batch has the
      same number of channels. */
  lemma AggregationSums(mode: string, src: Source, iter: int, layers: nat, postFit: Option<nat>)
    requires Aggregation(mode, src, iter, layers, postFit).Ok?
    requires mode == "channelwise" ==> UniformChannels(src, iter, src.batches, layers)
    ensures var r := Aggregation(mode, src, iter, layers, postFit).value;
      forall j :: 0 <= j < layers ==> LayerSummed(mode, src, iter, r.sums, j, src.batches)
  {
    AggBatchesSums(mode, src, iter, src.batches, layers, postFit);
  }

  // ----- the regularised systems -----

  /** The system handed to numpy.linalg.solve: A / (2N) with the weight decay added on the
      diagonal except at the bias, the last unknown, and B / (2N). An A that is neither square
      nor a single row does not broadcast; N = 0 leaves the division by zero to numpy. Without
      weight decay the system is A / (2N) itself. */
  lemma RegularisedEntries(a: Matrix, b: Matrix, n: int, wd: real)
    ensures Regularise(a, b, n, wd) == Err(BroadcastError) <==> !(Square(a) || |a| == 1)
    ensures (Square(a) || |a| == 1) && n == 0 ==> Regularise(a, b, n, wd) == Ok(DividedByZero(a, b, wd))
    ensures (Square(a) || |a| == 1) && n != 0 ==>
      && Regularise(a, b, n, wd).Ok? && Regularise(a, b, n, wd).value.System?
      && var sys := Regularise(a, b, n, wd).value;
      && sys.b == Halved(b, n)
      && SameShape(sys.a, a) && SameShape(Halved(a, n), a)
      && (forall r, c :: 0 <= r < |a| && 0 <= c < |a[r]| ==>
            sys.a[r][c] == a[r][c] / (2.0 * n as real) + (if r == c && r + 1 < |a| then wd else 0.0))
      && (forall r :: 0 <= r < |a| && |a[r]| == |a| ==> sys.a[r][|a| - 1] == Halved(a, n)[r][|a| - 1])
      && (wd == 0.0 ==> sys.a == Halved(a, n))
  {
    if (Square(a) || |a| == 1) && n != 0 && wd == 0.0 {
      var sys := Regularise(a, b, n, wd).value;
      var h := Halved(a, n);
      forall r | 0 <= r < |a| ensures sys.a[r] == h[r] {
        assert |sys.a[r]| == |h[r]|;
        forall c | 0 <= c < |a[r]| ensures sys.a[r][c] == h[r][c] {
          assert sys.a[r][c] == h[r][c] + 0.0 * BiasFreeIdentity(|a|, r, c);
        }
      }
    }
  }

  // ----- the errors of a cycle -----

  /** The NotImplementedError of the exact solve, raised for an unknown bilinear_type. */
  predicate ExactSolveError(e: Error)
  {
    e.NotImplementedError? && |ExactSolvePrefix| <= |e.msg| && e.msg[..|ExactSolvePrefix|] == ExactSolvePrefix
  }

  /** A message that starts with another letter is not that error. */
  lemma NotExactSolve(e: Error)
    requires e.NotImplementedError? ==> |e.msg| > 0 && e.msg[0] != ExactSolvePrefix[0]
    ensures !ExactSolveError(e)
  {
    if e.NotImplementedError? && |ExactSolvePrefix| <= |e.msg| {
      assert e.msg[..|ExactSolvePrefix|][0] == e.msg[0];
    }
  }

  lemma CheckPairNotExact(e: OutputEntry, g: LayerGraph)
    ensures CheckPair(e, g).1.Err? ==> !ExactSolveError(CheckPair(e, g).1.error)
  {
    var err := CheckPair(e, g).1;
    if err.Err? && err.error.NotImplementedError? {
      assert err.error.msg[0] == PairErrorPrefix[0];
    }
    if err.Err? {
      NotExactSolve(err.error);
    }
  }

  lemma {:induction false} PreflightNotExact(es: seq<OutputEntry>, g: LayerGraph)
    ensures Preflight(es, g).1.Err? ==> !ExactSolveError(Preflight(es, g).1.error)
  {
    if es != [] {
      PreflightNotExact(es[..|es| - 1], g);
      CheckPairNotExact(es[|es| - 1], g);
    }
  }

  lemma {:induction false} AddChannelsErrors(src: Source, iter: int, b: nat, i: nat, k: nat, sums: seq<(Acc, Acc)>, postFit: Option<nat>)
    ensures var r := AddChannels(src, iter, b, i, k, sums, postFit);
      r.Err? ==> r.error == BroadcastError || r.error == IndexError
  {
    if k > 0 {
      AddChannelsErrors(src, iter, b, i, k - 1, sums, postFit);
    }
  }

  /** The exceptions of the aggregation of one layer: a broadcast, an index or an unbound
      post_fit, or the NotImplementedError of an unknown bilinear_type. */
  predicate AggregationError(mode: string, e: Error)
  {
    e == BroadcastError || e == IndexError || e == UnboundLocalError || e == NotImplementedError(AggregatePrefix + mode)
  }

  lemma AggLayerErrors(mode: string, src: Source, iter: int, b: nat, i: nat, st: Agg)
    requires i < |st.ns|
    ensures AggLayer(mode, src, iter, b, i, st).Err? ==> AggregationError(mode, AggLayer(mode, src, iter, b, i, st).error)
  {
    var c := src.shape(iter, b, i).1;
    AddChannelsErrors(src, iter, b, i, c, if i in st.sums then st.sums[i] else seq(c, _ => (Zero, Zero)), st.postFit);
  }

  lemma {:induction false} AggLayersErrors(mode: string, src: Source, iter: int, b: nat, k: nat, st: Agg)
    requires k <= |st.ns|
    ensures AggLayers(mode, src, iter, b, k, st).Err? ==> AggregationError(mode, AggLayers(mode, src, iter, b, k, st).error)
  {
    if k > 0 {
      var prev := AggLayers(mode, src, iter, b, k - 1, st);
      if prev.Err? {
        AggLayersErrors(mode, src, iter, b, k - 1, st);
        assert AggLayers(mode, src, iter, b, k, st) == prev;
      } else {
        AggLayerErrors(mode, src, iter, b, k - 1, prev.value);
        assert AggLayers(mode, src, iter, b, k, st) == AggLayer(mode, src, iter, b, k - 1, prev.value);
      }
    }
  }

  lemma {:induction false} AggBatchesErrors(mode: string, src: Source, iter: int, nb: nat, st: Agg)
    ensures AggBatches(mode, src, iter, nb, st).Err? ==> AggregationError(mode, AggBatches(mode, src, iter, nb, st).error)
  {
    if nb > 0 {
      var prev := AggBatches(mode, src, iter, nb - 1, st);
      if prev.Err? {
        AggBatchesErrors(mode, src, iter, nb - 1, st);
        assert AggBatches(mode, src, iter, nb, st) == prev;
      } else {
        AggLayersErrors(mode, src, iter, nb - 1, |prev.value.ns|, prev.value);
        assert AggBatches(mode, src, iter, nb, st) == AggLayers(mode, src, iter, nb - 1, |prev.value.ns|, prev.value);
      }
    }
  }

  /** With a batch and a layer to aggregate, an unknown bilinear_type fails in the aggregation,
      on the first batch's first layer. */
  lemma UnknownModeFails(mode: string, src: Source, iter: int, layers: nat, postFit: Option<nat>)
    requires !KnownMode(mode) && src.batches > 0 && layers > 0
    ensures Aggregation(mode, src, iter, layers, postFit) == Err(NotImplementedError(AggregatePrefix + mode))
  {
    var init := InitialAgg(layers, postFit);
    assert AggLayers(mode, src, iter, 0, 1, init) == Err(NotImplementedError(AggregatePrefix + mode));
    LayersErrorSticks(mode, src, iter, 0, 1, layers, init);
    assert AggBatches(mode, src, iter, 1, init) == Err(NotImplementedError(AggregatePrefix + mode));
    BatchesErrorSticks(mode, src, iter, 1, src.batches, init);
  }

  /** The exceptions of the solves: a key or an index missing, a zero accumulator measured
      with len, a broadcast, a singular system. */
  predicate FitError(e: Error)
  {
    e == KeyError || e == IndexError || e == TypeError || e == BroadcastError || e == LinAlgError
  }

  lemma {:induction false} FitChannelsErrors(chans: seq<(Acc, Acc)>, k: nat, n: int, wd: real, h: nat, src: Source)
    requires k <= |chans|
    ensures FitChannels(chans, k, n, wd, h, src).Err? ==> FitError(FitChannels(chans, k, n, wd, h, src).error)
  {
    if k > 0 {
      FitChannelsErrors(chans, k - 1, n, wd, h, src);
    }
  }

  lemma FitLayerErrors(mode: string, agg: Agg, i: nat, wd: real, src: Source)
    ensures var r := FitLayer(mode, agg, i, wd, src);
      r.Err? ==> FitError(r.error) || (r.error == NotImplementedError(ExactSolvePrefix + mode) && i in agg.postFits && !KnownMode(mode))
  {
    if i in agg.sums {
      FitChannelsErrors(agg.sums[i], |agg.sums[i]|, if i < |agg.ns| then agg.ns[i] else 0, wd, if i in agg.postFits then agg.postFits[i] else 0, src);
    }
  }

  /** The solve loop stops at a layer whose fit failed, with that error, or at a layer
      without a bias. */
  lemma {:induction false} SolveLayersFailure(fits: nat -> Result<LayerParams>, layers: seq<LayerId>, k: nat,
                                              g: LayerGraph, params: map<LayerId, LayerParams>)
    requires k <= |layers|
    ensures var e := SolveLayers(fits, layers, k, g, params).1;
      e.Some? ==>
        exists i :: 0 <= i < k && (fits(i) == Err(e.value) || (fits(i).Ok? && !HasBias(g, layers[i]) && e.value == MissingBiasError))
  {
    if k > 0 {
      var prev := SolveLayers(fits, layers, k - 1, g, params);
      if prev.1.Some? {
        SolveLayersFailure(fits, layers, k - 1, g, params);
        assert SolveLayers(fits, layers, k, g, params) == prev;
      }
    }
  }

  /** Whatever bilinear_type the network has, no pass raises the exact-solve
      NotImplementedError: an unknown type fails in the aggregation when there is a batch and a
      layer, and otherwise post_fit_all is empty and the lookup in it fails first. */
  lemma CycleNeverExactSolve(s: Settings, g: LayerGraph, mode: string, src: Source, l: Loop)
    ensures CycleSpec(s, g, mode, src, l).1.Some? ==> !ExactSolveError(CycleSpec(s, g, mode, src, l).1.value)
  {
    var (names, pre) := Preflight(l.names, g);
    PreflightNotExact(l.names, g);
    if pre.Ok? {
      var layers := LayerIds(pre.value);
      var ag := Aggregation(mode, src, l.iter, |layers|, l.postFit);
      AggBatchesErrors(mode, src, l.iter, src.batches, InitialAgg(|layers|, l.postFit));
      if ag.Err? {
        if ag.error.NotImplementedError? {
          assert ag.error.msg[0] == AggregatePrefix[0];
        }
        NotExactSolve(ag.error);
      } else {
        var fits := LayerFits(mode, ag.value, s.weightDecay, src);
        var e := SolveLayers(fits, layers, |layers|, g, l.params).1;
        SolveLayersFailure(fits, layers, |layers|, g, l.params);
        if e.Some? && e.value != MissingBiasError {
          var i :| 0 <= i < |layers| && fits(i) == Err(e.value);
          AggregationKeys(mode, src, l.iter, |layers|, l.postFit);
          FitLayerErrors(mode, ag.value, i, s.weightDecay, src);
        }
      }
    }
  }

  lemma {:induction false} RunCyclesNeverExactSolve(s: Settings, g: LayerGraph, mode: string, src: Source, l: Loop, n: nat)
    ensures RunCycles(s, g, mode, src, l, n).1.Some? ==> !ExactSolveError(RunCycles(s, g, mode, src, l, n).1.value)
  {
    if n > 0 {
      RunCyclesUnfold(s, g, mode, src, l, n);
      RunCyclesNeverExactSolve(s, g, mode, src, l, n - 1);
      CycleNeverExactSolve(s, g, mode, src, RunCycles(s, g, mode, src, l, n - 1).0);
    }
  }

  /** The compilation of the validation function never raises the exact-solve
      NotImplementedError. */
  lemma CompileNeverExactSolve(s: Settings, names: seq<OutputEntry>, g: LayerGraph)
    ensures CompileLookup(s, names, g).Some? ==> !ExactSolveError(CompileLookup(s, names, g).value)
  {
    CompileErrorKinds(s.inputNames, names, g.predLayers.Keys);
    var e := CompileLookup(s, names, g);
    if e.Some? && e.value.NotImplementedError? {
      var t :| e.value == NotImplementedError("output name with time " + Decimal.IntToString(t));
      assert e.value.msg[0] == 'o';
      NotExactSolve(e.value);
    }
  }

  /** The passes and the losses of step never raise the exact-solve NotImplementedError, so
      step raises it only if compilation does. */
  lemma StepExactSolveFromCompile(s: Settings, g: LayerGraph, mode: string, src: Source, p: Progress,
                                  params: map<LayerId, LayerParams>, iters: int, compiled: Option<Error>)
    requires compiled.Some? ==> !ExactSolveError(compiled.value)
    ensures StepSpec(s, g, mode, src, p, params, iters, compiled).2.Err? ==> !ExactSolveError(StepSpec(s, g, mode, src, p, params, iters, compiled).2.error)
  {
    if compiled.None? {
      RunCyclesNeverExactSolve(s, g, mode, src, Loop(p.outputNames, p.iter, params, None), if iters > 0 then iters else 0);
    }
  }

  /** step never raises the exact-solve NotImplementedError. */
  lemma StepNeverExactSolve(s: Settings, g: LayerGraph, mode: string, src: Source, p: Progress,
                            params: map<LayerId, LayerParams>, iters: int)
    ensures var (_, _, r) := StepSpec(s, g, mode, src, p, params, iters, CompileLookup(s, p.outputNames, g));
      r.Err? ==> !ExactSolveError(r.error)
  {
    CompileNeverExactSolve(s, p.outputNames, g);
    StepExactSolveFromCompile(s, g, mode, src, p, params, iters, CompileLookup(s, p.outputNames, g));
  }

  // ----- the solves set the parameters -----

  /** Layer m is the last of the first k accepted layers to be the same layer. */
  predicate LastWriter(layers: seq<LayerId>, k: nat, m: nat)
    requires m < k <= |layers|
  {
    forall m' :: m < m' < k ==> layers[m'] != layers[m]
  }

  /** A successful solve of the first k layers is a successful solve of the first k - 1 and
      then the k-th layer's parameters set to its fit. */
  lemma SolveLayersLast(fits: nat -> Result<LayerParams>, layers: seq<LayerId>, k: nat,
                        g: LayerGraph, params: map<LayerId, LayerParams>)
    requires 0 < k <= |layers| && SolveLayers(fits, layers, k, g, params).1.None?
    ensures SolveLayers(fits, layers, k - 1, g, params).1.None?
    ensures fits(k - 1).Ok? && HasBias(g, layers[k - 1])
    ensures SolveLayers(fits, layers, k, g, params).0 == SolveLayers(fits, layers, k - 1, g, params).0[layers[k - 1] := fits(k - 1).value]
  {
  }

  /** When the solves of the first k accepted layers all succeed, each layer has a bias and its
      fit succeeded. */
  lemma {:induction false} SolveLayersAllFit(fits: nat -> Result<LayerParams>, layers: seq<LayerId>, k: nat,
                                             g: LayerGraph, params: map<LayerId, LayerParams>)
    requires k <= |layers| && SolveLayers(fits, layers, k, g, params).1.None?
    ensures forall m :: 0 <= m < k ==> fits(m).Ok? && HasBias(g, layers[m])
  {
    if k > 0 {
      SolveLayersLast(fits, layers, k, g, params);
      SolveLayersAllFit(fits, layers, k - 1, g, params);
    }
  }

  /** A successful solve sets the parameters of exactly the accepted layers and leaves every
      other layer's parameters. */
  lemma {:induction false} SolveLayersKeys(fits: nat -> Result<LayerParams>, layers: seq<LayerId>, k: nat,
                                           g: LayerGraph, params: map<LayerId, LayerParams>)
    requires k <= |layers| && SolveLayers(fits, layers, k, g, params).1.None?
    ensures forall id :: id in SolveLayers(fits, layers, k, g, params).0 <==> id in params || id in layers[..k]
    ensures forall id :: id in params && id !in layers[..k] ==> SolveLayers(fits, layers, k, g, params).0[id] == params[id]
  {
    if k > 0 {
      SolveLayersLast(fits, layers, k, g, params);
      SolveLayersKeys(fits, layers, k - 1, g, params);
      assert layers[..k] == layers[..k - 1] + [layers[k - 1]];
    }
  }

  /** A successful solve leaves each accepted layer with the fit of its last occurrence among
      the accepted pairs. */
  lemma {:induction false} SolveLayersLastWriter(fits: nat -> Result<LayerParams>, layers: seq<LayerId>, k: nat,
                                                 g: LayerGraph, params: map<LayerId, LayerParams>)
    requires k <= |layers| && SolveLayers(fits, layers, k, g, params).1.None?
    ensures forall m :: 0 <= m < k && LastWriter(layers, k, m) ==>
      fits(m).Ok? && layers[m] in SolveLayers(fits, layers, k, g, params).0 &&
      SolveLayers(fits, layers, k, g, params).0[layers[m]] == fits(m).value
  {
    if k > 0 {
      SolveLayersLast(fits, layers, k, g, params);
      SolveLayersLastWriter(fits, layers, k - 1, g, params);
      var ps := SolveLayers(fits, layers, k, g, params).0;
      forall m | 0 <= m < k && LastWriter(layers, k, m)
        ensures fits(m).Ok? && layers[m] in ps && ps[layers[m]] == fits(m).value
      {
        if m < k - 1 {
          assert layers[k - 1] != layers[m];
          assert LastWriter(layers, k - 1, m);
        }
      }
    }
  }
}
