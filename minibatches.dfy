/** The two minibatch generators of the Theano predictor.

    iterate_minibatches cuts arrays held in memory into floor(N / batch_size) batches of
    batch_size rows, in order or along one shuffled order, and drops the remainder.

    iterate_minibatches_indefinitely draws batches from the datasets of an HDF5 file without end,
    from a queue of row indices that is refilled with a block 0 .. N-1 (shuffled when asked)
    whenever it holds fewer than a batch. In shuffled mode the excerpt of the queue is sorted
    before the file is read, and the rows read are put back in the excerpt's order through the
    inverse of the sort. In unshuffled mode the queue is kept but not used: every batch reads
    rows 0 .. batch_size-1.

    The file's datasets are given as their rows, and each order numpy.random.shuffle draws is a
    parameter. */
module Minibatches {
  import opened Errors
  import opened Sorting

  /** `kwargs.get('batch_size') or 1`: a missing, None or zero batch size is 1. */
  function EffectiveBatchSize(batchSize: Option<int>): (bs: int)
    ensures bs != 0
    ensures batchSize.Some? && batchSize.value != 0 ==> bs == batchSize.value
    ensures (batchSize.None? || batchSize.value == 0) ==> bs == 1
  {
    if batchSize.None? || batchSize.value == 0 then 1 else batchSize.value
  }

  /** numpy.arange(lo, hi): lo, lo+1, ..., hi-1. */
  function Range(lo: nat, hi: nat): (s: seq<nat>)
    requires lo <= hi
    ensures |s| == hi - lo
    ensures forall i :: 0 <= i < |s| ==> s[i] == lo + i
  {
    seq(hi - lo, i requires 0 <= i < hi - lo => lo + i)
  }

  /** The rows of an array at the given indices (numpy's datum[idx] for an index array). */
  function Rows<T>(datum: seq<T>, idx: seq<nat>): (r: seq<T>)
    requires forall i :: 0 <= i < |idx| ==> idx[i] < |datum|
    ensures |r| == |idx|
    ensures forall m :: 0 <= m < |idx| ==> r[m] == datum[idx[m]]
  {
    seq(|idx|, m requires 0 <= m < |idx| => datum[idx[m]])
  }

  /** Reading an array at the indices lo .. hi-1 is its slice lo:hi. */
  lemma RowsOfRange<T>(datum: seq<T>, lo: nat, hi: nat)
    requires lo <= hi <= |datum|
    ensures Rows(datum, Range(lo, hi)) == datum[lo..hi]
  {
  }

  /** The length test both generators start with: N is the length of the first array, and every
      other array must have it (an assertion). With no arrays at all, data[0] raises IndexError. */
  function CheckLengths<T>(data: seq<seq<T>>): (r: Result<nat>)
    ensures r.Ok? <==> data != [] && forall d :: 0 <= d < |data| ==> |data[d]| == |data[0]|
    ensures r.Ok? ==> r.value == |data[0]|
    ensures data == [] ==> r == Err(IndexError)
    ensures data != [] && r.Err? ==> r == Err(AssertionError)
  {
    if data == [] then Err(IndexError)
    else if forall d :: 0 <= d < |data| ==> |data[d]| == |data[0]| then Ok(|data[0]|)
    else Err(AssertionError)
  }

  /** All arrays have n rows. */
  predicate Uniform<T>(data: seq<seq<T>>, n: nat)
  {
    forall d :: 0 <= d < |data| ==> |data[d]| == n
  }

  // ----- iterate_minibatches -----

  /** The number of batches: range(0, N - bs + 1, bs) has floor(N / bs) starts for a positive
      step, and none for a negative one (it would count down from 0 to N - bs + 1 > 0). */
  function BatchCount(n: nat, bs: int): nat
  {
    if bs > 0 then n / bs else 0
  }

  /** The start k * bs is in range(0, N - bs + 1, bs) exactly when k < floor(N / bs). */
  lemma RangeStep(k: nat, bs: int, n: nat)
    requires bs > 0
    ensures k * bs < n - bs + 1 <==> k < n / bs
  {
    var q := n / bs;
    var r := n % bs;
    assert n == q * bs + r && 0 <= r < bs;
    if k < q {
      MulMonotone(k + 1, q, bs);
      assert (k + 1) * bs == k * bs + bs;
    } else {
      MulMonotone(q, k, bs);
    }
  }

  lemma MulMonotone(a: int, b: int, c: int)
    requires a <= b && c >= 0
    ensures a * c <= b * c
  {
    assert b * c - a * c == (b - a) * c;
  }

  lemma BlockInRange(k: nat, bs: int, n: nat)
    requires bs > 0 && k < n / bs
    ensures k * bs + bs <= n
  {
    RangeStep(k, bs, n);
  }

  /** The order the batches are cut from: the shuffled indices, or 0 .. N-1. */
  function Order(n: nat, shuffle: bool, perm: seq<nat>): seq<nat>
  {
    if shuffle then perm else Range(0, n)
  }

  /** numpy.random.shuffle(numpy.arange(N)) gives a permutation of 0 .. N-1. */
  predicate ShuffleOk<T>(data: seq<seq<T>>, shuffle: bool, perm: seq<nat>)
  {
    shuffle && data != [] ==> IsPermutation(perm, |data[0]|)
  }

  predicate ValidOrder(order: seq<nat>, n: nat)
  {
    |order| == n && forall i :: 0 <= i < n ==> order[i] < n
  }

  lemma OrderValid<T>(data: seq<seq<T>>, shuffle: bool, perm: seq<nat>)
    requires data != [] && ShuffleOk(data, shuffle, perm)
    ensures ValidOrder(Order(|data[0]|, shuffle, perm), |data[0]|)
  {
  }

  /** The indices of batch k: the piece start:start+bs of the order, for start = k * bs. */
  function BatchIndices(n: nat, bs: int, order: seq<nat>, k: nat): (idx: seq<nat>)
    requires bs > 0 && k < n / bs && ValidOrder(order, n)
    ensures |idx| == bs
    ensures forall m :: 0 <= m < bs ==> k * bs + m < n && idx[m] == order[k * bs + m]
    ensures forall m :: 0 <= m < bs ==> idx[m] < n
  {
    BlockInRange(k, bs, n);
    order[k * bs..k * bs + bs]
  }

  /** The batch of the given indices: one excerpt per array. */
  function Batch<T>(data: seq<seq<T>>, idx: seq<nat>): (b: seq<seq<T>>)
    requires forall d, m :: 0 <= d < |data| && 0 <= m < |idx| ==> idx[m] < |data[d]|
    ensures |b| == |data|
    ensures forall d :: 0 <= d < |data| ==> b[d] == Rows(data[d], idx)
  {
    seq(|data|, d requires 0 <= d < |data| => Rows(data[d], idx))
  }

  /** The batches iterate_minibatches yields, in order, or the failure of its length test. */
  function MinibatchesSpec<T>(data: seq<seq<T>>, batchSize: Option<int>, shuffle: bool, perm: seq<nat>): Result<seq<seq<seq<T>>>>
    requires ShuffleOk(data, shuffle, perm)
  {
    match CheckLengths(data)
    case Err(e) => Err(e)
    case Ok(n) =>
      var bs := EffectiveBatchSize(batchSize);
      var order := Order(n, shuffle, perm);
      OrderValid(data, shuffle, perm);
      Ok(seq(BatchCount(n, bs), k requires 0 <= k < BatchCount(n, bs) => Batch(data, BatchIndices(n, bs, order, k))))
  }

  /** iterate_minibatches, run to the end: the batches it yields, in order. */
  method Minibatches<T>(data: seq<seq<T>>, batchSize: Option<int>, shuffle: bool, perm: seq<nat>)
    returns (r: Result<seq<seq<seq<T>>>>)
    requires ShuffleOk(data, shuffle, perm)
    ensures r == MinibatchesSpec(data, batchSize, shuffle, perm)
  {
    var lengths := CheckLengths(data);
    if lengths.Err? {
      return Err(lengths.error);
    }
    var n := lengths.value;
    var bs := EffectiveBatchSize(batchSize);
    OrderValid(data, shuffle, perm);
    var batches := CutBatches(data, n, bs, shuffle, perm);
    MinibatchesSpecOk(data, batchSize, shuffle, perm, batches);
    return Ok(batches);
  }

  /** batches holds batches 0 .. |batches|-1 of the order. */
  ghost predicate CutSoFar<T>(data: seq<seq<T>>, n: nat, bs: int, order: seq<nat>, batches: seq<seq<seq<T>>>)
    requires Uniform(data, n) && ValidOrder(order, n)
  {
    && |batches| <= BatchCount(n, bs)
    && forall j :: 0 <= j < |batches| ==> batches[j] == Batch(data, BatchIndices(n, bs, order, j))
  }

  /** The loop of iterate_minibatches over the starts of range(0, N - bs + 1, bs), which are
      k * bs for k < BatchCount (RangeStep). */
  method CutBatches<T>(data: seq<seq<T>>, n: nat, bs: int, shuffle: bool, perm: seq<nat>)
    returns (batches: seq<seq<seq<T>>>)
    requires Uniform(data, n) && ValidOrder(Order(n, shuffle, perm), n)
    ensures |batches| == BatchCount(n, bs)
    ensures forall j :: 0 <= j < |batches| ==> batches[j] == Batch(data, BatchIndices(n, bs, Order(n, shuffle, perm), j))
  {
    batches := [];
    for k := 0 to BatchCount(n, bs)
      invariant |batches| == k
      invariant CutSoFar(data, n, bs, Order(n, shuffle, perm), batches)
    {
      var start := k * bs;
      BlockInRange(k, bs, n);
      var excerpt := if shuffle then perm[start..start + bs] else Range(start, start + bs);
      ExcerptAt(n, bs, shuffle, perm, k, excerpt);
      CutStep(data, n, bs, Order(n, shuffle, perm), batches);
      batches := batches + [Batch(data, excerpt)];
    }
  }

  /** Appending batch k keeps CutSoFar. */
  lemma CutStep<T>(data: seq<seq<T>>, n: nat, bs: int, order: seq<nat>, batches: seq<seq<seq<T>>>)
    requires Uniform(data, n) && ValidOrder(order, n) && CutSoFar(data, n, bs, order, batches)
    requires |batches| < BatchCount(n, bs)
    ensures CutSoFar(data, n, bs, order, batches + [Batch(data, BatchIndices(n, bs, order, |batches|))])
  {
  }

  /** The excerpt the loop body takes for start = k * bs: the indices of batch k. */
  lemma ExcerptAt(n: nat, bs: int, shuffle: bool, perm: seq<nat>, k: nat, excerpt: seq<nat>)
    requires ValidOrder(Order(n, shuffle, perm), n) && bs > 0 && k < n / bs
    requires k * bs + bs <= n
    requires excerpt == if shuffle then perm[k * bs..k * bs + bs] else Range(k * bs, k * bs + bs)
    ensures excerpt == BatchIndices(n, bs, Order(n, shuffle, perm), k)
  {
  }

  /** The batches of the specification, one by one: a sequence holding batch k at each k and as
      many batches is the specification's. */
  lemma MinibatchesSpecOk<T>(data: seq<seq<T>>, batchSize: Option<int>, shuffle: bool, perm: seq<nat>, batches: seq<seq<seq<T>>>)
    requires ShuffleOk(data, shuffle, perm) && CheckLengths(data).Ok?
    requires |batches| == BatchCount(|data[0]|, EffectiveBatchSize(batchSize))
    requires ValidOrder(Order(|data[0]|, shuffle, perm), |data[0]|)
    requires forall k :: 0 <= k < |batches| ==>
      batches[k] == Batch(data, BatchIndices(|data[0]|, EffectiveBatchSize(batchSize), Order(|data[0]|, shuffle, perm), k))
    ensures MinibatchesSpec(data, batchSize, shuffle, perm) == Ok(batches)
  {
    var r := MinibatchesSpec(data, batchSize, shuffle, perm);
    assert r.Ok? && |r.value| == |batches|;
    forall k | 0 <= k < |batches| ensures r.value[k] == batches[k] {
    }
    assert r.value == batches;
  }

  /** iterate_minibatches yields floor(N / batch_size) batches (none for a negative batch size),
      each holding one excerpt of batch_size rows per array; with no arrays it raises IndexError,
      and with arrays of different lengths AssertionError. */
  lemma MinibatchesShape<T>(data: seq<seq<T>>, batchSize: Option<int>, shuffle: bool, perm: seq<nat>)
    requires ShuffleOk(data, shuffle, perm)
    ensures data == [] ==> MinibatchesSpec(data, batchSize, shuffle, perm) == Err(IndexError)
    ensures data != [] && !Uniform(data, |data[0]|) ==> MinibatchesSpec(data, batchSize, shuffle, perm) == Err(AssertionError)
    ensures data != [] && Uniform(data, |data[0]|) ==>
      var bs := EffectiveBatchSize(batchSize);
      var r := MinibatchesSpec(data, batchSize, shuffle, perm);
      && r.Ok?
      && |r.value| == (if bs > 0 then |data[0]| / bs else 0)
      && forall k, d :: 0 <= k < |r.value| && 0 <= d < |data| ==> |r.value[k]| == |data| && |r.value[k][d]| == bs
  {
  }

  /** Unshuffled, batch k holds rows k * bs .. (k+1) * bs - 1 of every array. */
  lemma MinibatchesInOrder<T>(data: seq<seq<T>>, batchSize: Option<int>, perm: seq<nat>, k: nat, d: nat)
    requires MinibatchesSpec(data, batchSize, false, perm).Ok?
    requires k < |MinibatchesSpec(data, batchSize, false, perm).value| && d < |data|
    ensures var bs := EffectiveBatchSize(batchSize);
      && bs > 0 && (k + 1) * bs <= |data[d]|
      && MinibatchesSpec(data, batchSize, false, perm).value[k][d] == data[d][k * bs..(k + 1) * bs]
  {
    var n := |data[0]|;
    var bs := EffectiveBatchSize(batchSize);
    BlockInRange(k, bs, n);
    var lo := k * bs;
    assert (k + 1) * bs == lo + bs;
    RowsOfRange(data[d], lo, lo + bs);
    assert BatchIndices(n, bs, Range(0, n), k) == Range(lo, lo + bs);
  }

  /** Shuffled, batch k holds the rows at piece k of the shuffled order. */
  lemma MinibatchesShuffled<T>(data: seq<seq<T>>, batchSize: Option<int>, perm: seq<nat>, k: nat, d: nat)
    requires ShuffleOk(data, true, perm) && MinibatchesSpec(data, batchSize, true, perm).Ok?
    requires k < |MinibatchesSpec(data, batchSize, true, perm).value| && d < |data|
    ensures var bs := EffectiveBatchSize(batchSize);
      && bs > 0 && (k + 1) * bs <= |perm|
      && MinibatchesSpec(data, batchSize, true, perm).value[k][d] == Rows(data[d], perm[k * bs..(k + 1) * bs])
  {
    var bs := EffectiveBatchSize(batchSize);
    BlockInRange(k, bs, |data[0]|);
    assert (k + 1) * bs == k * bs + bs;
  }

  /** Block k1 ends before block k2 starts. */
  lemma BlocksOrdered(k1: nat, k2: nat, bs: int)
    requires k1 < k2 && bs > 0
    ensures k1 * bs + bs <= k2 * bs
  {
    var gap := k2 - k1 - 1;
    assert gap * bs >= 0;
    assert k2 * bs == (k1 + 1 + gap) * bs == k1 * bs + bs + gap * bs;
  }

  /** The pieces k1 < k2 of one permutation cut into blocks of bs share no index, so no row is in
      two batches. */
  lemma PiecesDisjoint(perm: seq<nat>, n: nat, bs: int, k1: nat, k2: nat)
    requires IsPermutation(perm, n) && bs > 0 && k1 < k2 < n / bs
    ensures k1 * bs + bs <= k2 * bs && k2 * bs + bs <= n
    ensures var p1 := perm[k1 * bs..k1 * bs + bs];
      var p2 := perm[k2 * bs..k2 * bs + bs];
      forall a, b :: 0 <= a < bs && 0 <= b < bs ==> p1[a] != p2[b]
  {
    BlockInRange(k2, bs, n);
    BlocksOrdered(k1, k2, bs);
    var lo1 := k1 * bs;
    var lo2 := k2 * bs;
    var p1 := perm[lo1..lo1 + bs];
    var p2 := perm[lo2..lo2 + bs];
    forall a, b | 0 <= a < bs && 0 <= b < bs ensures p1[a] != p2[b] {
      var i := lo1 + a;
      var j := lo2 + b;
      assert p1[a] == perm[i] && p2[b] == perm[j] && i < j;
    }
  }

  // ----- iterate_minibatches_indefinitely -----

  /** The number of elements s[0:stop] takes (and del s[0:stop] removes) from a list of len
      elements; a negative stop counts from the end. */
  function PrefixLength(len: nat, stop: int): (m: nat)
    ensures m <= len
    ensures 0 <= stop <= len ==> m == stop
    ensures stop > len ==> m == len
  {
    if stop >= 0 then (if stop <= len then stop else len)
    else if len + stop >= 0 then len + stop
    else 0
  }

  /** The queue a batch is taken from: a block of N new indices is appended first when fewer than
      batch_size remain, shuffled when asked. */
  function Refill(indices: seq<nat>, n: nat, bs: int, shuffle: bool, block: seq<nat>): seq<nat>
  {
    if |indices| < bs then indices + (if shuffle then block else Range(0, n)) else indices
  }

  /** The loop that inverts the sort: unsort_inds starts as batch_size copies of -1 (none for a
      negative batch size), and unsort_inds[sort_inds[j]] = j for j = 0, 1, ... in turn; a
      position past the end raises IndexError. */
  function Scatter(sortInds: seq<nat>, bs: int): Result<seq<int>>
  {
    if sortInds == [] then Ok(seq(if bs > 0 then bs else 0, _ => -1))
    else
      match Scatter(sortInds[..|sortInds| - 1], bs)
      case Err(e) => Err(e)
      case Ok(u) =>
        var si := sortInds[|sortInds| - 1];
        if si < |u| then Ok(u[si := |sortInds| - 1]) else Err(IndexError)
  }

  /** The loop of lines filling unsort_inds. */
  method ScatterLoop(sortInds: seq<nat>, bs: int) returns (r: Result<seq<int>>)
    ensures r == Scatter(sortInds, bs)
  {
    var u: seq<int> := seq(if bs > 0 then bs else 0, _ => -1);
    for j := 0 to |sortInds|
      invariant Scatter(sortInds[..j], bs) == Ok(u)
    {
      assert sortInds[..j + 1][..j] == sortInds[..j];
      if sortInds[j] >= |u| {
        assert Scatter(sortInds[..j + 1], bs) == Err(IndexError);
        ScatterErrorSticks(sortInds, j + 1, bs);
        return Err(IndexError);
      }
      u := u[sortInds[j] := j];
    }
    assert sortInds[..|sortInds|] == sortInds;
    return Ok(u);
  }

  /** Once a position is past the end, the whole loop raises IndexError. */
  lemma {:induction false} ScatterErrorSticks(sortInds: seq<nat>, j: nat, bs: int)
    requires j <= |sortInds| && Scatter(sortInds[..j], bs).Err?
    ensures Scatter(sortInds, bs) == Scatter(sortInds[..j], bs)
    decreases |sortInds| - j
  {
    if j < |sortInds| {
      assert sortInds[..j + 1][..j] == sortInds[..j];
      ScatterErrorSticks(sortInds, j + 1, bs);
    } else {
      assert sortInds[..j] == sortInds;
    }
  }

  /** For distinct positions below batch_size the loop succeeds and inverts them: unsort_inds
      at sort_inds[j] is j, and every other entry is still -1. */
  lemma {:induction false} ScatterInverts(s: seq<nat>, bs: nat)
    requires Distinct(s) && forall j :: 0 <= j < |s| ==> s[j] < bs
    ensures Scatter(s, bs).Ok?
    ensures |Scatter(s, bs).value| == bs
    ensures forall j :: 0 <= j < |s| ==> Scatter(s, bs).value[s[j]] == j
    ensures forall p :: 0 <= p < bs ==>
      Scatter(s, bs).value[p] == -1 || (0 <= Scatter(s, bs).value[p] < |s| && s[Scatter(s, bs).value[p]] == p)
  {
    if s != [] {
      var init := s[..|s| - 1];
      var last := s[|s| - 1];
      assert forall a, b :: 0 <= a < b < |init| ==> init[a] == s[a] && init[b] == s[b];
      ScatterInverts(init, bs);
      var u := Scatter(init, bs).value;
      var v := u[last := |s| - 1];
      assert Scatter(s, bs) == Ok(v);
      forall j | 0 <= j < |s| ensures v[s[j]] == j {
        if j < |s| - 1 {
          assert s[j] == init[j] && s[j] != last;
        }
      }
      forall p | 0 <= p < bs ensures v[p] == -1 || (0 <= v[p] < |s| && s[v[p]] == p) {
        if p != last && u[p] != -1 {
          assert init[u[p]] == s[u[p]];
        }
      }
    }
  }

  /** Python's index i into n rows, counting from the end when negative. */
  function Wrap(i: int, n: nat): int
  {
    if i < 0 then i + n else i
  }

  const AssignBroadcastError := ValueError("could not broadcast input array into the shape of the batch")

  /** Whether datum[...] = datum[unsort_inds, ...] fails for a datum of m rows: an index outside
      -m .. m-1 raises IndexError when the rows are read; then the m rows must take the rows read,
      which needs as many of them, or a single one to broadcast. */
  function UnpermuteError(m: nat, u: seq<int>): Option<Error>
  {
    if exists p :: 0 <= p < |u| && !(-(m as int) <= u[p] < m) then Some(IndexError)
    else if |u| != m && |u| != 1 then Some(AssignBroadcastError)
    else None
  }

  /** The rows after datum[...] = datum[unsort_inds, ...]. */
  function Unpermuted<T>(rows: seq<T>, u: seq<int>): (r: seq<T>)
    requires UnpermuteError(|rows|, u).None?
    ensures |r| == |rows|
    ensures |u| == |rows| ==> forall p :: 0 <= p < |u| ==> r[p] == rows[Wrap(u[p], |rows|)]
  {
    var read := seq(|u|, p requires 0 <= p < |u| => rows[Wrap(u[p], |rows|)]);
    if |u| == |rows| then read else seq(|rows|, _ => read[0])
  }

  /** The excerpt in sorted order: excerpt[sort_inds[m]] for each m. */
  function SortedExcerpt(excerpt: seq<nat>): (s: seq<nat>)
    ensures |s| == |excerpt|
    ensures forall m :: 0 <= m < |s| ==> s[m] in excerpt
    ensures forall a, b :: 0 <= a < b < |s| ==> s[a] <= s[b]
  {
    var p := ArgSort(excerpt);
    seq(|excerpt|, m requires 0 <= m < |excerpt| => excerpt[p[m]])
  }

  predicate Below(s: seq<nat>, n: nat)
  {
    forall i :: 0 <= i < |s| ==> s[i] < n
  }

  /** The shuffled branch on the excerpt: argsort it, invert the sort, read each dataset at the
      sorted indices, and put each dataset's rows back through the inverse. */
  function ShuffledBatch<T>(datasets: seq<seq<T>>, n: nat, bs: int, excerpt: seq<nat>): Result<seq<seq<T>>>
    requires Uniform(datasets, n) && Below(excerpt, n)
  {
    match Scatter(ArgSort(excerpt), bs)
    case Err(e) => Err(e)
    case Ok(u) =>
      var sorted := SortedExcerpt(excerpt);
      if datasets != [] && UnpermuteError(|sorted|, u).Some? then Err(UnpermuteError(|sorted|, u).value)
      else Ok(seq(|datasets|, d requires 0 <= d < |datasets| => Unpermuted(Rows(datasets[d], sorted), u)))
  }

  /** The unshuffled branch: the slice 0:batch_size of every dataset, whatever the queue holds. */
  function UnshuffledBatch<T>(datasets: seq<seq<T>>, n: nat, bs: int): (b: seq<seq<T>>)
    requires Uniform(datasets, n)
    ensures |b| == |datasets|
  {
    seq(|datasets|, d requires 0 <= d < |datasets| => datasets[d][..PrefixLength(n, bs)])
  }

  /** One pass of the generator's loop on the queue indices: the queue afterwards and the batch,
      or the exception (after which the queue is not shortened). */
  function Iteration<T>(datasets: seq<seq<T>>, n: nat, bs: int, shuffle: bool, indices: seq<nat>, block: seq<nat>)
    : (seq<nat>, Result<seq<seq<T>>>)
    requires Uniform(datasets, n) && Below(indices, n) && (shuffle ==> IsPermutation(block, n))
  {
    var queue := Refill(indices, n, bs, shuffle, block);
    var k := PrefixLength(|queue|, bs);
    var batch := if shuffle then ShuffledBatch(datasets, n, bs, queue[..k]) else Ok(UnshuffledBatch(datasets, n, bs));
    if batch.Err? then (queue, batch) else (queue[k..], batch)
  }

  /** Where the generator stands: not yet started, inside its loop, or ended by an exception. */
  datatype Phase = NotStarted | Running | Finished

  /** The shuffled block handed to a call is a permutation of 0 .. N-1, as numpy.random.shuffle
      makes it. */
  predicate BlockOk<T>(datasets: seq<seq<T>>, shuffle: bool, block: seq<nat>)
  {
    shuffle && datasets != [] ==> IsPermutation(block, |datasets[0]|)
  }

  /** What the generator keeps between calls: before it starts, no queue; while it runs, the
      datasets passed the length test and every queued index is a row. */
  predicate Resumable<T>(datasets: seq<seq<T>>, phase: Phase, indices: seq<nat>)
  {
    && (phase == NotStarted ==> indices == [])
    && (phase == Running ==> CheckLengths(datasets).Ok? && Below(indices, |datasets[0]|))
  }

  /** One next() on the generator: the phase and queue afterwards, and the batch or exception.
      The length test runs on the first call; after an exception every call raises
      StopIteration. */
  function NextStep<T>(datasets: seq<seq<T>>, bs: int, shuffle: bool, phase: Phase, indices: seq<nat>, block: seq<nat>)
    : (Phase, seq<nat>, Result<seq<seq<T>>>)
    requires Resumable(datasets, phase, indices) && BlockOk(datasets, shuffle, block)
  {
    if phase == Finished then (Finished, indices, Err(StopIteration))
    else if phase == NotStarted && CheckLengths(datasets).Err? then (Finished, indices, Err(CheckLengths(datasets).error))
    else
      var (queue, r) := Iteration(datasets, |datasets[0]|, bs, shuffle, if phase == NotStarted then [] else indices, block);
      (if r.Ok? then Running else Finished, queue, r)
  }

  /** The queue stays within the rows: the block appended is a permutation of 0 .. N-1 or 0 ..
      N-1 itself. */
  lemma RefillBelow(indices: seq<nat>, n: nat, bs: int, shuffle: bool, block: seq<nat>)
    requires Below(indices, n) && (shuffle ==> IsPermutation(block, n))
    ensures Below(Refill(indices, n, bs, shuffle, block), n)
  {
  }

  /** A call keeps what the generator needs between calls. */
  lemma NextStepResumable<T>(datasets: seq<seq<T>>, bs: int, shuffle: bool, phase: Phase, indices: seq<nat>, block: seq<nat>)
    requires Resumable(datasets, phase, indices) && BlockOk(datasets, shuffle, block)
    ensures var (ph, q, _) := NextStep(datasets, bs, shuffle, phase, indices, block);
      Resumable(datasets, ph, q)
  {
    if phase != Finished && CheckLengths(datasets).Ok? {
      var n := |datasets[0]|;
      RefillBelow(if phase == NotStarted then [] else indices, n, bs, shuffle, block);
    }
  }

  /** iterate_minibatches_indefinitely over the datasets of one file. */
  class IndefiniteMinibatches<T> {
    const datasets: seq<seq<T>>
    const batchSize: int
    const shuffle: bool
    var phase: Phase
    var indices: seq<nat>

    predicate Valid()
      reads this
    {
      Resumable(datasets, phase, indices)
    }

    /** Creating the generator runs none of its body. */
    constructor(datasets: seq<seq<T>>, batchSize: Option<int>, shuffle: bool)
      ensures Valid()
      ensures this.datasets == datasets && this.batchSize == EffectiveBatchSize(batchSize) && this.shuffle == shuffle
      ensures phase == NotStarted && indices == []
    {
      this.datasets := datasets;
      this.batchSize := EffectiveBatchSize(batchSize);
      this.shuffle := shuffle;
      phase := NotStarted;
      indices := [];
    }

    /** next() on the generator; block is the order numpy.random.shuffle gives the block when
        the queue is refilled in shuffled mode. */
    method Next(block: seq<nat>) returns (r: Result<seq<seq<T>>>)
      requires Valid() && BlockOk(datasets, shuffle, block)
      modifies this
      ensures Valid()
      ensures (phase, indices, r) == NextStep(datasets, batchSize, shuffle, old(phase), old(indices), block)
    {
      NextStepResumable(datasets, batchSize, shuffle, phase, indices, block);
      if phase == Finished {
        r := Err(StopIteration);
        return;
      }
      if phase == NotStarted {
        var lengths := CheckLengths(datasets);
        if lengths.Err? {
          phase := Finished;
          r := Err(lengths.error);
          return;
        }
        indices := [];
        phase := Running;
      }
      var queue, batch := Pass(datasets, |datasets[0]|, batchSize, shuffle, indices, block);
      indices := queue;
      phase := if batch.Ok? then Running else Finished;
      r := batch;
    }
  }

  /** One pass of the generator's loop: refill the queue when it holds fewer than a batch, read
      the batch, and drop the indices served. */
  method Pass<T>(datasets: seq<seq<T>>, n: nat, bs: int, shuffle: bool, indices: seq<nat>, block: seq<nat>)
    returns (queue: seq<nat>, batch: Result<seq<seq<T>>>)
    requires datasets != [] && Uniform(datasets, n) && Below(indices, n) && (shuffle ==> IsPermutation(block, n))
    ensures (queue, batch) == Iteration(datasets, n, bs, shuffle, indices, block)
  {
    queue := indices;
    if |queue| < bs {
      var newIndices := if shuffle then block else Range(0, n);
      queue := queue + newIndices;
    }
    RefillBelow(indices, n, bs, shuffle, block);
    var k := PrefixLength(|queue|, bs);
    var excerpt := queue[..k];
    if shuffle {
      batch := ReadShuffled(datasets, n, bs, excerpt);
    } else {
      batch := Ok(UnshuffledBatch(datasets, n, bs));
    }
    if batch.Ok? {
      queue := queue[k..];
    }
  }

  /** The shuffled branch of the loop: argsort the excerpt, fill unsort_inds, read the datasets
      at the sorted indices and put the rows back in place. */
  method ReadShuffled<T>(datasets: seq<seq<T>>, n: nat, bs: int, excerpt: seq<nat>) returns (batch: Result<seq<seq<T>>>)
    requires datasets != [] && Uniform(datasets, n) && Below(excerpt, n)
    ensures batch == ShuffledBatch(datasets, n, bs, excerpt)
  {
    var sortInds := ArgSort(excerpt);
    var unsort := ScatterLoop(sortInds, bs);
    if unsort.Err? {
      assert Scatter(ArgSort(excerpt), bs).Err?;
      assert ShuffledBatch(datasets, n, bs, excerpt) == Err(unsort.error);
      return Err(unsort.error);
    }
    var sorted := seq(|excerpt|, m requires 0 <= m < |excerpt| => excerpt[sortInds[m]]);
    assert sorted == SortedExcerpt(excerpt);
    var failure := UnpermuteError(|sorted|, unsort.value);
    if failure.Some? {
      assert Scatter(ArgSort(excerpt), bs) == Ok(unsort.value);
      assert ShuffledBatch(datasets, n, bs, excerpt) == Err(failure.value);
      return Err(failure.value);
    }
    var rows := seq(|datasets|, d requires 0 <= d < |datasets| => Rows(datasets[d], sorted));
    var restored := seq(|datasets|, d requires 0 <= d < |datasets| => Unpermuted(rows[d], unsort.value));
    ghost var spec := ShuffledBatch(datasets, n, bs, excerpt);
    assert spec.Ok? && |spec.value| == |restored|;
    forall d | 0 <= d < |datasets| ensures restored[d] == spec.value[d] {
      assert rows[d] == Rows(datasets[d], SortedExcerpt(excerpt));
    }
    assert restored == spec.value;
    batch := Ok(restored);
  }

  // ----- what a call does -----

  /** Reading the sorted excerpt and indexing by the inverse of the sort gives the rows in the
      excerpt's own order: for a full excerpt of batch_size indices, dataset d of the batch is
      datum[excerpt[0]], datum[excerpt[1]], ... */
  lemma ShuffledBatchInQueueOrder<T>(datasets: seq<seq<T>>, n: nat, bs: nat, excerpt: seq<nat>)
    requires Uniform(datasets, n) && Below(excerpt, n) && |excerpt| == bs
    ensures ShuffledBatch(datasets, n, bs, excerpt).Ok?
    ensures ShuffledBatch(datasets, n, bs, excerpt).value == seq(|datasets|, d requires 0 <= d < |datasets| => Rows(datasets[d], excerpt))
  {
    var p := ArgSort(excerpt);
    ScatterInverts(p, bs);
    var u := Scatter(p, bs).value;
    var sorted := SortedExcerpt(excerpt);
    // every entry of u is set: p takes every position
    forall m | 0 <= m < bs ensures 0 <= u[m] < bs && p[u[m]] == m {
      PermutationCovers(p, bs, m);
      var j :| 0 <= j < |p| && p[j] == m;
    }
    assert UnpermuteError(|sorted|, u).None?;
    var b := ShuffledBatch(datasets, n, bs, excerpt).value;
    forall d | 0 <= d < |datasets| ensures b[d] == Rows(datasets[d], excerpt) {
      var rows := Rows(datasets[d], sorted);
      forall m | 0 <= m < bs ensures Unpermuted(rows, u)[m] == datasets[d][excerpt[m]] {
        assert sorted[u[m]] == excerpt[p[u[m]]];
      }
    }
  }

  /** With 1 <= batch_size <= N, a call on a running generator succeeds and consumes exactly the
      first batch_size queued indices, after the refill: the queue before plus the block
      appended is the indices served followed by the queue after. Shuffled, the batch holds the
      rows at those indices, in queue order; unshuffled, it holds rows 0 .. batch_size-1 of
      every dataset, whatever the queue holds. */
  lemma IterationConsumesBatch<T>(datasets: seq<seq<T>>, n: nat, bs: int, shuffle: bool, indices: seq<nat>, block: seq<nat>)
    requires Uniform(datasets, n) && Below(indices, n) && (shuffle ==> IsPermutation(block, n))
    requires 1 <= bs <= n
    ensures var queue := Refill(indices, n, bs, shuffle, block);
      var (after, r) := Iteration(datasets, n, bs, shuffle, indices, block);
      && bs <= |queue|
      && queue == indices + (if |indices| < bs then (if shuffle then block else Range(0, n)) else [])
      && queue[..bs] + after == queue
      && r.Ok? && |r.value| == |datasets|
      && (shuffle ==> r.value == seq(|datasets|, d requires 0 <= d < |datasets| => Rows(datasets[d], queue[..bs])))
      && (!shuffle ==> r.value == seq(|datasets|, d requires 0 <= d < |datasets| => datasets[d][..bs]))
  {
    var queue := Refill(indices, n, bs, shuffle, block);
    RefillBelow(indices, n, bs, shuffle, block);
    assert bs <= |queue|;
    assert PrefixLength(|queue|, bs) == bs;
    assert queue[..bs] + queue[bs..] == queue;
    var (after, r) := Iteration(datasets, n, bs, shuffle, indices, block);
    if shuffle {
      assert Below(queue[..bs], n);
      ShuffledBatchInQueueOrder(datasets, n, bs, queue[..bs]);
      assert r == ShuffledBatch(datasets, n, bs, queue[..bs]);
    } else {
      assert PrefixLength(n, bs) == bs;
      assert r == Ok(UnshuffledBatch(datasets, n, bs));
    }
    assert after == queue[bs..];
  }

  /** An excerpt shorter than batch_size cannot be put back: unsort_inds has batch_size
      entries, all -1 for an empty excerpt (an index out of range for no rows), and otherwise
      more rows than the excerpt and more than one. */
  lemma ShortExcerptFails<T>(datasets: seq<seq<T>>, n: nat, bs: int, excerpt: seq<nat>)
    requires datasets != [] && Uniform(datasets, n) && Below(excerpt, n) && |excerpt| < bs
    ensures excerpt == [] ==> ShuffledBatch(datasets, n, bs, excerpt) == Err(IndexError)
    ensures excerpt != [] ==> ShuffledBatch(datasets, n, bs, excerpt) == Err(AssignBroadcastError)
  {
    var p := ArgSort(excerpt);
    ScatterInverts(p, bs);
    var u := Scatter(p, bs).value;
    var m := |SortedExcerpt(excerpt)|;
    if excerpt == [] {
      assert u[0] == -1;
      assert UnpermuteError(m, u) == Some(IndexError);
    } else {
      forall j | 0 <= j < |u| ensures -(m as int) <= u[j] < m {
      }
      assert UnpermuteError(m, u) == Some(AssignBroadcastError);
    }
  }

  /** When even the refilled queue holds fewer than batch_size indices (batch_size > N plus what
      was left), the shuffled mode fails when it puts the rows back: with nothing to read,
      unsort_inds holds only -1 and indexing raises IndexError; otherwise the batch_size rows
      read do not fit the fewer rows of the excerpt and the assignment raises ValueError. The
      unshuffled mode reads the min(batch_size, N) rows there are. */
  lemma ShortQueue<T>(datasets: seq<seq<T>>, n: nat, bs: int, shuffle: bool, indices: seq<nat>, block: seq<nat>)
    requires Uniform(datasets, n) && Below(indices, n) && (shuffle ==> IsPermutation(block, n))
    requires datasets != [] && |Refill(indices, n, bs, shuffle, block)| < bs
    ensures var queue := Refill(indices, n, bs, shuffle, block);
      var r := Iteration(datasets, n, bs, shuffle, indices, block).1;
      && (shuffle && queue == [] ==> r == Err(IndexError))
      && (shuffle && queue != [] ==> r == Err(AssignBroadcastError))
      && (!shuffle ==> r.Ok? && forall d :: 0 <= d < |datasets| ==> r.value[d] == datasets[d])
  {
    var queue := Refill(indices, n, bs, shuffle, block);
    RefillBelow(indices, n, bs, shuffle, block);
    assert |indices| < bs && |queue| >= n;
    var r := Iteration(datasets, n, bs, shuffle, indices, block).1;
    if shuffle {
      assert queue[..PrefixLength(|queue|, bs)] == queue;
      ShortExcerptFails(datasets, n, bs, queue);
    } else {
      assert PrefixLength(n, bs) == n;
      forall d | 0 <= d < |datasets| ensures r.value[d] == datasets[d] {
        assert datasets[d][..n] == datasets[d];
      }
    }
  }
}
