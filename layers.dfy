/** The shape arithmetic of the two custom layers of the Theano predictor: Deconv2DLayer, a
    transposed convolution that remembers its original filter, stride and padding, and
    BilinearLayer, which predicts y_diff[i] = sum_{j,k} M[i][j][k] y[j] u[k] + sum_k N[i][k] u[k]
    + b[i] from a feature vector y and a control u. */
module Layers {
  import opened Errors
  import opened Numeric

  // ----- arguments -----

  /** An integer argument given as one value or as an iterable of values. */
  datatype IntArg = One(i: int) | Many(items: seq<int>)

  /** A value where the code expects an int: an int, or a value of another type. */
  datatype Num = Int(i: int) | NonInt

  /** The pad argument of Deconv2DLayer: a string, one value, or an iterable of values. */
  datatype PadArg = PadName(name: string) | PadOne(x: Num) | PadMany(items: seq<Num>)

  const TupleLengthError := ValueError("expected a single value or an iterable with length 2")

  /** lasagne's as_tuple(x, 2): one value is repeated, an iterable must have two items. */
  function AsPair(x: IntArg): (r: Result<(int, int)>)
    ensures r.Err? <==> x.Many? && |x.items| != 2
    ensures r.Err? ==> r.error == TupleLengthError
    ensures x.One? ==> r == Ok((x.i, x.i))
    ensures x.Many? && |x.items| == 2 ==> r == Ok((x.items[0], x.items[1]))
  {
    match x
    case One(i) => Ok((i, i))
    case Many(items) => if |items| == 2 then Ok((items[0], items[1])) else Err(TupleLengthError)
  }

  predicate AllInts(items: seq<Num>)
  {
    forall k :: 0 <= k < |items| ==> items[k].Int?
  }

  /** lasagne's as_tuple(x, 2, int) on a sequence of items: the type test comes first, then the
      length test. */
  function AsIntPair(items: seq<Num>): Result<(int, int)>
  {
    if !AllInts(items) then Err(TypeError)
    else if |items| != 2 then Err(TupleLengthError)
    else Ok((items[0].i, items[1].i))
  }

  // ----- Deconv2DLayer -----

  /** The padding Deconv2DLayer remembers: two integers, or the name 'full' or 'same' itself. */
  datatype Pad = Explicit(p0: int, p1: int) | Named(name: string)

  datatype Deconv = Deconv(channels: int, filter: (int, int), stride: (int, int), pad: Pad)

  /** The pad normalisation of the constructor: 'valid' is (0, 0); 'full' and 'same' are kept
      as strings; anything else goes through as_tuple(pad, 2, int), where a string is the
      sequence of its characters. */
  function NormalisePad(pad: PadArg): Result<Pad>
  {
    match pad
    case PadName(s) =>
      if s == "valid" then Ok(Explicit(0, 0))
      else if s == "full" || s == "same" then Ok(Named(s))
      else if s != [] then Err(TypeError)
      else Err(TupleLengthError)
    case PadOne(x) => if x.Int? then Ok(Explicit(x.i, x.i)) else Err(TypeError)
    case PadMany(items) =>
      match AsIntPair(items)
      case Err(e) => Err(e)
      case Ok(p) => Ok(Explicit(p.0, p.1))
  }

  /** Deconv2DLayer.__init__: the filter size, then the stride, then the pad are normalised, in
      that order, and the first failure is raised. */
  function NewDeconv(channels: int, filterSize: IntArg, stride: IntArg, pad: PadArg): (r: Result<Deconv>)
    ensures r.Ok? <==> AsPair(filterSize).Ok? && AsPair(stride).Ok? && NormalisePad(pad).Ok?
    ensures r.Ok? ==> r.value == Deconv(channels, AsPair(filterSize).value, AsPair(stride).value, NormalisePad(pad).value)
    ensures AsPair(filterSize).Err? ==> r == Err(AsPair(filterSize).error)
    ensures AsPair(filterSize).Ok? && AsPair(stride).Err? ==> r == Err(AsPair(stride).error)
  {
    match AsPair(filterSize)
    case Err(e) => Err(e)
    case Ok(f) =>
      match AsPair(stride)
      case Err(e) => Err(e)
      case Ok(s) =>
        match NormalisePad(pad)
        case Err(e) => Err(e)
        case Ok(p) => Ok(Deconv(channels, f, s, p))
  }

  /** Which pads the constructor accepts, and what it keeps for each: 'valid' is padding 0,
      a single int p is (p, p), a pair of ints is kept, 'full' and 'same' are kept by name; other
      strings and non-int values are a TypeError, and an int sequence of another length a
      ValueError. */
  lemma NormalisePadCases(pad: PadArg)
    ensures pad == PadName("valid") ==> NormalisePad(pad) == Ok(Explicit(0, 0))
    ensures pad.PadName? && (pad.name == "full" || pad.name == "same") ==> NormalisePad(pad) == Ok(Named(pad.name))
    ensures pad.PadName? && pad.name !in {"valid", "full", "same", ""} ==> NormalisePad(pad) == Err(TypeError)
    ensures pad.PadOne? ==> NormalisePad(pad) == if pad.x.Int? then Ok(Explicit(pad.x.i, pad.x.i)) else Err(TypeError)
    ensures pad.PadMany? && AllInts(pad.items) && |pad.items| == 2 ==>
      NormalisePad(pad) == Ok(Explicit(pad.items[0].i, pad.items[1].i))
    ensures pad.PadMany? && !AllInts(pad.items) ==> NormalisePad(pad) == Err(TypeError)
    ensures pad.PadMany? && AllInts(pad.items) && |pad.items| != 2 ==> NormalisePad(pad) == Err(TupleLengthError)
    ensures NormalisePad(pad).Ok? && NormalisePad(pad).value.Named? ==> NormalisePad(pad).value.name in {"full", "same"}
  {
  }

  /** One spatial size of a transposed convolution: (w - 1) * stride - 2 * pad + filter. */
  function DeconvSize(w: int, stride: int, pad: int, filter: int): int
  {
    (w - 1) * stride - 2 * pad + filter
  }

  const UnpackError := ValueError("wrong number of values to unpack")

  /** Deconv2DLayer.get_output_shape_for. The shape must have four entries; the batch size is
      kept, the channels are the layer's, and each spatial size is the transposed convolution of
      the input's. An unknown (None) spatial size, or a pad kept by name, makes the arithmetic
      raise TypeError. */
  function DeconvOutputShape(d: Deconv, inputShape: seq<Option<int>>): (r: Result<seq<Option<int>>>)
    ensures r.Err? <==> |inputShape| != 4 || inputShape[2].None? || inputShape[3].None? || d.pad.Named?
    ensures |inputShape| != 4 ==> r == Err(UnpackError)
    ensures |inputShape| == 4 && r.Err? ==> r == Err(TypeError)
    ensures r.Ok? ==> |r.value| == 4 && r.value[0] == inputShape[0] && r.value[1] == Some(d.channels)
  {
    if |inputShape| != 4 then Err(UnpackError)
    else if inputShape[2].None? || inputShape[3].None? || d.pad.Named? then Err(TypeError)
    else
      Ok([inputShape[0], Some(d.channels),
          Some(DeconvSize(inputShape[2].value, d.stride.0, d.pad.p0, d.filter.0)),
          Some(DeconvSize(inputShape[3].value, d.stride.1, d.pad.p1, d.filter.1))])
  }

  /** lasagne's conv_output_length for an integer pad: (w + 2 * pad - filter) // stride + 1. The
      convolution is lasagne's and not part of this model; the size is what the transposed
      convolution inverts. */
  function ConvSize(w: int, stride: int, pad: int, filter: int): int
    requires stride > 0
  {
    FloorDiv(w + 2 * pad - filter, stride) + 1
  }

  /** The transposed convolution inverts the convolution's size exactly when the convolution's
      stride divides the padded extent; otherwise it comes back short by the remainder. */
  lemma DeconvInvertsConv(w: int, stride: int, pad: int, filter: int)
    requires stride > 0
    ensures DeconvSize(ConvSize(w, stride, pad, filter), stride, pad, filter) == w - (w + 2 * pad - filter) % stride
    ensures DeconvSize(ConvSize(w, stride, pad, filter), stride, pad, filter) == w <==> (w + 2 * pad - filter) % stride == 0
  {
    var e := w + 2 * pad - filter;
    var q := FloorDiv(e, stride);
    assert q == e / stride;
    assert e == q * stride + e % stride;
    assert (q + 1 - 1) * stride == q * stride;
  }

  /** The encoder's convolutions (filter 6, stride 2, pad 2) halve a size, rounding down, as the
      hand-computed shapes x_shape[i] // 2 take for granted; the decoder's transposed convolutions with the
      same settings double it. */
  lemma EncoderSizes(w: int)
    ensures ConvSize(w, 2, 2, 6) == FloorDiv(w, 2)
    ensures DeconvSize(w, 2, 2, 6) == 2 * w
  {
    assert FloorDiv(w - 2, 2) == FloorDiv(w, 2) - 1;
  }

  /** The decoder of the small action-conditional encoder net: two Deconv2DLayers with filter 6,
      stride 2 and pad 2 applied to the shape (batch, c, x // 2 // 2, y // 2 // 2). */
  function DecodedShape(batch: Option<int>, c: int, x: int, y: int): Result<seq<Option<int>>>
  {
    var layer := Deconv(c, (6, 6), (2, 2), Explicit(2, 2));
    match DeconvOutputShape(layer, [batch, Some(c), Some(FloorDiv(FloorDiv(x, 2), 2)), Some(FloorDiv(FloorDiv(y, 2), 2))])
    case Err(e) => Err(e)
    case Ok(s1) => DeconvOutputShape(layer, s1)
  }

  /** The decoder gives the input's spatial sizes back exactly when both are multiples of 4
      (the loss subtracts the prediction from the next image, so other sizes do not match),
      and 4 * (x // 4) in general. */
  lemma DecodedShapeRestores(batch: Option<int>, c: int, x: int, y: int)
    ensures DecodedShape(batch, c, x, y).Ok?
    ensures DecodedShape(batch, c, x, y).value == [batch, Some(c), Some(4 * FloorDiv(x, 4)), Some(4 * FloorDiv(y, 4))]
    ensures DecodedShape(batch, c, x, y).value == [batch, Some(c), Some(x), Some(y)] <==> x % 4 == 0 && y % 4 == 0
  {
    QuarterSize(x);
    QuarterSize(y);
    EncoderSizes(FloorDiv(FloorDiv(x, 2), 2));
    EncoderSizes(2 * FloorDiv(FloorDiv(x, 2), 2));
    EncoderSizes(FloorDiv(FloorDiv(y, 2), 2));
    EncoderSizes(2 * FloorDiv(FloorDiv(y, 2), 2));
  }

  /** Halving twice, rounding down, is dividing by 4; 4 * (x // 4) is x exactly for multiples of 4. */
  lemma QuarterSize(x: int)
    ensures FloorDiv(FloorDiv(x, 2), 2) == FloorDiv(x, 4)
    ensures 4 * FloorDiv(x, 4) == x <==> x % 4 == 0
  {
  }

  // ----- BilinearLayer -----

  /** A lasagne shape: the batch size (None when unknown) and the other dimensions. */
  datatype Shape = Shape(batch: Option<int>, dims: seq<int>)

  /** The layer as built: the shape of y (without batch), the size of u, and whether it has b. */
  datatype Bilinear = Bilinear(yShape: seq<int>, uDim: int, hasBias: bool)

  /** numpy.prod of a shape; 1 for the empty shape. */
  function Product(dims: seq<int>): int
  {
    if dims == [] then 1 else Product(dims[..|dims| - 1]) * dims[|dims| - 1]
  }

  function YDim(l: Bilinear): int
  {
    Product(l.yShape)
  }

  /** BilinearLayer.__init__: exactly two incoming layers, the first giving y and the second u,
      which must be a vector (u_dim, = u_shape). b=None builds the layer without bias. */
  function NewBilinear(inputShapes: seq<Shape>, hasBias: bool): (r: Result<Bilinear>)
    ensures r.Ok? <==> |inputShapes| == 2 && |inputShapes[1].dims| == 1
    ensures r.Err? ==> r.error == UnpackError
    ensures r.Ok? ==> r.value.yShape == inputShapes[0].dims && r.value.uDim == inputShapes[1].dims[0]
    ensures r.Ok? ==> r.value.hasBias == hasBias
  {
    if |inputShapes| != 2 then Err(UnpackError)
    else if |inputShapes[1].dims| != 1 then Err(UnpackError)
    else Ok(Bilinear(inputShapes[0].dims, inputShapes[1].dims[0], hasBias))
  }

  /** A parameter of the layer: its name, its shape and whether it is regularised. */
  datatype Param = Param(name: string, shape: seq<int>, regularizable: bool)

  /** The parameters the constructor adds, in order: M of shape (y_dim, y_dim, u_dim), N of shape
      (y_dim, u_dim), and, unless b is None, the unregularised bias b of shape (y_dim,). */
  function Params(l: Bilinear): (ps: seq<Param>)
    ensures |ps| == if l.hasBias then 3 else 2
    ensures ps[0] == Param("M", [YDim(l), YDim(l), l.uDim], true)
    ensures ps[1] == Param("N", [YDim(l), l.uDim], true)
    ensures l.hasBias ==> ps[2] == Param("b", [YDim(l)], false)
    ensures forall k :: 0 <= k < |ps| ==> (ps[k].regularizable <==> ps[k].name != "b")
  {
    [Param("M", [YDim(l), YDim(l), l.uDim], true), Param("N", [YDim(l), l.uDim], true)]
    + (if l.hasBias then [Param("b", [YDim(l)], false)] else [])
  }

  /** BilinearLayer.get_output_shape_for: the two batch sizes must agree (an assertion), and the
      output is (batch, y_dim). */
  function BilinearOutputShape(l: Bilinear, inputShapes: seq<Shape>): (r: Result<Shape>)
    ensures |inputShapes| != 2 ==> r == Err(UnpackError)
    ensures |inputShapes| == 2 ==>
      (r.Ok? <==> inputShapes[0].batch == inputShapes[1].batch)
      && (r.Err? ==> r.error == AssertionError)
      && (r.Ok? ==> r.value == Shape(inputShapes[0].batch, [YDim(l)]))
  {
    if |inputShapes| != 2 then Err(UnpackError)
    else if inputShapes[0].batch != inputShapes[1].batch then Err(AssertionError)
    else Ok(Shape(inputShapes[0].batch, [YDim(l)]))
  }

  /** The parameters' values. */
  datatype BilinearValues = BilinearValues(m: seq<seq<seq<real>>>, n: seq<seq<real>>, b: Option<seq<real>>)

  predicate IsMatrix(a: seq<seq<real>>, rows: nat, cols: nat)
  {
    |a| == rows && forall r :: 0 <= r < rows ==> |a[r]| == cols
  }

  /** The values have the shapes of the layer's parameters, for y_dim = yDim. */
  predicate ValuesFit(v: BilinearValues, yDim: nat, uDim: nat, hasBias: bool)
  {
    && |v.m| == yDim && (forall i :: 0 <= i < yDim ==> IsMatrix(v.m[i], yDim, uDim))
    && IsMatrix(v.n, yDim, uDim)
    && (v.b.Some? <==> hasBias) && (v.b.Some? ==> |v.b.value| == yDim)
  }

  const ShapeMismatch := ValueError("shape mismatch")

  /** One j's block of the outer product: y[j] * u[k] for each k. */
  function Block(yj: real, u: seq<real>): (o: seq<real>)
    ensures |o| == |u|
  {
    seq(|u|, k requires 0 <= k < |u| => yj * u[k])
  }

  /** The row-major flattening of the outer product of y and u (outer_YU.flatten(2) for one batch
      row): the blocks of y[0], y[1], ... one after the other. */
  function OuterFlat(y: seq<real>, u: seq<real>): (o: seq<real>)
    ensures |o| == |y| * |u|
  {
    if y == [] then []
    else
      var o := OuterFlat(y[..|y| - 1], u) + Block(y[|y| - 1], u);
      assert (|y| - 1) * |u| + |u| == |y| * |u|;
      o
  }

  /** Row i of M reshaped to (y_dim, y_dim * u_dim): the rows m_i[0], m_i[1], ... one after the
      other. */
  function ReshapedRow(mi: seq<seq<real>>, uDim: nat): (o: seq<real>)
    requires forall j :: 0 <= j < |mi| ==> |mi[j]| == uDim
    ensures |o| == |mi| * uDim
  {
    if mi == [] then []
    else
      var o := ReshapedRow(mi[..|mi| - 1], uDim) + mi[|mi| - 1];
      assert (|mi| - 1) * uDim + uDim == |mi| * uDim;
      o
  }

  /** A position in row j < m of an n-column layout lies before row m. */
  lemma RowBefore(j: nat, k: nat, m: nat, n: nat)
    requires j < m && k < n
    ensures j * n + k < m * n
  {
    assert (m - j - 1) * n >= 0;
    assert m * n == j * n + n + (m - j - 1) * n;
  }

  /** Entry j * |u| + k of the flattened outer product is y[j] * u[k], and entry j * u_dim + k of
      the reshaped row is m_i[j][k]: the row-major index arithmetic of the activation. */
  lemma {:induction false} FlatEntries(y: seq<real>, u: seq<real>, mi: seq<seq<real>>, j: nat, k: nat)
    requires |mi| == |y| && forall q :: 0 <= q < |mi| ==> |mi[q]| == |u|
    requires j < |y| && k < |u|
    ensures j * |u| + k < |y| * |u|
    ensures OuterFlat(y, u)[j * |u| + k] == y[j] * u[k]
    ensures ReshapedRow(mi, |u|)[j * |u| + k] == mi[j][k]
  {
    var m := |y| - 1;
    var f := j * |u| + k;
    var pre := OuterFlat(y[..m], u);
    var mpre := ReshapedRow(mi[..m], |u|);
    assert OuterFlat(y, u) == pre + Block(y[m], u);
    assert ReshapedRow(mi, |u|) == mpre + mi[m];
    if j == m {
      assert f == |pre| + k && f == |mpre| + k;
    } else {
      RowBefore(j, k, m, |u|);
      FlatEntries(y[..m], u, mi[..m], j, k);
      assert f < |pre| && f < |mpre|;
    }
  }

  /** The activation of one batch row: the flattened outer product dotted with row i of the
      reshaped M, plus u dotted with row i of N, plus b[i] (when the layer has a bias). */
  function ActivationRow(v: BilinearValues, y: seq<real>, u: seq<real>): (a: seq<real>)
    requires ValuesFit(v, |y|, |u|, v.b.Some?)
    ensures |a| == |y|
  {
    seq(|y|, i requires 0 <= i < |y| =>
      Dot(OuterFlat(y, u), ReshapedRow(v.m[i], |u|)) + Dot(u, v.n[i]) + (if v.b.Some? then v.b.value[i] else 0.0))
  }

  /** BilinearLayer.get_output_for on the batch Y (each row already flattened, as Y.flatten(2)
      gives) and the batch U. Inputs whose shapes do not match the parameters make the products
      fail. */
  function BilinearActivation(l: Bilinear, v: BilinearValues, ys: seq<seq<real>>, us: seq<seq<real>>): (r: Result<seq<seq<real>>>)
    ensures r.Ok? <==> (YDim(l) >= 0 && l.uDim >= 0 && ValuesFit(v, YDim(l), l.uDim, l.hasBias)
      && IsMatrix(ys, |ys|, YDim(l)) && IsMatrix(us, |ys|, l.uDim))
    ensures r.Err? ==> r.error == ShapeMismatch
    ensures r.Ok? ==> IsMatrix(r.value, |ys|, YDim(l))
  {
    if !(YDim(l) >= 0 && l.uDim >= 0) then Err(ShapeMismatch)
    else if !(ValuesFit(v, YDim(l), l.uDim, l.hasBias) && IsMatrix(ys, |ys|, YDim(l)) && IsMatrix(us, |ys|, l.uDim)) then
      Err(ShapeMismatch)
    else Ok(seq(|ys|, n requires 0 <= n < |ys| => ActivationRow(v, ys[n], us[n])))
  }

  // ----- the bilinear form, independently of the flattening -----

  /** sum_k row[k] * yj * u[k]: the terms of one j. */
  function RowTerms(row: seq<real>, yj: real, u: seq<real>): real
    requires |row| == |u|
  {
    if u == [] then 0.0 else RowTerms(row[..|u| - 1], yj, u[..|u| - 1]) + row[|u| - 1] * yj * u[|u| - 1]
  }

  /** sum_j sum_k m_i[j][k] * y[j] * u[k]. */
  function BilinearForm(mi: seq<seq<real>>, y: seq<real>, u: seq<real>): real
    requires |mi| == |y| && forall j :: 0 <= j < |mi| ==> |mi[j]| == |u|
  {
    if y == [] then 0.0
    else BilinearForm(mi[..|y| - 1], y[..|y| - 1], u) + RowTerms(mi[|y| - 1], y[|y| - 1], u)
  }

  /** Dot distributes over concatenation. */
  lemma {:induction false} DotConcat(a1: seq<real>, a2: seq<real>, b1: seq<real>, b2: seq<real>)
    requires |a1| == |b1| && |a2| == |b2|
    ensures Dot(a1 + a2, b1 + b2) == Dot(a1, b1) + Dot(a2, b2)
  {
    if a2 == [] {
      assert a1 + a2 == a1 && b1 + b2 == b1;
    } else {
      var n := |a2|;
      var a := a1 + a2;
      var b := b1 + b2;
      assert a[..|a| - 1] == a1 + a2[..n - 1];
      assert b[..|b| - 1] == b1 + b2[..n - 1];
      assert a[|a| - 1] == a2[n - 1] && b[|b| - 1] == b2[n - 1];
      DotConcat(a1, a2[..n - 1], b1, b2[..n - 1]);
      assert Dot(a, b) == Dot(a1 + a2[..n - 1], b1 + b2[..n - 1]) + a2[n - 1] * b2[n - 1];
    }
  }

  /** One j's block of the flattened product: the terms of that j. */
  lemma {:induction false} BlockDot(row: seq<real>, yj: real, u: seq<real>)
    requires |row| == |u|
    ensures Dot(Block(yj, u), row) == RowTerms(row, yj, u)
  {
    if u != [] {
      var n := |u|;
      var b := Block(yj, u);
      var c := Block(yj, u[..n - 1]);
      forall k | 0 <= k < n - 1 ensures b[..n - 1][k] == c[k] {
        assert u[..n - 1][k] == u[k];
      }
      assert b[..n - 1] == c;
      BlockDot(row[..n - 1], yj, u[..n - 1]);
    }
  }

  /** The flattened product of the activation is the bilinear form: the dot product of the
      flattened outer product with the reshaped row of M sums m_i[j][k] * y[j] * u[k] over all j
      and k. */
  lemma {:induction false} FlatDotIsBilinear(mi: seq<seq<real>>, y: seq<real>, u: seq<real>)
    requires |mi| == |y| && forall j :: 0 <= j < |mi| ==> |mi[j]| == |u|
    ensures Dot(OuterFlat(y, u), ReshapedRow(mi, |u|)) == BilinearForm(mi, y, u)
  {
    if y != [] {
      var j := |y| - 1;
      FlatDotIsBilinear(mi[..j], y[..j], u);
      DotConcat(OuterFlat(y[..j], u), Block(y[j], u), ReshapedRow(mi[..j], |u|), mi[j]);
      BlockDot(mi[j], y[j], u);
    }
  }

  /** Each output of the layer is the bilinear form of its row of M, plus the linear term of its
      row of N, plus its bias. */
  lemma BilinearActivationMeaning(l: Bilinear, v: BilinearValues, ys: seq<seq<real>>, us: seq<seq<real>>, n: nat, i: nat)
    requires BilinearActivation(l, v, ys, us).Ok?
    requires n < |ys| && i < YDim(l)
    ensures BilinearActivation(l, v, ys, us).value[n][i] ==
      BilinearForm(v.m[i], ys[n], us[n]) + Dot(us[n], v.n[i]) + (if l.hasBias then v.b.value[i] else 0.0)
  {
    FlatDotIsBilinear(v.m[i], ys[n], us[n]);
  }
}
