/** The pre-flight check of the bilinear solver: every output pair must name the prediction layer
    of a bilinear transition and its current-time input, as (pred, (curr, 1)) or ((curr, 1), pred).
    The second form is reversed in place, which fails for a tuple. Any failure is reported as a
    NotImplementedError naming the pair. The message is built with the % operator, so a tuple pair
    of length other than 1 becomes a TypeError. */
module BilinearPreflight {
  import opened Errors
  import opened OutputNames
  import Decimal

  type LayerId = nat

  /** The part of the network the check looks at: the layer each name refers to, each layer's
      input layers (absent for a layer without input_layers), and the bilinear layers, each
      mapped to whether it has a bias parameter. */
  datatype LayerGraph = LayerGraph(
    predLayers: map<string, LayerId>,
    inputLayers: map<LayerId, seq<LayerId>>,
    bilinear: map<LayerId, bool>)

  /** What unpacking the pair gave: the prediction name, the (curr, offset) item, and the pair as
      it now stands (reversed in place when the second form matched). */
  datatype Unpacked = Unpacked(nextPred: NameRef, currItem: NameRef, entry: OutputEntry)

  /** A pair accepted by the check: the current-time name and the bilinear layer. */
  datatype Accepted = Accepted(currName: string, layer: LayerId)

  /** Whether an item unpacks into exactly two values: a nested (name, time) pair, or a
      two-character string (which unpacks into its characters). */
  predicate UnpacksInTwo(n: NameRef)
  {
    n.Timed? || (n.Plain? && |n.name| == 2)
  }

  /** The two tuple unpackings of the check, with the in-place reversal after the second. A tuple
      cannot be assigned to, so reversing one fails. */
  function Unpack(e: OutputEntry): (r: Option<Unpacked>)
    ensures r.Some? ==> e.Sequence? && |e.items| == 2
  {
    if !(e.Sequence? && |e.items| == 2) then None
    else if UnpacksInTwo(e.items[1]) then Some(Unpacked(e.items[0], e.items[1], e))
    else if UnpacksInTwo(e.items[0]) && e.kind == ListSeq then
      Some(Unpacked(e.items[1], e.items[0], Sequence([e.items[1], e.items[0]], ListSeq)))
    else None
  }

  /** The layer graph tests on an unpacked pair: offset 1, a prediction layer with exactly two
      input layers, the first being the current-time layer and the second a bilinear layer. */
  function CheckLayers(u: Unpacked, g: LayerGraph): Option<Accepted>
  {
    if !(u.currItem.Timed? && u.currItem.time == 1) then None
    else if !(u.nextPred.Plain? && u.nextPred.name in g.predLayers) then None
    else
      var pred := g.predLayers[u.nextPred.name];
      if !(pred in g.inputLayers && |g.inputLayers[pred]| == 2) then None
      else
        var curr := u.currItem.name;
        var ins := g.inputLayers[pred];
        if !(curr in g.predLayers && ins[0] == g.predLayers[curr] && ins[1] in g.bilinear) then None
        else Some(Accepted(curr, ins[1]))
  }

  function QuotedName(s: string): string
  {
    "'" + s + "'"
  }

  /** The rendering of one name in the error message. */
  function ItemText(n: NameRef): string
  {
    match n
    case Plain(s) => QuotedName(s)
    case Timed(s, t) => "(" + QuotedName(s) + ", " + Decimal.IntToString(t) + ")"
    case Malformed(k) => "<" + Decimal.NatToString(k) + " values>"
  }

  function ItemsText(items: seq<NameRef>): string
  {
    if items == [] then ""
    else if |items| == 1 then ItemText(items[0])
    else ItemsText(items[..|items| - 1]) + ", " + ItemText(items[|items| - 1])
  }

  /** The rendering of a pair in the error message: a list in brackets and any other value as an
      object. */
  function EntryText(e: OutputEntry): string
  {
    match e
    case Sequence(items, ListSeq) => "[" + ItemsText(items) + "]"
    case Sequence(items, TupleSeq) => "(" + ItemsText(items) + ")"
    case Other => "<object>"
  }

  const PairErrorPrefix := "bilinear solver for output pair "

  /** The exception leaving the check for a rejected pair, given the pair as it then stands.
      Formatting a tuple with % uses its elements as the arguments, so only a one-element tuple
      formats, and any other tuple raises TypeError in the formatting itself. */
  function PairError(e: OutputEntry): Error
  {
    match e
    case Sequence(items, TupleSeq) =>
      if |items| == 1 then NotImplementedError(PairErrorPrefix + ItemText(items[0])) else TypeError
    case _ => NotImplementedError(PairErrorPrefix + EntryText(e))
  }

  /** The check of one pair: the acceptance, or the error; and the pair as it then stands. */
  function CheckPair(e: OutputEntry, g: LayerGraph): (OutputEntry, Result<Accepted>)
  {
    match Unpack(e)
    case None => (e, Err(PairError(e)))
    case Some(u) =>
      match CheckLayers(u, g)
      case None => (u.entry, Err(PairError(u.entry)))
      case Some(a) => (u.entry, Ok(a))
  }

  /** The first accepted shape, (pred, (curr, 1)), as a list or a tuple. */
  predicate Canonical(e: OutputEntry, pred: string, curr: string)
  {
    e.Sequence? && e.items == [Plain(pred), Timed(curr, 1)]
  }

  predicate Transition(g: LayerGraph, pred: string, curr: string, layer: LayerId)
  {
    && pred in g.predLayers && curr in g.predLayers
    && g.predLayers[pred] in g.inputLayers
    && g.inputLayers[g.predLayers[pred]] == [g.predLayers[curr], layer]
    && layer in g.bilinear
  }

  /** The second shape. A two-character prediction name is taken by the first unpacking as a
      (curr, offset) pair of characters, so that pair fails the offset test instead. */
  predicate Reversed(e: OutputEntry, pred: string, curr: string)
  {
    e == Sequence([Timed(curr, 1), Plain(pred)], ListSeq) && |pred| != 2
  }

  /** A pair is accepted exactly when it has one of the two shapes for a transition of the graph;
      the accepted pair then stands in the first shape, reversed when it came in the second. */
  lemma CheckPairAccepts(e: OutputEntry, g: LayerGraph)
    ensures CheckPair(e, g).1.Ok? <==>
      exists pred, curr, layer :: Transition(g, pred, curr, layer) && (Canonical(e, pred, curr) || Reversed(e, pred, curr))
    ensures CheckPair(e, g).1.Ok? ==>
      var a := CheckPair(e, g).1.value;
      var pred := CheckPair(e, g).0.items[0].name;
      && CheckPair(e, g).0.Sequence?
      && Transition(g, pred, a.currName, a.layer)
      && Canonical(CheckPair(e, g).0, pred, a.currName)
      && (Canonical(e, pred, a.currName) ==> CheckPair(e, g).0 == e)
      && (Reversed(e, pred, a.currName) ==> CheckPair(e, g).0 == Sequence([e.items[1], e.items[0]], ListSeq))
  {
    if CheckPair(e, g).1.Ok? {
      var u := Unpack(e).value;
      var a := CheckPair(e, g).1.value;
      var pred := u.nextPred.name;
      assert Transition(g, pred, a.currName, a.layer);
      if UnpacksInTwo(e.items[1]) {
        assert Canonical(e, pred, a.currName);
      } else {
        assert Reversed(e, pred, a.currName);
      }
    }
    if exists pred, curr, layer :: Transition(g, pred, curr, layer) && (Canonical(e, pred, curr) || Reversed(e, pred, curr)) {
      var pred, curr, layer :| Transition(g, pred, curr, layer) && (Canonical(e, pred, curr) || Reversed(e, pred, curr));
      if Canonical(e, pred, curr) {
        assert Unpack(e) == Some(Unpacked(Plain(pred), Timed(curr, 1), e));
      } else {
        assert Unpack(e) == Some(Unpacked(Plain(pred), Timed(curr, 1), Sequence([Plain(pred), Timed(curr, 1)], ListSeq)));
      }
    }
  }

  /** An accepted pair, once in its first shape, is accepted again unchanged with the same
      result: the reversal happens at most once. */
  lemma CheckPairIdempotent(e: OutputEntry, g: LayerGraph)
    requires CheckPair(e, g).1.Ok?
    ensures CheckPair(CheckPair(e, g).0, g) == (CheckPair(e, g).0, CheckPair(e, g).1)
  {
    CheckPairAccepts(e, g);
  }

  /** A tuple pair that is rejected, whatever the reason, leaves the check as a TypeError unless
      it has exactly one element. */
  lemma RejectedTupleIsTypeError(items: seq<NameRef>, g: LayerGraph)
    requires |items| != 1
    requires CheckPair(Sequence(items, TupleSeq), g).1.Err?
    ensures CheckPair(Sequence(items, TupleSeq), g).1.error == TypeError
  {
  }

  /** A rejected list or non-sequence value raises NotImplementedError naming it. */
  lemma RejectedListIsNotImplemented(e: OutputEntry, g: LayerGraph)
    requires !(e.Sequence? && e.kind == TupleSeq)
    requires CheckPair(e, g).1.Err?
    ensures CheckPair(e, g).1.error.NotImplementedError?
    ensures CheckPair(e, g).1.error.msg == PairErrorPrefix + EntryText(CheckPair(e, g).0)
  {
  }

  /** The check of all pairs, in order, stopping at the first rejection: the pairs as they then
      stand, and the current-time names and bilinear layers of the accepted pairs. */
  function Preflight(entries: seq<OutputEntry>, g: LayerGraph): (r: (seq<OutputEntry>, Result<seq<Accepted>>))
    ensures |r.0| == |entries|
    ensures r.1.Ok? ==> |r.1.value| == |entries|
  {
    if entries == [] then ([], Ok([]))
    else
      var (pre, res) := Preflight(entries[..|entries| - 1], g);
      var last := entries[|entries| - 1];
      if res.Err? then (pre + [last], res)
      else
        var (e', a) := CheckPair(last, g);
        match a
        case Err(err) => (pre + [e'], Err(err))
        case Ok(acc) => (pre + [e'], Ok(res.value + [acc]))
  }

  /** A successful check accepts every pair, in order, leaving each in its first shape. */
  lemma {:induction false} PreflightAccepts(entries: seq<OutputEntry>, g: LayerGraph)
    requires Preflight(entries, g).1.Ok?
    ensures var (es, r) := Preflight(entries, g);
      forall k :: 0 <= k < |entries| ==> CheckPair(entries[k], g) == (es[k], Ok(r.value[k]))
  {
    if entries != [] {
      var init := entries[..|entries| - 1];
      PreflightAccepts(init, g);
      var (es, r) := Preflight(entries, g);
      var (pes, pr) := Preflight(init, g);
      forall k | 0 <= k < |entries| ensures CheckPair(entries[k], g) == (es[k], Ok(r.value[k])) {
        if k < |init| {
          assert entries[k] == init[k] && es[k] == pes[k] && r.value[k] == pr.value[k];
        }
      }
    }
  }

  /** Running the check again after a successful one changes nothing and accepts the same
      layers: only the first cycle of step reverses pairs. */
  lemma {:induction false} PreflightIdempotent(entries: seq<OutputEntry>, g: LayerGraph)
    requires Preflight(entries, g).1.Ok?
    ensures Preflight(Preflight(entries, g).0, g) == Preflight(entries, g)
  {
    if entries != [] {
      var init := entries[..|entries| - 1];
      var (es, r) := Preflight(entries, g);
      var (pes, pr) := Preflight(init, g);
      PreflightIdempotent(init, g);
      CheckPairIdempotent(entries[|entries| - 1], g);
      assert es[..|es| - 1] == pes;
    }
  }
}
