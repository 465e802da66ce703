/** Parsing of a solver's output names: each entry of output_names is a (prediction, target) pair
    of names; a name is either a bare layer name (time 0) or a (name, time) pair. The names are
    flattened, grouped by time, evaluated group by group, and put back in their flattened order. */
module OutputNames {
  import opened Errors
  import opened Sorting
  import Decimal

  /** One name of a pair: a bare name, a nested (name, time) pair, or a nested tuple or list
      whose length is not 2 (which cannot be unpacked into a name and a time). */
  datatype NameRef = Plain(name: string) | Timed(name: string, time: int) | Malformed(size: nat)

  /** An entry of output_names: a tuple or a list of names, or any other value. */
  datatype OutputEntry = Sequence(items: seq<NameRef>, kind: SeqKind) | Other

  datatype SeqKind = ListSeq | TupleSeq

  const PairsMessage := "output_names should be iterable of pair tuples"

  predicate PairShaped(e: OutputEntry)
  {
    e.Sequence? && |e.items| == 2
  }

  predicate WellShaped(entries: seq<OutputEntry>)
  {
    forall k :: 0 <= k < |entries| ==> PairShaped(entries[k])
  }

  /** The names of all pairs, in order: [pred0, target0, pred1, target1, ...]. */
  function Flatten(entries: seq<OutputEntry>): (names: seq<NameRef>)
    requires WellShaped(entries)
    ensures |names| == 2 * |entries|
    ensures forall k :: 0 <= k < |entries| ==>
      names[2 * k] == entries[k].items[0] && names[2 * k + 1] == entries[k].items[1]
  {
    seq(2 * |entries|, j requires 0 <= j < 2 * |entries| => entries[j / 2].items[j % 2])
  }

  /** Time index of a name; a bare name is at time 0. (Malformed names never get this far.) */
  function TimeOf(n: NameRef): int
  {
    match n
    case Plain(_) => 0
    case Timed(_, t) => t
    case Malformed(_) => 0
  }

  function NameOf(n: NameRef): string
  {
    match n
    case Plain(s) => s
    case Timed(s, _) => s
    case Malformed(_) => ""
  }

  predicate Supported(t: int)
  {
    t == 0 || t == 1
  }

  /** Error raised when a nested name cannot be unpacked into exactly two values. */
  function UnpackError(size: nat): Error
  {
    if size > 2 then ValueError("too many values to unpack (expected 2)")
    else ValueError("not enough values to unpack (expected 2, got " + Decimal.NatToString(size) + ")")
  }

  /** Value of a name: names at time 0 are predicted from the current inputs, names at time 1
      from the next observation. */
  function Output<O>(n: NameRef, predict0: string -> O, predict1: string -> O): O
  {
    if TimeOf(n) == 0 then predict0(NameOf(n)) else predict1(NameOf(n))
  }

  /** The (index, name) entries of the names at time t, in flattened order. */
  function Group(ns: seq<NameRef>, t: int): (g: seq<(int, string)>)
  {
    if ns == [] then []
    else
      var last := ns[|ns| - 1];
      Group(ns[..|ns| - 1], t) + (if TimeOf(last) == t then [(|ns| - 1, NameOf(last))] else [])
  }

  /** The distinct times of ns in order of first occurrence (the key order of the grouping dict). */
  function TimesInOrder(ns: seq<NameRef>): (ts: seq<int>)
  {
    if ns == [] then []
    else
      var pre := TimesInOrder(ns[..|ns| - 1]);
      var t := TimeOf(ns[|ns| - 1]);
      if t in pre then pre else pre + [t]
  }

  /** e is the index and name of an element of ns at time t. */
  predicate GroupEntryAt(ns: seq<NameRef>, t: int, e: (int, string))
  {
    0 <= e.0 < |ns| && TimeOf(ns[e.0]) == t && e.1 == NameOf(ns[e.0])
  }

  /** Each entry of a group is a name at that time, with its own index and name. */
  lemma {:induction false} GroupElements(ns: seq<NameRef>, t: int)
    ensures forall q :: 0 <= q < |Group(ns, t)| ==> GroupEntryAt(ns, t, Group(ns, t)[q])
  {
    if ns != [] {
      var pre := ns[..|ns| - 1];
      GroupElements(pre, t);
      var g := Group(ns, t);
      var gp := Group(pre, t);
      forall q | 0 <= q < |g| ensures GroupEntryAt(ns, t, g[q]) {
        if q < |gp| {
          assert g[q] == gp[q];
          assert ns[gp[q].0] == pre[gp[q].0];
        }
      }
    }
  }

  /** Every name at time t is in its group. */
  lemma {:induction false} GroupCovers(ns: seq<NameRef>, t: int)
    ensures forall j :: 0 <= j < |ns| && TimeOf(ns[j]) == t ==> HasKey(Group(ns, t), j)
  {
    if ns != [] {
      var pre := ns[..|ns| - 1];
      GroupCovers(pre, t);
      var g := Group(ns, t);
      var gp := Group(pre, t);
      assert g[..|gp|] == gp;
      forall j | 0 <= j < |ns| && TimeOf(ns[j]) == t ensures HasKey(g, j) {
        if j < |pre| {
          assert TimeOf(pre[j]) == t;
          assert HasKey(gp, j);
          var k :| 0 <= k < |gp| && gp[k].0 == j;
          assert g[k] == gp[k];
        } else {
          assert g[|g| - 1].0 == j;
        }
      }
    }
  }

  /** A group lists its indices in increasing order, so each index once. */
  lemma {:induction false} GroupSorted(ns: seq<NameRef>, t: int)
    ensures StrictlySortedByKey(Group(ns, t))
  {
    if ns != [] {
      var pre := ns[..|ns| - 1];
      GroupSorted(pre, t);
      GroupElements(pre, t);
      var g := Group(ns, t);
      var gp := Group(pre, t);
      assert forall q :: 0 <= q < |gp| ==> g[q] == gp[q];
    }
  }

  /** A time absent from ns has an empty group. */
  lemma {:induction false} GroupEmpty(ns: seq<NameRef>, t: int)
    requires forall j :: 0 <= j < |ns| ==> TimeOf(ns[j]) != t
    ensures Group(ns, t) == []
  {
    if ns != [] {
      GroupEmpty(ns[..|ns| - 1], t);
    }
  }

  /** TimesInOrder lists every time of ns exactly once, and nothing else. */
  lemma {:induction false} TimesInOrderFacts(ns: seq<NameRef>)
    ensures var ts := TimesInOrder(ns);
      && Distinct(ts)
      && (forall j :: 0 <= j < |ns| ==> TimeOf(ns[j]) in ts)
      && (forall p :: 0 <= p < |ts| ==> exists j :: 0 <= j < |ns| && TimeOf(ns[j]) == ts[p])
  {
    if ns != [] {
      var pre := ns[..|ns| - 1];
      TimesInOrderFacts(pre);
      var ts := TimesInOrder(ns);
      var tp := TimesInOrder(pre);
      forall p | 0 <= p < |ts| ensures exists j :: 0 <= j < |ns| && TimeOf(ns[j]) == ts[p] {
        if p < |tp| {
          var j :| 0 <= j < |pre| && TimeOf(pre[j]) == tp[p];
          assert TimeOf(ns[j]) == ts[p];
        } else {
          assert TimeOf(ns[|ns| - 1]) == ts[p];
        }
      }
      forall j | 0 <= j < |ns| ensures TimeOf(ns[j]) in ts {
        if j < |pre| { assert TimeOf(pre[j]) in tp; }
      }
    }
  }

  predicate FirstUnsupportedKey(ts: seq<int>, p: int)
  {
    0 <= p < |ts| && !Supported(ts[p]) && forall q :: 0 <= q < p ==> Supported(ts[q])
  }

  /** The first unsupported time in key order is the time of the first name whose time is
      unsupported: the error that is raised does not depend on how the names were grouped. */
  lemma {:induction false} FirstUnsupportedTime(ns: seq<NameRef>, i: int)
    requires 0 <= i < |ns| && !Supported(TimeOf(ns[i]))
    requires forall j :: 0 <= j < i ==> Supported(TimeOf(ns[j]))
    ensures exists p :: FirstUnsupportedKey(TimesInOrder(ns), p) && TimesInOrder(ns)[p] == TimeOf(ns[i])
  {
    var pre := ns[..|ns| - 1];
    var tp := TimesInOrder(pre);
    var ts := TimesInOrder(ns);
    if i < |pre| {
      assert forall j :: 0 <= j < |pre| ==> pre[j] == ns[j];
      FirstUnsupportedTime(pre, i);
      var p :| FirstUnsupportedKey(tp, p) && tp[p] == TimeOf(ns[i]);
      assert forall q :: 0 <= q < |tp| ==> ts[q] == tp[q];
      assert FirstUnsupportedKey(ts, p);
    } else {
      TimesInOrderFacts(pre);
      forall q | 0 <= q < |tp| ensures Supported(tp[q]) {
        var j :| 0 <= j < |pre| && TimeOf(pre[j]) == tp[q];
      }
      assert ts == tp + [TimeOf(ns[i])];
      assert FirstUnsupportedKey(ts, |tp|);
    }
  }

  /** Sorting the (index, output) pairs, whose indices are each of 0 .. |names|-1 once, gives the
      outputs back in flattened order. */
  lemma SortedOutputs<O>(iouts: seq<(int, O)>, names: seq<NameRef>, predict0: string -> O, predict1: string -> O)
    requires IndexedOutputs(names, iouts, predict0, predict1)
    ensures var r := SortByKey(iouts);
      |r| == |names| && forall m :: 0 <= m < |r| ==> r[m] == (m, Output(names[m], predict0, predict1))
  {
    var r := SortByKey(iouts);
    SortStrict(iouts);
    forall k | 0 <= k < |r| ensures r[k] in iouts {
      assert r[k] in multiset(iouts);
    }
    forall m | 0 <= m < |names| ensures HasKey(r, m) {
      assert HasKey(iouts, m);
      var q :| 0 <= q < |iouts| && iouts[q].0 == m;
      assert iouts[q] in multiset(r);
      var k :| 0 <= k < |r| && r[k] == iouts[q];
    }
    StrictKeysCoverRange(r, |names|);
    forall m | 0 <= m < |r| ensures r[m] == (m, Output(names[m], predict0, predict1)) {
      var q :| 0 <= q < |iouts| && iouts[q] == r[m];
    }
  }

  predicate FirstMalformed(names: seq<NameRef>, i: int)
  {
    0 <= i < |names| && names[i].Malformed? && forall j :: 0 <= j < i ==> !names[j].Malformed?
  }

  predicate NoneMalformed(names: seq<NameRef>)
  {
    forall j :: 0 <= j < |names| ==> !names[j].Malformed?
  }

  predicate FirstUnsupported(names: seq<NameRef>, i: int)
  {
    0 <= i < |names| && !Supported(TimeOf(names[i])) && forall j :: 0 <= j < i ==> Supported(TimeOf(names[j]))
  }

  predicate AllSupported(names: seq<NameRef>)
  {
    forall j :: 0 <= j < |names| ==> Supported(TimeOf(names[j]))
  }

  /** keys are the times of names in order of first occurrence, and groups[t] the group of t. */
  predicate GroupedBy(names: seq<NameRef>, keys: seq<int>, groups: map<int, seq<(int, string)>>)
  {
    && keys == TimesInOrder(names)
    && (forall t :: t in keys ==> t in groups)
    && (forall t :: t in groups ==> t in keys && groups[t] == Group(names, t))
  }

  /** Each index of names is tagged once, with the output of its name. */
  ghost predicate IndexedOutputs<O>(names: seq<NameRef>, iouts: seq<(int, O)>, predict0: string -> O, predict1: string -> O)
  {
    && DistinctKeys(iouts)
    && (forall q :: 0 <= q < |iouts| ==>
          0 <= iouts[q].0 < |names| && iouts[q].1 == Output(names[iouts[q].0], predict0, predict1))
    && (forall j :: 0 <= j < |names| ==> HasKey(iouts, j))
  }

  /** The grouping loop of get_outputs: a dict from time to the (index, name) entries at that
      time, whose keys are in order of first occurrence. */
  method GroupByTime(names: seq<NameRef>) returns (r: Result<(seq<int>, map<int, seq<(int, string)>>)>)
    ensures forall i :: FirstMalformed(names, i) ==> r == Err(UnpackError(names[i].size))
    ensures r.Ok? <==> NoneMalformed(names)
    ensures r.Ok? ==> GroupedBy(names, r.value.0, r.value.1)
  {
    var keys: seq<int> := [];
    var groups: map<int, seq<(int, string)>> := map[];
    for i := 0 to |names|
      invariant forall j :: 0 <= j < i ==> !names[j].Malformed?
      invariant GroupedBy(names[..i], keys, groups)
    {
      if names[i].Malformed? {
        assert FirstMalformed(names, i);
        return Err(UnpackError(names[i].size));
      }
      var t := TimeOf(names[i]);
      GroupOneMore(names[..i], names[i], keys, groups);
      assert names[..i + 1] == names[..i] + [names[i]];
      var entries := if t in groups then groups[t] else [];
      keys := if t in groups then keys else keys + [t];
      groups := groups[t := entries + [(i, NameOf(names[i]))]];
    }
    assert names[..|names|] == names;
    assert NoneMalformed(names);
    return Ok((keys, groups));
  }

  /** One pass of the grouping loop: the name's entry joins the group of its time, which is
      created (and its time appended to the keys) on first occurrence. */
  lemma GroupOneMore(ns: seq<NameRef>, x: NameRef, keys: seq<int>, groups: map<int, seq<(int, string)>>)
    requires GroupedBy(ns, keys, groups)
    ensures var t := TimeOf(x);
      var keys' := if t in groups then keys else keys + [t];
      var old' := if t in groups then groups[t] else [];
      GroupedBy(ns + [x], keys', groups[t := old' + [(|ns|, NameOf(x))]])
  {
    var t := TimeOf(x);
    var ns' := ns + [x];
    assert ns'[..|ns'| - 1] == ns;
    if t !in groups {
      TimesInOrderFacts(ns);
      GroupEmpty(ns, t);
    }
  }

  /** iouts holds the tagged outputs of exactly the names whose times are in done, each once. */
  ghost predicate Evaluated<O>(names: seq<NameRef>, done: seq<int>, iouts: seq<(int, O)>,
                         predict0: string -> O, predict1: string -> O)
  {
    && DistinctKeys(iouts)
    && (forall q :: 0 <= q < |iouts| ==>
          0 <= iouts[q].0 < |names| && TimeOf(names[iouts[q].0]) in done
          && iouts[q].1 == Output(names[iouts[q].0], predict0, predict1))
    && (forall j :: 0 <= j < |names| && TimeOf(names[j]) in done ==> HasKey(iouts, j))
  }

  /** The entries zipped from the group at time t: each index of the group with the output of
      its name at that time. */
  ghost predicate ZippedGroup<O>(names: seq<NameRef>, t: int, zipped: seq<(int, O)>,
                                 predict0: string -> O, predict1: string -> O)
  {
    && |zipped| == |Group(names, t)|
    && (forall q :: 0 <= q < |zipped| ==>
          zipped[q] == (Group(names, t)[q].0,
                        if t == 0 then predict0(Group(names, t)[q].1) else predict1(Group(names, t)[q].1)))
  }

  /** Appending the tagged outputs of one more time's group keeps iouts in step with the times done. */
  lemma AppendGroup<O>(names: seq<NameRef>, done: seq<int>, t: int, iouts: seq<(int, O)>,
                       zipped: seq<(int, O)>, predict0: string -> O, predict1: string -> O)
    requires Evaluated(names, done, iouts, predict0, predict1)
    requires t !in done && Supported(t)
    requires ZippedGroup(names, t, zipped, predict0, predict1)
    ensures Evaluated(names, done + [t], iouts + zipped, predict0, predict1)
  {
    AppendGroupOutputs(names, done, t, iouts, zipped, predict0, predict1);
    AppendGroupCovers(names, done, t, iouts, zipped, predict0, predict1);
    AppendGroupDistinct(names, done, t, iouts, zipped, predict0, predict1);
  }

  lemma AppendGroupOutputs<O>(names: seq<NameRef>, done: seq<int>, t: int, iouts: seq<(int, O)>,
                              zipped: seq<(int, O)>, predict0: string -> O, predict1: string -> O)
    requires Evaluated(names, done, iouts, predict0, predict1)
    requires t !in done && Supported(t)
    requires ZippedGroup(names, t, zipped, predict0, predict1)
    ensures forall q :: 0 <= q < |iouts + zipped| ==>
      0 <= (iouts + zipped)[q].0 < |names| && TimeOf(names[(iouts + zipped)[q].0]) in done + [t]
      && (iouts + zipped)[q].1 == Output(names[(iouts + zipped)[q].0], predict0, predict1)
  {
    var g := Group(names, t);
    GroupElements(names, t);
    var all := iouts + zipped;
    forall q | 0 <= q < |all|
      ensures 0 <= all[q].0 < |names| && TimeOf(names[all[q].0]) in done + [t]
        && all[q].1 == Output(names[all[q].0], predict0, predict1)
    {
      if q < |iouts| {
        assert all[q] == iouts[q];
      } else {
        var z := q - |iouts|;
        assert all[q] == zipped[z];
        assert GroupEntryAt(names, t, g[z]);
        assert all[q].1 == Output(names[g[z].0], predict0, predict1);
      }
    }
  }

  lemma AppendGroupCovers<O>(names: seq<NameRef>, done: seq<int>, t: int, iouts: seq<(int, O)>,
                             zipped: seq<(int, O)>, predict0: string -> O, predict1: string -> O)
    requires Evaluated(names, done, iouts, predict0, predict1)
    requires ZippedGroup(names, t, zipped, predict0, predict1)
    ensures forall j :: 0 <= j < |names| && TimeOf(names[j]) in done + [t] ==> HasKey(iouts + zipped, j)
  {
    var g := Group(names, t);
    GroupCovers(names, t);
    var all := iouts + zipped;
    forall j | 0 <= j < |names| && TimeOf(names[j]) in done + [t] ensures HasKey(all, j) {
      if TimeOf(names[j]) in done {
        assert HasKey(iouts, j);
        var q :| 0 <= q < |iouts| && iouts[q].0 == j;
        assert all[q].0 == j;
      } else {
        assert HasKey(g, j);
        var q :| 0 <= q < |g| && g[q].0 == j;
        assert all[|iouts| + q].0 == j;
      }
    }
  }

  lemma AppendGroupDistinct<O>(names: seq<NameRef>, done: seq<int>, t: int, iouts: seq<(int, O)>,
                               zipped: seq<(int, O)>, predict0: string -> O, predict1: string -> O)
    requires Evaluated(names, done, iouts, predict0, predict1)
    requires t !in done
    requires ZippedGroup(names, t, zipped, predict0, predict1)
    ensures DistinctKeys(iouts + zipped)
  {
    var g := Group(names, t);
    GroupElements(names, t);
    GroupSorted(names, t);
    var all := iouts + zipped;
    forall a, b | 0 <= a < |all| && 0 <= b < |all| && a != b ensures all[a].0 != all[b].0 {
      if a >= |iouts| && b >= |iouts| {
        assert all[a] == zipped[a - |iouts|] && all[b] == zipped[b - |iouts|];
      } else if a >= |iouts| {
        assert all[a] == zipped[a - |iouts|] && GroupEntryAt(names, t, g[a - |iouts|]);
      } else if b >= |iouts| {
        assert all[b] == zipped[b - |iouts|] && GroupEntryAt(names, t, g[b - |iouts|]);
      }
    }
  }

  /** The evaluation loop of get_outputs: each group is evaluated at its time and its outputs
      tagged with their flattened indices; a time other than 0 and 1 is not implemented. */
  method EvaluateGroups<O>(names: seq<NameRef>, keys: seq<int>, groups: map<int, seq<(int, string)>>,
                           predict0: string -> O, predict1: string -> O)
    returns (r: Result<seq<(int, O)>>)
    requires GroupedBy(names, keys, groups)
    ensures forall i :: FirstUnsupported(names, i) ==>
      r == Err(NotImplementedError("output name with time " + Decimal.IntToString(TimeOf(names[i]))))
    ensures r.Ok? <==> AllSupported(names)
    ensures r.Ok? ==> IndexedOutputs(names, r.value, predict0, predict1)
  {
    TimesInOrderFacts(names);
    var iouts: seq<(int, O)> := [];
    for g := 0 to |keys|
      invariant forall q :: 0 <= q < g ==> Supported(keys[q])
      invariant Evaluated(names, keys[..g], iouts, predict0, predict1)
    {
      var t := keys[g];
      var inames := groups[t];
      if !Supported(t) {
        FirstUnsupportedGroup(names, keys, g);
        return Err(NotImplementedError("output name with time " + Decimal.IntToString(t)));
      }
      var outs: seq<O>;
      if t == 0 {
        outs := seq(|inames|, q requires 0 <= q < |inames| => predict0(inames[q].1));
      } else {
        outs := seq(|inames|, q requires 0 <= q < |inames| => predict1(inames[q].1));
      }
      var zipped := seq(|inames|, q requires 0 <= q < |inames| => (inames[q].0, outs[q]));
      assert keys[..g + 1] == keys[..g] + [t];
      assert inames == Group(names, t);
      assert ZippedGroup(names, t, zipped, predict0, predict1);
      AppendGroup(names, keys[..g], t, iouts, zipped, predict0, predict1);
      iouts := iouts + zipped;
    }
    assert keys[..|keys|] == keys;
    forall i | 0 <= i < |names| ensures Supported(TimeOf(names[i])) {
      assert TimeOf(names[i]) in keys;
    }
    return Ok(iouts);
  }

  /** The first unsupported time in key order is the time of the first unsupported name. */
  lemma FirstUnsupportedGroup(names: seq<NameRef>, keys: seq<int>, g: nat)
    requires keys == TimesInOrder(names)
    requires g < |keys| && !Supported(keys[g])
    requires forall q :: 0 <= q < g ==> Supported(keys[q])
    ensures forall i :: FirstUnsupported(names, i) ==> TimeOf(names[i]) == keys[g]
  {
    TimesInOrderFacts(names);
    forall i | FirstUnsupported(names, i) ensures TimeOf(names[i]) == keys[g] {
      FirstUnsupportedTime(names, i);
      var p :| FirstUnsupportedKey(keys, p) && keys[p] == TimeOf(names[i]);
      assert !(p < g) && !(g < p);
    }
  }

  /** The outputs of each (prediction, target) pair of output_names, in its order. */
  function PairOutputs<O>(outputNames: seq<OutputEntry>, predict0: string -> O, predict1: string -> O): seq<(O, O)>
    requires WellShaped(outputNames)
  {
    seq(|outputNames|, k requires 0 <= k < |outputNames| =>
      (Output(outputNames[k].items[0], predict0, predict1), Output(outputNames[k].items[1], predict0, predict1)))
  }

  /** The second components of a sequence of pairs. */
  function Seconds<X>(s: seq<(int, X)>): (r: seq<X>)
    ensures |r| == |s| && forall m :: 0 <= m < |s| ==> r[m] == s[m].1
  {
    seq(|s|, m requires 0 <= m < |s| => s[m].1)
  }

  /** zip(s[0::2], s[1::2]) on a sequence of even length. */
  function Pairs<X>(s: seq<X>): (r: seq<(X, X)>)
    ensures |r| == |s| / 2 && forall k :: 0 <= k < |s| / 2 ==> r[k] == (s[2 * k], s[2 * k + 1])
  {
    seq(|s| / 2, k requires 0 <= k < |s| / 2 => (s[2 * k], s[2 * k + 1]))
  }

  /** Sorting the tagged outputs by index and pairing them up gives each pair's outputs. */
  lemma RestoredOrder<O>(outputNames: seq<OutputEntry>, iouts: seq<(int, O)>, predict0: string -> O, predict1: string -> O)
    requires WellShaped(outputNames)
    requires IndexedOutputs(Flatten(outputNames), iouts, predict0, predict1)
    ensures Pairs(Seconds(SortByKey(iouts))) == PairOutputs(outputNames, predict0, predict1)
  {
    var names := Flatten(outputNames);
    SortedOutputs(iouts, names, predict0, predict1);
    var sorted := SortByKey(iouts);
    var outputs := Seconds(sorted);
    forall m | 0 <= m < |outputs|
      ensures outputs[m] == Output(names[m], predict0, predict1)
    {
      assert sorted[m] == (m, Output(names[m], predict0, predict1));
    }
    assert OutputsOf(outputs, names, predict0, predict1);
    PairsOfOutputs(outputNames, outputs, predict0, predict1);
  }

  ghost predicate OutputsOf<O>(outputs: seq<O>, names: seq<NameRef>, predict0: string -> O, predict1: string -> O)
  {
    |outputs| == |names| && forall m :: 0 <= m < |outputs| ==> outputs[m] == Output(names[m], predict0, predict1)
  }

  lemma PairsOfOutputs<O>(outputNames: seq<OutputEntry>, outputs: seq<O>, predict0: string -> O, predict1: string -> O)
    requires WellShaped(outputNames)
    requires OutputsOf(outputs, Flatten(outputNames), predict0, predict1)
    ensures Pairs(outputs) == PairOutputs(outputNames, predict0, predict1)
  {
    var names := Flatten(outputNames);
    var pairs := Pairs(outputs);
    var expected := PairOutputs(outputNames, predict0, predict1);
    assert |pairs| == |outputNames| == |expected|;
    forall k | 0 <= k < |outputNames| ensures pairs[k] == expected[k] {
      var i, j := 2 * k, 2 * k + 1;
      assert pairs[k] == (outputs[i], outputs[j]);
      assert names[i] == outputNames[k].items[0] && names[j] == outputNames[k].items[1];
    }
  }

  /** get_outputs and get_output_vars: the outputs of each (prediction, target) pair, in the
      order of output_names. */
  method GetOutputs<O(==)>(outputNames: seq<OutputEntry>, predict0: string -> O, predict1: string -> O)
    returns (r: Result<seq<(O, O)>>)
    ensures !WellShaped(outputNames) ==> r == Err(ValueError(PairsMessage))
    ensures WellShaped(outputNames) ==> var names := Flatten(outputNames);
      && (forall i :: FirstMalformed(names, i) ==> r == Err(UnpackError(names[i].size)))
      && (NoneMalformed(names) ==>
            && (outputNames == [] ==> r == Err(ValueError("not enough values to unpack (expected 2, got 0)")))
            && (forall i :: FirstUnsupported(names, i) ==>
                  r == Err(NotImplementedError("output name with time " + Decimal.IntToString(TimeOf(names[i])))))
            && (outputNames != [] && AllSupported(names) ==>
                  r == Ok(PairOutputs(outputNames, predict0, predict1))))
  {
    for k := 0 to |outputNames|
      invariant forall q :: 0 <= q < k ==> PairShaped(outputNames[q])
    {
      if !PairShaped(outputNames[k]) {
        return Err(ValueError(PairsMessage));
      }
    }
    var names := Flatten(outputNames);
    var grouped := GroupByTime(names);
    if grouped.Err? {
      return Err(grouped.error);
    }
    var (keys, groups) := grouped.value;
    var evaluated := EvaluateGroups(names, keys, groups, predict0, predict1);
    if evaluated.Err? {
      return Err(evaluated.error);
    }
    var iouts := evaluated.value;
    if outputNames == [] {
      return Err(ValueError("not enough values to unpack (expected 2, got 0)"));
    }
    RestoredOrder(outputNames, iouts, predict0, predict1);
    r := Ok(Pairs(Seconds(SortByKey(iouts))));
  }

  // ----- the parse get_output_vars makes before building the loss -----

  /** The first malformed nested name, scanning in flattened order, as the unpack error it raises. */
  function MalformedError(names: seq<NameRef>): (e: Option<Error>)
    ensures forall i :: FirstMalformed(names, i) ==> e == Some(UnpackError(names[i].size))
    ensures e.None? <==> NoneMalformed(names)
  {
    if names == [] then None
    else if names[0].Malformed? then Some(UnpackError(names[0].size))
    else
      assert forall i :: 0 < i && FirstMalformed(names, i) ==> FirstMalformed(names[1..], i - 1);
      assert NoneMalformed(names[1..]) ==> NoneMalformed(names);
      MalformedError(names[1..])
  }

  /** Every name of a group is a layer of the network. */
  predicate GroupKnown(g: seq<(int, string)>, layers: set<string>)
  {
    forall q :: 0 <= q < |g| ==> g[q].1 in layers
  }

  /** Every name is a layer of the network. */
  predicate NamesKnown(names: seq<NameRef>, layers: set<string>)
  {
    forall j :: 0 <= j < |names| ==> NameOf(names[j]) in layers
  }

  /** The group loop of get_output_vars over the times ts in key order: the layers of a group
      are looked up by name (KeyError for a missing one) before its time is tested. */
  function GroupsError(names: seq<NameRef>, ts: seq<int>, layers: set<string>): Option<Error>
  {
    if ts == [] then None
    else if !GroupKnown(Group(names, ts[0]), layers) then Some(KeyError)
    else if !Supported(ts[0]) then Some(NotImplementedError("output name with time " + Decimal.IntToString(ts[0])))
    else GroupsError(names, ts[1..], layers)
  }

  /** The error get_output_vars raises for output_names on a network with the given layer
      names, or None when it parses: the pair test, the unpacking of nested names, the group
      loop, and the unpacking of an empty result. */
  function OutputVarsError(outputNames: seq<OutputEntry>, layers: set<string>): Option<Error>
  {
    if !WellShaped(outputNames) then Some(ValueError(PairsMessage))
    else
      var names := Flatten(outputNames);
      match MalformedError(names)
      case Some(e) => Some(e)
      case None =>
        match GroupsError(names, TimesInOrder(names), layers)
        case Some(e) => Some(e)
        case None =>
          if outputNames == [] then Some(ValueError("not enough values to unpack (expected 2, got 0)")) else None
  }

  /** What compile_train_fn and compile_val_fn look up before building the loss: the input
      layers by name, then the output names as get_output_vars parses them. */
  function CompileError(inputNames: seq<string>, outputNames: seq<OutputEntry>, layers: set<string>): Option<Error>
  {
    if exists k :: 0 <= k < |inputNames| && inputNames[k] !in layers then Some(KeyError)
    else OutputVarsError(outputNames, layers)
  }

  /** The group loop fails exactly when some group has an unknown name or an unsupported time;
      with every group known it fails at the first unsupported time, and with every time
      supported it fails with KeyError. */
  lemma {:induction false} GroupsErrorFacts(names: seq<NameRef>, ts: seq<int>, layers: set<string>)
    ensures GroupsError(names, ts, layers).None? <==>
      forall p :: 0 <= p < |ts| ==> GroupKnown(Group(names, ts[p]), layers) && Supported(ts[p])
    ensures (forall p :: 0 <= p < |ts| ==> GroupKnown(Group(names, ts[p]), layers)) ==>
      forall p :: FirstUnsupportedKey(ts, p) ==>
        GroupsError(names, ts, layers) == Some(NotImplementedError("output name with time " + Decimal.IntToString(ts[p])))
    ensures (forall p :: 0 <= p < |ts| ==> Supported(ts[p])) && GroupsError(names, ts, layers).Some? ==>
      GroupsError(names, ts, layers) == Some(KeyError)
  {
    if ts != [] {
      var rest := ts[1..];
      GroupsErrorFacts(names, rest, layers);
      assert forall p :: 0 < p < |ts| ==> ts[p] == rest[p - 1];
      assert forall p :: 0 < p < |ts| && FirstUnsupportedKey(ts, p) ==> FirstUnsupportedKey(rest, p - 1);
    }
  }

  /** Every name is known iff every group of the key order is known. */
  lemma KnownGroups(names: seq<NameRef>, layers: set<string>)
    ensures NamesKnown(names, layers) <==>
      forall p :: 0 <= p < |TimesInOrder(names)| ==> GroupKnown(Group(names, TimesInOrder(names)[p]), layers)
  {
    var ts := TimesInOrder(names);
    TimesInOrderFacts(names);
    forall t ensures NamesKnown(names, layers) ==> GroupKnown(Group(names, t), layers) {
      GroupElements(names, t);
    }
    if forall p :: 0 <= p < |ts| ==> GroupKnown(Group(names, ts[p]), layers) {
      forall j | 0 <= j < |names| ensures NameOf(names[j]) in layers {
        var t := TimeOf(names[j]);
        var p :| 0 <= p < |ts| && ts[p] == t;
        GroupCovers(names, t);
        GroupElements(names, t);
        var g := Group(names, t);
        var q :| 0 <= q < |g| && g[q].0 == j;
        assert GroupEntryAt(names, t, g[q]);
      }
    }
  }

  /** Every time is supported iff every time of the key order is. */
  lemma SupportedTimes(names: seq<NameRef>)
    ensures AllSupported(names) <==> forall p :: 0 <= p < |TimesInOrder(names)| ==> Supported(TimesInOrder(names)[p])
  {
    var ts := TimesInOrder(names);
    TimesInOrderFacts(names);
    if forall p :: 0 <= p < |ts| ==> Supported(ts[p]) {
      forall j | 0 <= j < |names| ensures Supported(TimeOf(names[j])) {
        var p :| 0 <= p < |ts| && ts[p] == TimeOf(names[j]);
      }
    }
    if AllSupported(names) {
      forall p | 0 <= p < |ts| ensures Supported(ts[p]) {
        var j :| 0 <= j < |names| && TimeOf(names[j]) == ts[p];
      }
    }
  }

  /** get_output_vars parses output_names as get_outputs does: the same pair, unpack,
      unsupported-time and empty-list errors when every name is a layer of the network, and
      otherwise a KeyError unless an unsupported time comes first; it succeeds exactly for a
      non-empty list of well-formed pairs of known names at times 0 and 1. */
  lemma OutputVarsParse(outputNames: seq<OutputEntry>, layers: set<string>)
    ensures !WellShaped(outputNames) ==> OutputVarsError(outputNames, layers) == Some(ValueError(PairsMessage))
    ensures WellShaped(outputNames) ==> var names := Flatten(outputNames);
      && (forall i :: FirstMalformed(names, i) ==> OutputVarsError(outputNames, layers) == Some(UnpackError(names[i].size)))
      && (NoneMalformed(names) && NamesKnown(names, layers) ==>
            && (outputNames == [] ==>
                  OutputVarsError(outputNames, layers) == Some(ValueError("not enough values to unpack (expected 2, got 0)")))
            && (forall i :: FirstUnsupported(names, i) ==>
                  OutputVarsError(outputNames, layers)
                    == Some(NotImplementedError("output name with time " + Decimal.IntToString(TimeOf(names[i]))))))
      && (NoneMalformed(names) && AllSupported(names) && !NamesKnown(names, layers) ==>
            OutputVarsError(outputNames, layers) == Some(KeyError))
    ensures OutputVarsError(outputNames, layers).None? <==>
      && WellShaped(outputNames) && outputNames != []
      && NoneMalformed(Flatten(outputNames)) && AllSupported(Flatten(outputNames))
      && NamesKnown(Flatten(outputNames), layers)
  {
    if WellShaped(outputNames) {
      var names := Flatten(outputNames);
      var ts := TimesInOrder(names);
      GroupsErrorFacts(names, ts, layers);
      KnownGroups(names, layers);
      SupportedTimes(names);
      forall i | FirstUnsupported(names, i) && NamesKnown(names, layers)
        ensures GroupsError(names, ts, layers)
          == Some(NotImplementedError("output name with time " + Decimal.IntToString(TimeOf(names[i]))))
      {
        FirstUnsupportedTime(names, i);
      }
    }
  }

  /** The unpacking of nested names only raises ValueError. */
  lemma {:induction false} MalformedKinds(names: seq<NameRef>)
    ensures MalformedError(names).Some? ==> MalformedError(names).value.ValueError?
  {
    if names != [] && !names[0].Malformed? {
      MalformedKinds(names[1..]);
    }
  }

  /** The group loop raises KeyError or the NotImplementedError of one of the times. */
  lemma {:induction false} GroupsErrorKinds(names: seq<NameRef>, ts: seq<int>, layers: set<string>)
    ensures var e := GroupsError(names, ts, layers);
      e.Some? ==>
        (e.value == KeyError
         || exists p :: 0 <= p < |ts| && e.value == NotImplementedError("output name with time " + Decimal.IntToString(ts[p])))
  {
    if ts != [] && GroupKnown(Group(names, ts[0]), layers) && Supported(ts[0]) {
      GroupsErrorKinds(names, ts[1..], layers);
      var e := GroupsError(names, ts[1..], layers);
      if e.Some? && e.value != KeyError {
        var p :| 0 <= p < |ts[1..]| && e.value == NotImplementedError("output name with time " + Decimal.IntToString(ts[1..][p]));
        assert ts[1..][p] == ts[p + 1];
      }
    }
  }

  /** Compilation raises KeyError, a ValueError, or the NotImplementedError of an unsupported
      time, whose message names that time. */
  lemma CompileErrorKinds(inputNames: seq<string>, outputNames: seq<OutputEntry>, layers: set<string>)
    ensures var e := CompileError(inputNames, outputNames, layers);
      e.Some? ==>
        (e.value == KeyError || e.value.ValueError?
         || exists t :: e.value == NotImplementedError("output name with time " + Decimal.IntToString(t)))
  {
    if WellShaped(outputNames) {
      var names := Flatten(outputNames);
      MalformedKinds(names);
      GroupsErrorKinds(names, TimesInOrder(names), layers);
    }
  }
}
