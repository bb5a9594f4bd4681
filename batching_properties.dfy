/** What one iteration of the sampler yields, mode by mode, stated against its reference
    definition `SubmodularBatchSampler.Outputs` (which `Iter` is proved to compute). */
module BatchingProperties {
  import opened Samplers

  /** The concatenation of a sequence of index lists. */
  function Flatten(ss: seq<seq<nat>>): seq<nat> {
    if ss == [] then [] else ss[0] + Flatten(ss[1..])
  }

  lemma {:induction false} FlattenSnoc(ss: seq<seq<nat>>, x: seq<nat>)
    ensures Flatten(ss + [x]) == Flatten(ss) + x
  {
    if ss == [] {
      assert [] + [x] == [x];
    } else {
      assert (ss + [x])[1..] == ss[1..] + [x];
      FlattenSnoc(ss[1..], x);
    }
  }

  /** The first `n` chunks, laid end to end, are the first `n * size` indices. */
  lemma {:induction false} FlattenChunks(order: seq<nat>, size: Positive, n: nat)
    requires n * size <= |order|
    ensures Flatten(Chunks(order, size, n)) == order[..n * size]
  {
    if n > 0 {
      var start := (n - 1) * size;
      ChunksSnoc(order, size, n - 1, start);
      FlattenSnoc(Chunks(order, size, n - 1), order[start..start + size]);
      FlattenChunks(order, size, n - 1);
      assert order[..start] + order[start..start + size] == order[..n * size];
    }
  }

  /** Override mode loses, duplicates and reorders no index: the emitted chunks followed by the
      leftover buffer are exactly the provider order. */
  lemma OverridePartition(s: SubmodularBatchSampler, order: seq<nat>, subsets: seq<seq<nat>>)
    requires s.overrideSubmodular && |order| == s.providerLength
    ensures Flatten(s.Selected(order, subsets)) + s.FinalBatch(order, subsets) == order
  {
    var m := s.providerLength / s.batchSize;
    QuotientFits(s.providerLength, s.batchSize);
    FlattenChunks(order, s.batchSize, m);
    assert order[..m * s.batchSize] + order[m * s.batchSize..] == order;
  }

  /** Override mode, batch j: it gathers provider positions `[j * batch_size, (j + 1) * batch_size)`
      in order, rows from `data` and labels from `targets`. */
  lemma OverrideBatchAt<T, U>(s: SubmodularBatchSampler, order: seq<nat>, data: seq<T>,
                              targets: seq<U>, subsets: seq<seq<nat>>, j: nat)
    requires s.overrideSubmodular
    requires |data| == |targets| && s.Admissible(order, |data|, subsets)
    requires j < |order| / s.batchSize
    ensures j * s.batchSize + s.batchSize <= |order|
    ensures InRange(order[j * s.batchSize..j * s.batchSize + s.batchSize], |data|)
    ensures var out, start := s.Outputs(order, data, targets, subsets)[j], j * s.batchSize;
      && out.Batch? && |out.rows| == s.batchSize && |out.labels| == s.batchSize
      && forall k :: 0 <= k < s.batchSize ==>
           out.rows[k] == data[order[start + k]] && out.labels[k] == targets[order[start + k]]
  {
    var m, bs := |order| / s.batchSize, s.batchSize;
    QuotientFits(|order|, bs);
    ChunkFits(|order|, bs, m, j);
    var c := order[j * bs..j * bs + bs];
    assert s.Selected(order, subsets)[j] == c;
    assert s.Outputs(order, data, targets, subsets)[j] == GatherBatch(data, targets, c);
  }

  /** Override mode, the count: `L / batch_size` batches, then the `L % batch_size` leftover
      indices as one raw list unless there are none or `drop_last` is set; in all `__len__` units. */
  lemma OverrideCount<T, U>(s: SubmodularBatchSampler, order: seq<nat>, data: seq<T>,
                            targets: seq<U>, subsets: seq<seq<nat>>)
    requires s.overrideSubmodular
    requires |data| == |targets| && s.Admissible(order, |data|, subsets)
    ensures var outs, m, bs := s.Outputs(order, data, targets, subsets), |order| / s.batchSize, s.batchSize;
      && s.SelectorCalls() == 0
      && |outs| == s.Len()
      && (|outs| == m || |outs| == m + 1)
      && (|outs| == m + 1 <==> !s.dropLast && |order| % bs != 0)
      && (|outs| == m + 1 ==> outs[m] == Raw(order[|order| - |order| % bs..]))
  {
    var bs := s.batchSize;
    QuotientFits(|order|, bs);
    CeilFromFloor(|order|, bs);
    assert |s.Selected(order, subsets)| == |order| / bs;
    assert |s.FinalBatch(order, subsets)| == |order| % bs;
  }

  /** Every mode: one gathered batch per selected index list, in order, then the final buffer
      raw when it is non-empty and `drop_last` is not set, and nothing else. */
  lemma OutputsShape<T, U>(s: SubmodularBatchSampler, order: seq<nat>, data: seq<T>,
                           targets: seq<U>, subsets: seq<seq<nat>>)
    requires |data| == |targets| && s.Admissible(order, |data|, subsets)
    ensures var outs, sel, fin := s.Outputs(order, data, targets, subsets),
                                  s.Selected(order, subsets), s.FinalBatch(order, subsets);
      && |outs| == |sel| + (if |fin| > 0 && !s.dropLast then 1 else 0)
      && (forall i :: 0 <= i < |sel| ==> outs[i] == GatherBatch(data, targets, sel[i]))
      && (|outs| > |sel| ==> outs[|sel|] == Raw(fin))
  {
    var sel := s.Selected(order, subsets);
    var gathered := GatherEach(data, targets, sel);
    assert s.Outputs(order, data, targets, subsets)
           == gathered + s.Trailing(s.FinalBatch(order, subsets));
  }

  /** Epoch mode: `L / batch_size` selector calls, the i-th batch gathered from the i-th subset
      alone; then, because `batch` still holds the last subset, that subset once more as a raw
      list when it is non-empty and `drop_last` is not set. */
  lemma EpochOutputs<T, U>(s: SubmodularBatchSampler, order: seq<nat>, data: seq<T>,
                           targets: seq<U>, subsets: seq<seq<nat>>)
    requires !s.overrideSubmodular && !s.useIter
    requires |data| == |targets| && s.Admissible(order, |data|, subsets)
    ensures var outs, n := s.Outputs(order, data, targets, subsets), s.providerLength / s.batchSize;
      && s.SelectorCalls() == n
      && |outs| == n + (if n > 0 && !s.dropLast && |subsets[n - 1]| > 0 then 1 else 0)
      && (forall i :: 0 <= i < n ==> InRange(subsets[i], |data|))
      && (forall i :: 0 <= i < n ==> outs[i] == GatherBatch(data, targets, subsets[i]))
      && (|outs| > n ==> outs[n] == Raw(subsets[n - 1]))
  {
    var n := s.providerLength / s.batchSize;
    assert s.SelectorCalls() == n;
    var sel := s.Selected(order, subsets);
    assert sel == subsets[..n];
    forall i | 0 <= i < n ensures InRange(subsets[i], |data|) {
      assert sel[i] == subsets[i];
    }
    OutputsShape(s, order, data, targets, subsets);
    forall i | 0 <= i < n ensures s.Outputs(order, data, targets, subsets)[i]
                                  == GatherBatch(data, targets, subsets[i]) {
      assert sel[i] == subsets[i];
    }
  }

  /** Iterative mode: one selector call and one gathered batch whatever the provider length;
      then the same subset once more as a raw list when it is non-empty and `drop_last` is not set. */
  lemma IterativeOutputs<T, U>(s: SubmodularBatchSampler, order: seq<nat>, data: seq<T>,
                               targets: seq<U>, subsets: seq<seq<nat>>)
    requires !s.overrideSubmodular && s.useIter
    requires |data| == |targets| && s.Admissible(order, |data|, subsets)
    ensures var outs := s.Outputs(order, data, targets, subsets);
      && s.SelectorCalls() == 1
      && InRange(subsets[0], |data|)
      && outs[0] == GatherBatch(data, targets, subsets[0])
      && |outs| == (if !s.dropLast && |subsets[0]| > 0 then 2 else 1)
      && (|outs| == 2 ==> outs[1] == Raw(subsets[0]))
  {
    assert subsets[..1][0] == subsets[0];
  }

  /** `__len__` against epoch mode: exact with `drop_last`. Without it, `__len__` counts one
      unit for a remainder of the provider length, while the iteration yields one unit for a
      non-empty last subset re-emitted raw; the last clause gives the exact balance. */
  lemma EpochLen<T, U>(s: SubmodularBatchSampler, order: seq<nat>, data: seq<T>,
                       targets: seq<U>, subsets: seq<seq<nat>>)
    requires !s.overrideSubmodular && !s.useIter
    requires |data| == |targets| && s.Admissible(order, |data|, subsets)
    ensures var outs, n := s.Outputs(order, data, targets, subsets), s.providerLength / s.batchSize;
      && (s.dropLast ==> |outs| == s.Len())
      && (!s.dropLast && s.providerLength % s.batchSize != 0 ==> |outs| <= s.Len())
      && (!s.dropLast && s.providerLength % s.batchSize == 0 && n > 0 && |subsets[n - 1]| > 0
          ==> |outs| == s.Len() + 1)
      && (!s.dropLast ==>
            |outs| + (if s.providerLength % s.batchSize != 0 then 1 else 0)
            == s.Len() + (if n > 0 && |subsets[n - 1]| > 0 then 1 else 0))
  {
    EpochOutputs(s, order, data, targets, subsets);
    CeilFromFloor(s.providerLength, s.batchSize);
  }

  /** Ten indices in batches of three: three full batches of three rows, then the tenth index
      raw unless `drop_last` is set. */
  lemma OverrideTenByThree<T, U>(s: SubmodularBatchSampler, order: seq<nat>, data: seq<T>,
                                 targets: seq<U>, subsets: seq<seq<nat>>)
    requires s.overrideSubmodular && s.providerLength == 10 && s.batchSize == 3
    requires |data| == |targets| && s.Admissible(order, |data|, subsets)
    ensures var outs := s.Outputs(order, data, targets, subsets);
      && |outs| == (if s.dropLast then 3 else 4)
      && (forall j :: 0 <= j < 3 ==> outs[j].Batch? && |outs[j].rows| == 3)
      && (!s.dropLast ==> outs[3] == Raw([order[9]]))
  {
    OverrideCount(s, order, data, targets, subsets);
    forall j | 0 <= j < 3 ensures s.Outputs(order, data, targets, subsets)[j].Batch?
      && |s.Outputs(order, data, targets, subsets)[j].rows| == 3
    {
      OverrideBatchAt(s, order, data, targets, subsets, j);
    }
    assert order[9..] == [order[9]];
  }

  /** In override mode the leftover buffer is yielded raw and never indexed: with three indices
      in batches of two over a two-row dataset, a leftover index 5 is admitted and yielded as is. */
  lemma OverrideLeftoverNotIndexed<T, U>(s: SubmodularBatchSampler, data: seq<T>, targets: seq<U>)
    requires s.overrideSubmodular && !s.dropLast && s.providerLength == 3 && s.batchSize == 2
    requires |data| == 2 && |targets| == 2
    ensures s.Admissible([0, 1, 5], |data|, [])
    ensures s.Outputs([0, 1, 5], data, targets, [])
            == [Batch([data[0], data[1]], [targets[0], targets[1]]), Raw([5])]
  {
    var order := [0, 1, 5];
    assert s.Selected(order, []) == [order[0..2]];
    assert order[0..2] == [0, 1];
    assert s.FinalBatch(order, []) == [5];
    assert Gather(data, [0, 1]) == [data[0], data[1]];
    assert Gather(targets, [0, 1]) == [targets[0], targets[1]];
    var g := GatherEach(data, targets, s.Selected(order, []));
    assert g == [GatherBatch(data, targets, [0, 1])];
    assert s.Trailing<T, U>([5]) == [Raw([5])];
  }
}
