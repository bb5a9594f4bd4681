/** A model of the batch sampler `SubmodularBatchSampler`.

    The sampler wraps an index-order provider and a submodular subset selector and,
    per epoch, turns index lists into (rows, labels) batches gathered from a dataset.
    The provider is given as its length (fixed at construction) and the index order
    of one iteration; the selector as the sequence of subsets its successive
    `get_subset` calls return.
 */
module Samplers {

  type Positive = n: nat | n > 0 witness 1

  /** The epoch fraction `r` of epoch mode; the sampler fixes it at 1. */
  const EpochFraction: nat := 1

  /** One unit yielded by an iteration: a gathered batch, or a raw (ungathered) index list. */
  datatype Output<T, U> = Batch(rows: seq<T>, labels: seq<U>) | Raw(indices: seq<nat>)

  /** The dynamic type of an argument value, as far as the argument checks look at it.
      A Python `bool` is also an `int`, which is why the checks test for it separately. */
  datatype PyValue = PyInt(i: int) | PyBool(b: bool) | PyOther

  /** The `ValueError`s raised by the constructor. */
  datatype ArgError = BadBatchSize | BadDropLast

  datatype Result<R> = Ok(value: R) | Err(error: ArgError)

  /** The checked arguments of a successful construction. */
  datatype Config = Config(batchSize: Positive, dropLast: bool)

  /** `isinstance(v, int)`: true of ints and of bools. */
  predicate IsIntInstance(v: PyValue) {
    v.PyInt? || v.PyBool?
  }

  /** The integer value of an int instance (`True` is 1, `False` is 0). */
  function IntValue(v: PyValue): int
    requires IsIntInstance(v)
  {
    if v.PyInt? then v.i else if v.b then 1 else 0
  }

  /** The argument checks of the constructor, in their order: first `batch_size`, then `drop_last`.
      Exactly the positive non-bool integers are accepted as batch size, and exactly the bools
      as `drop_last`. */
  function CheckArgs(batchSize: PyValue, dropLast: PyValue): (r: Result<Config>)
    ensures r.Ok? <==> batchSize.PyInt? && batchSize.i > 0 && dropLast.PyBool?
    ensures r.Ok? ==> r.value.batchSize == batchSize.i && r.value.dropLast == dropLast.b
    ensures !(batchSize.PyInt? && batchSize.i > 0) ==> r == Err(BadBatchSize)
    ensures batchSize.PyInt? && batchSize.i > 0 && !dropLast.PyBool? ==> r == Err(BadDropLast)
  {
    if !IsIntInstance(batchSize) || batchSize.PyBool? || IntValue(batchSize) <= 0 then
      Err(BadBatchSize)
    else if !dropLast.PyBool? then
      Err(BadDropLast)
    else
      Ok(Config(batchSize.i, dropLast.b))
  }

  /** Every index of `idx` addresses a row of a dataset of `n` rows. */
  predicate InRange(idx: seq<nat>, n: nat) {
    forall k :: 0 <= k < |idx| ==> idx[k] < n
  }

  predicate AllInRange(subs: seq<seq<nat>>, n: nat) {
    forall i :: 0 <= i < |subs| ==> InRange(subs[i], n)
  }

  /** `np.take(rows, idx, axis=0)`: row k of the result is row `idx[k]` of `rows`.
      The result is a new sequence; `rows` itself is a value and cannot change. */
  function Gather<T>(rows: seq<T>, idx: seq<nat>): (r: seq<T>)
    requires InRange(idx, |rows|)
    ensures |r| == |idx|
    ensures forall k :: 0 <= k < |idx| ==> r[k] == rows[idx[k]]
  {
    if idx == [] then [] else [rows[idx[0]]] + Gather(rows, idx[1..])
  }

  /** The pair of gathers yielded for one index list. */
  function GatherBatch<T, U>(data: seq<T>, targets: seq<U>, idx: seq<nat>): Output<T, U>
    requires |data| == |targets| && InRange(idx, |data|)
  {
    Batch(Gather(data, idx), Gather(targets, idx))
  }

  /** One gathered batch per index list, in order. */
  function GatherEach<T, U>(data: seq<T>, targets: seq<U>, subs: seq<seq<nat>>): seq<Output<T, U>>
    requires |data| == |targets| && AllInRange(subs, |data|)
  {
    seq(|subs|, i requires 0 <= i < |subs| => GatherBatch(data, targets, subs[i]))
  }

  lemma MulMonotone(a: nat, b: nat, c: nat)
    requires a <= b
    ensures a * c <= b * c
  {
  }

  /** Chunk `j` of `n` chunks of `size` fits in a sequence of `len` elements. */
  lemma ChunkFits(len: nat, size: Positive, n: nat, j: nat)
    requires n * size <= len && j < n
    ensures j * size + size <= len
  {
    MulMonotone(j + 1, n, size);
  }

  /** The quotient and remainder of a division are the unique ones. */
  lemma DivisionUnique(a: nat, b: Positive, q: nat, r: nat)
    requires a == q * b + r && r < b
    ensures q == a / b && r == a % b
  {
    if q < a / b {
      MulMonotone(q + 1, a / b, b);
    } else if q > a / b {
      MulMonotone(a / b + 1, q, b);
    }
  }

  /** `q` full chunks of `b` that fit in `a` are at most the `a / b` full chunks of `a`. */
  lemma QuotientAtLeast(a: nat, b: Positive, q: nat)
    requires q * b <= a
    ensures q <= a / b
  {
    QuotientFits(a, b);
    if q > a / b {
      MulMonotone(a / b + 1, q, b);
    }
  }

  lemma QuotientFits(a: nat, b: Positive)
    ensures a == (a / b) * b + a % b && 0 <= a % b < b
    ensures (a / b) * b <= a
  {
  }

  /** Floor and ceiling division characterised by their bounds. */
  lemma FloorCeilBounds(a: nat, b: Positive)
    ensures (a / b) * b <= a < (a / b) * b + b
    ensures a <= ((a + b - 1) / b) * b < a + b
  {
    QuotientFits(a, b);
    QuotientFits(a + b - 1, b);
  }

  /** Ceiling division is floor division plus one exactly when there is a remainder. */
  lemma CeilFromFloor(a: nat, b: Positive)
    ensures (a + b - 1) / b == a / b + (if a % b == 0 then 0 else 1)
  {
    QuotientFits(a, b);
    var q, r := a / b, a % b;
    if r == 0 {
      DivisionUnique(a + b - 1, b, q, b - 1);
    } else {
      assert a + b - 1 == (q + 1) * b + (r - 1);
      DivisionUnique(a + b - 1, b, q + 1, r - 1);
    }
  }

  /** The first `n` consecutive chunks of `size` indices of `order`. */
  function Chunks(order: seq<nat>, size: Positive, n: nat): seq<seq<nat>>
    requires n * size <= |order|
  {
    seq(n, j requires 0 <= j < n => ChunkFits(|order|, size, n, j); order[j * size..j * size + size])
  }

  /** The first `n` of `m` chunks are the first `n` chunks. */
  lemma ChunksPrefix(order: seq<nat>, size: Positive, n: nat, m: nat)
    requires n <= m && m * size <= |order|
    ensures n * size <= |order| && Chunks(order, size, n) == Chunks(order, size, m)[..n]
  {
    MulMonotone(n, m, size);
    var a, b := Chunks(order, size, n), Chunks(order, size, m);
    forall j | 0 <= j < n ensures a[j] == b[j] {
      ChunkFits(|order|, size, n, j);
    }
  }

  /** One more chunk is the next `size` indices. */
  lemma ChunksSnoc(order: seq<nat>, size: Positive, n: nat, start: nat)
    requires start == n * size && start + size <= |order|
    ensures n * size <= |order| && (n + 1) * size <= |order|
    ensures Chunks(order, size, n + 1) == Chunks(order, size, n) + [order[start..start + size]]
  {
    assert (n + 1) * size == start + size;
    var a, b := Chunks(order, size, n + 1), Chunks(order, size, n);
    assert |a| == |b| + 1;
    forall j | 0 <= j < n ensures a[j] == b[j] {
      ChunkFits(|order|, size, n, j);
    }
  }

  lemma GatherEachSnoc<T, U>(data: seq<T>, targets: seq<U>, subs: seq<seq<nat>>, idx: seq<nat>)
    requires |data| == |targets| && AllInRange(subs, |data|) && InRange(idx, |data|)
    ensures AllInRange(subs + [idx], |data|)
    ensures GatherEach(data, targets, subs + [idx])
            == GatherEach(data, targets, subs) + [GatherBatch(data, targets, idx)]
  {
    assert forall i :: 0 <= i < |subs| ==> (subs + [idx])[i] == subs[i];
  }

  /** Fetching subset `i` extends the gathered subsets by that subset. */
  lemma SubsetStep<T, U>(data: seq<T>, targets: seq<U>, subsets: seq<seq<nat>>, i: nat, n: nat)
    requires |data| == |targets| && i < n <= |subsets| && AllInRange(subsets[..n], |data|)
    requires AllInRange(subsets[..i], |data|)
    ensures InRange(subsets[i], |data|) && AllInRange(subsets[..i + 1], |data|)
    ensures GatherEach(data, targets, subsets[..i + 1])
            == GatherEach(data, targets, subsets[..i]) + [GatherBatch(data, targets, subsets[i])]
  {
    assert subsets[..i + 1] == subsets[..i] + [subsets[i]];
    assert InRange(subsets[..n][i], |data|);
    GatherEachSnoc(data, targets, subsets[..i], subsets[i]);
  }

  /** Emitting a full buffer, chunk `n` of the `m` gathered ones, extends the gathered chunks
      by that chunk. */
  lemma ChunkStep<T, U>(order: seq<nat>, data: seq<T>, targets: seq<U>, size: Positive,
                        m: nat, n: nat, start: nat, batch: seq<nat>)
    requires |data| == |targets| && m * size <= |order| && AllInRange(Chunks(order, size, m), |data|)
    requires n < m && start == n * size && start + size <= |order| && batch == order[start..start + size]
    ensures (n + 1) * size == start + size
    ensures AllInRange(Chunks(order, size, n), |data|) && AllInRange(Chunks(order, size, n + 1), |data|)
    ensures InRange(batch, |data|)
    ensures GatherEach(data, targets, Chunks(order, size, n + 1))
            == GatherEach(data, targets, Chunks(order, size, n)) + [GatherBatch(data, targets, batch)]
  {
    assert (n + 1) * size == start + size;
    ChunksSnoc(order, size, n, start);
    ChunksPrefix(order, size, n, m);
    ChunksPrefix(order, size, n + 1, m);
    ChunkFits(|order|, size, m, n);
    assert Chunks(order, size, m)[n] == batch;
    GatherEachSnoc(data, targets, Chunks(order, size, n), batch);
  }

  /** The sampler object: its configuration is set once by the constructor and only read afterwards. */
  class SubmodularBatchSampler {
    /** `len(self.sampler)`: the length of the index-order provider. */
    const providerLength: nat
    const batchSize: Positive
    const dropLast: bool
    /** `override_submodular_sampling`: bypass the selector and batch the provider's indices. */
    const overrideSubmodular: bool
    /** `use_iter`: take one subset from the selector per iteration. */
    const useIter: bool

    constructor (providerLength: nat, config: Config, overrideSubmodular: bool, useIter: bool)
      ensures this.providerLength == providerLength
      ensures batchSize == config.batchSize && dropLast == config.dropLast
      ensures this.overrideSubmodular == overrideSubmodular && this.useIter == useIter
    {
      this.providerLength := providerLength;
      batchSize := config.batchSize;
      dropLast := config.dropLast;
      this.overrideSubmodular := overrideSubmodular;
      this.useIter := useIter;
    }

    /** `__init__`: validate the arguments, then store them. */
    static method Create(providerLength: nat, batchSize: PyValue, dropLast: PyValue,
                         overrideSubmodular: bool, useIter: bool)
      returns (r: Result<SubmodularBatchSampler>)
      ensures r.Err? <==> CheckArgs(batchSize, dropLast).Err?
      ensures r.Err? ==> r.error == CheckArgs(batchSize, dropLast).error
      ensures r.Ok? ==> fresh(r.value) && r.value.providerLength == providerLength
      ensures r.Ok? ==> batchSize.PyInt? && r.value.batchSize == batchSize.i
      ensures r.Ok? ==> dropLast.PyBool? && r.value.dropLast == dropLast.b
      ensures r.Ok? ==> r.value.overrideSubmodular == overrideSubmodular && r.value.useIter == useIter
    {
      var checked := CheckArgs(batchSize, dropLast);
      if checked.Err? {
        return Err(checked.error);
      }
      var s := new SubmodularBatchSampler(providerLength, checked.value, overrideSubmodular, useIter);
      return Ok(s);
    }

    /** `__len__`: the floor of providerLength / batchSize when dropping the last partial batch,
        its ceiling otherwise. */
    function Len(): (n: nat)
      ensures dropLast ==> n * batchSize <= providerLength < n * batchSize + batchSize
      ensures !dropLast ==> providerLength <= n * batchSize < providerLength + batchSize
    {
      FloorCeilBounds(providerLength, batchSize);
      if dropLast then providerLength / batchSize
      else (providerLength + batchSize - 1) / batchSize
    }

    /** `n_batches` of epoch mode. */
    function EpochBatches(): nat {
      (providerLength * EpochFraction) / batchSize
    }

    /** How many times one iteration calls the selector's `get_subset`. */
    function SelectorCalls(): (n: nat)
      ensures overrideSubmodular ==> n == 0
      ensures !overrideSubmodular && useIter ==> n == 1
    {
      if overrideSubmodular then 0 else if useIter then 1 else EpochBatches()
    }

    /** The inputs one iteration needs: the provider yields `providerLength` indices, the selector
        can answer every call, and every index that is gathered addresses a row. Indices that are
        only yielded raw (the leftover buffer, a re-emitted subset) may be anything. */
    predicate Admissible(order: seq<nat>, datasetSize: nat, subsets: seq<seq<nat>>) {
      && |order| == providerLength
      && SelectorCalls() <= |subsets|
      && AllInRange(Selected(order, subsets), datasetSize)
    }

    /** The index lists an iteration gathers into batches, in yield order: the full chunks of
        the provider order in override mode, the subsets of the selector calls otherwise. */
    function Selected(order: seq<nat>, subsets: seq<seq<nat>>): seq<seq<nat>>
      requires |order| == providerLength && SelectorCalls() <= |subsets|
    {
      if overrideSubmodular then
        QuotientFits(providerLength, batchSize);
        Chunks(order, batchSize, providerLength / batchSize)
      else
        subsets[..SelectorCalls()]
    }

    /** What the variable `batch` holds after the mode-specific part of an iteration:
        the leftover buffer in override mode, the last subset fetched otherwise
        (the empty list when no subset was fetched). */
    function FinalBatch(order: seq<nat>, subsets: seq<seq<nat>>): seq<nat>
      requires |order| == providerLength && SelectorCalls() <= |subsets|
    {
      if overrideSubmodular then
        QuotientFits(providerLength, batchSize);
        order[providerLength / batchSize * batchSize..]
      else if SelectorCalls() > 0 then
        subsets[SelectorCalls() - 1]
      else
        []
    }

    /** The trailing yield: `batch` as a raw index list, if it is non-empty and not dropped. */
    function Trailing<T, U>(batch: seq<nat>): seq<Output<T, U>> {
      if |batch| > 0 && !dropLast then [Raw(batch)] else []
    }

    /** Everything one full iteration yields. */
    function Outputs<T, U>(order: seq<nat>, data: seq<T>, targets: seq<U>, subsets: seq<seq<nat>>)
      : seq<Output<T, U>>
      requires |data| == |targets| && Admissible(order, |data|, subsets)
    {
      GatherEach(data, targets, Selected(order, subsets)) + Trailing(FinalBatch(order, subsets))
    }

    /** When the provider is exhausted, `done` full chunks were emitted and the buffer is the rest. */
    lemma OverrideEnd(order: seq<nat>, subsets: seq<seq<nat>>, done: nat, start: nat, batch: seq<nat>)
      requires overrideSubmodular && |order| == providerLength
      requires start == done * batchSize && start + |batch| == |order| && |batch| < batchSize
      requires batch == order[start..]
      ensures Selected(order, subsets) == Chunks(order, batchSize, done)
      ensures FinalBatch(order, subsets) == batch
    {
      DivisionUnique(|order|, batchSize, done, |batch|);
    }

    /** Override mode, the loop over the provider's indices: each index is appended to the
        buffer, and a full buffer is gathered and emitted and the buffer emptied. Returns the
        emitted batches and the leftover buffer. */
    method FillBatches<T, U>(order: seq<nat>, data: seq<T>, targets: seq<U>, subsets: seq<seq<nat>>)
      returns (outs: seq<Output<T, U>>, batch: seq<nat>)
      requires overrideSubmodular
      requires |data| == |targets| && Admissible(order, |data|, subsets)
      ensures outs == GatherEach(data, targets, Selected(order, subsets))
      ensures batch == FinalBatch(order, subsets)
    {
      batch := [];
      outs := [];
      ghost var m := providerLength / batchSize;
      QuotientFits(providerLength, batchSize);
      assert Selected(order, subsets) == Chunks(order, batchSize, m);
      ghost var done: nat := 0;
      ghost var start: nat := 0;
      for k := 0 to |order|
        invariant start == done * batchSize && start + |batch| == k
        invariant |batch| < batchSize
        invariant batch == order[start..k]
        invariant AllInRange(Chunks(order, batchSize, done), |data|)
        invariant outs == GatherEach(data, targets, Chunks(order, batchSize, done))
      {
        batch := batch + [order[k]];
        assert batch == order[start..k + 1];
        if |batch| == batchSize {
          assert batch == order[start..start + batchSize];
          QuotientAtLeast(|order|, batchSize, done + 1);
          ChunkStep(order, data, targets, batchSize, m, done, start, batch);
          outs := outs + [GatherBatch(data, targets, batch)];
          batch := [];
          done := done + 1;
          start := start + batchSize;
        }
      }
      OverrideEnd(order, subsets, done, start, batch);
    }

    /** `__iter__`, run to the end. `order` is the provider's index order for this iteration and
        the selector's i-th `get_subset` call returns `subsets[i]`; `calls` counts those calls. */
    method Iter<T, U>(order: seq<nat>, data: seq<T>, targets: seq<U>, subsets: seq<seq<nat>>)
      returns (outs: seq<Output<T, U>>, calls: nat)
      requires |data| == |targets| && Admissible(order, |data|, subsets)
      ensures calls == SelectorCalls()
      ensures outs == Outputs(order, data, targets, subsets)
    {
      var batch: seq<nat> := [];
      outs := [];
      calls := 0;
      if overrideSubmodular {
        outs, batch := FillBatches(order, data, targets, subsets);
      } else if useIter {
        batch := subsets[calls];
        calls := calls + 1;
        outs := outs + [GatherBatch(data, targets, batch)];
      } else {
        var nBatches := (providerLength * EpochFraction) / batchSize;
        for i := 0 to nBatches
          invariant calls == i
          invariant batch == if i == 0 then [] else subsets[i - 1]
          invariant AllInRange(subsets[..i], |data|)
          invariant outs == GatherEach(data, targets, subsets[..i])
        {
          SubsetStep(data, targets, subsets, i, nBatches);
          batch := subsets[calls];
          calls := calls + 1;
          outs := outs + [GatherBatch(data, targets, batch)];
        }
      }
      if |batch| > 0 && !dropLast {
        outs := outs + [Raw(batch)];
      }
    }
  }
}
