# SubmodularBatchSampler, modelled in Dafny

`SubmodularBatchSampler` (lib/samplers/submodular_batch_sampler.py) is a PyTorch batch sampler.
Each epoch it yields training batches, each a pair (rows of `dataset.data`, rows of
`dataset.targets`) gathered with `np.take` along the first axis. Three policies exist, picked
in a fixed order:

- **override** (`override_submodular_sampling`): the provider's indices are buffered and each
  full buffer of `batch_size` indices is gathered and yielded;
- **iterative** (`use_iter`): one subset is fetched from the submodular selector and yielded;
- **epoch** (the default): `n_batches = (len(sampler) * r) // batch_size` subsets, with `r = 1`,
  are fetched and yielded one by one.

After that, the variable `batch` is yielded once more as a raw index list when it is non-empty
and `drop_last` is false. `__len__` is floor or ceiling division of the provider length by the
batch size. The constructor rejects a batch size that is not a positive non-bool integer and a
`drop_last` that is not a bool.

Files:

- `submodular_batch_sampler.dfy`, module `Samplers`: the argument checks (`CheckArgs`), the
  gather (`Gather`), and the class `SubmodularBatchSampler`. Its configuration fields are
  `const`, because the constructor sets them once. `Iter` is the imperative model of `__iter__`:
  it has the same selector loop, and a `calls` counter for the selector. The override-mode buffer
  loop (lines 45-50) is the method `FillBatches`, which `Iter` calls. `Iter` is proved to compute
  the reference definition `Outputs`, which is stated declaratively from these pieces:
  - `SelectorCalls` (lines 51-63) is the number of `get_subset` calls: 0 in override mode, 1 in
    iterative mode, and `n_batches` in epoch mode (`EpochBatches`, line 59).
  - `Selected` lists the index lists that are gathered, in yield order. In override mode these
    are the full `batch_size` chunks of the provider order (lines 46-49). Otherwise they are the
    subsets returned by the selector calls (lines 52 and 63).
  - `FinalBatch` is the value `batch` holds when line 67 is reached. In override mode it is the
    leftover buffer (the last reset is at line 50). In iterative mode it is the subset fetched at
    line 52. In epoch mode it is the last subset fetched at line 63, or `[]` when `n_batches` is 0.
  - `Trailing` is the yield at lines 67-68: `Raw(batch)` when `batch` is non-empty and `drop_last`
    is false, and nothing otherwise.
  - `Outputs` (lines 43-68) is `GatherEach` of `Selected`, followed by `Trailing` of `FinalBatch`.

  The condition `Admissible` says what an iteration needs from its inputs. The provider must
  yield `providerLength` indices and the selector must answer every call. Every index that
  is gathered must address a row. Indices that are only yielded raw are not constrained.
- `batching_properties.dfy`, module `BatchingProperties`: lemmas about `Outputs`, one mode at a time.

Collaborators are inputs:

- The index-order provider is its length `providerLength`, fixed at construction, plus the
  order `order` of one iteration, where `|order| == providerLength`.
- The selector is the sequence `subsets`: its i-th `get_subset` call returns `subsets[i]`.

The trailing yield is easy to misread as dead code outside override mode, but it is not. `batch`
is reassigned to the fetched subset at lines 52 and 63. So in iterative mode, and in epoch mode
with at least one batch, the last subset is yielded a second time as a raw list when it is
non-empty and `drop_last` is false. The model follows the code. `EpochLen` shows one
consequence for epoch mode. With `drop_last` set, one iteration yields exactly `__len__` units.
Suppose instead that `drop_last` is false, the provider length is a positive multiple of the
batch size, and the last subset is non-empty. Then one iteration yields one unit more than
`__len__`.

## Model

| member | source | states |
|---|---|---|
| `Samplers.CheckArgs` | lib/samplers/submodular_batch_sampler.py:27-33 | The arguments are accepted exactly when `batch_size` is a positive non-bool int and `drop_last` is a bool. A bad batch size gives the batch-size error first. With a good batch size, a non-bool `drop_last` gives the drop-last error. On success the checked values are returned unchanged. |
| `Samplers.SubmodularBatchSampler.Create` | lib/samplers/submodular_batch_sampler.py:27-39 | Construction fails exactly when `CheckArgs` fails, with the same error. On success it returns a fresh sampler whose fields equal the given batch size, `drop_last`, provider length and mode flags. |
| `Samplers.SubmodularBatchSampler.constructor` | lib/samplers/submodular_batch_sampler.py:35-39 | The fields hold exactly the given configuration. |
| `Samplers.Gather` | lib/samplers/submodular_batch_sampler.py:49 | For an index list whose indices all address a row, the result has the same length, and element k is `rows[idx[k]]`. So order is kept and nothing is sorted. |
| `Samplers.SubmodularBatchSampler.Len` | lib/samplers/submodular_batch_sampler.py:70-74 | With `drop_last`, the result n satisfies `n*bs <= L < n*bs + bs`, so it is floor(L/bs). Without it, `L <= n*bs < L + bs`, so it is ceil(L/bs). |
| `Samplers.CeilFromFloor` | lib/samplers/submodular_batch_sampler.py:74 | `(L + bs - 1) // bs` equals `L // bs` plus one exactly when `L % bs != 0`. |
| `Samplers.SubmodularBatchSampler.FillBatches` | lib/samplers/submodular_batch_sampler.py:44-50 | In override mode, the buffer loop over the provider order yields one gathered batch per full chunk of the order, in order. It leaves the last `L % bs` indices in the buffer. |
| `Samplers.SubmodularBatchSampler.Iter` | lib/samplers/submodular_batch_sampler.py:43-68 | One full iteration yields exactly `Outputs(order, data, targets, subsets)`. It makes exactly `SelectorCalls()` selector calls: 0 in override mode, 1 in iterative mode, `L // bs` in epoch mode. |
| `BatchingProperties.OutputsShape` | lib/samplers/submodular_batch_sampler.py:43-68 | In every mode, output i is the gather of the i-th selected index list. After the selected lists comes exactly one more output when the final `batch` is non-empty and `drop_last` is false, and that output is `Raw(batch)`. Otherwise there is nothing more. |
| `BatchingProperties.OverrideBatchAt` | lib/samplers/submodular_batch_sampler.py:45-49 | In override mode, chunk j < L//bs lies inside the order and all of its indices address rows. Output j is a gathered batch with `bs` rows and `bs` labels. Row k is `data[order[j*bs + k]]` and label k is `targets[order[j*bs + k]]`. |
| `BatchingProperties.OverrideCount` | lib/samplers/submodular_batch_sampler.py:45-50 | In override mode there are no selector calls, and the number of outputs equals `Len()`. There are L//bs outputs, plus one more exactly when `drop_last` is false and `L % bs != 0`. That extra output is `Raw` of the last `L % bs` provider indices. |
| `BatchingProperties.OverridePartition` | lib/samplers/submodular_batch_sampler.py:45-50 | In override mode, the gathered chunks followed by the leftover buffer are exactly the provider order. No index is lost, repeated or reordered. |
| `BatchingProperties.OverrideLeftoverNotIndexed` | lib/samplers/submodular_batch_sampler.py:45-68 | The leftover buffer is never used as an index into the dataset. With 3 indices `[0, 1, 5]`, batch size 2 and a 2-row dataset, the inputs are admissible. The iteration yields the batch of rows 0 and 1, then `Raw([5])`. |
| `BatchingProperties.OverrideTenByThree` | lib/samplers/submodular_batch_sampler.py:45-50 | With 10 indices and batch size 3 there are 4 outputs: three batches of 3 rows, then `Raw([order[9]])`. With `drop_last` set there are only the 3 batches. |
| `BatchingProperties.EpochOutputs` | lib/samplers/submodular_batch_sampler.py:57-68 | In epoch mode there are `L // bs` selector calls. Output i is the gather of `subsets[i]` alone. Then the last subset follows again as `Raw` exactly when there was at least one call, `drop_last` is false and that subset is non-empty. |
| `BatchingProperties.IterativeOutputs` | lib/samplers/submodular_batch_sampler.py:51-55 | In iterative mode there is one selector call and one gathered batch, `Gather` of `subsets[0]`, whatever L is. The subset follows again as `Raw` exactly when it is non-empty and `drop_last` is false. |
| `BatchingProperties.EpochLen` | lib/samplers/submodular_batch_sampler.py:58-74 | In epoch mode with `drop_last`, the output count equals `Len()`. Without `drop_last`, it is at most `Len()` when `L % bs != 0`. It is `Len() + 1` when `L % bs == 0`, `L >= bs` and the last subset is non-empty. Exactly, without `drop_last`: the output count plus one when `L % bs != 0` equals `Len()` plus one when `L >= bs` and the last subset is non-empty. |

## Left out

- The `sampler` argument, its default `RandomSampler` and the `isinstance(sampler, Sampler)` check (lines 20-26). The provider is given as its length and one iteration's index order, so it always has the capability that check asks for. Its randomness is outside the model.
- `SubModSampler` and its greedy submodular optimisation (line 40). It is an external module and is not part of this model. Its `get_subset` calls are the input sequence `subsets`, read in call order. Failures inside it are not modelled.
- Logging and `time.time()` timing (lines 60, 62, 64). They do not affect what is yielded.
- The global `cfg` object. `override_submodular_sampling` (read at line 39) and `use_iter` (read at line 51, on each iteration) are constructor parameters. The configuration never changes, so reading `use_iter` once gives the same behaviour.
- Generator suspension and early abandonment. One full iteration is modelled as the sequence of everything it yields. `Iter` changes no state, so a later iteration is independent of an abandoned one.
- Numpy arrays. A row is an opaque value of type `T` (a label of type `U`), and gathering along axis 0 is sequence indexing.
- Samplers.SubmodularBatchSampler.Iter: requires every index that is gathered to address a row, rather than modelling the `IndexError` that `np.take` raises part-way through an iteration. In override mode these are the indices of the full chunks. Otherwise they are the indices of the fetched subsets. The override leftover and a re-emitted subset are never gathered, so they are not constrained. Negative indices do not occur, because indices are `nat`.
- The `drop_last=False` default (line 19). `Create` always receives an explicit `drop_last`, so a caller that omits it passes `PyBool(false)`.
- The stored dataset (line 36). The model does not keep it as a field. Its `data` and `targets` are passed to each `Iter` call, and `|data| == |targets|` stands for the two arrays having the same first dimension.
- The commented-out random epoch fraction (line 57). The fraction is the constant `EpochFraction = 1`.
