# Flower-Recognition: index bookkeeping of the train/test split, in Dafny

The experiment script trains classifiers on a dataset of photos laid out as
consecutive blocks, one block per flower class (17 classes of 80 photos by
default). Apart from calls into scikit-learn, its only logic is index bookkeeping:

- `create_test_subset` visits every block start that `range(0, size, num_photos_class)`
  produces. For each start `i` it draws `objs_class` integers from `[i, i + 80)` and
  concatenates the groups in block order. Duplicates are kept.
- `generate_train_test_masks` returns that test sequence unchanged. Training is every
  position of `[0, size)` that occurs nowhere among the test values, in ascending order.
- `generate_num_labels` gives position `i` the label `i // num_photos_class`.

The model is functional. The random generator is a parameter: `draws[j]` is the group
`np.random.randint` hands back for the j-th block start. `TestSubset.ValidDraws` says
what it may hand back: one group per visited start, `objs_class` values per group, each
value in its block's window. The draws need to be valid only where the source reaches
the generator. Python and numpy exceptions become `Errors.Result` values:

- `range` with step 0 raises `ZeroStep`.
- `randint` with a negative count raises `NegativeDimensions`. This happens only once
  a block start is visited.
- `np.zeros` with a negative total raises `NegativeDimensions`.

Files, one module each: `errors.dfy`, `blocks.dfy` (what `range` visits, the draw
window, Python's `//`), `test_subset.dfy`, `train_test.dfy`, `labels.dfy`, and
`experiment.dfy` (the default parameters and concrete scenarios).

Three behaviours of `create_test_subset` are easy to miss:

- The draw window is the literal `80`, not the block size.
- `range` visits a trailing partial block when `size` is not a whole number of blocks.
- For a positive step, every possible draw stays inside `[0, size)` exactly when the last
  visited start plus 80 is at most `size` (`TestSubset.DrawsBelowSizeIff`). Whole blocks
  of at least 80 are sufficient but not necessary: `size = 90` with a block size of 100
  also keeps every draw inside.

## Model

| member | source | states |
|---|---|---|
| Blocks.BlockCount | model.py:17 | The j-th start `j * step` is visited exactly when it is below `size` (above it for a negative step). |
| Blocks.BlockCountIsCeiling | model.py:17 | For a positive step and size, `range` visits `ceil(size / step)` starts. |
| Blocks.FloorDiv | model.py:47 | `a // b` rounds toward negative infinity: `b*q <= a < b*q + b` for `b > 0`, mirrored for `b < 0`. |
| TestSubset.CreateTestSubset | model.py:15-20 | Raises `ZeroStep` for step 0. Raises `NegativeDimensions` for a negative count once a start is visited. Otherwise the length is starts × count, element t is element `t % count` of group `t / count`, and it lies in `[start, start + 80)` of block `t / count`. |
| TestSubset.ConcatGrouped | model.py:16-18 | Joining equal-width groups in order puts element t of the result at position `t % width` of group `t / width`. |
| TestSubset.TestLengthIsCeiling | model.py:17-18 | The test sequence has `ceil(size / step) * objs_class` elements. |
| TestSubset.DrawsBelowSize | model.py:17-18 | If the last window ends at or below `size`, every test value lies in `[0, size)`. |
| TestSubset.TopDrawEscapes | model.py:17-18 | If the last window passes `size`, some valid draw yields a test value of at least `size`. |
| TestSubset.DrawsBelowSizeIff | model.py:17-18 | Every value of every valid draw lies in `[0, size)` if and only if the last window fits below `size`. |
| TestSubset.NegativeStepDrawsNothing | model.py:17-18 | With a negative step and `size >= 0`, `range` visits no start and the test sequence is empty. |
| TestSubset.AlignedDrawsBelowSizeIff | model.py:17-18 | For `size = blocks * step`, exactly `blocks` starts are visited. Draws stay below `size` if and only if `step >= 80`. |
| TrainTest.Unmarked | model.py:31-32 | `np.where(mask == 0)` is strictly ascending and holds exactly the clear positions of the mask. |
| TrainTest.Training | model.py:29-32 | Training is strictly ascending and holds exactly the positions of `[0, size)` absent from the test values. |
| TrainTest.GenerateTrainTestMasks | model.py:23-35 | Fails exactly when `create_test_subset` raises, with the same error. Otherwise the test sequence is returned unchanged, and training is ascending, inside `[0, size)`, disjoint from the test values, and with them covers `[0, size)`. |
| TrainTest.TrainingLength | model.py:29-32 | The training length is `size` minus the number of distinct test values inside `[0, size)`. It is at least `size - len(test)`. |
| TrainTest.NoQuotaTrainsOnEverything | model.py:15-32 | With `objs_class = 0` the test sequence is empty and training is `0, 1, ..., size - 1`. |
| Labels.GenerateNumLabels | model.py:41-48 | Raises `NegativeDimensions` exactly when the total is negative. Otherwise the length is `num_classes * num_photos_class`, and label i is the floor quotient `i // num_photos_class`. |
| Labels.LabelMeansBlock | model.py:43-47 | Position i has label c exactly when i lies in block c, `[c*B, c*B + B)`. |
| Labels.LabelsSorted | model.py:43-47 | Labels never decrease along the vector. |
| Labels.LabelsInRange | model.py:43-47 | Every label lies in `[0, num_classes)`. |
| Labels.ClassCounts | model.py:43-47 | Each class occurs exactly `num_photos_class` times. No other value occurs. |
| Experiment.DefaultSplit | model.py:23-47 | With 17 × 80 photos and 4 draws per class: 68 test values, all valid positions, test value t has label `t / 4`, and training has `1360 - len(set(test))` elements. |
| Experiment.DefaultLabels | model.py:41-48 | The default label vector has 1360 entries. The first 80 are 0 and the last 80 are 16. |
| Experiment.DuplicateDrawsKept | model.py:18-32 | A repeated draw stays twice in the test sequence but removes one training position. Training and test together exceed `size`. |
| Experiment.SmallBlocksDrawPastSize | model.py:17-32 | With blocks of 5, a valid draw can return 79 for a 10-photo dataset. That value removes nothing from training. |
| Experiment.PartialBlockVisited | model.py:17-18 | For 100 photos in blocks of 80, `range` visits two starts, and the second group may reach 159. |

## Left out

- `fit_and_error`, `svm`, `rf` (model.py:53-90): fitting and scoring belong to
  scikit-learn, and the scores are floating point.
- `paint_roc_curve` (model.py:95-124): ROC/AUC numerics, plotting and writing a PNG file.
- `cv_rf`, `cv_svm` (model.py:130-155): scikit-learn cross-validation, float statistics
  and printing.
- `np.random.randint` itself: the model takes its output as the `draws` parameter,
  constrained by `ValidDraws`. The distribution and the process-wide generator state are
  not modelled.
- numpy array types: test and training are `seq<int>`. The float dtype of an empty test
  array is not modelled.
- Labels.GenerateNumLabels: the `np.int32` storage of labels is not modelled. A label
  outside the 32-bit range needs a vector of more than 2^31 entries.
- Labels.LabelsSorted, Labels.LabelsInRange, Labels.ClassCounts, Labels.LabelMeansBlock:
  stated for a positive block size only. For a negative block size, only the
  floor-quotient contract of `GenerateNumLabels` is stated.
- TestSubset.DrawsBelowSizeIff, TestSubset.DrawsBelowSize, TestSubset.TopDrawEscapes:
  stated for a positive step and at least one draw per block only. For a negative step
  the property holds exactly when `size >= 0`, because then no start is visited and the
  test sequence is empty (`TestSubset.NegativeStepDrawsNothing`). When `size < 0`, `[0, size)` is empty, so every draw lies
  outside it.
- TestSubset.CreateTestSubset: numpy's integer width is not modelled. `randint` raises a
  ValueError when `i` or `i + 80` leaves the range of `np.int_` (64 bits, or 32 bits on
  Windows before numpy 2), and `np.arange` has a size limit of its own. The model returns
  `Ok` for such starts, because Dafny integers are unbounded.
