# Slicing utilities of Snorkel, modelled in Dafny

This project models `snorkel/slicing/utils.py`. Those utilities make a multi-task
classifier slice-aware. A *slice* is a named subset of the examples, given as one
column of a 0/1 membership matrix. Every list of slice names is first normalised to
contain the implicit slice `"base"`, which covers every example. From a base task and
the slices, the utilities produce two things:

- **slice labels**: for every slice, an indicator label array (is the example in the
  slice) and a predictor label array (the base label inside the slice, 0 outside). Both
  are written into the dataset's label map in place;
- **slice tasks**: the base task is rewritten into N indicator tasks, N predictor tasks
  and a master task, where N is the number of normalised slice names. All of them are
  built on the base task's body, the base task's flow without its last (head) operation.
  The indicator and predictor tasks share the base task's module pool, which is updated
  in place: the old head is removed, and per slice an indicator head, a predictor
  transform and the one shared predictor head are registered. The master task gets a new
  pool holding a slice combiner and the original head.

The files follow the source's parts:

| file | module | models |
|---|---|---|
| `collections.dfy` | `Collections` | distinctness of a sequence, and facts about sequences and maps grown one element at a time |
| `slice_names.dfy` | `SliceNames` | the base slice name, base-name normalisation of a name list, the f-string naming scheme and its injectivity |
| `base_slice.dfy` | `BaseSlice` | the membership matrix and `_add_base_slice` |
| `tasks.dfy` | `Tasks` | modules (objects, compared by identity), module pools (shared, mutable), operations, tasks |
| `slice_labels.dfy` | `SliceLabels` | `add_slice_labels`: the label store as a mutable map, the loop that fills it, its error cases |
| `slice_tasks.dfy` | `SliceTasks` | `convert_to_slice_tasks`: the two loops that extend the shared pool, the master task, and the specification functions they are proved against |

Representation choices:

- A module is a `class` whose kind is fixed at construction: a linear layer with its
  input and output sizes, a data-parallel wrapper, the slice combiner, or another
  module. Two pool entries hold "the same module" exactly when they hold the same
  reference. This is how the model states that the predictor head is shared, and that
  the master head is the original head object.
- A module pool is a `class` with a `map<string, Module>` field. Tasks hold a
  reference to it, so every slice task sees every later update of the base pool, as the
  source does.
- The rule that names an operation after its module (in the `Operation` constructor,
  which is not part of this model) is a parameter `opName`. The conversion of 0/1
  indicators to categorical labels (`convert_labels`, also not part of this model) is a
  parameter `convert`, applied to each membership value.
- Name lists are values, so the caller's list is never changed. Appending `"base"`
  builds a new list, as the source's `slice_names + ["base"]` does.

## Model

| member | source | states |
|---|---|---|
| SliceNames.WithBase | snorkel/slicing/utils.py:94-95 | the normalised list contains "base"; it starts with the given names; it is one longer exactly when "base" was missing; it has no repeats if the input had none |
| SliceNames.TaskNamesInjective | snorkel/slicing/utils.py:50-51 | indicator and predictor task names determine their slice, never coincide with each other, and never equal the base task's name |
| SliceNames.ModuleNamesInjective | snorkel/slicing/utils.py:120-156 | indicator head names (built at lines 120-121), predictor head names and predictor transform names (built at lines 155-156) determine their slice and never coincide across roles |
| BaseSlice.AddBaseSlice | snorkel/slicing/utils.py:221-233 | if "base" is present, matrix and names are returned unchanged; otherwise one all-ones column is appended (row count kept, old entries kept) and "base" is appended to the names; 0/1 entries stay 0/1; width equals name count afterwards iff it did before |
| SliceLabels.PredictorLabels | snorkel/slicing/utils.py:46-48 | one label per example: 0 where the example is outside the slice, the base label where it is inside |
| SliceLabels.SliceLabelEntriesKeys | snorkel/slicing/utils.py:50-55 | the loop writes exactly the indicator and predictor task names of the slices, never the base task's name |
| SliceLabels.SliceLabelEntriesAt | snorkel/slicing/utils.py:43-55 | with distinct names, slice i's indicator key holds `convert` of column i and its predictor key holds the predictor labels of column i |
| SliceLabels.IndicatorIgnoresBaseLabels | snorkel/slicing/utils.py:46-48 | changing the base labels changes no indicator entry: only predictor keys can differ |
| SliceLabels.SliceLabelStore | snorkel/slicing/utils.py:41-55 | after the writes, the store's keys are the old keys plus the slice keys; every other entry, including the base task's labels, is unchanged; with distinct names every slice key holds its own labels |
| SliceLabels.WriteSliceLabels | snorkel/slicing/utils.py:43-55 | the loop leaves the store equal to the old store updated with every slice's two entries, in slice order |
| SliceLabels.AddSliceLabels | snorkel/slicing/utils.py:17-55 | fails with a shape mismatch iff the normalised width differs from the normalised name count; fails if the base task has no labels, or if they are not one per example; a failure changes nothing; on success the store is extended as SliceLabelStore states |
| SliceTasks.IndHeadOpsAt | snorkel/slicing/utils.py:118-134 | the accumulated indicator operations are one per slice, in slice order |
| SliceTasks.PredOpsAt | snorkel/slicing/utils.py:151-173 | the accumulated predictor operations are a transform then a head per slice, in slice order |
| SliceTasks.MasterFlowShape | snorkel/slicing/utils.py:202-210 | the master flow has length (L-1)+3N+2 and starts with the body; then come every indicator operation, every transform/head pair, the combiner with no inputs, and the master head fed by output 0 of the combiner |
| SliceTasks.ExpandedTasksAt | snorkel/slicing/utils.py:118-218 | the result has 2N+1 tasks. Indicator task i: named after slice i, shares the base pool, F1 scorer, flow = body + one op on the slice's indicator head with the old head's inputs. Predictor task i: shares the base pool, keeps the base scorer, flow = body + transform op (old head's inputs) + head op fed by the transform. Master task: base name, base scorer, its own pool |
| SliceTasks.TaskNameLayoutDistinct | snorkel/slicing/utils.py:120-188 | a list of indicator names, then predictor names, then the base name, has no repeats iff the slice names have none |
| SliceTasks.ExpandedTaskNamesDistinct | snorkel/slicing/utils.py:118-218 | the 2N+1 returned task names are pairwise distinct iff the slice names are |
| SliceTasks.SliceModuleNamesDistinct | snorkel/slicing/utils.py:118-163 | with distinct names, the per-slice module names are pairwise distinct, and indicator head names never clash with predictor module names |
| SliceTasks.IndicatorEntriesKeys | snorkel/slicing/utils.py:118-127 | the first loop registers exactly the indicator head names |
| SliceTasks.IndicatorEntriesAt | snorkel/slicing/utils.py:118-127 | with distinct names, slice i's indicator head name holds the i-th new head |
| SliceTasks.PredictorEntriesKeys | snorkel/slicing/utils.py:150-163 | the second loop registers exactly the transform and predictor head names |
| SliceTasks.PredictorEntriesAt | snorkel/slicing/utils.py:150-163 | with distinct names, slice i's transform name holds the i-th new transform, and every predictor head name holds the one shared head |
| SliceTasks.AddIndicatorTask | snorkel/slicing/utils.py:120-147 | one iteration: a fresh Linear(neck, 2) head, not one made earlier, is registered under the slice's head name, and the slice's indicator task and operation are returned |
| SliceTasks.AddIndicatorTasks | snorkel/slicing/utils.py:118-147 | the first loop returns the indicator tasks and operations of all slices; its heads are distinct, fresh Linear(neck, 2) modules; the pool becomes the old pool plus exactly those entries |
| SliceTasks.AddPredictorTask | snorkel/slicing/utils.py:153-185 | one iteration: a fresh Linear(neck, neck) transform, distinct from earlier ones and from the shared head, and the shared head are registered under the slice's names; the slice's predictor task and its two operations are returned |
| SliceTasks.AddPredictorTasks | snorkel/slicing/utils.py:150-185 | the second loop creates one fresh Linear(neck, cardinality) head, then returns the predictor tasks and operations of all slices; its transforms are distinct, fresh, square, and not the shared head; the pool gains exactly their entries |
| SliceTasks.ExpandedPoolKeys | snorkel/slicing/utils.py:114-163 | the final base pool holds the old keys minus the head's name, plus every slice module name; every other entry is unchanged |
| SliceTasks.ExpandedPoolAt | snorkel/slicing/utils.py:118-163 | with distinct names, each slice module name in the final pool holds that slice's head, that slice's transform, or the shared head |
| SliceTasks.ConvertToSliceTasks | snorkel/slicing/utils.py:58-218 | returns ExpandedTasks for the normalised names. The master pool is new and holds exactly the combiner (a fresh SliceCombiner) and the original, unwrapped head. Neck and cardinality are the unwrapped head's sizes. The new indicator heads, the transforms and the shared predictor head are fresh, and they are pairwise distinct within and across roles. The base pool becomes the old pool minus the head plus both loops' entries. If no slice module reuses the head's name, the base task can no longer be converted |

## Left out

- Tensors and arrays: `torch.LongTensor`, `csr_matrix.toarray()`, `np.hstack`, `nn.Linear` weights and initialisation, and `nn.ModuleDict` are not modelled. A matrix is a dense `seq<seq<int>>` with an explicit width, and a linear layer keeps only its input and output sizes.
- `convert_labels`, the `Operation` constructor's naming rule, `SliceCombinerModule`'s forward computation, `Scorer` (kept as its metric list) and `DictDataLoader` are not part of this model. The first two are parameters. The loader is replaced by the dataset's label store, which is passed in directly.
- Training, evaluation and the numeric behaviour of any module.
- Integer width: labels are unbounded integers; the source's 64-bit tensors cannot overflow on 0/1 times a label.
- SliceLabels.AddSliceLabels: a base label array whose length differs from the number of examples is always an error here, including the cases torch would broadcast: a length-1 label array, and a single example (a one-row membership column) with more than one label.
- SliceLabels.AddSliceLabels: the per-slice label values are stated only for distinct slice names; with repeated names later writes overwrite earlier ones, and only the set of keys is stated.
- SliceTasks.ConvertToSliceTasks: the per-slice pool values are stated (by ExpandedPoolAt) only for distinct slice names, for the same reason.
- SliceTasks.ConvertToSliceTasks: requires a non-empty flow whose last operation's module is in the pool and is, after unwrapping, a linear layer; the source fails with an exception otherwise, and that failure is not modelled.
