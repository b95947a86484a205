# model_summary, modelled in Dafny

This project models `model_summary` from `src/smartai/models/nn/base.py`. The function prints
a Keras-style table of a PyTorch model's layers. It does five things:

- it lower-cases the device and asserts that it is `"cuda"` or `"cpu"`;
- it wraps a single input size in a list;
- it registers a forward hook on every sub-module that is neither an `nn.Sequential`, nor an
  `nn.ModuleList`, nor the model itself;
- on each firing, a hook adds one entry to an ordered dictionary. The key is the label
  `"<ClassName>-<k>"`. The entry holds the input and output shapes with the batch dimension
  overwritten, the parameter count, and a `trainable` flag when the module has a weight;
- after the forward pass, a loop adds up the total and trainable parameter counts.

The model is built in five modules:

- `Text`: Python's `str.split` and `str.join` on one separator, the `%i` rendering, and the
  class-name extraction from `str(module.__class__)`;
- `Device`: the device check;
- `Shapes`: input normalisation and the batch-dimension rewrite;
- `Layers`: the hook filter, the record a firing builds, and the `summary` OrderedDict as the
  class `LayerTable`, whose `Hook` method is one firing;
- `Summary`: the registration loop, the firing loop, the report loop, and the whole call with
  the failures it models. These are the device assertion, an IndexError in a hook, a raise in
  the forward pass, ragged shapes given to `np.prod`, and `.numpy()` on a plain integer. Other
  failures are listed under "## Left out".

PyTorch itself is outside the model. The model is given:

- the modules `model.apply` visits, in order;
- the forward calls that complete, each with its module, the sizes of its positional
  arguments and its output;
- whether the forward pass then raises.

PyTorch runs every hook registered on a module, so a module that `model.apply` reaches twice
fires twice. `Summary.Firings` models exactly that: its contract counts the firings, and
`Summary.FiringsSound`, `Summary.FiringsComplete` and `Summary.TwiceVisitedFiresTwice` state the
rest.

Three details of the source decide how the model behaves:

- The hooks are removed only after `model(*x)` returns normally. There is no `try`/`finally`, so
  a raise in the forward pass leaves every hook attached (`Summary.HooksLeakOnRaise`). This is
  recorded under "## Findings".
- List and tuple outputs get `-1` at index 0, whatever `batch_size` is
  (`Shapes.ListElementShape`).
- The docstring names `'cuda'` as the default device, but the code's default is `"cpu"`.

## Model

| member | source | states |
|---|---|---|
| Device.CheckDevice | src/smartai/models/nn/base.py:90-94 | a device that passes the check lower-cases to one of "cuda" and "cpu" |
| Device.CheckDeviceAccepts | src/smartai/models/nn/base.py:90-94 | the check passes if and only if the device spells "cuda" or "cpu" in some mix of upper and lower case |
| Device.CheckDeviceExamples | src/smartai/models/nn/base.py:90-94 | "cpu", "CUDA" and "Cpu" pass and lower-case to "cpu", "cuda" and "cpu"; "gpu" and "cuda:0" fail |
| Device.Lower | src/smartai/models/nn/base.py:90 | lower-casing keeps the length and lower-cases each character on its own |
| Summary.RejectedDevice | src/smartai/models/nn/base.py:90-94 | whatever the model and inputs, a device that is not "cuda" or "cpu" in some case ends the call with the assertion failure, with no hook attached |
| Shapes.Normalize | src/smartai/models/nn/base.py:102-103 | a tuple input size becomes a one-element list holding it; a list is left as it is |
| Shapes.SyntheticShape | src/smartai/models/nn/base.py:106 | the shape of `torch.rand(2, *in_size)`: a batch of 2 in front of the size (no contract of its own; `Shapes.SyntheticInputs` states it for every input) |
| Shapes.SyntheticInputs | src/smartai/models/nn/base.py:106 | one synthetic input per normalised size: a batch of 2 in front of that size |
| Shapes.WithBatch | src/smartai/models/nn/base.py:65-66 | overwriting index 0 succeeds if and only if the size has a dimension; the result keeps the length, holds the batch size at 0 and keeps every other dimension |
| Shapes.ListElementShape | src/smartai/models/nn/base.py:67-70 | each element of a list or tuple output gets -1 at index 0 (never the batch size) and keeps its other dimensions; a zero-dimensional element gives [-1] |
| Shapes.Product | src/smartai/models/nn/base.py:77 | `torch.prod(torch.LongTensor(size))`: the element count of a size, 1 for an empty size (no contract of its own; see `Shapes.ProductZero` and `Layers.LinearParams`) |
| Shapes.ProductZero | src/smartai/models/nn/base.py:77 | a parameter tensor counts zero elements if and only if one of its dimensions is zero |
| Text.Split | src/smartai/models/nn/base.py:60 | `str.split` on one separator gives at least one piece, and no piece holds the separator |
| Text.JoinSplit | src/smartai/models/nn/base.py:60 | joining the pieces of a split with the separator gives back the text |
| Text.SplitJoin | src/smartai/models/nn/base.py:60 | splitting a join of separator-free pieces gives back the pieces |
| Text.ClassName | src/smartai/models/nn/base.py:60 | the extracted class name holds neither '.' nor a quote |
| Text.CanonicalClassName | src/smartai/models/nn/base.py:60 | for the repr `<class 'pkg.mod.Name'>` the extracted class name is `Name` |
| Text.Digits | src/smartai/models/nn/base.py:63 | `%i` of a natural number is a nonempty string of decimal digits with no leading zero unless the number is 0 |
| Text.ParseDigits | src/smartai/models/nn/base.py:63 | reading the `%i` digits back gives the number |
| Text.LabelInjective | src/smartai/models/nn/base.py:63 | two equal labels have the same number and the same class name, even for class names holding '-' or digits |
| Layers.ParamCount | src/smartai/models/nn/base.py:75-81 | the count is 0 without a weight or a bias, and at least the element count of each one present |
| Layers.ParamCountZero | src/smartai/models/nn/base.py:75-81 | the count is 0 if and only if every weight or bias present has a zero dimension |
| Layers.LinearParams | src/smartai/models/nn/base.py:75-81 | an `nn.Linear(n, m)` with a bias counts m*n + m parameters |
| Layers.Conv2dParams | src/smartai/models/nn/base.py:75-81 | an `nn.Conv2d` with a bias counts o*i*kh*kw + o parameters |
| Layers.TrainableFlag | src/smartai/models/nn/base.py:76-78 | the `trainable` entry exists if and only if the module has a weight, and is then the weight's `requires_grad` |
| Layers.OutputShapeOf | src/smartai/models/nn/base.py:67-73 | recording the output fails if and only if it is a zero-dimensional single tensor; a single tensor gets the batch size at 0, and a list or tuple gets one -1-headed shape per element |
| Layers.MakeRecord | src/smartai/models/nn/base.py:59-81 | a firing builds a record if and only if the module has an input and the first input and a single output each have a dimension; otherwise the hook raises IndexError |
| Layers.MakeRecordFields | src/smartai/models/nn/base.py:65-81 | a built record holds the first input's size with the batch size at 0, the output shape, the `trainable` flag, the parameter count, and whether that count became a tensor |
| Layers.FreshLabel | src/smartai/models/nn/base.py:61-63 | the label numbered one past the table length is not yet in a table of consecutively numbered labels |
| Layers.Hooked | src/smartai/models/nn/base.py:83-87 | the hook filter: a module that is not a Sequential, not a ModuleList and not the model itself (no contract of its own; `Summary.HookedIdsMembers` states its use) |
| Text.Label | src/smartai/models/nn/base.py:63 | the label `"%s-%i" % (class_name, k)` (no contract of its own; `Text.LabelInjective` states that it is injective) |
| Layers.LayerTable.constructor | src/smartai/models/nn/base.py:110 | a new `summary` is an empty ordered dictionary |
| Layers.LayerTable.Put | src/smartai/models/nn/base.py:64 | OrderedDict assignment: an existing key keeps its place and gets the new value, and a new key goes last |
| Layers.LayerTable.Hook | src/smartai/models/nn/base.py:59-81 | one firing appends exactly one entry, labelled with the class name and the old length plus 1, and changes no existing entry; a firing that raises leaves the table as it was; the labels stay distinct and consecutively numbered |
| Summary.HookedIds | src/smartai/models/nn/base.py:88 | the `hooks` list after registration: at most one hook per visit, and never the model's own id |
| Summary.RegisterHooks | src/smartai/models/nn/base.py:83-88 | the registration loop registers one hook per visited module that passes the filter, in visiting order |
| Summary.HookedIdsMembers | src/smartai/models/nn/base.py:83-88 | a module gets a hook if and only if it is visited and is not a Sequential, not a ModuleList and not the model itself |
| Summary.HookedIdsExclusions | src/smartai/models/nn/base.py:83-88 | the model itself never gets a hook; when no visited module passes the filter, no hook is registered |
| Summary.HookedIdsDistinct | src/smartai/models/nn/base.py:83-88 | when `model.apply` visits each module once, each module holds at most one hook |
| Summary.Count | src/smartai/models/nn/base.py:114-118 | a module holds some hook if and only if its id was registered |
| Summary.Firings | src/smartai/models/nn/base.py:118 | the number of firings is the number of hooks on the called modules, added up over the calls: each call fires once per hook on its module |
| Summary.FiringsSound | src/smartai/models/nn/base.py:118 | every firing is a completed call of a module that holds a hook |
| Summary.FiringsComplete | src/smartai/models/nn/base.py:118 | every completed call of a module that holds a hook fires |
| Summary.TwiceVisitedFiresTwice | src/smartai/models/nn/base.py:83-88 | a module that `model.apply` reaches twice carries two hooks, and one call of it fires twice |
| Summary.CountDistinct | src/smartai/models/nn/base.py:114-118 | with distinct hooks, a module holds one hook if it was registered and none otherwise |
| Summary.FiringsOfDistinctHooks | src/smartai/models/nn/base.py:114-118 | with at most one hook per module, the firings are exactly the calls of hooked modules, in call order |
| Summary.NoHooksNoFirings | src/smartai/models/nn/base.py:114-118 | without hooks nothing fires |
| Summary.TableOf | src/smartai/models/nn/base.py:59-81 | a completed table has one entry per firing |
| Summary.TableOfLayers | src/smartai/models/nn/base.py:59-81 | the firings complete if and only if every firing builds its record; entry i is then labelled "<ClassName>-<i+1>" and holds the record of firing i |
| Summary.TableLabelsDistinct | src/smartai/models/nn/base.py:60-64 | the labels of a table are pairwise distinct |
| Summary.TableBatchDimension | src/smartai/models/nn/base.py:65-73 | every input shape and single output shape holds the batch size at index 0, and every list output shape holds -1 there |
| Summary.RunHooks | src/smartai/models/nn/base.py:118 | running the firings in order on an empty table leaves it equal to the table of those firings, or stops with the hook's IndexError |
| Summary.CountsAsTrainable | src/smartai/models/nn/base.py:140 | an entry counts as trainable when its `trainable` entry exists and is true (no contract of its own; `Summary.NoWeightNotTrainable` states its use) |
| Summary.SumParams | src/smartai/models/nn/base.py:138 | `total_params`: the counts of all entries added up in table order (no contract of its own; see `Summary.SumsBound` and `Summary.TotalsSplit`) |
| Summary.SumTrainable | src/smartai/models/nn/base.py:140-141 | `trainable_params`: the counts of the trainable entries added up (no contract of its own; see `Summary.SumsBound` and `Summary.TotalsSplit`) |
| Summary.SumsBound | src/smartai/models/nn/base.py:138-141 | each entry's count is at most `total_params`, and each trainable entry's count is at most `trainable_params` |
| Summary.RowOf | src/smartai/models/nn/base.py:133-137 | the printed row of an entry: its label, its output shape and its parameter count (no contract of its own; `Summary.Totals` states the rows) |
| Summary.ReportOf | src/smartai/models/nn/base.py:131-153 | the printed report: one row per entry and the three totals (no contract of its own; see `Summary.ReportTotals` and `Summary.ReportKeys`) |
| Summary.Ragged | src/smartai/models/nn/base.py:139-145 | shapes of unequal length, on which `np.prod` raises at lines 139 and 145 (no contract of its own; `Summary.Totals` and `Summary.SummaryOf` state its use) |
| Summary.RaggedOutput | src/smartai/models/nn/base.py:139 | an entry whose list output has shapes of unequal length, so that `np.prod(output_shape)` raises (no contract of its own; `Summary.Totals` states its use) |
| Summary.AnyTensorCount | src/smartai/models/nn/base.py:147 | some entry's `nb_params` is a tensor, so `total_params` is one and has `.numpy()` (no contract of its own; see `Summary.ParameterFreeRaises`) |
| Summary.TotalsSplit | src/smartai/models/nn/base.py:128-141 | the total is the trainable sum plus the sum of the other layers, so the trainable sum never exceeds the total |
| Summary.Totals | src/smartai/models/nn/base.py:128-142 | the report loop gives one row per entry in table order, the total of all counts, the trainable sum, and whether the total became a tensor; it stops early if and only if some list output is ragged |
| Summary.TotalsStep | src/smartai/models/nn/base.py:138-141 | one more entry adds its count to the total, adds it to the trainable sum only when its `trainable` entry is true, and updates the tensor and ragged flags |
| Summary.ReportOfTotals | src/smartai/models/nn/base.py:128-153 | what the report loop computes is the report of the table |
| Summary.NoWeightNotTrainable | src/smartai/models/nn/base.py:140-141 | an entry without a weight never counts as trainable, even with a bias |
| Summary.ZeroCountsZeroTotals | src/smartai/models/nn/base.py:128-141 | a table whose counts are all zero has zero totals |
| Summary.SummaryOf | src/smartai/models/nn/base.py:90-153 | the outcome of a call as written, with the failures checked in the source's order (no contract of its own; `Summary.OutcomeFailures` states its properties) |
| Summary.IntendedSummaryOf | src/smartai/models/nn/base.py:90-153 | the outcome as evidently intended: as written, except that a table with no weight or bias reports zero totals and that no failure leaves a hook attached (no contract of its own; see `Summary.OutcomeFailures` and `Summary.SummaryAgreesWithIntended`) |
| Summary.OutcomeFailures | src/smartai/models/nn/base.py:90-153 | the device failure happens if and only if the device check fails; hooks stay attached only after an IndexError in a hook or a raise in the forward pass; the intended outcome never fails on `.numpy()` and never leaves a hook attached |
| Summary.ReportedReport | src/smartai/models/nn/base.py:118-153 | a printed report is the report of the completed table of the firings |
| Summary.ReportKeys | src/smartai/models/nn/base.py:60-64 | the report of a completed table has one row per firing, and row i is labelled with the firing's class name and i + 1 |
| Summary.ModelSummary | src/smartai/models/nn/base.py:90-153 | the whole call ends in the outcome `SummaryOf` gives, with the failures checked in the source's order |
| Summary.ReportTotals | src/smartai/models/nn/base.py:128-153 | in a printed report, trainable ≤ total, non-trainable = total − trainable ≥ 0, and there is one row per firing |
| Summary.OneRowPerHookedCall | src/smartai/models/nn/base.py:58-88 | when each module is visited once, the report has one row per call of a hooked module, labelled "<ClassName>-<k>" with k counting the calls from 1 |
| Summary.HooksLeakOnRaise | src/smartai/models/nn/base.py:114-122 | as written: a forward pass that raises leaves every registered hook attached |
| Summary.IntendedRemovesHooks | src/smartai/models/nn/base.py:114-122 | as intended: a forward pass that raises propagates its failure with no hook left attached |
| Summary.SummaryAgreesWithIntended | src/smartai/models/nn/base.py:114-147 | the code as written and the intended behaviour differ only in two cases: on tables with no weight or bias, where the code raises and the intended behaviour reports; and on a raise that leaves hooks attached, where the intended behaviour raises the same failure with none attached |
| Summary.ParameterFreeRaises | src/smartai/models/nn/base.py:128-147 | as written: when no firing module has a weight or a bias, `.numpy()` on the plain-integer total raises |
| Summary.ParameterFreeReported | src/smartai/models/nn/base.py:128-153 | as intended: the same calls report one row per firing and zero totals |
| Summary.ContainersOnly | src/smartai/models/nn/base.py:128-147 | a model made only of containers reports no rows and zero totals as intended; as written it raises on `.numpy()` |
| Summary.LinearExample | src/smartai/models/nn/base.py:47-153 | a model holding one `nn.Linear(n, m)`, summarised on "CPU", reports one row "<Name>-1" with output shape [-1, m] and m*n + m trainable parameters |
| Summary.LinearTable | src/smartai/models/nn/base.py:59-88 | the one `nn.Linear(n, m)` firing builds the table with the single entry "<Name>-1", shapes [-1, n] and [-1, m], trainable, and m*n + m parameters |

## Left out

- `Model.fit`, `Model.plot_train_history` and `Model.summary` (lines 31-44) only hand over to
  training, plotting and `model_summary`, and have no logic of their own to model.
- PyTorch is not modelled. This covers `model.apply`, `register_forward_hook`, the forward pass
  `model(*x)`, `h.remove()`, the `dtype` choice and the CUDA availability test (lines 96-99 and
  114-122). The visited modules, the completed calls and whether the forward pass raises are
  parameters instead. Of `torch.rand(2, *in_size)` (line 106) only the shape is modelled
  (`Shapes.SyntheticInputs`); the random values are not.
- Summary.Report: its `inputs` field, the synthetic input shapes, is bookkeeping that ties a
  report to line 106. The source neither prints nor returns it, and the "Input size (MB)"
  figure built from `input_size` is left out with the other memory estimates.
- Layers.Call: the hook's AttributeError paths are not modelled. They arise when the first
  positional argument is not a tensor (line 65), when an element of a tuple output is not a
  tensor, such as `nn.LSTM`'s `(out, (h, c))` (line 69), or when a single output is a dict or
  `None` (line 72). The model takes every argument and output element to be a tensor.
- The memory estimates (lines 129, 139 and 144-148) are floating-point numpy arithmetic and are
  left out. Only the ways they can raise are modelled:
  - ragged list output shapes (line 139);
  - ragged input sizes (line 145);
  - `.numpy()` on a plain-integer total (line 147).
- The printed lines and their fixed-width formatting (lines 124-159) are console output. They
  are modelled as the report's rows and totals.
- Layers.ParamCount: `nb_params` is an int64 tensor, which wraps past 2^63 - 1. The model
  counts with unbounded naturals.
- Device.Lower: lower-cases ASCII letters only. No non-ASCII character lower-cases to a letter
  of "cuda" or "cpu", so the check's verdict does not depend on this.
- Layers.LayerTable.Hook: when the hook raises IndexError, the source has already put an empty
  entry in `summary`. The model leaves the table unchanged instead, because it assumes that a
  hook's error propagates out of `model(*x)` and ends the call. If a parent module's forward
  caught the error, the empty entry would stay: later labels would shift by one, and line 135
  would raise KeyError on it. The model does not capture that case.
- Summary.RejectedDevice: assumes Python runs with assertions enabled. Under `python -O` the
  `assert` at line 91 is skipped, and any device string passes the check.
- Layers.Module: a missing `weight` or `bias` attribute and one that is not a tensor (such as
  `bias=None`) are both modelled as absent, because the source treats them alike.
- setup.py is packaging metadata.

## Findings

| source | as written | input that shows it | evidently intended | confidence | as-written member | corrected member |
|---|---|---|---|---|---|---|
| src/smartai/models/nn/base.py:147 | `total_params` starts as the integer 0 and becomes a tensor only when some layer adds a weight or bias count; `total_params.numpy()` then raises AttributeError on a plain int | a model whose hooked layers have no weight or bias, such as `nn.Sequential(nn.ReLU())`, or a model made only of containers | the summary is printed with zero total, trainable and non-trainable parameters | not executed | Summary.ParameterFreeRaises | Summary.ParameterFreeReported |
| src/smartai/models/nn/base.py:118-122 | the hooks are removed by a loop after `model(*x)`, with no `try`/`finally`, so a raise in the forward pass or in a hook skips the removal | `model_summary(nn.Sequential(nn.Linear(4, 2)), (3,))`: the forward pass raises a shape mismatch, and the Linear layer keeps its hook, which fires on every later call of the model | every hook is removed however the forward pass ends | not executed | Summary.HooksLeakOnRaise | Summary.IntendedRemovesHooks |
