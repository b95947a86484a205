/**
 * model_summary itself: check the device, normalise the input sizes, register
 * hooks over the modules `model.apply` visits, run the forward pass (given
 * here as the calls it makes), and walk the table adding up the totals.
 */
module Summary {
  import opened Wrappers
  import opened Text
  import opened Device
  import opened Shapes
  import opened Layers

  /* ---------------- Hook registration ---------------- */

  /** The `hooks` list after `model.apply(register_hook)` visits `modules` in order: the ids of the hooked ones. */
  function HookedIds(modules: seq<Module>, rootId: nat): (ids: seq<nat>)
    ensures |ids| <= |modules|
    ensures rootId !in ids
  {
    if modules == [] then []
    else
      var last := modules[|modules| - 1];
      HookedIds(modules[..|modules| - 1], rootId) + (if Hooked(last, rootId) then [last.id] else [])
  }

  /** A module id gets a hook exactly when some visit of that id is neither a container nor the model itself. */
  lemma {:induction false} HookedIdsMembers(modules: seq<Module>, rootId: nat, id: nat)
    ensures id in HookedIds(modules, rootId) <==>
      exists i :: 0 <= i < |modules| && modules[i].id == id && Hooked(modules[i], rootId)
  {
    if modules != [] {
      var init := modules[..|modules| - 1];
      HookedIdsMembers(init, rootId, id);
      if exists i :: 0 <= i < |init| && init[i].id == id && Hooked(init[i], rootId) {
        var i :| 0 <= i < |init| && init[i].id == id && Hooked(init[i], rootId);
        assert modules[i] == init[i];
      }
      if exists i :: 0 <= i < |modules| && modules[i].id == id && Hooked(modules[i], rootId) {
        var i :| 0 <= i < |modules| && modules[i].id == id && Hooked(modules[i], rootId);
        if i < |init| { assert init[i] == modules[i]; }
      }
    }
  }

  /** The model itself never gets a hook, and visiting only containers and the model registers none. */
  lemma {:induction false} HookedIdsExclusions(modules: seq<Module>, rootId: nat)
    ensures rootId !in HookedIds(modules, rootId)
    ensures (forall i :: 0 <= i < |modules| ==> !Hooked(modules[i], rootId)) ==> HookedIds(modules, rootId) == []
  {
    HookedIdsMembers(modules, rootId, rootId);
    if modules != [] {
      var init := modules[..|modules| - 1];
      HookedIdsExclusions(init, rootId);
      if forall i :: 0 <= i < |modules| ==> !Hooked(modules[i], rootId) {
        assert forall i :: 0 <= i < |init| ==> init[i] == modules[i];
      }
    }
  }

  /** `model.apply(register_hook)`: each visited module that passes the filter appends one hook. */
  method RegisterHooks(modules: seq<Module>, rootId: nat) returns (hooks: seq<nat>)
    ensures hooks == HookedIds(modules, rootId)
  {
    hooks := [];
    var i := 0;
    while i < |modules|
      invariant 0 <= i <= |modules|
      invariant hooks == HookedIds(modules[..i], rootId)
    {
      assert modules[..i + 1][..i] == modules[..i];
      if Hooked(modules[i], rootId) {
        hooks := hooks + [modules[i].id];
      }
      i := i + 1;
    }
    assert modules[..i] == modules;
  }

  /* ---------------- The forward pass ---------------- */

  /** How many hooks are registered on module `id`. */
  function Count(hooks: seq<nat>, id: nat): (n: nat)
    ensures n > 0 <==> id in hooks
  {
    if hooks == [] then 0 else Count(hooks[1..], id) + (if hooks[0] == id then 1 else 0)
  }

  /** `n` copies of one call. */
  function Repeat(call: Call, n: nat): (r: seq<Call>)
    ensures |r| == n && forall i :: 0 <= i < n ==> r[i] == call
  {
    if n == 0 then [] else Repeat(call, n - 1) + [call]
  }

  /** The number of hooks on the called modules, added up over the calls. */
  function HookCount(calls: seq<Call>, hooks: seq<nat>): nat
  {
    if calls == [] then 0
    else HookCount(calls[..|calls| - 1], hooks) + Count(hooks, calls[|calls| - 1].callee.id)
  }

  /**
   * The hook firings of a forward pass that completes `calls` in order: every
   * forward hook of the called module runs once after the call, so a module that
   * `model.apply` reached twice carries two hooks and each of its calls fires twice.
   */
  function Firings(calls: seq<Call>, hooks: seq<nat>): (firings: seq<Call>)
    ensures |firings| == HookCount(calls, hooks)
  {
    if calls == [] then []
    else
      var last := calls[|calls| - 1];
      Firings(calls[..|calls| - 1], hooks) + Repeat(last, Count(hooks, last.callee.id))
  }

  /** Every firing is a completed call of a module that carries a hook. */
  lemma {:induction false} FiringsSound(calls: seq<Call>, hooks: seq<nat>, k: nat)
    requires k < |Firings(calls, hooks)|
    ensures Firings(calls, hooks)[k] in calls && Firings(calls, hooks)[k].callee.id in hooks
  {
    var init := calls[..|calls| - 1];
    var last := calls[|calls| - 1];
    var extra := Repeat(last, Count(hooks, last.callee.id));
    assert Firings(calls, hooks) == Firings(init, hooks) + extra;
    if k < |Firings(init, hooks)| {
      FiringsSound(init, hooks, k);
    } else {
      assert Firings(calls, hooks)[k] == last;
    }
  }

  /** Every completed call of a module that carries a hook fires. */
  lemma {:induction false} FiringsComplete(calls: seq<Call>, hooks: seq<nat>, k: nat)
    requires k < |calls| && calls[k].callee.id in hooks
    ensures calls[k] in Firings(calls, hooks)
  {
    var init := calls[..|calls| - 1];
    var last := calls[|calls| - 1];
    var extra := Repeat(last, Count(hooks, last.callee.id));
    assert Firings(calls, hooks) == Firings(init, hooks) + extra;
    if k < |init| {
      assert init[k] == calls[k];
      FiringsComplete(init, hooks, k);
    } else {
      assert extra[0] == calls[k];
    }
  }

  /** A module that `model.apply` reaches twice carries two hooks, and one call of it fires twice. */
  lemma TwiceVisitedFiresTwice(m: Module, rootId: nat, call: Call)
    requires Hooked(m, rootId) && call.callee == m
    ensures HookedIds([m, m], rootId) == [m.id, m.id]
    ensures Firings([call], HookedIds([m, m], rootId)) == [call, call]
  {
    assert [m, m][..1] == [m];
    assert [m][..0] == [];
    assert [call][..0] == [];
    assert Count([m.id, m.id], m.id) == 2;
    assert Repeat(call, 2) == [call, call];
  }

  /** The calls made to modules that carry a hook. */
  function CallsToHooked(calls: seq<Call>, hooks: seq<nat>): seq<Call>
  {
    if calls == [] then []
    else
      var last := calls[|calls| - 1];
      CallsToHooked(calls[..|calls| - 1], hooks) + (if last.callee.id in hooks then [last] else [])
  }

  /** No module id is hooked twice. */
  predicate Distinct(hooks: seq<nat>)
  {
    forall i, j :: 0 <= i < j < |hooks| ==> hooks[i] != hooks[j]
  }

  /** In a list without repeats, an id occurs once if present and not at all otherwise. */
  lemma {:induction false} CountDistinct(hooks: seq<nat>, id: nat)
    requires Distinct(hooks)
    ensures Count(hooks, id) == if id in hooks then 1 else 0
  {
    if hooks != [] {
      CountDistinct(hooks[1..], id);
      if hooks[0] == id {
        forall k | 0 <= k < |hooks[1..]| ensures hooks[1..][k] != id {
          assert hooks[1..][k] == hooks[k + 1];
        }
      }
      assert id in hooks <==> hooks[0] == id || id in hooks[1..];
    }
  }

  /** When no module is hooked twice, the hooks fire exactly for the calls to hooked modules. */
  lemma {:induction false} FiringsOfDistinctHooks(calls: seq<Call>, hooks: seq<nat>)
    requires Distinct(hooks)
    ensures Firings(calls, hooks) == CallsToHooked(calls, hooks)
  {
    if calls != [] {
      var last := calls[|calls| - 1];
      FiringsOfDistinctHooks(calls[..|calls| - 1], hooks);
      CountDistinct(hooks, last.callee.id);
      if last.callee.id in hooks {
        assert Repeat(last, 1) == [last];
      }
    }
  }

  /** Registration over distinct modules never hooks an id twice. */
  lemma {:induction false} HookedIdsDistinct(modules: seq<Module>, rootId: nat)
    requires forall i, j :: 0 <= i < j < |modules| ==> modules[i].id != modules[j].id
    ensures Distinct(HookedIds(modules, rootId))
  {
    if modules != [] {
      var init := modules[..|modules| - 1];
      var last := modules[|modules| - 1];
      HookedIdsDistinct(init, rootId);
      if Hooked(last, rootId) {
        HookedIdsMembers(init, rootId, last.id);
        assert forall i :: 0 <= i < |init| ==> init[i].id == modules[i].id != last.id;
      }
    }
  }

  /* ---------------- The table the hooks build ---------------- */

  /**
   * The table after the given firings, or the first IndexError a hook raises:
   * layer i is labelled "<ClassName>-<i+1>" and holds the record of firing i.
   */
  function TableOf(firings: seq<Call>, batch: int): (r: Result<seq<Layer>, ShapeError>)
    ensures r.Ok? ==> |r.value| == |firings|
  {
    if firings == [] then Ok([])
    else
      var init := firings[..|firings| - 1];
      var last := firings[|firings| - 1];
      match TableOf(init, batch)
      case Err(e) => Err(e)
      case Ok(layers) =>
        match MakeRecord(last, batch)
        case Err(e) => Err(e)
        case Ok(rec) => Ok(layers + [Layer(Label(ClassName(last.callee.classRepr), |layers| + 1), rec)])
  }

  /**
   * The table is built exactly when every firing's record can be built, and then
   * layer i is labelled "<ClassName>-<i+1>" and holds the record of firing i.
   */
  lemma {:induction false} TableOfLayers(firings: seq<Call>, batch: int)
    ensures TableOf(firings, batch).Ok? <==> forall i :: 0 <= i < |firings| ==> MakeRecord(firings[i], batch).Ok?
    ensures TableOf(firings, batch).Ok? ==> forall i :: 0 <= i < |firings| ==>
      TableOf(firings, batch).value[i] ==
        Layer(Label(ClassName(firings[i].callee.classRepr), i + 1), MakeRecord(firings[i], batch).value)
  {
    if firings != [] {
      var n := |firings| - 1;
      var init := firings[..n];
      TableOfLayers(init, batch);
      assert forall i :: 0 <= i < n ==> init[i] == firings[i];
      var before := TableOf(init, batch);
      var built := MakeRecord(firings[n], batch);
      if before.Ok? && built.Ok? {
        var layer := Layer(Label(ClassName(firings[n].callee.classRepr), n + 1), built.value);
        assert TableOf(firings, batch) == Ok(before.value + [layer]);
      } else {
        assert TableOf(firings, batch).Err?;
      }
    }
  }

  /** The labels of a table are pairwise distinct. */
  lemma TableLabelsDistinct(firings: seq<Call>, batch: int)
    requires TableOf(firings, batch).Ok?
    ensures var layers := TableOf(firings, batch).value;
      forall i, j :: 0 <= i < j < |layers| ==> layers[i].key != layers[j].key
  {
    var layers := TableOf(firings, batch).value;
    TableOfLayers(firings, batch);
    forall i, j | 0 <= i < j < |layers| ensures layers[i].key != layers[j].key {
      if layers[i].key == layers[j].key {
        LabelInjective(ClassName(firings[i].callee.classRepr), i + 1, ClassName(firings[j].callee.classRepr), j + 1);
      }
    }
  }

  /**
   * Every recorded input shape, and every single output shape, leads with the
   * caller's batch size; every shape of a list or tuple output leads with -1.
   */
  lemma TableBatchDimension(firings: seq<Call>, batch: int)
    requires TableOf(firings, batch).Ok?
    ensures forall layer :: layer in TableOf(firings, batch).value ==>
      var rec := layer.record;
      |rec.inputShape| > 0 && rec.inputShape[0] == batch &&
      (rec.outputShape.OneShape? ==> |rec.outputShape.shape| > 0 && rec.outputShape.shape[0] == batch) &&
      (rec.outputShape.ShapeList? ==> forall s :: s in rec.outputShape.shapes ==> |s| > 0 && s[0] == -1)
  {
    var layers := TableOf(firings, batch).value;
    TableOfLayers(firings, batch);
    forall layer | layer in layers
      ensures |layer.record.inputShape| > 0 && layer.record.inputShape[0] == batch
      ensures layer.record.outputShape.OneShape? ==> |layer.record.outputShape.shape| > 0 && layer.record.outputShape.shape[0] == batch
      ensures layer.record.outputShape.ShapeList? ==> forall s :: s in layer.record.outputShape.shapes ==> |s| > 0 && s[0] == -1
    {
      var i :| 0 <= i < |layers| && layers[i] == layer;
      var call := firings[i];
      assert layer.record == MakeRecord(call, batch).value;
      if call.output.Single? {
        assert layer.record.outputShape.OneShape?;
      } else {
        assert layer.record.outputShape.ShapeList?;
        forall s | s in layer.record.outputShape.shapes ensures |s| > 0 && s[0] == -1 {
          var k :| 0 <= k < |layer.record.outputShape.shapes| && layer.record.outputShape.shapes[k] == s;
          assert s == ListElementShape(call.output.parts[k]);
        }
      }
    }
  }

  /** The forward pass: each firing runs the hook on the shared table, and the first raise stops it. */
  method RunHooks(table: LayerTable, firings: seq<Call>) returns (err: Option<ShapeError>)
    requires table.Valid() && table.Entries() == []
    modifies table
    ensures table.Valid()
    ensures TableOf(firings, table.batchSize).Err? ==> err == Some(TableOf(firings, table.batchSize).error)
    ensures TableOf(firings, table.batchSize).Ok? ==>
      err == None && table.Entries() == TableOf(firings, table.batchSize).value
  {
    var i := 0;
    while i < |firings|
      invariant 0 <= i <= |firings|
      invariant table.Valid()
      invariant TableOf(firings[..i], table.batchSize).Ok?
      invariant table.Entries() == TableOf(firings[..i], table.batchSize).value
    {
      TableStep(firings, i, table.batchSize);
      var e := table.Hook(firings[i]);
      if e.Some? {
        TableErrorExtends(firings, i + 1, table.batchSize);
        return e;
      }
      i := i + 1;
    }
    assert firings[..i] == firings;
    return None;
  }

  /** One more firing either raises its own error or appends its layer, numbered by its position. */
  lemma TableStep(firings: seq<Call>, i: nat, batch: int)
    requires i < |firings| && TableOf(firings[..i], batch).Ok?
    ensures MakeRecord(firings[i], batch).Err? ==>
      TableOf(firings[..i + 1], batch) == Err(MakeRecord(firings[i], batch).error)
    ensures MakeRecord(firings[i], batch).Ok? ==>
      TableOf(firings[..i + 1], batch) == Ok(TableOf(firings[..i], batch).value +
        [Layer(Label(ClassName(firings[i].callee.classRepr), i + 1), MakeRecord(firings[i], batch).value)])
  {
    assert firings[..i + 1][..i] == firings[..i];
    TableOfLayers(firings[..i], batch);
    TableOfLayers(firings[..i + 1], batch);
  }

  /** Once a prefix of the firings raises, the whole pass raises the same error. */
  lemma {:induction false} TableErrorExtends(firings: seq<Call>, n: nat, batch: int)
    requires n <= |firings|
    requires TableOf(firings[..n], batch).Err?
    ensures TableOf(firings, batch) == TableOf(firings[..n], batch)
    decreases |firings| - n
  {
    if n < |firings| {
      assert firings[..n + 1][..n] == firings[..n];
      TableErrorExtends(firings, n + 1, batch);
    } else {
      assert firings[..n] == firings;
    }
  }

  /* ---------------- Totals and the report ---------------- */

  /** One printed row: the label, the output shape and the parameter count. */
  datatype Row = Row(key: string, outputShape: OutputShape, nbParams: nat)

  /** The row printed for a layer. */
  function RowOf(layer: Layer): Row
  {
    Row(layer.key, layer.record.outputShape, layer.record.nbParams)
  }

  /** Whether a layer's count goes to `trainable_params`: its `trainable` entry exists and is true. */
  predicate CountsAsTrainable(rec: Record)
  {
    rec.trainable == Some(true)
  }

  /** `total_params`: the parameter counts added up in table order. */
  function SumParams(layers: seq<Layer>): nat
  {
    if layers == [] then 0
    else SumParams(layers[..|layers| - 1]) + layers[|layers| - 1].record.nbParams
  }

  /** `trainable_params`: the counts of the layers whose `trainable` entry is true. */
  function SumTrainable(layers: seq<Layer>): nat
  {
    if layers == [] then 0
    else
      var last := layers[|layers| - 1].record;
      SumTrainable(layers[..|layers| - 1]) + (if CountsAsTrainable(last) then last.nbParams else 0)
  }

  /** The counts of the layers that are not trainable: no weight, or a weight that does not require grad. */
  function SumFrozen(layers: seq<Layer>): nat
  {
    if layers == [] then 0
    else
      var last := layers[|layers| - 1].record;
      SumFrozen(layers[..|layers| - 1]) + (if CountsAsTrainable(last) then 0 else last.nbParams)
  }

  /** Every parameter is either trainable or not: the printed non-trainable count is the frozen sum. */
  lemma {:induction false} TotalsSplit(layers: seq<Layer>)
    ensures SumParams(layers) == SumTrainable(layers) + SumFrozen(layers)
    ensures SumTrainable(layers) <= SumParams(layers)
  {
    if layers != [] {
      TotalsSplit(layers[..|layers| - 1]);
    }
  }

  /** Each layer's count is within the total, and each trainable layer's count within the trainable sum. */
  lemma {:induction false} SumsBound(layers: seq<Layer>, k: nat)
    requires k < |layers|
    ensures layers[k].record.nbParams <= SumParams(layers)
    ensures CountsAsTrainable(layers[k].record) ==> layers[k].record.nbParams <= SumTrainable(layers)
  {
    var init := layers[..|layers| - 1];
    if k < |init| {
      assert init[k] == layers[k];
      SumsBound(init, k);
    }
  }

  /** A layer without a weight adds nothing to `trainable_params`, even when it has a bias. */
  lemma NoWeightNotTrainable(m: Module, call: Call, batch: int)
    requires call.callee == m && m.weight.None?
    requires MakeRecord(call, batch).Ok?
    ensures !CountsAsTrainable(MakeRecord(call, batch).value)
  {
  }

  /**
   * What a completed call produces: the shapes of the synthetic batch `x` the
   * forward pass ran on (not printed; kept to tie the report to its inputs), the
   * printed rows, and the three printed totals.
   */
  datatype Report = Report(
    inputs: seq<Dims>,
    rows: seq<Row>,
    totalParams: nat,
    trainableParams: nat,
    nonTrainableParams: int)

  /** The report printed for a completed table and the synthetic inputs it was built from. */
  function ReportOf(input: InputSize, layers: seq<Layer>): Report
  {
    Report(
      SyntheticInputs(input),
      seq(|layers|, i requires 0 <= i < |layers| => RowOf(layers[i])),
      SumParams(layers),
      SumTrainable(layers),
      SumParams(layers) - SumTrainable(layers))
  }

  /** Shapes of different lengths: `np.prod` cannot make a rectangular array of them and raises. */
  predicate Ragged<T>(shapes: seq<seq<T>>)
  {
    exists i, j :: 0 <= i < |shapes| && 0 <= j < |shapes| && |shapes[i]| != |shapes[j]|
  }

  /** `np.prod(output_shape)` raises for this record: a list or tuple output whose shapes differ in length. */
  predicate RaggedOutput(rec: Record)
  {
    rec.outputShape.ShapeList? && Ragged(rec.outputShape.shapes)
  }

  /** Some layer of the table has a ragged list output. */
  predicate AnyRaggedOutput(layers: seq<Layer>)
  {
    exists k :: 0 <= k < |layers| && RaggedOutput(layers[k].record)
  }

  /** Some layer's `nb_params` is a tensor, so `total_params` becomes one too. */
  predicate AnyTensorCount(layers: seq<Layer>)
  {
    exists k :: 0 <= k < |layers| && layers[k].record.paramsIsTensor
  }

  /**
   * The report loop: one row per entry in table order, `total_params` summing
   * every count, `trainable_params` summing those whose `trainable` entry is
   * true; `np.prod` of a ragged list output stops the loop with a raise.
   * `totalIsTensor` says whether `total_params` ended as a tensor.
   */
  method Totals(table: LayerTable) returns (rows: seq<Row>, total: nat, trainable: nat, totalIsTensor: bool, ragged: bool)
    requires table.IsOrderedDict()
    ensures ragged <==> AnyRaggedOutput(table.Entries())
    ensures !ragged ==> |rows| == |table.labels|
    ensures !ragged ==> forall i :: 0 <= i < |rows| ==> rows[i] == RowOf(table.Entries()[i])
    ensures !ragged ==> total == SumParams(table.Entries())
    ensures !ragged ==> trainable == SumTrainable(table.Entries())
    ensures !ragged ==> trainable <= total
    ensures !ragged ==> totalIsTensor == AnyTensorCount(table.Entries())
  {
    ghost var layers := table.Entries();
    var labels, records := table.labels, table.records;
    rows, total, trainable, totalIsTensor, ragged := [], 0, 0, false, false;
    var i := 0;
    while i < |labels|
      invariant 0 <= i <= |labels| == |layers|
      invariant |rows| == i
      invariant forall k :: 0 <= k < i ==> rows[k] == RowOf(layers[k])
      invariant total == SumParams(layers[..i])
      invariant trainable == SumTrainable(layers[..i])
      invariant totalIsTensor == AnyTensorCount(layers[..i])
      invariant !AnyRaggedOutput(layers[..i])
    {
      var key := labels[i];
      var rec := records[key];
      assert layers[i] == Layer(key, rec);
      TotalsStep(layers, i);
      total := total + rec.nbParams;
      if RaggedOutput(rec) {
        ragged := true;
        return;
      }
      totalIsTensor := totalIsTensor || rec.paramsIsTensor;
      if rec.trainable == Some(true) {
        trainable := trainable + rec.nbParams;
      }
      rows := rows + [Row(key, rec.outputShape, rec.nbParams)];
      i := i + 1;
    }
    assert layers[..i] == layers;
    TotalsSplit(layers);
  }

  /** One more entry of the table: how each running quantity of the report loop moves. */
  lemma TotalsStep(layers: seq<Layer>, i: nat)
    requires i < |layers|
    ensures var rec := layers[i].record;
      && SumParams(layers[..i + 1]) == SumParams(layers[..i]) + rec.nbParams
      && SumTrainable(layers[..i + 1]) == SumTrainable(layers[..i]) + (if CountsAsTrainable(rec) then rec.nbParams else 0)
      && (AnyTensorCount(layers[..i + 1]) <==> AnyTensorCount(layers[..i]) || rec.paramsIsTensor)
      && (AnyRaggedOutput(layers[..i + 1]) <==> AnyRaggedOutput(layers[..i]) || RaggedOutput(rec))
  {
    var next := layers[..i + 1];
    assert next[..i] == layers[..i];
    assert next[i] == layers[i];
    assert forall k :: 0 <= k < i ==> next[k] == layers[..i][k];
  }

  /** What the report loop computes is the report of the table. */
  lemma ReportOfTotals(input: InputSize, layers: seq<Layer>, rows: seq<Row>, total: nat, trainable: nat)
    requires |rows| == |layers|
    requires forall i :: 0 <= i < |rows| ==> rows[i] == RowOf(layers[i])
    requires total == SumParams(layers) && trainable == SumTrainable(layers)
    ensures Report(SyntheticInputs(input), rows, total, trainable, total - trainable) == ReportOf(input, layers)
  {
    assert rows == ReportOf(input, layers).rows;
  }

  /* ---------------- The whole call ---------------- */

  /**
   * How model_summary fails: the device assertion, an IndexError in a hook, a
   * raise in the forward pass, `np.prod` over ragged output shapes or ragged input
   * sizes, or `.numpy()` on a `total_params` that is still a plain integer.
   */
  datatype Failure =
    | InvalidDevice
    | HookIndexError
    | ForwardRaised
    | RaggedOutputShapes
    | RaggedInputSizes
    | TotalNotTensor

  /**
   * What a call of model_summary ends with: the report, or the failure together
   * with the hooks still attached to the model when it propagates.
   */
  datatype Outcome = Reported(report: Report) | Raised(failure: Failure, attached: seq<nat>)

  /**
   * The outcome of model_summary, as written, when `model.apply` visits `modules`,
   * the model is `rootId`, and the forward pass completes `calls` and then raises
   * or returns. The hooks are removed only on the normal return of the forward pass.
   */
  function SummaryOf(
    modules: seq<Module>, rootId: nat, input: InputSize, batchSize: int, device: string,
    calls: seq<Call>, forwardRaises: bool): Outcome
  {
    if CheckDevice(device).Err? then Raised(InvalidDevice, [])
    else
      var hooks := HookedIds(modules, rootId);
      var table := TableOf(Firings(calls, hooks), batchSize);
      if table.Err? then Raised(HookIndexError, hooks)
      else if forwardRaises then Raised(ForwardRaised, hooks)
      else if AnyRaggedOutput(table.value) then Raised(RaggedOutputShapes, [])
      else if Ragged(Normalize(input)) then Raised(RaggedInputSizes, [])
      else if !AnyTensorCount(table.value) then Raised(TotalNotTensor, [])
      else Reported(ReportOf(input, table.value))
  }

  /**
   * The evidently intended outcome. It is as written with two corrections: a table
   * without any weight or bias reports zero totals instead of failing on `.numpy()`,
   * and the hooks are removed however the forward pass ends.
   */
  function IntendedSummaryOf(
    modules: seq<Module>, rootId: nat, input: InputSize, batchSize: int, device: string,
    calls: seq<Call>, forwardRaises: bool): Outcome
  {
    if CheckDevice(device).Err? then Raised(InvalidDevice, [])
    else
      var hooks := HookedIds(modules, rootId);
      var table := TableOf(Firings(calls, hooks), batchSize);
      if table.Err? then Raised(HookIndexError, [])
      else if forwardRaises then Raised(ForwardRaised, [])
      else if AnyRaggedOutput(table.value) then Raised(RaggedOutputShapes, [])
      else if Ragged(Normalize(input)) then Raised(RaggedInputSizes, [])
      else Reported(ReportOf(input, table.value))
  }

  /**
   * model_summary: check the device, normalise the inputs, create the table,
   * register the hooks, run the forward pass, remove the hooks (only when the
   * pass returns normally), add up the totals and size the inputs and parameters.
   */
  method ModelSummary(
    modules: seq<Module>, rootId: nat, input: InputSize, batchSize: int, device: string,
    calls: seq<Call>, forwardRaises: bool) returns (out: Outcome)
    ensures out == SummaryOf(modules, rootId, input, batchSize, device, calls, forwardRaises)
  {
    var checked := CheckDevice(device);
    if checked.Err? {
      return Raised(InvalidDevice, []);
    }
    var sizes := Normalize(input);
    var inputs := SyntheticInputs(input);
    var table := new LayerTable(batchSize);
    var hooks := RegisterHooks(modules, rootId);
    var err := RunHooks(table, Firings(calls, hooks));
    if err.Some? {
      return Raised(HookIndexError, hooks);
    }
    if forwardRaises {
      return Raised(ForwardRaised, hooks);
    }
    var rows, total, trainable, totalIsTensor, ragged := Totals(table);
    if ragged {
      return Raised(RaggedOutputShapes, []);
    }
    if Ragged(sizes) {
      return Raised(RaggedInputSizes, []);
    }
    if !totalIsTensor {
      return Raised(TotalNotTensor, []);
    }
    ReportOfTotals(input, table.Entries(), rows, total, trainable);
    out := Reported(Report(inputs, rows, total, trainable, total - trainable));
  }

  /* ---------------- Properties of a whole call ---------------- */

  /** A device that is not "cuda" or "cpu" in some mix of cases fails before any hook is registered. */
  lemma RejectedDevice(
    modules: seq<Module>, rootId: nat, input: InputSize, batchSize: int, device: string,
    calls: seq<Call>, forwardRaises: bool)
    requires !SpellsIgnoringCase(device, "cuda") && !SpellsIgnoringCase(device, "cpu")
    ensures SummaryOf(modules, rootId, input, batchSize, device, calls, forwardRaises) == Raised(InvalidDevice, [])
  {
    CheckDeviceAccepts(device);
  }

  /**
   * How a call can end: the device failure exactly when the device check fails,
   * hooks left attached only by a raise during the forward pass, and the forward
   * pass's own raise only when it raises. As intended, `.numpy()` never fails and
   * no failure leaves a hook attached.
   */
  lemma OutcomeFailures(
    modules: seq<Module>, rootId: nat, input: InputSize, batchSize: int, device: string,
    calls: seq<Call>, forwardRaises: bool)
    ensures var out := SummaryOf(modules, rootId, input, batchSize, device, calls, forwardRaises);
      (out == Raised(InvalidDevice, []) <==> CheckDevice(device).Err?) &&
      (out.Raised? && out.attached != [] ==> out.failure == HookIndexError || out.failure == ForwardRaised) &&
      (out.Raised? && out.failure == ForwardRaised ==> forwardRaises)
    ensures var out := IntendedSummaryOf(modules, rootId, input, batchSize, device, calls, forwardRaises);
      (out == Raised(InvalidDevice, []) <==> CheckDevice(device).Err?) &&
      (out.Raised? ==> out.failure != TotalNotTensor && out.attached == [])
  {
  }

  /** A report's totals: non-trainable is total minus trainable, never negative, and one row per firing. */
  lemma ReportTotals(
    modules: seq<Module>, rootId: nat, input: InputSize, batchSize: int, device: string,
    calls: seq<Call>, forwardRaises: bool)
    requires SummaryOf(modules, rootId, input, batchSize, device, calls, forwardRaises).Reported?
    ensures var report := SummaryOf(modules, rootId, input, batchSize, device, calls, forwardRaises).report;
      report.trainableParams <= report.totalParams &&
      report.nonTrainableParams == report.totalParams - report.trainableParams >= 0 &&
      |report.rows| == |Firings(calls, HookedIds(modules, rootId))|
  {
    var layers := TableOf(Firings(calls, HookedIds(modules, rootId)), batchSize).value;
    TotalsSplit(layers);
  }

  /**
   * When `model.apply` visits each module once, the report has one row per call of
   * a hooked module, labelled in the order the calls completed.
   */
  lemma OneRowPerHookedCall(
    modules: seq<Module>, rootId: nat, input: InputSize, batchSize: int, device: string,
    calls: seq<Call>, forwardRaises: bool)
    requires forall i, j :: 0 <= i < j < |modules| ==> modules[i].id != modules[j].id
    requires SummaryOf(modules, rootId, input, batchSize, device, calls, forwardRaises).Reported?
    ensures var report := SummaryOf(modules, rootId, input, batchSize, device, calls, forwardRaises).report;
      var hooked := CallsToHooked(calls, HookedIds(modules, rootId));
      |report.rows| == |hooked| &&
      forall i :: 0 <= i < |hooked| ==> report.rows[i].key == Label(ClassName(hooked[i].callee.classRepr), i + 1)
  {
    var hooks := HookedIds(modules, rootId);
    ReportedReport(modules, rootId, input, batchSize, device, calls, forwardRaises);
    HookedIdsDistinct(modules, rootId);
    FiringsOfDistinctHooks(calls, hooks);
    ReportKeys(input, CallsToHooked(calls, hooks), batchSize);
  }

  /** A reported outcome is the report of the completed table of the firings. */
  lemma ReportedReport(
    modules: seq<Module>, rootId: nat, input: InputSize, batchSize: int, device: string,
    calls: seq<Call>, forwardRaises: bool)
    requires SummaryOf(modules, rootId, input, batchSize, device, calls, forwardRaises).Reported?
    ensures var table := TableOf(Firings(calls, HookedIds(modules, rootId)), batchSize);
      table.Ok? &&
      SummaryOf(modules, rootId, input, batchSize, device, calls, forwardRaises).report == ReportOf(input, table.value)
  {
  }

  /** The report of a completed table has one row per firing, labelled by firing order. */
  lemma ReportKeys(input: InputSize, firings: seq<Call>, batch: int)
    requires TableOf(firings, batch).Ok?
    ensures var report := ReportOf(input, TableOf(firings, batch).value);
      |report.rows| == |firings| &&
      forall i :: 0 <= i < |firings| ==> report.rows[i].key == Label(ClassName(firings[i].callee.classRepr), i + 1)
  {
    var layers := TableOf(firings, batch).value;
    TableOfLayers(firings, batch);
    var report := ReportOf(input, layers);
    forall i | 0 <= i < |firings|
      ensures report.rows[i].key == Label(ClassName(firings[i].callee.classRepr), i + 1)
    {
      assert report.rows[i] == RowOf(layers[i]);
    }
  }

  /**
   * The as-written outcome differs from the intended one in two cases only: where
   * no layer has a weight or a bias, and where a raise leaves the hooks attached.
   */
  lemma SummaryAgreesWithIntended(
    modules: seq<Module>, rootId: nat, input: InputSize, batchSize: int, device: string,
    calls: seq<Call>, forwardRaises: bool)
    ensures var written := SummaryOf(modules, rootId, input, batchSize, device, calls, forwardRaises);
      var intended := IntendedSummaryOf(modules, rootId, input, batchSize, device, calls, forwardRaises);
      written == intended ||
      (intended.Reported? && written == Raised(TotalNotTensor, []) &&
       !AnyTensorCount(TableOf(Firings(calls, HookedIds(modules, rootId)), batchSize).value)) ||
      (written.Raised? && written.attached == HookedIds(modules, rootId) != [] &&
       intended == Raised(written.failure, []))
  {
  }

  /** Without hooks nothing fires. */
  lemma {:induction false} NoHooksNoFirings(calls: seq<Call>)
    ensures Firings(calls, []) == []
  {
    if calls != [] {
      NoHooksNoFirings(calls[..|calls| - 1]);
    }
  }

  /** A table whose layers all count zero parameters has zero totals. */
  lemma {:induction false} ZeroCountsZeroTotals(layers: seq<Layer>)
    requires forall k :: 0 <= k < |layers| ==> layers[k].record.nbParams == 0
    ensures SumParams(layers) == 0 && SumTrainable(layers) == 0
  {
    if layers != [] {
      ZeroCountsZeroTotals(layers[..|layers| - 1]);
      TotalsSplit(layers);
    }
  }

  /**
   * As written: when every firing layer lacks both weight and bias (a model of
   * parameter-free layers, or one that keeps its parameters in the model itself),
   * `total_params` stays a plain integer and `.numpy()` raises.
   */
  lemma ParameterFreeRaises(
    modules: seq<Module>, rootId: nat, input: InputSize, batchSize: int, device: string,
    calls: seq<Call>)
    requires CheckDevice(device).Ok? && !Ragged(Normalize(input))
    requires TableOf(Firings(calls, HookedIds(modules, rootId)), batchSize).Ok?
    requires !AnyRaggedOutput(TableOf(Firings(calls, HookedIds(modules, rootId)), batchSize).value)
    requires forall c :: c in Firings(calls, HookedIds(modules, rootId)) ==> c.callee.weight.None? && c.callee.bias.None?
    ensures SummaryOf(modules, rootId, input, batchSize, device, calls, false) == Raised(TotalNotTensor, [])
  {
    var firings := Firings(calls, HookedIds(modules, rootId));
    var layers := TableOf(firings, batchSize).value;
    TableOfLayers(firings, batchSize);
    forall k | 0 <= k < |layers| ensures !layers[k].record.paramsIsTensor {
      assert firings[k] in firings;
    }
  }

  /**
   * As intended: the same calls report one row per firing and zero totals.
   */
  lemma ParameterFreeReported(
    modules: seq<Module>, rootId: nat, input: InputSize, batchSize: int, device: string,
    calls: seq<Call>)
    requires CheckDevice(device).Ok? && !Ragged(Normalize(input))
    requires TableOf(Firings(calls, HookedIds(modules, rootId)), batchSize).Ok?
    requires !AnyRaggedOutput(TableOf(Firings(calls, HookedIds(modules, rootId)), batchSize).value)
    requires forall c :: c in Firings(calls, HookedIds(modules, rootId)) ==> c.callee.weight.None? && c.callee.bias.None?
    ensures var out := IntendedSummaryOf(modules, rootId, input, batchSize, device, calls, false);
      out.Reported? && |out.report.rows| == |Firings(calls, HookedIds(modules, rootId))| &&
      out.report.totalParams == 0 && out.report.trainableParams == 0 && out.report.nonTrainableParams == 0
  {
    var firings := Firings(calls, HookedIds(modules, rootId));
    var layers := TableOf(firings, batchSize).value;
    assert SumParams(layers) == 0 && SumTrainable(layers) == 0 by {
      TableOfLayers(firings, batchSize);
      forall k | 0 <= k < |layers| ensures layers[k].record.nbParams == 0 {
        assert firings[k] in firings;
      }
      ZeroCountsZeroTotals(layers);
    }
    assert IntendedSummaryOf(modules, rootId, input, batchSize, device, calls, false) == Reported(ReportOf(input, layers));
  }

  /**
   * A model made only of containers: as intended it reports no rows and zero
   * totals; as written the empty total is a plain integer and `.numpy()` raises.
   */
  lemma ContainersOnly(
    modules: seq<Module>, rootId: nat, input: InputSize, batchSize: int, device: string,
    calls: seq<Call>)
    requires forall i :: 0 <= i < |modules| ==> !Hooked(modules[i], rootId)
    requires CheckDevice(device).Ok? && !Ragged(Normalize(input))
    ensures var out := IntendedSummaryOf(modules, rootId, input, batchSize, device, calls, false);
      out.Reported? && out.report.rows == [] &&
      out.report.totalParams == 0 && out.report.trainableParams == 0 && out.report.nonTrainableParams == 0
    ensures SummaryOf(modules, rootId, input, batchSize, device, calls, false) == Raised(TotalNotTensor, [])
  {
    HookedIdsExclusions(modules, rootId);
    NoHooksNoFirings(calls);
  }

  /**
   * A failing forward pass leaves every registered hook attached: the hooks are
   * removed only after a normal return.
   */
  lemma HooksLeakOnRaise(
    modules: seq<Module>, rootId: nat, input: InputSize, batchSize: int, device: string,
    calls: seq<Call>)
    requires CheckDevice(device).Ok?
    requires exists i :: 0 <= i < |modules| && Hooked(modules[i], rootId)
    ensures var out := SummaryOf(modules, rootId, input, batchSize, device, calls, true);
      out.Raised? && out.attached == HookedIds(modules, rootId) && |out.attached| > 0
  {
    var i :| 0 <= i < |modules| && Hooked(modules[i], rootId);
    HookedIdsMembers(modules, rootId, modules[i].id);
  }

  /** As intended: the same failing forward pass propagates with every hook removed. */
  lemma IntendedRemovesHooks(
    modules: seq<Module>, rootId: nat, input: InputSize, batchSize: int, device: string,
    calls: seq<Call>)
    requires CheckDevice(device).Ok?
    ensures var out := IntendedSummaryOf(modules, rootId, input, batchSize, device, calls, true);
      out.Raised? && out.attached == [] &&
      (out.failure == ForwardRaised || out.failure == HookIndexError)
    ensures var out := IntendedSummaryOf(modules, rootId, input, batchSize, device, calls, true);
      TableOf(Firings(calls, HookedIds(modules, rootId)), batchSize).Ok? ==> out == Raised(ForwardRaised, [])
  {
  }

  /** A call that passes every check is reported with the report of its table. */
  lemma SummaryReported(
    modules: seq<Module>, rootId: nat, input: InputSize, batchSize: int, device: string,
    calls: seq<Call>, layers: seq<Layer>)
    requires CheckDevice(device).Ok? && !Ragged(Normalize(input))
    requires TableOf(Firings(calls, HookedIds(modules, rootId)), batchSize) == Ok(layers)
    requires !AnyRaggedOutput(layers) && AnyTensorCount(layers)
    ensures SummaryOf(modules, rootId, input, batchSize, device, calls, false) == Reported(ReportOf(input, layers))
  {
  }

  /** The table of a single firing of a layer with a two-dimensional input and output. */
  lemma SingleFiringTable(call: Call, batch: int, n: nat, m: nat)
    requires call.inputs == [[2, n]] && call.output == Single([2, m])
    ensures TableOf([call], batch) == Ok([Layer(Label(ClassName(call.callee.classRepr), 1),
      Record([batch, n], OneShape([batch, m]), TrainableFlag(call.callee), ParamCount(call.callee),
        call.callee.weight.Some? || call.callee.bias.Some?))])
  {
    assert [call][..0] == [];
    assert [2, n][1..] == [n];
    assert [2, m][1..] == [m];
    var inShape := WithBatch([2, n], batch);
    assert inShape.value[1] == n;
    assert inShape.value == [batch, n as int];
    var outShape := OutputShapeOf(Single([2, m]), batch);
    assert outShape.value.shape[1] == m;
    assert outShape.value == OneShape([batch, m as int]);
    var rec := Record([batch, n as int], OneShape([batch, m as int]), TrainableFlag(call.callee), ParamCount(call.callee),
      call.callee.weight.Some? || call.callee.bias.Some?);
    assert MakeRecord(call, batch) == Ok(rec);
    var table := TableOf([call], batch);
    TableOfLayers([call], batch);
    assert table.Ok? && |table.value| == 1;
    assert table.value[0] == Layer(Label(ClassName(call.callee.classRepr), 1), rec);
    assert table.value == [table.value[0]];
    assert table == Ok([Layer(Label(ClassName(call.callee.classRepr), 1), rec)]);
  }

  /** The report of a one-layer table built from input size (n,). */
  lemma SingleLayerReport(n: nat, layer: Layer)
    ensures var p := layer.record.nbParams;
      var t := if CountsAsTrainable(layer.record) then p else 0;
      ReportOf(Tuple([n]), [layer]) == Report([[2, n]], [RowOf(layer)], p, t, p - t)
  {
    assert [layer][..0] == [];
    assert SumParams([layer]) == layer.record.nbParams;
    assert SumTrainable([layer]) == if CountsAsTrainable(layer.record) then layer.record.nbParams else 0;
    assert SyntheticShape([n]) == [2, n];
    assert SyntheticInputs(Tuple([n])) == [[2, n]];
    assert ReportOf(Tuple([n]), [layer]).rows == [RowOf(layer)];
  }

  /** Visiting a hooked layer and then the model registers one hook, and one call of the layer fires it once. */
  lemma SingleHookFirings(layer: Module, root: Module, call: Call)
    requires layer.id == 1 && Hooked(layer, 0) && root.id == 0 && call.callee == layer
    ensures HookedIds([layer, root], 0) == [1]
    ensures Firings([call], [1]) == [call]
  {
    assert [layer, root][..1] == [layer];
    assert [layer][..0] == [];
    assert HookedIds([layer], 0) == [1];
    assert Count([1], 1) == 1;
    assert [call][..0] == [];
  }

  /** The checks `LinearExample` passes: a CPU device, a flat input and a single-tensor output with a tensor count. */
  lemma LinearConditions(n: nat, layer: Layer)
    requires layer.record.outputShape.OneShape? && layer.record.paramsIsTensor
    ensures CheckDevice("CPU").Ok?
    ensures !Ragged(Normalize(Tuple([n])))
    ensures !AnyRaggedOutput([layer]) && AnyTensorCount([layer])
  {
    assert Lower("CPU") == "cpu";
    assert !RaggedOutput([layer][0].record);
    assert [layer][0].record.paramsIsTensor;
    assert Normalize(Tuple([n])) == [[n]];
  }

  /** The table of `LinearExample`: one row for the `Linear` layer, with its weight and bias counted as trainable. */
  lemma LinearTable(path: string, name: string, n: nat, m: nat, params: nat, linear: Module, root: Module, call: Call)
    requires '.' !in name && '\'' !in name
    requires linear == Module(1, "<class '" + path + "." + name + "'>", false, false, Some(Weight([m, n], true)), Some([m]))
    requires root.id == 0
    requires call == Call(linear, [[2, n]], Single([2, m]))
    requires params == m * n + m
    ensures TableOf(Firings([call], HookedIds([linear, root], 0)), -1)
      == Ok([Layer(Label(name, 1), Record([-1, n as int], OneShape([-1, m as int]), Some(true), params, true))])
  {
    SingleHookFirings(linear, root, call);
    CanonicalClassName(path, name);
    LinearParams(linear, n, m);
    SingleFiringTable(call, -1, n, m);
  }

  /** The whole call of `LinearExample` reports the table of its one firing. */
  lemma LinearSummary(path: string, name: string, n: nat, m: nat, params: nat, linear: Module, root: Module, call: Call, layer: Layer)
    requires '.' !in name && '\'' !in name
    requires linear == Module(1, "<class '" + path + "." + name + "'>", false, false, Some(Weight([m, n], true)), Some([m]))
    requires root.id == 0
    requires call == Call(linear, [[2, n]], Single([2, m]))
    requires params == m * n + m
    requires layer == Layer(Label(name, 1), Record([-1, n as int], OneShape([-1, m as int]), Some(true), params, true))
    ensures SummaryOf([linear, root], 0, Tuple([n]), -1, "CPU", [call], false) == Reported(ReportOf(Tuple([n]), [layer]))
  {
    LinearTable(path, name, n, m, params, linear, root, call);
    LinearConditions(n, layer);
    SummaryReported([linear, root], 0, Tuple([n]), -1, "CPU", [call], [layer]);
  }

  /**
   * A model (id 0) holding one `nn.Linear(n, m)` (id 1) of class `name` in module
   * `path`, summarised with input size (n,) on "CPU" and the default batch size:
   * one row "<name>-1" with output shape [-1, m] and m * n + m trainable parameters.
   */
  lemma LinearExample(path: string, name: string, n: nat, m: nat, params: nat, linear: Module, root: Module)
    requires '.' !in name && '\'' !in name
    requires linear == Module(1, "<class '" + path + "." + name + "'>", false, false, Some(Weight([m, n], true)), Some([m]))
    requires root.id == 0
    requires params == m * n + m
    ensures SummaryOf([linear, root], 0, Tuple([n]), -1, "CPU", [Call(linear, [[2, n]], Single([2, m]))], false)
      == Reported(Report([[2, n]], [Row(Label(name, 1), OneShape([-1, m as int]), params)], params, params, 0))
  {
    var layer := Layer(Label(name, 1), Record([-1, n as int], OneShape([-1, m as int]), Some(true), params, true));
    LinearSummary(path, name, n, m, params, linear, root, Call(linear, [[2, n]], Single([2, m])), layer);
    SingleLayerReport(n, layer);
    assert CountsAsTrainable(layer.record);
  }
}
