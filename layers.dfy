/**
 * One layer of the summary: which modules are instrumented (`register_hook`),
 * the record a hook firing builds (`hook`), and the table of records, an
 * ordered dictionary keyed by the layer label that each firing extends.
 */
module Layers {
  import opened Wrappers
  import opened Text
  import opened Shapes

  /** A `weight` attribute that has a `size`: its dims and its `requires_grad` flag. */
  datatype Weight = Weight(dims: Dims, requiresGrad: bool)

  /**
   * A sub-module as model_summary sees it: an identity (Python compares modules by
   * identity), `str(module.__class__)`, whether it is an `nn.Sequential` or an
   * `nn.ModuleList` (subclasses included), and its `weight` and `bias` when they
   * are tensors (a missing attribute and `None` both read as `None` here).
   */
  datatype Module = Module(
    id: nat,
    classRepr: string,
    isSequential: bool,
    isModuleList: bool,
    weight: Option<Weight>,
    bias: Option<Dims>)

  /** What a module's forward returns: one tensor, or a list or tuple of tensors. */
  datatype Output = Single(dims: Dims) | Many(parts: seq<Dims>)

  /**
   * One completed forward call of a module: the module, the sizes of its
   * positional arguments, and its output. Every argument and every output
   * element is taken to be a tensor, so it has a size.
   */
  datatype Call = Call(callee: Module, inputs: seq<Dims>, output: Output)

  /** The recorded `output_shape`: one shape, or one shape per element of a list or tuple output. */
  datatype OutputShape = OneShape(shape: Shape) | ShapeList(shapes: seq<Shape>)

  /**
   * The per-layer dictionary: `input_shape`, `output_shape`, `trainable` (only
   * with a weight), `nb_params`, and whether `nb_params` is a tensor (a weight or
   * a bias was added to it) rather than the plain integer 0 it starts as.
   */
  datatype Record = Record(
    inputShape: Shape,
    outputShape: OutputShape,
    trainable: Option<bool>,
    nbParams: nat,
    paramsIsTensor: bool)

  /** One row of the ordered table: the layer label and its record. */
  datatype Layer = Layer(key: string, record: Record)

  /** `register_hook`'s filter: neither container kind, and not the model itself. */
  predicate Hooked(m: Module, rootId: nat)
  {
    !m.isSequential && !m.isModuleList && m.id != rootId
  }

  /** The parameter count: weight elements (if a weight exists) plus bias elements (if a bias exists). */
  function ParamCount(m: Module): (n: nat)
    ensures m.weight.None? && m.bias.None? ==> n == 0
    ensures m.weight.Some? ==> n >= Product(m.weight.value.dims)
    ensures m.bias.Some? ==> n >= Product(m.bias.value)
  {
    (if m.weight.Some? then Product(m.weight.value.dims) else 0) +
    (if m.bias.Some? then Product(m.bias.value) else 0)
  }

  /** The `trainable` entry: present only with a weight, and then the weight's `requires_grad`. */
  function TrainableFlag(m: Module): (t: Option<bool>)
    ensures t.Some? <==> m.weight.Some?
    ensures t.Some? ==> t.value == m.weight.value.requiresGrad
  {
    if m.weight.Some? then Some(m.weight.value.requiresGrad) else None
  }

  /** `output_shape`: a single output gets the batch size in front, each element of a list or tuple gets -1. */
  function OutputShapeOf(output: Output, batch: int): (r: Result<OutputShape, ShapeError>)
    ensures r.Ok? <==> (output.Single? ==> |output.dims| > 0)
    ensures r.Ok? && output.Single? ==>
      r.value.OneShape? && |r.value.shape| == |output.dims| && r.value.shape[0] == batch &&
      forall i :: 1 <= i < |output.dims| ==> r.value.shape[i] == output.dims[i]
    ensures r.Ok? && output.Many? ==>
      r.value.ShapeList? && |r.value.shapes| == |output.parts| &&
      forall i :: 0 <= i < |output.parts| ==> r.value.shapes[i] == ListElementShape(output.parts[i])
  {
    match output
    case Single(dims) =>
      (match WithBatch(dims, batch)
       case Ok(shape) => Ok(OneShape(shape))
       case Err(e) => Err(e))
    case Many(parts) =>
      Ok(ShapeList(seq(|parts|, i requires 0 <= i < |parts| => ListElementShape(parts[i]))))
  }

  /**
   * The record one hook firing builds, or the IndexError it raises: `inputs[0]`
   * of a call without inputs, or `[0] = batch_size` on a zero-dimensional input
   * or single output.
   */
  function MakeRecord(call: Call, batch: int): (r: Result<Record, ShapeError>)
    ensures r.Ok? <==>
      |call.inputs| > 0 && |call.inputs[0]| > 0 && (call.output.Single? ==> |call.output.dims| > 0)
  {
    if |call.inputs| == 0 then Err(IndexOutOfRange)
    else
      match WithBatch(call.inputs[0], batch)
      case Err(e) => Err(e)
      case Ok(inputShape) =>
        match OutputShapeOf(call.output, batch)
        case Err(e) => Err(e)
        case Ok(outputShape) =>
          var isTensor := call.callee.weight.Some? || call.callee.bias.Some?;
          Ok(Record(inputShape, outputShape, TrainableFlag(call.callee), ParamCount(call.callee), isTensor))
  }

  /**
   * What a built record holds: the first input's size with the batch size in
   * front, the output shape, the `trainable` flag, the parameter count, and
   * whether that count is a tensor.
   */
  lemma MakeRecordFields(call: Call, batch: int)
    requires MakeRecord(call, batch).Ok?
    ensures var rec := MakeRecord(call, batch).value;
      |rec.inputShape| == |call.inputs[0]| && rec.inputShape[0] == batch &&
      (forall i :: 1 <= i < |rec.inputShape| ==> rec.inputShape[i] == call.inputs[0][i]) &&
      rec.outputShape == OutputShapeOf(call.output, batch).value &&
      rec.trainable == TrainableFlag(call.callee) &&
      rec.nbParams == ParamCount(call.callee) &&
      rec.paramsIsTensor == (call.callee.weight.Some? || call.callee.bias.Some?)
  {
  }

  /** A linear layer `nn.Linear(n, m)` has weight dims `[m, n]` and bias dims `[m]`: `m * n + m` parameters. */
  lemma LinearParams(m: Module, inFeatures: nat, outFeatures: nat)
    requires m.weight.Some? && m.weight.value.dims == [outFeatures, inFeatures]
    requires m.bias == Some([outFeatures])
    ensures ParamCount(m) == outFeatures * inFeatures + outFeatures
  {
    assert [outFeatures, inFeatures][1..] == [inFeatures];
    assert Product([inFeatures]) == inFeatures;
  }

  /** A 2-d convolution with weight `[o, i, kh, kw]` and bias `[o]` has `o * i * kh * kw + o` parameters. */
  lemma Conv2dParams(m: Module, o: nat, i: nat, kh: nat, kw: nat)
    requires m.weight.Some? && m.weight.value.dims == [o, i, kh, kw]
    requires m.bias == Some([o])
    ensures ParamCount(m) == o * i * kh * kw + o
  {
    assert [kh, kw][1..] == [kw];
    assert [i, kh, kw][1..] == [kh, kw];
    assert [o, i, kh, kw][1..] == [i, kh, kw];
    assert Product([kw]) == kw;
    assert Product([kh, kw]) == kh * kw;
    assert Product([i, kh, kw]) == i * (kh * kw);
  }

  /** A module has no parameters exactly when each of its weight and bias is missing or has a zero dimension. */
  lemma ParamCountZero(m: Module)
    ensures ParamCount(m) == 0 <==>
      (m.weight.Some? ==> exists i :: 0 <= i < |m.weight.value.dims| && m.weight.value.dims[i] == 0) &&
      (m.bias.Some? ==> exists i :: 0 <= i < |m.bias.value| && m.bias.value[i] == 0)
  {
    if m.weight.Some? { ProductZero(m.weight.value.dims); }
    if m.bias.Some? { ProductZero(m.bias.value); }
  }

  /** The layers of an ordered dictionary, in key order. */
  function Zip(keys: seq<string>, records: map<string, Record>): (layers: seq<Layer>)
    requires forall k :: k in keys ==> k in records
    ensures |layers| == |keys|
    ensures forall i :: 0 <= i < |keys| ==> layers[i] == Layer(keys[i], records[keys[i]])
  {
    seq(|keys|, i requires 0 <= i < |keys| => Layer(keys[i], records[keys[i]]))
  }

  /** Storing a value under a new key appends one layer and leaves the others as they were. */
  lemma ZipAppend(keys: seq<string>, records: map<string, Record>, key: string, value: Record)
    requires forall k :: k in keys ==> k in records
    requires key !in keys
    ensures Zip(keys + [key], records[key := value]) == Zip(keys, records) + [Layer(key, value)]
  {
    var after := Zip(keys + [key], records[key := value]);
    var before := Zip(keys, records) + [Layer(key, value)];
    forall i | 0 <= i < |after| ensures after[i] == before[i] {
      if i < |keys| {
        assert (keys + [key])[i] == keys[i] != key;
      }
    }
  }

  /** The next label, numbered one past the labels so far, is none of them. */
  lemma FreshLabel(labels: seq<string>, classes: seq<string>, className: string)
    requires |classes| == |labels|
    requires forall i :: 0 <= i < |labels| ==> labels[i] == Label(classes[i], i + 1)
    ensures Label(className, |labels| + 1) !in labels
  {
    forall i | 0 <= i < |labels| ensures labels[i] != Label(className, |labels| + 1) {
      if labels[i] == Label(className, |labels| + 1) {
        LabelInjective(classes[i], i + 1, className, |labels| + 1);
      }
    }
  }

  /** Appending the next label keeps the labels numbered by position. */
  lemma NextLabel(labels: seq<string>, classes: seq<string>, className: string)
    requires |classes| == |labels|
    requires forall i :: 0 <= i < |labels| ==> labels[i] == Label(classes[i], i + 1)
    ensures var next, nextClasses := labels + [Label(className, |labels| + 1)], classes + [className];
      forall i :: 0 <= i < |next| ==> next[i] == Label(nextClasses[i], i + 1)
  {
  }

  /**
   * The `summary` OrderedDict of model_summary, together with the `batch_size`
   * its hook closure captured. `labels` is the key order, `records` the
   * key-to-record mapping; the ghost `Classes` remembers the class name each
   * label was made from.
   */
  class LayerTable {
    const batchSize: int
    var labels: seq<string>
    var records: map<string, Record>
    ghost var Classes: seq<string>

    /** An ordered dictionary: the keys in order, each once, and exactly the mapped ones. */
    ghost predicate IsOrderedDict()
      reads this
    {
      (forall k :: k in records <==> k in labels) &&
      (forall i, j :: 0 <= i < j < |labels| ==> labels[i] != labels[j])
    }

    /** Every label is "<ClassName>-<k>" with k its position counted from 1. */
    ghost predicate Valid()
      reads this
    {
      IsOrderedDict() &&
      |Classes| == |labels| &&
      forall i :: 0 <= i < |labels| ==> labels[i] == Label(Classes[i], i + 1)
    }

    /** The table's contents in insertion order. */
    ghost function Entries(): seq<Layer>
      reads this
      requires IsOrderedDict()
    {
      Zip(labels, records)
    }

    /** `summary = OrderedDict()`, inside a call with the given `batch_size`. */
    constructor (batchSize: int)
      ensures Valid() && Entries() == []
      ensures this.batchSize == batchSize
    {
      this.batchSize := batchSize;
      labels, records := [], map[];
      Classes := [];
    }

    /** `summary[key] = value`: an existing key keeps its place and gets the new value, a new key goes last. */
    method Put(key: string, value: Record)
      requires IsOrderedDict()
      modifies this
      ensures IsOrderedDict()
      ensures labels == if key in old(records) then old(labels) else old(labels) + [key]
      ensures records == old(records)[key := value]
      ensures Classes == old(Classes)
    {
      if key !in records {
        labels := labels + [key];
      }
      records := records[key := value];
    }

    /**
     * One firing of `hook` for a call: the label "<ClassName>-<len+1>" is new, so
     * exactly one entry is appended and no existing entry changes; a call the
     * record cannot be built for raises, and the table is then left as it was.
     */
    method Hook(call: Call) returns (err: Option<ShapeError>)
      requires Valid()
      modifies this
      ensures Valid()
      ensures var built := MakeRecord(call, batchSize);
        built.Err? ==>
          err == Some(built.error) &&
          labels == old(labels) && records == old(records) && Classes == old(Classes)
      ensures var built := MakeRecord(call, batchSize);
        built.Ok? ==>
          err == None &&
          Entries() == old(Entries()) + [Layer(Label(ClassName(call.callee.classRepr), |old(labels)| + 1), built.value)]
    {
      var className := ClassName(call.callee.classRepr);
      var index := |labels|;
      var key := Label(className, index + 1);
      var built := MakeRecord(call, batchSize);
      if built.Err? {
        return Some(built.error);
      }
      FreshLabel(labels, Classes, className);
      NextLabel(labels, Classes, className);
      ZipAppend(labels, records, key, built.value);
      Put(key, built.value);
      Classes := Classes + [className];
      err := None;
    }
  }
}
