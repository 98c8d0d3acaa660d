/** The client-side graph builder (third_party/WebKit/Source/modules/ml/Model.cpp):
    operands and operations are appended to the mojo model, constant values
    are staged as views, and finish packs the staged bytes into one blob. */
module BlinkModel {
  import opened Base
  import opened MlCommon
  import opened BlinkBindings

  /** The script-supplied OperandOptions dictionary; absent members are None. */
  datatype OperandOptions = OperandOptions(
    kind: Int32, dimensions: Option<seq<U32>>, scale: Option<FloatBits>, zeroPoint: Option<Int32>)

  /** An operand of the mojo model, with the place of its constant value. */
  datatype ModelOperand = ModelOperand(
    kind: Int32, dimensions: seq<U32>, scale: FloatBits, zeroPoint: Int32, bufferInfo: OperandInfo)

  const ModelFinished := DomException(InvalidStateError, "Model has been finished.")
  const IndexInvalid := DomException(InvalidStateError, "Index is invalid.")
  const DataTypeInvalid := DomException(InvalidStateError, "Data type is invalid.")
  const InputsInvalid := DomException(InvalidStateError, "Inputs is invalid.")
  const OutputsInvalid := DomException(InvalidStateError, "Outputs is invalid.")

  /** The exception a mutator throws on entry once the model is finished. */
  function FinishedErrors(isFinished: bool): seq<DomException> {
    if isFinished then [ModelFinished] else []
  }

  /** The operand addOperand builds: mojom defaults for absent options and an
      empty buffer range. */
  function NewOperand(options: OperandOptions): ModelOperand {
    ModelOperand(
      options.kind,
      if options.dimensions.Some? then options.dimensions.value else [],
      if options.scale.Some? then options.scale.value else 0,
      if options.zeroPoint.Some? then options.zeroPoint.value else 0,
      OperandInfo(0, 0))
  }

  // ---------------------------------------------------------------------
  // Type checks of setOperandValue.

  /** Whether a view of element type `view` passes the four checks of
      setOperandValue for an operand of type code `kind`. Views of any other
      element type are not checked. */
  predicate Compatible(view: ViewType, kind: Int32) {
    match view
    case ViewFloat32 => kind == FLOAT32 || kind == TENSOR_FLOAT32
    case ViewInt32 => kind == INT32 || kind == TENSOR_INT32
    case ViewUint32 => kind == UINT32
    case ViewUint8 => kind == TENSOR_QUANT8_ASYMM
    case _ => true
  }

  predicate Checked(view: ViewType) {
    view in {ViewFloat32, ViewInt32, ViewUint32, ViewUint8}
  }

  /** Bytes per element of an operand type, as requiredSize counts them. */
  function ElementSize(kind: Int32): nat {
    if kind == TENSOR_QUANT8_ASYMM then 1 else 4
  }

  function ViewElementSize(view: ViewType): nat {
    match view
    case ViewInt8 => 1
    case ViewUint8 => 1
    case ViewUint8Clamped => 1
    case ViewInt16 => 2
    case ViewUint16 => 2
    case ViewInt32 => 4
    case ViewUint32 => 4
    case ViewFloat32 => 4
    case ViewFloat64 => 8
    case ViewDataView => 1
  }

  /** A checked view is accepted only for a known type code whose elements
      have the view's width, and each such code accepts one checked view. */
  lemma CompatibleMeansSameWidth(view: ViewType, kind: Int32)
    requires Checked(view) && Compatible(view, kind)
    ensures 0 <= kind <= 5
    ensures ElementSize(kind) == ViewElementSize(view)
    ensures forall other :: Checked(other) && Compatible(other, kind) ==> other == view
  {
  }

  /** For every known type code some checked view is accepted. */
  lemma EveryTypeHasAView(kind: Int32)
    requires 0 <= kind <= 5
    ensures exists view :: Checked(view) && Compatible(view, kind)
  {
    if kind == FLOAT32 || kind == TENSOR_FLOAT32 {
      assert Compatible(ViewFloat32, kind);
    } else if kind == INT32 || kind == TENSOR_INT32 {
      assert Compatible(ViewInt32, kind);
    } else if kind == UINT32 {
      assert Compatible(ViewUint32, kind);
    } else {
      assert Compatible(ViewUint8, kind);
    }
  }

  /** Views of the unchecked element types are accepted for any operand. */
  lemma UncheckedViewsPass(view: ViewType, kind: Int32)
    requires !Checked(view)
    ensures Compatible(view, kind)
  {
  }

  // ---------------------------------------------------------------------
  // Index checks of addOperation and identifyInputsAndOutputs.

  /** One exception per index the `> size` guard rejects, in order. */
  function IndexErrors(indexes: seq<U32>, size: nat, error: DomException): seq<DomException> {
    if indexes == [] then []
    else IndexErrors(indexes[..|indexes| - 1], size, error)
         + (if indexes[|indexes| - 1] > size then [error] else [])
  }

  /** No exception is thrown exactly when every index is at most `size`;
      every exception thrown is `error`. */
  lemma {:induction false} IndexErrorsMeaning(indexes: seq<U32>, size: nat, error: DomException)
    ensures IndexErrors(indexes, size, error) == [] <==> forall k :: 0 <= k < |indexes| ==> indexes[k] <= size
    ensures forall e :: e in IndexErrors(indexes, size, error) ==> e == error
    ensures |IndexErrors(indexes, size, error)| <= |indexes|
  {
    if indexes != [] {
      var front := indexes[..|indexes| - 1];
      IndexErrorsMeaning(front, size, error);
      if IndexErrors(indexes, size, error) == [] {
        forall k | 0 <= k < |indexes|
          ensures indexes[k] <= size
        {
          if k < |front| {
            assert front[k] == indexes[k];
          }
        }
      }
    }
  }

  /** The guard loop of addOperation / identifyInputsAndOutputs. */
  method CheckIndexes(indexes: seq<U32>, size: nat, error: DomException) returns (thrown: seq<DomException>)
    ensures thrown == IndexErrors(indexes, size, error)
  {
    thrown := [];
    var i := 0;
    while i < |indexes|
      invariant 0 <= i <= |indexes|
      invariant thrown == IndexErrors(indexes[..i], size, error)
    {
      assert indexes[..i + 1][..i] == indexes[..i];
      if indexes[i] > size {
        thrown := thrown + [error];
      }
      i := i + 1;
    }
    assert indexes[..|indexes|] == indexes;
  }

  // ---------------------------------------------------------------------
  // The constant blob of finish.

  /** The bytes each staged view covers at the time of the call. */
  function ViewBytes(views: seq<View>): (r: seq<seq<Byte>>)
    reads set k | 0 <= k < |views| :: views[k].data
    ensures |r| == |views|
    ensures forall k :: 0 <= k < |views| ==> r[k] == views[k].data[..]
  {
    if views == [] then []
    else ViewBytes(views[..|views| - 1]) + [views[|views| - 1].data[..]]
  }

  /** The offset finish gives the k-th staged value: the sum of the earlier lengths. */
  function Offset(lens: seq<nat>, k: nat): nat
    requires k <= |lens|
  {
    Sum(lens[..k])
  }

  lemma OffsetStep(lens: seq<nat>, k: nat)
    requires k < |lens|
    ensures Offset(lens, k + 1) == Offset(lens, k) + lens[k]
  {
    assert lens[..k + 1][..k] == lens[..k];
  }

  lemma {:induction false} OffsetBound(lens: seq<nat>, k: nat)
    requires k < |lens|
    ensures Offset(lens, k) + lens[k] <= Sum(lens)
  {
    OffsetStep(lens, k);
    SumPrefixMonotone(lens, k + 1, |lens|);
    assert lens[..|lens|] == lens;
  }

  /** Staged ranges follow one another without gaps or overlap: a later
      value starts at or after the end of an earlier one, and the next one
      starts exactly where the previous one ends. */
  lemma {:induction false} LayoutDisjoint(lens: seq<nat>, k: nat, l: nat)
    requires k < l < |lens|
    ensures Offset(lens, k) + lens[k] <= Offset(lens, l)
    ensures Offset(lens, k + 1) == Offset(lens, k) + lens[k]
  {
    OffsetStep(lens, k);
    SumPrefixMonotone(lens, k + 1, l);
  }

  /** The bytes of the k-th staged value lie at [offset, offset + length) of the blob. */
  lemma {:induction false} LayoutSlot(parts: seq<seq<Byte>>, k: nat)
    requires k < |parts|
    ensures Offset(Lengths(parts), k) + |parts[k]| <= |Concat(parts)|
    ensures Concat(parts)[Offset(Lengths(parts), k)..Offset(Lengths(parts), k) + |parts[k]|] == parts[k]
  {
    var front := parts[..k];
    var back := parts[k + 1..];
    assert parts == front + [parts[k]] + back;
    ConcatAppend(front + [parts[k]], back);
    ConcatAppend(front, [parts[k]]);
    ConcatSingleton(parts[k]);
    ConcatLength(front);
    assert Lengths(front) == Lengths(parts)[..k];
  }

  /** The operand table after the k first staged values got their range:
      the operand of each staged index gets {offset, length}, later entries
      for the same index overwriting earlier ones. */
  function LaidOut(operands: seq<ModelOperand>, indexes: seq<U32>, lens: seq<nat>, n: nat): (r: seq<ModelOperand>)
    requires n <= |indexes| == |lens|
    requires forall k :: 0 <= k < |indexes| ==> indexes[k] < |operands|
    requires Sum(lens) < TwoTo32
    ensures |r| == |operands|
  {
    if n == 0 then operands
    else
      var prev := LaidOut(operands, indexes, lens, n - 1);
      OffsetBound(lens, n - 1);
      prev[indexes[n - 1] := prev[indexes[n - 1]].(bufferInfo := OperandInfo(Offset(lens, n - 1), lens[n - 1]))]
  }

  /** Only bufferInfo changes, and only for staged indexes. */
  lemma {:induction false} LaidOutKeeps(operands: seq<ModelOperand>, indexes: seq<U32>, lens: seq<nat>, n: nat, j: nat)
    requires n <= |indexes| == |lens|
    requires forall k :: 0 <= k < |indexes| ==> indexes[k] < |operands|
    requires Sum(lens) < TwoTo32
    requires j < |operands|
    ensures var r := LaidOut(operands, indexes, lens, n);
              r[j] == operands[j].(bufferInfo := r[j].bufferInfo)
    ensures (forall k :: 0 <= k < n ==> indexes[k] != j) ==> LaidOut(operands, indexes, lens, n)[j] == operands[j]
  {
    if n > 0 {
      LaidOutKeeps(operands, indexes, lens, n - 1, j);
    }
  }

  /** The last staged value of an index decides its range. */
  lemma {:induction false} LaidOutLast(operands: seq<ModelOperand>, indexes: seq<U32>, lens: seq<nat>, n: nat, k: nat)
    requires n <= |indexes| == |lens|
    requires forall k :: 0 <= k < |indexes| ==> indexes[k] < |operands|
    requires Sum(lens) < TwoTo32
    requires k < n && forall l :: k < l < n ==> indexes[l] != indexes[k]
    ensures LaidOut(operands, indexes, lens, n)[indexes[k]].bufferInfo.offset == Offset(lens, k)
    ensures LaidOut(operands, indexes, lens, n)[indexes[k]].bufferInfo.length == lens[k]
  {
    if k < n - 1 {
      LaidOutLast(operands, indexes, lens, n - 1, k);
    }
  }

  /** The first loop of finish: the uint32_t sum of the staged lengths. */
  method TotalLength(parts: seq<seq<Byte>>) returns (total: U32)
    requires Sum(Lengths(parts)) < TwoTo32
    ensures total == Sum(Lengths(parts))
  {
    ghost var lens := Lengths(parts);
    total := 0;
    var i := 0;
    while i < |parts|
      invariant 0 <= i <= |parts|
      invariant total == Offset(lens, i)
    {
      OffsetStep(lens, i);
      OffsetBound(lens, i);
      total := total + |parts[i]|;
      i := i + 1;
    }
    assert lens[..|parts|] == lens;
  }

  /** The second loop of finish: for each staged value in order, records
      {offset, length} in its operand and copies its bytes to that offset. */
  method CopyValues(mapping: array<Byte>, operands: seq<ModelOperand>, indexes: seq<U32>, parts: seq<seq<Byte>>)
    returns (laidOut: seq<ModelOperand>)
    requires |indexes| == |parts|
    requires forall k :: 0 <= k < |indexes| ==> indexes[k] < |operands|
    requires mapping.Length == Sum(Lengths(parts)) < TwoTo32
    modifies mapping
    ensures mapping[..] == Concat(parts)
    ensures laidOut == LaidOut(operands, indexes, Lengths(parts), |indexes|)
  {
    ghost var lens := Lengths(parts);
    var count := |indexes|;
    var offset: U32 := 0;
    var i := 0;
    laidOut := operands;
    assert parts[..0] == [];
    while i < count
      invariant 0 <= i <= count
      invariant offset == Offset(lens, i) && offset <= mapping.Length
      invariant mapping[..offset] == Concat(parts[..i])
      invariant laidOut == LaidOut(operands, indexes, lens, i)
    {
      var index := indexes[i];
      var length := |parts[i]|;
      OffsetStep(lens, i);
      OffsetBound(lens, i);
      laidOut := laidOut[index := laidOut[index].(bufferInfo := OperandInfo(offset, length))];
      ghost var before := mapping[..];
      Memcpy(mapping, offset, parts[i]);
      SplicePrefix(before[..offset], parts[i], before[offset + length..]);
      ConcatPrefixStep(parts, i);
      offset := offset + length;
      i := i + 1;
    }
    assert parts[..count] == parts;
    assert lens[..count] == lens;
    assert mapping[..] == mapping[..offset];
  }

  /** Both loops of finish over a fresh buffer of the summed length. */
  method LayOut(operands: seq<ModelOperand>, indexes: seq<U32>, parts: seq<seq<Byte>>)
    returns (laidOut: seq<ModelOperand>, bytes: seq<Byte>)
    requires |indexes| == |parts|
    requires forall k :: 0 <= k < |indexes| ==> indexes[k] < |operands|
    requires Sum(Lengths(parts)) < TwoTo32
    ensures bytes == Concat(parts)
    ensures laidOut == LaidOut(operands, indexes, Lengths(parts), |indexes|)
    ensures |laidOut| == |operands|
  {
    var total := TotalLength(parts);
    var mapping := new Byte[total];
    laidOut := CopyValues(mapping, operands, indexes, parts);
    bytes := mapping[..];
  }

  // ---------------------------------------------------------------------

  class Model {
    var isFinished: bool
    var operands: seq<ModelOperand>
    var operations: seq<Operation>
    var inputs: seq<U32>
    var outputs: seq<U32>
    /** The staged constant values: operand index and view, in call order. */
    var bufferViewIndexes: seq<U32>
    var bufferViews: seq<View>
    /** The shared buffer finish creates. */
    var buffer: seq<Byte>

    /** Every staged index names an existing operand. */
    ghost predicate Valid()
      reads this
    {
      |bufferViewIndexes| == |bufferViews|
      && forall k :: 0 <= k < |bufferViewIndexes| ==> bufferViewIndexes[k] < |operands|
    }

    constructor ()
      ensures Valid() && !isFinished
      ensures operands == [] && operations == [] && inputs == [] && outputs == []
      ensures bufferViewIndexes == [] && bufferViews == [] && buffer == []
    {
      isFinished := false;
      operands := [];
      operations := [];
      inputs := [];
      outputs := [];
      bufferViewIndexes := [];
      bufferViews := [];
      buffer := [];
    }

    /** addOperand: appends one operand built from the options and returns
        the previous operand count, as a uint32_t. */
    method AddOperand(options: OperandOptions) returns (index: U32, thrown: seq<DomException>)
      requires Valid()
      modifies this
      ensures Valid()
      ensures thrown == FinishedErrors(old(isFinished))
      ensures index == |old(operands)| % TwoTo32
      ensures operands == old(operands) + [NewOperand(options)]
      ensures operands[|operands| - 1].kind == options.kind
      ensures operands[|operands| - 1].bufferInfo == OperandInfo(0, 0)
      ensures options.dimensions.Some? ==> operands[|operands| - 1].dimensions == options.dimensions.value
      ensures options.scale.Some? ==> operands[|operands| - 1].scale == options.scale.value
      ensures options.zeroPoint.Some? ==> operands[|operands| - 1].zeroPoint == options.zeroPoint.value
      ensures isFinished == old(isFinished) && operations == old(operations)
      ensures inputs == old(inputs) && outputs == old(outputs) && buffer == old(buffer)
      ensures bufferViewIndexes == old(bufferViewIndexes) && bufferViews == old(bufferViews)
    {
      thrown := FinishedErrors(isFinished);
      var operand := NewOperand(options);
      index := |operands| % TwoTo32;
      operands := operands + [operand];
    }

    /** setOperandValue: stages `data` as the value of operand `index`.
        `outOfRangeRead` reports that the source goes on to read
        operands[index] past the end (index >= count), which the `> count`
        guard does not prevent; the model then stops without changing state. */
    method SetOperandValue(index: U32, data: View) returns (thrown: seq<DomException>, outOfRangeRead: bool)
      requires Valid()
      modifies this
      ensures Valid()
      ensures outOfRangeRead <==> index >= |old(operands)|
      ensures outOfRangeRead ==>
                thrown == FinishedErrors(old(isFinished)) + (if index > |old(operands)| then [IndexInvalid] else [])
                && bufferViewIndexes == old(bufferViewIndexes) && bufferViews == old(bufferViews)
      ensures !outOfRangeRead ==>
                thrown == FinishedErrors(old(isFinished))
                          + (if Compatible(data.kind, old(operands)[index].kind) then [] else [DataTypeInvalid])
                && bufferViewIndexes == old(bufferViewIndexes) + [index]
                && bufferViews == old(bufferViews) + [data]
      ensures isFinished == old(isFinished) && operands == old(operands) && operations == old(operations)
      ensures inputs == old(inputs) && outputs == old(outputs) && buffer == old(buffer)
    {
      thrown := FinishedErrors(isFinished);
      if index > |operands| {
        thrown := thrown + [IndexInvalid];
      }
      if index >= |operands| {
        outOfRangeRead := true;
        return;
      }
      outOfRangeRead := false;
      var operand := operands[index];
      if !Compatible(data.kind, operand.kind) {
        thrown := thrown + [DataTypeInvalid];
      }
      bufferViewIndexes := bufferViewIndexes + [index];
      bufferViews := bufferViews + [data];
    }

    /** addOperation: throws for every index above the operand count, then
        appends the operation anyway. */
    method AddOperation(kind: Int32, opInputs: seq<U32>, opOutputs: seq<U32>) returns (thrown: seq<DomException>)
      requires Valid()
      modifies this
      ensures Valid()
      ensures thrown == FinishedErrors(old(isFinished))
                        + IndexErrors(opInputs, |operands|, InputsInvalid)
                        + IndexErrors(opOutputs, |operands|, OutputsInvalid)
      ensures operations == old(operations) + [Operation(kind, opInputs, opOutputs)]
      ensures isFinished == old(isFinished) && operands == old(operands)
      ensures inputs == old(inputs) && outputs == old(outputs) && buffer == old(buffer)
      ensures bufferViewIndexes == old(bufferViewIndexes) && bufferViews == old(bufferViews)
    {
      thrown := FinishedErrors(isFinished);
      var inputErrors := CheckIndexes(opInputs, |operands|, InputsInvalid);
      var outputErrors := CheckIndexes(opOutputs, |operands|, OutputsInvalid);
      thrown := thrown + inputErrors + outputErrors;
      operations := operations + [Operation(kind, opInputs, opOutputs)];
    }

    /** identifyInputsAndOutputs: the same checks, then the graph inputs and
        outputs are replaced. */
    method IdentifyInputsAndOutputs(newInputs: seq<U32>, newOutputs: seq<U32>) returns (thrown: seq<DomException>)
      requires Valid()
      modifies this
      ensures Valid()
      ensures thrown == FinishedErrors(old(isFinished))
                        + IndexErrors(newInputs, |operands|, InputsInvalid)
                        + IndexErrors(newOutputs, |operands|, OutputsInvalid)
      ensures inputs == newInputs && outputs == newOutputs
      ensures isFinished == old(isFinished) && operands == old(operands) && operations == old(operations)
      ensures buffer == old(buffer)
      ensures bufferViewIndexes == old(bufferViewIndexes) && bufferViews == old(bufferViews)
    {
      thrown := FinishedErrors(isFinished);
      var inputErrors := CheckIndexes(newInputs, |operands|, InputsInvalid);
      var outputErrors := CheckIndexes(newOutputs, |operands|, OutputsInvalid);
      thrown := thrown + inputErrors + outputErrors;
      inputs := newInputs;
      outputs := newOutputs;
    }

    /** finish: sums the staged byte lengths, copies every staged value into
        one buffer of that size at consecutive offsets, records each range in
        its operand's bufferInfo, and marks the model finished. */
    method Finish() returns (thrown: seq<DomException>)
      requires Valid()
      requires Sum(Lengths(ViewBytes(bufferViews))) < TwoTo32
      modifies this`operands, this`buffer, this`isFinished
      ensures bufferViewIndexes == old(bufferViewIndexes) && bufferViews == old(bufferViews)
      ensures operations == old(operations) && inputs == old(inputs) && outputs == old(outputs)
      ensures |operands| == |old(operands)|
      ensures Valid() && isFinished
      ensures thrown == FinishedErrors(old(isFinished))
      ensures buffer == Concat(old(ViewBytes(bufferViews)))
      ensures operands == LaidOut(old(operands), bufferViewIndexes, Lengths(old(ViewBytes(bufferViews))), |bufferViewIndexes|)
    {
      thrown := FinishedErrors(isFinished);
      var indexes := bufferViewIndexes;
      var views := bufferViews;
      // The bytes of every staged view, as they are when finish runs.
      var parts := ViewBytes(views);
      operands, buffer := LayOut(operands, indexes, parts);
      isFinished := true;
    }
  }
}
