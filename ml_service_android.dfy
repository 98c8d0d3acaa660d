/** The accelerator backend of the neural-network service
    (services/ml/model_impl_android.cc, compilation_impl_android.cc,
    execution_impl_android.cc). Every call into the Android Neural Networks
    runtime goes through a runtime function: given the calls the object has
    made so far and the new call, it answers a result code. Each object
    keeps the log of the calls it made, so every code the service reports
    is a definite function of that history. */
module MlServiceAndroid {
  import opened Base
  import opened MlCommon

  /** The success code of the Android runtime. */
  const ANEURALNETWORKS_NO_ERROR: Int32 := 0

  /** The runtime calls the service makes. A compilation or execution is
      created from a model or compilation, named here by that object's own
      call history. */
  datatype NnCall =
    | ModelCreate
    | ModelAddOperand(operand: Operand)
    | ModelSetOperandValue(valueIndex: U32, offset: U32, length: U32)
    | ModelAddOperation(kind: Int32, inputs: seq<U32>, outputs: seq<U32>)
    | ModelIdentifyInputsAndOutputs(graphInputs: seq<U32>, graphOutputs: seq<U32>)
    | ModelFinish
    | CompilationCreate(model: seq<NnCall>)
    | CompilationSetPreference(preference: Int32)
    | CompilationFinish
    | ExecutionCreate(compilation: seq<NnCall>)
    | ExecutionSetInput(inputIndex: U32, data: seq<Byte>)
    | ExecutionSetOutput(outputIndex: U32, outputLength: U32)
    | ExecutionStartCompute
    | EventWait

  /** The runtime: the result code of a call, given the calls before it. */
  type NnRuntime = (seq<NnCall>, NnCall) -> Int32

  /** What the service sends to finish a model. The value bytes stay in the
      shared memory; a value names its operand and its region there. */
  datatype ModelInfo = ModelInfo(
    operands: seq<Operand>, operations: seq<Operation>, values: seq<ValueInfo>,
    inputs: seq<U32>, outputs: seq<U32>, memorySize: U32)

  // ---------------------------------------------------------------------
  // Replay with exit on the first error

  /** The outcome of replaying a list of calls: how many were made and the
      failing code, if one failed. */
  datatype Replayed = Replayed(count: nat, error: Option<Int32>)

  /** Makes the calls in order after `log` and stops after the first whose
      code is not ANEURALNETWORKS_NO_ERROR. */
  function Replay(nn: NnRuntime, log: seq<NnCall>, calls: seq<NnCall>): (r: Replayed)
    ensures r.count <= |calls|
    decreases |calls|
  {
    if calls == [] then Replayed(0, None)
    else
      var code := nn(log, calls[0]);
      if code != ANEURALNETWORKS_NO_ERROR then Replayed(1, Some(code))
      else
        var rest := Replay(nn, log + [calls[0]], calls[1..]);
        Replayed(rest.count + 1, rest.error)
  }

  /** The code of the k-th call of a replay that has made the calls before it. */
  function CodeAt(nn: NnRuntime, log: seq<NnCall>, calls: seq<NnCall>, k: nat): Int32
    requires k < |calls|
  {
    nn(log + calls[..k], calls[k])
  }

  /** A replay that reports no error made every call. */
  lemma ReplayCompletes(nn: NnRuntime, log: seq<NnCall>, calls: seq<NnCall>)
    requires Replay(nn, log, calls).error.None?
    ensures Replay(nn, log, calls).count == |calls|
  {
    ReplayMeaning(nn, log, calls);
  }

  /** A replay reports no error exactly when it made every call and all
      succeeded; otherwise it reports the code of its last call, which is
      the first one that failed. */
  lemma {:induction false} ReplayMeaning(nn: NnRuntime, log: seq<NnCall>, calls: seq<NnCall>)
    ensures var r := Replay(nn, log, calls);
              (r.error.None? ==> r.count == |calls|)
              && (r.error.Some? ==>
                    1 <= r.count && r.error.value != ANEURALNETWORKS_NO_ERROR
                    && r.error.value == CodeAt(nn, log, calls, r.count - 1))
              && (forall k :: 0 <= k < r.count && (r.error.None? || k < r.count - 1) ==>
                    CodeAt(nn, log, calls, k) == ANEURALNETWORKS_NO_ERROR)
    decreases |calls|
  {
    if calls != [] {
      assert log + calls[..0] == log;
      var code := nn(log, calls[0]);
      if code == ANEURALNETWORKS_NO_ERROR {
        var log' := log + [calls[0]];
        var tail := calls[1..];
        ReplayMeaning(nn, log', tail);
        var rest := Replay(nn, log', tail);
        forall k | 1 <= k <= |tail|
          ensures CodeAt(nn, log, calls, k) == CodeAt(nn, log', tail, k - 1)
        {
          assert calls[..k] == [calls[0]] + tail[..k - 1];
          AppendAssoc(log, [calls[0]], tail[..k - 1]);
        }
      }
    }
  }

  /** The converse: if the first n calls succeed, the replay either makes
      them all (n is the length) or stops at call n when that one fails. */
  lemma ReplayStops(nn: NnRuntime, log: seq<NnCall>, calls: seq<NnCall>, n: nat)
    requires n <= |calls|
    requires forall k :: 0 <= k < n ==> CodeAt(nn, log, calls, k) == ANEURALNETWORKS_NO_ERROR
    ensures n == |calls| ==> Replay(nn, log, calls) == Replayed(n, None)
    ensures n < |calls| && CodeAt(nn, log, calls, n) != ANEURALNETWORKS_NO_ERROR ==>
              Replay(nn, log, calls) == Replayed(n + 1, Some(CodeAt(nn, log, calls, n)))
  {
    ReplayMeaning(nn, log, calls);
  }

  /** The addOperand calls for a list of operands, in order. */
  function OperandCalls(operands: seq<Operand>): (r: seq<NnCall>)
    ensures |r| == |operands|
    ensures forall k :: 0 <= k < |operands| ==> r[k] == ModelAddOperand(operands[k])
  {
    seq(|operands|, k requires 0 <= k < |operands| => ModelAddOperand(operands[k]))
  }

  /** The addOperation calls for a list of operations, in order. */
  function OperationCalls(operations: seq<Operation>): (r: seq<NnCall>)
    ensures |r| == |operations|
    ensures forall k :: 0 <= k < |operations| ==>
              r[k] == ModelAddOperation(operations[k].kind, operations[k].inputs, operations[k].outputs)
  {
    seq(|operations|, k requires 0 <= k < |operations| =>
      ModelAddOperation(operations[k].kind, operations[k].inputs, operations[k].outputs))
  }

  /** The setOperandValue call a value makes, or none when the index guard
      turns it away. */
  function ValueCall(value: ValueInfo, size: nat): seq<NnCall> {
    if GuardRejects(value.index, size) then []
    else [ModelSetOperandValue(value.index, value.offset, value.length)]
  }

  /** The runtime calls of the values loop of finish, with `size` operands
      in the table: only values past the index guard reach the runtime. */
  function ValueCalls(values: seq<ValueInfo>, size: nat): (r: seq<NnCall>)
    ensures |r| <= |values|
    ensures forall c :: c in r ==> c.ModelSetOperandValue? && !GuardRejects(c.valueIndex, size)
  {
    if values == [] then []
    else ValueCalls(values[..|values| - 1], size) + ValueCall(values[|values| - 1], size)
  }

  /** When every value passes the guard, each one makes exactly its own call,
      in order. */
  lemma {:induction false} ValueCallsAllAdmitted(values: seq<ValueInfo>, size: nat)
    requires forall k :: 0 <= k < |values| ==> !GuardRejects(values[k].index, size)
    ensures |ValueCalls(values, size)| == |values|
    ensures forall k :: 0 <= k < |values| ==>
              ValueCalls(values, size)[k] == ModelSetOperandValue(values[k].index, values[k].offset, values[k].length)
    decreases |values|
  {
    if values != [] {
      var front := values[..|values| - 1];
      assert forall k :: 0 <= k < |front| ==> front[k] == values[k];
      ValueCallsAllAdmitted(front, size);
    }
  }

  /** No value past the operand count reaches the runtime. */
  lemma {:induction false} ValueCallsNoneAdmitted(values: seq<ValueInfo>, size: nat)
    requires forall k :: 0 <= k < |values| ==> GuardRejects(values[k].index, size)
    ensures ValueCalls(values, size) == []
    decreases |values|
  {
    if values != [] {
      var front := values[..|values| - 1];
      assert forall k :: 0 <= k < |front| ==> front[k] == values[k];
      ValueCallsNoneAdmitted(front, size);
    }
  }

  /** The log of a finish whose operand and operation replays both succeeded,
      up to and including the identify call. */
  function IdentifyLog(log: seq<NnCall>, info: ModelInfo, size: nat): seq<NnCall> {
    log + OperandCalls(info.operands) + OperationCalls(info.operations)
    + ValueCalls(info.values, size) + [ModelIdentifyInputsAndOutputs(info.inputs, info.outputs)]
  }

  /** finish reaches its values loop only when both replays succeed. */
  predicate ReachesValues(nn: NnRuntime, log: seq<NnCall>, info: ModelInfo) {
    Replay(nn, log, OperandCalls(info.operands)).error.None?
    && Replay(nn, log + OperandCalls(info.operands), OperationCalls(info.operations)).error.None?
  }

  // ---------------------------------------------------------------------
  // ModelImplAndroid

  class ModelImplAndroid {
    const nn: NnRuntime
    var calls: seq<NnCall>
    var operands: seq<Operand>
    var operations: seq<Operation>
    var inputs: seq<U32>
    var outputs: seq<U32>

    /** The constructor creates the runtime model; its result is only logged. */
    constructor (nn: NnRuntime)
      ensures this.nn == nn && calls == [ModelCreate]
      ensures operands == [] && operations == [] && inputs == [] && outputs == []
    {
      this.nn := nn;
      calls := [ModelCreate];
      operands := [];
      operations := [];
      inputs := [];
      outputs := [];
    }

    /** One runtime call: its code, and the call appended to the log. */
    method CallRuntime(call: NnCall) returns (code: Int32)
      modifies this`calls
      ensures code == nn(old(calls), call) && calls == old(calls) + [call]
      ensures operands == old(operands) && operations == old(operations)
      ensures inputs == old(inputs) && outputs == old(outputs)
    {
      code := nn(calls, call);
      calls := calls + [call];
    }

    /** AddOperand: the operand is appended to the table before the runtime
        is consulted, and the runtime's code is returned. */
    method AddOperand(kind: Int32, dimensions: seq<U32>, scale: FloatBits, zeroPoint: Int32) returns (code: Int32)
      modifies this`operands, this`calls
      ensures var operand := Operand(kind, dimensions, scale, zeroPoint);
                operands == old(operands) + [operand]
                && code == nn(old(calls), ModelAddOperand(operand))
                && calls == old(calls) + [ModelAddOperand(operand)]
      ensures operations == old(operations) && inputs == old(inputs) && outputs == old(outputs)
    {
      var operand := Operand(kind, dimensions, scale, zeroPoint);
      operands := operands + [operand];
      code := CallRuntime(ModelAddOperand(operand));
    }

    /** SetOperandValue: BAD_DATA without a runtime call for an index above
        the operand count; otherwise the runtime's code. The value is handed
        over as its place in the shared memory. The operand read after the
        guard needs `index != count`. */
    method SetOperandValue(index: U32, offset: U32, length: U32) returns (code: Int32)
      requires index != |operands|
      modifies this`calls
      ensures GuardRejects(index, |operands|) ==> code == BAD_DATA && calls == old(calls)
      ensures InBounds(index, |operands|) ==>
                code == nn(old(calls), ModelSetOperandValue(index, offset, length))
                && calls == old(calls) + [ModelSetOperandValue(index, offset, length)]
      ensures calls == old(calls) + ValueCall(ValueInfo(index, offset, length), |operands|)
      ensures operands == old(operands) && operations == old(operations)
      ensures inputs == old(inputs) && outputs == old(outputs)
    {
      if index > |operands| {
        return BAD_DATA;
      }
      var operand := operands[index];
      code := CallRuntime(ModelSetOperandValue(index, offset, length));
    }

    /** SetOperandValue with the guard `index >= count`: BAD_DATA without a
        runtime call exactly for an index outside the table, otherwise the
        runtime's code. */
    method SetOperandValueCorrected(index: U32, offset: U32, length: U32) returns (code: Int32)
      modifies this`calls
      ensures !InBounds(index, |operands|) ==> code == BAD_DATA && calls == old(calls)
      ensures InBounds(index, |operands|) ==>
                code == nn(old(calls), ModelSetOperandValue(index, offset, length))
                && calls == old(calls) + [ModelSetOperandValue(index, offset, length)]
      ensures operands == old(operands) && operations == old(operations)
      ensures inputs == old(inputs) && outputs == old(outputs)
    {
      if index >= |operands| {
        return BAD_DATA;
      }
      var operand := operands[index];
      code := CallRuntime(ModelSetOperandValue(index, offset, length));
    }

    /** AddOperation: appended to the table, then the runtime's code. */
    method AddOperation(kind: Int32, opInputs: seq<U32>, opOutputs: seq<U32>) returns (code: Int32)
      modifies this`operations, this`calls
      ensures operations == old(operations) + [Operation(kind, opInputs, opOutputs)]
      ensures code == nn(old(calls), ModelAddOperation(kind, opInputs, opOutputs))
      ensures calls == old(calls) + [ModelAddOperation(kind, opInputs, opOutputs)]
      ensures operands == old(operands) && inputs == old(inputs) && outputs == old(outputs)
    {
      operations := operations + [Operation(kind, opInputs, opOutputs)];
      code := CallRuntime(ModelAddOperation(kind, opInputs, opOutputs));
    }

    /** IdentifyInputsAndOutputs: the tables are replaced whatever the
        runtime answers. */
    method IdentifyInputsAndOutputs(newInputs: seq<U32>, newOutputs: seq<U32>) returns (code: Int32)
      modifies this`inputs, this`outputs, this`calls
      ensures inputs == newInputs && outputs == newOutputs
      ensures code == nn(old(calls), ModelIdentifyInputsAndOutputs(newInputs, newOutputs))
      ensures calls == old(calls) + [ModelIdentifyInputsAndOutputs(newInputs, newOutputs)]
      ensures operands == old(operands) && operations == old(operations)
    {
      inputs := newInputs;
      outputs := newOutputs;
      code := CallRuntime(ModelIdentifyInputsAndOutputs(newInputs, newOutputs));
    }

    /** The operands loop of finish. */
    method ReplayOperands(newOperands: seq<Operand>) returns (error: Option<Int32>)
      modifies this`calls, this`operands
      ensures var cs := OperandCalls(newOperands);
              var r := Replay(nn, old(calls), cs);
                error == r.error && calls == old(calls) + cs[..r.count]
                && operands == old(operands) + newOperands[..r.count]
      ensures operations == old(operations) && inputs == old(inputs) && outputs == old(outputs)
    {
      ghost var log := calls;
      ghost var cs := OperandCalls(newOperands);
      var i := 0;
      while i < |newOperands|
        invariant 0 <= i <= |newOperands|
        invariant calls == log + cs[..i]
        invariant operands == old(operands) + newOperands[..i]
        invariant operations == old(operations) && inputs == old(inputs) && outputs == old(outputs)
        invariant forall k :: 0 <= k < i ==> CodeAt(nn, log, cs, k) == ANEURALNETWORKS_NO_ERROR
      {
        var operand := newOperands[i];
        var code := AddOperand(operand.kind, operand.dimensions, operand.scale, operand.zeroPoint);
        assert cs[..i + 1] == cs[..i] + [cs[i]];
        assert newOperands[..i + 1] == newOperands[..i] + [operand];
        if code != ANEURALNETWORKS_NO_ERROR {
          ReplayStops(nn, log, cs, i);
          return Some(code);
        }
        i := i + 1;
      }
      ReplayStops(nn, log, cs, i);
      assert newOperands[..i] == newOperands;
      error := None;
    }

    /** The operations loop of finish. */
    method ReplayOperations(newOperations: seq<Operation>) returns (error: Option<Int32>)
      modifies this`calls, this`operations
      ensures var cs := OperationCalls(newOperations);
              var r := Replay(nn, old(calls), cs);
                error == r.error && calls == old(calls) + cs[..r.count]
                && operations == old(operations) + newOperations[..r.count]
      ensures operands == old(operands) && inputs == old(inputs) && outputs == old(outputs)
    {
      ghost var log := calls;
      ghost var cs := OperationCalls(newOperations);
      var i := 0;
      while i < |newOperations|
        invariant 0 <= i <= |newOperations|
        invariant calls == log + cs[..i]
        invariant operations == old(operations) + newOperations[..i]
        invariant operands == old(operands) && inputs == old(inputs) && outputs == old(outputs)
        invariant forall k :: 0 <= k < i ==> CodeAt(nn, log, cs, k) == ANEURALNETWORKS_NO_ERROR
      {
        var operation := newOperations[i];
        var code := AddOperation(operation.kind, operation.inputs, operation.outputs);
        assert cs[..i + 1] == cs[..i] + [cs[i]];
        assert newOperations[..i + 1] == newOperations[..i] + [operation];
        if code != ANEURALNETWORKS_NO_ERROR {
          ReplayStops(nn, log, cs, i);
          return Some(code);
        }
        i := i + 1;
      }
      ReplayStops(nn, log, cs, i);
      assert newOperations[..i] == newOperations;
      error := None;
    }

    /** The values loop of finish: every value is handed to SetOperandValue
        and every result is dropped. */
    method ReplayValues(values: seq<ValueInfo>)
      requires forall k :: 0 <= k < |values| ==> values[k].index != |operands|
      modifies this`calls
      ensures calls == old(calls) + ValueCalls(values, |operands|)
      ensures operands == old(operands) && operations == old(operations)
      ensures inputs == old(inputs) && outputs == old(outputs)
    {
      var i := 0;
      while i < |values|
        invariant 0 <= i <= |values|
        invariant calls == old(calls) + ValueCalls(values[..i], |operands|)
        invariant operands == old(operands) && operations == old(operations)
        invariant inputs == old(inputs) && outputs == old(outputs)
      {
        var value := values[i];
        var ignored := SetOperandValue(value.index, value.offset, value.length);
        assert values[..i + 1][..i] == values[..i];
        AppendAssoc(old(calls), ValueCalls(values[..i], |operands|), ValueCall(value, |operands|));
        i := i + 1;
      }
      assert values[..i] == values;
    }

    /** finish: replays the operands and then the operations, each stopping
        at and reporting the first failing code; hands every value over,
        ignoring the results; then reports identify's code if it failed, or
        else the code of the runtime's finish. The operand read in
        SetOperandValue needs the value indexes to differ from the operand
        count, which matters only when both replays succeed. */
    method Finish(info: ModelInfo) returns (code: Int32)
      requires ReachesValues(nn, calls, info) ==>
                 forall k :: 0 <= k < |info.values| ==> info.values[k].index != |operands| + |info.operands|
      modifies this
      ensures var ops := OperandCalls(info.operands);
              var r1 := Replay(nn, old(calls), ops);
                r1.error.Some? ==>
                  code == r1.error.value && calls == old(calls) + ops[..r1.count]
                  && operands == old(operands) + info.operands[..r1.count]
                  && operations == old(operations) && inputs == old(inputs) && outputs == old(outputs)
      ensures var log1 := old(calls) + OperandCalls(info.operands);
              var ops := OperationCalls(info.operations);
              var r2 := Replay(nn, log1, ops);
                Replay(nn, old(calls), OperandCalls(info.operands)).error.None? && r2.error.Some? ==>
                  code == r2.error.value && calls == log1 + ops[..r2.count]
                  && operands == old(operands) + info.operands
                  && operations == old(operations) + info.operations[..r2.count]
                  && inputs == old(inputs) && outputs == old(outputs)
      ensures ReachesValues(nn, old(calls), info) ==>
                var log := IdentifyLog(old(calls), info, |old(operands)| + |info.operands|);
                var identify := nn(log[..|log| - 1], log[|log| - 1]);
                  operands == old(operands) + info.operands
                  && operations == old(operations) + info.operations
                  && inputs == info.inputs && outputs == info.outputs
                  && (identify != ANEURALNETWORKS_NO_ERROR ==> code == identify && calls == log)
                  && (identify == ANEURALNETWORKS_NO_ERROR ==>
                        code == nn(log, ModelFinish) && calls == log + [ModelFinish])
    {
      var e1 := ReplayOperands(info.operands);
      if e1.Some? {
        return e1.value;
      }
      ReplayCompletes(nn, old(calls), OperandCalls(info.operands));
      assert info.operands[..|info.operands|] == info.operands;
      assert OperandCalls(info.operands)[..|info.operands|] == OperandCalls(info.operands);
      assert calls == old(calls) + OperandCalls(info.operands);
      assert |operands| == |old(operands)| + |info.operands|;
      ghost var size := |operands|;
      code := FinishOperations(info);
      assert ReachesValues(nn, old(calls), info) ==>
               IdentifyLog(old(calls), info, size)
               == old(calls) + OperandCalls(info.operands) + OperationCalls(info.operations)
                  + ValueCalls(info.values, size) + [ModelIdentifyInputsAndOutputs(info.inputs, info.outputs)];
    }

    /** finish once the operand replay succeeded: the operations replay, then
        the rest. */
    method FinishOperations(info: ModelInfo) returns (code: Int32)
      requires Replay(nn, calls, OperationCalls(info.operations)).error.None? ==>
                 forall k :: 0 <= k < |info.values| ==> info.values[k].index != |operands|
      modifies this`calls, this`operations, this`inputs, this`outputs
      ensures var ops := OperationCalls(info.operations);
              var r2 := Replay(nn, old(calls), ops);
                r2.error.Some? ==>
                  code == r2.error.value && calls == old(calls) + ops[..r2.count]
                  && operands == old(operands) && operations == old(operations) + info.operations[..r2.count]
                  && inputs == old(inputs) && outputs == old(outputs)
      ensures var ops := OperationCalls(info.operations);
              var log := old(calls) + ops + ValueCalls(info.values, |old(operands)|)
                         + [ModelIdentifyInputsAndOutputs(info.inputs, info.outputs)];
              var identify := nn(log[..|log| - 1], log[|log| - 1]);
                Replay(nn, old(calls), ops).error.None? ==>
                  operands == old(operands) && operations == old(operations) + info.operations
                  && inputs == info.inputs && outputs == info.outputs
                  && (identify != ANEURALNETWORKS_NO_ERROR ==> code == identify && calls == log)
                  && (identify == ANEURALNETWORKS_NO_ERROR ==>
                        code == nn(log, ModelFinish) && calls == log + [ModelFinish])
    {
      var e2 := ReplayOperations(info.operations);
      if e2.Some? {
        return e2.value;
      }
      ReplayCompletes(nn, old(calls), OperationCalls(info.operations));
      assert info.operations[..|info.operations|] == info.operations;
      assert OperationCalls(info.operations)[..|info.operations|] == OperationCalls(info.operations);
      code := FinishTail(info);
    }

    /** The rest of finish once both replays succeeded: the values, identify,
        and the runtime's finish when identify succeeded. */
    method FinishTail(info: ModelInfo) returns (code: Int32)
      requires forall k :: 0 <= k < |info.values| ==> info.values[k].index != |operands|
      modifies this`calls, this`inputs, this`outputs
      ensures var log := old(calls) + ValueCalls(info.values, |old(operands)|)
                         + [ModelIdentifyInputsAndOutputs(info.inputs, info.outputs)];
              var identify := nn(log[..|log| - 1], log[|log| - 1]);
                operands == old(operands) && operations == old(operations)
                && inputs == info.inputs && outputs == info.outputs
                && (identify != ANEURALNETWORKS_NO_ERROR ==> code == identify && calls == log)
                && (identify == ANEURALNETWORKS_NO_ERROR ==>
                      code == nn(log, ModelFinish) && calls == log + [ModelFinish])
    {
      ReplayValues(info.values);
      ghost var log3 := calls;
      code := IdentifyInputsAndOutputs(info.inputs, info.outputs);
      ghost var log := log3 + [ModelIdentifyInputsAndOutputs(info.inputs, info.outputs)];
      assert log[..|log| - 1] == log3;
      if code != ANEURALNETWORKS_NO_ERROR {
        return;
      }
      code := CallRuntime(ModelFinish);
    }

    /** createCompilation: a new compilation over copies of the tables. */
    method CreateCompilation() returns (code: Int32, compilation: CompilationImplAndroid)
      ensures code == NO_ERROR
      ensures fresh(compilation)
      ensures compilation.nn == nn && compilation.calls == [CompilationCreate(calls)]
      ensures compilation.operands == operands && compilation.operations == operations
      ensures compilation.inputs == inputs && compilation.outputs == outputs
    {
      compilation := new CompilationImplAndroid(this);
      code := NO_ERROR;
    }
  }

  // ---------------------------------------------------------------------
  // CompilationImplAndroid

  class CompilationImplAndroid {
    const nn: NnRuntime
    var calls: seq<NnCall>
    var operands: seq<Operand>
    var operations: seq<Operation>
    var inputs: seq<U32>
    var outputs: seq<U32>

    /** Copies the model's four tables and creates the runtime compilation
        from the model. */
    constructor (model: ModelImplAndroid)
      ensures nn == model.nn && calls == [CompilationCreate(model.calls)]
      ensures operands == model.operands && operations == model.operations
      ensures inputs == model.inputs && outputs == model.outputs
    {
      nn := model.nn;
      calls := [CompilationCreate(model.calls)];
      operands := model.operands;
      operations := model.operations;
      inputs := model.inputs;
      outputs := model.outputs;
    }

    /** finish: a failing setPreference is reported and the runtime finish
        is never called; otherwise the runtime finish code is reported. */
    method Finish(preference: Int32) returns (code: Int32)
      modifies this
      ensures var setCode := nn(old(calls), CompilationSetPreference(preference));
                (setCode != ANEURALNETWORKS_NO_ERROR ==>
                   code == setCode && calls == old(calls) + [CompilationSetPreference(preference)])
                && (setCode == ANEURALNETWORKS_NO_ERROR ==>
                   calls == old(calls) + [CompilationSetPreference(preference), CompilationFinish]
                   && code == nn(old(calls) + [CompilationSetPreference(preference)], CompilationFinish))
      ensures operands == old(operands) && operations == old(operations)
      ensures inputs == old(inputs) && outputs == old(outputs)
    {
      code := nn(calls, CompilationSetPreference(preference));
      calls := calls + [CompilationSetPreference(preference)];
      if code != ANEURALNETWORKS_NO_ERROR {
        return;
      }
      code := nn(calls, CompilationFinish);
      calls := calls + [CompilationFinish];
    }

    /** createExecution: sizes the shared memory from the graph inputs and
        outputs, publishes their descriptors in order and creates the
        execution. Reading operands_[inputs_[i]] needs the indexes in range. */
    method CreateExecution() returns (code: Int32, params: ExecutionInitParams, execution: ExecutionImplAndroid)
      requires IndexesInRange(inputs, |operands|) && IndexesInRange(outputs, |operands|)
      ensures code == NO_ERROR
      ensures params.memorySize == ExecutionBytes(operands, inputs, outputs) % TwoTo32
      ensures |params.inputs| == |inputs| && |params.outputs| == |outputs|
      ensures forall k :: 0 <= k < |inputs| ==>
                params.inputs[k] == OperandDescriptor(operands[inputs[k]].kind, operands[inputs[k]].dimensions)
      ensures forall k :: 0 <= k < |outputs| ==>
                params.outputs[k] == OperandDescriptor(operands[outputs[k]].kind, operands[outputs[k]].dimensions)
      ensures fresh(execution)
      ensures execution.nn == nn && execution.calls == [ExecutionCreate(calls)]
      ensures execution.operands == operands && execution.operations == operations
      ensures execution.inputs == inputs && execution.outputs == outputs
      ensures execution.inputBuffers == map[] && execution.outputBuffer == null
    {
      params := PlanExecution(operands, inputs, outputs);
      execution := new ExecutionImplAndroid(this);
      code := NO_ERROR;
    }
  }

  // ---------------------------------------------------------------------
  // ExecutionImplAndroid

  class ExecutionImplAndroid {
    const nn: NnRuntime
    var calls: seq<NnCall>
    var operands: seq<Operand>
    var operations: seq<Operation>
    var inputs: seq<U32>
    var outputs: seq<U32>
    /** The private copy of each input, by input position. */
    var inputBuffers: map<U32, array<Byte>>
    /** The buffer the runtime writes the output into, allocated once. */
    var outputBuffer: array?<Byte>
    var outputLength: U32
    /** The shared buffer the output is copied back into. */
    var outputHandle: array?<Byte>

    /** The output buffer, once allocated, has the recorded length. */
    ghost predicate Valid()
      reads this
    {
      outputBuffer != null ==> outputBuffer.Length == outputLength
    }

    constructor (compilation: CompilationImplAndroid)
      ensures Valid()
      ensures nn == compilation.nn && calls == [ExecutionCreate(compilation.calls)]
      ensures operands == compilation.operands && operations == compilation.operations
      ensures inputs == compilation.inputs && outputs == compilation.outputs
      ensures inputBuffers == map[] && outputBuffer == null && outputHandle == null
    {
      nn := compilation.nn;
      calls := [ExecutionCreate(compilation.calls)];
      operands := compilation.operands;
      operations := compilation.operations;
      inputs := compilation.inputs;
      outputs := compilation.outputs;
      inputBuffers := map[];
      outputBuffer := null;
      outputLength := 0;
      outputHandle := null;
    }

    /** setInput: the same two BAD_DATA guards as the software backend;
        past them, the input position gets a buffer of `length` bytes on its
        first call and keeps it afterwards, the first `length` bytes of the
        shared buffer are copied into it and the runtime's code is returned.
        Mapping `length` bytes and copying them into a buffer allocated
        earlier need both to be large enough. */
    method SetInput(index: U32, buffer: array<Byte>, length: U32) returns (code: Int32)
      requires index != |inputs|
      requires index < |inputs| ==> inputs[index] != |operands|
      requires index < |inputs| && inputs[index] < |operands| ==>
                 length <= buffer.Length && (index in inputBuffers ==> length <= inputBuffers[index].Length)
      modifies this, if index in inputBuffers then {inputBuffers[index]} else {}
      ensures operands == old(operands) && operations == old(operations)
      ensures inputs == old(inputs) && outputs == old(outputs)
      ensures outputBuffer == old(outputBuffer) && outputLength == old(outputLength)
      ensures outputHandle == old(outputHandle)
      ensures GuardRejects(index, |inputs|) || GuardRejects(inputs[index], |operands|) ==>
                code == BAD_DATA && calls == old(calls) && inputBuffers == old(inputBuffers)
      ensures InBounds(index, |inputs|) && InBounds(inputs[index], |operands|) ==>
                index in inputBuffers
                && inputBuffers == old(inputBuffers)[index := inputBuffers[index]]
                && (index in old(inputBuffers) ==>
                      inputBuffers[index] == old(inputBuffers[index])
                      && inputBuffers[index][..] == old(buffer[..])[..length] + old(inputBuffers[index][..])[length..])
                && (index !in old(inputBuffers) ==>
                      fresh(inputBuffers[index]) && inputBuffers[index][..] == old(buffer[..])[..length])
                && code == nn(old(calls), ExecutionSetInput(index, old(buffer[..])[..length]))
                && calls == old(calls) + [ExecutionSetInput(index, old(buffer[..])[..length])]
    {
      if index > |inputs| {
        return BAD_DATA;
      }
      var inputOperandIndex := inputs[index];
      if inputOperandIndex > |operands| {
        return BAD_DATA;
      }
      var operand := operands[inputOperandIndex];
      var data := buffer[..length];
      var input: array<Byte>;
      if index in inputBuffers {
        input := inputBuffers[index];
      } else {
        input := new Byte[length];
        inputBuffers := inputBuffers[index := input];
      }
      ghost var before := input[..];
      Memcpy(input, 0, data);
      assert before[0 + |data|..] == before[length..];
      code := nn(calls, ExecutionSetInput(index, data));
      calls := calls + [ExecutionSetInput(index, data)];
    }

    /** setOutput: the first call fixes the output buffer and its length;
        every call replaces the output handle. */
    method SetOutput(index: U32, buffer: array<Byte>, length: U32) returns (code: Int32)
      requires Valid()
      modifies this
      ensures Valid()
      ensures old(outputBuffer) == null ==>
                fresh(outputBuffer) && outputBuffer != null && outputLength == length
      ensures old(outputBuffer) != null ==>
                outputBuffer == old(outputBuffer) && outputLength == old(outputLength)
      ensures outputHandle == buffer
      ensures code == nn(old(calls), ExecutionSetOutput(index, length))
      ensures calls == old(calls) + [ExecutionSetOutput(index, length)]
      ensures operands == old(operands) && operations == old(operations)
      ensures inputs == old(inputs) && outputs == old(outputs) && inputBuffers == old(inputBuffers)
    {
      if outputBuffer == null {
        outputBuffer := new Byte[length];
        outputLength := length;
      }
      outputHandle := buffer;
      code := nn(calls, ExecutionSetOutput(index, length));
      calls := calls + [ExecutionSetOutput(index, length)];
    }

    /** startCompute: runs the computation and waits for it, whatever either
        answers; the runtime leaves `produced` in the output buffer; then
        `outputLength` bytes are copied into the output handle and NO_ERROR
        is reported. Copying needs setOutput to have been called with a
        handle large enough. */
    method StartCompute(produced: seq<Byte>) returns (code: Int32)
      requires Valid()
      requires outputBuffer != null && outputHandle != null
      requires |produced| == outputBuffer.Length && outputLength <= outputHandle.Length
      modifies outputBuffer, outputHandle, this
      ensures outputBuffer == old(outputBuffer) && outputHandle == old(outputHandle)
      ensures outputLength == old(outputLength) && inputBuffers == old(inputBuffers)
      ensures code == NO_ERROR
      ensures outputBuffer[..] == produced
      ensures outputHandle[..] == produced[..outputLength] + old(outputHandle[..])[outputLength..]
      ensures calls == old(calls) + [ExecutionStartCompute, EventWait]
      ensures operands == old(operands) && operations == old(operations)
      ensures inputs == old(inputs) && outputs == old(outputs)
    {
      var started := nn(calls, ExecutionStartCompute);
      calls := calls + [ExecutionStartCompute];
      var waited := nn(calls, EventWait);
      calls := calls + [EventWait];
      var buf := outputBuffer;
      var handle := outputHandle;
      Memcpy(buf, 0, produced);
      ghost var handleBefore := handle[..];
      assert handle != buf ==> handleBefore == old(outputHandle[..]);
      Memcpy(handle, 0, buf[..outputLength]);
      code := NO_ERROR;
    }
  }
}
