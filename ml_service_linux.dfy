/** The software backend of the neural-network service
    (services/ml/model_impl_linux.cc, compilation_impl_linux.cc,
    execution_impl_linux.cc): it keeps the tables, checks indexes and
    answers NO_ERROR; it computes nothing. */
module MlServiceLinux {
  import opened Base
  import opened MlCommon

  class ModelImplLinux {
    var operands: seq<Operand>
    var operations: seq<Operation>
    var inputs: seq<U32>
    var outputs: seq<U32>

    constructor ()
      ensures operands == [] && operations == [] && inputs == [] && outputs == []
    {
      operands := [];
      operations := [];
      inputs := [];
      outputs := [];
    }

    /** addOperand: appends the operand as given and answers NO_ERROR. */
    method AddOperand(kind: Int32, dimensions: seq<U32>, scale: FloatBits, zeroPoint: Int32) returns (code: Int32)
      modifies this
      ensures code == NO_ERROR
      ensures operands == old(operands) + [Operand(kind, dimensions, scale, zeroPoint)]
      ensures operations == old(operations) && inputs == old(inputs) && outputs == old(outputs)
    {
      operands := operands + [Operand(kind, dimensions, scale, zeroPoint)];
      code := NO_ERROR;
    }

    /** setOperandValue: BAD_DATA for an index above the operand count;
        otherwise the value is only logged, never stored. The operand read
        that follows the guard needs `index != count`, which the guard does
        not ensure. */
    method SetOperandValue(index: U32, buffer: seq<Byte>, length: U32) returns (code: Int32)
      requires index != |operands|
      ensures code == BAD_DATA <==> GuardRejects(index, |operands|)
      ensures code == NO_ERROR <==> InBounds(index, |operands|)
      ensures code == NO_ERROR || code == BAD_DATA
    {
      if index > |operands| {
        return BAD_DATA;
      }
      var operand := operands[index];
      code := NO_ERROR;
    }

    /** setOperandValue with the guard `index >= count` that the operand read
        needs: BAD_DATA exactly for an index outside the table. It answers as
        SetOperandValue does on every index but the operand count. */
    method SetOperandValueCorrected(index: U32, buffer: seq<Byte>, length: U32) returns (code: Int32)
      ensures code == BAD_DATA <==> !InBounds(index, |operands|)
      ensures code == NO_ERROR <==> InBounds(index, |operands|)
      ensures index != |operands| ==> (code == BAD_DATA <==> GuardRejects(index, |operands|))
    {
      if index >= |operands| {
        return BAD_DATA;
      }
      var operand := operands[index];
      code := NO_ERROR;
    }

    /** addOperation: appends the operation without checking its indexes. */
    method AddOperation(kind: Int32, opInputs: seq<U32>, opOutputs: seq<U32>) returns (code: Int32)
      modifies this
      ensures code == NO_ERROR
      ensures operations == old(operations) + [Operation(kind, opInputs, opOutputs)]
      ensures operands == old(operands) && inputs == old(inputs) && outputs == old(outputs)
    {
      operations := operations + [Operation(kind, opInputs, opOutputs)];
      code := NO_ERROR;
    }

    /** identifyInputsAndOutputs: replaces the graph inputs and outputs. */
    method IdentifyInputsAndOutputs(newInputs: seq<U32>, newOutputs: seq<U32>) returns (code: Int32)
      modifies this
      ensures code == NO_ERROR
      ensures inputs == newInputs && outputs == newOutputs
      ensures operands == old(operands) && operations == old(operations)
    {
      inputs := newInputs;
      outputs := newOutputs;
      code := NO_ERROR;
    }

    method Finish() returns (code: Int32)
      ensures code == NO_ERROR
    {
      code := NO_ERROR;
    }

    /** createCompilation: a new compilation holding copies of the four tables. */
    method CreateCompilation() returns (code: Int32, compilation: CompilationImplLinux)
      ensures code == NO_ERROR
      ensures fresh(compilation)
      ensures compilation.operands == operands && compilation.operations == operations
      ensures compilation.inputs == inputs && compilation.outputs == outputs
    {
      compilation := new CompilationImplLinux(this);
      code := NO_ERROR;
    }
  }

  class CompilationImplLinux {
    var operands: seq<Operand>
    var operations: seq<Operation>
    var inputs: seq<U32>
    var outputs: seq<U32>

    constructor (model: ModelImplLinux)
      ensures operands == model.operands && operations == model.operations
      ensures inputs == model.inputs && outputs == model.outputs
    {
      operands := model.operands;
      operations := model.operations;
      inputs := model.inputs;
      outputs := model.outputs;
    }

    /** setPreference accepts any value. */
    method SetPreference(preference: Int32) returns (code: Int32)
      ensures code == NO_ERROR
    {
      code := NO_ERROR;
    }

    method Finish() returns (code: Int32)
      ensures code == NO_ERROR
    {
      code := NO_ERROR;
    }

    /** createExecution: sizes the shared memory from the graph inputs and
        outputs and creates an execution holding copies of the tables.
        Reading operands_[inputs_[i]] needs every graph index in range. */
    method CreateExecution() returns (code: Int32, params: ExecutionInitParams, execution: ExecutionImplLinux)
      requires IndexesInRange(inputs, |operands|) && IndexesInRange(outputs, |operands|)
      ensures code == NO_ERROR
      ensures params.memorySize == ExecutionBytes(operands, inputs, outputs) % TwoTo32
      ensures |params.inputs| == |inputs| && |params.outputs| == |outputs|
      ensures forall k :: 0 <= k < |inputs| ==>
                params.inputs[k] == OperandDescriptor(operands[inputs[k]].kind, operands[inputs[k]].dimensions)
      ensures forall k :: 0 <= k < |outputs| ==>
                params.outputs[k] == OperandDescriptor(operands[outputs[k]].kind, operands[outputs[k]].dimensions)
      ensures fresh(execution)
      ensures execution.operands == operands && execution.operations == operations
      ensures execution.inputs == inputs && execution.outputs == outputs
    {
      params := PlanExecution(operands, inputs, outputs);
      execution := new ExecutionImplLinux(this);
      code := NO_ERROR;
    }
  }

  class ExecutionImplLinux {
    var operands: seq<Operand>
    var operations: seq<Operation>
    var inputs: seq<U32>
    var outputs: seq<U32>

    constructor (compilation: CompilationImplLinux)
      ensures operands == compilation.operands && operations == compilation.operations
      ensures inputs == compilation.inputs && outputs == compilation.outputs
    {
      operands := compilation.operands;
      operations := compilation.operations;
      inputs := compilation.inputs;
      outputs := compilation.outputs;
    }

    /** setInput: BAD_DATA when the input position is above the input count
        or the operand it names is above the operand count; otherwise the
        data is only logged. The reads after each guard need the index to
        differ from the count, which the guards do not ensure. */
    method SetInput(index: U32, buffer: seq<Byte>, length: U32) returns (code: Int32)
      requires index != |inputs|
      requires index < |inputs| ==> inputs[index] != |operands|
      ensures code == BAD_DATA <==> GuardRejects(index, |inputs|) || GuardRejects(inputs[index], |operands|)
      ensures code == NO_ERROR <==> InBounds(index, |inputs|) && InBounds(inputs[index], |operands|)
      ensures code == NO_ERROR || code == BAD_DATA
    {
      if index > |inputs| {
        return BAD_DATA;
      }
      var inputOperandIndex := inputs[index];
      if inputOperandIndex > |operands| {
        return BAD_DATA;
      }
      var operand := operands[inputOperandIndex];
      code := NO_ERROR;
    }

    /** setInput with both guards written `>=`: BAD_DATA exactly when the
        input position or the operand it names is outside its table. */
    method SetInputCorrected(index: U32, buffer: seq<Byte>, length: U32) returns (code: Int32)
      ensures code == BAD_DATA <==> !InBounds(index, |inputs|) || !InBounds(inputs[index], |operands|)
      ensures code == NO_ERROR <==> InBounds(index, |inputs|) && InBounds(inputs[index], |operands|)
    {
      if index >= |inputs| {
        return BAD_DATA;
      }
      var inputOperandIndex := inputs[index];
      if inputOperandIndex >= |operands| {
        return BAD_DATA;
      }
      var operand := operands[inputOperandIndex];
      code := NO_ERROR;
    }

    method SetOutput(index: U32, buffer: seq<Byte>, length: U32) returns (code: Int32)
      ensures code == NO_ERROR
    {
      code := NO_ERROR;
    }

    method StartCompute() returns (code: Int32)
      ensures code == NO_ERROR
    {
      code := NO_ERROR;
    }
  }
}
