/** The operand data model of the neural-network service
    (services/ml/common.h, services/ml/common.cc): operands, operations,
    the byte size an operand needs, and the bounded vector printer. */
module MlCommon {
  import opened Base

  // Operand type codes.
  const FLOAT32: Int32 := 0
  const INT32: Int32 := 1
  const UINT32: Int32 := 2
  const TENSOR_FLOAT32: Int32 := 3
  const TENSOR_INT32: Int32 := 4
  const TENSOR_QUANT8_ASYMM: Int32 := 5

  // Execution preferences.
  const PREFER_LOW_POWER: Int32 := 0
  const PREFER_FAST_SINGLE_ANSWER: Int32 := 1
  const PREFER_SUSTAINED_SPEED: Int32 := 2

  // Result codes. Only their distinctness matters to the model.
  const NO_ERROR: Int32 := 0
  const BAD_DATA: Int32 := 4

  /** The bits of a C++ float; the model never computes with them. */
  type FloatBits = bv32

  datatype Operand = Operand(kind: Int32, dimensions: seq<U32>, scale: FloatBits, zeroPoint: Int32)

  datatype Operation = Operation(kind: Int32, inputs: seq<U32>, outputs: seq<U32>)

  /** A byte range of a shared memory blob (the mapping itself is not modelled). */
  datatype OperandInfo = OperandInfo(offset: U32, length: U32)

  /** Where a constant value of operand `index` lies in the model's blob. */
  datatype ValueInfo = ValueInfo(index: U32, offset: U32, length: U32)

  /** What an execution publishes per graph input or output. */
  datatype OperandDescriptor = OperandDescriptor(kind: Int32, dimensions: seq<U32>)

  // ---------------------------------------------------------------------
  // Index guards.

  /** The guard the service and the Blink builder write before indexing a
      table of `size` entries: it only rejects `index > size`. */
  predicate GuardRejects(index: int, size: int) {
    index > size
  }

  /** The guard that keeps the following table read in range. */
  predicate InBounds(index: int, size: int) {
    0 <= index < size
  }

  /** As written, the guard lets `index == size` through to an out-of-range read. */
  lemma GuardAdmitsOneTooMany(size: nat)
    ensures !GuardRejects(size, size) && !InBounds(size, size)
  {
  }

  // ---------------------------------------------------------------------
  // Size arithmetic.

  /** Mathematical product of the dimensions. */
  function DimensionProduct(dims: seq<U32>): nat {
    if dims == [] then 1 else DimensionProduct(dims[..|dims| - 1]) * dims[|dims| - 1]
  }

  /** The uint32_t running product `prod *= dims[i]`. */
  function Product32(dims: seq<U32>): U32 {
    if dims == [] then 1 else MulU32(Product32(dims[..|dims| - 1]), dims[|dims| - 1])
  }

  lemma ModMul(a: nat, b: nat)
    ensures ((a % TwoTo32) * b) % TwoTo32 == (a * b) % TwoTo32
  {
    var q := a / TwoTo32;
    var r := a % TwoTo32;
    assert a == q * TwoTo32 + r;
    assert a * b == (q * b) * TwoTo32 + r * b;
  }

  lemma ModAdd(a: nat, b: nat)
    ensures ((a % TwoTo32) + b) % TwoTo32 == (a + b) % TwoTo32
  {
    var q, r := a / TwoTo32, a % TwoTo32;
    var q2, r2 := (r + b) / TwoTo32, (r + b) % TwoTo32;
    ModUnique(a + b, q + q2, r2);
  }

  /** The uint32_t sum of two wrapped sums is the wrapped total. */
  lemma WrappedSum(a: nat, b: nat)
    ensures AddU32(a % TwoTo32, b % TwoTo32) == (a + b) % TwoTo32
  {
    var qa, ra := a / TwoTo32, a % TwoTo32;
    var qb, rb := b / TwoTo32, b % TwoTo32;
    if ra + rb < TwoTo32 {
      ModUnique(a + b, qa + qb, ra + rb);
    } else {
      ModUnique(a + b, qa + qb + 1, ra + rb - TwoTo32);
    }
  }

  /** The remainder is the one r in [0, 2^32) with x == q * 2^32 + r. */
  lemma ModUnique(x: nat, q: int, r: int)
    requires x == q * TwoTo32 + r && 0 <= r < TwoTo32
    ensures x % TwoTo32 == r
  {
  }

  /** The uint32_t product is the mathematical product modulo 2^32. */
  lemma {:induction false} Product32Wraps(dims: seq<U32>)
    ensures Product32(dims) == DimensionProduct(dims) % TwoTo32
  {
    if dims != [] {
      var front := dims[..|dims| - 1];
      Product32Wraps(front);
      ModMul(DimensionProduct(front), dims[|dims| - 1]);
    }
  }

  /** product(): multiplies every dimension in uint32_t; the empty list gives 1. */
  method Product(dims: seq<U32>) returns (prod: U32)
    ensures prod == DimensionProduct(dims) % TwoTo32
    ensures dims == [] ==> prod == 1
  {
    prod := 1;
    var i := 0;
    while i < |dims|
      invariant 0 <= i <= |dims|
      invariant prod == Product32(dims[..i])
    {
      assert dims[..i + 1][..i] == dims[..i];
      prod := MulU32(prod, dims[i]);
      i := i + 1;
    }
    assert dims[..|dims|] == dims;
    Product32Wraps(dims);
  }

  /** Operand::requiredSize(): 4 bytes for a scalar, 4 bytes per element of a
      float or int tensor, one byte per element of a quantized tensor, and 0
      (after NOTREACHED) for an unknown type code; the result is a uint32_t. */
  function RequiredSize(operand: Operand): U32 {
    if operand.kind == FLOAT32 then 4
    else if operand.kind == INT32 then 4
    else if operand.kind == UINT32 then 4
    else if operand.kind == TENSOR_FLOAT32 then MulU32(Product32(operand.dimensions), 4)
    else if operand.kind == TENSOR_INT32 then MulU32(Product32(operand.dimensions), 4)
    else if operand.kind == TENSOR_QUANT8_ASYMM then Product32(operand.dimensions)
    else 0
  }

  /** requiredSize per type code, stated on the mathematical product. */
  lemma RequiredSizeByType(operand: Operand)
    ensures operand.kind in {FLOAT32, INT32, UINT32} ==> RequiredSize(operand) == 4
    ensures operand.kind in {TENSOR_FLOAT32, TENSOR_INT32} ==>
              RequiredSize(operand) == (DimensionProduct(operand.dimensions) * 4) % TwoTo32
    ensures operand.kind == TENSOR_QUANT8_ASYMM ==>
              RequiredSize(operand) == DimensionProduct(operand.dimensions) % TwoTo32
    ensures !(0 <= operand.kind <= 5) ==> RequiredSize(operand) == 0
  {
    Product32Wraps(operand.dimensions);
    ModMul(DimensionProduct(operand.dimensions), 4);
  }

  /** Without wrap-around, a tensor needs product(dims) * element-size bytes. */
  lemma RequiredSizeExact(operand: Operand)
    requires DimensionProduct(operand.dimensions) * 4 < TwoTo32
    ensures operand.kind in {TENSOR_FLOAT32, TENSOR_INT32} ==>
              RequiredSize(operand) == DimensionProduct(operand.dimensions) * 4
    ensures operand.kind == TENSOR_QUANT8_ASYMM ==>
              RequiredSize(operand) == DimensionProduct(operand.dimensions)
  {
    var p := DimensionProduct(operand.dimensions);
    RequiredSizeByType(operand);
    assert p <= p * 4;
    SmallMod(p * 4);
    SmallMod(p);
  }

  lemma SmallMod(x: nat)
    requires x < TwoTo32
    ensures x % TwoTo32 == x
  {
  }

  // ---------------------------------------------------------------------
  // Execution memory sizing, shared by both compilation backends.

  function RequiredSizes(operands: seq<Operand>, indexes: seq<U32>): (r: seq<nat>)
    requires forall k :: 0 <= k < |indexes| ==> indexes[k] < |operands|
    ensures |r| == |indexes|
    ensures forall k :: 0 <= k < |indexes| ==> r[k] == RequiredSize(operands[indexes[k]])
  {
    if indexes == [] then []
    else RequiredSizes(operands, indexes[..|indexes| - 1]) + [RequiredSize(operands[indexes[|indexes| - 1]])]
  }

  lemma SumPrefixStep(s: seq<nat>, i: nat)
    requires i < |s|
    ensures Sum(s[..i + 1]) == Sum(s[..i]) + s[i]
  {
    assert s[..i + 1][..i] == s[..i];
  }

  function Descriptor(operand: Operand): OperandDescriptor {
    OperandDescriptor(operand.kind, operand.dimensions)
  }

  /** The loop of createExecution over graph inputs (or outputs): the uint32_t
      sum of the required sizes, and one descriptor per index in order. */
  method SumRequiredSizes(operands: seq<Operand>, indexes: seq<U32>)
    returns (size: U32, descriptors: seq<OperandDescriptor>)
    requires forall k :: 0 <= k < |indexes| ==> indexes[k] < |operands|
    ensures size == Sum(RequiredSizes(operands, indexes)) % TwoTo32
    ensures |descriptors| == |indexes|
    ensures forall k :: 0 <= k < |indexes| ==>
              descriptors[k] == OperandDescriptor(operands[indexes[k]].kind, operands[indexes[k]].dimensions)
  {
    size := 0;
    descriptors := [];
    ghost var sizes := RequiredSizes(operands, indexes);
    // The running total is wraps * 2^32 + size: every wrap-around of the
    // uint32_t sum is counted in wraps.
    ghost var wraps: nat := 0;
    var i := 0;
    while i < |indexes|
      invariant 0 <= i <= |indexes|
      invariant Sum(sizes[..i]) == wraps * TwoTo32 + size
      invariant |descriptors| == i
      invariant forall k :: 0 <= k < i ==> descriptors[k] == Descriptor(operands[indexes[k]])
    {
      var operand := operands[indexes[i]];
      var required := RequiredSize(operand);
      SumPrefixStep(sizes, i);
      if size + required >= TwoTo32 {
        wraps := wraps + 1;
      }
      size := AddU32(size, required);
      descriptors := descriptors + [Descriptor(operand)];
      i := i + 1;
    }
    assert sizes[..|indexes|] == sizes;
    ModUnique(Sum(sizes), wraps, size);
  }

  /** What createExecution hands to the client: one descriptor per graph
      input and output, and the size of the shared execution memory. */
  datatype ExecutionInitParams = ExecutionInitParams(
    inputs: seq<OperandDescriptor>, outputs: seq<OperandDescriptor>, memorySize: U32)

  predicate IndexesInRange(indexes: seq<U32>, size: nat) {
    forall k :: 0 <= k < |indexes| ==> indexes[k] < size
  }

  /** The bytes the execution memory must hold: requiredSize summed over the
      graph inputs and then the graph outputs. */
  function ExecutionBytes(operands: seq<Operand>, inputs: seq<U32>, outputs: seq<U32>): nat
    requires IndexesInRange(inputs, |operands|) && IndexesInRange(outputs, |operands|)
  {
    Sum(RequiredSizes(operands, inputs)) + Sum(RequiredSizes(operands, outputs))
  }

  /** The sizing loops of createExecution, common to both backends: the
      input size and output size are uint32_t sums of requiredSize, and the
      total is their uint32_t sum; descriptors follow the declared order. */
  method PlanExecution(operands: seq<Operand>, inputs: seq<U32>, outputs: seq<U32>)
    returns (params: ExecutionInitParams)
    requires IndexesInRange(inputs, |operands|) && IndexesInRange(outputs, |operands|)
    ensures params.memorySize == ExecutionBytes(operands, inputs, outputs) % TwoTo32
    ensures |params.inputs| == |inputs| && |params.outputs| == |outputs|
    ensures forall k :: 0 <= k < |inputs| ==>
              params.inputs[k] == OperandDescriptor(operands[inputs[k]].kind, operands[inputs[k]].dimensions)
    ensures forall k :: 0 <= k < |outputs| ==>
              params.outputs[k] == OperandDescriptor(operands[outputs[k]].kind, operands[outputs[k]].dimensions)
  {
    var inputSize, inputDescriptors := SumRequiredSizes(operands, inputs);
    var outputSize, outputDescriptors := SumRequiredSizes(operands, outputs);
    MemorySizeWraps(operands, inputs, outputs, inputSize, outputSize);
    params := ExecutionInitParams(inputDescriptors, outputDescriptors, AddU32(inputSize, outputSize));
  }

  lemma MemorySizeWraps(operands: seq<Operand>, inputs: seq<U32>, outputs: seq<U32>, inputSize: U32, outputSize: U32)
    requires IndexesInRange(inputs, |operands|) && IndexesInRange(outputs, |operands|)
    requires inputSize == Sum(RequiredSizes(operands, inputs)) % TwoTo32
    requires outputSize == Sum(RequiredSizes(operands, outputs)) % TwoTo32
    ensures AddU32(inputSize, outputSize) == ExecutionBytes(operands, inputs, outputs) % TwoTo32
  {
    var a := Sum(RequiredSizes(operands, inputs));
    var b := Sum(RequiredSizes(operands, outputs));
    assert ExecutionBytes(operands, inputs, outputs) == a + b;
    WrappedSum(a, b);
  }

  /** Every graph input and output contributes its requiredSize: the total
      grows by an operand's size when it is added to the inputs. */
  lemma {:induction false} ExecutionBytesAddInput(operands: seq<Operand>, inputs: seq<U32>, outputs: seq<U32>, index: U32)
    requires IndexesInRange(inputs, |operands|) && IndexesInRange(outputs, |operands|)
    requires index < |operands|
    ensures IndexesInRange(inputs + [index], |operands|)
    ensures ExecutionBytes(operands, inputs + [index], outputs)
            == ExecutionBytes(operands, inputs, outputs) + RequiredSize(operands[index])
  {
    var extended := inputs + [index];
    assert extended[..|extended| - 1] == inputs;
  }

  // ---------------------------------------------------------------------
  // getScalarInt32: the 4 bytes at info.offset, read as a little-endian int32_t.

  function BytesToInt32(b: seq<Byte>): (r: Int32)
    requires |b| == 4
  {
    var u: int := b[0] as int + 0x100 * (b[1] as int + 0x100 * (b[2] as int + 0x100 * b[3] as int));
    if u >= 0x8000_0000 then u - TwoTo32 else u
  }

  function Int32ToBytes(x: Int32): (b: seq<Byte>)
    ensures |b| == 4
  {
    var u := if x < 0 then x + TwoTo32 else x;
    var u1 := u / 0x100;
    var u2 := u1 / 0x100;
    [(u % 0x100), (u1 % 0x100), (u2 % 0x100), (u2 / 0x100)]
  }

  lemma {:induction false} Int32RoundTrip(x: Int32)
    ensures BytesToInt32(Int32ToBytes(x)) == x
  {
    var u := if x < 0 then x + TwoTo32 else x;
    var u1 := u / 0x100;
    var u2 := u1 / 0x100;
    assert u == u % 0x100 + 0x100 * u1;
    assert u1 == u1 % 0x100 + 0x100 * u2;
    assert u2 == u2 % 0x100 + 0x100 * (u2 / 0x100);
  }

  /** getScalarInt32: reads the int32_t stored at memory + info.offset. */
  function GetScalarInt32(info: ValueInfo, memory: seq<Byte>): (r: Int32)
    requires info.offset + 4 <= |memory|
    ensures forall x: Int32 :: memory[info.offset..info.offset + 4] == Int32ToBytes(x) ==> r == x
  {
    forall x: Int32 | memory[info.offset..info.offset + 4] == Int32ToBytes(x)
      ensures BytesToInt32(memory[info.offset..info.offset + 4]) == x
    {
      Int32RoundTrip(x);
    }
    BytesToInt32(memory[info.offset..info.offset + 4])
  }

  // ---------------------------------------------------------------------
  // VectorToString.

  const VectorToStringLimit: nat := 200

  /** Elements rendered with base::NumberToString and joined by ", ". */
  function JoinNumbers(xs: seq<int>): string {
    if |xs| == 0 then ""
    else if |xs| == 1 then IntToDecimal(xs[0])
    else JoinNumbers(xs[..|xs| - 1]) + ", " + IntToDecimal(xs[|xs| - 1])
  }

  /** What VectorToString(vect, length) produces: the first min(length, 200)
      elements, in order, between brackets. */
  function Rendered(vect: seq<int>, length: nat): string
    requires length <= |vect|
  {
    "[" + JoinNumbers(vect[..Min(length, VectorToStringLimit)]) + "]"
  }

  lemma JoinNumbersStep(xs: seq<int>, i: nat)
    requires i < |xs|
    ensures JoinNumbers(xs[..i + 1]) == JoinNumbers(xs[..i]) + (if i > 0 then ", " else "") + IntToDecimal(xs[i])
  {
    assert xs[..i + 1][..i] == xs[..i];
  }

  /** The text VectorToString has built after the first `i` of `n` elements. */
  function RenderedPrefix(vect: seq<int>, i: nat, n: nat): string
    requires i <= n <= |vect|
  {
    "[" + JoinNumbers(vect[..i]) + (if 0 < i < n then ", " else "")
  }

  lemma RenderedPrefixStep(vect: seq<int>, i: nat, n: nat)
    requires i < n <= |vect|
    ensures RenderedPrefix(vect, i, n) + IntToDecimal(vect[i]) + (if i != n - 1 then ", " else "")
            == RenderedPrefix(vect, i + 1, n)
  {
    var number := IntToDecimal(vect[i]);
    var joined := JoinNumbers(vect[..i]);
    var sep: string := if 0 < i then ", " else "";
    var tail: string := if i != n - 1 then ", " else "";
    JoinNumbersStep(vect, i);
    assert RenderedPrefix(vect, i, n) == "[" + joined + sep;
    assert RenderedPrefix(vect, i + 1, n) == "[" + (joined + sep + number) + tail;
    SplicedStep("[", joined, sep, number, tail);
  }

  lemma SplicedStep(open: string, joined: string, sep: string, number: string, tail: string)
    ensures open + joined + sep + number + tail == open + (joined + sep + number) + tail
  {
    AppendAssoc(open, joined + sep, number);
    AppendAssoc(joined, sep, number);
  }

  method VectorToString(vect: seq<int>, length: nat) returns (output: string)
    requires length <= |vect|
    ensures output == Rendered(vect, length)
  {
    output := "[";
    var n := length;
    if n > 200 {
      n := 200;
    }
    var i := 0;
    RenderedPrefixStart(vect, n);
    while i < n
      invariant 0 <= i <= n
      invariant output == RenderedPrefix(vect, i, n)
    {
      var number := IntToDecimal(vect[i]);
      var separator := if i != n - 1 then ", " else "";
      RenderedNext(vect, i, n, output, number, separator);
      output := output + number + separator;
      i := i + 1;
    }
    RenderedPrefixDone(vect, length, n);
    output := output + "]";
  }

  /** The loop step of VectorToString, on the text built so far. */
  lemma RenderedNext(vect: seq<int>, i: nat, n: nat, output: string, number: string, separator: string)
    requires i < n <= |vect|
    requires output == RenderedPrefix(vect, i, n)
    requires number == IntToDecimal(vect[i]) && separator == (if i != n - 1 then ", " else "")
    ensures output + number + separator == RenderedPrefix(vect, i + 1, n)
  {
    RenderedPrefixStep(vect, i, n);
  }

  lemma RenderedPrefixStart(vect: seq<int>, n: nat)
    requires n <= |vect|
    ensures RenderedPrefix(vect, 0, n) == "["
  {
    assert vect[..0] == [];
    assert "[" + "" + "" == "[";
  }

  lemma RenderedPrefixDone(vect: seq<int>, length: nat, n: nat)
    requires length <= |vect| && n == Min(length, VectorToStringLimit)
    ensures RenderedPrefix(vect, n, n) + "]" == Rendered(vect, length)
  {
  }

  /** An empty vector renders as exactly "[]". */
  lemma RenderedEmpty(vect: seq<int>)
    ensures Rendered(vect, 0) == "[]"
  {
    assert vect[..0] == [];
  }

  /** The output is bracketed, and no separator precedes the closing bracket. */
  lemma {:induction false} RenderedShape(vect: seq<int>, length: nat)
    requires length <= |vect|
    ensures var s := Rendered(vect, length); |s| >= 2 && s[0] == '[' && s[|s| - 1] == ']'
    ensures var m := Min(length, VectorToStringLimit); var s := Rendered(vect, length);
              m > 0 ==> s[..|s| - 1] == "[" + JoinNumbers(vect[..m - 1]) + (if m > 1 then ", " else "") + IntToDecimal(vect[m - 1])
  {
    var m := Min(length, VectorToStringLimit);
    var body := "[" + JoinNumbers(vect[..m]);
    assert Rendered(vect, length) == body + "]";
    DropClose(body);
    if m > 0 {
      JoinNumbersStep(vect, m - 1);
      assert vect[..m - 1 + 1] == vect[..m];
      var front := JoinNumbers(vect[..m - 1]);
      var sep: string := if m > 1 then ", " else "";
      AppendAssoc("[", front + sep, IntToDecimal(vect[m - 1]));
      AppendAssoc("[", front, sep);
    }
  }

  lemma DropClose(body: string)
    requires |body| >= 1 && body[0] == '['
    ensures var s := body + "]"; |s| == |body| + 1 && s[0] == '[' && s[|s| - 1] == ']' && s[..|s| - 1] == body
  {
  }

  /** Elements beyond the 200th never reach the output. */
  lemma RenderedBounded(vect: seq<int>, other: seq<int>, length: nat, otherLength: nat)
    requires length <= |vect| && otherLength <= |other|
    requires length >= VectorToStringLimit && otherLength >= VectorToStringLimit
    requires vect[..VectorToStringLimit] == other[..VectorToStringLimit]
    ensures Rendered(vect, length) == Rendered(other, otherLength)
  {
  }

  /** The rendering has one number per element: its digits and separators
      account for every element, so the length grows with each one. */
  lemma {:induction false} JoinNumbersLength(xs: seq<int>)
    ensures |JoinNumbers(xs)| >= 3 * |xs| - 2
  {
    if |xs| > 1 {
      JoinNumbersLength(xs[..|xs| - 1]);
    }
  }
}
