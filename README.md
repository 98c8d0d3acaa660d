# A verified model of the WebML pipeline and neighbouring Chromium browser components

This project is a Dafny model of a Chromium snapshot. The main part is the
WebML neural-network pipeline, which runs Model, then Compilation, then
Execution.

**The ML pipeline**

- **Operand data model (`MlCommon`).** Operands and operations, the byte size
  an operand needs (computed in uint32, with the wrap-around written out) and
  the bounded vector printer.
- **Script-side graph builder (`BlinkModel`).** Operand indexes are dense and
  assigned in insertion order. Indexes and element types are checked, and a
  throw does not stop the function. `finish` packs every staged constant value
  into one contiguous blob, and gives each operand its offset and length in it.
- **Script-side Execution and Compilation (`BlinkExecution`,
  `BlinkCompilation`).** They track pending promise resolvers while the service
  pipe is bound. Each response settles its own resolver. A connection error
  rejects every pending resolver and unbinds the pipe.
- **Service backends.**
  - The software backend (`MlServiceLinux`) checks indexes and answers NO_ERROR.
  - The Android backend (`MlServiceAndroid`) replays the model into the Android
    Neural Networks runtime and stops at the first error code.
  - The Android runtime is a function from the calls made so far, plus the new
    call, to a result code.
  - Both backends copy the tables at construction and size execution memory as
    the sum of `requiredSize` over the graph inputs and outputs.

**The other components**

- **GPU data manager (`GpuDataManager`).**
  - the bounded log;
  - 3D-API domain blocking, with a 10000 ms window of GPU resets;
  - the active-GPU switch;
  - the calls deferred until initialisation.
- **gpu_util (`GpuUtil`).**
  - the feature-status decisions;
  - the `;`-separated hexadecimal id lists;
  - the secondary-GPU list;
  - the one-shot caches.
- **Lifecycles.** The DevTools agent host of a shared worker, which buffers and
  replays protocol messages (`SharedWorkerDevTools`), and the worker shadow page
  (`WorkerShadowPage`).
- **Script resource (`ScriptResource`).** Access control, and source text
  decoded once.
- **Behaviour known only from tests or header comments.**
  - the assist-ranker feature accessors (`RankerExampleUtil`);
  - account-name matching and account order in the Android account facade
    (`AccountManagerFacade`);
  - the FIFO request queue of the ARC video decoder, with its Reset barrier and
    callback bookkeeping (`ArcVideoDecode`).

**How the model is written**

- One module per source file, or per backend. `Base` holds the shared pieces:
  Option, the C++ integer ranges, memcpy over arrays, sums and decimal
  rendering.
- Objects that the source updates in place are classes. Their methods are
  proved against specification functions, and these lemmas state what the
  source promises:
  - the layout of the constant blob: prefix-sum offsets, disjoint and
    contiguous ranges, the total equal to the sum of the lengths;
  - replay that stops at the first error;
  - uint32 memory sums;
  - callback accounting in the ARC queue: no callback is lost or run twice;
  - reset-window pruning;
  - the hex id round trip.

## Model

| member | source | states |
|---|---|---|
| Base.AddU32 | services/ml/compilation_impl_linux.cc:50 | the uint32_t sum of two sizes: the plain sum below 2^32, the sum less 2^32 above it |
| Base.Memcpy | third_party/WebKit/Source/modules/ml/Model.cpp:168-169 | after the copy the buffer holds the source bytes at [offset, offset + length) and its old bytes everywhere else |
| Base.NatToDecimal | services/ml/common.h:50 | the decimal digits of a natural number, at least one, with no leading zero, whose DecimalValue is the number |
| Base.IntToDecimal | services/ml/common.h:50 | base::NumberToString of an integer: a leading '-' exactly for negatives, digits otherwise |
| Base.IntToDecimalValue | services/ml/common.h:50 | the rendering denotes the integer: digits whose DecimalValue is it when non-negative, otherwise '-' and digits without a leading zero whose DecimalValue is its magnitude |
| Base.SumAppend | services/ml/compilation_impl_linux.cc:32-50 | the sum of two joined size lists is the sum of the two sums |
| Base.ConcatLength | third_party/WebKit/Source/modules/ml/Model.cpp:150-157 | the bytes laid end to end number the sum of the parts' lengths |
| Base.ConcatAppend | third_party/WebKit/Source/modules/ml/Model.cpp:159-171 | laying out two lists of parts is laying out each and joining the results |
| MlCommon.GuardAdmitsOneTooMany | services/ml/model_impl_linux.cc:33-36 | for every table size, index == size passes the `index > size` guard and is still out of range |
| MlCommon.Product32Wraps | services/ml/common.cc:9-13 | the uint32_t running product equals the mathematical product of the dimensions modulo 2^32 |
| MlCommon.Product | services/ml/common.cc:9-13 | the loop's result is the product of every dimension modulo 2^32, and 1 for no dimensions |
| MlCommon.RequiredSizeByType | services/ml/common.cc:18-35 | 4 for FLOAT32, INT32 and UINT32 whatever the dimensions; product times 4 modulo 2^32 for the two 32-bit tensor types; the product modulo 2^32 for TENSOR_QUANT8_ASYMM; 0 for any other type code |
| MlCommon.RequiredSize | services/ml/common.cc:18-35 | Operand::requiredSize with its uint32 arithmetic; its value per type code is stated by RequiredSizeByType and, without wrap, by RequiredSizeExact |
| MlCommon.RequiredSizeExact | services/ml/common.cc:26-30 | without wrap-around a tensor needs exactly product(dims) times its element size |
| MlCommon.RequiredSizes | services/ml/compilation_impl_linux.cc:33-35 | one required size per listed index, the size of the operand that index names |
| MlCommon.SumRequiredSizes | services/ml/compilation_impl_linux.cc:32-38 | the loop's uint32_t size is the sum of the required sizes modulo 2^32, with one (type, dimensions) descriptor per index in declared order |
| MlCommon.PlanExecution | services/ml/compilation_impl_linux.cc:32-50 | the memory size is the sum of requiredSize over inputs and outputs modulo 2^32, and the input and output descriptors follow the declared order |
| MlCommon.MemorySizeWraps | services/ml/compilation_impl_linux.cc:50 | adding the two wrapped partial sums in uint32_t gives the wrapped total |
| MlCommon.ExecutionBytesAddInput | services/ml/compilation_impl_android.cc:46-64 | declaring one more graph input grows the memory total by that operand's requiredSize exactly |
| MlCommon.Int32RoundTrip | services/ml/common.cc:71-74 | reading back the four little-endian bytes of an int32_t gives that value |
| MlCommon.GetScalarInt32 | services/ml/common.cc:71-74 | the value read is the int32_t whose four bytes are stored at memory + info.offset |
| MlCommon.JoinNumbersStep | services/ml/common.h:49-54 | the joined text of one more element is the old text, ", " when there was one before, and the new number |
| MlCommon.RenderedPrefixStep | services/ml/common.h:49-54 | one loop step appends the element's number and, unless it is the last, ", " |
| MlCommon.RenderedNext | services/ml/common.h:49-54 | the loop body keeps the text equal to the rendering of the elements done so far |
| MlCommon.RenderedPrefixStart | services/ml/common.h:46 | before the loop the text is "[" |
| MlCommon.RenderedPrefixDone | services/ml/common.h:55-56 | after the last element, appending "]" completes the rendering |
| MlCommon.VectorToString | services/ml/common.h:44-57 | the result is "[", the first min(length, 200) elements in decimal joined by ", ", then "]" |
| MlCommon.RenderedEmpty | services/ml/common.h:46-56 | an empty vector renders as exactly "[]" |
| MlCommon.RenderedShape | services/ml/common.h:46-55 | the output starts with "[" and ends with "]", and before the "]" comes the last rendered element with no trailing separator |
| MlCommon.RenderedBounded | services/ml/common.h:47-48 | two vectors that agree on their first 200 elements render the same once both lengths reach 200 |
| MlCommon.JoinNumbersLength | services/ml/common.h:49-54 | every element adds at least its number and a separator: the joined text has at least 3n - 2 characters |
| BlinkBindings.Resolver.Resolve | third_party/WebKit/Source/modules/ml/Execution.cpp:133 | a pending promise becomes resolved with the value; a settled one stays as it was |
| BlinkBindings.Resolver.Reject | third_party/WebKit/Source/modules/ml/Execution.cpp:138-139 | a pending promise becomes rejected with the exception; a settled one stays as it was |
| BlinkBindings.FailureMessageShape | third_party/WebKit/Source/modules/ml/Execution.cpp:135-137 | a failure message is the operation label, then "fails: ", then the code in decimal, each found at its place |
| BlinkBindings.FailureMessage | third_party/WebKit/Source/modules/ml/Execution.cpp:135-137 | the rejection message of a failed request; FailureMessageShape places the label, "fails: " and the decimal code, and IntToDecimalValue gives the code's value |
| BlinkBindings.SettleFromCode | third_party/WebKit/Source/modules/ml/Execution.cpp:132-140 | NO_ERROR resolves with the code; any other code rejects with InvalidStateError and "<operation>fails: <code>" |
| BlinkBindings.RejectAll | third_party/WebKit/Source/modules/ml/Execution.cpp:150-153 | every pending resolver of the set ends rejected with the given exception; settled ones are untouched |
| BlinkModel.CompatibleMeansSameWidth | third_party/WebKit/Source/modules/ml/Model.cpp:66-91 | a Float32, Int32, Uint32 or Uint8 view is accepted only for a known type code (FLOAT32 or TENSOR_FLOAT32; INT32 or TENSOR_INT32; UINT32; TENSOR_QUANT8_ASYMM) whose element width is the view's, and no other of the four views is accepted for that code |
| BlinkModel.Compatible | third_party/WebKit/Source/modules/ml/Model.cpp:66-91 | the four view checks of setOperandValue; CompatibleMeansSameWidth, EveryTypeHasAView and UncheckedViewsPass state their meaning |
| BlinkModel.EveryTypeHasAView | third_party/WebKit/Source/modules/ml/Model.cpp:66-91 | for each of the six type codes one of the four checked views is accepted |
| BlinkModel.UncheckedViewsPass | third_party/WebKit/Source/modules/ml/Model.cpp:66-91 | a view of any other element type raises no type error whatever the operand type |
| BlinkModel.IndexErrorsMeaning | third_party/WebKit/Source/modules/ml/Model.cpp:105-116 | the guard loop throws nothing exactly when every index is at most the operand count, and throws only the one exception, at most once per index |
| BlinkModel.CheckIndexes | third_party/WebKit/Source/modules/ml/Model.cpp:105-110 | the loop collects one exception per index above the operand count, in order |
| BlinkModel.ViewBytes | third_party/WebKit/Source/modules/ml/Model.cpp:152-153 | one byte string per staged view, the bytes the view covers when finish runs |
| BlinkModel.OffsetStep | third_party/WebKit/Source/modules/ml/Model.cpp:159-170 | the next offset is the current offset plus the current length |
| BlinkModel.OffsetBound | third_party/WebKit/Source/modules/ml/Model.cpp:156-170 | every staged range ends within the blob of the total length |
| BlinkModel.LayoutDisjoint | third_party/WebKit/Source/modules/ml/Model.cpp:159-170 | a later staged range starts at or after the end of an earlier one, and the next starts exactly where the previous ends: ranges are disjoint and contiguous |
| BlinkModel.LayoutSlot | third_party/WebKit/Source/modules/ml/Model.cpp:166-169 | the bytes of the k-th staged value lie exactly at [offset_k, offset_k + length_k) of the blob |
| BlinkModel.LaidOutKeeps | third_party/WebKit/Source/modules/ml/Model.cpp:164-167 | laying out changes only bufferInfo, and leaves an operand with no staged value as it was |
| BlinkModel.LaidOutLast | third_party/WebKit/Source/modules/ml/Model.cpp:164-167 | an operand staged last by the k-th value records offset = sum of the earlier lengths and length = the k-th length |
| BlinkModel.TotalLength | third_party/WebKit/Source/modules/ml/Model.cpp:150-154 | the first loop's total is the sum of the staged byte lengths |
| BlinkModel.CopyValues | third_party/WebKit/Source/modules/ml/Model.cpp:159-171 | after the second loop the blob holds the staged values end to end and each staged operand's bufferInfo holds its range |
| BlinkModel.LayOut | third_party/WebKit/Source/modules/ml/Model.cpp:150-171 | both loops over a fresh buffer: the staged bytes end to end and the laid-out operand table |
| BlinkModel.Model.constructor | third_party/WebKit/Source/modules/ml/Model.cpp:11-14 | a new model is unfinished with empty tables and nothing staged |
| BlinkModel.Model.AddOperand | third_party/WebKit/Source/modules/ml/Model.cpp:18-48 | throws InvalidStateError once finished and still appends; returns the old operand count and appends exactly one operand with bufferInfo (0, 0) and the supplied dimensions, scale and zeroPoint |
| BlinkModel.Model.SetOperandValue | third_party/WebKit/Source/modules/ml/Model.cpp:50-95 | throws for index > count but not index == count; a type mismatch throws "Data type is invalid." and the value is staged anyway; index >= count is reported as an out-of-range read |
| BlinkModel.Model.AddOperation | third_party/WebKit/Source/modules/ml/Model.cpp:97-120 | one exception per input and output index above the operand count, and the operation is appended regardless |
| BlinkModel.Model.IdentifyInputsAndOutputs | third_party/WebKit/Source/modules/ml/Model.cpp:122-143 | the same index exceptions, then inputs and outputs are replaced by the arguments, never appended to |
| BlinkModel.Model.Finish | third_party/WebKit/Source/modules/ml/Model.cpp:145-174 | the blob is the staged bytes end to end, each staged operand records its range, nothing else changes, and the model is finished |
| BlinkExecution.ByteLength | third_party/WebKit/Source/modules/ml/Execution.cpp:37 | byteLength() stored into a uint32_t: the view's length when it fits, never more than it |
| BlinkExecution.Execution.constructor | third_party/WebKit/Source/modules/ml/Execution.cpp:17-21 | a new Execution is bound, tracks no request and holds no buffer or view |
| BlinkExecution.Execution.SetInput | third_party/WebKit/Source/modules/ml/Execution.cpp:25-55 | unbound: rejected with NotSupportedError and not tracked; bound: tracked, the index's buffer is created on first use and reused afterwards, holds the view's bytes at its start, and a read-only clone is sent under "setInput" |
| BlinkExecution.Execution.SetOutput | third_party/WebKit/Source/modules/ml/Execution.cpp:57-89 | unbound: rejected and not tracked; bound: tracked, one buffer per index created on first use, the view appended to the output views, a read-write clone sent under "setOutput" |
| BlinkExecution.Execution.StartCompute | third_party/WebKit/Source/modules/ml/Execution.cpp:91-104 | unbound: rejected with "Neural Network service unavailable." and not tracked; bound: tracked and sent |
| BlinkExecution.Execution.OnStartCompute | third_party/WebKit/Source/modules/ml/Execution.cpp:106-124 | the resolver leaves the set; on NO_ERROR only output buffer 0 is copied into the first output view and the promise resolves; otherwise it is rejected with "startCompute" and the code |
| BlinkExecution.Execution.OnResultCode | third_party/WebKit/Source/modules/ml/Execution.cpp:126-141 | the resolver leaves the set and no other; NO_ERROR resolves, any other code rejects with "<op>fails: <code>" |
| BlinkExecution.Execution.OnConnectionError | third_party/WebKit/Source/modules/ml/Execution.cpp:149-156 | every pending resolver is rejected with NotSupportedError, the set is emptied and the pipe unbound |
| BlinkCompilation.Compilation.constructor | third_party/WebKit/Source/modules/ml/Compilation.cpp:19-23 | a new Compilation is bound and tracks no request |
| BlinkCompilation.Compilation.Track | third_party/WebKit/Source/modules/ml/Compilation.cpp:28-35 | unbound: the fresh resolver is rejected with "Compilation service unavailable." and not tracked; bound: it is tracked and its message sent |
| BlinkCompilation.Compilation.SetPreference | third_party/WebKit/Source/modules/ml/Compilation.cpp:27-42 | the same tracking, and the request is bound to the label "finish" |
| BlinkCompilation.Compilation.Finish | third_party/WebKit/Source/modules/ml/Compilation.cpp:44-58 | the same tracking under the label "finish" |
| BlinkCompilation.Compilation.CreateExecution | third_party/WebKit/Source/modules/ml/Compilation.cpp:60-75 | the same tracking for createExecution |
| BlinkCompilation.Compilation.OnCreateExecution | third_party/WebKit/Source/modules/ml/Compilation.cpp:77-91 | the resolver leaves the set; NO_ERROR resolves with a new bound Execution, otherwise it is rejected with "createExecution fails: <code>" |
| BlinkCompilation.Compilation.OnResultCode | third_party/WebKit/Source/modules/ml/Compilation.cpp:98-113 | the resolver leaves the set; NO_ERROR resolves, anything else rejects with "<op>fails: <code>" |
| BlinkCompilation.Compilation.OnConnectionError | third_party/WebKit/Source/modules/ml/Compilation.cpp:115-122 | every pending resolver is rejected, the set is cleared and the pipe reset |
| MlServiceLinux.ModelImplLinux.constructor | services/ml/model_impl_linux.cc:11 | a new model holds four empty tables |
| MlServiceLinux.ModelImplLinux.AddOperand | services/ml/model_impl_linux.cc:14-27 | appends exactly one operand with the given type, dimensions, scale and zeroPoint, changes no other table and answers NO_ERROR |
| MlServiceLinux.ModelImplLinux.SetOperandValue | services/ml/model_impl_linux.cc:29-57 | BAD_DATA exactly when index > operand count, NO_ERROR exactly when the index is in range; the value is not stored (no state changes) |
| MlServiceLinux.ModelImplLinux.SetOperandValueCorrected | services/ml/model_impl_linux.cc:33-38 | with the guard written `>=`: BAD_DATA exactly for an index outside the table, NO_ERROR exactly inside it, and the same answer as SetOperandValue on every index except the operand count |
| MlServiceLinux.ModelImplLinux.AddOperation | services/ml/model_impl_linux.cc:59-70 | appends the operation without checking its indexes and answers NO_ERROR |
| MlServiceLinux.ModelImplLinux.IdentifyInputsAndOutputs | services/ml/model_impl_linux.cc:72-79 | overwrites the graph inputs and outputs with the arguments and answers NO_ERROR |
| MlServiceLinux.ModelImplLinux.Finish | services/ml/model_impl_linux.cc:81-84 | always NO_ERROR |
| MlServiceLinux.ModelImplLinux.CreateCompilation | services/ml/model_impl_linux.cc:86-99 | NO_ERROR and a new compilation holding copies of the four tables |
| MlServiceLinux.CompilationImplLinux.constructor | services/ml/compilation_impl_linux.cc:9-14 | copies the model's operands, operations, inputs and outputs |
| MlServiceLinux.CompilationImplLinux.SetPreference | services/ml/compilation_impl_linux.cc:17-21 | NO_ERROR for every preference value |
| MlServiceLinux.CompilationImplLinux.Finish | services/ml/compilation_impl_linux.cc:23-26 | always NO_ERROR |
| MlServiceLinux.CompilationImplLinux.CreateExecution | services/ml/compilation_impl_linux.cc:28-65 | NO_ERROR; memory size = Σ requiredSize over inputs plus over outputs, modulo 2^32; one descriptor per input then per output, in declared order; a new execution with copies of the tables |
| MlServiceLinux.ExecutionImplLinux.constructor | services/ml/execution_impl_linux.cc:9-14 | copies the compilation's four tables |
| MlServiceLinux.ExecutionImplLinux.SetInput | services/ml/execution_impl_linux.cc:18-51 | BAD_DATA exactly when index > input count or inputs[index] > operand count; NO_ERROR exactly when both are in range; no state changes |
| MlServiceLinux.ExecutionImplLinux.SetInputCorrected | services/ml/execution_impl_linux.cc:22-31 | with both guards written `>=`: BAD_DATA exactly when the input position or the operand it names is outside its table, NO_ERROR otherwise |
| MlServiceLinux.ExecutionImplLinux.SetOutput | services/ml/execution_impl_linux.cc:53-58 | always NO_ERROR |
| MlServiceLinux.ExecutionImplLinux.StartCompute | services/ml/execution_impl_linux.cc:60-63 | always NO_ERROR |
| MlServiceAndroid.Replay | services/ml/model_impl_android.cc:124-142 | a replay never makes more calls than it is given |
| MlServiceAndroid.ReplayCompletes | services/ml/model_impl_android.cc:124-132 | a replay that reports no error made every call |
| MlServiceAndroid.ReplayMeaning | services/ml/model_impl_android.cc:124-142 | no error means every call was made; an error is the code of the last call made, which is not ANEURALNETWORKS_NO_ERROR, and every call before it succeeded |
| MlServiceAndroid.ReplayStops | services/ml/model_impl_android.cc:124-142 | conversely, if the first n calls succeed the replay makes them all, or stops right after call n when that one fails and reports its code |
| MlServiceAndroid.OperandCalls | services/ml/model_impl_android.cc:124-127 | one AddOperand runtime call per operand, in order |
| MlServiceAndroid.OperationCalls | services/ml/model_impl_android.cc:134-137 | one AddOperation runtime call per operation, in order |
| MlServiceAndroid.ValueCalls | services/ml/model_impl_android.cc:146-152 | values loop: only values past the index guard reach the runtime, at most one call per value |
| MlServiceAndroid.ValueCallsAllAdmitted | services/ml/model_impl_android.cc:146-152 | when every value passes the guard, each makes exactly its own setOperandValue call (index, offset, length), in order |
| MlServiceAndroid.ValueCallsNoneAdmitted | services/ml/model_impl_android.cc:54-56 | values all above the operand count make no runtime call |
| MlServiceAndroid.ModelImplAndroid.constructor | services/ml/model_impl_android.cc:11-14 | creates the runtime model (logged as the first call) with empty tables |
| MlServiceAndroid.ModelImplAndroid.CallRuntime | services/ml/model_impl_android.cc:43 | the code is the runtime's answer to the call after the calls so far, and the call is logged |
| MlServiceAndroid.ModelImplAndroid.AddOperand | services/ml/model_impl_android.cc:21-47 | the operand is appended to operands_ and then the runtime's code is returned |
| MlServiceAndroid.ModelImplAndroid.SetOperandValue | services/ml/model_impl_android.cc:49-83 | BAD_DATA with no runtime call for index > operand count; otherwise the runtime's setOperandValue code |
| MlServiceAndroid.ModelImplAndroid.SetOperandValueCorrected | services/ml/model_impl_android.cc:54-57 | with the guard written `>=`: BAD_DATA with no runtime call exactly for an index outside the table, otherwise the runtime's setOperandValue code |
| MlServiceAndroid.ModelImplAndroid.AddOperation | services/ml/model_impl_android.cc:85-104 | the operation is appended to operations_ and the runtime's code is returned |
| MlServiceAndroid.ModelImplAndroid.IdentifyInputsAndOutputs | services/ml/model_impl_android.cc:106-118 | inputs_ and outputs_ are overwritten whatever the runtime answers, and its code is returned |
| MlServiceAndroid.ModelImplAndroid.ReplayOperands | services/ml/model_impl_android.cc:124-132 | the operands loop equals Replay of the AddOperand calls: the same error, and exactly the calls and operands it made |
| MlServiceAndroid.ModelImplAndroid.ReplayOperations | services/ml/model_impl_android.cc:134-142 | the operations loop equals Replay of the AddOperation calls: the same error, and exactly the calls and operations it made |
| MlServiceAndroid.ModelImplAndroid.ReplayValues | services/ml/model_impl_android.cc:144-152 | every value is handed to SetOperandValue and every result dropped: the log grows by ValueCalls |
| MlServiceAndroid.ModelImplAndroid.Finish | services/ml/model_impl_android.cc:120-165 | the first failing operand code is reported, with nothing after it; else the first failing operation code; else the values are handed over, then identify's code if it failed, or else the runtime finish code |
| MlServiceAndroid.ModelImplAndroid.FinishOperations | services/ml/model_impl_android.cc:134-165 | finish once the operands succeeded: the first failing operation code, or the rest of finish |
| MlServiceAndroid.ModelImplAndroid.FinishTail | services/ml/model_impl_android.cc:144-164 | values, then identify; identify's failing code is reported, or else the code of the runtime finish |
| MlServiceAndroid.ModelImplAndroid.CreateCompilation | services/ml/model_impl_android.cc:167-180 | NO_ERROR and a new compilation over copies of the tables |
| MlServiceAndroid.CompilationImplAndroid.constructor | services/ml/compilation_impl_android.cc:9-18 | copies the model's four tables and creates the runtime compilation from the model |
| MlServiceAndroid.CompilationImplAndroid.Finish | services/ml/compilation_impl_android.cc:24-40 | a failing setPreference code is reported and the runtime finish is never called; otherwise the runtime finish code is reported |
| MlServiceAndroid.CompilationImplAndroid.CreateExecution | services/ml/compilation_impl_android.cc:42-80 | NO_ERROR; memory = Σ requiredSize over inputs plus outputs modulo 2^32; descriptors in input then output order; a new execution with copies of the tables and no buffers |
| MlServiceAndroid.ExecutionImplAndroid.constructor | services/ml/execution_impl_android.cc:9-17 | copies the compilation's four tables, no output buffer yet, and creates the runtime execution |
| MlServiceAndroid.ExecutionImplAndroid.SetInput | services/ml/execution_impl_android.cc:24-73 | the same two BAD_DATA guards as the software backend; past them the index's buffer is allocated on the first call and reused later, holds the first `length` bytes of the region, and the runtime's code is returned |
| MlServiceAndroid.ExecutionImplAndroid.SetOutput | services/ml/execution_impl_android.cc:75-92 | the first call fixes the output buffer and its length, later calls keep them; every call replaces the output handle and returns the runtime's code |
| MlServiceAndroid.ExecutionImplAndroid.StartCompute | services/ml/execution_impl_android.cc:94-108 | starts and waits on the runtime, copies outout_length_ bytes from the output buffer into the output handle, and reports NO_ERROR whatever the runtime answered |
| GpuUtil.GetGpuRasterizationFeatureStatus | gpu/config/gpu_util.cc:44-61 | Disabled exactly when the disable switch is present, or neither switch, no blacklisting and the field-trial feature off; Blacklisted exactly when neither switch is present and the feature is blacklisted; Enabled otherwise |
| GpuUtil.GetWebGLFeatureStatus | gpu/config/gpu_util.cc:63-71 | Software exactly under SwiftShader; Blacklisted exactly when not SwiftShader and WebGL is blacklisted; Enabled otherwise |
| GpuUtil.GetWebGL2FeatureStatus | gpu/config/gpu_util.cc:73-81 | the same decision for WebGL2 |
| GpuUtil.Get2DCanvasFeatureStatus | gpu/config/gpu_util.cc:83-94 | never Blacklisted: Software exactly when not SwiftShader and the canvas is blacklisted, Enabled otherwise |
| GpuUtil.BlacklistedUnlessSwiftShader | gpu/config/gpu_util.cc:96-120 | Flash3D, Stage3D and compositing: Blacklisted exactly when not SwiftShader and the feature is blacklisted, Enabled otherwise |
| GpuUtil.GetFlashStage3DBaselineFeatureStatus | gpu/config/gpu_util.cc:122-134 | Blacklisted exactly when not SwiftShader and STAGE3D or STAGE3D_BASELINE is blacklisted |
| GpuUtil.GetAcceleratedVideoDecodeFeatureStatus | gpu/config/gpu_util.cc:136-144 | Disabled exactly under SwiftShader; Blacklisted exactly when not SwiftShader and video decode is blacklisted |
| GpuUtil.FeatureStatusesDefined | gpu/config/gpu_util.cc:364-388 | the status table gives every feature a status other than Undefined |
| GpuUtil.FeatureStatuses | gpu/config/gpu_util.cc:364-388 | the per-feature status table of ComputeGpuFeatureInfo, one Get*FeatureStatus decision per feature; FeatureStatusesDefined proves every feature gets a defined status |
| GpuUtil.AdjustGpuFeatureStatusToWorkarounds | gpu/config/gpu_util.cc:173-179 | a DISABLE_D3D11 or DISABLE_ES3_GL_CONTEXT workaround sets WebGL2 to Blacklisted; every other status and the workarounds are unchanged; without them nothing changes |
| GpuUtil.AdjustIdempotent | gpu/config/gpu_util.cc:173-179 | adjusting twice is adjusting once |
| GpuUtil.TrimStart | gpu/config/gpu_util.cc:35-36 | a suffix of the input, starting with a non-whitespace character, after dropping only whitespace |
| GpuUtil.TrimEnd | gpu/config/gpu_util.cc:35-36 | a prefix of the input, ending with a non-whitespace character, after dropping only whitespace |
| GpuUtil.TrimWhitespace | gpu/config/gpu_util.cc:35-36 | TRIM_WHITESPACE: the result has no whitespace at either end |
| GpuUtil.TrimWhitespaceNoop | gpu/config/gpu_util.cc:35-36 | a string without whitespace at its ends is its own trim |
| GpuUtil.TrimWhitespaceIdempotent | gpu/config/gpu_util.cc:35-36 | trimming twice changes nothing |
| GpuUtil.TrimWhitespaceSlice | gpu/config/gpu_util.cc:35-36 | the trim is a slice of the input with only whitespace before and after it |
| GpuUtil.FirstSeparator | gpu/config/gpu_util.cc:35-36 | the position of a ';' with no ';' before it |
| GpuUtil.Pieces | gpu/config/gpu_util.cc:35-36 | SPLIT_WANT_ALL: at least one piece, none holding a ';' |
| GpuUtil.JoinPieces | gpu/config/gpu_util.cc:35-36 | joining the pieces with ';' gives the string back |
| GpuUtil.PiecesJoin | gpu/config/gpu_util.cc:35-36 | splitting joined ';'-free pieces gives the pieces back |
| GpuUtil.JoinCons | gpu/config/gpu_util.cc:35-36 | joining a piece in front puts one ';' after it |
| GpuUtil.JoinedSplit | gpu/config/gpu_util.cc:35-36 | in head;rest with a ';'-free head the first ';' follows the head |
| GpuUtil.SplitStringPiece | gpu/config/gpu_util.cc:35-36 | no pieces for the empty string, otherwise one trimmed piece per ';'-separated piece |
| GpuUtil.HexDigitValue | gpu/config/gpu_util.cc:38 | the value of a hex digit is below 16 |
| GpuUtil.HexDigitIsPlain | gpu/config/gpu_util.cc:35-38 | a hex digit is not whitespace, not ';' and not an x |
| GpuUtil.HexStringToUIntRejects | gpu/config/gpu_util.cc:38-39 | HexStringToUInt fails on nothing after the prefix, on a non-hex character, and on a value of 2^32 or more |
| GpuUtil.HexStringToUInt | gpu/config/gpu_util.cc:38-39 | base::HexStringToUInt on an optional 0x prefix and hex digits; its failures are HexStringToUIntRejects and its round trip with the formatter is HexRoundTrip |
| GpuUtil.HexChar | gpu/config/gpu_util.cc:38 | the reference digit of a value below 16 reads back as that value |
| GpuUtil.HexDigits | gpu/config/gpu_util.cc:32 | the reference formatter gives a non-empty run of hex digits |
| GpuUtil.HexValueOfDigits | gpu/config/gpu_util.cc:38 | the formatted digits read back as the number |
| GpuUtil.HexRoundTrip | gpu/config/gpu_util.cc:32-38 | an id written as 0x-prefixed hex parses back to the id |
| GpuUtil.HexRoundTripUnprefixed | gpu/config/gpu_util.cc:38 | so does an id written without the prefix |
| GpuUtil.ParsedIds | gpu/config/gpu_util.cc:37-40 | one id per piece, the one HexStringToUInt gives it, in order |
| GpuUtil.IdsOf | gpu/config/gpu_util.cc:35-40 | one id per trimmed piece of the string |
| GpuUtil.StringToIds | gpu/config/gpu_util.cc:33-42 | the list grows by the ids of the pieces, in order, after what it held |
| GpuUtil.AppendIds | gpu/config/gpu_util.cc:35-41 | the loop appends one parsed id per piece, in order |
| GpuUtil.FormatIds | gpu/config/gpu_util.cc:32 | the reference formatter writes each id as 0x-prefixed hex |
| GpuUtil.PrefixedHexHasNoSeparator | gpu/config/gpu_util.cc:32-36 | a 0x-prefixed run of hex digits holds no ';' |
| GpuUtil.PrefixedHexIsTrimmed | gpu/config/gpu_util.cc:32-36 | a 0x-prefixed run of hex digits has nothing to trim |
| GpuUtil.FormattedIdPiece | gpu/config/gpu_util.cc:32-38 | a formatted id is a ';'-free, trimmed piece that parses back to the id |
| GpuUtil.SplitJoinedPieces | gpu/config/gpu_util.cc:35-36 | splitting ';'-joined pieces that need no trimming gives the pieces back |
| GpuUtil.SplitFormattedIds | gpu/config/gpu_util.cc:32-36 | splitting a formatted id list gives the formatted ids back |
| GpuUtil.IdsRoundTrip | gpu/config/gpu_util.cc:32-42 | a non-empty id list written in the "0x040a;0x10de" format is well formed and reads back as the same ids, in order |
| GpuUtil.Zipped | gpu/config/gpu_util.cc:207-214 | min(|vendors|, |devices|) inactive devices pairing the k-th vendor with the k-th device |
| GpuUtil.ZipDevices | gpu/config/gpu_util.cc:208-214 | the pairing loop builds exactly the zipped list |
| GpuUtil.ParseSecondaryGpuDevicesFromCommandLine | gpu/config/gpu_util.cc:186-215 | nothing changes unless both switches are present; then the secondary GPUs are replaced by the zipped inactive pairs, in order, and nothing else changes |
| GpuUtil.GpuInfoCaches.constructor | gpu/config/gpu_util.cc:181-182 | both caches start empty |
| GpuUtil.GpuInfoCaches.CacheGPUInfo | gpu/config/gpu_util.cc:462-466 | an empty GPUInfo cache now holds the value |
| GpuUtil.GpuInfoCaches.PopGPUInfoCache | gpu/config/gpu_util.cc:468-475 | false with the output untouched when the cache is empty; otherwise true, the cached value, and the cache emptied |
| GpuUtil.GpuInfoCaches.CacheGpuFeatureInfo | gpu/config/gpu_util.cc:477-481 | an empty feature-info cache now holds the value |
| GpuUtil.GpuInfoCaches.PopGpuFeatureInfoCache | gpu/config/gpu_util.cc:483-490 | false with the output untouched when empty; otherwise the cached value, and the cache emptied |
| GpuDataManager.LastMessages | content/browser/gpu/gpu_data_manager_impl_private.cc:777-781 | the log keeps min(n, 1000) entries, the newest ones, as a suffix of what was logged |
| GpuDataManager.LastMessagesAppend | content/browser/gpu/gpu_data_manager_impl_private.cc:779-781 | dropping the oldest entry past the limit after every append keeps the last 1000 of everything appended |
| GpuDataManager.GetDomainFromURL | content/browser/gpu/gpu_data_manager_impl_private.cc:952-965 | the domain is "" exactly when the URL has no host, and the host otherwise |
| GpuDataManager.InMilliseconds | content/browser/gpu/gpu_data_manager_impl_private.cc:1011-1014 | whole milliseconds of a microsecond delta, truncated toward zero for either sign |
| GpuDataManager.ExpiredMonotone | content/browser/gpu/gpu_data_manager_impl_private.cc:1011-1016 | a reset older than 10000 ms at one time is still expired at any later time |
| GpuDataManager.Expired | content/browser/gpu/gpu_data_manager_impl_private.cc:1011-1016 | a reset counts no more once more than 10000 ms (by InMilliseconds truncation) have passed; ExpiredMonotone proves it stays so |
| GpuDataManager.Unexpired | content/browser/gpu/gpu_data_manager_impl_private.cc:1008-1021 | the resets still in the window, in order and never more than given; UnexpiredMembership characterises its members |
| GpuDataManager.UnexpiredMembership | content/browser/gpu/gpu_data_manager_impl_private.cc:1008-1021 | the pruned list holds exactly the listed resets that have not expired |
| GpuDataManager.UnexpiredAppend | content/browser/gpu/gpu_data_manager_impl_private.cc:1008-1021 | pruning a concatenation is concatenating the prunings |
| GpuDataManager.UnexpiredLater | content/browser/gpu/gpu_data_manager_impl_private.cc:1008-1021 | pruning at one time and then at a later one is pruning at the later one, so pruning is idempotent |
| GpuDataManager.RecentResetBlocksAll | content/browser/gpu/gpu_data_manager_impl_private.cc:1008-1028 | one reset within the window is enough for kNumResetsWithinDuration |
| GpuDataManager.BlockStatusMeaning | content/browser/gpu/gpu_data_manager_impl_private.cc:982-1036 | Blocked exactly when blocking is on and the domain is in the map; AllDomainsBlocked exactly when blocking is on, the domain is not in the map and some reset lies within the last 10000 ms |
| GpuDataManager.BlockStatus | content/browser/gpu/gpu_data_manager_impl_private.cc:982-1036 | the answer of Are3DAPIsBlockedAtTime from the old state; BlockStatusMeaning characterises Blocked and AllDomainsBlocked exactly |
| GpuDataManager.Retagged | content/browser/gpu/gpu_data_manager_impl_private.cc:840-850 | each visited secondary is active exactly when its ids match |
| GpuDataManager.Deactivated | content/browser/gpu/gpu_data_manager_impl_private.cc:837-838 | every secondary inactive, nothing else changed |
| GpuDataManager.FirstActiveMatch | content/browser/gpu/gpu_data_manager_impl_private.cc:841-845 | the first secondary that matches and is already active, or none such exists |
| GpuDataManager.SwitchFalseMeansAlreadyActive | content/browser/gpu/gpu_data_manager_impl_private.cc:829-855 | UpdateActiveGpu answers false exactly when the matching GPU is already active |
| GpuDataManager.SwitchActiveGpu | content/browser/gpu/gpu_data_manager_impl_private.cc:829-855 | the answer and new GPU information of UpdateActiveGpu; SwitchFalseMeansAlreadyActive, SwitchTrueActivates and SwitchKeepsOneActive state its meaning |
| GpuDataManager.SwitchFalseNoChange | content/browser/gpu/gpu_data_manager_impl_private.cc:829-855 | with at most one active GPU and distinct ids a false answer leaves the GPU information as it was |
| GpuDataManager.SwitchWithDuplicateIds | content/browser/gpu/gpu_data_manager_impl_private.cc:840-845 | with two secondaries sharing ids the answer is false yet the first has been activated |
| GpuDataManager.SwitchTrueActivates | content/browser/gpu/gpu_data_manager_impl_private.cc:829-855 | a true answer leaves the matching GPUs active and every other one inactive, ids and GL strings untouched |
| GpuDataManager.SwitchKeepsOneActive | content/browser/gpu/gpu_data_manager_impl_private.cc:829-855 | with distinct ids the switch keeps at most one GPU active |
| GpuDataManager.WithGLStrings | content/browser/gpu/gpu_data_manager_impl_private.cc:456-486 | empty strings or GPU information that already has GL strings leave it unchanged; otherwise the strings are set and the result is handed to the refresh (IdentifyActiveGPU, CollectDriverInfoGL, MergeGPUInfo), and with a refresh that keeps GL strings the info takes the three strings |
| GpuDataManager.RunTasksCardDisabled | content/browser/gpu/gpu_data_manager_impl_private.cc:939-946 | after the deferred calls hardware acceleration is disabled exactly when it was or one of them disabled it |
| GpuDataManager.RunTasksKeepsGLStrings | content/browser/gpu/gpu_data_manager_impl_private.cc:470-474 | once there are GL strings no deferred call changes the GPU information |
| GpuDataManager.FirstGLStringsWin | content/browser/gpu/gpu_data_manager_impl_private.cc:456-486 | with a refresh that keeps GL strings, the first deferred call with non-empty strings decides them |
| GpuDataManager.RunTasksAppend | content/browser/gpu/gpu_data_manager_impl_private.cc:943-944 | running two queues in a row is running their concatenation |
| GpuDataManager.RunTask | content/browser/gpu/gpu_data_manager_impl_private.cc:939-946 | one deferred call: SetGLStrings through WithGLStrings, or the card disabled |
| GpuDataManager.RunTasks | content/browser/gpu/gpu_data_manager_impl_private.cc:939-946 | the deferred calls in queue order; RunTasksCardDisabled, RunTasksKeepsGLStrings, FirstGLStringsWin and RunTasksAppend state its meaning |
| GpuDataManager.GpuDataManagerImplPrivate.constructor | content/browser/gpu/gpu_data_manager_impl_private.cc:898-931 | the given GL refresh; empty log, map and resets, not initialised; --disable-gpu queues the disabling; the testing switch turns domain blocking off |
| GpuDataManager.GpuDataManagerImplPrivate.AddLogMessage | content/browser/gpu/gpu_data_manager_impl_private.cc:771-782 | the log stays the last 1000 messages ever logged |
| GpuDataManager.GpuDataManagerImplPrivate.BlockDomainFrom3DAPIsAtTime | content/browser/gpu/gpu_data_manager_impl_private.cc:967-979 | with blocking on, the domain is recorded with its latest guilt and the time appended; otherwise nothing changes |
| GpuDataManager.GpuDataManagerImplPrivate.UnblockDomainFrom3DAPIs | content/browser/gpu/gpu_data_manager_impl_private.cc:437-454 | the domain is removed and every reset forgotten |
| GpuDataManager.GpuDataManagerImplPrivate.Are3DAPIsBlockedAtTime | content/browser/gpu/gpu_data_manager_impl_private.cc:981-1037 | the status is BlockStatus of the state before the call; the reset list is pruned exactly on the path that counts it |
| GpuDataManager.GpuDataManagerImplPrivate.EraseExpiredResets | content/browser/gpu/gpu_data_manager_impl_private.cc:1008-1021 | the reset list becomes its unexpired entries and the count is their number |
| GpuDataManager.EraseExpired | content/browser/gpu/gpu_data_manager_impl_private.cc:1008-1021 | the erase-in-place loop leaves exactly the unexpired entries, in order, and counts them |
| GpuDataManager.GpuDataManagerImplPrivate.UpdateActiveGpu | content/browser/gpu/gpu_data_manager_impl_private.cc:829-856 | the answer and the new GPU information are SwitchActiveGpu of the old |
| GpuDataManager.GpuDataManagerImplPrivate.DeactivateSecondaries | content/browser/gpu/gpu_data_manager_impl_private.cc:837-838 | the loop makes every secondary inactive, nothing else changed |
| GpuDataManager.GpuDataManagerImplPrivate.RetagSecondaries | content/browser/gpu/gpu_data_manager_impl_private.cc:840-851 | the loop stops with false at the first active match, having retagged the secondaries before it; otherwise it retags all and answers true |
| GpuDataManager.GpuDataManagerImplPrivate.SetGLStrings | content/browser/gpu/gpu_data_manager_impl_private.cc:456-486 | three empty strings do nothing; before initialisation the call is queued; afterwards the GPU information becomes WithGLStrings of the old under the manager's refresh |
| GpuDataManager.GpuDataManagerImplPrivate.DisableHardwareAcceleration | content/browser/gpu/gpu_data_manager_impl_private.cc:711-730 | queued before initialisation, otherwise the card is disabled |
| GpuDataManager.GpuDataManagerImplPrivate.RunPostInitTasks | content/browser/gpu/gpu_data_manager_impl_private.cc:939-946 | initialised and queue empty; the state is the queued calls run in order on the old state |
| SharedWorkerDevTools.LeastKey | content/browser/devtools/shared_worker_devtools_agent_host.cc:105 | a finite non-empty set of call ids has a least element |
| SharedWorkerDevTools.MinOf | content/browser/devtools/shared_worker_devtools_agent_host.cc:105 | the least call id waiting |
| SharedWorkerDevTools.SortedKeys | content/browser/devtools/shared_worker_devtools_agent_host.cc:105 | the waiting call ids in strictly ascending order, each once, one entry per id |
| SharedWorkerDevTools.SortedCons | content/browser/devtools/shared_worker_devtools_agent_host.cc:105 | the least id in front of the sorted others sorts them all |
| SharedWorkerDevTools.SortedKeysCovers | content/browser/devtools/shared_worker_devtools_agent_host.cc:105 | every waiting call id is listed |
| SharedWorkerDevTools.Replayed | content/browser/devtools/shared_worker_devtools_agent_host.cc:105-110 | one replayed call per waiting message |
| SharedWorkerDevTools.ReplayedInOrder | content/browser/devtools/shared_worker_devtools_agent_host.cc:105-110 | each replayed call carries a waiting message as stored, in ascending call id order |
| SharedWorkerDevTools.ReplayedAt | content/browser/devtools/shared_worker_devtools_agent_host.cc:105-110 | the i-th replayed call is the i-th waiting message in id order |
| SharedWorkerDevTools.ReplayedCoversWaiting | content/browser/devtools/shared_worker_devtools_agent_host.cc:105-110 | no waiting message is skipped |
| SharedWorkerDevTools.AttachedSession | content/browser/devtools/shared_worker_devtools_agent_host.cc:66-74 | fall-through on, the inspector, network and schema handlers added, the worker's process as renderer, the agent when there is one; messages untouched |
| SharedWorkerDevTools.DispatchedSession | content/browser/devtools/shared_worker_devtools_agent_host.cc:80-93 | a handled message changes nothing; a fall-through message goes to the agent once and waits under its call id |
| SharedWorkerDevTools.ReadySession | content/browser/devtools/shared_worker_devtools_agent_host.cc:103-111 | the session is reattached to the agent and every waiting message sent again after what it already sent |
| SharedWorkerDevTools.ReplayCalls | content/browser/devtools/shared_worker_devtools_agent_host.cc:105-110 | the loop over the waiting map produces exactly the replayed calls |
| SharedWorkerDevTools.ReplayWaitingMessages | content/browser/devtools/shared_worker_devtools_agent_host.cc:105-110 | the session's agent calls grow by the replayed calls and nothing else changes |
| SharedWorkerDevTools.SharedWorkerDevToolsAgentHost.constructor | content/browser/devtools/shared_worker_devtools_agent_host.cc:21-30 | a worker not ready, with its host, no agent and no sessions |
| SharedWorkerDevTools.SharedWorkerDevToolsAgentHost.GetProcess | content/browser/devtools/shared_worker_devtools_agent_host.cc:136-139 | the host's process exactly when there is a worker host, null otherwise |
| SharedWorkerDevTools.SharedWorkerDevToolsAgentHost.EnsureAgent | content/browser/devtools/shared_worker_devtools_agent_host.cc:141-148 | an existing agent is returned as is; otherwise exactly one new agent is requested |
| SharedWorkerDevTools.SharedWorkerDevToolsAgentHost.Close | content/browser/devtools/shared_worker_devtools_agent_host.cc:60-64 | always true; the worker host, when there is one, is asked to terminate |
| SharedWorkerDevTools.SharedWorkerDevToolsAgentHost.AttachSession | content/browser/devtools/shared_worker_devtools_agent_host.cc:66-74 | the session is added, set up as AttachedSession; it gets the agent exactly when the worker is ready |
| SharedWorkerDevTools.SharedWorkerDevToolsAgentHost.DispatchProtocolMessage | content/browser/devtools/shared_worker_devtools_agent_host.cc:80-93 | always true; only the dispatching session changes, as DispatchedSession |
| SharedWorkerDevTools.SharedWorkerDevToolsAgentHost.WorkerReadyForInspection | content/browser/devtools/shared_worker_devtools_agent_host.cc:99-112 | the worker is ready; with sessions, one agent is created and every session becomes ReadySession with it; without sessions no agent is created |
| SharedWorkerDevTools.SharedWorkerDevToolsAgentHost.WorkerRestarted | content/browser/devtools/shared_worker_devtools_agent_host.cc:114-122 | not ready again with the new host; every session's renderer is the new process |
| SharedWorkerDevTools.SharedWorkerDevToolsAgentHost.WorkerDestroyed | content/browser/devtools/shared_worker_devtools_agent_host.cc:124-134 | terminated, host and agent gone, every session's renderer null |
| SharedWorkerDevTools.SharedWorkerDevToolsAgentHost.WithRenderer | content/browser/devtools/shared_worker_devtools_agent_host.cc:120-121 | the loop sets every session's renderer and changes nothing else |
| SharedWorkerDevTools.FallThroughReachesAgentOnReady | content/browser/devtools/shared_worker_devtools_agent_host.cc:80-111 | a message that fell through before readiness is sent to the agent once more when the worker becomes ready |
| WorkerShadowPage.AdvanceIsOneStep | third_party/WebKit/Source/core/exported/WorkerShadowPage.cpp:99-113 | AdvanceState accepts a transition exactly when it is one step forward |
| WorkerShadowPage.CanAdvance | third_party/WebKit/Source/core/exported/WorkerShadowPage.cpp:99-113 | the transitions AdvanceState accepts: never into Uninitialized (NOTREACHED) and never out of Initialized; exactly the one-step moves (AdvanceIsOneStep) |
| WorkerShadowPage.Run | third_party/WebKit/Source/core/exported/WorkerShadowPage.cpp:99-113 | an accepted run of n transitions moves exactly n steps forward |
| WorkerShadowPage.OnlyWayToInitialized | third_party/WebKit/Source/core/exported/WorkerShadowPage.cpp:46-73 | the only accepted run from a new page to an initialised one is Initializing then Initialized |
| WorkerShadowPage.WorkerShadowPage.constructor | third_party/WebKit/Source/core/exported/WorkerShadowPage.cpp:17-36 | a new page is uninitialised |
| WorkerShadowPage.WorkerShadowPage.WasInitialized | third_party/WebKit/Source/core/exported/WorkerShadowPage.cpp:95-97 | true exactly in Initialized, the one state from which AdvanceState accepts no transition |
| WorkerShadowPage.WorkerShadowPage.AdvanceState | third_party/WebKit/Source/core/exported/WorkerShadowPage.cpp:99-113 | only the accepted transitions, which set the state |
| WorkerShadowPage.WorkerShadowPage.Initialize | third_party/WebKit/Source/core/exported/WorkerShadowPage.cpp:46-57 | Initializing, and the script URL's load started |
| WorkerShadowPage.WorkerShadowPage.DidFinishDocumentLoad | third_party/WebKit/Source/core/exported/WorkerShadowPage.cpp:69-73 | Initialized before the client is notified |
| ScriptResource.CalculateAccessControlStatus | third_party/WebKit/Source/core/loader/resource/ScriptResource.cpp:91-99 | opaque exactly for an opaque service-worker response; otherwise sharable exactly when same-origin or CORS-successful |
| ScriptResource.CanUseCacheValidator | third_party/WebKit/Source/core/loader/resource/ScriptResource.cpp:101-109 | never while clients or observers exist, otherwise the base resource's answer |
| ScriptResource.CharactersSizeInBytes | third_party/WebKit/Source/core/loader/resource/ScriptResource.cpp:79 | one byte per character for 8-bit strings, two otherwise |
| ScriptResource.SourceTextStep | third_party/WebKit/Source/core/loader/resource/ScriptResource.cpp:73-84 | with no cached text and raw bytes present: decode, clear the bytes, record the decoded size, cache and return the text; otherwise return the cache unchanged; consistency of bytes, text and size is kept |
| ScriptResource.Destroyed | third_party/WebKit/Source/core/loader/resource/ScriptResource.cpp:86-89 | the null text and decoded size 0, the bytes untouched, consistency kept |
| ScriptResource.SourceTextMemoised | third_party/WebKit/Source/core/loader/resource/ScriptResource.cpp:73-84 | a second SourceText changes nothing and returns the same text |
| ScriptResource.DecodedAtMostOnce | third_party/WebKit/Source/core/loader/resource/ScriptResource.cpp:73-84 | however often SourceText is called the bytes are decoded at most once and every call after the first agrees with the first |
| ScriptResource.NullTextAfterDestroy | third_party/WebKit/Source/core/loader/resource/ScriptResource.cpp:73-89 | once decoded and then destroyed by a failed revalidation, SourceText has no bytes left and returns the null string |
| ScriptResource.ScriptResource.constructor | third_party/WebKit/Source/core/loader/resource/ScriptResource.cpp:73-76 | a loaded resource with its raw bytes and no decoded text, consistent |
| ScriptResource.ScriptResource.SourceText | third_party/WebKit/Source/core/loader/resource/ScriptResource.cpp:73-84 | the new state and the result are SourceTextStep of the old state |
| ScriptResource.ScriptResource.DestroyDecodedDataForFailedRevalidation | third_party/WebKit/Source/core/loader/resource/ScriptResource.cpp:86-89 | the new state is Destroyed of the old |
| RankerExampleUtil.SafeGetFeature | components/assist_ranker/ranker_example_util_unittest.cc:38-68 | succeeds exactly for a name of the example, with its feature |
| RankerExampleUtil.GetFeatureValueAsFloat | components/assist_ranker/ranker_example_util_unittest.cc:70-88 | succeeds exactly for bool, int32 and float features: bools as 0 or 1, int32s as their value, floats as they are; strings and missing names fail |
| RankerExampleUtil.GetOneHotValue | components/assist_ranker/ranker_example_util_unittest.cc:90-104 | succeeds exactly for a string feature, with its value |
| RankerExampleUtil.FeatureToInt | components/assist_ranker/ranker_example_util_unittest.cc:106-128 | succeeds exactly for bool and int32 features: true as 1, false as 0, int32s as their value |
| RankerExampleUtil.HashExampleFeatureNames | components/assist_ranker/ranker_example_util_unittest.cc:130-153 | every feature re-keyed under the hash of its name, with its value, and no other key |
| RankerExampleUtil.ImageSize | components/assist_ranker/ranker_example_util_unittest.cc:132-133 | an injective hash keeps the number of names |
| RankerExampleUtil.HashedExampleSize | components/assist_ranker/ranker_example_util_unittest.cc:132-133 | the hashed example has as many features as the original |
| RankerExampleUtil.HashedLookups | components/assist_ranker/ranker_example_util_unittest.cc:141-152 | every accessor gives under the hashed name what it gave under the plain name |
| RankerExampleUtil.HashedNames | components/assist_ranker/ranker_example_util_unittest.cc:135-139 | a name that is no original name's hash is not found in the hashed example |
| AccountManagerFacade.LowerChar | components/signin/core/browser/android/junit/src/org/chromium/components/signin/test/AccountManagerFacadeTest.java:54 | ASCII capitals map to their lower case, every other character to itself |
| AccountManagerFacade.Lower | components/signin/core/browser/android/junit/src/org/chromium/components/signin/test/AccountManagerFacadeTest.java:54 | lower-casing character by character, the length kept |
| AccountManagerFacade.LowerIdempotent | components/signin/core/browser/android/junit/src/org/chromium/components/signin/test/AccountManagerFacadeTest.java:54 | lower-casing twice is lower-casing once |
| AccountManagerFacade.LowerAppend | components/signin/core/browser/android/junit/src/org/chromium/components/signin/test/AccountManagerFacadeTest.java:54 | lower-casing distributes over concatenation |
| AccountManagerFacade.StripDots | components/signin/core/browser/android/junit/src/org/chromium/components/signin/test/AccountManagerFacadeTest.java:55 | the result holds no '.' and is no longer than the input |
| AccountManagerFacade.StripDotsLower | components/signin/core/browser/android/junit/src/org/chromium/components/signin/test/AccountManagerFacadeTest.java:55 | removing dots and lower-casing commute |
| AccountManagerFacade.StripDotsAppend | components/signin/core/browser/android/junit/src/org/chromium/components/signin/test/AccountManagerFacadeTest.java:55 | removing dots distributes over concatenation |
| AccountManagerFacade.StripDotsNoDots | components/signin/core/browser/android/junit/src/org/chromium/components/signin/test/AccountManagerFacadeTest.java:65 | a dot-free string is unchanged |
| AccountManagerFacade.StripDotsBetween | components/signin/core/browser/android/junit/src/org/chromium/components/signin/test/AccountManagerFacadeTest.java:55 | a dot between two parts is dropped |
| AccountManagerFacade.StripTwoDots | components/signin/core/browser/android/junit/src/org/chromium/components/signin/test/AccountManagerFacadeTest.java:68 | two dots between three dot-free parts are dropped |
| AccountManagerFacade.IndexOf | components/signin/core/browser/android/junit/src/org/chromium/components/signin/test/AccountManagerFacadeTest.java:53-55 | the first occurrence of the character, or it does not occur |
| AccountManagerFacade.IndexOfAfter | components/signin/core/browser/android/junit/src/org/chromium/components/signin/test/AccountManagerFacadeTest.java:53-55 | a prefix without the character shifts its first occurrence by the prefix length |
| AccountManagerFacade.IndexOfLower | components/signin/core/browser/android/junit/src/org/chromium/components/signin/test/AccountManagerFacadeTest.java:54 | lower-casing does not move the '@' |
| AccountManagerFacade.SingleAt | components/signin/core/browser/android/junit/src/org/chromium/components/signin/test/AccountManagerFacadeTest.java:53-55 | the position of the one '@' when there is exactly one |
| AccountManagerFacade.SingleAtLower | components/signin/core/browser/android/junit/src/org/chromium/components/signin/test/AccountManagerFacadeTest.java:54 | lower-casing keeps the single '@' where it is |
| AccountManagerFacade.SingleAtGmail | components/signin/core/browser/android/junit/src/org/chromium/components/signin/test/AccountManagerFacadeTest.java:51-55 | local@gmail.com with an '@'-free local part has its single '@' after the local part |
| AccountManagerFacade.Canonicalize | components/signin/core/browser/android/junit/src/org/chromium/components/signin/test/AccountManagerFacadeTest.java:53-68 | the canonical form has no ASCII capital and is never longer than the name (gmail.com local parts lose their dots, everything is lower-cased) |
| AccountManagerFacade.CanonicalIdempotent | components/signin/core/browser/android/junit/src/org/chromium/components/signin/test/AccountManagerFacadeTest.java:53-68 | a canonical form is its own canonical form, so a name and its canonical form denote the same account |
| AccountManagerFacade.SameAccount | components/signin/core/browser/android/junit/src/org/chromium/components/signin/test/AccountManagerFacadeTest.java:53-68 | two names match exactly when their canonical forms agree; names equal up to case always match (as rows CaseInsensitive and GmailMatch spell out) |
| AccountManagerFacade.StripDotsKeepsAbsent | components/signin/core/browser/android/junit/src/org/chromium/components/signin/test/AccountManagerFacadeTest.java:53-68 | removing dots adds no character, so a local part without '@' stays without one |
| AccountManagerFacade.CanonicalLower | components/signin/core/browser/android/junit/src/org/chromium/components/signin/test/AccountManagerFacadeTest.java:53-67 | lower-casing a name leaves its canonical form unchanged |
| AccountManagerFacade.CanonicalGmail | components/signin/core/browser/android/junit/src/org/chromium/components/signin/test/AccountManagerFacadeTest.java:51-55 | the canonical form of local@gmail.com is the dot-free lower-cased local part at gmail.com |
| AccountManagerFacade.GmailDomainPlain | components/signin/core/browser/android/junit/src/org/chromium/components/signin/test/AccountManagerFacadeTest.java:51 | gmail.com is lower case and has no '@' |
| AccountManagerFacade.CaseInsensitive | components/signin/core/browser/android/junit/src/org/chromium/components/signin/test/AccountManagerFacadeTest.java:53-67 | a name and its lower-cased form denote the same account |
| AccountManagerFacade.GmailDotsInsensitive | components/signin/core/browser/android/junit/src/org/chromium/components/signin/test/AccountManagerFacadeTest.java:55-68 | gmail addresses that differ only by dots before the '@' denote the same account |
| AccountManagerFacade.GmailMatch | components/signin/core/browser/android/junit/src/org/chromium/components/signin/test/AccountManagerFacadeTest.java:53-68 | gmail addresses whose local parts agree after removing dots and folding case denote the same account |
| AccountManagerFacade.CanonicalLocalParts | components/signin/core/browser/android/junit/src/org/chromium/components/signin/test/AccountManagerFacadeTest.java:53-55 | Test, test and te.st reduce to test |
| AccountManagerFacade.DottedTestme | components/signin/core/browser/android/junit/src/org/chromium/components/signin/test/AccountManagerFacadeTest.java:65-66 | test.me without dots is testme |
| AccountManagerFacade.TwiceDottedTestme | components/signin/core/browser/android/junit/src/org/chromium/components/signin/test/AccountManagerFacadeTest.java:68 | te.st.me without dots is testme |
| AccountManagerFacade.LowerTestme | components/signin/core/browser/android/junit/src/org/chromium/components/signin/test/AccountManagerFacadeTest.java:66-67 | testme and Testme both lower-case to testme |
| AccountManagerFacade.NonCanonicalLocalParts | components/signin/core/browser/android/junit/src/org/chromium/components/signin/test/AccountManagerFacadeTest.java:65-68 | test.me, testme, Testme and te.st.me reduce to testme |
| AccountManagerFacade.CanonicalAccountNames | components/signin/core/browser/android/junit/src/org/chromium/components/signin/test/AccountManagerFacadeTest.java:50-56 | Test@gmail.com and te.st@gmail.com match test@gmail.com |
| AccountManagerFacade.NonCanonicalAccountNames | components/signin/core/browser/android/junit/src/org/chromium/components/signin/test/AccountManagerFacadeTest.java:62-69 | testme, Testme and te.st.me at gmail.com match test.me@gmail.com |
| AccountManagerFacade.Without | components/signin/core/browser/android/junit/src/org/chromium/components/signin/test/AccountManagerFacadeTest.java:108-109 | exactly the other accounts remain, none added |
| AccountManagerFacade.WithoutAbsent | components/signin/core/browser/android/junit/src/org/chromium/components/signin/test/AccountManagerFacadeTest.java:108-109 | removing an absent account changes nothing |
| AccountManagerFacade.WithoutSplice | components/signin/core/browser/android/junit/src/org/chromium/components/signin/test/AccountManagerFacadeTest.java:108-109 | removing an account keeps those before and after it in their order |
| AccountManagerFacade.AccountManagerFacade.constructor | components/signin/core/browser/android/junit/src/org/chromium/components/signin/test/AccountManagerFacadeTest.java:96 | no accounts and no profile data |
| AccountManagerFacade.AccountManagerFacade.GetGoogleAccounts | components/signin/core/browser/android/junit/src/org/chromium/components/signin/test/AccountManagerFacadeTest.java:96-106 | the held accounts in the order they were added, each of them found by HasAccountForName |
| AccountManagerFacade.AccountManagerFacade.HasAccountForName | components/signin/core/browser/android/junit/src/org/chromium/components/signin/test/AccountManagerFacadeTest.java:53-55 | true exactly when a held account has the same canonical form; in particular for a held name and for a name whose lower-cased form is held (CaseInsensitive, GmailMatch, MatchedAfterAdd) |
| AccountManagerFacade.AccountManagerFacade.AddAccount | components/signin/core/browser/android/junit/src/org/chromium/components/signin/test/AccountManagerFacadeTest.java:98-106 | a new account goes to the end of the list, a known one stays; afterwards the name has an account |
| AccountManagerFacade.AccountManagerFacade.RemoveAccount | components/signin/core/browser/android/junit/src/org/chromium/components/signin/test/AccountManagerFacadeTest.java:108-109 | the list without the account, the others in order |
| AccountManagerFacade.AccountManagerFacade.SetProfileData | components/signin/core/browser/android/junit/src/org/chromium/components/signin/test/AccountManagerFacadeTest.java:83-89 | data stores exactly that entry; null removes it |
| AccountManagerFacade.MatchedAfterAdd | components/signin/core/browser/android/junit/src/org/chromium/components/signin/test/AccountManagerFacadeTest.java:51-55 | once added, an account is found under every name with its canonical form |
| ArcVideoDecode.Execute | components/arc/video_accelerator/gpu_arc_video_decode_accelerator.h:104-110 | after an error the callback runs with the error at once; while a Reset runs the request waits at the back of the queue and nothing else changes; the error flag is kept |
| ArcVideoDecode.RunPending | components/arc/video_accelerator/gpu_arc_video_decode_accelerator.h:99-102 | running the queue keeps the error flag |
| ArcVideoDecode.RunAll | components/arc/video_accelerator/gpu_arc_video_decode_accelerator.h:139-141 | the callbacks run in their order, each with the one result |
| ArcVideoDecode.FirstReset | components/arc/video_accelerator/gpu_arc_video_decode_accelerator.h:99-102 | the first Reset in the queue, or its length; nothing before it is a Reset |
| ArcVideoDecode.Kinds | components/arc/video_accelerator/gpu_arc_video_decode_accelerator.h:142 | the operations of the queued requests, in order |
| ArcVideoDecode.QueuedBehindReset | components/arc/video_accelerator/gpu_arc_video_decode_accelerator.h:131-135 | while a Reset runs every new request waits at the back of the queue and nothing reaches the decoder |
| ArcVideoDecode.RunPendingStep | components/arc/video_accelerator/gpu_arc_video_decode_accelerator.h:99-102 | a queued request that is not a Reset goes to the decoder and the loop goes on with the rest |
| ArcVideoDecode.RunPendingAtReset | components/arc/video_accelerator/gpu_arc_video_decode_accelerator.h:99-101 | a Reset at the head of the queue runs alone |
| ArcVideoDecode.RunPendingExecutes | components/arc/video_accelerator/gpu_arc_video_decode_accelerator.h:99-135 | the queued operations reach the decoder in FIFO order, up to and including the first Reset |
| ArcVideoDecode.RunPendingStopsAtReset | components/arc/video_accelerator/gpu_arc_video_decode_accelerator.h:99-101 | the requests after the first Reset stay queued and that Reset's callback is the running one; with no Reset queued none is running |
| ArcVideoDecode.DeliveredAppend | components/arc/video_accelerator/gpu_arc_video_decode_accelerator.h:143-144 | the callbacks run by two batches are those of each |
| ArcVideoDecode.DeliveredRunAll | components/arc/video_accelerator/gpu_arc_video_decode_accelerator.h:139-141 | running a list of callbacks runs each of them once |
| ArcVideoDecode.DeliveredReset | components/arc/video_accelerator/gpu_arc_video_decode_accelerator.h:125-127 | running the optional Reset callback runs it once if there is one |
| ArcVideoDecode.QueuedCallbacksAppend | components/arc/video_accelerator/gpu_arc_video_decode_accelerator.h:142-145 | queuing a request adds exactly its callback to those queued |
| ArcVideoDecode.ExecuteAccountsAfterError | components/arc/video_accelerator/gpu_arc_video_decode_accelerator.h:125-127 | after an error, executing a request runs exactly its callback |
| ArcVideoDecode.ExecuteAccountsQueued | components/arc/video_accelerator/gpu_arc_video_decode_accelerator.h:104-106 | a request queued behind a Reset keeps exactly its callback pending |
| ArcVideoDecode.ExecuteAccountsRun | components/arc/video_accelerator/gpu_arc_video_decode_accelerator.h:106-110 | a request sent to the decoder keeps exactly its callback pending |
| ArcVideoDecode.ExecuteAccounts | components/arc/video_accelerator/gpu_arc_video_decode_accelerator.h:104-144 | executing a request adds exactly its own callback to those pending or run |
| ArcVideoDecode.RunPendingAccounts | components/arc/video_accelerator/gpu_arc_video_decode_accelerator.h:99-144 | running the queue loses no callback and adds none |
| ArcVideoDecode.FlushDoneAccounts | components/arc/video_accelerator/gpu_arc_video_decode_accelerator.h:136-138 | a Flush done moves its callback from pending to run |
| ArcVideoDecode.FlushDone | components/arc/video_accelerator/gpu_arc_video_decode_accelerator.h:136-138 | NotifyFlushDone on the state: the oldest running Flush completes with SUCCESS; FlushDoneAccounts and FlushDoneKeepsValid state its meaning |
| ArcVideoDecode.ResetDoneAccounts | components/arc/video_accelerator/gpu_arc_video_decode_accelerator.h:136-144 | a Reset done moves the Reset and the cancelled Flushes from pending to run and loses nothing |
| ArcVideoDecode.ResetDone | components/arc/video_accelerator/gpu_arc_video_decode_accelerator.h:139-141 | NotifyResetDone on the state: running Flushes cancelled, the Reset succeeds, the queue resumes; ResetDoneCancelsFlushes, ResetDoneAccounts and ResetDoneKeepsValid state its meaning |
| ArcVideoDecode.ErrorAccounts | components/arc/video_accelerator/gpu_arc_video_decode_accelerator.h:125-127 | an error runs every pending callback exactly once and leaves none pending |
| ArcVideoDecode.ErrorNotified | components/arc/video_accelerator/gpu_arc_video_decode_accelerator.h:125-127 | NotifyError on the state: every pending callback run with the error, nothing left pending; ErrorAccounts states its meaning |
| ArcVideoDecode.ExecuteKeepsValid | components/arc/video_accelerator/gpu_arc_video_decode_accelerator.h:131-144 | requests wait only behind a running Reset, and nothing waits after an error, across ExecuteRequest |
| ArcVideoDecode.RunPendingKeepsValid | components/arc/video_accelerator/gpu_arc_video_decode_accelerator.h:99-102 | RunPendingRequests stops only with an empty queue or a running Reset |
| ArcVideoDecode.FlushDoneKeepsValid | components/arc/video_accelerator/gpu_arc_video_decode_accelerator.h:136-138 | NotifyFlushDone keeps the queue invariant |
| ArcVideoDecode.ResetDoneKeepsValid | components/arc/video_accelerator/gpu_arc_video_decode_accelerator.h:131-141 | NotifyResetDone keeps the queue invariant |
| ArcVideoDecode.ResetDoneCancelsFlushes | components/arc/video_accelerator/gpu_arc_video_decode_accelerator.h:139-141 | at NotifyResetDone the running Flushes complete with CANCELLED in issue order, then the Reset with SUCCESS |
| ArcVideoDecode.RunPendingOnlyAppends | components/arc/video_accelerator/gpu_arc_video_decode_accelerator.h:99-102 | running the queue only appends to the callbacks run |
| ArcVideoDecode.GpuArcVideoDecodeAccelerator.constructor | components/arc/video_accelerator/gpu_arc_video_decode_accelerator.h:125-161 | nothing pending, no error, no buffers |
| ArcVideoDecode.GpuArcVideoDecodeAccelerator.ExecuteRequest | components/arc/video_accelerator/gpu_arc_video_decode_accelerator.h:104-110 | the new state is Execute of the old |
| ArcVideoDecode.GpuArcVideoDecodeAccelerator.RunPendingRequests | components/arc/video_accelerator/gpu_arc_video_decode_accelerator.h:99-102 | the loop leaves RunPending of the old state |
| ArcVideoDecode.GpuArcVideoDecodeAccelerator.Decode | components/arc/video_accelerator/gpu_arc_video_decode_accelerator.h:142-144 | a request without callback executed; the invariant kept |
| ArcVideoDecode.GpuArcVideoDecodeAccelerator.Flush | components/arc/video_accelerator/gpu_arc_video_decode_accelerator.h:107-108 | a Flush request with its callback executed; the invariant kept |
| ArcVideoDecode.GpuArcVideoDecodeAccelerator.Reset | components/arc/video_accelerator/gpu_arc_video_decode_accelerator.h:108-109 | a Reset request with its callback executed; the invariant kept |
| ArcVideoDecode.GpuArcVideoDecodeAccelerator.NotifyFlushDone | components/arc/video_accelerator/gpu_arc_video_decode_accelerator.h:136-138 | the oldest running Flush's callback runs with SUCCESS |
| ArcVideoDecode.GpuArcVideoDecodeAccelerator.NotifyResetDone | components/arc/video_accelerator/gpu_arc_video_decode_accelerator.h:139-141 | running Flushes cancelled, the Reset succeeds, the queued requests run again |
| ArcVideoDecode.GpuArcVideoDecodeAccelerator.NotifyError | components/arc/video_accelerator/gpu_arc_video_decode_accelerator.h:125-127 | the error flag set and every pending callback run with the error |
| ArcVideoDecode.GpuArcVideoDecodeAccelerator.AllocateProtectedBuffer | components/arc/video_accelerator/gpu_arc_video_decode_accelerator.h:163-170 | accepted exactly while fewer than kMaxProtectedInputBuffers handles are held, and then the handle is kept |
| ArcVideoDecode.GpuArcVideoDecodeAccelerator.AssignPictureBuffers | components/arc/video_accelerator/gpu_arc_video_decode_accelerator.h:161-170 | the output buffer count set, with as many empty protected output slots |
| ArcVideoDecode.GpuArcVideoDecodeAccelerator.ImportBufferForPicture | components/arc/video_accelerator/gpu_arc_video_decode_accelerator.h:171-172 | accepted exactly for a picture buffer id below the assigned count, and then stored at that id |

## Left out

- Logging is not modelled: DLOG/LOG output, the type-dependent dumps in every service object, `PrintOperand`, and the logging-only backend in services/ml/neural_network_impl_linux.cc.
- Floating point is not computed: operand scales, float feature values and `getScalarFloat` are opaque bit patterns.
- The Android Neural Networks runtime is foreign code. It is a parameter that maps the calls made so far to an int32 code. The memory it reads and writes is not modelled, except for the bytes `StartCompute` copies back.
- Mojo and Blink plumbing is left out: shared-buffer Create/Map/Clone, `MakeStrongBinding`, the pipes themselves, and GC tracing. A promise is a resolver object that records how it settled, and a shared buffer is an array of bytes.
- The mojom values of NO_ERROR and BAD_DATA are not in this source. They are modelled as the distinct constants 0 and 4, and the proofs use only that they differ.
- Several headers disagree with their bodies: model_impl_linux.h, Model.h, execution_impl_linux.h, Execution.h and the Android headers. The `.cc`/`.cpp` bodies are followed throughout.
- MlServiceAndroid.ExecutionImplAndroid.StartCompute: the bytes the runtime leaves in the output buffer are a parameter (`produced`), and the call needs setOutput to have run with a handle large enough for the copy.
- BlinkModel.Model.Finish: requires the total staged length below 2^32. Past that, the uint32 total wraps and the memcpy overruns the mapping.
- BlinkModel.Model.SetOperandValue: for every index >= operand count the source reads operands[index] out of range. Index == count passes the `>` guard. For index > count the "Index is invalid." exception is thrown but the method does not return, so the source's text goes on to read operands[index], run the type checks, and push the index and the view onto the staged lists, where finish() later uses that index. The model reports both cases as the outcome flag `outOfRangeRead`, after the exceptions thrown so far. It then stops and stages nothing, so neither the type checks on the out-of-range operand nor a staged out-of-range index that finish() would read are modelled.
- MlCommon.GetScalarInt32: reads the four bytes as a little-endian int32_t. The source casts the pointer and reads in host byte order, possibly unaligned (services/ml/common.cc:72-73), so the model assumes a little-endian host. Alignment is not modelled.
- MlServiceLinux.ModelImplLinux.SetOperandValue: requires index != operand count, which is the out-of-range read the `>` guard lets through (see Findings). SetOperandValueCorrected is the same call with the guard written `>=` and needs no such requirement.
- MlServiceAndroid.ModelImplAndroid.SetOperandValue: requires index != operand count, for the same reason. SetOperandValueCorrected needs no such requirement.
- MlServiceAndroid.ModelImplAndroid.ReplayValues: requires every value index != operand count, because each value goes through SetOperandValue.
- MlServiceAndroid.ModelImplAndroid.Finish: requires every value index != operand count once both replays succeed, because the values loop is reached only then.
- MlServiceAndroid.ModelImplAndroid.FinishOperations: requires every value index != operand count once the operations replay succeeds, for the same reason.
- MlServiceAndroid.ModelImplAndroid.FinishTail: requires every value index != operand count, because it runs the values loop.
- MlServiceLinux.ExecutionImplLinux.SetInput: requires index != |inputs| and inputs[index] != operand count, for the same reason. SetInputCorrected needs neither.
- MlServiceAndroid.ExecutionImplAndroid.SetInput: requires index != |inputs| and inputs[index] != operand count, the reads the `>` guards let through. For an index that passes both guards, it also requires the length to fit the supplied buffer and the buffer already held for that index, which the source copies into without a check.
- MlServiceLinux.CompilationImplLinux.CreateExecution: requires every graph input and output to name an operand. The source indexes the operand table with them unchecked.
- MlServiceAndroid.CompilationImplAndroid.CreateExecution: requires every graph input and output to name an operand, because the source indexes the operand table with them unchecked.
- BlinkExecution.Execution.SetInput: requires the view to fit the index's existing shared buffer, which the source copies into without a check.
- BlinkExecution.Execution.OnStartCompute: on NO_ERROR, requires output buffer 0 and a first output view that fits it. The source copies without a check.
- GPU data manager side effects are left out: UMA histograms, `GetGpuBlacklistHistogramValueWin`, command-line appending, `ContentClient`, observer notification, thread posting and crash keys. Hardware-acceleration disabling does not recompute the feature info.
- The blacklist and driver-bug-list computations inside `ComputeGpuFeatureInfo` are not modelled. Their data is not in the source, so the blacklisted-feature set, the workaround set and the command-line switches are inputs. Only the per-feature status table of that function is modelled.
- GpuUtil.StringToIds requires each trimmed piece to be a hexadecimal number below 2^32. That is the DCHECK the source makes on each parse. The pieces the parser rejects are characterised separately (HexStringToUInt's failure cases). The optional sign that base::HexStringToUInt also accepts is not modelled. Whitespace never reaches the parser, because each piece is trimmed with TRIM_WHITESPACE before it is parsed (gpu/config/gpu_util.cc:34-35).
- These functions of gpu/config/gpu_util.cc are not modelled: `AppendWorkaroundsToCommandLine` (command-line output), `GetGpuInfoFromCommandLine` (command-line parsing into the GPU information), `ComputeGpuFeatureInfoWithHardwareAccelerationDisabled` and `ComputeGpuFeatureInfoForSwiftShader` (fixed feature tables), and `SetKeysForCrashLogging` (crash keys).
- GpuDataManager.WithGLStrings: `gpu::IdentifyActiveGPU` and `gpu::CollectDriverInfoGL` (called at gpu_data_manager_impl_private.cc:482-483) and `gpu::MergeGPUInfo` (called by UpdateGpuInfo at :571) are not in this source. Their combined effect is the manager's `refreshGpuInfo` parameter, so the model does not say which GPU becomes active or what driver information is collected. That the strings just set survive the refresh is a hypothesis (`KeepsGLStrings`) of FirstGLStringsWin, not a promise.
- Base::Time is an integer number of microseconds. TimeDelta's saturation at its maximum is not modelled.
- DevTools sessions are records. Their protocol dispatcher is an input (`DispatchOutcome`), and so is `RenderProcessHost::FromID`, which is reduced to the process id. `TargetCrashed` notifications, `Activate` (always false) and `Reload` (empty) are not modelled.
- The ranker's `HashFeatureName` is a parameter and needs to be injective on the example's names. The tests rely on this when they count features.
- Account matching lower-cases ASCII letters only, and treats only the exact domain gmail.com as dot-insensitive. The facade's own implementation is not in the source, so the model follows its tests. Adding an account that is already there keeps the list unchanged.
- The ARC decoder's `.cc` file is not in the source, so the model follows the header's comments. Initialization, picture handling and the decoder itself are not modelled. `kMaxProtectedInputBuffers` is a constructor parameter. The header says only that callbacks run "with an error state" after a failure; the particular result code, `ErrorResult` (ILLEGAL_STATE), is a choice of the model, and the proofs use only that it is one fixed code.

## Findings

| source | as written | input that shows it | evidently intended | confidence | as-written member | corrected member |
|---|---|---|---|---|---|---|
| services/ml/model_impl_linux.cc:33-36 | the guard rejects `index > operands_.size()`. The same guard appears in model_impl_android.cc:54-56, execution_impl_linux.cc:22-30, execution_impl_android.cc:28-36 and Model.cpp:58-61. | index == operands_.size() passes the guard and reads one past the end of the table (MlCommon.GuardAdmitsOneTooMany); SetOperandValue can only be given that index by excluding it with a requires | `index >= size` | not executed | MlServiceLinux.ModelImplLinux.SetOperandValue | MlServiceLinux.ModelImplLinux.SetOperandValueCorrected |
