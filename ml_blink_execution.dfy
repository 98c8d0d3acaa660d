/** The script-facing Execution object
    (third_party/WebKit/Source/modules/ml/Execution.cpp). Every call returns
    a promise, modelled by its resolver; while the service pipe is bound the
    resolver waits in `requests` until the response settles it. Messages
    sent over the pipe are recorded in `sent`. */
module BlinkExecution {
  import opened Base
  import opened MlCommon
  import opened BlinkBindings

  /** How a shared-buffer handle is cloned for the service. */
  datatype Access = ReadOnly | ReadWrite

  /** The requests sent to the service, each with the resolver and the
      operation name its response is bound to. */
  datatype ExecutionMessage =
    | SetInputMessage(index: U32, buffer: array<Byte>, access: Access, length: U32, resolver: Resolver, operationName: string)
    | SetOutputMessage(index: U32, buffer: array<Byte>, access: Access, length: U32, resolver: Resolver, operationName: string)
    | StartComputeMessage(resolver: Resolver)

  const ExecutionUnavailable := DomException(NotSupportedError, "Execution service unavailable.")
  const ServiceUnavailable := DomException(NotSupportedError, "Neural Network service unavailable.")
  const ExecutionLost := DomException(NotSupportedError, "Execution is not implemented.")

  /** byteLength() of a view stored into a uint32_t. */
  function ByteLength(view: View): (r: U32)
    ensures view.data.Length < TwoTo32 ==> r == view.data.Length
    ensures r <= view.data.Length
  {
    view.data.Length % TwoTo32
  }

  class Execution {
    /** Whether the service pipe is bound. */
    var bound: bool
    var requests: set<Resolver>
    var inputSharedBuffers: map<U32, array<Byte>>
    var outputSharedBuffers: map<U32, array<Byte>>
    /** The views passed to setOutput, in call order. */
    var outputBufferViews: seq<View>
    var sent: seq<ExecutionMessage>

    /** Every tracked request is still pending, and an unbound object
        tracks none. */
    ghost predicate Valid()
      reads this, requests
    {
      (forall r :: r in requests ==> r.outcome.Pending?)
      && (!bound ==> requests == {})
    }

    constructor ()
      ensures Valid()
      ensures bound && requests == {} && sent == []
      ensures inputSharedBuffers == map[] && outputSharedBuffers == map[] && outputBufferViews == []
    {
      bound := true;
      requests := {};
      inputSharedBuffers := map[];
      outputSharedBuffers := map[];
      outputBufferViews := [];
      sent := [];
    }

    /** setInput: rejected at once when unbound. Otherwise the input index
        gets a shared buffer of the view's length on first use and keeps it
        afterwards; the view's bytes are copied into it and a read-only clone
        is sent. Mapping a buffer created earlier needs it to be large
        enough for the new view. */
    method SetInput(index: U32, data: View) returns (resolver: Resolver)
      requires Valid()
      requires bound && index in inputSharedBuffers ==> ByteLength(data) <= inputSharedBuffers[index].Length
      modifies this, if index in inputSharedBuffers then {inputSharedBuffers[index]} else {}
      ensures Valid() && fresh(resolver)
      ensures bound == old(bound) && outputSharedBuffers == old(outputSharedBuffers)
      ensures outputBufferViews == old(outputBufferViews)
      ensures !old(bound) ==>
                resolver.outcome == Rejected(ExecutionUnavailable) && requests == old(requests)
                && sent == old(sent) && inputSharedBuffers == old(inputSharedBuffers)
      ensures old(bound) ==> index in inputSharedBuffers
      ensures old(bound) ==>
                var length := ByteLength(data);
                var buffer := inputSharedBuffers[index];
                  resolver.outcome == Pending && requests == old(requests) + {resolver}
                  && inputSharedBuffers == old(inputSharedBuffers)[index := buffer]
                  && (index in old(inputSharedBuffers) ==>
                        buffer == old(inputSharedBuffers[index])
                        && buffer[..] == old(data.data[..])[..length] + old(buffer[..])[length..])
                  && (index !in old(inputSharedBuffers) ==>
                        fresh(buffer) && buffer[..] == old(data.data[..])[..length])
                  && sent == old(sent) + [SetInputMessage(index, buffer, ReadOnly, length, resolver, "setInput")]
    {
      resolver := new Resolver();
      if !bound {
        resolver.Reject(ExecutionUnavailable);
        return;
      }
      requests := requests + {resolver};
      var length := ByteLength(data);
      var buffer: array<Byte>;
      if index in inputSharedBuffers {
        buffer := inputSharedBuffers[index];
      } else {
        buffer := new Byte[length];
        inputSharedBuffers := inputSharedBuffers[index := buffer];
      }
      var bytes := data.data[..length];
      ghost var before := buffer[..];
      Memcpy(buffer, 0, bytes);
      assert before[0 + |bytes|..] == before[length..];
      sent := sent + [SetInputMessage(index, buffer, ReadOnly, length, resolver, "setInput")];
    }

    /** setOutput: rejected at once when unbound. Otherwise the output index
        gets a shared buffer on first use, the view is appended to the
        output views and a read-write clone is sent. */
    method SetOutput(index: U32, data: View) returns (resolver: Resolver)
      requires Valid()
      modifies this
      ensures Valid() && fresh(resolver)
      ensures bound == old(bound) && inputSharedBuffers == old(inputSharedBuffers)
      ensures !old(bound) ==>
                resolver.outcome == Rejected(ExecutionUnavailable) && requests == old(requests)
                && sent == old(sent) && outputSharedBuffers == old(outputSharedBuffers)
                && outputBufferViews == old(outputBufferViews)
      ensures old(bound) ==> index in outputSharedBuffers
      ensures old(bound) ==>
                var length := ByteLength(data);
                var buffer := outputSharedBuffers[index];
                  resolver.outcome == Pending && requests == old(requests) + {resolver}
                  && outputSharedBuffers == old(outputSharedBuffers)[index := buffer]
                  && (index in old(outputSharedBuffers) ==> buffer == old(outputSharedBuffers[index]))
                  && (index !in old(outputSharedBuffers) ==> fresh(buffer) && buffer.Length == length)
                  && outputBufferViews == old(outputBufferViews) + [data]
                  && sent == old(sent) + [SetOutputMessage(index, buffer, ReadWrite, length, resolver, "setOutput")]
    {
      resolver := new Resolver();
      if !bound {
        resolver.Reject(ExecutionUnavailable);
        return;
      }
      requests := requests + {resolver};
      var length := ByteLength(data);
      var buffer: array<Byte>;
      if index in outputSharedBuffers {
        buffer := outputSharedBuffers[index];
      } else {
        buffer := new Byte[length];
        outputSharedBuffers := outputSharedBuffers[index := buffer];
      }
      outputBufferViews := outputBufferViews + [data];
      sent := sent + [SetOutputMessage(index, buffer, ReadWrite, length, resolver, "setOutput")];
    }

    /** startCompute: rejected at once when unbound; otherwise tracked and
        sent. */
    method StartCompute() returns (resolver: Resolver)
      requires Valid()
      modifies this
      ensures Valid() && fresh(resolver)
      ensures bound == old(bound) && inputSharedBuffers == old(inputSharedBuffers)
      ensures outputSharedBuffers == old(outputSharedBuffers) && outputBufferViews == old(outputBufferViews)
      ensures !old(bound) ==>
                resolver.outcome == Rejected(ServiceUnavailable) && requests == old(requests) && sent == old(sent)
      ensures old(bound) ==>
                resolver.outcome == Pending && requests == old(requests) + {resolver}
                && sent == old(sent) + [StartComputeMessage(resolver)]
    {
      resolver := new Resolver();
      if !bound {
        resolver.Reject(ServiceUnavailable);
        return;
      }
      requests := requests + {resolver};
      sent := sent + [StartComputeMessage(resolver)];
    }

    /** The startCompute response: the resolver leaves `requests`. On
        NO_ERROR the bytes of output buffer 0 are copied into the first
        output view, for that view's length, and the promise resolves;
        otherwise it is rejected. The copy needs output buffer 0 and a first
        view to exist, and the buffer to cover the view. */
    method OnStartCompute(resolver: Resolver, resultCode: Int32)
      requires Valid() && resolver in requests
      requires resultCode == NO_ERROR ==>
                 0 in outputSharedBuffers && |outputBufferViews| > 0
                 && ByteLength(outputBufferViews[0]) <= outputSharedBuffers[0].Length
      modifies this, resolver, if |outputBufferViews| > 0 then {outputBufferViews[0].data} else {}
      ensures Valid()
      ensures requests == old(requests) - {resolver}
      ensures bound == old(bound) && sent == old(sent)
      ensures inputSharedBuffers == old(inputSharedBuffers) && outputSharedBuffers == old(outputSharedBuffers)
      ensures outputBufferViews == old(outputBufferViews)
      ensures resultCode == NO_ERROR ==>
                var view := outputBufferViews[0];
                var length := ByteLength(view);
                  resolver.outcome == Resolved(Code(resultCode))
                  && view.data[..] == old(outputSharedBuffers[0][..])[..length] + old(view.data[..])[length..]
      ensures resultCode != NO_ERROR ==>
                resolver.outcome == Rejected(DomException(InvalidStateError, FailureMessage("startCompute", resultCode)))
                && (|outputBufferViews| > 0 ==> unchanged(outputBufferViews[0].data))
    {
      requests := requests - {resolver};
      if resultCode == NO_ERROR {
        var buffer := outputSharedBuffers[0];
        var view := outputBufferViews[0];
        var length := ByteLength(view);
        var bytes := buffer[..length];
        ghost var before := view.data[..];
        Memcpy(view.data, 0, bytes);
        assert before[0 + |bytes|..] == before[length..];
        resolver.Resolve(Code(resultCode));
      } else {
        resolver.Reject(DomException(InvalidStateError, FailureMessage("startCompute", resultCode)));
      }
    }

    /** The setInput and setOutput responses: the resolver leaves
        `requests`; NO_ERROR resolves, anything else rejects with the
        operation's label. */
    method OnResultCode(resolver: Resolver, operationName: string, resultCode: Int32)
      requires Valid() && resolver in requests
      modifies this, resolver
      ensures Valid()
      ensures requests == old(requests) - {resolver}
      ensures bound == old(bound) && sent == old(sent)
      ensures inputSharedBuffers == old(inputSharedBuffers) && outputSharedBuffers == old(outputSharedBuffers)
      ensures outputBufferViews == old(outputBufferViews)
      ensures resultCode == NO_ERROR ==> resolver.outcome == Resolved(Code(resultCode))
      ensures resultCode != NO_ERROR ==>
                resolver.outcome == Rejected(DomException(InvalidStateError, FailureMessage(operationName, resultCode)))
    {
      requests := requests - {resolver};
      SettleFromCode(resolver, operationName, resultCode, NO_ERROR);
    }

    /** A connection error rejects every pending request, forgets them all
        and unbinds the pipe. */
    method OnConnectionError()
      requires Valid()
      modifies this, requests
      ensures Valid()
      ensures forall r :: r in old(requests) ==> r.outcome == Rejected(ExecutionLost)
      ensures requests == {} && !bound
      ensures sent == old(sent) && inputSharedBuffers == old(inputSharedBuffers)
      ensures outputSharedBuffers == old(outputSharedBuffers) && outputBufferViews == old(outputBufferViews)
    {
      RejectAll(requests, ExecutionLost);
      requests := {};
      bound := false;
    }
  }
}
