/** The script-facing Compilation object
    (third_party/WebKit/Source/modules/ml/Compilation.cpp): the same request
    tracking as Execution, over setPreference, finish and createExecution. */
module BlinkCompilation {
  import opened Base
  import opened MlCommon
  import opened BlinkBindings
  import opened BlinkExecution

  /** The requests sent to the service. setPreference is bound to the label
      "finish", as the source has it. */
  datatype CompilationMessage =
    | SetPreferenceMessage(preference: Int32, resolver: Resolver, operationName: string)
    | FinishMessage(resolver: Resolver, operationName: string)
    | CreateExecutionMessage(resolver: Resolver)

  const CompilationUnavailable := DomException(NotSupportedError, "Compilation service unavailable.")
  const CompilationLost := DomException(NotSupportedError, "Compilation is not implemented.")

  class Compilation {
    var bound: bool
    var requests: set<Resolver>
    var sent: seq<CompilationMessage>

    ghost predicate Valid()
      reads this, requests
    {
      (forall r :: r in requests ==> r.outcome.Pending?)
      && (!bound ==> requests == {})
    }

    constructor ()
      ensures Valid()
      ensures bound && requests == {} && sent == []
    {
      bound := true;
      requests := {};
      sent := [];
    }

    /** A fresh resolver: tracked and sent when bound, rejected at once with
        "Compilation service unavailable." when not. */
    method Track(message: Resolver -> CompilationMessage) returns (resolver: Resolver)
      requires Valid()
      modifies this
      ensures Valid() && fresh(resolver) && bound == old(bound)
      ensures !old(bound) ==>
                resolver.outcome == Rejected(CompilationUnavailable) && requests == old(requests) && sent == old(sent)
      ensures old(bound) ==>
                resolver.outcome == Pending && requests == old(requests) + {resolver}
                && sent == old(sent) + [message(resolver)]
    {
      resolver := new Resolver();
      if !bound {
        resolver.Reject(CompilationUnavailable);
        return;
      }
      requests := requests + {resolver};
      sent := sent + [message(resolver)];
    }

    method SetPreference(preference: Int32) returns (resolver: Resolver)
      requires Valid()
      modifies this
      ensures Valid() && fresh(resolver) && bound == old(bound)
      ensures !old(bound) ==>
                resolver.outcome == Rejected(CompilationUnavailable) && requests == old(requests) && sent == old(sent)
      ensures old(bound) ==>
                resolver.outcome == Pending && requests == old(requests) + {resolver}
                && sent == old(sent) + [SetPreferenceMessage(preference, resolver, "finish")]
    {
      resolver := Track((r: Resolver) => SetPreferenceMessage(preference, r, "finish"));
    }

    method Finish() returns (resolver: Resolver)
      requires Valid()
      modifies this
      ensures Valid() && fresh(resolver) && bound == old(bound)
      ensures !old(bound) ==>
                resolver.outcome == Rejected(CompilationUnavailable) && requests == old(requests) && sent == old(sent)
      ensures old(bound) ==>
                resolver.outcome == Pending && requests == old(requests) + {resolver}
                && sent == old(sent) + [FinishMessage(resolver, "finish")]
    {
      resolver := Track((r: Resolver) => FinishMessage(r, "finish"));
    }

    method CreateExecution() returns (resolver: Resolver)
      requires Valid()
      modifies this
      ensures Valid() && fresh(resolver) && bound == old(bound)
      ensures !old(bound) ==>
                resolver.outcome == Rejected(CompilationUnavailable) && requests == old(requests) && sent == old(sent)
      ensures old(bound) ==>
                resolver.outcome == Pending && requests == old(requests) + {resolver}
                && sent == old(sent) + [CreateExecutionMessage(resolver)]
    {
      resolver := Track((r: Resolver) => CreateExecutionMessage(r));
    }

    /** The createExecution response: the resolver leaves `requests`; on
        NO_ERROR it resolves with a new, bound Execution, otherwise it is
        rejected with "createExecution fails: <code>". */
    method OnCreateExecution(resolver: Resolver, resultCode: Int32, initParams: ExecutionInitParams)
      returns (execution: Execution?)
      requires Valid() && resolver in requests
      modifies this, resolver
      ensures Valid()
      ensures requests == old(requests) - {resolver} && bound == old(bound) && sent == old(sent)
      ensures resultCode == NO_ERROR ==>
                execution != null && fresh(execution) && execution.bound && execution.requests == {}
                && resolver.outcome == Resolved(NewExecution(execution))
      ensures resultCode != NO_ERROR ==>
                execution == null
                && resolver.outcome == Rejected(DomException(InvalidStateError, "createExecution fails: " + IntToDecimal(resultCode)))
    {
      requests := requests - {resolver};
      if resultCode == NO_ERROR {
        execution := new Execution();
        resolver.Resolve(NewExecution(execution));
      } else {
        execution := null;
        resolver.Reject(DomException(InvalidStateError, "createExecution fails: " + IntToDecimal(resultCode)));
      }
    }

    /** The setPreference and finish responses. */
    method OnResultCode(resolver: Resolver, operationName: string, resultCode: Int32)
      requires Valid() && resolver in requests
      modifies this, resolver
      ensures Valid()
      ensures requests == old(requests) - {resolver} && bound == old(bound) && sent == old(sent)
      ensures resultCode == NO_ERROR ==> resolver.outcome == Resolved(Code(resultCode))
      ensures resultCode != NO_ERROR ==>
                resolver.outcome == Rejected(DomException(InvalidStateError, FailureMessage(operationName, resultCode)))
    {
      requests := requests - {resolver};
      SettleFromCode(resolver, operationName, resultCode, NO_ERROR);
    }

    /** A connection error rejects every pending request, forgets them all
        and resets the pipe. */
    method OnConnectionError()
      requires Valid()
      modifies this, requests
      ensures Valid()
      ensures forall r :: r in old(requests) ==> r.outcome == Rejected(CompilationLost)
      ensures requests == {} && !bound && sent == old(sent)
    {
      RejectAll(requests, CompilationLost);
      requests := {};
      bound := false;
    }
  }
}
