/** The Blink binding objects the neural-network client classes use:
    DOMException values, typed-array views over byte arrays, and promise
    resolvers whose settlement is recorded. */
module BlinkBindings {
  import opened Base

  datatype ExceptionCode = InvalidStateError | NotSupportedError

  datatype DomException = DomException(code: ExceptionCode, message: string)

  /** The element type of a DOMArrayBufferView. */
  datatype ViewType =
    | ViewInt8 | ViewUint8 | ViewUint8Clamped | ViewInt16 | ViewUint16
    | ViewInt32 | ViewUint32 | ViewFloat32 | ViewFloat64 | ViewDataView

  /** A DOMArrayBufferView: its element type and the bytes it covers. The
      bytes live in an array so that script can change them between calls. */
  datatype View = View(kind: ViewType, data: array<Byte>)

  /** What a promise was resolved with. */
  datatype Value = Code(code: Int32) | NewExecution(execution: object)

  datatype Outcome = Pending | Resolved(value: Value) | Rejected(error: DomException)

  /** A ScriptPromiseResolver: the first Resolve or Reject settles it, later
      ones are ignored. */
  class Resolver {
    var outcome: Outcome

    constructor ()
      ensures outcome == Pending
    {
      outcome := Pending;
    }

    method Resolve(value: Value)
      modifies this
      ensures old(outcome).Pending? ==> outcome == Resolved(value)
      ensures !old(outcome).Pending? ==> outcome == old(outcome)
    {
      if outcome.Pending? {
        outcome := Resolved(value);
      }
    }

    method Reject(error: DomException)
      modifies this
      ensures old(outcome).Pending? ==> outcome == Rejected(error)
      ensures !old(outcome).Pending? ==> outcome == old(outcome)
    {
      if outcome.Pending? {
        outcome := Rejected(error);
      }
    }
  }

  /** The message of a failed request: the operation label, "fails: " and
      the result code in decimal. */
  function FailureMessage(operation: string, code: Int32): string {
    operation + "fails: " + IntToDecimal(code)
  }

  /** The message names the operation first and ends with the code. */
  lemma FailureMessageShape(operation: string, code: Int32)
    ensures var m := FailureMessage(operation, code);
              |m| > |operation| + 7 && m[..|operation|] == operation
              && m[|operation|..|operation| + 7] == "fails: "
              && m[|operation| + 7..] == IntToDecimal(code)
  {
  }

  /** Settles a resolver from a result code, as OnResultCode does: NO_ERROR
      (passed as `noError`) resolves with the code, anything else rejects
      with InvalidStateError. */
  method SettleFromCode(resolver: Resolver, operation: string, code: Int32, noError: Int32)
    modifies resolver
    ensures old(resolver.outcome).Pending? && code == noError ==> resolver.outcome == Resolved(Code(code))
    ensures old(resolver.outcome).Pending? && code != noError ==>
              resolver.outcome == Rejected(DomException(InvalidStateError, FailureMessage(operation, code)))
    ensures !old(resolver.outcome).Pending? ==> resolver.outcome == old(resolver.outcome)
  {
    if code == noError {
      resolver.Resolve(Code(code));
    } else {
      resolver.Reject(DomException(InvalidStateError, FailureMessage(operation, code)));
    }
  }

  /** The loop of OnConnectionError: rejects every resolver of the set with
      the same exception, in whatever order the set yields them. */
  method RejectAll(requests: set<Resolver>, error: DomException)
    modifies requests
    ensures forall r :: r in requests && old(r.outcome).Pending? ==> r.outcome == Rejected(error)
    ensures forall r :: r in requests && !old(r.outcome).Pending? ==> r.outcome == old(r.outcome)
  {
    var rest := requests;
    while rest != {}
      invariant rest <= requests
      invariant forall r :: r in requests - rest && old(r.outcome).Pending? ==> r.outcome == Rejected(error)
      invariant forall r :: r in requests - rest && !old(r.outcome).Pending? ==> r.outcome == old(r.outcome)
      invariant forall r :: r in rest ==> r.outcome == old(r.outcome)
      decreases rest
    {
      var r :| r in rest;
      r.Reject(error);
      rest := rest - {r};
    }
  }
}
