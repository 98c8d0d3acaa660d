/** The request queue of the ARC video decoder in the GPU process
    (components/arc/video_accelerator/gpu_arc_video_decode_accelerator.h):
    Decode, Flush and Reset requests go to the decoder in FIFO order, none
    while a Reset is still running; the callback of every Flush and Reset is
    kept until the decoder reports back, and the protected buffers handed in
    are kept within their bounds. The decoder itself is the environment: its
    NotifyFlushDone, NotifyResetDone and NotifyError calls are inputs. */
module ArcVideoDecode {
  import opened Base

  /** mojom::VideoDecodeAccelerator::Result. */
  datatype Result = Success | IllegalState | InvalidArgument | UnreadableInput | PlatformFailure | InsufficientResources | Cancelled

  /** The result callbacks run with once the decoder has failed. */
  const ErrorResult := IllegalState

  /** A Flush or Reset callback, by identity. */
  type CallbackId = nat

  /** A protected buffer handle, by identity. */
  type Handle = nat

  /** The decoder operation a request stands for. */
  datatype RequestKind = DecodeRequest(bitstreamId: int) | FlushRequest | ResetRequest

  /** A queued request: the operation and its callback, null for Decode. */
  datatype PendingRequest = PendingRequest(kind: RequestKind, callback: Option<CallbackId>)

  /** A callback that has been run, and the result it was given. */
  datatype Completion = Completion(callback: CallbackId, result: Result)

  /** The callback bookkeeping: the queued requests, the callbacks of the
      running Flushes, the callback of the running Reset, the error flag,
      and, as observations, the operations sent to the decoder and the
      callbacks run so far. */
  datatype DecoderState = DecoderState(
    pendingRequests: seq<PendingRequest>,
    pendingFlushCallbacks: seq<CallbackId>,
    pendingResetCallback: Option<CallbackId>,
    errorState: bool,
    executed: seq<RequestKind>,
    completed: seq<Completion>)

  /** Decode carries no callback; Flush and Reset carry one. */
  predicate WellFormed(r: PendingRequest) {
    r.callback.None? <==> r.kind.DecodeRequest?
  }

  predicate WellFormedQueue(q: seq<PendingRequest>) {
    forall i :: 0 <= i < |q| ==> WellFormed(q[i])
  }

  /** Requests wait only behind a running Reset, and after an error nothing
      waits at all. */
  predicate ValidState(s: DecoderState) {
    && WellFormedQueue(s.pendingRequests)
    && (s.pendingRequests != [] ==> s.pendingResetCallback.Some?)
    && (s.errorState ==> s.pendingRequests == [] && s.pendingFlushCallbacks == [] && s.pendingResetCallback.None?)
  }

  function RunWith(callback: Option<CallbackId>, result: Result): seq<Completion> {
    if callback.Some? then [Completion(callback.value, result)] else []
  }

  /** ExecuteRequest: after an error the callback runs with the error at
      once; while a Reset runs the request waits at the back of the queue;
      otherwise the operation goes to the decoder, a Flush callback joins the
      running Flushes and a Reset callback becomes the running Reset's. */
  function Execute(s: DecoderState, r: PendingRequest): (t: DecoderState)
    ensures s.pendingResetCallback.None? || s.errorState ==> t.pendingRequests == s.pendingRequests
    ensures !s.errorState && s.pendingResetCallback.Some? ==>
              t == s.(pendingRequests := s.pendingRequests + [r])
    ensures t.errorState == s.errorState
  {
    if s.errorState then
      s.(completed := s.completed + RunWith(r.callback, ErrorResult))
    else if s.pendingResetCallback.Some? then
      s.(pendingRequests := s.pendingRequests + [r])
    else
      match r.kind
      case DecodeRequest(_) => s.(executed := s.executed + [r.kind])
      case FlushRequest =>
        s.(executed := s.executed + [r.kind],
           pendingFlushCallbacks := s.pendingFlushCallbacks + (if r.callback.Some? then [r.callback.value] else []))
      case ResetRequest =>
        s.(executed := s.executed + [r.kind], pendingResetCallback := r.callback)
  }

  /** RunPendingRequests: queued requests run in order until the queue is
      empty or a Reset is running again. */
  function RunPending(s: DecoderState): (t: DecoderState)
    ensures t.errorState == s.errorState
    decreases |s.pendingRequests|
  {
    if s.pendingRequests == [] || s.pendingResetCallback.Some? then s
    else RunPending(Execute(s.(pendingRequests := s.pendingRequests[1..]), s.pendingRequests[0]))
  }

  /** Callbacks run with one result, in order. */
  function RunAll(callbacks: seq<CallbackId>, result: Result): (r: seq<Completion>)
    ensures |r| == |callbacks|
    ensures forall i :: 0 <= i < |r| ==> r[i] == Completion(callbacks[i], result)
  {
    seq(|callbacks|, i requires 0 <= i < |callbacks| => Completion(callbacks[i], result))
  }

  function QueuedCallbacks(q: seq<PendingRequest>): seq<CallbackId> {
    if q == [] then [] else (if q[0].callback.Some? then [q[0].callback.value] else []) + QueuedCallbacks(q[1..])
  }

  /** NotifyFlushDone: the oldest running Flush has succeeded. */
  function FlushDone(s: DecoderState): DecoderState {
    if s.pendingFlushCallbacks == [] then s
    else s.(pendingFlushCallbacks := s.pendingFlushCallbacks[1..],
            completed := s.completed + [Completion(s.pendingFlushCallbacks[0], Success)])
  }

  /** NotifyResetDone: the Flushes the Reset cut short are cancelled, in
      order, then the Reset succeeds and the queued requests run again. */
  function ResetDone(s: DecoderState): DecoderState {
    if s.pendingResetCallback.None? then s
    else RunPending(s.(pendingFlushCallbacks := [],
                       pendingResetCallback := None,
                       completed := s.completed + RunAll(s.pendingFlushCallbacks, Cancelled)
                                    + [Completion(s.pendingResetCallback.value, Success)]))
  }

  /** NotifyError: the decoder has failed; every pending callback runs with
      the error (running Flushes, the running Reset, then the queue) and
      nothing is pending any more. */
  function ErrorNotified(s: DecoderState): DecoderState {
    s.(errorState := true,
       pendingRequests := [],
       pendingFlushCallbacks := [],
       pendingResetCallback := None,
       completed := s.completed + RunAll(s.pendingFlushCallbacks, ErrorResult)
                    + RunWith(s.pendingResetCallback, ErrorResult)
                    + RunAll(QueuedCallbacks(s.pendingRequests), ErrorResult))
  }

  // ----- Properties of the queue -----

  /** While a Reset runs, a new request of any kind waits at the back of the
      queue and nothing reaches the decoder. */
  lemma QueuedBehindReset(s: DecoderState, r: PendingRequest)
    requires !s.errorState && s.pendingResetCallback.Some?
    ensures Execute(s, r).pendingRequests == s.pendingRequests + [r]
    ensures Execute(s, r).executed == s.executed
    ensures Execute(s, r).pendingResetCallback == s.pendingResetCallback
  {
  }

  /** The index of the first Reset in the queue, or its length. */
  function FirstReset(q: seq<PendingRequest>): (j: nat)
    ensures j <= |q|
    ensures forall i :: 0 <= i < j ==> !q[i].kind.ResetRequest?
    ensures j < |q| ==> q[j].kind.ResetRequest?
  {
    if q == [] then 0
    else if q[0].kind.ResetRequest? then 0
    else 1 + FirstReset(q[1..])
  }

  function Kinds(q: seq<PendingRequest>): (r: seq<RequestKind>)
    ensures |r| == |q|
    ensures forall i :: 0 <= i < |q| ==> r[i] == q[i].kind
  {
    seq(|q|, i requires 0 <= i < |q| => q[i].kind)
  }

  /** The number of requests RunPending runs: up to and including the first
      Reset. */
  function Ran(q: seq<PendingRequest>): nat {
    if FirstReset(q) < |q| then FirstReset(q) + 1 else |q|
  }

  lemma KindsCons(q: seq<PendingRequest>, n: nat)
    requires 1 <= n <= |q|
    ensures Kinds(q[..n]) == [q[0].kind] + Kinds(q[1..][..n - 1])
  {
    assert forall i :: 1 <= i < n ==> q[..n][i] == q[1..][..n - 1][i - 1];
  }

  lemma KindsAfter(e: seq<RequestKind>, q: seq<PendingRequest>, n: nat)
    requires 1 <= n <= |q|
    ensures e + [q[0].kind] + Kinds(q[1..][..n - 1]) == e + Kinds(q[..n])
  {
    KindsCons(q, n);
  }

  lemma TailWellFormed(q: seq<PendingRequest>)
    requires q != [] && WellFormedQueue(q)
    ensures WellFormed(q[0]) && WellFormedQueue(q[1..])
  {
    assert forall i :: 0 <= i < |q[1..]| ==> q[1..][i] == q[i + 1];
  }

  /** One step of RunPending past a request that is not a Reset. */
  lemma RunPendingStep(s: DecoderState)
    requires !s.errorState && s.pendingResetCallback.None?
    requires s.pendingRequests != [] && !s.pendingRequests[0].kind.ResetRequest?
    ensures var q := s.pendingRequests;
            var next := Execute(s.(pendingRequests := q[1..]), q[0]);
            && RunPending(s) == RunPending(next)
            && next.executed == s.executed + [q[0].kind]
            && next.pendingRequests == q[1..]
            && next.pendingResetCallback.None? && !next.errorState
            && FirstReset(q) == 1 + FirstReset(q[1..])
            && Ran(q) == 1 + Ran(q[1..])
  {
  }

  /** RunPending with a Reset at the head of the queue runs that Reset alone. */
  lemma RunPendingAtReset(s: DecoderState)
    requires !s.errorState && s.pendingResetCallback.None? && WellFormedQueue(s.pendingRequests)
    requires s.pendingRequests != [] && s.pendingRequests[0].kind.ResetRequest?
    ensures Ran(s.pendingRequests) == 1
    ensures RunPending(s).executed == s.executed + [s.pendingRequests[0].kind]
  {
    var q := s.pendingRequests;
    TailWellFormed(q);
    var next := Execute(s.(pendingRequests := q[1..]), q[0]);
    assert next.pendingResetCallback.Some?;
    assert RunPending(next) == next;
  }

  /** With no Reset running, RunPending sends the queued operations to the
      decoder in order, up to and including the first Reset. */
  lemma {:induction false} RunPendingExecutes(s: DecoderState)
    requires !s.errorState && s.pendingResetCallback.None? && WellFormedQueue(s.pendingRequests)
    ensures Ran(s.pendingRequests) <= |s.pendingRequests|
    ensures RunPending(s).executed == s.executed + Kinds(s.pendingRequests[..Ran(s.pendingRequests)])
    decreases |s.pendingRequests|
  {
    var q := s.pendingRequests;
    if q == [] {
      assert Kinds(q[..0]) == [];
    } else if q[0].kind.ResetRequest? {
      RunPendingAtReset(s);
      assert Kinds(q[..1]) == [q[0].kind];
    } else {
      TailWellFormed(q);
      RunPendingStep(s);
      var next := Execute(s.(pendingRequests := q[1..]), q[0]);
      RunPendingExecutes(next);
      KindsAfter(s.executed, q, Ran(q));
    }
  }

  /** The requests after the first Reset stay queued, and that Reset is the
      one running afterwards; with no Reset queued, none runs. */
  lemma {:induction false} RunPendingStopsAtReset(s: DecoderState)
    requires !s.errorState && s.pendingResetCallback.None? && WellFormedQueue(s.pendingRequests)
    ensures var q := s.pendingRequests;
            && Ran(q) <= |q|
            && RunPending(s).pendingRequests == q[Ran(q)..]
            && (FirstReset(q) < |q| ==> RunPending(s).pendingResetCallback == q[FirstReset(q)].callback)
            && (FirstReset(q) == |q| ==> RunPending(s).pendingResetCallback.None?)
    decreases |s.pendingRequests|
  {
    var q := s.pendingRequests;
    if q != [] {
      TailWellFormed(q);
      if !q[0].kind.ResetRequest? {
        RunPendingStep(s);
        var next := Execute(s.(pendingRequests := q[1..]), q[0]);
        RunPendingStopsAtReset(next);
        assert q[1..][Ran(q[1..])..] == q[Ran(q)..];
      }
    }
  }

  // ----- Callback accounting: no callback is lost or run twice -----

  /** The callbacks still to be run. */
  function Outstanding(s: DecoderState): multiset<CallbackId> {
    multiset(QueuedCallbacks(s.pendingRequests)) + multiset(s.pendingFlushCallbacks)
    + multiset(if s.pendingResetCallback.Some? then [s.pendingResetCallback.value] else [])
  }

  function Delivered(cs: seq<Completion>): multiset<CallbackId> {
    if cs == [] then multiset{} else multiset{cs[0].callback} + Delivered(cs[1..])
  }

  /** Every callback handed in: those still pending and those already run,
      each counted as often as it occurs. */
  function Accounted(s: DecoderState): multiset<CallbackId> {
    Outstanding(s) + Delivered(s.completed)
  }

  lemma {:induction false} DeliveredAppend(a: seq<Completion>, b: seq<Completion>)
    ensures Delivered(a + b) == Delivered(a) + Delivered(b)
  {
    if a == [] {
      assert a + b == b;
    } else {
      assert (a + b)[1..] == a[1..] + b;
      DeliveredAppend(a[1..], b);
    }
  }

  lemma {:induction false} DeliveredRunAll(callbacks: seq<CallbackId>, result: Result)
    ensures Delivered(RunAll(callbacks, result)) == multiset(callbacks)
  {
    if callbacks != [] {
      assert RunAll(callbacks, result)[1..] == RunAll(callbacks[1..], result);
      DeliveredRunAll(callbacks[1..], result);
      assert callbacks == [callbacks[0]] + callbacks[1..];
    }
  }

  lemma {:induction false} QueuedCallbacksAppend(q: seq<PendingRequest>, r: PendingRequest)
    ensures multiset(QueuedCallbacks(q + [r])) == multiset(QueuedCallbacks(q)) + multiset(RunWithIds(r.callback))
  {
    if q == [] {
      assert [] + [r] == [r];
      assert [r][1..] == [];
    } else {
      assert (q + [r])[1..] == q[1..] + [r];
      QueuedCallbacksAppend(q[1..], r);
    }
  }

  function RunWithIds(callback: Option<CallbackId>): seq<CallbackId> {
    if callback.Some? then [callback.value] else []
  }

  lemma ExecuteAccountsAfterError(s: DecoderState, r: PendingRequest)
    requires s.errorState
    ensures Accounted(Execute(s, r)) == Accounted(s) + multiset(RunWithIds(r.callback))
  {
    var t := Execute(s, r);
    assert Outstanding(t) == Outstanding(s);
    DeliveredAppend(s.completed, RunWith(r.callback, ErrorResult));
    DeliveredReset(r.callback);
    assert Delivered(t.completed) == Delivered(s.completed) + multiset(RunWithIds(r.callback));
  }

  lemma ExecuteAccountsQueued(s: DecoderState, r: PendingRequest)
    requires !s.errorState && s.pendingResetCallback.Some?
    ensures Accounted(Execute(s, r)) == Accounted(s) + multiset(RunWithIds(r.callback))
  {
    var t := Execute(s, r);
    assert t.completed == s.completed;
    QueuedCallbacksAppend(s.pendingRequests, r);
    assert Outstanding(t) == Outstanding(s) + multiset(RunWithIds(r.callback));
  }

  lemma ExecuteAccountsRun(s: DecoderState, r: PendingRequest)
    requires WellFormed(r) && !s.errorState && s.pendingResetCallback.None?
    ensures Accounted(Execute(s, r)) == Accounted(s) + multiset(RunWithIds(r.callback))
  {
    var t := Execute(s, r);
    assert t.completed == s.completed && t.pendingRequests == s.pendingRequests;
    match r.kind
    case DecodeRequest(_) =>
      assert RunWithIds(r.callback) == [];
    case FlushRequest =>
      assert t.pendingFlushCallbacks == s.pendingFlushCallbacks + RunWithIds(r.callback);
    case ResetRequest =>
      assert t.pendingResetCallback == r.callback;
  }

  /** Executing a request adds exactly its own callback to the account. */
  lemma ExecuteAccounts(s: DecoderState, r: PendingRequest)
    requires WellFormed(r)
    ensures Accounted(Execute(s, r)) == Accounted(s) + multiset(RunWithIds(r.callback))
  {
    if s.errorState {
      ExecuteAccountsAfterError(s, r);
    } else if s.pendingResetCallback.Some? {
      ExecuteAccountsQueued(s, r);
    } else {
      ExecuteAccountsRun(s, r);
    }
  }

  lemma DeliveredReset(callback: Option<CallbackId>)
    ensures Delivered(RunWith(callback, ErrorResult)) == multiset(RunWithIds(callback))
  {
    if callback.Some? {
      assert RunWith(callback, ErrorResult)[1..] == [];
    }
  }

  lemma {:induction false} RunPendingAccounts(s: DecoderState)
    requires WellFormedQueue(s.pendingRequests)
    ensures Accounted(RunPending(s)) == Accounted(s)
    decreases |s.pendingRequests|
  {
    var q := s.pendingRequests;
    if q != [] && s.pendingResetCallback.None? {
      var popped := s.(pendingRequests := q[1..]);
      TailWellFormed(q);
      ExecuteAccounts(popped, q[0]);
      assert QueuedCallbacks(q) == RunWithIds(q[0].callback) + QueuedCallbacks(q[1..]);
      assert Accounted(s) == Accounted(popped) + multiset(RunWithIds(q[0].callback));
      var next := Execute(popped, q[0]);
      assert next.pendingRequests == q[1..];
      RunPendingAccounts(next);
      assert RunPending(s) == RunPending(next);
    }
  }

  /** A Flush done hands its callback from pending to run. */
  lemma FlushDoneAccounts(s: DecoderState)
    ensures Accounted(FlushDone(s)) == Accounted(s)
  {
    if s.pendingFlushCallbacks != [] {
      var f := s.pendingFlushCallbacks;
      assert f == [f[0]] + f[1..];
      DeliveredAppend(s.completed, [Completion(f[0], Success)]);
    }
  }

  /** A Reset done hands the Reset and the cancelled Flushes from pending to
      run, and the requests it releases account for themselves. */
  lemma ResetDoneAccounts(s: DecoderState)
    requires WellFormedQueue(s.pendingRequests)
    ensures Accounted(ResetDone(s)) == Accounted(s)
  {
    if s.pendingResetCallback.Some? {
      var cancelled := RunAll(s.pendingFlushCallbacks, Cancelled);
      var done := [Completion(s.pendingResetCallback.value, Success)];
      DeliveredAppend(s.completed + cancelled, done);
      DeliveredAppend(s.completed, cancelled);
      DeliveredRunAll(s.pendingFlushCallbacks, Cancelled);
      var released := s.(pendingFlushCallbacks := [],
                         pendingResetCallback := None,
                         completed := s.completed + cancelled + done);
      RunPendingAccounts(released);
    }
  }

  /** An error runs every pending callback once. */
  lemma ErrorAccounts(s: DecoderState)
    ensures Accounted(ErrorNotified(s)) == Accounted(s)
    ensures Outstanding(ErrorNotified(s)) == multiset{}
  {
    var flushes := RunAll(s.pendingFlushCallbacks, ErrorResult);
    var reset := RunWith(s.pendingResetCallback, ErrorResult);
    var queued := RunAll(QueuedCallbacks(s.pendingRequests), ErrorResult);
    var c1 := s.completed + flushes;
    var c2 := c1 + reset;
    var c3 := c2 + queued;
    DeliveredAppend(s.completed, flushes);
    DeliveredRunAll(s.pendingFlushCallbacks, ErrorResult);
    assert Delivered(c1) == Delivered(s.completed) + multiset(s.pendingFlushCallbacks);
    DeliveredAppend(c1, reset);
    DeliveredReset(s.pendingResetCallback);
    assert Delivered(c2) == Delivered(c1) + multiset(RunWithIds(s.pendingResetCallback));
    DeliveredAppend(c2, queued);
    DeliveredRunAll(QueuedCallbacks(s.pendingRequests), ErrorResult);
    assert Delivered(c3) == Delivered(c2) + multiset(QueuedCallbacks(s.pendingRequests));
    var t := ErrorNotified(s);
    assert t.completed == c3;
    assert Outstanding(t) == multiset{};
  }

  // ----- The invariant -----

  lemma ExecuteKeepsValid(s: DecoderState, r: PendingRequest)
    requires ValidState(s) && WellFormed(r)
    ensures ValidState(Execute(s, r))
  {
    var t := Execute(s, r);
    assert WellFormedQueue(t.pendingRequests) by {
      if !s.errorState && s.pendingResetCallback.Some? {
        assert forall i :: 0 <= i < |s.pendingRequests| ==> t.pendingRequests[i] == s.pendingRequests[i];
      }
    }
  }

  /** RunPending stops only with an empty queue or a running Reset. */
  lemma {:induction false} RunPendingKeepsValid(s: DecoderState)
    requires WellFormedQueue(s.pendingRequests)
    requires s.errorState ==> s.pendingRequests == [] && s.pendingFlushCallbacks == [] && s.pendingResetCallback.None?
    ensures ValidState(RunPending(s))
    decreases |s.pendingRequests|
  {
    var q := s.pendingRequests;
    if q != [] && s.pendingResetCallback.None? {
      var popped := s.(pendingRequests := q[1..]);
      assert WellFormedQueue(q[1..]) by {
        assert forall i :: 0 <= i < |q[1..]| ==> q[1..][i] == q[i + 1];
      }
      assert WellFormed(q[0]);
      RunPendingKeepsValid(Execute(popped, q[0]));
    }
  }

  lemma FlushDoneKeepsValid(s: DecoderState)
    requires ValidState(s)
    ensures ValidState(FlushDone(s))
  {
  }

  lemma ResetDoneKeepsValid(s: DecoderState)
    requires ValidState(s)
    ensures ValidState(ResetDone(s))
  {
    if s.pendingResetCallback.Some? {
      RunPendingKeepsValid(s.(pendingFlushCallbacks := [],
                              pendingResetCallback := None,
                              completed := s.completed + RunAll(s.pendingFlushCallbacks, Cancelled)
                                           + [Completion(s.pendingResetCallback.value, Success)]));
    }
  }

  /** At NotifyResetDone the running Flushes complete with CANCELLED, in the
      order they were issued, before the Reset completes. */
  lemma ResetDoneCancelsFlushes(s: DecoderState)
    requires ValidState(s) && s.pendingResetCallback.Some?
    ensures var t := ResetDone(s);
            var n := |s.completed| + |s.pendingFlushCallbacks|;
            && |t.completed| > n
            && t.completed[..n] == s.completed + RunAll(s.pendingFlushCallbacks, Cancelled)
            && t.completed[n] == Completion(s.pendingResetCallback.value, Success)
  {
    var cancelled := RunAll(s.pendingFlushCallbacks, Cancelled);
    var done := [Completion(s.pendingResetCallback.value, Success)];
    var released := s.(pendingFlushCallbacks := [],
                       pendingResetCallback := None,
                       completed := s.completed + cancelled + done);
    RunPendingOnlyAppends(released);
  }

  /** RunPending only appends to the callbacks run. */
  lemma {:induction false} RunPendingOnlyAppends(s: DecoderState)
    ensures |RunPending(s).completed| >= |s.completed|
    ensures RunPending(s).completed[..|s.completed|] == s.completed
    decreases |s.pendingRequests|
  {
    var q := s.pendingRequests;
    if q != [] && s.pendingResetCallback.None? {
      var next := Execute(s.(pendingRequests := q[1..]), q[0]);
      RunPendingOnlyAppends(next);
      assert next.completed[..|s.completed|] == s.completed;
      assert RunPending(s).completed[..|next.completed|][..|s.completed|] == RunPending(s).completed[..|s.completed|];
    }
  }

  class GpuArcVideoDecodeAccelerator {
    var pendingRequests: seq<PendingRequest>
    var pendingFlushCallbacks: seq<CallbackId>
    var pendingResetCallback: Option<CallbackId>
    var errorState: bool
    var executed: seq<RequestKind>
    var completed: seq<Completion>
    var outputBufferCount: nat
    var protectedInputHandles: seq<Handle>
    /** Indexed by picture buffer id; None for a slot not yet imported. */
    var protectedOutputHandles: seq<Option<Handle>>
    /** kMaxProtectedInputBuffers. */
    const maxProtectedInputBuffers: nat

    function State(): DecoderState
      reads this
    {
      DecoderState(pendingRequests, pendingFlushCallbacks, pendingResetCallback, errorState, executed, completed)
    }

    /** The queue invariant, and the protected buffers within their bounds. */
    predicate Valid()
      reads this
    {
      && ValidState(State())
      && |protectedInputHandles| <= maxProtectedInputBuffers
      && |protectedOutputHandles| <= outputBufferCount
    }

    constructor (maxInputBuffers: nat)
      ensures Valid() && maxProtectedInputBuffers == maxInputBuffers
      ensures State() == DecoderState([], [], None, false, [], [])
      ensures outputBufferCount == 0 && protectedInputHandles == [] && protectedOutputHandles == []
    {
      pendingRequests := [];
      pendingFlushCallbacks := [];
      pendingResetCallback := None;
      errorState := false;
      executed := [];
      completed := [];
      outputBufferCount := 0;
      protectedInputHandles := [];
      protectedOutputHandles := [];
      maxProtectedInputBuffers := maxInputBuffers;
    }

    method ExecuteRequest(r: PendingRequest)
      modifies this`pendingRequests, this`pendingFlushCallbacks, this`pendingResetCallback, this`executed, this`completed
      ensures State() == Execute(old(State()), r)
    {
      if errorState {
        completed := completed + RunWith(r.callback, ErrorResult);
        return;
      }
      if pendingResetCallback.Some? {
        pendingRequests := pendingRequests + [r];
        return;
      }
      match r.kind {
        case DecodeRequest(_) =>
          executed := executed + [r.kind];
        case FlushRequest =>
          executed := executed + [r.kind];
          pendingFlushCallbacks := pendingFlushCallbacks + (if r.callback.Some? then [r.callback.value] else []);
        case ResetRequest =>
          executed := executed + [r.kind];
          pendingResetCallback := r.callback;
      }
    }

    method RunPendingRequests()
      modifies this`pendingRequests, this`pendingFlushCallbacks, this`pendingResetCallback, this`executed, this`completed
      ensures State() == RunPending(old(State()))
    {
      while pendingRequests != [] && pendingResetCallback.None?
        invariant RunPending(State()) == RunPending(old(State()))
        decreases |pendingRequests|
      {
        var r := pendingRequests[0];
        pendingRequests := pendingRequests[1..];
        ExecuteRequest(r);
      }
    }

    /** Decode: a request without callback. */
    method Decode(bitstreamId: int)
      requires Valid()
      modifies this`pendingRequests, this`pendingFlushCallbacks, this`pendingResetCallback, this`executed, this`completed
      ensures Valid()
      ensures State() == Execute(old(State()), PendingRequest(DecodeRequest(bitstreamId), None))
    {
      ExecuteKeepsValid(State(), PendingRequest(DecodeRequest(bitstreamId), None));
      ExecuteRequest(PendingRequest(DecodeRequest(bitstreamId), None));
    }

    method Flush(callback: CallbackId)
      requires Valid()
      modifies this`pendingRequests, this`pendingFlushCallbacks, this`pendingResetCallback, this`executed, this`completed
      ensures Valid()
      ensures State() == Execute(old(State()), PendingRequest(FlushRequest, Some(callback)))
    {
      ExecuteKeepsValid(State(), PendingRequest(FlushRequest, Some(callback)));
      ExecuteRequest(PendingRequest(FlushRequest, Some(callback)));
    }

    method Reset(callback: CallbackId)
      requires Valid()
      modifies this`pendingRequests, this`pendingFlushCallbacks, this`pendingResetCallback, this`executed, this`completed
      ensures Valid()
      ensures State() == Execute(old(State()), PendingRequest(ResetRequest, Some(callback)))
    {
      ExecuteKeepsValid(State(), PendingRequest(ResetRequest, Some(callback)));
      ExecuteRequest(PendingRequest(ResetRequest, Some(callback)));
    }

    method NotifyFlushDone()
      requires Valid()
      modifies this`pendingFlushCallbacks, this`completed
      ensures Valid()
      ensures State() == FlushDone(old(State()))
    {
      if pendingFlushCallbacks != [] {
        completed := completed + [Completion(pendingFlushCallbacks[0], Success)];
        pendingFlushCallbacks := pendingFlushCallbacks[1..];
      }
    }

    method NotifyResetDone()
      requires Valid()
      modifies this`pendingRequests, this`pendingFlushCallbacks, this`pendingResetCallback, this`executed, this`completed
      ensures Valid()
      ensures State() == ResetDone(old(State()))
    {
      ResetDoneKeepsValid(State());
      if pendingResetCallback.Some? {
        completed := completed + RunAll(pendingFlushCallbacks, Cancelled) + [Completion(pendingResetCallback.value, Success)];
        pendingFlushCallbacks := [];
        pendingResetCallback := None;
        RunPendingRequests();
      }
    }

    method NotifyError()
      requires Valid()
      modifies this`pendingRequests, this`pendingFlushCallbacks, this`pendingResetCallback, this`errorState, this`completed
      ensures Valid()
      ensures State() == ErrorNotified(old(State()))
    {
      errorState := true;
      completed := completed + RunAll(pendingFlushCallbacks, ErrorResult)
                   + RunWith(pendingResetCallback, ErrorResult)
                   + RunAll(QueuedCallbacks(pendingRequests), ErrorResult);
      pendingRequests := [];
      pendingFlushCallbacks := [];
      pendingResetCallback := None;
    }

    /** AllocateProtectedBuffer: refused once kMaxProtectedInputBuffers
        handles are held. */
    method AllocateProtectedBuffer(handle: Handle) returns (ok: bool)
      requires Valid()
      modifies this`protectedInputHandles
      ensures Valid()
      ensures ok <==> |old(protectedInputHandles)| < maxProtectedInputBuffers
      ensures ok ==> protectedInputHandles == old(protectedInputHandles) + [handle]
      ensures !ok ==> protectedInputHandles == old(protectedInputHandles)
    {
      if |protectedInputHandles| >= maxProtectedInputBuffers {
        return false;
      }
      protectedInputHandles := protectedInputHandles + [handle];
      ok := true;
    }

    /** AssignPictureBuffers: the output buffer count, and as many empty
        protected output slots. */
    method AssignPictureBuffers(count: nat)
      requires Valid()
      modifies this`outputBufferCount, this`protectedOutputHandles
      ensures Valid()
      ensures outputBufferCount == count
      ensures protectedOutputHandles == seq(count, _ => None)
    {
      outputBufferCount := count;
      protectedOutputHandles := seq(count, _ => None);
    }

    /** ImportBufferForPicture: a handle for a picture buffer id below the
        assigned count; any other id is refused. */
    method ImportBufferForPicture(pictureBufferId: int, handle: Handle) returns (ok: bool)
      requires Valid()
      modifies this`protectedOutputHandles
      ensures Valid()
      ensures ok <==> 0 <= pictureBufferId < |old(protectedOutputHandles)|
      ensures ok ==> protectedOutputHandles == old(protectedOutputHandles)[pictureBufferId := Some(handle)]
      ensures !ok ==> protectedOutputHandles == old(protectedOutputHandles)
    {
      if pictureBufferId < 0 || pictureBufferId >= |protectedOutputHandles| {
        return false;
      }
      protectedOutputHandles := protectedOutputHandles[pictureBufferId := Some(handle)];
      ok := true;
    }
  }
}
