/** The shadow page behind a worker
    (third_party/WebKit/Source/core/exported/WorkerShadowPage.cpp): a
    three-state lifecycle advanced only forward, one step at a time. */
module WorkerShadowPage {
  import opened Base

  datatype State = Uninitialized | Initializing | Initialized

  /** The transitions AdvanceState accepts: never back to Uninitialized,
      Initializing only from Uninitialized, Initialized only from
      Initializing. */
  predicate CanAdvance(from: State, to: State)
    ensures CanAdvance(from, to) ==> to != Uninitialized && from != Initialized
  {
    match to
    case Uninitialized => false
    case Initializing => from == Uninitialized
    case Initialized => from == Initializing
  }

  function Rank(s: State): nat {
    match s
    case Uninitialized => 0
    case Initializing => 1
    case Initialized => 2
  }

  /** Each accepted transition moves exactly one step forward. */
  lemma AdvanceIsOneStep(from: State, to: State)
    ensures CanAdvance(from, to) <==> Rank(to) == Rank(from) + 1
  {
  }

  /** The state after a run of AdvanceState calls, or None when one of them
      is not accepted. */
  function Run(start: State, targets: seq<State>): (r: Option<State>)
    ensures r.Some? ==> Rank(r.value) == Rank(start) + |targets|
    decreases |targets|
  {
    if targets == [] then Some(start)
    else if CanAdvance(start, targets[0]) then
      AdvanceIsOneStep(start, targets[0]);
      Run(targets[0], targets[1..])
    else None
  }

  /** The only accepted run from a new page to an initialised one is
      Initialize followed by DidFinishDocumentLoad. */
  lemma {:induction false} OnlyWayToInitialized(targets: seq<State>)
    ensures Run(Uninitialized, targets) == Some(Initialized) <==> targets == [Initializing, Initialized]
  {
    if Run(Uninitialized, targets) == Some(Initialized) {
      assert |targets| == 2;
      assert targets[0] == Initializing;
      assert Run(Initializing, targets[1..]) == Some(Initialized);
      assert targets[1..][0] == Initialized;
      assert targets == [targets[0], targets[1]];
    }
    if targets == [Initializing, Initialized] {
      assert targets[1..] == [Initialized];
      assert targets[1..][1..] == [];
      assert Run(Initialized, []) == Some(Initialized);
      assert Run(Initializing, [Initialized]) == Some(Initialized);
    }
  }

  class WorkerShadowPage {
    var state: State
    /** The script URLs whose load was started. */
    var loads: seq<string>
    /** The state seen by each OnShadowPageInitialized notification. */
    var notifiedStates: seq<State>

    constructor ()
      ensures state == Uninitialized && loads == [] && notifiedStates == []
    {
      state := Uninitialized;
      loads := [];
      notifiedStates := [];
    }

    /** AdvanceState: the accepted transitions only. */
    method AdvanceState(newState: State)
      requires CanAdvance(state, newState)
      modifies this`state
      ensures state == newState
    {
      state := newState;
    }

    /** Initialize: to Initializing, then load the script URL. */
    method Initialize(scriptUrl: string)
      requires state == Uninitialized
      modifies this`state, this`loads
      ensures state == Initializing && loads == old(loads) + [scriptUrl]
    {
      AdvanceState(Initializing);
      loads := loads + [scriptUrl];
    }

    /** DidFinishDocumentLoad: to Initialized before the client hears of it. */
    method DidFinishDocumentLoad()
      requires state == Initializing
      modifies this`state, this`notifiedStates
      ensures state == Initialized && notifiedStates == old(notifiedStates) + [Initialized]
    {
      AdvanceState(Initialized);
      notifiedStates := notifiedStates + [state];
    }

    /** WasInitialized: the final state, from which no transition is
        accepted. */
    predicate WasInitialized()
      reads this
      ensures WasInitialized() <==> forall to :: !CanAdvance(state, to)
    {
      assert state == Uninitialized ==> CanAdvance(state, Initializing);
      assert state == Initializing ==> CanAdvance(state, Initialized);
      state == Initialized
    }
  }
}
