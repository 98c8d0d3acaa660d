/** The DevTools agent host of a shared worker
    (content/browser/devtools/shared_worker_devtools_agent_host.cc): the
    worker's lifecycle, the agent created on demand once the worker is ready,
    and protocol messages that fall through to the agent, remembered until
    the worker is ready and then dispatched again. DevTools sessions are
    records the host updates; the protocol dispatcher of a session is an
    input. */
module SharedWorkerDevTools {
  import opened Base

  datatype WorkerState = WorkerNotReady | WorkerReady | WorkerTerminated

  /** The SharedWorkerHost: the id of the renderer process it runs in. */
  datatype WorkerHost = WorkerHost(processId: int)

  /** The handlers AttachSession installs. */
  datatype Handler = InspectorHandler | NetworkHandler | SchemaHandler

  /** A waiting message: the protocol method and the raw message. */
  datatype Message = Message(methodName: string, message: string)

  /** A DispatchProtocolMessageToAgent call. */
  datatype AgentCall = AgentCall(callId: int, methodName: string, message: string)

  /** What a session's own dispatcher made of a message: handled, or to be
      passed to the agent, with the call id and method it parsed. */
  datatype DispatchOutcome = Handled | FallThrough(callId: int, methodName: string)

  /** A DevTools session, as far as the host touches it: its fall-through
      flag and handlers, its renderer process (None for null), the agent it
      is attached to, its waiting messages by call id, and the calls sent to
      the agent. */
  datatype Session = Session(
    fallThroughForNotFound: bool,
    handlers: seq<Handler>,
    renderer: Option<int>,
    agent: Option<nat>,
    waitingMessages: map<int, Message>,
    toAgent: seq<AgentCall>)

  predicate IsMin(m: int, keys: set<int>) {
    m in keys && forall y :: y in keys ==> m <= y
  }

  /** The least element of a finite set of call ids. */
  lemma {:induction false} LeastKey(keys: set<int>) returns (m: int)
    requires keys != {}
    ensures IsMin(m, keys)
    decreases |keys|
  {
    assert exists x :: x in keys by {
      if forall x :: x !in keys {
        assert false;
      }
    }
    var x :| x in keys;
    if keys == {x} {
      m := x;
    } else {
      var rest := keys - {x};
      var least := LeastKey(rest);
      assert forall y :: y in keys ==> y == x || y in rest;
      m := if x < least then x else least;
    }
  }

  function MinOf(keys: set<int>): (m: int)
    requires keys != {}
    ensures m in keys && forall y :: y in keys ==> m <= y
  {
    assert exists m :: IsMin(m, keys) by {
      var least := LeastKey(keys);
    }
    var m :| IsMin(m, keys);
    m
  }

  /** The call ids in the ascending order a std::map iterates them. */
  function SortedKeys(keys: set<int>): (r: seq<int>)
    ensures |r| == |keys|
    ensures forall i :: 0 <= i < |r| ==> r[i] in keys
    ensures forall i, j :: 0 <= i < j < |r| ==> r[i] < r[j]
    decreases |keys|
  {
    if keys == {} then []
    else
      var m := MinOf(keys);
      var rest := SortedKeys(keys - {m});
      SortedCons(keys, m, rest);
      [m] + rest
  }

  /** The least key in front of the sorted others sorts all the keys. */
  lemma SortedCons(keys: set<int>, m: int, rest: seq<int>)
    requires m in keys && forall y :: y in keys ==> m <= y
    requires |rest| == |keys - {m}|
    requires forall i :: 0 <= i < |rest| ==> rest[i] in keys - {m}
    requires forall i, j :: 0 <= i < j < |rest| ==> rest[i] < rest[j]
    ensures |[m] + rest| == |keys|
    ensures forall i :: 0 <= i < |[m] + rest| ==> ([m] + rest)[i] in keys
    ensures forall i, j :: 0 <= i < j < |[m] + rest| ==> ([m] + rest)[i] < ([m] + rest)[j]
  {
    var r := [m] + rest;
    assert forall i :: 0 <= i < |rest| ==> m < rest[i];
    assert forall i :: 1 <= i < |r| ==> r[i] == rest[i - 1];
  }

  /** Every key is listed. */
  lemma {:induction false} SortedKeysCovers(keys: set<int>, k: int)
    requires k in keys
    ensures k in SortedKeys(keys)
    decreases |keys|
  {
    var m := MinOf(keys);
    if k != m {
      SortedKeysCovers(keys - {m}, k);
      assert SortedKeys(keys) == [m] + SortedKeys(keys - {m});
    }
  }

  /** The agent call that dispatches a waiting message again. */
  function Redispatch(waiting: map<int, Message>, callId: int): AgentCall
    requires callId in waiting
  {
    AgentCall(callId, waiting[callId].methodName, waiting[callId].message)
  }

  /** The agent calls that dispatch the waiting messages again. */
  function Replayed(waiting: map<int, Message>): (r: seq<AgentCall>)
    ensures |r| == |waiting.Keys|
  {
    var keys := SortedKeys(waiting.Keys);
    seq(|keys|, i requires 0 <= i < |keys| => Redispatch(waiting, keys[i]))
  }

  /** Each replayed call carries a waiting message as stored, and the calls
      go in ascending call id order. */
  lemma ReplayedInOrder(waiting: map<int, Message>)
    ensures forall i :: 0 <= i < |Replayed(waiting)| ==>
              Replayed(waiting)[i].callId in waiting && Replayed(waiting)[i] == Redispatch(waiting, Replayed(waiting)[i].callId)
    ensures forall i, j :: 0 <= i < j < |Replayed(waiting)| ==> Replayed(waiting)[i].callId < Replayed(waiting)[j].callId
  {
  }

  lemma ReplayedAt(waiting: map<int, Message>, i: nat)
    requires i < |SortedKeys(waiting.Keys)|
    ensures |Replayed(waiting)| == |SortedKeys(waiting.Keys)|
    ensures Replayed(waiting)[i] == Redispatch(waiting, SortedKeys(waiting.Keys)[i])
  {
  }

  /** No waiting message is skipped: each is dispatched again, and by the
      ascending order above, exactly once. */
  lemma ReplayedCoversWaiting(waiting: map<int, Message>, callId: int)
    requires callId in waiting
    ensures exists i :: 0 <= i < |Replayed(waiting)| && Replayed(waiting)[i] == Redispatch(waiting, callId)
  {
    var keys := SortedKeys(waiting.Keys);
    SortedKeysCovers(waiting.Keys, callId);
    var i :| 0 <= i < |keys| && keys[i] == callId;
    assert Replayed(waiting)[i] == Redispatch(waiting, callId);
  }

  /** What AttachSession does to a session: fall-through on, the inspector,
      network and schema handlers, the worker's process as renderer, and the
      agent when there is one to attach to. */
  function AttachedSession(s: Session, renderer: Option<int>, agent: Option<nat>): (r: Session)
    ensures r.fallThroughForNotFound && r.renderer == renderer
    ensures r.handlers == s.handlers + [InspectorHandler, NetworkHandler, SchemaHandler]
    ensures agent.Some? ==> r.agent == agent
    ensures agent.None? ==> r.agent == s.agent
    ensures r.waitingMessages == s.waitingMessages && r.toAgent == s.toAgent
  {
    s.(fallThroughForNotFound := true,
       handlers := s.handlers + [InspectorHandler, NetworkHandler, SchemaHandler],
       renderer := renderer,
       agent := if agent.Some? then agent else s.agent)
  }

  /** What DispatchProtocolMessage does to a session: a message that falls
      through goes to the agent and waits under its call id. */
  function DispatchedSession(s: Session, message: string, outcome: DispatchOutcome): (r: Session)
    ensures outcome.Handled? ==> r == s
    ensures outcome.FallThrough? ==>
              && r.toAgent == s.toAgent + [AgentCall(outcome.callId, outcome.methodName, message)]
              && r.waitingMessages == s.waitingMessages[outcome.callId := Message(outcome.methodName, message)]
    ensures r.agent == s.agent && r.renderer == s.renderer && r.handlers == s.handlers
  {
    match outcome
    case Handled => s
    case FallThrough(callId, methodName) =>
      s.(toAgent := s.toAgent + [AgentCall(callId, methodName, message)],
         waitingMessages := s.waitingMessages[callId := Message(methodName, message)])
  }

  /** What WorkerReadyForInspection does to a session: reattached to the
      agent, and every waiting message sent to it again. */
  function ReadySession(s: Session, agent: nat): (r: Session)
    ensures r.agent == Some(agent)
    ensures r.toAgent == s.toAgent + Replayed(s.waitingMessages)
    ensures r.waitingMessages == s.waitingMessages && r.renderer == s.renderer
  {
    s.(agent := Some(agent), toAgent := s.toAgent + Replayed(s.waitingMessages))
  }

  /** The replay loop over one session's waiting messages, in the order the
      map iterates them. */
  method ReplayCalls(waiting: map<int, Message>) returns (calls: seq<AgentCall>)
    ensures calls == Replayed(waiting)
  {
    var keys := SortedKeys(waiting.Keys);
    ghost var replayed := Replayed(waiting);
    calls := [];
    var i := 0;
    while i < |keys|
      invariant 0 <= i <= |keys| == |replayed|
      invariant calls == replayed[..i]
    {
      ReplayedAt(waiting, i);
      calls := calls + [Redispatch(waiting, keys[i])];
      i := i + 1;
    }
  }

  method ReplayWaitingMessages(s: Session) returns (r: Session)
    ensures r.toAgent == s.toAgent + Replayed(s.waitingMessages)
    ensures r == s.(toAgent := r.toAgent)
  {
    var calls := ReplayCalls(s.waitingMessages);
    r := s.(toAgent := s.toAgent + calls);
  }

  class SharedWorkerDevToolsAgentHost {
    var state: WorkerState
    var workerHost: Option<WorkerHost>
    /** agent_ptr_, by the serial number of the agent. */
    var agent: Option<nat>
    /** The number of agents requested from worker hosts so far. */
    var agentsCreated: nat
    var sessions: seq<Session>
    /** The worker hosts asked to terminate by Close. */
    var terminated: seq<WorkerHost>

    /** A terminated worker has no host and every other state has one; an
        agent exists only while the worker is ready and was requested
        earlier. */
    predicate Valid()
      reads this
    {
      && (state == WorkerTerminated <==> workerHost.None?)
      && (agent.Some? ==> state == WorkerReady && agent.value < agentsCreated)
    }

    constructor (host: WorkerHost)
      ensures Valid()
      ensures state == WorkerNotReady && workerHost == Some(host) && agent.None?
      ensures agentsCreated == 0 && sessions == [] && terminated == []
    {
      state := WorkerNotReady;
      workerHost := Some(host);
      agent := None;
      agentsCreated := 0;
      sessions := [];
      terminated := [];
    }

    /** GetProcess: the worker host's process, or null without a host. */
    function GetProcess(): (r: Option<int>)
      reads this
      ensures r.Some? <==> workerHost.Some?
      ensures r.Some? ==> r.value == workerHost.value.processId
    {
      if workerHost.Some? then Some(workerHost.value.processId) else None
    }

    /** EnsureAgent: requested from the worker host only the first time. */
    method EnsureAgent() returns (a: nat)
      requires Valid() && state == WorkerReady && workerHost.Some?
      modifies this`agent, this`agentsCreated
      ensures Valid() && agent == Some(a)
      ensures old(agent).Some? ==> a == old(agent).value && agentsCreated == old(agentsCreated)
      ensures old(agent).None? ==> a == old(agentsCreated) && agentsCreated == old(agentsCreated) + 1
    {
      if agent.None? {
        agent := Some(agentsCreated);
        agentsCreated := agentsCreated + 1;
      }
      a := agent.value;
    }

    /** Close: the worker, if any, is asked to terminate. */
    method Close() returns (r: bool)
      modifies this`terminated
      ensures r
      ensures workerHost.Some? ==> terminated == old(terminated) + [workerHost.value]
      ensures workerHost.None? ==> terminated == old(terminated)
    {
      if workerHost.Some? {
        terminated := terminated + [workerHost.value];
      }
      r := true;
    }

    /** AttachSession: the session joins the host's sessions with fall-through
        on, the three handlers and the worker's process; it is attached to
        the agent only when the worker is ready. */
    method AttachSession(session: Session)
      requires Valid()
      modifies this`sessions, this`agent, this`agentsCreated
      ensures Valid()
      ensures state != WorkerReady ==>
                agent == old(agent) && agentsCreated == old(agentsCreated)
                && sessions == old(sessions) + [AttachedSession(session, GetProcess(), None)]
      ensures state == WorkerReady ==>
                agent.Some? && (old(agent).Some? ==> agent == old(agent))
                && sessions == old(sessions) + [AttachedSession(session, GetProcess(), agent)]
    {
      var attached := AttachedSession(session, GetProcess(), None);
      if state == WorkerReady {
        var a := EnsureAgent();
        attached := AttachedSession(session, GetProcess(), Some(a));
      }
      sessions := sessions + [attached];
    }

    /** DispatchProtocolMessage: always true; a message the session does not
        handle goes to the agent and waits under its call id. */
    method DispatchProtocolMessage(index: nat, message: string, outcome: DispatchOutcome) returns (r: bool)
      requires index < |sessions|
      modifies this`sessions
      ensures r
      ensures sessions == old(sessions)[index := DispatchedSession(old(sessions)[index], message, outcome)]
    {
      var session := sessions[index];
      match outcome {
        case Handled =>
          return true;
        case FallThrough(callId, methodName) =>
          session := session.(toAgent := session.toAgent + [AgentCall(callId, methodName, message)]);
          session := session.(waitingMessages := session.waitingMessages[callId := Message(methodName, message)]);
      }
      sessions := sessions[index := session];
      r := true;
    }

    /** WorkerReadyForInspection: the worker becomes ready; each session is
        reattached to the agent, which is created for the first one, and
        gets its waiting messages again. */
    method WorkerReadyForInspection()
      requires Valid() && state == WorkerNotReady && workerHost.Some?
      modifies this`state, this`sessions, this`agent, this`agentsCreated
      ensures Valid() && state == WorkerReady
      ensures old(sessions) == [] ==> agent.None? && sessions == [] && agentsCreated == old(agentsCreated)
      ensures old(sessions) != [] ==>
                && agent == Some(old(agentsCreated)) && agentsCreated == old(agentsCreated) + 1
                && |sessions| == |old(sessions)|
                && forall k :: 0 <= k < |sessions| ==> sessions[k] == ReadySession(old(sessions)[k], agent.value)
    {
      state := WorkerReady;
      var updated := sessions;
      var i := 0;
      while i < |updated|
        invariant 0 <= i <= |updated| == |old(sessions)|
        invariant Valid() && state == WorkerReady && workerHost.Some?
        invariant i == 0 ==> agent.None? && agentsCreated == old(agentsCreated)
        invariant i > 0 ==> agent == Some(old(agentsCreated)) && agentsCreated == old(agentsCreated) + 1
        invariant forall k :: 0 <= k < i ==> updated[k] == ReadySession(old(sessions)[k], old(agentsCreated))
        invariant forall k :: i <= k < |updated| ==> updated[k] == old(sessions)[k]
      {
        var a := EnsureAgent();
        var session := updated[i].(agent := Some(a));
        session := ReplayWaitingMessages(session);
        updated := updated[i := session];
        i := i + 1;
      }
      sessions := updated;
    }

    /** WorkerRestarted: a terminated worker gets a new host and is not
        ready yet; every session's renderer becomes the new process. */
    method WorkerRestarted(host: WorkerHost)
      requires Valid() && state == WorkerTerminated && workerHost.None?
      modifies this`state, this`workerHost, this`sessions
      ensures Valid() && state == WorkerNotReady && workerHost == Some(host)
      ensures |sessions| == |old(sessions)|
      ensures forall k :: 0 <= k < |sessions| ==> sessions[k] == old(sessions)[k].(renderer := Some(host.processId))
    {
      state := WorkerNotReady;
      workerHost := Some(host);
      sessions := WithRenderer(sessions, GetProcess());
    }

    /** WorkerDestroyed: the worker is terminated; the sessions lose their
        renderer, and the host forgets the worker and the agent. */
    method WorkerDestroyed()
      requires Valid() && state != WorkerTerminated && workerHost.Some?
      modifies this`state, this`workerHost, this`sessions, this`agent
      ensures Valid() && state == WorkerTerminated && workerHost.None? && agent.None?
      ensures |sessions| == |old(sessions)|
      ensures forall k :: 0 <= k < |sessions| ==> sessions[k] == old(sessions)[k].(renderer := None)
    {
      state := WorkerTerminated;
      sessions := WithRenderer(sessions, None);
      workerHost := None;
      agent := None;
    }

    /** The loop that sets every session's renderer. */
    static method WithRenderer(sessions: seq<Session>, renderer: Option<int>) returns (r: seq<Session>)
      ensures |r| == |sessions|
      ensures forall k :: 0 <= k < |r| ==> r[k] == sessions[k].(renderer := renderer)
    {
      r := sessions;
      var i := 0;
      while i < |r|
        invariant 0 <= i <= |r| == |sessions|
        invariant forall k :: 0 <= k < i ==> r[k] == sessions[k].(renderer := renderer)
        invariant forall k :: i <= k < |r| ==> r[k] == sessions[k]
      {
        r := r[i := r[i].(renderer := renderer)];
        i := i + 1;
      }
    }
  }

  /** A message that fell through before the worker was ready is kept
      waiting and sent to the agent once more when the worker becomes ready. */
  lemma FallThroughReachesAgentOnReady(s: Session, message: string, callId: int, methodName: string, agent: nat)
    ensures var ready := ReadySession(DispatchedSession(s, message, FallThrough(callId, methodName)), agent);
            exists i :: |s.toAgent| < i < |ready.toAgent| && ready.toAgent[i] == AgentCall(callId, methodName, message)
  {
    var dispatched := DispatchedSession(s, message, FallThrough(callId, methodName));
    ReplayedCoversWaiting(dispatched.waitingMessages, callId);
    var replayed := Replayed(dispatched.waitingMessages);
    var j :| 0 <= j < |replayed| && replayed[j] == Redispatch(dispatched.waitingMessages, callId);
    var ready := ReadySession(dispatched, agent);
    assert ready.toAgent[|dispatched.toAgent| + j] == AgentCall(callId, methodName, message);
  }
}
