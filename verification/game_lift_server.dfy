/** The hosting-SDK callbacks of the server process (GameLiftServer.cs).
    The class has no state: every callback inspects one outcome flag or the
    process role and decides which SDK calls to make and whether the process
    quits. Each callback is modelled as a function from those flags to the
    trace of actions it performs; log messages are not actions. */
module GameLiftServer {

  /** Calls into the hosting SDK. */
  datatype SdkCall =
    | InitSdk
    | ProcessReady(port: int)
    | ActivateGameSession
    | ProcessEnding
    | AcceptPlayerSession(playerSessionId: string)
    | RemovePlayerSession(playerSessionId: string)

  /** An observable action of a callback: an SDK call, or asking the
      application to quit. */
  datatype Action = Call(call: SdkCall) | Quit

  /** The advertised port is drawn with Random.Range(7000, 8000), whose upper
      bound is exclusive. */
  const MIN_PORT := 7000
  const PORT_LIMIT := 8000

  predicate Quits(trace: seq<Action>) { Quit in trace }

  predicate Makes(trace: seq<Action>, call: SdkCall) { Call(call) in trace }

  /** Initialize: only a process running as server creates the server. */
  function Initialize(isServer: bool, initOk: bool, readyOk: bool, port: int): (trace: seq<Action>)
    requires MIN_PORT <= port < PORT_LIMIT
    ensures !isServer ==> trace == []
    ensures Makes(trace, InitSdk) <==> isServer
    ensures forall p :: Makes(trace, ProcessReady(p)) <==> isServer && initOk && p == port
    ensures !Quits(trace)
  {
    if isServer then CreateServer(initOk, readyOk, port) else []
  }

  /** CreateServer: ProcessReady is attempted only once InitSDK succeeded; a
      failed ProcessReady is only logged. */
  function CreateServer(initOk: bool, readyOk: bool, port: int): (trace: seq<Action>)
    requires MIN_PORT <= port < PORT_LIMIT
    ensures |trace| >= 1 && trace[0] == Call(InitSdk)
    ensures forall p :: Makes(trace, ProcessReady(p)) <==> initOk && p == port
    ensures forall p :: Makes(trace, ProcessReady(p)) ==> MIN_PORT <= p < PORT_LIMIT
    ensures !Quits(trace)
  {
    [Call(InitSdk)] + (if initOk then [Call(ProcessReady(port))] else [])
  }

  /** OnGameSession: the session is activated only when running as server. */
  function OnGameSession(isServer: bool): (trace: seq<Action>)
    ensures Makes(trace, ActivateGameSession) <==> isServer
    ensures |trace| <= 1 && !Quits(trace)
  {
    if isServer then [Call(ActivateGameSession)] else []
  }

  /** OnProcessTerminate: ProcessEnding is always called; the process quits
      only when ProcessEnding succeeded. */
  function OnProcessTerminate(endingOk: bool): (trace: seq<Action>)
    ensures |trace| >= 1 && trace[0] == Call(ProcessEnding)
    ensures Quits(trace) <==> endingOk
  {
    [Call(ProcessEnding)] + (if endingOk then [Quit] else [])
  }

  /** OnHealthCheck: the process reports itself healthy exactly when it runs
      as server. */
  function OnHealthCheck(isServer: bool): (healthy: bool)
    ensures healthy <==> isServer
  {
    if isServer then true else false
  }

  /** ActivatePlayerSession: one AcceptPlayerSession call with the given id. */
  function ActivatePlayerSession(playerSessionId: string, accepted: bool): (trace: seq<Action>)
    ensures |trace| == 1 && Makes(trace, AcceptPlayerSession(playerSessionId)) && !Quits(trace)
  {
    [Call(AcceptPlayerSession(playerSessionId))]
  }

  /** TerminatePlayerSession: one RemovePlayerSession call with the given id. */
  function TerminatePlayerSession(playerSessionId: string, removed: bool): (trace: seq<Action>)
    ensures |trace| == 1 && Makes(trace, RemovePlayerSession(playerSessionId)) && !Quits(trace)
  {
    [Call(RemovePlayerSession(playerSessionId))]
  }

  /** TerminateGameSession: ProcessEnding is called and the process quits
      whether or not ProcessEnding succeeded. */
  function TerminateGameSession(endingOk: bool): (trace: seq<Action>)
    ensures |trace| >= 1 && trace[0] == Call(ProcessEnding)
    ensures Quits(trace)
  {
    if endingOk then [Call(ProcessEnding), Quit] else [Call(ProcessEnding), Quit]
  }

  /** A failed AcceptPlayerSession or RemovePlayerSession is only logged: the
      trace does not depend on the outcome. */
  lemma PlayerSessionFailureOnlyLogged(playerSessionId: string)
    ensures ActivatePlayerSession(playerSessionId, true) == ActivatePlayerSession(playerSessionId, false)
    ensures TerminatePlayerSession(playerSessionId, true) == TerminatePlayerSession(playerSessionId, false)
  {
  }

  /** Of the two ways to end the process, only the one the service requests
      can leave the process running, and only when ProcessEnding fails. */
  lemma TerminationPolicies(endingOk: bool)
    ensures Quits(TerminateGameSession(endingOk))
    ensures !Quits(OnProcessTerminate(endingOk)) <==> !endingOk
    ensures OnProcessTerminate(true) == TerminateGameSession(true)
  {
  }
}
