/** Session acquisition on the client (GameLiftClient.cs): rank the fleet's
    regions by latency, then search for a session tier by tier, and reserve
    a player slot in the first session found or created.

    Every call into the hosting service and the network is an oracle input:
    the alias and compute-list replies and the ping function of a
    ProbeOracle, and the finite reply sequences of a Replies value, consumed
    one reply per call in call order. */
module GameLiftClient {
  import opened Wrappers
  import opened RegionRanking

  const MAX_RETRIES := 5
  const MAX_PLAYERS := 10
  /** The populated-session search asks for at least this many players. */
  const MIN_PLAYERS := 1
  const DEFAULT_REGION := "us-east-1"

  datatype GameSession = GameSession(gameSessionId: string)

  datatype PlayerSession = PlayerSession(playerSessionId: string, ipAddress: string, port: int)

  /** The filter expression of a session search. */
  datatype Filter = AvailableOnly | AvailableWithPlayers(minPlayers: int)
  {
    /** Every search asks for sessions with a free player slot. */
    function Expression(): (e: string)
      ensures |e| >= 31 && e[..31] == "hasAvailablePlayerSessions=true"
      ensures AvailableOnly? <==> |e| == 31
    {
      match this
      case AvailableOnly => "hasAvailablePlayerSessions=true"
      case AvailableWithPlayers(n) =>
        "hasAvailablePlayerSessions=true AND playerSessionCount>=" + IntToString(n)
    }
  }

  function DigitsOf(n: nat): string
    decreases n
  {
    if n < 10 then ["0123456789"[n]] else DigitsOf(n / 10) + ["0123456789"[n % 10]]
  }

  function IntToString(i: int): string {
    if i < 0 then "-" + DigitsOf(-i) else DigitsOf(i)
  }

  /** A request to the hosting service. */
  datatype Request =
    | SearchGameSessions(aliasId: string, filter: Filter, location: string)
    | CreateGameSession(maximumPlayerSessionCount: int, aliasId: string, location: string)
    | CreatePlayerSession(gameSessionId: string, playerId: string)
  {
    /** A search or a creation: the request a tier repeats. */
    predicate IsSessionCall() { !CreatePlayerSession? }
  }

  /** FindGameSession(region, minPlayers). */
  function FindGameSessionRequest(aliasId: string, region: string, minPlayers: int): (req: Request)
    ensures req.SearchGameSessions? && req.aliasId == aliasId && req.location == region
    ensures req.filter == AvailableWithPlayers(minPlayers)
  {
    SearchGameSessions(aliasId, AvailableWithPlayers(minPlayers), region)
  }

  /** FindGameSession(): unfiltered search in the best region. */
  function FindAnyGameSessionRequest(aliasId: string, bestRegion: string): (req: Request)
    ensures req.SearchGameSessions? && req.aliasId == aliasId && req.location == bestRegion
    ensures req.filter.Expression() == "hasAvailablePlayerSessions=true"
  {
    SearchGameSessions(aliasId, AvailableOnly, bestRegion)
  }

  /** CreateGameSession(): a new session for up to 10 players in the best region. */
  function CreateGameSessionRequest(aliasId: string, bestRegion: string): (req: Request)
    ensures req.CreateGameSession? && req.aliasId == aliasId && req.location == bestRegion
    ensures req.maximumPlayerSessionCount == 10
  {
    CreateGameSession(MAX_PLAYERS, aliasId, bestRegion)
  }

  /** The replies of the hosting service, in call order: one per search, one
      per session creation, one per player-session creation. */
  datatype Replies = Replies(
    searches: seq<Response<seq<GameSession>>>,
    creates: seq<Response<Option<GameSession>>>,
    reservations: seq<Response<Option<PlayerSession>>>)
  {
    /** Replies left for searches and creations: what bounds the model's loops. */
    function Pending(): nat { |searches| + |creates| }
  }

  /** FindGameSession keeps the first session of the search response, or null. */
  function FirstSession(found: seq<GameSession>): (first: Option<GameSession>)
    ensures first.Some? <==> found != []
    ensures first.Some? ==> first.value == found[0]
  {
    if |found| > 0 then Some(found[0]) else None
  }

  /** The session the next call `req` yields, and the replies left after it;
      None when the oracle has no reply left for it. */
  function NextSession(req: Request, env: Replies): (next: Option<(Response<Option<GameSession>>, Replies)>)
    requires req.IsSessionCall()
    ensures next.Some? <==> (if req.SearchGameSessions? then env.searches != [] else env.creates != [])
    ensures next.Some? ==> next.value.1.Pending() == env.Pending() - 1
    ensures next.Some? ==> next.value.1.reservations == env.reservations
    ensures next.Some? && req.SearchGameSessions? ==>
      next.value.1 == env.(searches := env.searches[1..]) &&
      (next.value.0.Threw? <==> env.searches[0].Threw?) &&
      (env.searches[0].Returned? ==> next.value.0 == Returned(FirstSession(env.searches[0].value)))
    ensures next.Some? && req.CreateGameSession? ==>
      next.value == (env.creates[0], env.(creates := env.creates[1..]))
  {
    if req.SearchGameSessions? then
      if env.searches == [] then None
      else
        var session := match env.searches[0]
          case Threw => Threw
          case Returned(found) => Returned(FirstSession(found));
        Some((session, env.(searches := env.searches[1..])))
    else
      if env.creates == [] then None
      else Some((env.creates[0], env.(creates := env.creates[1..])))
  }

  /** How a tier, or the whole search, ended. Failed: a call threw (the catch
      at the end of GetConnectionInfo swallows it). OutOfReplies: the finite
      oracle ran dry, which the service itself never does. */
  datatype Status = Joined(playerSession: PlayerSession) | Exhausted | Failed | OutOfReplies

  /** One tier's run: how it ended, the calls it made, the replies left. */
  datatype TierRun = TierRun(status: Status, log: seq<Request>, rest: Replies)

  function Prefixed(calls: seq<Request>, run: TierRun): TierRun {
    TierRun(run.status, calls + run.log, run.rest)
  }

  lemma PrefixedTwice(first: seq<Request>, second: seq<Request>, run: TierRun)
    ensures Prefixed(first, Prefixed(second, run)) == Prefixed(first + second, run)
  {
    assert first + (second + run.log) == (first + second) + run.log;
  }

  /** One attempt of a retry loop: the search or creation, then, when it
      yields a session, the player-session creation in it. */
  datatype Attempt =
    | Stop(run: TierRun)                                      // the tier ends here
    | Again(calls: seq<Request>, reset: bool, rest: Replies)  // no player session yet

  function TierAttempt(req: Request, playerId: string, env: Replies): (step: Attempt)
    requires req.IsSessionCall()
    ensures step.Stop? ==> !step.run.status.Exhausted?
    ensures step.Stop? ==>
      (step.run.log == [] || step.run.log == [req] ||
       (|step.run.log| == 2 && step.run.log[0] == req && step.run.log[1].CreatePlayerSession?))
    ensures step.Again? ==> step.rest.Pending() == env.Pending() - 1
    ensures step.Again? ==> |step.rest.reservations| <= |env.reservations|
    ensures step.Stop? ==> step.run.rest.Pending() <= env.Pending() && |step.run.rest.reservations| <= |env.reservations|
    ensures step.Again? && !step.reset ==> step.calls == [req]
    ensures step.Again? && step.reset ==> |step.calls| == 2 && step.calls[0] == req && step.calls[1].CreatePlayerSession?
  {
    match NextSession(req, env)
    case None => Stop(TierRun(OutOfReplies, [], env))
    case Some((reply, env1)) =>
      match reply
      case Threw => Stop(TierRun(Failed, [req], env1))
      case Returned(None) => Again([req], false, env1)
      case Returned(Some(session)) =>
        var reserve := CreatePlayerSession(session.gameSessionId, playerId);
        if env1.reservations == [] then Stop(TierRun(OutOfReplies, [req, reserve], env1))
        else
          var env2 := env1.(reservations := env1.reservations[1..]);
          match env1.reservations[0]
          case Threw => Stop(TierRun(Failed, [req, reserve], env2))
          case Returned(Some(player)) => Stop(TierRun(Joined(player), [req, reserve], env2))
          case Returned(None) => Again([req, reserve], true, env2)
  }

  /** What one attempt does with the replies it gets. The search or create
      yields a session, or none, or throws. A found session is followed by a
      player-session request for it. The attempt stops on a throw or a
      player session, and the player session it joins is the reservation's
      reply. It goes on with the counter unchanged when no session was found.
      It goes on with the counter reset exactly when the reservation came back
      null. */
  lemma TierAttemptReplies(req: Request, playerId: string, env: Replies)
    requires req.IsSessionCall()
    ensures var step, next := TierAttempt(req, playerId, env), NextSession(req, env);
      var found := next.Some? && next.value.0.Returned? && next.value.0.value.Some?;
      (step.Stop? && step.run.status.OutOfReplies? <==> next.None? || (found && env.reservations == [])) &&
      (step.Stop? && step.run.status.Failed? <==>
        (next.Some? && next.value.0.Threw?) || (found && env.reservations != [] && env.reservations[0].Threw?)) &&
      (step.Stop? && step.run.status.Joined? <==>
        found && env.reservations != [] && env.reservations[0].Returned? && env.reservations[0].value.Some?) &&
      (step.Again? && !step.reset <==> next.Some? && next.value.0 == Returned(None)) &&
      (step.Again? && step.reset <==> found && env.reservations != [] && env.reservations[0] == Returned(None))
    ensures var step := TierAttempt(req, playerId, env);
      step.Stop? && step.run.status.Joined? ==>
        env.reservations != [] && env.reservations[0] == Returned(Some(step.run.status.playerSession))
    ensures var step, next := TierAttempt(req, playerId, env), NextSession(req, env);
      next.Some? && next.value.0.Returned? && next.value.0.value.Some? ==>
        var reserve := CreatePlayerSession(next.value.0.value.value.gameSessionId, playerId);
        (step.Stop? ==> step.run.log == [req, reserve]) && (step.Again? ==> step.calls == [req, reserve])
  {
  }

  /** One of the retry loops of GetConnectionInfo, entered with `retry`
      attempts left. A session found without a player session sets the
      counter back to MAX_RETRIES, and the loop's own decrement then leaves
      MAX_RETRIES - 1 further attempts. */
  function RunTier(req: Request, playerId: string, retry: int, env: Replies): (run: TierRun)
    requires req.IsSessionCall()
    ensures run.rest.Pending() <= env.Pending() && |run.rest.reservations| <= |env.reservations|
    ensures retry <= 0 ==> run.status.Exhausted? && run.log == []
    decreases env.Pending()
  {
    if retry <= 0 then TierRun(Exhausted, [], env)
    else match TierAttempt(req, playerId, env)
      case Stop(run) => run
      case Again(calls, reset, rest) =>
        Prefixed(calls, RunTier(req, playerId, if reset then MAX_RETRIES - 1 else retry - 1, rest))
  }

  /** One retry loop (lines 57-79, 85-107 and 110-132 have the same shape),
      run against the reply oracle. */
  method TryTier(req: Request, playerId: string, replies: Replies) returns (status: Status, log: seq<Request>, rest: Replies)
    requires req.IsSessionCall()
    ensures TierRun(status, log, rest) == RunTier(req, playerId, MAX_RETRIES, replies)
  {
    status, log, rest := Exhausted, [], replies;
    var retry := MAX_RETRIES;
    while retry > 0
      invariant Prefixed(log, RunTier(req, playerId, retry, rest)) == RunTier(req, playerId, MAX_RETRIES, replies)
      decreases rest.Pending()
    {
      match TierAttempt(req, playerId, rest) {
        case Stop(run) =>
          status, log, rest := run.status, log + run.log, run.rest;
          return;
        case Again(calls, reset, next) =>
          PrefixedTwice(log, calls, RunTier(req, playerId, if reset then MAX_RETRIES - 1 else retry - 1, next));
          log, rest := log + calls, next;
          if reset {
            // session found but no player session: restart the count
            retry := MAX_RETRIES;
          }
      }
      retry := retry - 1;
    }
  }

  /** The tiers GetConnectionInfo visits: each acceptable region with a
      populated-session filter, then an unfiltered search in the best region,
      then a session creation in the best region. */
  function Plan(aliasId: string, acceptable: seq<string>, bestRegion: string): (plan: seq<Request>)
    ensures |plan| == |acceptable| + 2
    ensures forall t | t in plan :: t.IsSessionCall()
  {
    seq(|acceptable|, i requires 0 <= i < |acceptable| => FindGameSessionRequest(aliasId, acceptable[i], MIN_PLAYERS))
    + [FindAnyGameSessionRequest(aliasId, bestRegion), CreateGameSessionRequest(aliasId, bestRegion)]
  }

  /** The tiers of `plan` that run: each next tier only after the previous
      one exhausted its attempts. */
  function RunPlan(plan: seq<Request>, playerId: string, env: Replies): (runs: seq<TierRun>)
    requires forall t | t in plan :: t.IsSessionCall()
    ensures |runs| <= |plan| && (plan != [] ==> runs != [])
  {
    if plan == [] then []
    else
      var run := RunTier(plan[0], playerId, MAX_RETRIES, env);
      if run.status.Exhausted? then [run] + RunPlan(plan[1..], playerId, run.rest) else [run]
  }

  function Outcome(runs: seq<TierRun>): Status {
    if runs == [] then Exhausted else runs[|runs| - 1].status
  }

  function CallLog(runs: seq<TierRun>): seq<Request> {
    if runs == [] then [] else runs[0].log + CallLog(runs[1..])
  }

  // ---------------------------------------------------------------------
  // Properties of one tier

  /** Every call a tier makes is its own request or a player-session creation. */
  predicate CallsOnly(log: seq<Request>, req: Request) {
    forall c | c in log :: c == req || c.CreatePlayerSession?
  }

  function SessionCalls(log: seq<Request>): nat {
    if log == [] then 0 else (if log[0].IsSessionCall() then 1 else 0) + SessionCalls(log[1..])
  }

  function Reservations(log: seq<Request>): nat {
    if log == [] then 0 else (if log[0].CreatePlayerSession? then 1 else 0) + Reservations(log[1..])
  }

  function Repeat(req: Request, n: nat): (r: seq<Request>)
    ensures |r| == n && forall c | c in r :: c == req
  {
    if n == 0 then [] else [req] + Repeat(req, n - 1)
  }

  lemma {:induction false} CountsAppend(a: seq<Request>, b: seq<Request>)
    ensures SessionCalls(a + b) == SessionCalls(a) + SessionCalls(b)
    ensures Reservations(a + b) == Reservations(a) + Reservations(b)
  {
    if a == [] {
      assert a + b == b;
    } else {
      assert (a + b)[1..] == a[1..] + b;
      CountsAppend(a[1..], b);
    }
  }

  /** A tier repeats only its own request, and makes at most `retry` plus
      MAX_RETRIES - 1 search or create calls per player-session request in
      its log (the count includes a final request that returned or threw).
      There is no bound independent of the player-session requests. */
  lemma {:induction false} TierAttemptBound(req: Request, playerId: string, retry: nat, env: Replies)
    requires req.IsSessionCall()
    ensures var run := RunTier(req, playerId, retry, env);
      CallsOnly(run.log, req) &&
      SessionCalls(run.log) <= retry + (MAX_RETRIES - 1) * Reservations(run.log)
    decreases env.Pending()
  {
    if retry > 0 {
      match TierAttempt(req, playerId, env)
      case Stop(run) =>
        if |run.log| == 2 {
          AttemptCounts(req, run.log[1]);
        } else if run.log == [req] {
          AttemptCounts(req, req);
        }
      case Again(calls, reset, rest) =>
        var next := if reset then MAX_RETRIES - 1 else retry - 1;
        var tail := RunTier(req, playerId, next, rest);
        TierAttemptBound(req, playerId, next, rest);
        CountsAppend(calls, tail.log);
        if reset {
          AttemptCounts(req, calls[1]);
        } else {
          AttemptCounts(req, req);
        }
    }
  }

  lemma AttemptCounts(req: Request, reserve: Request)
    requires req.IsSessionCall()
    ensures SessionCalls([req]) == 1 && Reservations([req]) == 0
    ensures reserve.CreatePlayerSession? ==> SessionCalls([req, reserve]) == 1 && Reservations([req, reserve]) == 1
  {
    assert [req][1..] == [];
    assert [req, reserve][1..] == [reserve] && [reserve][1..] == [];
  }

  /** The shape of an exhausted tier's calls entered with `retry` attempts. */
  predicate ExhaustedShape(log: seq<Request>, req: Request, retry: nat) {
    (Reservations(log) == 0 ==> log == Repeat(req, retry)) &&
    (Reservations(log) > 0 ==>
      |log| >= MAX_RETRIES &&
      log[|log| - MAX_RETRIES].CreatePlayerSession? &&
      log[|log| - (MAX_RETRIES - 1)..] == Repeat(req, MAX_RETRIES - 1))
  }

  lemma ShapeAfterEmptySearch(req: Request, retry: nat, tail: seq<Request>)
    requires retry > 0 && req.IsSessionCall() && ExhaustedShape(tail, req, retry - 1)
    ensures ExhaustedShape([req] + tail, req, retry)
  {
    var log := [req] + tail;
    CountsAppend([req], tail);
    if Reservations(tail) > 0 {
      assert log[|log| - MAX_RETRIES] == tail[|tail| - MAX_RETRIES];
      assert log[|log| - (MAX_RETRIES - 1)..] == tail[|tail| - (MAX_RETRIES - 1)..];
    }
  }

  lemma ShapeAfterLostReservation(req: Request, reserve: Request, tail: seq<Request>)
    requires req.IsSessionCall() && reserve.CreatePlayerSession?
    requires ExhaustedShape(tail, req, MAX_RETRIES - 1)
    ensures ExhaustedShape([req, reserve] + tail, req, MAX_RETRIES)
  {
    var log := [req, reserve] + tail;
    CountsAppend([req, reserve], tail);
    if Reservations(tail) > 0 {
      assert log[|log| - MAX_RETRIES] == tail[|tail| - MAX_RETRIES];
      assert log[|log| - (MAX_RETRIES - 1)..] == tail[|tail| - (MAX_RETRIES - 1)..];
    } else {
      assert log[|log| - (MAX_RETRIES - 1)..] == tail;
    }
  }

  /** A tier that exhausts its counter ends with exactly `retry` attempts
      when no reservation failed, and otherwise with exactly MAX_RETRIES - 1
      attempts after the last failed reservation, not MAX_RETRIES. */
  lemma {:induction false} ExhaustedTierTail(req: Request, playerId: string, retry: nat, env: Replies)
    requires req.IsSessionCall()
    ensures var run := RunTier(req, playerId, retry, env);
      run.status.Exhausted? ==> ExhaustedShape(run.log, req, retry)
    decreases env.Pending()
  {
    if retry > 0 {
      match TierAttempt(req, playerId, env)
      case Stop(_) =>
      case Again(calls, reset, rest) =>
        var next := if reset then MAX_RETRIES - 1 else retry - 1;
        var tail := RunTier(req, playerId, next, rest);
        assert RunTier(req, playerId, retry, env) == Prefixed(calls, tail);
        ExhaustedTierTail(req, playerId, next, rest);
        if tail.status.Exhausted? {
          if reset {
            assert calls == [req, calls[1]];
            ShapeAfterLostReservation(req, calls[1], tail.log);
          } else {
            ShapeAfterEmptySearch(req, retry, tail.log);
          }
        }
    }
  }

  /** Scenario: when no session is ever found, a tier calls the service
      exactly `retry` times and then gives way to the next tier. */
  lemma {:induction false} UnansweredTierMakesRetryCalls(req: Request, playerId: string, retry: nat, env: Replies)
    requires req.IsSessionCall()
    requires req.SearchGameSessions? ==>
      |env.searches| >= retry && forall i | 0 <= i < retry :: env.searches[i] == Returned([])
    requires req.CreateGameSession? ==>
      |env.creates| >= retry && forall i | 0 <= i < retry :: env.creates[i] == Returned(None)
    ensures RunTier(req, playerId, retry, env).status == Exhausted
    ensures RunTier(req, playerId, retry, env).log == Repeat(req, retry)
    decreases retry
  {
    if retry > 0 {
      var (reply, env1) := NextSession(req, env).value;
      assert reply == Returned(None);
      assert TierAttempt(req, playerId, env) == Again([req], false, env1);
      UnansweredTierMakesRetryCalls(req, playerId, retry - 1, env1);
    }
  }

  /** While every search finds a session whose player session comes back
      null, a tier never exhausts: it keeps searching for as long as replies
      last, so no bound on the number of attempts holds. */
  lemma {:induction false} LostReservationsNeverExhaust(req: Request, playerId: string, retry: nat, env: Replies)
    requires req.SearchGameSessions? && retry > 0
    requires forall i | 0 <= i < |env.searches| :: env.searches[i].Returned? && env.searches[i].value != []
    requires |env.reservations| >= |env.searches|
    requires forall i | 0 <= i < |env.searches| :: env.reservations[i] == Returned(None)
    ensures RunTier(req, playerId, retry, env).status == OutOfReplies
    ensures SessionCalls(RunTier(req, playerId, retry, env).log) == |env.searches|
    decreases |env.searches|
  {
    if env.searches != [] {
      var (reply, env1) := NextSession(req, env).value;
      var session := env.searches[0].value[0];
      var env2 := env1.(reservations := env1.reservations[1..]);
      var reserve := CreatePlayerSession(session.gameSessionId, playerId);
      assert TierAttempt(req, playerId, env) == Again([req, reserve], true, env2);
      LostReservationsNeverExhaust(req, playerId, MAX_RETRIES - 1, env2);
      var tail := RunTier(req, playerId, MAX_RETRIES - 1, env2);
      CountsAppend([req, reserve], tail.log);
      assert [req, reserve][1..][1..] == [];
    }
  }

  /** The same for the creation tier: while every created session's player
      session comes back null, it keeps creating sessions for as long as
      replies last. */
  lemma {:induction false} LostReservationsNeverExhaustCreating(req: Request, playerId: string, retry: nat, env: Replies)
    requires req.CreateGameSession? && retry > 0
    requires forall i | 0 <= i < |env.creates| :: env.creates[i].Returned? && env.creates[i].value.Some?
    requires |env.reservations| >= |env.creates|
    requires forall i | 0 <= i < |env.creates| :: env.reservations[i] == Returned(None)
    ensures RunTier(req, playerId, retry, env).status == OutOfReplies
    ensures SessionCalls(RunTier(req, playerId, retry, env).log) == |env.creates|
    decreases |env.creates|
  {
    if env.creates != [] {
      var (reply, env1) := NextSession(req, env).value;
      var session := env.creates[0].value.value;
      var env2 := env1.(reservations := env1.reservations[1..]);
      var reserve := CreatePlayerSession(session.gameSessionId, playerId);
      assert TierAttempt(req, playerId, env) == Again([req, reserve], true, env2);
      LostReservationsNeverExhaustCreating(req, playerId, MAX_RETRIES - 1, env2);
      var tail := RunTier(req, playerId, MAX_RETRIES - 1, env2);
      CountsAppend([req, reserve], tail.log);
      assert [req, reserve][1..][1..] == [];
    }
  }

  // ---------------------------------------------------------------------
  // Properties of the tier sequence

  /** Tiers run in plan order, each repeating only its own request; a tier
      runs only after every earlier tier exhausted its attempts; the first
      player session ends the search; and when every tier runs dry, all of
      them ran. */
  lemma {:induction false} RunPlanOrder(plan: seq<Request>, playerId: string, env: Replies)
    requires forall t | t in plan :: t.IsSessionCall()
    ensures var runs := RunPlan(plan, playerId, env);
      (forall k | 0 <= k < |runs| - 1 :: runs[k].status.Exhausted?) &&
      (forall k | 0 <= k < |runs| :: CallsOnly(runs[k].log, plan[k])) &&
      (Outcome(runs).Exhausted? ==> |runs| == |plan|)
  {
    if plan != [] {
      var run := RunTier(plan[0], playerId, MAX_RETRIES, env);
      TierAttemptBound(plan[0], playerId, MAX_RETRIES, env);
      if run.status.Exhausted? {
        RunPlanOrder(plan[1..], playerId, run.rest);
        var runs := RunPlan(plan, playerId, env);
        assert runs == [run] + RunPlan(plan[1..], playerId, run.rest);
        if plan[1..] == [] {
          assert runs == [run];
        }
      }
    }
  }

  /** (ushort)port: the port truncated to 16 bits. */
  function ToUShort(port: int): (p: int)
    ensures 0 <= p < 0x1_0000 && (port - p) % 0x1_0000 == 0
    ensures 0 <= port < 0x1_0000 ==> p == port
  {
    port % 0x1_0000
  }

  // ---------------------------------------------------------------------
  // Region probing (GetBestRegion)

  /** The replies GetBestRegion gets: the fleet id from ResolveAlias (None:
      null), the locations of the computes from ListCompute, and the round
      trip to each region's endpoint. */
  datatype ProbeOracle = ProbeOracle(
    resolveAlias: Response<Option<string>>,
    listCompute: Response<seq<string>>,
    ping: string -> Response<int>)

  datatype Ranking = Ranking(best: string, acceptable: seq<string>)

  /** The region-to-latency dictionary in insertion order; None when a ping
      throws. */
  function PingAll(regions: seq<string>, ping: string -> Response<int>): (samples: Option<seq<Sample>>)
    ensures samples.Some? <==> forall i | 0 <= i < |regions| :: ping(regions[i]).Returned?
    ensures samples.Some? ==> |samples.value| == |regions|
    ensures samples.Some? ==>
      forall i | 0 <= i < |regions| :: samples.value[i] == Sample(regions[i], ping(regions[i]).value)
    decreases |regions|
  {
    if regions == [] then Some([])
    else
      var last := regions[|regions| - 1];
      match PingAll(regions[..|regions| - 1], ping)
      case None => None
      case Some(samples) =>
        match ping(last)
        case Threw => None
        case Returned(latency) => Some(samples + [Sample(last, latency)])
  }

  /** What GetBestRegion computes: None when the alias resolves to a null or
      empty fleet id, when the fleet has no region, or when a call throws. */
  function RankRegions(probe: ProbeOracle): (ranking: Option<Ranking>)
    ensures ranking.Some? ==>
      probe.resolveAlias.Returned? && probe.resolveAlias.value.Some? && probe.resolveAlias.value.value != "" &&
      probe.listCompute.Returned? && probe.listCompute.value != []
  {
    match probe.resolveAlias
    case Threw => None
    case Returned(fleetId) =>
      if fleetId.None? || fleetId.value == "" then None
      else match probe.listCompute
        case Threw => None
        case Returned(locations) =>
          var regions := Distinct(locations);
          if regions == [] then None
          else match PingAll(regions, probe.ping)
            case None => None
            case Some(samples) => Some(Ranking(BestRegion(samples), AcceptableRegions(samples)))
  }

  /** The samples hold exactly one entry per fleet location, carrying the
      location's ping. */
  predicate Probed(samples: seq<Sample>, locations: seq<string>, ping: string -> Response<int>) {
    DistinctRegions(samples) &&
    (forall x | x in samples :: x.region in locations && ping(x.region) == Returned(x.latency)) &&
    (forall r | r in locations :: ping(r).Returned? && Sample(r, ping(r).value) in samples)
  }

  lemma PingAllProbed(locations: seq<string>, ping: string -> Response<int>)
    requires PingAll(Distinct(locations), ping).Some?
    ensures Probed(PingAll(Distinct(locations), ping).value, locations, ping)
  {
    var regions := Distinct(locations);
    var samples := PingAll(regions, ping).value;
    forall i, j | 0 <= i < j < |samples| ensures samples[i].region != samples[j].region {
      assert samples[i].region == regions[i] && samples[j].region == regions[j];
    }
    forall x | x in samples ensures x.region in locations && ping(x.region) == Returned(x.latency) {
      var i :| 0 <= i < |samples| && samples[i] == x;
      assert regions[i] in regions;
    }
    forall r | r in locations ensures ping(r).Returned? && Sample(r, ping(r).value) in samples {
      var i :| 0 <= i < |regions| && regions[i] == r;
      assert samples[i] == Sample(r, ping(r).value);
    }
  }

  lemma ProbedBest(samples: seq<Sample>, locations: seq<string>, ping: string -> Response<int>)
    requires Probed(samples, locations, ping) && samples != []
    ensures BestRegion(samples) in locations
    ensures forall r | r in locations :: ping(BestRegion(samples)).value <= ping(r).value
  {
    BestSampleIsMinimal(samples);
    var best := BestSample(samples);
    forall r | r in locations ensures ping(best.region).value <= ping(r).value {
      assert Sample(r, ping(r).value) in samples;
    }
  }

  lemma ProbedAcceptable(samples: seq<Sample>, locations: seq<string>, ping: string -> Response<int>)
    requires Probed(samples, locations, ping)
    ensures forall r :: r in AcceptableRegions(samples) <==> r in locations && ping(r).value <= ACCEPTABLE_LATENCY
    ensures forall i, j | 0 <= i < j < |AcceptableRegions(samples)| ::
      ping(AcceptableRegions(samples)[i]).value <= ping(AcceptableRegions(samples)[j]).value
    ensures NoDuplicates(AcceptableRegions(samples))
  {
    var accepted, regions := AcceptableSamples(samples), AcceptableRegions(samples);
    AcceptableSamplesCharacterized(samples);
    AcceptableRegionsDistinct(samples);
    forall r ensures r in regions <==> r in locations && ping(r).value <= ACCEPTABLE_LATENCY {
      if r in regions {
        var i :| 0 <= i < |regions| && regions[i] == r;
        assert accepted[i] in accepted;
      }
      if r in locations && ping(r).value <= ACCEPTABLE_LATENCY {
        var x := Sample(r, ping(r).value);
        assert x in accepted;
        var i :| 0 <= i < |accepted| && accepted[i] == x;
        assert regions[i] == r;
      }
    }
    forall i, j | 0 <= i < j < |regions| ensures ping(regions[i]).value <= ping(regions[j]).value {
      assert accepted[i] in accepted && accepted[j] in accepted;
    }
  }

  /** A successful ranking names as best a fleet location of minimal latency
      (even above the threshold), and as acceptable exactly the locations
      within the threshold, each once, by non-decreasing latency, the best
      first. */
  lemma RankRegionsContract(probe: ProbeOracle)
    ensures RankRegions(probe).Some? ==>
      probe.listCompute.Returned? &&
      var locations, ranking := probe.listCompute.value, RankRegions(probe).value;
      (forall r | r in locations :: probe.ping(r).Returned?) &&
      ranking.best in locations &&
      (forall r | r in locations :: probe.ping(ranking.best).value <= probe.ping(r).value) &&
      (forall r :: r in ranking.acceptable <==> r in locations && probe.ping(r).value <= ACCEPTABLE_LATENCY) &&
      NoDuplicates(ranking.acceptable) &&
      (forall i, j | 0 <= i < j < |ranking.acceptable| ::
        probe.ping(ranking.acceptable[i]).value <= probe.ping(ranking.acceptable[j]).value) &&
      (ranking.acceptable != [] ==> ranking.acceptable[0] == ranking.best)
  {
    if RankRegions(probe).Some? {
      var locations := probe.listCompute.value;
      var samples := PingAll(Distinct(locations), probe.ping).value;
      assert RankRegions(probe).value == Ranking(BestRegion(samples), AcceptableRegions(samples));
      PingAllProbed(locations, probe.ping);
      ProbedBest(samples, locations, probe.ping);
      ProbedAcceptable(samples, locations, probe.ping);
      if AcceptableRegions(samples) != [] {
        AcceptableSamplesCharacterized(samples);
        assert AcceptableSamples(samples)[0] in AcceptableSamples(samples);
        FirstAcceptableIsBest(samples);
      }
    }
  }

  /** GetBestRegion returns null exactly when the alias resolves to a null
      or empty fleet id, the fleet has no location, or a call throws. */
  lemma RankRegionsFailures(probe: ProbeOracle)
    ensures RankRegions(probe).None? <==>
      probe.resolveAlias.Threw? || probe.resolveAlias.value.None? || probe.resolveAlias.value.value == "" ||
      probe.listCompute.Threw? || probe.listCompute.value == [] ||
      exists r | r in probe.listCompute.value :: probe.ping(r).Threw?
  {
    if probe.resolveAlias.Returned? && probe.resolveAlias.value.Some? && probe.resolveAlias.value.value != ""
       && probe.listCompute.Returned? {
      var locations := probe.listCompute.value;
      var regions := Distinct(locations);
      if locations != [] {
        assert locations[0] in regions;
      }
      if regions != [] {
        if PingAll(regions, probe.ping).None? {
          var i :| 0 <= i < |regions| && !probe.ping(regions[i]).Returned?;
          assert regions[i] in locations;
        } else {
          forall r | r in locations ensures probe.ping(r).Returned? {
            var i :| 0 <= i < |regions| && regions[i] == r;
          }
        }
      }
    }
  }

  // ---------------------------------------------------------------------
  // The whole connection attempt

  /** The outcome of one GetConnectionInfo call from the client state
      (bestRegion, acceptableRegions) it starts in. */
  datatype Connection = Connection(
    bestRegion: string,
    acceptableRegions: Option<seq<string>>,
    runs: seq<TierRun>,
    status: Status)

  function ConnectionAttempt(aliasId: string, playerId: string, bestRegion: string,
                             acceptableRegions: Option<seq<string>>, probe: ProbeOracle, replies: Replies): (a: Connection)
    ensures RankRegions(probe).Some? ==>
      a.bestRegion == RankRegions(probe).value.best && a.acceptableRegions == Some(RankRegions(probe).value.acceptable)
    ensures RankRegions(probe).None? ==> a.bestRegion == bestRegion && a.acceptableRegions == acceptableRegions
    ensures a.acceptableRegions.None? ==> a.runs == [] && a.status == Failed
    ensures a.acceptableRegions.Some? ==>
      a.runs == RunPlan(Plan(aliasId, a.acceptableRegions.value, a.bestRegion), playerId, replies) &&
      a.status == Outcome(a.runs)
  {
    var ranking := RankRegions(probe);
    var best := if ranking.Some? then ranking.value.best else bestRegion;
    var acceptable := if ranking.Some? then Some(ranking.value.acceptable) else acceptableRegions;
    if acceptable.None? then
      // the foreach over a list never assigned throws before any search
      Connection(best, acceptable, [], Failed)
    else
      var runs := RunPlan(Plan(aliasId, acceptable.value, best), playerId, replies);
      Connection(best, acceptable, runs, Outcome(runs))
  }

  /** The requests of the tiers, down to the filter expressions sent: the
      region tiers ask for sessions with at least one player, the best-region
      search for any session with a free slot, and the last tier creates a
      10-player session. */
  lemma PlanTiers(aliasId: string, acceptable: seq<string>, bestRegion: string)
    ensures var plan := Plan(aliasId, acceptable, bestRegion);
      forall k | 0 <= k < |acceptable| ::
        plan[k].SearchGameSessions? && plan[k].aliasId == aliasId && plan[k].location == acceptable[k] &&
        plan[k].filter.Expression() == "hasAvailablePlayerSessions=true AND playerSessionCount>=1"
    ensures var plan := Plan(aliasId, acceptable, bestRegion);
      plan[|acceptable|].SearchGameSessions? && plan[|acceptable|].aliasId == aliasId &&
      plan[|acceptable|].location == bestRegion &&
      plan[|acceptable|].filter.Expression() == "hasAvailablePlayerSessions=true"
    ensures Plan(aliasId, acceptable, bestRegion)[|acceptable| + 1] == CreateGameSession(10, aliasId, bestRegion)
  {
    assert IntToString(MIN_PLAYERS) == "1";
  }

  /** The tier order of GetConnectionInfo: each acceptable region in list
      order with the populated-session filter, then the unfiltered search in
      the best region, then the creation of a 10-player session there. A tier
      runs only after all earlier ones exhausted their attempts, the first
      player session ends the search, and the search fails as a whole only
      after the creation tier ran. Without a region list the attempt fails
      before any search. */
  lemma ConnectionTierOrder(aliasId: string, playerId: string, bestRegion: string,
                            acceptableRegions: Option<seq<string>>, probe: ProbeOracle, replies: Replies)
    ensures var a := ConnectionAttempt(aliasId, playerId, bestRegion, acceptableRegions, probe, replies);
      (a.acceptableRegions.None? ==> a.status == Failed && a.runs == []) &&
      (a.acceptableRegions.Some? ==>
        var n := |a.acceptableRegions.value|;
        1 <= |a.runs| <= n + 2 &&
        a.status == a.runs[|a.runs| - 1].status &&
        (forall k | 0 <= k < |a.runs| - 1 :: a.runs[k].status.Exhausted?) &&
        (forall k | 0 <= k < |a.runs| ::
          CallsOnly(a.runs[k].log, Plan(aliasId, a.acceptableRegions.value, a.bestRegion)[k])) &&
        (a.status.Exhausted? ==> |a.runs| == n + 2))
  {
    var a := ConnectionAttempt(aliasId, playerId, bestRegion, acceptableRegions, probe, replies);
    if a.acceptableRegions.Some? {
      var plan := Plan(aliasId, a.acceptableRegions.value, a.bestRegion);
      assert a.runs == RunPlan(plan, playerId, replies);
      RunPlanOrder(plan, playerId, replies);
    }
  }

  /** The client's state: the static fields of GameLiftClient. */
  class Client {
    const aliasId: string
    const playerId: string
    var sessionId: Option<string>
    var bestRegion: string
    var acceptableRegions: Option<seq<string>>

    constructor (aliasId: string, playerId: string)
      ensures this.aliasId == aliasId && this.playerId == playerId
      ensures sessionId == None && bestRegion == DEFAULT_REGION && acceptableRegions == None
    {
      this.aliasId := aliasId;
      this.playerId := playerId;
      sessionId := None;
      bestRegion := DEFAULT_REGION;
      acceptableRegions := None;
    }

    /** GetBestRegion: assigns the acceptable regions only when the ranking
        succeeds; otherwise returns null and leaves them as they were. */
    method GetBestRegion(probe: ProbeOracle) returns (best: Option<string>)
      modifies this`acceptableRegions
      ensures RankRegions(probe).Some? ==>
        best == Some(RankRegions(probe).value.best) && acceptableRegions == Some(RankRegions(probe).value.acceptable)
      ensures RankRegions(probe).None? ==> best == None && acceptableRegions == old(acceptableRegions)
    {
      match probe.resolveAlias {
        case Threw => return None;
        case Returned(fleetId) =>
          if fleetId.None? || fleetId.value == "" {
            return None;
          }
      }
      match probe.listCompute {
        case Threw => return None;
        case Returned(locations) =>
          var regions := GetFleetRegions(locations);
          if regions == [] {
            return None;
          }
          var pinged := PingRegions(regions, probe.ping);
          if pinged.None? {
            return None;
          }
          var samples := pinged.value;
          acceptableRegions := Some(AcceptableRegions(samples));
          best := Some(BestRegion(samples));
      }
    }

    /** GetConnectionInfo: rank the regions, run the tiers, and on a player
        session take its address, 16-bit port and id; on exhaustion or a
        thrown call leave the address and port unchanged. */
    method GetConnectionInfo(probe: ProbeOracle, replies: Replies, ipAddress: string, port: int)
      returns (newIpAddress: string, newPort: int, status: Status, log: seq<Request>)
      modifies this
      ensures var a := ConnectionAttempt(aliasId, playerId, old(bestRegion), old(acceptableRegions), probe, replies);
        bestRegion == a.bestRegion && acceptableRegions == a.acceptableRegions &&
        status == a.status && log == CallLog(a.runs)
      ensures status.Joined? ==>
        newIpAddress == status.playerSession.ipAddress &&
        newPort == ToUShort(status.playerSession.port) &&
        sessionId == Some(status.playerSession.playerSessionId)
      ensures !status.Joined? ==> newIpAddress == ipAddress && newPort == port && sessionId == old(sessionId)
    {
      newIpAddress, newPort := ipAddress, port;
      var best := GetBestRegion(probe);
      if best.Some? {
        bestRegion := best.value;
      }
      if acceptableRegions.None? {
        status, log := Failed, [];
        return;
      }
      var plan := Plan(aliasId, acceptableRegions.value, bestRegion);
      status, log := SearchTiers(plan, playerId, replies);
      if status.Joined? {
        newIpAddress := status.playerSession.ipAddress;
        newPort := ToUShort(status.playerSession.port);
        sessionId := Some(status.playerSession.playerSessionId);
      }
    }
  }

  /** The foreach over the fleet regions in GetBestRegion: ping each region
      in turn and add its latency to the dictionary; a throwing ping ends
      the probe. */
  method PingRegions(regions: seq<string>, ping: string -> Response<int>) returns (samples: Option<seq<Sample>>)
    requires NoDuplicates(regions)
    ensures samples == PingAll(regions, ping)
  {
    var acc: seq<Sample> := [];
    var i := 0;
    while i < |regions|
      invariant 0 <= i <= |regions|
      invariant PingAll(regions[..i], ping) == Some(acc)
    {
      assert regions[..i + 1][..i] == regions[..i];
      match ping(regions[i]) {
        case Threw =>
          assert !ping(regions[i]).Returned?;
          return None;
        case Returned(latency) =>
          // the dictionary never meets a key twice: the regions are distinct
          assert regions[i] !in regions[..i];
          acc := acc + [Sample(regions[i], latency)];
      }
      i := i + 1;
    }
    assert regions[..i] == regions;
    samples := Some(acc);
  }

  /** The tier loops of GetConnectionInfo: run each tier of `plan` in turn
      until one ends otherwise than by exhausting its attempts. */
  method SearchTiers(plan: seq<Request>, playerId: string, replies: Replies) returns (status: Status, log: seq<Request>)
    requires forall t | t in plan :: t.IsSessionCall()
    ensures status == Outcome(RunPlan(plan, playerId, replies))
    ensures log == CallLog(RunPlan(plan, playerId, replies))
  {
    ghost var runs: seq<TierRun> := [];
    var rest := replies;
    status, log := Exhausted, [];
    var k := 0;
    while k < |plan|
      invariant 0 <= k <= |plan|
      invariant RunPlan(plan, playerId, replies) == runs + RunPlan(plan[k..], playerId, rest)
      invariant log == CallLog(runs)
      invariant status == Outcome(runs)
    {
      var tierStatus, tierLog, tierRest := TryTier(plan[k], playerId, rest);
      ghost var run := TierRun(tierStatus, tierLog, tierRest);
      RunPlanStep(plan, k, playerId, rest, runs, run);
      CallLogAppend(runs, run);
      runs := runs + [run];
      log := log + tierLog;
      rest := tierRest;
      status := tierStatus;
      if !tierStatus.Exhausted? {
        assert RunPlan(plan, playerId, replies) == runs;
        return;
      }
      k := k + 1;
    }
    assert plan[k..] == [] && runs + [] == runs;
  }

  /** One iteration of the tier loop: the runs from tier k on start with
      that tier's run, followed by the later tiers only when it exhausted. */
  lemma RunPlanStep(plan: seq<Request>, k: nat, playerId: string, env: Replies, runs: seq<TierRun>, run: TierRun)
    requires k < |plan| && forall t | t in plan :: t.IsSessionCall()
    requires run == RunTier(plan[k], playerId, MAX_RETRIES, env)
    ensures run.status.Exhausted? ==>
      runs + RunPlan(plan[k..], playerId, env) == (runs + [run]) + RunPlan(plan[k + 1..], playerId, run.rest)
    ensures !run.status.Exhausted? ==> runs + RunPlan(plan[k..], playerId, env) == runs + [run]
  {
    assert plan[k..][0] == plan[k] && plan[k..][1..] == plan[k + 1..];
    var later := RunPlan(plan[k + 1..], playerId, run.rest);
    assert runs + ([run] + later) == (runs + [run]) + later;
  }

  lemma {:induction false} CallLogAppend(runs: seq<TierRun>, run: TierRun)
    ensures CallLog(runs + [run]) == CallLog(runs) + run.log
  {
    if runs != [] {
      assert (runs + [run])[1..] == runs[1..] + [run];
      CallLogAppend(runs[1..], run);
    }
  }

  /** GetFleetRegions: the locations of the compute list, each added once,
      in first-seen order. */
  method GetFleetRegions(locations: seq<string>) returns (regions: seq<string>)
    ensures regions == Distinct(locations)
  {
    regions := [];
    for i := 0 to |locations|
      invariant regions == Distinct(locations[..i])
    {
      assert locations[..i + 1][..i] == locations[..i];
      if locations[i] !in regions {
        regions := regions + [locations[i]];
      }
    }
    assert locations[..|locations|] == locations;
  }
}
