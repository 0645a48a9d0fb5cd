/** The dedicated server's game state: liveness tracking of the connected
    clients (EnvironmentManager.cs) and the integer health, kill and death
    accounting of the players (FPSPlayer.cs). Both live in one module
    because a player's death is reported to the manager, which updates the
    counters of other players.

    Time is an integer clock; each handler and each heartbeat tick is one
    atomic step. What the server asks of the outside world (the hosting
    SDK, the network layer) is returned as a sequence of effects. */
module Game {
  import opened Wrappers
  import GameLiftServer

  /** A network client id (ulong). */
  type ClientId = nat

  /** A client silent for longer than this is disconnected. */
  const CLIENT_TIMEOUT := 30
  /** A server without activity for longer than this shuts down. */
  const SERVER_TIMEOUT := 300

  const INT32_MIN := -0x8000_0000
  const INT32_MAX := 0x7FFF_FFFF
  type Int32 = x: int | INT32_MIN <= x <= INT32_MAX

  /** Two's-complement 32-bit wrap-around of unchecked C# int arithmetic. */
  function Wrap32(x: int): (r: Int32)
    ensures (r - x) % 0x1_0000_0000 == 0
    ensures INT32_MIN <= x <= INT32_MAX ==> r == x
  {
    var m := x % 0x1_0000_0000;
    if m > INT32_MAX then m - 0x1_0000_0000 else m
  }

  /** What a handler asks of the world outside the model. */
  datatype Effect =
    | Sdk(action: GameLiftServer.Action)   // a hosting-SDK call or the quit
    | RequestHeartbeats                     // HeartbeatClientRpc to all clients
    | SpawnPlayer(clientId: ClientId)
    | RequestPlayerSessionId(clientId: ClientId)
    | DisconnectClient(clientId: ClientId)

  function Lift(trace: seq<GameLiftServer.Action>): (effects: seq<Effect>)
    ensures |effects| == |trace| && forall i | 0 <= i < |trace| :: effects[i] == Sdk(trace[i])
  {
    seq(|trace|, i requires 0 <= i < |trace| => Sdk(trace[i]))
  }

  /** The effects of evicting one client: end its player session if the
      server knows one, then disconnect it. */
  function EvictOne(id: ClientId, sessions: map<ClientId, string>, removeOk: string -> bool): (effects: seq<Effect>)
    ensures |effects| == if id in sessions then 2 else 1
    ensures id in sessions ==> effects[0] == Sdk(GameLiftServer.Call(GameLiftServer.RemovePlayerSession(sessions[id])))
    ensures effects[|effects| - 1] == DisconnectClient(id)
  {
    (if id in sessions then Lift(GameLiftServer.TerminatePlayerSession(sessions[id], removeOk(sessions[id]))) else [])
    + [DisconnectClient(id)]
  }

  /** The effects of evicting `ids` in order. */
  function EvictionEffects(ids: seq<ClientId>, sessions: map<ClientId, string>, removeOk: string -> bool): (effects: seq<Effect>)
    ensures |ids| <= |effects| <= 2 * |ids|
    ensures ids != [] ==> effects[|effects| - 1] == DisconnectClient(ids[|ids| - 1])
    decreases |ids|
  {
    if ids == [] then []
    else EvictionEffects(ids[..|ids| - 1], sessions, removeOk) + EvictOne(ids[|ids| - 1], sessions, removeOk)
  }

  /** Evicting `ids` disconnects exactly those clients, ends the recorded
      player session of each of them, and asks nothing else of the SDK: no
      other session is removed and the process does not quit. */
  lemma {:induction false} EvictionEffectsContents(ids: seq<ClientId>, sessions: map<ClientId, string>, removeOk: string -> bool)
    ensures forall id :: DisconnectClient(id) in EvictionEffects(ids, sessions, removeOk) <==> id in ids
    ensures forall id | id in ids && id in sessions ::
      Sdk(GameLiftServer.Call(GameLiftServer.RemovePlayerSession(sessions[id]))) in EvictionEffects(ids, sessions, removeOk)
    ensures forall e | e in EvictionEffects(ids, sessions, removeOk) ::
      e.DisconnectClient? ||
      exists id | id in ids && id in sessions :: e == Sdk(GameLiftServer.Call(GameLiftServer.RemovePlayerSession(sessions[id])))
    decreases |ids|
  {
    if ids != [] {
      var init, last := ids[..|ids| - 1], ids[|ids| - 1];
      assert ids == init + [last];
      EvictionEffectsContents(init, sessions, removeOk);
      var one := EvictOne(last, sessions, removeOk);
      var effects := EvictionEffects(ids, sessions, removeOk);
      assert effects == EvictionEffects(init, sessions, removeOk) + one;
      if last in sessions {
        assert one == [Sdk(GameLiftServer.Call(GameLiftServer.RemovePlayerSession(sessions[last]))), DisconnectClient(last)];
      } else {
        assert one == [DisconnectClient(last)];
      }
      forall e | e in effects
        ensures e.DisconnectClient? ||
          exists id | id in ids && id in sessions :: e == Sdk(GameLiftServer.Call(GameLiftServer.RemovePlayerSession(sessions[id])))
      {
        if e in EvictionEffects(init, sessions, removeOk) && !e.DisconnectClient? {
          var id :| id in init && id in sessions && e == Sdk(GameLiftServer.Call(GameLiftServer.RemovePlayerSession(sessions[id])));
          assert id in ids;
        }
      }
    }
  }

  /** The shutdown of an idle server: TerminateGameSession, then the
      fallback Application.Quit. */
  function ShutdownEffects(endingOk: bool): (effects: seq<Effect>)
    ensures Sdk(GameLiftServer.Call(GameLiftServer.ProcessEnding)) in effects
    ensures effects[|effects| - 1] == Sdk(GameLiftServer.Quit)
  {
    Lift(GameLiftServer.TerminateGameSession(endingOk)) + [Sdk(GameLiftServer.Quit)]
  }

  /** The first loop of the heartbeat tick: the ids of the clients silent
      for more than CLIENT_TIMEOUT, collected before any removal. The
      dictionary's enumeration order is not specified, so the order of the
      result is left open. */
  method CollectStale(heartbeats: map<ClientId, int>, now: int) returns (stale: seq<ClientId>)
    ensures NoDuplicates(stale)
    ensures forall id :: id in stale <==> id in heartbeats && now - heartbeats[id] > CLIENT_TIMEOUT
  {
    stale := [];
    var pending := heartbeats.Keys;
    while pending != {}
      invariant pending <= heartbeats.Keys
      invariant NoDuplicates(stale)
      invariant forall id :: id in stale <==> id in heartbeats && id !in pending && now - heartbeats[id] > CLIENT_TIMEOUT
      decreases pending
    {
      var id :| id in pending;
      if now - heartbeats[id] > CLIENT_TIMEOUT {
        assert id !in stale;
        stale := stale + [id];
      }
      pending := pending - {id};
    }
  }

  /** Each connected client has a player object of its own. */
  predicate Owned(connected: map<ClientId, FPSPlayer>) {
    forall a, b | a in connected && b in connected && a != b :: connected[a] != connected[b]
  }

  /** No kill or death counter changed. */
  twostate predicate CountersUnchanged(connected: map<ClientId, FPSPlayer>)
    reads connected.Values
  {
    forall p | p in connected.Values :: p.kills == old(p.kills) && p.deaths == old(p.deaths)
  }

  /** What ReportDeath(sourceId, deadId) does on a server (`isServer`): the
      source's kill counter goes up by one, then the victim's death counter;
      a missing id throws at its lookup, after the updates before it. */
  twostate predicate DeathReported(isServer: bool, sourceId: ClientId, deadId: ClientId,
                                   connected: map<ClientId, FPSPlayer>, new outcome: Response<()>)
    reads connected.Values
  {
    (outcome.Threw? <==> isServer && (sourceId !in connected || deadId !in connected)) &&
    (forall id | id in connected ::
      connected[id].kills ==
        if isServer && id == sourceId then Wrap32(old(connected[id].kills) + 1) else old(connected[id].kills)) &&
    (forall id | id in connected ::
      connected[id].deaths ==
        if isServer && sourceId in connected && id == deadId then Wrap32(old(connected[id].deaths) + 1)
        else old(connected[id].deaths))
  }

  /** The server's liveness bookkeeping. */
  class EnvironmentManager {
    const isServer: bool
    /** The last time each tracked client was heard from. */
    var clientHeartbeats: map<ClientId, int>
    /** The player-session id each client reported. */
    var playerSessionIds: map<ClientId, string>
    var lastActivityTime: int

    /** No client was heard from after the last activity. */
    ghost predicate Valid()
      reads this
    {
      forall id | id in clientHeartbeats :: clientHeartbeats[id] <= lastActivityTime
    }

    /** Start: the clock is read only when running as server. */
    constructor (isServer: bool, now: int)
      ensures this.isServer == isServer && Valid()
      ensures clientHeartbeats == map[] && playerSessionIds == map[]
      ensures lastActivityTime == if isServer then now else 0
    {
      this.isServer := isServer;
      clientHeartbeats := map[];
      playerSessionIds := map[];
      lastActivityTime := if isServer then now else 0;
    }

    /** HandleClientConnected: the activity time is set first, so it moves
        even when the id is already tracked and the insertion throws. */
    method HandleClientConnected(id: ClientId, now: int) returns (outcome: Response<()>, effects: seq<Effect>)
      requires Valid() && lastActivityTime <= now
      modifies this`clientHeartbeats, this`lastActivityTime
      ensures Valid() && lastActivityTime == now
      ensures outcome.Threw? <==> id in old(clientHeartbeats)
      ensures outcome.Threw? ==> clientHeartbeats == old(clientHeartbeats) && effects == []
      ensures outcome.Returned? ==>
        clientHeartbeats == old(clientHeartbeats)[id := now] &&
        effects == [SpawnPlayer(id), RequestPlayerSessionId(id)]
    {
      lastActivityTime := now;
      if id in clientHeartbeats {
        return Threw, [];
      }
      clientHeartbeats := clientHeartbeats[id := now];
      outcome, effects := Returned(()), [SpawnPlayer(id), RequestPlayerSessionId(id)];
    }

    /** HandleClientDisconnected refreshes the scoreboard only: neither map
        changes, and a client leaves them only by timing out. */
    method HandleClientDisconnected(id: ClientId)
      ensures clientHeartbeats == old(clientHeartbeats) && playerSessionIds == old(playerSessionIds)
    {
    }

    /** SendPlayerSessionIdServerRpc: record and activate a non-empty
        player-session id; a second id from the same client throws. */
    method SendPlayerSessionId(senderId: ClientId, sessionId: string, accepted: bool)
      returns (outcome: Response<()>, effects: seq<Effect>)
      modifies this`playerSessionIds
      ensures outcome.Threw? <==> sessionId != "" && senderId in old(playerSessionIds)
      ensures sessionId == "" || outcome.Threw? ==> playerSessionIds == old(playerSessionIds) && effects == []
      ensures sessionId != "" && outcome.Returned? ==>
        playerSessionIds == old(playerSessionIds)[senderId := sessionId] &&
        effects == Lift(GameLiftServer.ActivatePlayerSession(sessionId, accepted))
    {
      if sessionId == "" {
        return Returned(()), [];
      }
      if senderId in playerSessionIds {
        return Threw, [];
      }
      playerSessionIds := playerSessionIds[senderId := sessionId];
      outcome, effects := Returned(()), Lift(GameLiftServer.ActivatePlayerSession(sessionId, accepted));
    }

    /** HeartbeatServerRpc: a reply refreshes a tracked client and the
        activity time; an unknown sender changes nothing. */
    method HeartbeatReply(senderId: ClientId, now: int)
      requires Valid() && lastActivityTime <= now
      modifies this`clientHeartbeats, this`lastActivityTime
      ensures Valid() && clientHeartbeats.Keys == old(clientHeartbeats).Keys
      ensures isServer && senderId in old(clientHeartbeats) ==>
        clientHeartbeats == old(clientHeartbeats)[senderId := now] && lastActivityTime == now
      ensures !(isServer && senderId in old(clientHeartbeats)) ==>
        clientHeartbeats == old(clientHeartbeats) && lastActivityTime == old(lastActivityTime)
    {
      if isServer && senderId in clientHeartbeats {
        clientHeartbeats := clientHeartbeats[senderId := now];
        lastActivityTime := now;
      }
    }

    /** One pass of the Heartbeat coroutine: ask every client for a
        heartbeat, evict the clients silent for more than CLIENT_TIMEOUT
        (ending their player sessions), then shut down if the server has
        been idle for more than SERVER_TIMEOUT. Nothing stops the shutdown
        from being issued again on a later tick. */
    method Tick(now: int, endingOk: bool, removeOk: string -> bool) returns (evicted: seq<ClientId>, effects: seq<Effect>)
      requires Valid() && lastActivityTime <= now
      modifies this`clientHeartbeats, this`playerSessionIds
      ensures Valid()
      ensures NoDuplicates(evicted)
      ensures forall id :: id in evicted <==> id in old(clientHeartbeats) && now - old(clientHeartbeats)[id] > CLIENT_TIMEOUT
      ensures forall id :: id in clientHeartbeats <==> id in old(clientHeartbeats) && id !in evicted
      ensures forall id | id in clientHeartbeats ::
        clientHeartbeats[id] == old(clientHeartbeats)[id] && now - clientHeartbeats[id] <= CLIENT_TIMEOUT
      ensures forall id :: id in playerSessionIds <==> id in old(playerSessionIds) && id !in evicted
      ensures forall id | id in playerSessionIds :: playerSessionIds[id] == old(playerSessionIds)[id]
      ensures effects ==
        [RequestHeartbeats] + EvictionEffects(evicted, old(playerSessionIds), removeOk) +
        (if now - lastActivityTime > SERVER_TIMEOUT then ShutdownEffects(endingOk) else [])
      ensures now - lastActivityTime > SERVER_TIMEOUT ==> clientHeartbeats == map[]
    {
      evicted := CollectStale(clientHeartbeats, now);
      var evictions := Evict(evicted, removeOk);
      effects := [RequestHeartbeats] + evictions;
      if now - lastActivityTime > SERVER_TIMEOUT {
        // every heartbeat is at most lastActivityTime, so every client was evicted
        assert clientHeartbeats.Keys == {};
        effects := effects + ShutdownEffects(endingOk);
      }
    }

    /** The second loop of the heartbeat tick: remove each collected client,
        ending its player session if one was recorded, and disconnect it. */
    method Evict(ids: seq<ClientId>, removeOk: string -> bool) returns (effects: seq<Effect>)
      requires NoDuplicates(ids)
      modifies this`clientHeartbeats, this`playerSessionIds
      ensures forall id :: id in clientHeartbeats <==> id in old(clientHeartbeats) && id !in ids
      ensures forall id | id in clientHeartbeats :: clientHeartbeats[id] == old(clientHeartbeats)[id]
      ensures forall id :: id in playerSessionIds <==> id in old(playerSessionIds) && id !in ids
      ensures forall id | id in playerSessionIds :: playerSessionIds[id] == old(playerSessionIds)[id]
      ensures effects == EvictionEffects(ids, old(playerSessionIds), removeOk)
    {
      effects := [];
      for i := 0 to |ids|
        invariant forall id :: id in clientHeartbeats <==> id in old(clientHeartbeats) && id !in ids[..i]
        invariant forall id | id in clientHeartbeats :: clientHeartbeats[id] == old(clientHeartbeats)[id]
        invariant forall id :: id in playerSessionIds <==> id in old(playerSessionIds) && id !in ids[..i]
        invariant forall id | id in playerSessionIds :: playerSessionIds[id] == old(playerSessionIds)[id]
        invariant effects == EvictionEffects(ids[..i], old(playerSessionIds), removeOk)
      {
        var id := ids[i];
        assert ids[..i + 1][..i] == ids[..i] && ids[..i + 1][i] == id;
        assert id !in ids[..i];
        ghost var before := effects;
        clientHeartbeats := clientHeartbeats - {id};
        if id in playerSessionIds {
          var sessionId := playerSessionIds[id];
          effects := effects + Lift(GameLiftServer.TerminatePlayerSession(sessionId, removeOk(sessionId)));
          playerSessionIds := playerSessionIds - {id};
        }
        effects := effects + [DisconnectClient(id)];
        assert effects == before + EvictOne(id, old(playerSessionIds), removeOk);
      }
      assert ids[..|ids|] == ids;
    }

    /** ReportDeath: nothing off-server; on the server the source's kills
        and then the victim's deaths go up by one. */
    method ReportDeath(sourceId: ClientId, deadId: ClientId, connected: map<ClientId, FPSPlayer>)
      returns (outcome: Response<()>)
      requires Owned(connected)
      modifies connected.Values
      ensures DeathReported(isServer, sourceId, deadId, connected, outcome)
      ensures forall p | p in connected.Values :: p.health == old(p.health)
    {
      if !isServer {
        return Returned(());
      }
      if sourceId !in connected {
        return Threw;
      }
      var source := connected[sourceId];
      source.kills := Wrap32(source.kills + 1);
      if deadId !in connected {
        return Threw;
      }
      var dead := connected[deadId];
      dead.deaths := Wrap32(dead.deaths + 1);
      outcome := Returned(());
    }
  }

  /** A player's health at the end of TakeDamage on the server, from its
      health before the hit and whether the death report returned. */
  function HealthAfterHit(health: Int32, damage: Int32, maxHealth: Int32, deathReported: bool): (h: Int32)
    ensures 0 < health - damage <= INT32_MAX ==> h == health - damage
    ensures INT32_MIN <= health - damage <= 0 ==> h == if deathReported then maxHealth else 0
    ensures 0 < health <= maxHealth && 0 <= damage && (damage < health || deathReported) ==> 0 < h <= maxHealth
  {
    var hit := Wrap32(health - damage);
    if hit > 0 then hit
    else if deathReported then maxHealth
    else 0
  }

  /** A player: its health and its kill and death counters. */
  class FPSPlayer {
    const ownerClientId: ClientId
    const isServer: bool
    const maxHealth: Int32
    var health: Int32
    var kills: Int32
    var deaths: Int32

    constructor (ownerClientId: ClientId, isServer: bool)
      ensures this.ownerClientId == ownerClientId && this.isServer == isServer
      ensures maxHealth == 5 && health == 5 && kills == 0 && deaths == 0
    {
      this.ownerClientId := ownerClientId;
      this.isServer := isServer;
      maxHealth := 5;
      health := 5;
      kills := 0;
      deaths := 0;
    }

    /** TakeDamage: nothing off-server; on the server health drops by the
        damage (wrapping at 32 bits) and, at or below zero, is clamped to
        zero and the death handled. */
    method TakeDamage(sourceId: ClientId, damage: Int32, manager: EnvironmentManager, connected: map<ClientId, FPSPlayer>)
      returns (outcome: Response<()>)
      requires Owned(connected)
      modifies this`health, connected.Values
      ensures Damaged(this, sourceId, damage, manager, connected, outcome)
    {
      if !isServer {
        return Returned(());
      }
      health := Wrap32(health - damage);
      if health <= 0 {
        health := 0;
        label Dead:
        outcome := HandleDeath(sourceId, manager, connected);
        assert forall p | p in connected.Values && p != this :: old@Dead(p.health) == old(p.health);
      } else {
        outcome := Returned(());
      }
    }

    /** HandleDeath: report the death, then restore full health; when the
        report throws, health stays where it was. */
    method HandleDeath(sourceId: ClientId, manager: EnvironmentManager, connected: map<ClientId, FPSPlayer>)
      returns (outcome: Response<()>)
      requires Owned(connected)
      modifies this`health, connected.Values
      ensures DeathReported(manager.isServer, sourceId, ownerClientId, connected, outcome)
      ensures health == if outcome.Returned? then maxHealth else old(health)
      ensures forall p | p in connected.Values && p != this :: p.health == old(p.health)
    {
      outcome := manager.ReportDeath(sourceId, ownerClientId, connected);
      if outcome.Returned? {
        health := maxHealth;
      }
    }

    /** ReportHitServerRpc: look up the target and pass the source id and the
        damage on to its TakeDamage unchanged. */
    method ReportHit(sourceId: ClientId, targetId: ClientId, damage: Int32,
                     manager: EnvironmentManager, connected: map<ClientId, FPSPlayer>)
      returns (outcome: Response<()>)
      requires Owned(connected)
      modifies connected.Values
      ensures !isServer || targetId !in connected ==>
        outcome == (if isServer then Threw else Returned(())) && CountersUnchanged(connected) &&
        forall p | p in connected.Values :: p.health == old(p.health)
      ensures isServer && targetId in connected ==>
        Damaged(connected[targetId], sourceId, damage, manager, connected, outcome)
    {
      if !isServer {
        return Returned(());
      }
      if targetId !in connected {
        return Threw;
      }
      outcome := connected[targetId].TakeDamage(sourceId, damage, manager, connected);
    }
  }

  /** What TakeDamage(sourceId, damage) does to `target`: its health ends
      as HealthAfterHit says, no other player's health changes, and the
      counters change exactly as the death report says when the hit is
      lethal, and not at all otherwise. */
  twostate predicate Damaged(target: FPSPlayer, sourceId: ClientId, damage: Int32, manager: EnvironmentManager,
                             connected: map<ClientId, FPSPlayer>, new outcome: Response<()>)
    reads target, connected.Values
  {
    var lethal := Wrap32(old(target.health) - damage) <= 0;
    (forall p | p in connected.Values && p != target :: p.health == old(p.health)) &&
    if !target.isServer then
      outcome == Returned(()) && target.health == old(target.health) && CountersUnchanged(connected)
    else
      target.health == HealthAfterHit(old(target.health), damage, target.maxHealth, outcome.Returned?) &&
      if lethal then DeathReported(manager.isServer, sourceId, target.ownerClientId, connected, outcome)
      else outcome == Returned(()) && CountersUnchanged(connected)
  }
}
