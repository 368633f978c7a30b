/** Connection and security bookkeeping of the production server
    (production/production_server.py).  Configuration values come in as a
    `Config`; socket I/O is reduced to whether a send succeeds. */
module Production {
  import Text

  /** The settings the bookkeeping reads. */
  datatype Config = Config(
    rateLimitEnabled: bool,
    wsMaxSize: nat,
    sessionTimeout: real,
    sessionMaxConcurrent: nat)

  /** The shipped defaults of production/production_config.py: the
      configuration both managers read when the environment sets nothing. */
  const DefaultConfig: Config := Config(true, 1048576, 300.0, 100)

  /** Failed attempts at which an address is blocked. */
  const BlockThreshold: nat := 5

  /** Seconds since last activity below which a session counts as active. */
  const ActiveWindow: real := 300.0

  const DangerousPatterns: seq<string> := ["<script", "javascript:", "onload=", "onerror=", "eval("]

  /** A payload handed to input screening: text, or anything else. */
  datatype Payload = Text(text: string) | NonText

  /** time.time() % 3600 (floored modulo, as Python's float %). */
  function HourPhase(now: real): (r: real)
    ensures 0.0 <= r < 3600.0
  {
    now - 3600.0 * ((now / 3600.0).Floor as real)
  }

  /** The payload screen: no dangerous pattern in the lower-cased text and
      not longer than the limit. */
  predicate SafeText(config: Config, s: string)
  {
    (forall k :: 0 <= k < |DangerousPatterns| ==> !Text.Contains(Text.Lower(s), DangerousPatterns[k]))
    && |s| <= config.wsMaxSize
  }

  /** The screen ignores case: a script tag in capitals is still refused. */
  lemma UpperCaseScriptRefused(config: Config, pre: string, post: string)
    ensures !SafeText(config, pre + "<SCRIPT" + post)
  {
    var lower := Text.Lower(pre + "<SCRIPT" + post);
    Text.LowerAppend(pre + "<SCRIPT", post);
    Text.LowerAppend(pre, "<SCRIPT");
    assert Text.Lower("<SCRIPT") == "<script";
    Text.ContainsInfix(lower, "<script", Text.Lower(pre), Text.Lower(post));
    assert DangerousPatterns[0] == "<script";
  }

  class SecurityManager {
    const config: Config
    var failedAttempts: map<string, nat>
    var blockedIps: set<string>

    /** An address with five or more recorded failures is blocked. */
    ghost predicate Valid()
      reads this
    {
      forall ip :: ip in failedAttempts && failedAttempts[ip] >= BlockThreshold ==> ip in blockedIps
    }

    function FailureCount(ip: string): nat
      reads this
    {
      if ip in failedAttempts then failedAttempts[ip] else 0
    }

    constructor (cfg: Config := DefaultConfig)
      ensures Valid() && config == cfg && failedAttempts == map[] && blockedIps == {}
    {
      config := cfg;
      failedAttempts := map[];
      blockedIps := {};
    }

    /** Text is rejected when its lower-cased form holds a dangerous pattern
        or it is too long; any other payload is accepted. */
    method ValidateInput(data: Payload) returns (ok: bool)
      ensures data.NonText? ==> ok
      ensures data.Text? ==> (ok <==> SafeText(config, data.text))
    {
      if data.Text? {
        var lower := Text.Lower(data.text);
        for k := 0 to |DangerousPatterns|
          invariant forall j :: 0 <= j < k ==> !Text.Contains(lower, DangerousPatterns[j])
        {
          if Text.Contains(lower, DangerousPatterns[k]) {
            return false;
          }
        }
        if |data.text| > config.wsMaxSize {
          return false;
        }
      }
      return true;
    }

    /** Refuses blocked addresses; otherwise clears all failure counts in
        the first minute of each hour and allows fewer than five failures.
        With the invariant this means: allowed iff not blocked. */
    method CheckRateLimit(ip: string, now: real) returns (allowed: bool)
      requires Valid()
      modifies this`failedAttempts
      ensures Valid()
      ensures !config.rateLimitEnabled ==> allowed && failedAttempts == old(failedAttempts)
      ensures config.rateLimitEnabled && ip in blockedIps ==> !allowed && failedAttempts == old(failedAttempts)
      ensures config.rateLimitEnabled && ip !in blockedIps ==>
        failedAttempts == (if HourPhase(now) < 60.0 then map[] else old(failedAttempts))
        && allowed == (FailureCount(ip) < BlockThreshold)
      ensures config.rateLimitEnabled ==> (allowed <==> ip !in blockedIps)
    {
      if !config.rateLimitEnabled {
        return true;
      }
      if ip in blockedIps {
        return false;
      }
      if HourPhase(now) < 60.0 {
        failedAttempts := map[];
      }
      allowed := FailureCount(ip) < BlockThreshold;
    }

    /** Counts one more failure; the fifth blocks the address for good. */
    method RecordFailedAttempt(ip: string)
      requires Valid()
      modifies this
      ensures Valid()
      ensures failedAttempts == old(failedAttempts)[ip := old(FailureCount(ip)) + 1]
      ensures blockedIps == if FailureCount(ip) >= BlockThreshold then old(blockedIps) + {ip} else old(blockedIps)
      ensures old(blockedIps) <= blockedIps
    {
      failedAttempts := failedAttempts[ip := FailureCount(ip) + 1];
      if failedAttempts[ip] >= BlockThreshold {
        blockedIps := blockedIps + {ip};
      }
    }
  }

  /** A blocked address stays refused whatever happens afterwards:
      neither the periodic clear nor further failures unblock it. */
  method BlockedStaysBlocked(m: SecurityManager, ip: string, now1: real, now2: real) returns (first: bool, second: bool)
    requires m.Valid() && m.config.rateLimitEnabled && ip in m.blockedIps
    modifies m
    ensures !first && !second
  {
    first := m.CheckRateLimit(ip, now1);
    m.RecordFailedAttempt(ip);
    second := m.CheckRateLimit(ip, now2);
  }

  /** Five failures in a row block a fresh address. */
  method FiveFailuresBlock(m: SecurityManager, ip: string) returns (allowed: bool)
    requires m.Valid() && m.config.rateLimitEnabled && ip !in m.failedAttempts
    modifies m
    ensures ip in m.blockedIps && !allowed
  {
    for i := 0 to 5
      invariant m.Valid()
      invariant i < BlockThreshold ==> m.FailureCount(ip) == i
      invariant i == BlockThreshold ==> ip in m.blockedIps
    {
      m.RecordFailedAttempt(ip);
    }
    allowed := m.CheckRateLimit(ip, 0.0);
  }

  /** A live websocket; its identity is all the bookkeeping needs. */
  datatype Socket = Socket(peer: string)

  datatype SessionData = SessionData(created: real, lastActivity: real, messageCount: nat)

  datatype Stats = Stats(totalConnections: nat, activeSessions: nat, totalMessages: nat, uptime: real)

  predicate Expired(config: Config, data: SessionData, now: real)
  {
    now - data.lastActivity > config.sessionTimeout
  }

  /** The sessions idle for longer than the timeout. */
  function ExpiredIds(config: Config, data: map<string, SessionData>, now: real): set<string>
  {
    set id | id in data && Expired(config, data[id], now)
  }

  /** The ids in a list. */
  function Elems(ids: seq<string>): set<string>
  {
    if ids == [] then {} else Elems(ids[..|ids| - 1]) + {ids[|ids| - 1]}
  }

  lemma {:induction false} ElemsMembers(ids: seq<string>)
    ensures forall id :: id in Elems(ids) <==> id in ids
    decreases |ids|
  {
    if ids != [] {
      ElemsMembers(ids[..|ids| - 1]);
      assert ids == ids[..|ids| - 1] + [ids[|ids| - 1]];
    }
  }

  /** Removing a set of keys and then one more key. */
  lemma MinusOneMore<V>(m: map<string, V>, done: set<string>, id: string)
    ensures (m - done) - {id} == m - (done + {id})
  {
  }

  /** What get_stats adds up per session: its message counter, or one
      when it was active in the last five minutes. */
  datatype Measure = Messages | ActiveAt(now: real)

  function Weight(m: Measure, d: SessionData): nat
  {
    match m
    case Messages => d.messageCount
    case ActiveAt(now) => if now - d.lastActivity < ActiveWindow then 1 else 0
  }

  /** The sum of a measure over the sessions in `keys`. */
  ghost function Total(data: map<string, SessionData>, keys: set<string>, m: Measure): nat
    requires keys <= data.Keys
    decreases keys
  {
    if keys == {} then 0
    else
      var k :| k in keys;
      Weight(m, data[k]) + Total(data, keys - {k}, m)
  }

  /** The sum does not depend on which key is taken out first. */
  lemma {:induction false} TotalRemove(data: map<string, SessionData>, keys: set<string>, k: string, m: Measure)
    requires k in keys && keys <= data.Keys
    ensures Total(data, keys, m) == Weight(m, data[k]) + Total(data, keys - {k}, m)
    decreases keys
  {
    var j :| j in keys && Total(data, keys, m) == Weight(m, data[j]) + Total(data, keys - {j}, m);
    if j != k {
      TotalRemove(data, keys - {j}, k, m);
      TotalRemove(data, keys - {k}, j, m);
      assert keys - {j} - {k} == keys - {k} - {j};
    }
  }

  /** The sessions among `keys` active in the last five minutes. */
  function ActiveIds(data: map<string, SessionData>, keys: set<string>, now: real): set<string>
    requires keys <= data.Keys
  {
    set id | id in keys && now - data[id].lastActivity < ActiveWindow
  }

  /** Summing the activity measure counts the active sessions. */
  lemma {:induction false} ActiveTotal(data: map<string, SessionData>, keys: set<string>, now: real)
    requires keys <= data.Keys
    ensures Total(data, keys, ActiveAt(now)) == |ActiveIds(data, keys, now)|
    decreases keys
  {
    if keys != {} {
      var k :| k in keys;
      TotalRemove(data, keys, k, ActiveAt(now));
      ActiveTotal(data, keys - {k}, now);
      var rest := ActiveIds(data, keys - {k}, now);
      if now - data[k].lastActivity < ActiveWindow {
        assert ActiveIds(data, keys, now) == rest + {k};
      } else {
        assert ActiveIds(data, keys, now) == rest;
      }
    }
  }

  class ProductionWebSocketManager {
    const config: Config
    var connections: map<string, Socket>
    var sessionData: map<string, SessionData>
    var connectionTimestamps: map<string, real>

    /** The three tables always have the same ids, and the table never
        exceeds the concurrency limit. */
    ghost predicate Valid()
      reads this
    {
      connections.Keys == sessionData.Keys == connectionTimestamps.Keys
      && |connections| <= config.sessionMaxConcurrent
    }

    constructor (cfg: Config := DefaultConfig)
      ensures Valid() && config == cfg
      ensures connections == map[] && sessionData == map[] && connectionTimestamps == map[]
    {
      config := cfg;
      connections := map[];
      sessionData := map[];
      connectionTimestamps := map[];
    }

    /** Refuses when the table is full; otherwise (re)registers the id in
        all three tables with a zero message count. */
    method Connect(socket: Socket, sessionId: string, now: real) returns (ok: bool)
      requires Valid()
      modifies this
      ensures Valid()
      ensures ok <==> old(|connections|) < config.sessionMaxConcurrent
      ensures !ok ==>
        connections == old(connections) && sessionData == old(sessionData)
        && connectionTimestamps == old(connectionTimestamps)
      ensures ok ==>
        connections == old(connections)[sessionId := socket]
        && connectionTimestamps == old(connectionTimestamps)[sessionId := now]
        && sessionData == old(sessionData)[sessionId := SessionData(now, now, 0)]
    {
      if |connections| >= config.sessionMaxConcurrent {
        return false;
      }
      connections := connections[sessionId := socket];
      connectionTimestamps := connectionTimestamps[sessionId := now];
      sessionData := sessionData[sessionId := SessionData(now, now, 0)];
      return true;
    }

    /** Removes the id from all three tables; an unknown id changes nothing. */
    method Disconnect(sessionId: string)
      requires Valid()
      modifies this`connections, this`sessionData, this`connectionTimestamps
      ensures Valid()
      ensures connections == old(connections) - {sessionId}
      ensures sessionData == old(sessionData) - {sessionId}
      ensures connectionTimestamps == old(connectionTimestamps) - {sessionId}
    {
      if sessionId in connections {
        connections := connections - {sessionId};
      }
      if sessionId in sessionData {
        sessionData := sessionData - {sessionId};
      }
      if sessionId in connectionTimestamps {
        connectionTimestamps := connectionTimestamps - {sessionId};
      }
    }

    /** Sends to one session.  `delivered` is whether the socket send
        succeeded; a failed send disconnects the session. */
    method SendPersonalMessage(message: string, sessionId: string, now: real, delivered: bool) returns (ok: bool)
      requires Valid()
      modifies this
      ensures Valid()
      ensures ok <==> sessionId in old(connections) && delivered
      ensures sessionId !in old(connections) ==>
        connections == old(connections) && sessionData == old(sessionData)
        && connectionTimestamps == old(connectionTimestamps)
      ensures ok ==>
        connections == old(connections) && connectionTimestamps == old(connectionTimestamps)
        && sessionData == old(sessionData)[sessionId := old(sessionData)[sessionId].(
             lastActivity := now, messageCount := old(sessionData)[sessionId].messageCount + 1)]
      ensures sessionId in old(connections) && !delivered ==>
        connections == old(connections) - {sessionId} && sessionData == old(sessionData) - {sessionId}
        && connectionTimestamps == old(connectionTimestamps) - {sessionId}
    {
      if sessionId !in connections {
        return false;
      }
      if !delivered {
        Disconnect(sessionId);
        return false;
      }
      if sessionId in sessionData {
        var d := sessionData[sessionId];
        sessionData := sessionData[sessionId := d.(lastActivity := now, messageCount := d.messageCount + 1)];
      }
      return true;
    }

    /** The scan of cleanup_expired_sessions: the ids of the expired
        sessions, each once (dict order is not modelled). */
    method ExpiredSessions(now: real) returns (expired: seq<string>)
      ensures forall id :: id in expired <==> id in sessionData && Expired(config, sessionData[id], now)
    {
      expired := [];
      var pending := sessionData.Keys;
      while pending != {}
        invariant pending <= sessionData.Keys
        invariant forall id :: id in expired <==> id in sessionData.Keys - pending && Expired(config, sessionData[id], now)
        decreases pending
      {
        var id :| id in pending;
        if Expired(config, sessionData[id], now) {
          expired := expired + [id];
        }
        pending := pending - {id};
      }
    }

    /** Disconnects the listed ids in order. */
    method DisconnectAll(ids: seq<string>)
      requires Valid()
      modifies this`connections, this`sessionData, this`connectionTimestamps
      ensures Valid()
      ensures sessionData == old(sessionData) - Elems(ids)
      ensures connections == old(connections) - Elems(ids)
      ensures connectionTimestamps == old(connectionTimestamps) - Elems(ids)
    {
      for i := 0 to |ids|
        invariant Valid()
        invariant sessionData == old(sessionData) - Elems(ids[..i])
        invariant connections == old(connections) - Elems(ids[..i])
        invariant connectionTimestamps == old(connectionTimestamps) - Elems(ids[..i])
      {
        assert ids[..i + 1][..i] == ids[..i];
        Disconnect(ids[i]);
        MinusOneMore(old(sessionData), Elems(ids[..i]), ids[i]);
        MinusOneMore(old(connections), Elems(ids[..i]), ids[i]);
        MinusOneMore(old(connectionTimestamps), Elems(ids[..i]), ids[i]);
      }
      assert ids[..|ids|] == ids;
    }

    /** Disconnects exactly the sessions idle for longer than the timeout;
        the others are untouched. */
    method CleanupExpiredSessions(now: real)
      requires Valid()
      modifies this`connections, this`sessionData, this`connectionTimestamps
      ensures Valid()
      ensures sessionData == old(sessionData) - ExpiredIds(config, old(sessionData), now)
      ensures connections == old(connections) - ExpiredIds(config, old(sessionData), now)
      ensures connectionTimestamps == old(connectionTimestamps) - ExpiredIds(config, old(sessionData), now)
    {
      var expired := ExpiredSessions(now);
      ElemsMembers(expired);
      assert Elems(expired) == ExpiredIds(config, sessionData, now);
      DisconnectAll(expired);
    }

    /** Reports the table size, the sessions active in the last five
        minutes and the total message count. */
    method GetStats(now: real, startTime: real) returns (stats: Stats)
      requires Valid()
      ensures stats.totalConnections == |connections|
      ensures stats.activeSessions == |ActiveIds(sessionData, sessionData.Keys, now)|
      ensures stats.totalMessages == Total(sessionData, sessionData.Keys, Messages)
      ensures stats.uptime == now - startTime
    {
      var active: nat := 0;
      var total: nat := 0;
      var pending := sessionData.Keys;
      while pending != {}
        invariant pending <= sessionData.Keys
        invariant active + Total(sessionData, pending, ActiveAt(now)) == Total(sessionData, sessionData.Keys, ActiveAt(now))
        invariant total + Total(sessionData, pending, Messages) == Total(sessionData, sessionData.Keys, Messages)
        decreases pending
      {
        var id :| id in pending;
        TotalRemove(sessionData, pending, id, ActiveAt(now));
        TotalRemove(sessionData, pending, id, Messages);
        if now - sessionData[id].lastActivity < ActiveWindow {
          active := active + 1;
        }
        total := total + sessionData[id].messageCount;
        pending := pending - {id};
      }
      ActiveTotal(sessionData, sessionData.Keys, now);
      stats := Stats(|connections|, active, total, now - startTime);
    }
  }
}
