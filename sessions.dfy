/** Session registry for WebSocket connections (src/session/session_manager.py).
    Time is a parameter `now`, in seconds; the asyncio lock and the background
    cleanup task are not modelled, so every registry operation is atomic. */
module Sessions {
  import opened Wrappers
  import Bounded

  /** Capacity of a session's conversation buffer. */
  const MaxContext: nat := 100

  /** Binary connection state; `Value` is its serialized form. */
  datatype ConnectionState = Connected | Disconnected {
    function Value(): string {
      if Connected? then "CONNECTED" else "DISCONNECTED"
    }
  }

  /** One conversation turn, stamped when it was added. */
  datatype Message = Message(timestamp: real, role: string, content: string)

  /** A seed message given to `CreateSession`; a missing role or content
      falls back to "user" or "". */
  datatype SeedMessage = SeedMessage(role: Option<string>, content: Option<string>)

  /** The serialized view of a session returned by `ToDict`. */
  datatype SessionInfo = SessionInfo(
    sessionId: string,
    connectionState: string,
    reconnectionAttempts: int,
    lastActive: real,
    createdAt: real,
    messageCount: nat,
    userId: Option<string>)

  /** Counts reported by `GetStats`. */
  datatype SessionStats = SessionStats(
    totalSessions: nat,
    activeSessions: nat,
    disconnectedSessions: nat,
    timeoutMinutes: int)

  /** The expiry rule: inactivity strictly longer than the timeout. */
  predicate Expired(lastActive: real, now: real, timeoutMinutes: int)
  {
    now - lastActive > (timeoutMinutes * 60) as real
  }

  /** A session is still live at exactly the timeout and expired just after. */
  lemma ExpiryIsStrict(lastActive: real, timeoutMinutes: int, later: real)
    requires later > 0.0
    ensures !Expired(lastActive, lastActive + (timeoutMinutes * 60) as real, timeoutMinutes)
    ensures Expired(lastActive, lastActive + (timeoutMinutes * 60) as real + later, timeoutMinutes)
  {
  }

  /** The messages of `ctx` newer than `cutoff`, in buffer order. */
  function RecentMessages(ctx: seq<Message>, cutoff: real): (r: seq<Message>)
    ensures |r| <= |ctx|
    ensures forall m :: m in r <==> m in ctx && m.timestamp > cutoff
  {
    if ctx == [] then []
    else (if ctx[0].timestamp > cutoff then [ctx[0]] else []) + RecentMessages(ctx[1..], cutoff)
  }

  /** Filtering distributes over concatenation, so the filter keeps the
      relative order of the buffer. */
  lemma {:induction false} RecentMessagesAppend(a: seq<Message>, b: seq<Message>, cutoff: real)
    ensures RecentMessages(a + b, cutoff) == RecentMessages(a, cutoff) + RecentMessages(b, cutoff)
  {
    if a != [] {
      var head := if a[0].timestamp > cutoff then [a[0]] else [];
      assert (a + b)[0] == a[0];
      assert (a + b)[1..] == a[1..] + b;
      calc {
        RecentMessages(a + b, cutoff);
        head + RecentMessages(a[1..] + b, cutoff);
        { RecentMessagesAppend(a[1..], b, cutoff); }
        head + (RecentMessages(a[1..], cutoff) + RecentMessages(b, cutoff));
        (head + RecentMessages(a[1..], cutoff)) + RecentMessages(b, cutoff);
        RecentMessages(a, cutoff) + RecentMessages(b, cutoff);
      }
    } else {
      assert a + b == b;
    }
  }

  /** When every message is newer than the cutoff, the whole buffer is returned. */
  lemma {:induction false} RecentMessagesAllNewer(ctx: seq<Message>, cutoff: real)
    requires forall k :: 0 <= k < |ctx| ==> ctx[k].timestamp > cutoff
    ensures RecentMessages(ctx, cutoff) == ctx
  {
    if ctx != [] {
      RecentMessagesAllNewer(ctx[1..], cutoff);
    }
  }

  /** Adding 150 messages to an empty buffer leaves messages 50..149. */
  lemma HundredFiftyAdds(ys: seq<Message>)
    requires |ys| == 150
    ensures Bounded.PushAll([], ys, MaxContext) == ys[50..]
  {
    Bounded.PushAllIsWindow(ys, MaxContext);
  }

  /** The messages seeded at creation, each stamped `now`, with the defaults
      for a missing role or content. */
  function SeedMessages(seed: seq<SeedMessage>, now: real): (r: seq<Message>)
    ensures |r| == |seed|
    ensures forall k :: 0 <= k < |seed| ==>
      r[k] == Message(now, seed[k].role.GetOr("user"), seed[k].content.GetOr(""))
  {
    seq(|seed|, k requires 0 <= k < |seed| =>
      Message(now, seed[k].role.GetOr("user"), seed[k].content.GetOr("")))
  }

  class WebSocketSession {
    const sessionId: string
    var connectionState: ConnectionState
    var reconnectionAttempts: int
    var lastActive: real
    var conversationContext: seq<Message>
    const createdAt: real
    const userId: Option<string>

    ghost predicate Valid()
      reads this
    {
      |conversationContext| <= MaxContext
    }

    /** A new session starts disconnected, with no history. */
    constructor (id: string, now: real)
      ensures Valid()
      ensures sessionId == id && connectionState == Disconnected && reconnectionAttempts == 0
      ensures lastActive == now && createdAt == now && conversationContext == [] && userId == None
    {
      sessionId := id;
      connectionState := Disconnected;
      reconnectionAttempts := 0;
      lastActive := now;
      conversationContext := [];
      createdAt := now;
      userId := None;
    }

    /** The session is past its timeout (5 minutes by default). */
    predicate IsExpired(now: real, timeoutMinutes: int := 5): (b: bool)
      reads this
      ensures b <==> now > lastActive + (timeoutMinutes * 60) as real
      ensures timeoutMinutes >= 0 && now <= lastActive ==> !b
    {
      Expired(lastActive, now, timeoutMinutes)
    }

    method Touch(now: real)
      modifies this`lastActive
      ensures lastActive == now
    {
      lastActive := now;
    }

    method MarkConnected(now: real)
      modifies this`connectionState, this`reconnectionAttempts, this`lastActive
      ensures connectionState == Connected && reconnectionAttempts == 0 && lastActive == now
    {
      connectionState := Connected;
      reconnectionAttempts := 0;
      Touch(now);
    }

    method MarkDisconnected(now: real)
      modifies this`connectionState, this`lastActive
      ensures connectionState == Disconnected && lastActive == now
    {
      connectionState := Disconnected;
      Touch(now);
    }

    /** Appends a stamped message, dropping the oldest one when the buffer
        already holds `MaxContext` entries, and touches the session. */
    method AddMessage(role: string, content: string, now: real)
      requires Valid()
      modifies this`conversationContext, this`lastActive
      ensures Valid()
      ensures conversationContext == Bounded.Push(old(conversationContext), Message(now, role, content), MaxContext)
      ensures lastActive == now
    {
      conversationContext := Bounded.Push(conversationContext, Message(now, role, content), MaxContext);
      Touch(now);
    }

    /** The messages added within the last `windowMinutes` (5 by default), in buffer order. */
    function GetRecentContext(now: real, windowMinutes: int := 5): (r: seq<Message>)
      reads this
      ensures |r| <= |conversationContext|
      ensures forall m :: m in r <==> m in conversationContext && m.timestamp > now - (windowMinutes * 60) as real
    {
      RecentMessages(conversationContext, now - (windowMinutes * 60) as real)
    }

    function ToDict(): (r: SessionInfo)
      reads this
      requires Valid()
      ensures r.sessionId == sessionId && r.messageCount <= MaxContext
      ensures r.connectionState == "CONNECTED" <==> connectionState == Connected
    {
      SessionInfo(sessionId, connectionState.Value(), reconnectionAttempts, lastActive, createdAt,
        |conversationContext|, userId)
    }
  }

  /** A string of `n` copies of 'x'. */
  function Filler(n: nat): (r: string)
    ensures |r| == n
  {
    seq(n, _ => 'x')
  }

  /** Every finite set of strings has an upper bound on the lengths of its members. */
  lemma {:induction false} LengthBound(keys: set<string>) returns (n: nat)
    ensures forall k :: k in keys ==> |k| < n
  {
    if keys == {} {
      n := 0;
    } else {
      var k0 :| k0 in keys;
      var m := LengthBound(keys - {k0});
      n := if |k0| < m then m else |k0| + 1;
    }
  }

  /** A new session under `id` holding the seed messages, added one by one
      as the registry does before marking the session connected. */
  method SeededSession(id: string, seed: seq<SeedMessage>, now: real) returns (s: WebSocketSession)
    ensures fresh(s) && s.Valid() && s.sessionId == id
    ensures s.connectionState == Disconnected && s.reconnectionAttempts == 0
    ensures s.createdAt == now && s.lastActive == now
    ensures s.conversationContext == Bounded.Window(SeedMessages(seed, now), MaxContext)
  {
    s := new WebSocketSession(id, now);
    ghost var msgs := SeedMessages(seed, now);
    for i := 0 to |seed|
      invariant fresh(s) && s.Valid() && s.sessionId == id
      invariant s.conversationContext == Bounded.PushAll([], msgs[..i], MaxContext)
      invariant s.connectionState == Disconnected && s.reconnectionAttempts == 0
      invariant s.createdAt == now && s.lastActive == now
    {
      Bounded.PushAllPrefixSnoc([], msgs, i, MaxContext);
      s.AddMessage(seed[i].role.GetOr("user"), seed[i].content.GetOr(""), now);
    }
    assert msgs[..|seed|] == msgs;
    Bounded.PushAllIsWindow(msgs, MaxContext);
  }

  class SessionManager {
    var sessions: map<string, WebSocketSession>
    const timeoutMinutes: int
    const cleanupInterval: int

    /** Every session is stored under its own id, so no two ids share an object. */
    ghost predicate Valid()
      reads this, sessions.Values
    {
      forall id :: id in sessions ==> sessions[id].sessionId == id && sessions[id].Valid()
    }

    /** The session object stored under `id`, if any: the only object an
        operation on `id` may change. */
    function Handle(id: string): set<object>
      reads this
    {
      if id in sessions then {sessions[id]} else {}
    }

    constructor (timeoutMinutes: int := 5, cleanupInterval: int := 60)
      ensures Valid() && sessions == map[]
      ensures this.timeoutMinutes == timeoutMinutes && this.cleanupInterval == cleanupInterval
    {
      sessions := map[];
      this.timeoutMinutes := timeoutMinutes;
      this.cleanupInterval := cleanupInterval;
    }

    /** Registers a connected session under an id not yet in use, seeded with
        the given messages in order (the newest `MaxContext` of them). */
    method CreateSession(seed: seq<SeedMessage>, now: real) returns (id: string)
      requires Valid()
      modifies this
      ensures Valid()
      ensures id !in old(sessions) && sessions.Keys == old(sessions).Keys + {id}
      ensures forall k :: k in old(sessions) ==> sessions[k] == old(sessions)[k]
      ensures fresh(sessions[id])
      ensures sessions[id].connectionState == Connected && sessions[id].reconnectionAttempts == 0
      ensures sessions[id].lastActive == now && sessions[id].createdAt == now
      ensures sessions[id].conversationContext == Bounded.Window(SeedMessages(seed, now), MaxContext)
    {
      var bound := LengthBound(sessions.Keys);
      assert Filler(bound) !in sessions;
      id :| id !in sessions;
      var s := SeededSession(id, seed, now);
      s.MarkConnected(now);
      sessions := sessions[id := s];
    }

    /** Returns the live session stored under `id`; an expired one is evicted
        and, like an unknown id, yields null. */
    method GetSession(id: string, now: real) returns (s: WebSocketSession?)
      requires Valid()
      modifies this
      ensures Valid()
      ensures id !in old(sessions) ==> s == null && sessions == old(sessions)
      ensures id in old(sessions) && old(sessions)[id].IsExpired(now, timeoutMinutes) ==>
        s == null && sessions == old(sessions) - {id}
      ensures id in old(sessions) && !old(sessions)[id].IsExpired(now, timeoutMinutes) ==>
        s == old(sessions)[id] && sessions == old(sessions)
    {
      if id !in sessions {
        return null;
      }
      s := sessions[id];
      if s.IsExpired(now, timeoutMinutes) {
        sessions := sessions - {id};
        return null;
      }
    }

    /** `GetSession` followed, on a hit, by marking the session connected. */
    method RestoreSession(id: string, now: real) returns (s: WebSocketSession?)
      requires Valid()
      modifies this, Handle(id)
      ensures Valid()
      ensures id !in old(sessions) ==> s == null && sessions == old(sessions)
      ensures id in old(sessions) && old(sessions[id].IsExpired(now, timeoutMinutes)) ==>
        s == null && sessions == old(sessions) - {id}
      ensures id in old(sessions) && !old(sessions[id].IsExpired(now, timeoutMinutes)) ==>
        s == old(sessions)[id] && sessions == old(sessions)
        && s.connectionState == Connected && s.reconnectionAttempts == 0 && s.lastActive == now
        && s.conversationContext == old(s.conversationContext)
    {
      s := GetSession(id, now);
      if s != null {
        s.MarkConnected(now);
      }
    }

    /** Marks a known session disconnected and touches it; its history is
        kept.  An unknown id changes nothing (the frame is empty). */
    method DisconnectSession(id: string, now: real)
      requires Valid()
      modifies Handle(id)
      ensures Valid()
      ensures id in sessions ==>
        sessions[id].connectionState == Disconnected && sessions[id].lastActive == now
        && sessions[id].reconnectionAttempts == old(sessions[id].reconnectionAttempts)
        && sessions[id].conversationContext == old(sessions[id].conversationContext)
    {
      if id in sessions {
        sessions[id].MarkDisconnected(now);
      }
    }

    /** Refreshes the activity time of a known session; an unknown id changes nothing. */
    method TouchSession(id: string, now: real)
      requires Valid()
      modifies Handle(id)
      ensures Valid()
      ensures id in sessions ==>
        sessions[id].lastActive == now
        && sessions[id].connectionState == old(sessions[id].connectionState)
        && sessions[id].reconnectionAttempts == old(sessions[id].reconnectionAttempts)
        && sessions[id].conversationContext == old(sessions[id].conversationContext)
    {
      if id in sessions {
        sessions[id].Touch(now);
      }
    }

    /** Appends a turn to a known session's history; an unknown id changes nothing. */
    method UpdateSession(id: string, role: string, content: string, now: real)
      requires Valid()
      modifies Handle(id)
      ensures Valid()
      ensures id in sessions ==>
        sessions[id].conversationContext
          == Bounded.Push(old(sessions[id].conversationContext), Message(now, role, content), MaxContext)
        && sessions[id].lastActive == now
        && sessions[id].connectionState == old(sessions[id].connectionState)
        && sessions[id].reconnectionAttempts == old(sessions[id].reconnectionAttempts)
    {
      if id in sessions {
        sessions[id].AddMessage(role, content, now);
      }
    }

    /** Removes `id` whether or not it has expired; an unknown id changes nothing. */
    method DeleteSession(id: string)
      requires Valid()
      modifies this
      ensures Valid()
      ensures sessions == old(sessions) - {id}
    {
      if id in sessions {
        sessions := sessions - {id};
      }
    }

    /** The active sweep: removes exactly the expired sessions and reports
        how many there were; the others stay untouched. */
    method CleanupExpiredSessions(now: real) returns (count: nat)
      requires Valid()
      modifies this
      ensures Valid()
      ensures sessions == map k | k in old(sessions) && !old(sessions)[k].IsExpired(now, timeoutMinutes)
                                :: old(sessions)[k]
      ensures count == |set k | k in old(sessions) && old(sessions)[k].IsExpired(now, timeoutMinutes)|
    {
      var expired := set k | k in sessions && sessions[k].IsExpired(now, timeoutMinutes);
      count := |expired|;
      var pending := expired;
      while pending != {}
        invariant pending <= expired
        invariant sessions == old(sessions) - (expired - pending)
        decreases pending
      {
        var sid :| sid in pending;
        sessions := sessions - {sid};
        pending := pending - {sid};
      }
      assert expired == set k | k in old(sessions) && old(sessions)[k].IsExpired(now, timeoutMinutes);
      assert sessions == old(sessions) - expired;
      assert forall k :: k in sessions <==> k in old(sessions) && k !in expired;
    }

    /** Session counts by state; every session is counted in exactly one state. */
    function GetStats(): (r: SessionStats)
      reads this, sessions.Values
      ensures r.totalSessions == |sessions| == r.activeSessions + r.disconnectedSessions
      ensures r.timeoutMinutes == timeoutMinutes
    {
      var active := set k | k in sessions && sessions[k].connectionState == Connected;
      var disconnected := set k | k in sessions && sessions[k].connectionState == Disconnected;
      assert sessions.Keys == active + disconnected;
      assert active * disconnected == {};
      SessionStats(|sessions|, |active|, |disconnected|, timeoutMinutes)
    }
  }

  /** A disconnect followed by a restore within the timeout brings the same
      session back connected, with its history unchanged in order and content. */
  method DisconnectThenRestore(m: SessionManager, id: string, t1: real, t2: real)
    returns (s: WebSocketSession?)
    requires m.Valid() && id in m.sessions
    requires t1 <= t2 && t2 - t1 <= (m.timeoutMinutes * 60) as real
    modifies m, m.sessions[id]
    ensures m.Valid()
    ensures s == old(m.sessions[id]) && s.connectionState == Connected
    ensures s.conversationContext == old(m.sessions[id].conversationContext)
  {
    m.DisconnectSession(id, t1);
    s := m.RestoreSession(id, t2);
  }
}
