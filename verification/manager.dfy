/** The registry of game sessions by id. Fresh ids and the current time are
    parameters: the program draws the former from a random UUID and the latter
    from the clock, here measured in whole seconds. */
module Manager {
  import opened Common
  import opened Characters
  import opened Sessions

  datatype Manager = Manager(sessions: map<SessionId, GameSession>)

  const SecondsPerHour := 3600

  /** Registers a new waiting session under `freshId` and returns that id. */
  function CreateSession(m: Manager, gmId: string, sessionName: string, freshId: SessionId, now: int): (r: (Manager, SessionId))
    ensures r.1 == freshId && freshId in r.0.sessions
    ensures r.0.sessions[freshId] == NewSession(freshId, gmId, sessionName, now)
    ensures Valid(r.0.sessions[freshId]) && r.0.sessions[freshId].state == Waiting
    ensures forall id :: id in m.sessions && id != freshId ==> id in r.0.sessions && r.0.sessions[id] == m.sessions[id]
    ensures r.0.sessions.Keys == m.sessions.Keys + {freshId}
  {
    (Manager(m.sessions[freshId := NewSession(freshId, gmId, sessionName, now)]), freshId)
  }

  function GetSession(m: Manager, sessionId: SessionId): (r: Option<GameSession>)
    ensures r.Some? <==> sessionId in m.sessions
    ensures r.Some? ==> r.value == m.sessions[sessionId]
  {
    if sessionId in m.sessions then Some(m.sessions[sessionId]) else None
  }

  /** Adds a player to an existing session; an unknown session refuses. */
  function JoinSession(m: Manager, sessionId: SessionId, playerId: PlayerId, c: Character): (r: (Manager, bool))
    ensures sessionId !in m.sessions ==> r == (m, false)
    ensures sessionId in m.sessions ==>
      var s := m.sessions[sessionId];
      && (r.1 <==> |s.characters| < MaxPlayers && playerId !in s.characters)
      && r.0.sessions == m.sessions[sessionId := AddPlayer(s, playerId, c).session]
      && (r.1 ==> playerId in r.0.sessions[sessionId].characters
                  && r.0.sessions[sessionId].characters[playerId] == c)
      && (!r.1 ==> r.0 == m)
  {
    match GetSession(m, sessionId)
    case None => (m, false)
    case Some(s) =>
      var step := AddPlayer(s, playerId, c);
      (Manager(m.sessions[sessionId := step.session]), step.out)
  }

  /** The sessions still open for play. */
  function ActiveSessions(m: Manager): (r: set<SessionId>)
    ensures forall id :: id in r <==> id in m.sessions && m.sessions[id].state in {Waiting, Active}
  {
    set id | id in m.sessions && m.sessions[id].state in {Waiting, Active}
  }

  /** A session is dropped once completed or created before the cutoff. */
  predicate Stale(s: GameSession, cutoff: int) {
    s.state == Completed || s.createdAt < cutoff
  }

  /** Drops every completed session and every session created more than
      `maxAgeHours` hours before `now`, and returns how many were dropped. */
  function CleanupOldSessions(m: Manager, now: int, maxAgeHours: int): (r: (Manager, nat))
    ensures var cutoff := now - maxAgeHours * SecondsPerHour;
      && (forall id :: id in r.0.sessions <==> id in m.sessions && !Stale(m.sessions[id], cutoff))
      && (forall id :: id in r.0.sessions ==> r.0.sessions[id] == m.sessions[id])
      && r.1 == |m.sessions| - |r.0.sessions|
      && r.1 == |set id | id in m.sessions && Stale(m.sessions[id], cutoff)|
  {
    var cutoff := now - maxAgeHours * SecondsPerHour;
    var kept := map id | id in m.sessions && !Stale(m.sessions[id], cutoff) :: m.sessions[id];
    var removed := set id | id in m.sessions && Stale(m.sessions[id], cutoff);
    assert m.sessions.Keys == kept.Keys + removed;
    assert kept.Keys * removed == {};
    (Manager(kept), |removed|)
  }

  /** Cleanup never drops a session that is open for play and young enough, and
      never reopens one: the open sessions after it are exactly the open ones that
      were not stale. */
  lemma CleanupKeepsOpenSessions(m: Manager, now: int, maxAgeHours: int)
    ensures var cutoff := now - maxAgeHours * SecondsPerHour;
            ActiveSessions(CleanupOldSessions(m, now, maxAgeHours).0)
              == set id | id in ActiveSessions(m) && !Stale(m.sessions[id], cutoff)
  {
  }

  /** A created session can be fetched under the returned id, is open for play,
      and is kept by a cleanup at the moment of its creation. */
  lemma CreateThenGet(m: Manager, gmId: string, sessionName: string, freshId: SessionId, now: int, maxAgeHours: int)
    requires maxAgeHours >= 0
    ensures var (m', id) := CreateSession(m, gmId, sessionName, freshId, now);
            && GetSession(m', id) == Some(NewSession(freshId, gmId, sessionName, now))
            && id in ActiveSessions(m')
            && id in CleanupOldSessions(m', now, maxAgeHours).0.sessions
  {
  }

  /** A second cleanup at the same moment drops nothing. */
  lemma CleanupIsIdempotent(m: Manager, now: int, maxAgeHours: int)
    ensures var once := CleanupOldSessions(m, now, maxAgeHours).0;
            CleanupOldSessions(once, now, maxAgeHours) == (once, 0)
  {
    var once := CleanupOldSessions(m, now, maxAgeHours).0;
    var twice := CleanupOldSessions(once, now, maxAgeHours).0;
    assert twice.sessions.Keys == once.sessions.Keys;
    assert twice.sessions == once.sessions;
  }
}
