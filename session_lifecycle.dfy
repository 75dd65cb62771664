/**
 * The store of game sessions behind the API: creating a session, adding a spin to it,
 * closing it and reading it back. Each session belongs to one user and is open until its end
 * time is set; an operation that fails leaves the store exactly as it was, which is what the
 * surrounding database transaction guarantees.
 */
module SessionLifecycle {
  import opened Wrappers
  import opened Money
  import opened Models
  import opened PLCalculation

  /** The failures an operation on a session reports, in the order they are checked. */
  datatype LifecycleError = NotFound | Forbidden | InvalidState(message: string)

  const ClosedSessionMessage := "Cannot add spins to a closed session."
  const AlreadyClosedMessage := "Session is already closed."

  /** The validated fields of a spin request; the request's `min:0` rule keeps the bet non-negative. */
  datatype SpinData = SpinData(result: string, betAmount: Cents, pl: Cents)

  // ---------------------------------------------------------------------------------------
  // Guards, as functions of the stored sessions

  /** Lookup then ownership: the checks every operation on an existing session starts with. */
  function Access(sessions: map<nat, Session>, sessionId: nat, userId: nat): (o: Outcome<LifecycleError>)
    ensures o == Fail(NotFound) <==> sessionId !in sessions
    ensures o == Fail(Forbidden) <==> sessionId in sessions && sessions[sessionId].userId != userId
    ensures o == Pass <==> sessionId in sessions && sessions[sessionId].userId == userId
  {
    if sessionId !in sessions then Fail(NotFound)
    else if sessions[sessionId].userId != userId then Fail(Forbidden)
    else Pass
  }

  /** Access, then the session must still be open; `closedMessage` names the refused operation. */
  function RequireOpen(sessions: map<nat, Session>, sessionId: nat, userId: nat, closedMessage: string)
    : (o: Outcome<LifecycleError>)
    ensures o == Pass <==>
      sessionId in sessions && sessions[sessionId].userId == userId && sessions[sessionId].IsOpen()
    ensures o == Fail(InvalidState(closedMessage)) <==>
      sessionId in sessions && sessions[sessionId].userId == userId && !sessions[sessionId].IsOpen()
    ensures o.Fail? && !o.error.InvalidState? ==> o == Access(sessions, sessionId, userId)
  {
    var access := Access(sessions, sessionId, userId);
    if access.Fail? then access
    else if !sessions[sessionId].IsOpen() then Fail(InvalidState(closedMessage))
    else Pass
  }

  /** Ownership is checked before the open state: someone else's closed session is Forbidden. */
  lemma ForbiddenBeforeClosed(sessions: map<nat, Session>, sessionId: nat, userId: nat, closedMessage: string)
    requires sessionId in sessions && sessions[sessionId].userId != userId
    requires !sessions[sessionId].IsOpen()
    ensures RequireOpen(sessions, sessionId, userId, closedMessage) == Fail(Forbidden)
  {
  }

  /** The sessions of one user. */
  function SessionsOf(sessions: map<nat, Session>, userId: nat): set<nat> {
    set id | id in sessions && sessions[id].userId == userId
  }

  /** Storing a session under a new id adds one to its owner's sessions and none to anyone else's. */
  lemma SessionsOfInsert(sessions: map<nat, Session>, id: nat, s: Session, userId: nat)
    requires id !in sessions
    ensures userId == s.userId ==> |SessionsOf(sessions[id := s], userId)| == |SessionsOf(sessions, userId)| + 1
    ensures userId != s.userId ==> SessionsOf(sessions[id := s], userId) == SessionsOf(sessions, userId)
  {
    if userId == s.userId {
      assert SessionsOf(sessions[id := s], userId) == SessionsOf(sessions, userId) + {id};
    } else {
      assert SessionsOf(sessions[id := s], userId) == SessionsOf(sessions, userId);
    }
  }

  /** Once a session is closed it stays closed at the same time, with the same spins or more. */
  predicate Evolves(before: map<nat, Session>, after: map<nat, Session>) {
    forall id :: id in before ==>
      && id in after
      && after[id].userId == before[id].userId
      && after[id].startTime == before[id].startTime
      && (before[id].endTime.Some? ==> after[id].endTime == before[id].endTime)
      && before[id].spins <= after[id].spins
  }

  // ---------------------------------------------------------------------------------------
  // The store

  class SessionStore {
    /** The sessions, by id. */
    var sessions: map<nat, Session>
    /** The id the next created session receives. */
    var nextSessionId: nat
    /** The id the next created spin receives. */
    var nextSpinId: nat
    /** The latest wall-clock time the store was given; start and end times are read from it. */
    var clock: int

    /**
     * Ids are keys, ids are below the next id, every spin points back at its session and has a
     * non-negative bet, and a session ends no earlier than it started and no later than the clock.
     */
    ghost predicate Valid()
      reads this
    {
      forall id :: id in sessions ==>
        && id < nextSessionId
        && sessions[id].id == id
        && sessions[id].startTime <= clock
        && (sessions[id].endTime.Some? ==> sessions[id].startTime <= sessions[id].endTime.value <= clock)
        && forall k :: 0 <= k < |sessions[id].spins| ==>
             && sessions[id].spins[k].sessionId == id
             && sessions[id].spins[k].id < nextSpinId
             && sessions[id].spins[k].betAmount >= 0
    }

    constructor(now: int)
      ensures Valid()
      ensures sessions == map[] && nextSessionId == 1 && nextSpinId == 1 && clock == now
    {
      sessions := map[];
      nextSessionId := 1;
      nextSpinId := 1;
      clock := now;
    }

    /** A new open session for the user, started at `now`, under a fresh id. */
    method CreateSession(userId: nat, now: int) returns (session: Session)
      requires Valid() && clock <= now
      modifies this
      ensures Valid() && clock == now
      ensures session == Session(old(nextSessionId), userId, now, None, [])
      ensures session.id !in old(sessions)
      ensures sessions == old(sessions)[session.id := session]
      ensures nextSessionId == old(nextSessionId) + 1 && nextSpinId == old(nextSpinId)
      ensures Evolves(old(sessions), sessions)
      ensures |SessionsOf(sessions, userId)| == |SessionsOf(old(sessions), userId)| + 1
    {
      clock := now;
      session := Session(nextSessionId, userId, now, None, []);
      SessionsOfInsert(sessions, nextSessionId, session, userId);
      sessions := sessions[nextSessionId := session];
      nextSessionId := nextSessionId + 1;
    }

    /**
     * Records a spin on the user's own open session and returns the session reloaded; the
     * spin gets a fresh id. On failure nothing changes.
     */
    method CreateSpin(sessionId: nat, userId: nat, data: SpinData) returns (r: Result<Session, LifecycleError>)
      requires Valid() && data.betAmount >= 0
      modifies this
      ensures Valid() && clock == old(clock)
      ensures var guard := RequireOpen(old(sessions), sessionId, userId, ClosedSessionMessage);
        && (r.Failure? <==> guard.Fail?)
        && (guard.Fail? ==> r.error == guard.error)
      ensures r.Failure? ==>
        sessions == old(sessions) && nextSpinId == old(nextSpinId) && nextSessionId == old(nextSessionId)
      ensures r.Success? ==>
        && var before := old(sessions)[sessionId];
        && r.value == before.(spins := before.spins + [Spin(old(nextSpinId), sessionId, data.result, data.betAmount, data.pl)])
        && sessions == old(sessions)[sessionId := r.value]
        && nextSpinId == old(nextSpinId) + 1
        && nextSessionId == old(nextSessionId)
      ensures Evolves(old(sessions), sessions)
    {
      var guard := RequireOpen(sessions, sessionId, userId, ClosedSessionMessage);
      if guard.Fail? {
        return Failure(guard.error);
      }
      var session := sessions[sessionId];
      var spin := Spin(nextSpinId, sessionId, data.result, data.betAmount, data.pl);
      session := session.(spins := session.spins + [spin]);
      sessions := sessions[sessionId := session];
      nextSpinId := nextSpinId + 1;
      r := Success(session);
    }

    /** Ends the user's own open session at `now`. On failure nothing changes. */
    method CloseSession(sessionId: nat, userId: nat, now: int) returns (r: Result<Session, LifecycleError>)
      requires Valid() && clock <= now
      modifies this
      ensures Valid() && clock == now
      ensures var guard := RequireOpen(old(sessions), sessionId, userId, AlreadyClosedMessage);
        && (r.Failure? <==> guard.Fail?)
        && (guard.Fail? ==> r.error == guard.error)
      ensures r.Failure? ==> sessions == old(sessions)
      ensures r.Success? ==>
        && r.value == old(sessions)[sessionId].(endTime := Some(now))
        && sessions == old(sessions)[sessionId := r.value]
        && r.value.startTime <= now
      ensures nextSessionId == old(nextSessionId) && nextSpinId == old(nextSpinId)
      ensures Evolves(old(sessions), sessions)
    {
      clock := now;
      var guard := RequireOpen(sessions, sessionId, userId, AlreadyClosedMessage);
      if guard.Fail? {
        return Failure(guard.error);
      }
      var session := sessions[sessionId].(endTime := Some(now));
      sessions := sessions[sessionId := session];
      r := Success(session);
    }

    /** The session with its spins, for its owner only. */
    function GetSessionWithDetails(sessionId: nat, userId: nat): (r: Result<Session, LifecycleError>)
      reads this
      ensures r.Success? <==> Access(sessions, sessionId, userId) == Pass
      ensures r.Failure? ==> Access(sessions, sessionId, userId) == Fail(r.error)
      ensures r.Success? ==> r.value == sessions[sessionId] && r.value.userId == userId
    {
      var access := Access(sessions, sessionId, userId);
      if access.Fail? then Failure(access.error) else Success(sessions[sessionId])
    }

    /** Every stored session of a real user passes the readiness check run before its statistics. */
    lemma StoredSessionPasses(sessionId: nat)
      requires Valid() && sessionId in sessions && sessions[sessionId].userId != 0
      ensures ValidateSessionData(StoredSession(true, Some(sessions[sessionId].userId), RowsOf(sessions[sessionId].spins))).Pass?
    {
      RecordedSessionPasses(sessions[sessionId]);
    }
  }

  // ---------------------------------------------------------------------------------------
  // Scenarios on a fresh store

  /** Closing twice: the first close succeeds, the second reports the session already closed. */
  method CloseTwiceScenario(userId: nat, now: int) returns (first: Result<Session, LifecycleError>,
                                                            second: Result<Session, LifecycleError>)
    ensures first.Success? && first.value.endTime == Some(now)
    ensures second == Failure(InvalidState(AlreadyClosedMessage))
  {
    var store := new SessionStore(now);
    var session := store.CreateSession(userId, now);
    first := store.CloseSession(session.id, userId, now);
    second := store.CloseSession(session.id, userId, now + 1);
  }

  /** Spins cannot be added once the session is closed, and the spin count is unchanged. */
  method SpinAfterCloseScenario(userId: nat, now: int, data: SpinData)
    returns (before: Result<Session, LifecycleError>, rejected: Result<Session, LifecycleError>, after: Result<Session, LifecycleError>)
    requires data.betAmount >= 0
    ensures before.Success? && |before.value.spins| == 1
    ensures rejected == Failure(InvalidState(ClosedSessionMessage))
    ensures after.Success? && after.value.spins == before.value.spins
  {
    var store := new SessionStore(now);
    var session := store.CreateSession(userId, now);
    before := store.CreateSpin(session.id, userId, data);
    var closed := store.CloseSession(session.id, userId, now);
    rejected := store.CreateSpin(session.id, userId, data);
    after := store.GetSessionWithDetails(session.id, userId);
  }

  /** Another user can neither add spins to, close nor read someone's session. */
  method OtherUserScenario(owner: nat, other: nat, now: int, data: SpinData)
    returns (spin: Result<Session, LifecycleError>, close: Result<Session, LifecycleError>, read: Result<Session, LifecycleError>)
    requires owner != other
    requires data.betAmount >= 0
    ensures spin == Failure(Forbidden) && close == Failure(Forbidden) && read == Failure(Forbidden)
  {
    var store := new SessionStore(now);
    var session := store.CreateSession(owner, now);
    spin := store.CreateSpin(session.id, other, data);
    close := store.CloseSession(session.id, other, now);
    read := store.GetSessionWithDetails(session.id, other);
  }
}
