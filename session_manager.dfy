/**
 * The per-user conversation session table. A session expires one hour after
 * its last access; every access through `GetSession` either refreshes
 * `lastActivity` or, for an expired session, removes it. The clock is the
 * `now` argument, in seconds.
 */
module Sessions {
  import opened Common

  /** A session expires when its last access is at least this many seconds old. */
  const SESSION_TIMEOUT: int := HOUR

  /** A loosely-typed record of the transport layer: field name to rendered value. */
  type Record = map<string, string>

  /** An interaction or media result with the `timestamp` stamped on it when it was stored. */
  datatype Stamped = Stamped(data: Record, timestamp: int)

  datatype Session = Session(
    userId: string,
    connectionId: string,
    createdAt: int,
    lastActivity: int,
    history: seq<Stamped>,
    context: Record,
    mediaUploads: seq<Record>,
    analysisResults: seq<Stamped>,
    /** keys merged in by `UpdateSession` */
    extra: Record)

  datatype Summary = Summary(sessionDuration: int, interactionCount: nat, mediaAnalyses: nat, lastActivity: int)

  /**
   * `_is_session_valid`: the last access is less than the timeout ago. A
   * session touched at `now` is valid; one idle for exactly the timeout is not.
   */
  predicate IsSessionValid(s: Session, now: int)
    ensures now <= s.lastActivity ==> IsSessionValid(s, now)
    ensures now >= s.lastActivity + SESSION_TIMEOUT ==> !IsSessionValid(s, now)
  {
    now - s.lastActivity < SESSION_TIMEOUT
  }

  /** Validity is only ever lost as time passes: a session valid later was valid at every earlier instant since its last activity. */
  lemma ValidityOnlyLost(s: Session, now: int, later: int)
    requires now <= later
    ensures IsSessionValid(s, later) ==> IsSessionValid(s, now)
    ensures !IsSessionValid(s, now) ==> !IsSessionValid(s, later)
  {
  }

  /** What an access at `now` returns: the session with its activity refreshed, if it is still valid. */
  function Accessed(sessions: map<string, Session>, userId: string, now: int): (r: Option<Session>)
    ensures r.Some? <==> userId in sessions && now - sessions[userId].lastActivity < SESSION_TIMEOUT
    ensures r.Some? ==> r.value.lastActivity == now && r.value.(lastActivity := sessions[userId].lastActivity) == sessions[userId]
  {
    if userId in sessions && IsSessionValid(sessions[userId], now) then Some(sessions[userId].(lastActivity := now))
    else None
  }

  /** The table after an access at `now`: the session refreshed, an expired one removed, others untouched. */
  function AfterAccess(sessions: map<string, Session>, userId: string, now: int): (r: map<string, Session>)
    ensures forall u :: u != userId ==> (u in r <==> u in sessions) && (u in r ==> r[u] == sessions[u])
    ensures userId in r <==> Accessed(sessions, userId, now).Some?
    ensures userId in r ==> r[userId] == Accessed(sessions, userId, now).value
  {
    if userId !in sessions then sessions
    else if IsSessionValid(sessions[userId], now) then sessions[userId := sessions[userId].(lastActivity := now)]
    else sessions - {userId}
  }

  /** The sessions `cleanup_expired_sessions` keeps: exactly the valid ones, unchanged. */
  function Live(sessions: map<string, Session>, now: int): map<string, Session> {
    map u | u in sessions && IsSessionValid(sessions[u], now) :: sessions[u]
  }

  /** Once an access has found a session expired, it is gone: every later access finds nothing. */
  lemma ExpiredStaysGone(sessions: map<string, Session>, userId: string, now: int, later: int)
    requires userId in sessions && !IsSessionValid(sessions[userId], now)
    ensures Accessed(AfterAccess(sessions, userId, now), userId, later) == None
  {
  }

  /** Accessing twice at the same instant is the same as accessing once. */
  lemma AccessIdempotent(sessions: map<string, Session>, userId: string, now: int)
    ensures AfterAccess(AfterAccess(sessions, userId, now), userId, now) == AfterAccess(sessions, userId, now)
    ensures Accessed(AfterAccess(sessions, userId, now), userId, now) == Accessed(sessions, userId, now)
  {
  }

  class SessionManager {
    var sessions: map<string, Session>

    constructor ()
      ensures sessions == map[]
    {
      sessions := map[];
    }

    /** Starts a fresh session for the user, replacing any previous one. */
    method CreateSession(userId: string, connectionId: string, now: int) returns (s: Session)
      modifies this
      ensures s.userId == userId && s.connectionId == connectionId
      ensures s.createdAt == now && s.lastActivity == now
      ensures s.history == [] && s.context == map[] && s.mediaUploads == [] && s.analysisResults == [] && s.extra == map[]
      ensures sessions == old(sessions)[userId := s]
    {
      s := Session(userId, connectionId, now, now, [], map[], [], [], map[]);
      sessions := sessions[userId := s];
    }

    /** Returns the session, refreshed, if it is still valid; removes it if it has expired. */
    method GetSession(userId: string, now: int) returns (r: Option<Session>)
      modifies this
      ensures r == Accessed(old(sessions), userId, now)
      ensures sessions == AfterAccess(old(sessions), userId, now)
    {
      if userId in sessions {
        var s := sessions[userId];
        if IsSessionValid(s, now) {
          var refreshed := s.(lastActivity := now);
          sessions := sessions[userId := refreshed];
          return Some(refreshed);
        }
        EndSession(userId);
      }
      return None;
    }

    /** Merges `data` into a valid session's extra fields. */
    method UpdateSession(userId: string, data: Record, now: int)
      modifies this
      ensures var a := Accessed(old(sessions), userId, now);
              sessions == if a.None? then AfterAccess(old(sessions), userId, now)
                          else old(sessions)[userId := a.value.(extra := a.value.extra + data)]
    {
      var r := GetSession(userId, now);
      if r.Some? {
        var s := r.value;
        sessions := sessions[userId := s.(extra := s.extra + data, lastActivity := now)];
      }
    }

    /** Appends one interaction, stamped with `now`, to a valid session's history. */
    method AddToHistory(userId: string, interaction: Record, now: int)
      modifies this
      ensures var a := Accessed(old(sessions), userId, now);
              sessions == if a.None? then AfterAccess(old(sessions), userId, now)
                          else old(sessions)[userId := a.value.(history := a.value.history + [Stamped(interaction, now)])]
    {
      var r := GetSession(userId, now);
      if r.Some? {
        var s := r.value;
        sessions := sessions[userId := s.(history := s.history + [Stamped(interaction, now)])];
      }
    }

    /** Appends one media result, stamped with `now`, to a valid session's analysis results. */
    method AddMediaResult(userId: string, result: Record, now: int)
      modifies this
      ensures var a := Accessed(old(sessions), userId, now);
              sessions == if a.None? then AfterAccess(old(sessions), userId, now)
                          else old(sessions)[userId := a.value.(analysisResults := a.value.analysisResults + [Stamped(result, now)])]
    {
      var r := GetSession(userId, now);
      if r.Some? {
        var s := r.value;
        sessions := sessions[userId := s.(analysisResults := s.analysisResults + [Stamped(result, now)])];
      }
    }

    /** The context of a valid session; empty when there is none. */
    method GetSessionContext(userId: string, now: int) returns (context: Record)
      modifies this
      ensures sessions == AfterAccess(old(sessions), userId, now)
      ensures var a := Accessed(old(sessions), userId, now);
              context == if a.Some? then a.value.context else map[]
    {
      var r := GetSession(userId, now);
      if r.Some? {
        return r.value.context;
      }
      return map[];
    }

    /** Merges the given keys into a valid session's context; other keys keep their values. */
    method UpdateContext(userId: string, context: Record, now: int)
      modifies this
      ensures var a := Accessed(old(sessions), userId, now);
              sessions == if a.None? then AfterAccess(old(sessions), userId, now)
                          else old(sessions)[userId := a.value.(context := a.value.context + context)]
      ensures userId in sessions ==> forall k :: k in sessions[userId].context ==>
                sessions[userId].context[k] == if k in context then context[k] else old(sessions)[userId].context[k]
    {
      var r := GetSession(userId, now);
      if r.Some? {
        var s := r.value;
        sessions := sessions[userId := s.(context := s.context + context)];
      }
    }

    /** Removes the user's session if there is one; otherwise nothing changes. */
    method EndSession(userId: string)
      modifies this
      ensures sessions == old(sessions) - {userId}
      ensures userId !in old(sessions) ==> sessions == old(sessions)
    {
      if userId in sessions {
        sessions := sessions - {userId};
      }
    }

    /** Removes every expired session and keeps every valid one exactly as it was. */
    method CleanupExpiredSessions(now: int)
      modifies this
      ensures sessions == Live(old(sessions), now)
    {
      var expired := set u | u in sessions && !IsSessionValid(sessions[u], now);
      var remaining := expired;
      while remaining != {}
        invariant remaining <= expired
        invariant sessions == old(sessions) - (expired - remaining)
        decreases remaining
      {
        var u :| u in remaining;
        EndSession(u);
        remaining := remaining - {u};
      }
      assert sessions == Live(old(sessions), now);
    }

    /** Counts of a valid session's interactions and media analyses; `None` when there is no valid session. */
    method GetSessionSummary(userId: string, now: int) returns (r: Option<Summary>)
      modifies this
      ensures sessions == AfterAccess(old(sessions), userId, now)
      ensures var a := Accessed(old(sessions), userId, now);
              && (r.Some? <==> a.Some?)
              && (a.Some? ==> r.value == Summary(now - a.value.createdAt, |a.value.history|, |a.value.analysisResults|, now))
    {
      var s := GetSession(userId, now);
      if s.None? {
        return None;
      }
      var v := s.value;
      return Some(Summary(now - v.createdAt, |v.history|, |v.analysisResults|, v.lastActivity));
    }
  }

  /**
   * A session is refreshed by each access: one read 50 minutes in keeps it
   * alive 100 minutes after creation, and it is gone 61 minutes after the
   * last access.
   */
  method RefreshThenExpire() returns (at50: bool, at100: bool, at161: bool, after: bool)
    ensures at50 && at100 && !at161 && !after
  {
    var manager := new SessionManager();
    var s := manager.CreateSession("u", "c", 0);
    var r := manager.GetSession("u", 50 * 60);
    at50 := r.Some?;
    r := manager.GetSession("u", 100 * 60);
    at100 := r.Some?;
    r := manager.GetSession("u", 161 * 60);
    at161 := r.Some?;
    r := manager.GetSession("u", 161 * 60 + 1);
    after := r.Some?;
  }
}
