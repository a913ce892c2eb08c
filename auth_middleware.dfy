/** The in-memory admin session store: a table from session id to session,
    changed in place by create, validate, destroy and the expiry sweep.
    Times are milliseconds since the epoch, passed in by the caller; the
    random part of a new id is passed in too. */
module Sessions {
  import opened Strings
  import opened Options

  /** 24 hours, in milliseconds. */
  const SessionLifetime: int := 24 * 60 * 60 * 1000

  /** The `userData` object a session carries. */
  type UserData = map<string, string>

  datatype Session = Session(
    id: string,
    userId: string,
    userData: UserData,
    createdAt: int,
    lastAccessed: int,
    expiresAt: int)

  /** `'sess_' + Date.now() + '_' + suffix` */
  function SessionId(now: nat, suffix: string): (id: string)
    ensures StartsWith(id, "sess_")
    ensures id[5..] == Decimal(now) + "_" + suffix
  {
    "sess_" + Decimal(now) + "_" + suffix
  }

  /** A session id determines the millisecond it was made at and its random
      suffix: two ids collide only when both agree. */
  lemma SessionIdInjective(now1: nat, suffix1: string, now2: nat, suffix2: string)
    requires SessionId(now1, suffix1) == SessionId(now2, suffix2)
    ensures now1 == now2 && suffix1 == suffix2
  {
    var d1, d2 := Decimal(now1), Decimal(now2);
    assert '_' !in d1 by { assert forall i :: 0 <= i < |d1| ==> IsDigit(d1[i]); }
    assert '_' !in d2 by { assert forall i :: 0 <= i < |d2| ==> IsDigit(d2[i]); }
    assert d1 + ['_'] + suffix1 == SessionId(now1, suffix1)[5..];
    assert d2 + ['_'] + suffix2 == SessionId(now2, suffix2)[5..];
    SplitAtFirst(d1, d2, '_', suffix1, suffix2);
    DecimalInjective(now1, now2);
  }

  /** The record `createSession` stores; `userData` defaults to `{}`. */
  function NewSession(id: string, userId: string, userData: Option<UserData>, now: int): (s: Session)
    ensures s.id == id && s.userId == userId
    ensures s.userData == (if userData.Some? then userData.value else map[])
    ensures s.createdAt == now && s.lastAccessed == now
    ensures !Expired(s, now + SessionLifetime) && Expired(s, now + SessionLifetime + 1)
  {
    Session(id, userId, if userData.Some? then userData.value else map[], now, now, now + SessionLifetime)
  }

  /** `now > session.expiresAt`: a session is still good at its expiry instant. */
  predicate Expired(s: Session, now: int)
    ensures !Expired(s, now) <==> now <= s.expiresAt
  {
    now > s.expiresAt
  }

  /** A session is good up to and including its expiry instant, expired from
      the next millisecond on, and once expired it stays expired. */
  lemma ExpiredStaysExpired(s: Session, now: int, later: int)
    requires now <= later
    ensures !Expired(s, s.expiresAt) && Expired(s, s.expiresAt + 1)
    ensures Expired(s, now) ==> Expired(s, later)
  {
  }

  /** The keys whose sessions have expired at `now`. */
  function ExpiredKeys(m: map<string, Session>, now: int): set<string> {
    set k | k in m && Expired(m[k], now)
  }

  /** The table the sweep leaves behind. */
  function Sweep(m: map<string, Session>, now: int): (r: map<string, Session>)
    ensures r.Keys == m.Keys - ExpiredKeys(m, now)
    ensures forall k :: k in r ==> r[k] == m[k] && !Expired(r[k], now)
    ensures forall k :: k in m && !Expired(m[k], now) ==> k in r
  {
    map k | k in m && !Expired(m[k], now) :: m[k]
  }

  /** A second sweep at the same instant removes nothing. */
  lemma SweepIdempotent(m: map<string, Session>, now: int)
    ensures ExpiredKeys(Sweep(m, now), now) == {}
    ensures Sweep(Sweep(m, now), now) == Sweep(m, now)
  {
    var once := Sweep(m, now);
    assert forall k :: k in once ==> !Expired(once[k], now);
    assert Sweep(once, now).Keys == once.Keys;
  }

  /** The number of sessions swept plus the number kept is the number there were. */
  lemma SweepCount(m: map<string, Session>, now: int)
    ensures |Sweep(m, now)| + |ExpiredKeys(m, now)| == |m|
  {
    var kept := Sweep(m, now).Keys;
    var gone := ExpiredKeys(m, now);
    assert kept + gone == m.Keys;
    assert kept !! gone;
    assert |kept + gone| == |kept| + |gone|;
    assert |Sweep(m, now)| == |kept|;
  }

  /** Taking one key off the pending set adds it to the processed part of
      `expired` exactly when it is expired. */
  lemma DropPending(expired: set<string>, pending: set<string>, k: string)
    requires k in pending
    ensures k in expired ==> expired - (pending - {k}) == (expired - pending) + {k}
    ensures k in expired ==> |expired - (pending - {k})| == |expired - pending| + 1
    ensures k !in expired ==> expired - (pending - {k}) == expired - pending
  {
    if k in expired {
      assert expired - (pending - {k}) == (expired - pending) + {k};
      assert k !in expired - pending;
    }
  }

  /** A sub-table of `m` holding exactly its unexpired keys is the sweep of `m`. */
  lemma SweepOfFiltered(m: map<string, Session>, kept: map<string, Session>, now: int)
    requires kept.Keys == m.Keys - ExpiredKeys(m, now)
    requires forall k :: k in kept ==> kept[k] == m[k]
    ensures kept == Sweep(m, now)
  {
  }

  /** What every stored entry satisfies: it is filed under its own id, the
      id has the `sess_` prefix, and it expires one lifetime after creation. */
  predicate WellFormed(k: string, s: Session) {
    s.id == k && StartsWith(k, "sess_") && s.expiresAt == s.createdAt + SessionLifetime
  }

  /** The sweep keeps every remaining entry well formed. */
  lemma SweepKeepsWellFormed(m: map<string, Session>, now: int)
    requires forall k :: k in m ==> WellFormed(k, m[k])
    ensures forall k :: k in Sweep(m, now) ==> WellFormed(k, Sweep(m, now)[k])
  {
  }

  class SessionStore {
    var sessions: map<string, Session>

    ghost predicate Valid()
      reads this
    {
      forall k :: k in sessions ==> WellFormed(k, sessions[k])
    }

    constructor ()
      ensures Valid() && sessions == map[]
    {
      sessions := map[];
    }

    /** `createSession(userId, userData)`: files a fresh 24-hour session under
        the returned id; every other entry is left as it was. */
    method CreateSession(userId: string, userData: Option<UserData>, now: nat, suffix: string)
      returns (sessionId: string)
      requires Valid()
      modifies this
      ensures Valid()
      ensures sessionId == SessionId(now, suffix) && StartsWith(sessionId, "sess_")
      ensures sessions == old(sessions)[sessionId := NewSession(sessionId, userId, userData, now)]
    {
      sessionId := SessionId(now, suffix);
      sessions := sessions[sessionId := NewSession(sessionId, userId, userData, now)];
    }

    /** `validateSession(sessionId)`: a missing or unknown id gives null and
        changes nothing; an expired entry is deleted and gives null; a live
        entry has only its `lastAccessed` moved to `now` and is returned. */
    method ValidateSession(sessionId: Option<string>, now: int) returns (r: Option<Session>)
      requires Valid()
      modifies this
      ensures Valid()
      ensures sessionId.None? || sessionId.value !in old(sessions) ==>
                r.None? && sessions == old(sessions)
      ensures sessionId.Some? && sessionId.value in old(sessions) &&
              Expired(old(sessions)[sessionId.value], now) ==>
                r.None? && sessions == old(sessions) - {sessionId.value}
      ensures sessionId.Some? && sessionId.value in old(sessions) &&
              !Expired(old(sessions)[sessionId.value], now) ==>
                r == Some(old(sessions)[sessionId.value].(lastAccessed := now)) &&
                sessions == old(sessions)[sessionId.value := r.value]
    {
      if sessionId.None? || sessionId.value == "" {
        // the empty id is falsy; it is never a key, since keys start with "sess_"
        return None;
      }
      var id := sessionId.value;
      if id !in sessions {
        return None;
      }
      var session := sessions[id];
      if now > session.expiresAt {
        sessions := sessions - {id};
        return None;
      }
      session := session.(lastAccessed := now);
      sessions := sessions[id := session];
      r := Some(session);
    }

    /** `destroySession(sessionId)`: true exactly when the id was present;
        afterwards it is absent and nothing else has changed. */
    method DestroySession(sessionId: string) returns (destroyed: bool)
      requires Valid()
      modifies this
      ensures Valid()
      ensures destroyed <==> sessionId in old(sessions)
      ensures sessions == old(sessions) - {sessionId}
    {
      destroyed := sessionId in sessions;
      if destroyed {
        sessions := sessions - {sessionId};
      }
    }

    /** `cleanupExpiredSessions()` at instant `now`: deletes exactly the
        expired entries, keeps the others unchanged, and counts the deletions. */
    method CleanupExpiredSessions(now: int) returns (cleaned: nat)
      requires Valid()
      modifies this
      ensures Valid()
      ensures sessions == Sweep(old(sessions), now)
      ensures cleaned == |ExpiredKeys(old(sessions), now)|
      ensures cleaned == |old(sessions)| - |sessions|
    {
      ghost var start := sessions;
      ghost var expired := ExpiredKeys(start, now);
      var table := sessions;
      cleaned := 0;
      var pending := table.Keys;
      while pending != {}
        invariant pending <= start.Keys
        invariant table.Keys == start.Keys - (expired - pending)
        invariant forall k :: k in table ==> table[k] == start[k]
        invariant cleaned == |expired - pending|
        decreases pending
      {
        var k :| k in pending;
        DropPending(expired, pending, k);
        if now > table[k].expiresAt {
          table := table - {k};
          cleaned := cleaned + 1;
        }
        pending := pending - {k};
      }
      SweepOfFiltered(start, table, now);
      SweepKeepsWellFormed(start, now);
      sessions := table;
      SweepCount(start, now);
    }
  }
}
