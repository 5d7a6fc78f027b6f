/** The background purge of inactive web-chat sessions (`cleanup_inactive_sessions`).
    Time is whole seconds since the epoch, in UTC; the database is a map from session
    id to session, and whether one of its calls raises is an argument. */
module SessionCleanup {

  /** The default inactivity window, in days. */
  const DefaultDaysInactive := 7

  const SecondsPerDay := 86400

  datatype ChatSession = ChatSession(isWebChat: bool, lastActivity: int)

  /** `now - timedelta(days=days_inactive)` */
  function Cutoff(now: int, daysInactive: int): int {
    now - daysInactive * SecondsPerDay
  }

  /** The query's filter: a web chat whose last activity is strictly before the cutoff. */
  predicate Inactive(s: ChatSession, cutoff: int) {
    s.isWebChat && s.lastActivity < cutoff
  }

  function InactiveIds(rows: map<string, ChatSession>, cutoff: int): set<string> {
    set id | id in rows && Inactive(rows[id], cutoff)
  }

  /** The store after the purge: exactly the matching sessions are gone; non-web
      sessions and sessions at or after the cutoff are kept unchanged. */
  function Purged(rows: map<string, ChatSession>, cutoff: int): (r: map<string, ChatSession>)
    ensures forall id :: id in r <==> id in rows && !Inactive(rows[id], cutoff)
    ensures forall id :: id in r ==> r[id] == rows[id]
    ensures forall id :: id in rows && !rows[id].isWebChat ==> id in r
    ensures forall id :: id in rows && rows[id].lastActivity >= cutoff ==> id in r
  {
    map id | id in rows && !Inactive(rows[id], cutoff) :: rows[id]
  }

  /** The reported count is the number of sessions that disappear. */
  lemma PurgedSize(rows: map<string, ChatSession>, cutoff: int)
    ensures |Purged(rows, cutoff)| + |InactiveIds(rows, cutoff)| == |rows|
  {
    var kept, gone := Purged(rows, cutoff).Keys, InactiveIds(rows, cutoff);
    assert rows.Keys == kept + gone;
    assert kept !! gone;
    assert |rows.Keys| == |kept| + |gone|;
  }

  /** A second purge with the same cutoff finds nothing. */
  lemma PurgeIdempotent(rows: map<string, ChatSession>, cutoff: int)
    ensures InactiveIds(Purged(rows, cutoff), cutoff) == {}
    ensures Purged(Purged(rows, cutoff), cutoff) == Purged(rows, cutoff)
  {
  }

  /** The session table behind the database session. */
  class SessionStore {
    var rows: map<string, ChatSession>

    constructor (rows: map<string, ChatSession>)
      ensures this.rows == rows
    {
      this.rows := rows;
    }
  }

  /** `cleanup_inactive_sessions`: deletes the inactive sessions, commits only when
      there were any, and returns how many; if a database call raises, everything is
      rolled back and 0 is returned. The window is 7 days unless the caller gives
      another. */
  method CleanupInactiveSessions(db: SessionStore, now: int, fault: bool, daysInactive: int := DefaultDaysInactive)
    returns (count: nat, committed: bool)
    modifies db
    ensures committed <==> !fault && InactiveIds(old(db.rows), Cutoff(now, daysInactive)) != {}
    ensures fault ==> count == 0 && db.rows == old(db.rows)
    ensures !fault ==> count == |InactiveIds(old(db.rows), Cutoff(now, daysInactive))|
    ensures !fault ==> db.rows == Purged(old(db.rows), Cutoff(now, daysInactive))
  {
    var cutoff := Cutoff(now, daysInactive);
    var inactive := set id | id in db.rows && db.rows[id].isWebChat && db.rows[id].lastActivity < cutoff;
    assert inactive == InactiveIds(db.rows, cutoff);
    count := |inactive|;
    committed := false;
    var staged := db.rows;
    if count > 0 {
      var toDelete := inactive;
      while toDelete != {}
        invariant toDelete <= inactive
        invariant staged == db.rows - (inactive - toDelete)
        decreases toDelete
      {
        var id :| id in toDelete;
        staged := staged - {id};
        toDelete := toDelete - {id};
      }
    }
    if fault {
      // rollback: the staged deletions are discarded
      return 0, false;
    }
    if count > 0 {
      db.rows := staged;
      committed := true;
    }
    assert staged == old(db.rows) - inactive;
    assert old(db.rows) - inactive == Purged(old(db.rows), cutoff);
  }
}
