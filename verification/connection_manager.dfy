/** The server's chat connection registry (`ConnectionManager`): one socket per user
    id. Whether a close or a send on a socket fails is an argument (the failure
    oracle); each method runs as one atomic step. */
module ConnectionRegistry {
  import opened Wrappers

  type UserId = string

  /** A server-side socket, by identity. */
  datatype Connection = Connection(id: nat)

  /** The user a broadcast skips: `exclude_user` only counts when it is truthy. */
  function Skipped(exclude: Option<UserId>): (s: set<UserId>)
    ensures exclude.Some? && exclude.value != "" ==> s == {exclude.value}
    ensures exclude.None? || exclude.value == "" ==> s == {}
  {
    if exclude.Some? && exclude.value != "" then {exclude.value} else {}
  }

  class ConnectionManager {
    var activeConnections: map<UserId, Connection>

    constructor ()
      ensures activeConnections == map[]
    {
      activeConnections := map[];
    }

    /** `connect`: the user's previous socket, if any, has close attempted (returned
        here); whether that close fails makes no difference; the new socket replaces
        it and no other entry changes. */
    method Connect(websocket: Connection, userId: UserId, closeFails: bool)
      returns (closeAttempted: Option<Connection>)
      modifies this
      ensures activeConnections == old(activeConnections)[userId := websocket]
      ensures closeAttempted ==
        if userId in old(activeConnections) then Some(old(activeConnections)[userId]) else None
    {
      closeAttempted := None;
      if userId in activeConnections {
        closeAttempted := Some(activeConnections[userId]);
        // A failing close is logged and ignored.
      }
      activeConnections := activeConnections[userId := websocket];
    }

    /** `disconnect`: removes the user if present and touches no other key. */
    method Disconnect(userId: UserId)
      modifies this
      ensures activeConnections == old(activeConnections) - {userId}
    {
      if userId in activeConnections {
        activeConnections := activeConnections - {userId};
      }
    }

    /** `send_personal_message`: nothing for an absent user; a failing send drops
        exactly that user, a successful one changes nothing. */
    method SendPersonalMessage(userId: UserId, sendFails: bool) returns (sentTo: Option<Connection>)
      modifies this
      ensures userId !in old(activeConnections) ==>
        sentTo == None && activeConnections == old(activeConnections)
      ensures userId in old(activeConnections) ==> sentTo == Some(old(activeConnections)[userId])
      ensures userId in old(activeConnections) && sendFails ==>
        activeConnections == old(activeConnections) - {userId}
      ensures userId in old(activeConnections) && !sendFails ==>
        activeConnections == old(activeConnections)
    {
      sentTo := None;
      if userId in activeConnections {
        sentTo := Some(activeConnections[userId]);
        if sendFails {
          Disconnect(userId);
        }
      }
    }

    /** `broadcast`: sends to every connected user except a truthy `exclude`, collecting
        the users whose send fails, then disconnects exactly those. */
    method Broadcast(exclude: Option<UserId>, failing: set<UserId>) returns (attempted: set<UserId>)
      modifies this
      ensures attempted == old(activeConnections).Keys - Skipped(exclude)
      ensures activeConnections == old(activeConnections) - (attempted * failing)
      ensures forall u :: u in Skipped(exclude) && u in old(activeConnections) ==>
        u in activeConnections && activeConnections[u] == old(activeConnections)[u]
    {
      var disconnected: seq<UserId> := [];
      var remaining := activeConnections.Keys;
      attempted := {};
      while remaining != {}
        invariant remaining <= activeConnections.Keys
        invariant activeConnections == old(activeConnections)
        invariant attempted == (activeConnections.Keys - remaining) - Skipped(exclude)
        invariant (set u | u in disconnected) == attempted * failing
        decreases remaining
      {
        var u :| u in remaining;
        remaining := remaining - {u};
        if !(exclude.Some? && exclude.value != "" && u == exclude.value) {
          attempted := attempted + {u};
          if u in failing {
            assert (set x | x in disconnected + [u]) == (set x | x in disconnected) + {u};
            disconnected := disconnected + [u];
          }
        }
      }
      var i := 0;
      while i < |disconnected|
        invariant 0 <= i <= |disconnected|
        invariant activeConnections == old(activeConnections) - (set k | 0 <= k < i :: disconnected[k])
      {
        Disconnect(disconnected[i]);
        i := i + 1;
      }
      assert (set k | 0 <= k < i :: disconnected[k]) == (set u | u in disconnected);
    }

    /** `is_connected` */
    predicate IsConnected(userId: UserId)
      reads this
    {
      userId in activeConnections
    }

    /** `get_connected_users`: every connected user exactly once, and only those. */
    method GetConnectedUsers() returns (users: seq<UserId>)
      ensures forall u :: u in users <==> IsConnected(u)
      ensures forall i, j :: 0 <= i < j < |users| ==> users[i] != users[j]
      ensures |users| == |activeConnections|
    {
      users := [];
      var remaining := activeConnections.Keys;
      while remaining != {}
        invariant remaining <= activeConnections.Keys
        invariant (set u | u in users) == activeConnections.Keys - remaining
        invariant forall i, j :: 0 <= i < j < |users| ==> users[i] != users[j]
        invariant |users| == |activeConnections.Keys - remaining|
        decreases remaining
      {
        var u :| u in remaining;
        ghost var before := activeConnections.Keys - remaining;
        remaining := remaining - {u};
        assert activeConnections.Keys - remaining == before + {u};
        users := users + [u];
      }
      assert activeConnections.Keys - remaining == activeConnections.Keys;
    }
  }
}
