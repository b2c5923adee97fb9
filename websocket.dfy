/** The live-update server (`createWebSocketServer`): a registry from user ids to the sets
    of their open sockets, the shared per-user session objects, and the frames sent down
    the sockets. Sockets are handles; their OPEN state at the moment of a broadcast is the
    set `open`, and a connection's token is given already verified (`decoded`). */
module Websocket {
  import opened Util

  /** A socket of the `ws` server. */
  type Socket = nat

  /** A value held by a JavaScript object; `Ref` is any nested object (always truthy). */
  datatype Value = Undefined | Null | Str(s: string) | Num(n: int) | Bool(b: bool) | Ref(id: nat)

  /** A plain JavaScript object: its own enumerable properties. */
  type Object = map<string, Value>

  /** One `ws.send(text)`; `text` is the object that was stringified. */
  datatype Frame = Frame(socket: Socket, text: Object)

  predicate IsTruthy(v: Value)
  {
    match v
    case Undefined => false
    case Null => false
    case Str(s) => s != ""
    case Num(n) => n != 0
    case Bool(b) => b
    case Ref(_) => true
  }

  /** `o.k`: a missing property reads as undefined. */
  function Get(o: Object, k: string): (v: Value)
    ensures k !in o ==> v == Undefined
  {
    if k in o then o[k] else Undefined
  }

  /** `JSON.stringify` omits properties whose value is undefined. */
  function Json(o: Object): (r: Object)
    ensures forall k :: k in r <==> k in o && o[k] != Undefined
    ensures forall k :: k in r ==> r[k] == o[k]
  {
    map k | k in o && o[k] != Undefined :: o[k]
  }

  const StatusUpdate := "status_update"
  const Disconnected := "DISCONNECTED"

  // ---- The registry as values ----

  /** No user maps to an empty set of sockets. */
  predicate NoEmptySets(clients: map<int, set<Socket>>)
  {
    forall u :: u in clients ==> clients[u] != {}
  }

  /** `addClient(userId, ws)` */
  function Added(clients: map<int, set<Socket>>, u: int, ws: Socket): map<int, set<Socket>>
  {
    clients[u := (if u in clients then clients[u] else {}) + {ws}]
  }

  /** `removeClient(userId, ws)` */
  function Removed(clients: map<int, set<Socket>>, u: int, ws: Socket): map<int, set<Socket>>
  {
    if u !in clients then clients
    else if clients[u] - {ws} == {} then clients - {u}
    else clients[u := clients[u] - {ws}]
  }

  /** The session after `broadcastStatus(userId, status, data)`. */
  function WithStatus(session: Object, status: string, data: Object): Object
  {
    var s := session["status" := Str(status)];
    var s := if "qrCode" in data then s["qrCode" := data["qrCode"]] else s;
    if "botInfo" in data then s["botInfo" := data["botInfo"]] else s
  }

  /** `{ type: 'status_update', userId, status, ...data }`: the spread comes last, so a
      property of `data` overrides the three fixed ones. */
  function StatusPayload(u: int, status: string, data: Object): Object
  {
    map["type" := Str(StatusUpdate), "userId" := Num(u), "status" := Str(status)] + data
  }

  /** The status snapshot sent to a socket as it connects. */
  function Snapshot(u: int, session: Object): Object
  {
    var status := Get(session, "status");
    var qr := Get(session, "qrCode");
    var bot := Get(session, "botInfo");
    map["type" := Str(StatusUpdate), "userId" := Num(u),
        "status" := if IsTruthy(status) then status else Str(Disconnected),
        "qrCode" := if IsTruthy(qr) then qr else Null,
        "botInfo" := if IsTruthy(bot) then bot else Null]
  }

  /** `batch` sends `text` exactly once to each socket of `targets`, and to nothing else. */
  ghost predicate Delivered(batch: seq<Frame>, targets: set<Socket>, text: Object)
  {
    && (forall i :: 0 <= i < |batch| ==> batch[i].text == text && batch[i].socket in targets)
    && (forall i, j :: 0 <= i < j < |batch| ==> batch[i].socket != batch[j].socket)
    && (forall t :: t in targets ==> exists i :: 0 <= i < |batch| && batch[i].socket == t)
  }

  class Registry {
    /** `wsClients`: the sockets of each user. */
    var clients: map<int, set<Socket>>
    /** `activeSessions`: the session object of each user. */
    var sessions: map<int, Object>
    /** `ws.userId` of each authenticated socket; the socket's close handler removes it for that user. */
    var owner: map<Socket, int>
    /** Every `ws.send`, in order. */
    var frames: seq<Frame>
    /** Every `ws.close()` of a refused connection, in order. */
    var closed: seq<Socket>

    ghost predicate Valid()
      reads this
    {
      NoEmptySets(clients)
    }

    constructor (sessions: map<int, Object>)
      ensures Valid()
      ensures clients == map[] && this.sessions == sessions && owner == map[] && frames == [] && closed == []
    {
      clients := map[];
      this.sessions := sessions;
      owner := map[];
      frames := [];
      closed := [];
    }

    method AddClient(u: int, ws: Socket)
      requires Valid()
      modifies this`clients
      ensures Valid()
      ensures clients == Added(old(clients), u, ws)
    {
      if u !in clients {
        clients := clients[u := {}];
      }
      clients := clients[u := clients[u] + {ws}];
      AddedKeepsNoEmptySets(old(clients), u, ws);
    }

    method RemoveClient(u: int, ws: Socket)
      requires Valid()
      modifies this`clients
      ensures Valid()
      ensures clients == Removed(old(clients), u, ws)
    {
      if u in clients {
        var remaining := clients[u] - {ws};
        clients := clients[u := remaining];
        if remaining == {} {
          clients := clients - {u};
        }
      }
    }

    /** `broadcastToUser(userId, data)`: one frame to each OPEN socket of the user, in the
        set's order. */
    method BroadcastToUser(u: int, data: Object, open: set<Socket>)
      modifies this`frames
      ensures u !in clients ==> frames == old(frames)
      ensures u in clients ==>
        && |frames| >= |old(frames)| && frames[..|old(frames)|] == old(frames)
        && Delivered(frames[|old(frames)|..], clients[u] * open, Json(data))
    {
      if u !in clients {
        return;
      }
      var text := Json(data);
      var todo := clients[u];
      ghost var done: set<Socket> := {};
      while todo != {}
        invariant todo + done == clients[u] && todo !! done
        invariant |frames| >= |old(frames)| && frames[..|old(frames)|] == old(frames)
        invariant Delivered(frames[|old(frames)|..], done * open, text)
        decreases |todo|
      {
        var ws :| ws in todo;
        ghost var before := frames[|old(frames)|..];
        if ws in open {
          frames := frames + [Frame(ws, text)];
          assert frames[|old(frames)|..] == before + [Frame(ws, text)];
        }
        DeliveredStep(before, frames[|old(frames)|..], done, open, ws, text);
        todo := todo - {ws};
        done := done + {ws};
      }
    }

    /** `broadcastStatus(userId, status, data)`: the session object is updated (created when
        missing), stored, and the merged payload is broadcast. */
    method BroadcastStatus(u: int, status: string, data: Object, open: set<Socket>)
      modifies this`sessions, this`frames
      ensures sessions == old(sessions)[u := WithStatus(if u in old(sessions) then old(sessions)[u] else map[], status, data)]
      ensures u !in clients ==> frames == old(frames)
      ensures u in clients ==>
        && |frames| >= |old(frames)| && frames[..|old(frames)|] == old(frames)
        && Delivered(frames[|old(frames)|..], clients[u] * open, Json(StatusPayload(u, status, data)))
    {
      var session: Object := if u in sessions then sessions[u] else map[];
      session := session["status" := Str(status)];
      if "qrCode" in data {
        session := session["qrCode" := data["qrCode"]];
      }
      if "botInfo" in data {
        session := session["botInfo" := data["botInfo"]];
      }
      sessions := sessions[u := session];
      BroadcastToUser(u, StatusPayload(u, status, data), open);
    }

    /** A new connection: a token that does not verify (`decoded` is `None`) closes the
        socket and nothing else changes; otherwise the socket joins its user's set and is
        sent the current status snapshot. */
    method Connect(ws: Socket, decoded: Option<int>)
      requires Valid()
      modifies this`clients, this`owner, this`frames, this`closed
      ensures Valid()
      ensures decoded.None? ==>
        && closed == old(closed) + [ws]
        && clients == old(clients) && owner == old(owner) && frames == old(frames)
      ensures decoded.Some? ==>
        && clients == Added(old(clients), decoded.value, ws)
        && owner == old(owner)[ws := decoded.value]
        && frames == old(frames) + [Frame(ws, Json(Snapshot(decoded.value,
               if decoded.value in sessions then sessions[decoded.value] else map[])))]
        && closed == old(closed)
    {
      if decoded.None? {
        closed := closed + [ws];
        return;
      }
      var u := decoded.value;
      owner := owner[ws := u];
      AddClient(u, ws);
      var session: Object := if u in sessions then sessions[u] else map[];
      frames := frames + [Frame(ws, Json(Snapshot(u, session)))];
    }

    /** The close handler of an authenticated socket. */
    method Close(ws: Socket)
      requires Valid()
      modifies this`clients
      ensures Valid()
      ensures clients == if ws in owner then Removed(old(clients), owner[ws], ws) else old(clients)
    {
      if ws in owner {
        RemoveClient(owner[ws], ws);
      }
    }
  }

  // ---- Properties ----

  lemma DeliveredStep(before: seq<Frame>, after: seq<Frame>, done: set<Socket>, open: set<Socket>, ws: Socket, text: Object)
    requires Delivered(before, done * open, text) && ws !in done
    requires after == if ws in open then before + [Frame(ws, text)] else before
    ensures Delivered(after, (done + {ws}) * open, text)
  {
    if ws in open {
      forall t | t in (done + {ws}) * open
        ensures exists i :: 0 <= i < |after| && after[i].socket == t
      {
        if t == ws {
          assert after[|before|].socket == t;
        } else {
          assert t in done * open;
          var i :| 0 <= i < |before| && before[i].socket == t;
          assert after[i].socket == t;
        }
      }
    } else {
      assert (done + {ws}) * open == done * open;
    }
  }

  /** After `addClient(u, ws)`, `ws` is among `u`'s sockets, which otherwise are unchanged,
      and every other user is untouched. */
  lemma AddedContains(clients: map<int, set<Socket>>, u: int, ws: Socket, v: int)
    ensures u in Added(clients, u, ws) && ws in Added(clients, u, ws)[u]
    ensures u in clients ==> Added(clients, u, ws)[u] == clients[u] + {ws}
    ensures v != u ==> (v in Added(clients, u, ws) <==> v in clients)
    ensures v != u && v in clients ==> Added(clients, u, ws)[v] == clients[v]
  {
  }

  lemma AddedKeepsNoEmptySets(clients: map<int, set<Socket>>, u: int, ws: Socket)
    requires NoEmptySets(clients)
    ensures NoEmptySets(Added(clients, u, ws))
  {
    assert ws in Added(clients, u, ws)[u];
  }

  /** `removeClient` drops the socket and, with its last socket, the user's key, so no user
      ever maps to an empty set; every other user is untouched. */
  lemma RemovedDropsSocket(clients: map<int, set<Socket>>, u: int, ws: Socket, v: int)
    requires NoEmptySets(clients)
    ensures NoEmptySets(Removed(clients, u, ws))
    ensures u in Removed(clients, u, ws) ==> ws !in Removed(clients, u, ws)[u]
    ensures u in clients && clients[u] == {ws} ==> u !in Removed(clients, u, ws)
    ensures u in clients && clients[u] != {ws} ==> Removed(clients, u, ws)[u] == clients[u] - {ws}
    ensures v != u ==> (v in Removed(clients, u, ws) <==> v in clients)
    ensures v != u && v in clients ==> Removed(clients, u, ws)[v] == clients[v]
  {
    if u in clients && clients[u] != {ws} {
      assert clients[u] - {ws} != {} by {
        var t :| t in clients[u];
        if t == ws {
          var t' :| t' in clients[u] && t' != ws;
          assert t' in clients[u] - {ws};
        } else {
          assert t in clients[u] - {ws};
        }
      }
    }
  }

  /** Removing a socket just added (that was not there before) restores the registry. */
  lemma AddThenRemove(clients: map<int, set<Socket>>, u: int, ws: Socket)
    requires NoEmptySets(clients)
    requires u in clients ==> ws !in clients[u]
    ensures Removed(Added(clients, u, ws), u, ws) == clients
  {
    if u in clients {
      assert Added(clients, u, ws)[u] - {ws} == clients[u];
    } else {
      assert Added(clients, u, ws)[u] - {ws} == {};
    }
  }

  /** `broadcastStatus` always sets the status, overwrites `qrCode` and `botInfo` exactly when
      `data` holds those keys (an undefined value included), and keeps every other field. */
  lemma WithStatusFields(session: Object, status: string, data: Object, k: string)
    ensures Get(WithStatus(session, status, data), "status") == Str(status)
    ensures Get(WithStatus(session, status, data), "qrCode") ==
      if "qrCode" in data then data["qrCode"] else Get(session, "qrCode")
    ensures Get(WithStatus(session, status, data), "botInfo") ==
      if "botInfo" in data then data["botInfo"] else Get(session, "botInfo")
    ensures k != "status" && k != "qrCode" && k != "botInfo" ==>
      (k in WithStatus(session, status, data) <==> k in session) && Get(WithStatus(session, status, data), k) == Get(session, k)
  {
  }

  /** Repeating a status update changes nothing further. */
  lemma WithStatusIdempotent(session: Object, status: string, data: Object)
    ensures WithStatus(WithStatus(session, status, data), status, data) == WithStatus(session, status, data)
  {
  }

  /** The broadcast payload carries every property of `data` as given, and the fixed
      `type`, `userId` and `status` wherever `data` does not override them. */
  lemma StatusPayloadFields(u: int, status: string, data: Object, k: string)
    ensures k in data ==> k in StatusPayload(u, status, data) && StatusPayload(u, status, data)[k] == data[k]
    ensures "type" !in data ==> StatusPayload(u, status, data)["type"] == Str(StatusUpdate)
    ensures "userId" !in data ==> StatusPayload(u, status, data)["userId"] == Num(u)
    ensures "status" !in data ==> StatusPayload(u, status, data)["status"] == Str(status)
    ensures k in StatusPayload(u, status, data) <==> k in data || k == "type" || k == "userId" || k == "status"
  {
  }

  /** The snapshot of a connecting socket always carries all five properties, so none is
      dropped from the JSON text; a user without a session sees `DISCONNECTED` and nulls. */
  lemma SnapshotComplete(u: int, session: Object)
    ensures Json(Snapshot(u, session)) == Snapshot(u, session)
    ensures Snapshot(u, session).Keys == {"type", "userId", "status", "qrCode", "botInfo"}
    ensures session == map[] ==>
      Snapshot(u, session) == map["type" := Str(StatusUpdate), "userId" := Num(u), "status" := Str(Disconnected),
                                  "qrCode" := Null, "botInfo" := Null]
  {
    var s := Snapshot(u, session);
    assert forall k :: k in s ==> s[k] != Undefined;
  }

  /** A status update reaches a user's socket through its session snapshot as well: after
      `broadcastStatus(u, status, data)`, a socket that connects sees that status. */
  lemma SnapshotAfterStatus(u: int, session: Object, status: string, data: Object)
    requires status != ""
    ensures Snapshot(u, WithStatus(session, status, data))["status"] == Str(status)
  {
    WithStatusFields(session, status, data, "status");
  }
}
