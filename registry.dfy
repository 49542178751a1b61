/** The connection registry of the chat backend, `ConnectionManager`: a
    dictionary from client id to the websocket registered under it. The
    dictionary keeps Python's insertion order, which decides the order in
    which `broadcast` reaches the sockets; every frame the registry sends is
    appended to a log. */
module Registry {

  type ClientId = string

  /** A websocket transport. Sockets are compared by identity, like the
      Python objects they stand for. */
  class WebSocket { }

  /** One frame sent on one socket. */
  datatype Delivery = Delivery(to: WebSocket, message: string)

  /** `s` without any occurrence of `x`, in the original order. */
  function Remove(s: seq<ClientId>, x: ClientId): (r: seq<ClientId>)
    ensures forall y :: y in r <==> y in s && y != x
    ensures x !in s ==> r == s
    ensures |r| <= |s|
    ensures (forall i, j :: 0 <= i < j < |s| ==> s[i] != s[j]) ==>
      forall i, j :: 0 <= i < j < |r| ==> r[i] != r[j]
  {
    if s == [] then []
    else if s[0] == x then Remove(s[1..], x)
    else
      var rest := Remove(s[1..], x);
      var r := [s[0]] + rest;
      assert forall i :: 1 <= i < |r| ==> r[i] == rest[i - 1] && r[i] in rest;
      r
  }

  /** When `x` is held once, at index `k`, removing it closes the gap and
      keeps the other ids in their original order. */
  lemma {:induction false} RemoveAt(s: seq<ClientId>, x: ClientId, k: int)
    requires 0 <= k < |s| && s[k] == x
    requires forall i, j :: 0 <= i < j < |s| ==> s[i] != s[j]
    ensures Remove(s, x) == s[..k] + s[k + 1..]
  {
    CutAfterHead(s, k);
    if k == 0 {
      assert x !in s[1..];
    } else {
      assert s[0] != x;
      RemoveAt(s[1..], x, k - 1);
    }
  }

  /** Cutting index `k` out of `s`, seen from the head of `s`. */
  lemma CutAfterHead(s: seq<ClientId>, k: int)
    requires 0 <= k < |s|
    ensures k == 0 ==> s[..k] + s[k + 1..] == s[1..]
    ensures k > 0 ==> s[..k] + s[k + 1..] == [s[0]] + (s[1..][..k - 1] + s[1..][k..])
  {
    if k > 0 {
      assert s[1..][..k - 1] == s[1..k];
      assert s[1..][k..] == s[k + 1..];
      assert s[..k] == [s[0]] + s[1..k];
    }
  }

  /** The contents of the Python dict `active_connections`: its keys in
      insertion order and the socket stored under each. */
  datatype Table = Table(order: seq<ClientId>, handles: map<ClientId, WebSocket>) {

    /** Each key appears once in the order, and the order lists exactly
        the keys of the map. */
    ghost predicate Valid() {
      && (forall i, j :: 0 <= i < j < |order| ==> order[i] != order[j])
      && (forall id :: id in handles <==> id in order)
    }
  }

  /** `active_connections[client_id] = websocket`: a new key goes last, an
      existing key keeps its place and gets the new socket. */
  function Connected(t: Table, id: ClientId, ws: WebSocket): (r: Table)
    requires t.Valid()
    ensures r.Valid()
    ensures r.handles.Keys == t.handles.Keys + {id}
    ensures r.handles[id] == ws
    ensures forall k :: k in t.handles && k != id ==> r.handles[k] == t.handles[k]
  {
    Table(if id in t.handles then t.order else t.order + [id], t.handles[id := ws])
  }

  /** `active_connections.pop(client_id, None)` */
  function Disconnected(t: Table, id: ClientId): (r: Table)
    requires t.Valid()
    ensures r.Valid()
    ensures r.handles.Keys == t.handles.Keys - {id}
    ensures forall k :: k in r.handles ==> r.handles[k] == t.handles[k]
    ensures id !in t.handles ==> r == t
  {
    Table(Remove(t.order, id), t.handles - {id})
  }

  /** `list(active_connections.values())`: the sockets in key order. */
  function Values(t: Table): (vs: seq<WebSocket>)
    requires t.Valid()
    ensures |vs| == |t.order|
    ensures forall i :: 0 <= i < |vs| ==> vs[i] == t.handles[t.order[i]]
  {
    seq(|t.order|, i requires 0 <= i < |t.order| => t.handles[t.order[i]])
  }

  /** What `send_personal_message(message, id)` sends: one frame to the
      socket registered under `id`, or nothing when there is none. */
  function PersonalDeliveries(t: Table, id: ClientId, message: string): (ds: seq<Delivery>)
    ensures |ds| == if id in t.handles then 1 else 0
    ensures forall d :: d in ds ==> d.to == t.handles[id] && d.message == message
  {
    if id in t.handles then [Delivery(t.handles[id], message)] else []
  }

  /** What `broadcast(message)` sends: one frame per socket of the
      snapshot, in the snapshot's order. */
  function BroadcastDeliveries(snapshot: seq<WebSocket>, message: string): (ds: seq<Delivery>)
    ensures |ds| == |snapshot|
    ensures forall i :: 0 <= i < |ds| ==> ds[i] == Delivery(snapshot[i], message)
  {
    if snapshot == [] then []
    else BroadcastDeliveries(snapshot[..|snapshot| - 1], message) + [Delivery(snapshot[|snapshot| - 1], message)]
  }

  /** Connecting again under a known id replaces its socket in place; a new
      id's socket is reached last by a broadcast. */
  lemma ConnectedValues(t: Table, id: ClientId, ws: WebSocket)
    requires t.Valid()
    ensures id !in t.handles ==> Values(Connected(t, id, ws)) == Values(t) + [ws]
    ensures id in t.handles ==>
      var vs := Values(Connected(t, id, ws));
      |vs| == |Values(t)| && forall i :: 0 <= i < |vs| ==> vs[i] == if t.order[i] == id then ws else Values(t)[i]
  {
  }

  /** `pop` keeps the insertion order of the remaining ids, so a broadcast
      after `disconnect(id)` reaches the other sockets in the order it
      reached them before, with the id's socket cut out. */
  lemma DisconnectedValues(t: Table, id: ClientId, k: int)
    requires t.Valid() && 0 <= k < |t.order| && t.order[k] == id
    ensures Values(Disconnected(t, id)) == Values(t)[..k] + Values(t)[k + 1..]
  {
    RemoveAt(t.order, id, k);
    var r := Disconnected(t, id);
    var vs, ws := Values(t), Values(r);
    var cut := vs[..k] + vs[k + 1..];
    assert |ws| == |cut|;
    forall i | 0 <= i < |ws| ensures ws[i] == cut[i] {
      var j := if i < k then i else i + 1;
      assert r.order[i] == t.order[j] && t.order[j] != id;
      assert cut[i] == vs[j];
    }
  }

  /** Disconnecting twice is disconnecting once. */
  lemma DisconnectIdempotent(t: Table, id: ClientId)
    requires t.Valid()
    ensures Disconnected(Disconnected(t, id), id) == Disconnected(t, id)
  {
  }

  /** A broadcast reaches every registered socket and no other. */
  lemma {:induction false} BroadcastReachesRegistered(t: Table, message: string)
    requires t.Valid()
    ensures forall id :: id in t.handles ==> Delivery(t.handles[id], message) in BroadcastDeliveries(Values(t), message)
    ensures forall d :: d in BroadcastDeliveries(Values(t), message) ==>
      d.message == message && exists id :: id in t.handles && t.handles[id] == d.to
  {
    var vs := Values(t);
    var ds := BroadcastDeliveries(vs, message);
    forall id | id in t.handles
      ensures Delivery(t.handles[id], message) in ds
    {
      var i :| 0 <= i < |t.order| && t.order[i] == id;
      assert ds[i] == Delivery(t.handles[id], message);
    }
    forall d | d in ds
      ensures d.message == message && exists id :: id in t.handles && t.handles[id] == d.to
    {
      var i :| 0 <= i < |ds| && ds[i] == d;
      assert t.order[i] in t.handles && t.handles[t.order[i]] == d.to;
    }
  }

  /** After a client reconnects under the same id with a new socket, the old
      socket is no longer reached by a broadcast or by a message to that id,
      unless another id still holds it. */
  lemma ReplacedSocketUnreachable(t: Table, id: ClientId, ws: WebSocket, message: string)
    requires t.Valid() && id in t.handles && t.handles[id] != ws
    requires forall k :: k in t.handles && k != id ==> t.handles[k] != t.handles[id]
    ensures var replaced := t.handles[id]; var r := Connected(t, id, ws);
      && replaced !in Values(r)
      && forall k :: Delivery(replaced, message) !in PersonalDeliveries(r, k, message)
  {
  }

  /** After `disconnect(id)` a broadcast no longer reaches the socket that
      was registered under `id` (unless another id holds it too), and a
      message to `id` sends nothing. */
  lemma DisconnectedUnreachable(t: Table, id: ClientId, message: string)
    requires t.Valid() && id in t.handles
    requires forall k :: k in t.handles && k != id ==> t.handles[k] != t.handles[id]
    ensures var r := Disconnected(t, id);
      && t.handles[id] !in Values(r)
      && PersonalDeliveries(r, id, message) == []
  {
  }

  /** A message to one client is never delivered to a socket that is only
      registered under another client id. */
  lemma PersonalIsolation(t: Table, a: ClientId, b: ClientId, message: string)
    requires a != b && b in t.handles
    requires forall k :: k in t.handles && k != b ==> t.handles[k] != t.handles[b]
    ensures forall d :: d in PersonalDeliveries(t, a, message) ==> d.to != t.handles[b]
  {
  }

  /** The registry is keyed by id only: when a client reconnects under the
      same id and the earlier connection then ends, that connection's
      `disconnect` removes the newer socket, which stays open but is no
      longer registered. */
  lemma StaleDisconnectDropsNewerSocket(t: Table, id: ClientId, first: WebSocket, second: WebSocket)
    requires t.Valid()
    requires forall k :: k in t.handles && k != id ==> t.handles[k] != second
    ensures var r := Disconnected(Connected(Connected(t, id, first), id, second), id);
      id !in r.handles && second !in Values(r)
  {
  }

  class ConnectionManager {
    var order: seq<ClientId>
    var activeConnections: map<ClientId, WebSocket>
    /** Every frame sent through the registry, in order. */
    var sent: seq<Delivery>

    function Contents(): Table
      reads this
    {
      Table(order, activeConnections)
    }

    ghost predicate Valid()
      reads this
    {
      Contents().Valid()
    }

    constructor ()
      ensures Valid() && Contents() == Table([], map[]) && sent == []
    {
      order := [];
      activeConnections := map[];
      sent := [];
    }

    /** `connect(websocket, client_id)`; the handshake is not modelled. */
    method Connect(websocket: WebSocket, clientId: ClientId)
      requires Valid()
      modifies this
      ensures Valid()
      ensures Contents() == Connected(old(Contents()), clientId, websocket)
      ensures activeConnections == old(activeConnections)[clientId := websocket]
      ensures sent == old(sent)
    {
      if clientId !in activeConnections {
        order := order + [clientId];
      }
      activeConnections := activeConnections[clientId := websocket];
    }

    /** `disconnect(client_id)` */
    method Disconnect(clientId: ClientId)
      requires Valid()
      modifies this
      ensures Valid()
      ensures Contents() == Disconnected(old(Contents()), clientId)
      ensures activeConnections == old(activeConnections) - {clientId}
      ensures sent == old(sent)
    {
      order := Remove(order, clientId);
      activeConnections := activeConnections - {clientId};
    }

    /** `send_personal_message(message, client_id)` */
    method SendPersonalMessage(message: string, clientId: ClientId)
      requires Valid()
      modifies this`sent
      ensures sent == old(sent) + PersonalDeliveries(Contents(), clientId, message)
    {
      if clientId in activeConnections {
        var ws := activeConnections[clientId];
        sent := sent + [Delivery(ws, message)];
      }
    }

    /** `broadcast(message)`: walks a snapshot of the sockets taken before
        the first send. */
    method Broadcast(message: string)
      requires Valid()
      modifies this`sent
      ensures sent == old(sent) + BroadcastDeliveries(Values(Contents()), message)
    {
      var snapshot := Values(Contents());
      var i := 0;
      while i < |snapshot|
        invariant 0 <= i <= |snapshot|
        invariant sent == old(sent) + BroadcastDeliveries(snapshot[..i], message)
      {
        assert snapshot[..i + 1][..i] == snapshot[..i];
        sent := sent + [Delivery(snapshot[i], message)];
        i := i + 1;
      }
      assert snapshot[..i] == snapshot;
    }
  }
}
