/** The web server (src/main.py): the chat-room connection manager behind the
    `/ws/{client_id}` socket route, and the two store-facing routes `/api/decompose`
    and `/api/papers`.

    Sockets are identified by a number; what is written to them is recorded, in
    order, in the manager's `outbox`. The texts a client sends before it disconnects
    are a parameter of the socket route. */
module Server {
  import opened Wrappers
  import opened Wire
  import opened Store
  import opened Text
  import Coordinator

  /** The identity of one websocket. */
  type Socket = nat

  /** One text frame written to a socket. */
  datatype Sent = Sent(to: Socket, text: string)

  /** `list.remove`: drops the first occurrence, if there is one. */
  function RemoveFirst(xs: seq<Socket>, x: Socket): (r: seq<Socket>)
    ensures x in xs ==> |r| == |xs| - 1
    ensures x !in xs ==> r == xs
  {
    if xs == [] then []
    else if xs[0] == x then xs[1..]
    else [xs[0]] + RemoveFirst(xs[1..], x)
  }

  /** One text sent to every connection, in list order. */
  function Broadcasts(conns: seq<Socket>, message: string): (out: seq<Sent>)
    ensures |out| == |conns|
    ensures forall i :: 0 <= i < |conns| ==> out[i] == Sent(conns[i], message)
  {
    seq(|conns|, i requires 0 <= i < |conns| => Sent(conns[i], message))
  }

  function Says(clientId: int, data: string): string {
    "Client #" + IntDecimal(clientId) + " says: " + data
  }

  function LeftChat(clientId: int): string {
    "Client #" + IntDecimal(clientId) + " left the chat"
  }

  /** The texts of one received message: the echo to the sender, then the
      broadcast to every connection, the sender included. */
  function Block(ws: Socket, clientId: int, data: string, conns: seq<Socket>): (b: seq<Sent>)
    ensures |b| == 1 + |conns|
  {
    [Sent(ws, "You wrote: " + data)] + Broadcasts(conns, Says(clientId, data))
  }

  /** What the socket route writes for the texts received from one client while
      `conns` are connected, one block per text in arrival order. */
  function Chat(ws: Socket, clientId: int, received: seq<string>, conns: seq<Socket>): seq<Sent> {
    if received == [] then []
    else Chat(ws, clientId, received[..|received| - 1], conns) + Block(ws, clientId, received[|received| - 1], conns)
  }

  class ConnectionManager {
    var active: seq<Socket>
    /** Every text written to a socket, in order. */
    var outbox: seq<Sent>
    /** The sockets whose handshake was accepted. */
    var accepted: set<Socket>

    constructor ()
      ensures active == [] && outbox == [] && accepted == {}
    {
      active, outbox, accepted := [], [], {};
    }

    method Connect(ws: Socket)
      modifies this
      ensures accepted == old(accepted) + {ws}
      ensures active == old(active) + [ws]
      ensures outbox == old(outbox)
    {
      accepted := accepted + {ws};
      active := active + [ws];
    }

    /** `ok` is false when the socket is not connected (`remove` raises). */
    method Disconnect(ws: Socket) returns (ok: bool)
      modifies this
      ensures ok <==> ws in old(active)
      ensures active == RemoveFirst(old(active), ws)
      ensures outbox == old(outbox) && accepted == old(accepted)
    {
      ok := ws in active;
      active := RemoveFirst(active, ws);
    }

    method SendPersonalMessage(message: string, ws: Socket)
      modifies this
      ensures outbox == old(outbox) + [Sent(ws, message)]
      ensures active == old(active) && accepted == old(accepted)
    {
      outbox := outbox + [Sent(ws, message)];
    }

    method Broadcast(message: string)
      modifies this
      ensures outbox == old(outbox) + Broadcasts(active, message)
      ensures active == old(active) && accepted == old(accepted)
    {
      var conns := active;
      for i := 0 to |conns|
        invariant outbox == old(outbox) + Broadcasts(conns[..i], message)
        invariant active == conns && accepted == old(accepted)
      {
        assert Broadcasts(conns[..i + 1], message) == Broadcasts(conns[..i], message) + [Sent(conns[i], message)];
        outbox := outbox + [Sent(conns[i], message)];
      }
      assert conns[..|conns|] == conns;
    }

    /** The `/ws/{client_id}` route: connect, then echo and broadcast each received
        text; on disconnect, leave the list and tell the others. */
    method WebsocketEndpoint(ws: Socket, clientId: int, received: seq<string>)
      modifies this
      ensures accepted == old(accepted) + {ws}
      ensures active == RemoveFirst(old(active) + [ws], ws)
      ensures outbox == old(outbox) + Chat(ws, clientId, received, old(active) + [ws])
                        + Broadcasts(active, LeftChat(clientId))
    {
      Connect(ws);
      ReceiveAll(ws, clientId, received);
      var _ := Disconnect(ws);
      Broadcast(LeftChat(clientId));
    }

    /** The `while True` receive loop of the route: an echo and a broadcast per text. */
    method ReceiveAll(ws: Socket, clientId: int, received: seq<string>)
      modifies this
      ensures active == old(active) && accepted == old(accepted)
      ensures outbox == old(outbox) + Chat(ws, clientId, received, active)
    {
      for i := 0 to |received|
        invariant active == old(active) && accepted == old(accepted)
        invariant outbox == old(outbox) + Chat(ws, clientId, received[..i], active)
      {
        ReceiveOne(ws, clientId, received, i, old(outbox));
      }
      assert received[..|received|] == received;
    }

    /** One text of the receive loop, stated against the frames sent so far. */
    method ReceiveOne(ws: Socket, clientId: int, received: seq<string>, i: nat, ghost base: seq<Sent>)
      requires i < |received|
      requires outbox == base + Chat(ws, clientId, received[..i], active)
      modifies this
      ensures active == old(active) && accepted == old(accepted)
      ensures outbox == base + Chat(ws, clientId, received[..i + 1], active)
    {
      ghost var prev := Chat(ws, clientId, received[..i], active);
      var data := received[i];
      SendPersonalMessage("You wrote: " + data, ws);
      Broadcast(Says(clientId, data));
      assert received[..i + 1][..i] == received[..i];
      assert Chat(ws, clientId, received[..i + 1], active) == prev + Block(ws, clientId, data, active);
      Assoc(base + prev, [Sent(ws, "You wrote: " + data)], Broadcasts(active, Says(clientId, data)));
      Assoc(base, prev, Block(ws, clientId, data, active));
    }
  }

  // ---------------------------------------------------------------------------
  // Properties of the connection list

  /** The position of the first occurrence of a connected socket. */
  function FirstIndex(xs: seq<Socket>, x: Socket): (i: nat)
    requires x in xs
    ensures i < |xs| && xs[i] == x && x !in xs[..i]
  {
    if xs[0] == x then 0
    else
      var j := FirstIndex(xs[1..], x);
      assert xs[..j + 1] == [xs[0]] + xs[1..][..j];
      j + 1
  }

  /** Disconnecting removes exactly the first occurrence and keeps the others in order. */
  lemma {:induction false} RemoveFirstKeepsOrder(xs: seq<Socket>, x: Socket)
    requires x in xs
    ensures RemoveFirst(xs, x) == xs[..FirstIndex(xs, x)] + xs[FirstIndex(xs, x) + 1..]
  {
    if xs[0] == x {
      assert xs[..0] == [];
    } else {
      var j := FirstIndex(xs[1..], x);
      RemoveFirstKeepsOrder(xs[1..], x);
      assert xs[..j + 1] == [xs[0]] + xs[1..][..j];
      assert xs[j + 2..] == xs[1..][j + 1..];
      Assoc([xs[0]], xs[1..][..j], xs[1..][j + 1..]);
    }
  }

  /** A socket that connects and then leaves restores the list it found. */
  lemma {:induction false} ConnectThenDisconnectRestores(xs: seq<Socket>, x: Socket)
    requires x !in xs
    ensures RemoveFirst(xs + [x], x) == xs
  {
    if xs == [] {
      assert [] + [x] == [x];
    } else {
      assert (xs + [x])[1..] == xs[1..] + [x];
      ConnectThenDisconnectRestores(xs[1..], x);
      assert [xs[0]] + xs[1..] == xs;
    }
  }

  lemma {:induction false} ChatLength(ws: Socket, clientId: int, received: seq<string>, conns: seq<Socket>)
    ensures |Chat(ws, clientId, received, conns)| == |received| * (1 + |conns|)
  {
    if received != [] {
      var init := received[..|received| - 1];
      ChatLength(ws, clientId, init, conns);
      assert Chat(ws, clientId, received, conns) == Chat(ws, clientId, init, conns) + Block(ws, clientId, received[|received| - 1], conns);
      assert (|init| + 1) * (1 + |conns|) == |init| * (1 + |conns|) + (1 + |conns|);
    }
  }

  /** The texts for a run of received messages are those of its first part followed
      by those of the rest. */
  lemma {:induction false} ChatAppend(ws: Socket, clientId: int, a: seq<string>, b: seq<string>, conns: seq<Socket>)
    ensures Chat(ws, clientId, a + b, conns) == Chat(ws, clientId, a, conns) + Chat(ws, clientId, b, conns)
  {
    if b == [] {
      assert a + b == a;
    } else {
      var b0 := b[..|b| - 1];
      var last := Block(ws, clientId, b[|b| - 1], conns);
      calc {
        Chat(ws, clientId, a + b, conns);
        { assert (a + b)[..|a + b| - 1] == a + b0 && (a + b)[|a + b| - 1] == b[|b| - 1]; }
        Chat(ws, clientId, a + b0, conns) + last;
        { ChatAppend(ws, clientId, a, b0, conns); }
        (Chat(ws, clientId, a, conns) + Chat(ws, clientId, b0, conns)) + last;
        { Assoc(Chat(ws, clientId, a, conns), Chat(ws, clientId, b0, conns), last); }
        Chat(ws, clientId, a, conns) + (Chat(ws, clientId, b0, conns) + last);
        Chat(ws, clientId, a, conns) + Chat(ws, clientId, b, conns);
      }
    }
  }

  /** Each received text is echoed to its sender before anything is broadcast for
      it, every connection gets the broadcast, and the blocks follow the order in
      which the texts arrived. */
  lemma ChatBlock(ws: Socket, clientId: int, received: seq<string>, conns: seq<Socket>, j: nat)
    requires j < |received|
    ensures Chat(ws, clientId, received, conns)
         == Chat(ws, clientId, received[..j], conns) + Block(ws, clientId, received[j], conns)
            + Chat(ws, clientId, received[j + 1..], conns)
  {
    assert received == received[..j] + [received[j]] + received[j + 1..];
    ChatAppend(ws, clientId, received[..j] + [received[j]], received[j + 1..], conns);
    ChatAppend(ws, clientId, received[..j], [received[j]], conns);
    assert [received[j]][..0] == [];
  }

  /** When the leaving client was not already in the list, the others are told in
      their original order and the list is what it was before the client came. */
  lemma EndpointRestoresConnections(before: seq<Socket>, ws: Socket, clientId: int)
    requires ws !in before
    ensures RemoveFirst(before + [ws], ws) == before
    ensures Broadcasts(RemoveFirst(before + [ws], ws), LeftChat(clientId)) == Broadcasts(before, LeftChat(clientId))
  {
    ConnectThenDisconnectRestores(before, ws);
  }

  // ---------------------------------------------------------------------------
  // /api/papers

  const MaxPapers := 20

  /** One row of the `/api/papers` answer. */
  datatype PaperEntry = PaperEntry(title: Value, url: Value, id: string)

  function FieldOr(fields: map<string, Value>, f: string): Value {
    if f in fields then fields[f] else Text("")
  }

  function PaperRow(hs: Hashes, k: string): PaperEntry {
    PaperEntry(FieldOr(Fields(hs, k), "title"), FieldOr(Fields(hs, k), "url"), k)
  }

  /** The rows for the first 20 keys of the `KEYS paper:*` reply `listing`; the route
      fails when the client never connected (`client` is None). */
  function Papers(s: State, listing: seq<string>): Result<seq<PaperEntry>> {
    if !s.connected then Crashed("'NoneType' object has no attribute 'keys'")
    else
      var keys := Take(listing, MaxPapers);
      Ok(seq(|keys|, i requires 0 <= i < |keys| => PaperRow(s.hashes, keys[i])))
  }

  method GetPapers(redis: RedisClient, listing: seq<string>) returns (r: Result<seq<PaperEntry>>)
    ensures r == Papers(redis.Snapshot(), listing)
  {
    if !redis.connected {
      return Crashed("'NoneType' object has no attribute 'keys'");
    }
    var keys := Take(listing, MaxPapers);
    ghost var hs := redis.hashes;
    var papers: seq<PaperEntry> := [];
    for i := 0 to |keys|
      invariant papers == seq(i, j requires 0 <= j < i => PaperRow(hs, keys[j]))
    {
      var k := keys[i];
      var p := redis.GetAllHashFields(k);
      papers := papers + [PaperEntry(FieldOr(p.value, "title"), FieldOr(p.value, "url"), k)];
    }
    r := Ok(papers);
  }

  /** At most 20 rows, one per listed key in listing order; each shows what is stored
      under `title` and `url`, or an empty string. */
  lemma PapersRows(s: State, listing: seq<string>)
    requires s.connected
    ensures Papers(s, listing).Ok?
    ensures |Papers(s, listing).value| == if |listing| < MaxPapers then |listing| else MaxPapers
    ensures forall i :: 0 <= i < |Papers(s, listing).value| ==>
      var row := Papers(s, listing).value[i];
      && row.id == listing[i]
      && (HGet(s.hashes, listing[i], "title").Some? ==> row.title == HGet(s.hashes, listing[i], "title").value)
      && (HGet(s.hashes, listing[i], "title").None? ==> row.title == Text(""))
      && (HGet(s.hashes, listing[i], "url").Some? ==> row.url == HGet(s.hashes, listing[i], "url").value)
      && (HGet(s.hashes, listing[i], "url").None? ==> row.url == Text(""))
  {
  }

  // ---------------------------------------------------------------------------
  // /api/decompose

  /** The answer of `/api/decompose` for a coordinator created for the request.
      Only string or absent values of `query` and `session_id` are modelled. */
  method ApiDecompose(redis: RedisClient, payload: map<string, Json>, configured: bool,
                      decomposer: Coordinator.Decomposition, uuid: nat -> string) returns (r: Result<Json>)
    modifies redis
    ensures (!GetField(payload, "query", JNull).JStr? || !(GetField(payload, "session_id", JNull).JStr? || GetField(payload, "session_id", JNull).JNull?))
              ==> r.Crashed? && redis.Snapshot() == old(redis.Snapshot())
    ensures (GetField(payload, "query", JNull).JStr? && (GetField(payload, "session_id", JNull).JStr? || GetField(payload, "session_id", JNull).JNull?))
              ==> r.Ok?
    ensures r.Ok? ==>
      var query := GetField(payload, "query", JNull).s;
      var sid := if GetField(payload, "session_id", JNull).JStr? then Some(GetField(payload, "session_id", JNull).s) else None;
      var tasks := Coordinator.Plan(configured, query, decomposer).0;
      var ids := Coordinator.FreshIds(uuid, |tasks|);
      && r.value == JObj(map["tasks" := StrList(ids)])
      && redis.Snapshot() == Coordinator.Dispatched(old(redis.Snapshot()), tasks, ids, sid)
  {
    var query := GetField(payload, "query", JNull);
    var sessionField := GetField(payload, "session_id", JNull);
    if !query.JStr? || !(sessionField.JStr? || sessionField.JNull?) {
      return Crashed("only string queries and session ids are modelled");
    }
    var sessionId := if sessionField.JStr? then Some(sessionField.s) else None;
    var agent := new Coordinator.CoordinatorAgent(redis, configured);
    var taskIds := agent.DecomposeAndDispatch(query.s, sessionId, decomposer, uuid);
    r := Ok(JObj(map["tasks" := StrList(taskIds)]));
  }
}
