/** The shared store (src/redis_client.py): Redis lists used as FIFO task queues,
    hashes used as records, strings with a time to live used as a cache, and a
    publish/subscribe bus.

    The pure functions at the top give the meaning of each Redis command on the
    server's contents; `MockStore` (tests/mocks.py) reuses the queue and hash ones.
    The `*Reply` / `After*` functions add the client's guard: when the connection
    could not be made (`self.client is None`) a write does nothing and a read
    answers `None`. The class `RedisClient` holds the same data in fields and its
    methods are specified by these functions. */
module Store {
  import opened Wrappers
  import opened Wire

  // ---------------------------------------------------------------------------
  // Queue and channel names shared by the agents

  const ResearchQueue := "tasks:research"
  const VoiceQueue := "tasks:coordinator_voice_input"
  const ActivityChannel := "agent:activity"

  // ---------------------------------------------------------------------------
  // Lists as queues

  /** Lists in Redis order: index 0 is the left end, where LPUSH inserts. */
  type Queues = map<string, seq<Value>>

  /** A key that was never pushed to reads as the empty list. */
  function Entries(qs: Queues, q: string): seq<Value> {
    if q in qs then qs[q] else []
  }

  function Reverse<T>(s: seq<T>): (r: seq<T>)
    ensures |r| == |s|
  {
    if s == [] then [] else Reverse(s[1..]) + [s[0]]
  }

  /** The entries of queue `q` in the order RPOP will return them. */
  function Pending(qs: Queues, q: string): seq<Value> {
    Reverse(Entries(qs, q))
  }

  /** LPUSH q v (also `queues[q].insert(0, v)` in the test double). */
  function LPush(qs: Queues, q: string, v: Value): Queues {
    qs[q := [v] + Entries(qs, q)]
  }

  /** RPOP q: the rightmost entry, or nothing for an empty or missing list. */
  function RPop(qs: Queues, q: string): (Option<Value>, Queues) {
    var e := Entries(qs, q);
    if e == [] then (None, qs) else (Some(e[|e| - 1]), qs[q := e[..|e| - 1]])
  }

  lemma {:induction false} ReverseFront<T>(x: T, s: seq<T>)
    ensures Reverse([x] + s) == Reverse(s) + [x]
  {
    assert ([x] + s)[1..] == s;
  }

  lemma {:induction false} ReverseLast<T>(s: seq<T>)
    requires s != []
    ensures Reverse(s)[0] == s[|s| - 1]
    ensures Reverse(s)[1..] == Reverse(s[..|s| - 1])
  {
    if |s| == 1 {
      assert Reverse(s) == Reverse(s[1..]) + [s[0]] == [s[0]];
      assert s[..0] == [];
    } else {
      var t := s[1..];
      ReverseLast(t);
      assert t[|t| - 1] == s[|s| - 1];
      assert s[..|s| - 1] == [s[0]] + t[..|t| - 1];
      ReverseFront(s[0], t[..|t| - 1]);
    }
  }

  /** LPUSH puts the new entry behind every entry already waiting. */
  lemma PushEnqueues(qs: Queues, q: string, v: Value)
    ensures Pending(LPush(qs, q, v), q) == Pending(qs, q) + [v]
    ensures forall r :: r != q ==> Entries(LPush(qs, q, v), r) == Entries(qs, r)
  {
    ReverseFront(v, Entries(qs, q));
  }

  /** RPOP returns the entry that has waited longest, and removes only it. */
  lemma PopDequeues(qs: Queues, q: string)
    ensures RPop(qs, q).0.None? <==> Pending(qs, q) == []
    ensures Pending(qs, q) == [] ==> RPop(qs, q).1 == qs
    ensures Pending(qs, q) != [] ==>
      && RPop(qs, q).0 == Some(Pending(qs, q)[0])
      && Pending(RPop(qs, q).1, q) == Pending(qs, q)[1..]
    ensures forall r :: r != q ==> Entries(RPop(qs, q).1, r) == Entries(qs, r)
  {
    var e := Entries(qs, q);
    if e != [] {
      ReverseLast(e);
    }
  }

  // ---------------------------------------------------------------------------
  // Hashes

  type Hashes = map<string, map<string, Value>>

  /** HGETALL: a missing hash reads as the empty hash. */
  function Fields(hs: Hashes, h: string): map<string, Value> {
    if h in hs then hs[h] else map[]
  }

  /** HSET h f v: creates the hash if needed, last writer wins. */
  function HSet(hs: Hashes, h: string, f: string, v: Value): Hashes {
    hs[h := Fields(hs, h)[f := v]]
  }

  /** HGET h f */
  function HGet(hs: Hashes, h: string, f: string): Option<Value> {
    if f in Fields(hs, h) then Some(Fields(hs, h)[f]) else None
  }

  // ---------------------------------------------------------------------------
  // Strings with a time to live

  /** A string value and the first second at which it is gone. */
  datatype Expiring = Expiring(value: Value, expiresAt: int)

  type Strings = map<string, Expiring>

  /** SETEX k ttl v, issued at second `now`. */
  function SetEx(ss: Strings, k: string, v: Value, ttl: nat, now: int): Strings
    requires ttl > 0
  {
    ss[k := Expiring(v, now + ttl)]
  }

  /** GET k at second `now`: expired keys read as missing. */
  function GetAt(ss: Strings, k: string, now: int): Option<Value> {
    if k in ss && now < ss[k].expiresAt then Some(ss[k].value) else None
  }

  // ---------------------------------------------------------------------------
  // Publish/subscribe

  /** One PUBLISH, as the server saw it. */
  datatype Message = Message(channel: string, data: Value)

  // ---------------------------------------------------------------------------
  // The client with its connection guard

  /** Everything a `RedisClient` can observe or change: whether the connection
      was made, and the server's contents. `log` records every PUBLISH in order. */
  datatype State = State(
    connected: bool,
    queues: Queues,
    hashes: Hashes,
    strings: Strings,
    log: seq<Message>)

  /** push_task */
  function AfterPush(s: State, q: string, v: Value): State {
    if s.connected then s.(queues := LPush(s.queues, q, v)) else s
  }

  /** pop_task: what it returns */
  function PopReply(s: State, q: string): Option<Value> {
    if s.connected then RPop(s.queues, q).0 else None
  }

  /** pop_task: the state it leaves */
  function AfterPop(s: State, q: string): State {
    if s.connected then s.(queues := RPop(s.queues, q).1) else s
  }

  /** set_hash_field */
  function AfterHSet(s: State, h: string, f: string, v: Value): State {
    if s.connected then s.(hashes := HSet(s.hashes, h, f, v)) else s
  }

  /** get_hash_field */
  function HGetReply(s: State, h: string, f: string): Option<Value> {
    if s.connected then HGet(s.hashes, h, f) else None
  }

  /** get_all_hash_fields */
  function HGetAllReply(s: State, h: string): Option<map<string, Value>> {
    if s.connected then Some(Fields(s.hashes, h)) else None
  }

  /** set_with_ttl */
  function AfterSetEx(s: State, k: string, v: Value, ttl: nat, now: int): State
    requires ttl > 0
  {
    if s.connected then s.(strings := SetEx(s.strings, k, v, ttl, now)) else s
  }

  /** get */
  function GetReply(s: State, k: string, now: int): Option<Value> {
    if s.connected then GetAt(s.strings, k, now) else None
  }

  /** publish_message */
  function AfterPublish(s: State, channel: string, m: Value): State {
    if s.connected then s.(log := s.log + [Message(channel, m)]) else s
  }

  /** Pushes `vs` one after the other, in order. */
  function AfterPushAll(s: State, q: string, vs: seq<Value>): State {
    if vs == [] then s else AfterPush(AfterPushAll(s, q, vs[..|vs| - 1]), q, vs[|vs| - 1])
  }

  /** Pops `n` times and collects the replies that were not `None`. */
  function PopMany(s: State, q: string, n: nat): (seq<Value>, State) {
    if n == 0 then ([], s)
    else
      var (got, s') := PopMany(s, q, n - 1);
      match PopReply(s', q)
      case Some(v) => (got + [v], AfterPop(s', q))
      case None => (got, s')
  }

  /** Writes of one call do not reach anything but what they name. */
  predicate SameExceptQueues(a: State, b: State) {
    a.connected == b.connected && a.hashes == b.hashes && a.strings == b.strings && a.log == b.log
  }

  // ---------------------------------------------------------------------------
  // Properties

  /** With no connection every write is a no-op and every read answers None. */
  lemma DisconnectedIsInert(s: State, q: string, h: string, f: string, v: Value, now: int)
    requires !s.connected
    ensures AfterPush(s, q, v) == s && AfterPop(s, q) == s && PopReply(s, q) == None
    ensures AfterHSet(s, h, f, v) == s && HGetReply(s, h, f) == None && HGetAllReply(s, h) == None
    ensures AfterSetEx(s, h, v, 3600, now) == s && GetReply(s, h, now) == None
    ensures AfterPublish(s, q, v) == s
  {
  }

  /** push_task: one more entry at the back of the named queue, nothing else changes. */
  lemma PushTaskEnqueues(s: State, q: string, v: Value)
    requires s.connected
    ensures Pending(AfterPush(s, q, v).queues, q) == Pending(s.queues, q) + [v]
    ensures forall r :: r != q ==> Entries(AfterPush(s, q, v).queues, r) == Entries(s.queues, r)
    ensures SameExceptQueues(AfterPush(s, q, v), s)
  {
    PushEnqueues(s.queues, q, v);
  }

  /** pop_task: the oldest entry, or None with nothing changed when the queue is
      empty or was never created. */
  lemma PopTaskDequeues(s: State, q: string)
    ensures PopReply(s, q).None? <==> (!s.connected || Pending(s.queues, q) == [])
    ensures PopReply(s, q).None? ==> AfterPop(s, q) == s
    ensures PopReply(s, q).Some? ==>
      && PopReply(s, q).value == Pending(s.queues, q)[0]
      && Pending(AfterPop(s, q).queues, q) == Pending(s.queues, q)[1..]
    ensures forall r :: r != q ==> Entries(AfterPop(s, q).queues, r) == Entries(s.queues, r)
    ensures SameExceptQueues(AfterPop(s, q), s)
  {
    PopDequeues(s.queues, q);
  }

  /** Pushing several entries appends them, in order, behind those waiting. */
  lemma {:induction false} PushAllEnqueues(s: State, q: string, vs: seq<Value>)
    requires s.connected
    ensures AfterPushAll(s, q, vs).connected
    ensures Pending(AfterPushAll(s, q, vs).queues, q) == Pending(s.queues, q) + vs
    ensures forall r :: r != q ==> Entries(AfterPushAll(s, q, vs).queues, r) == Entries(s.queues, r)
    ensures SameExceptQueues(AfterPushAll(s, q, vs), s)
  {
    if vs != [] {
      var init := vs[..|vs| - 1];
      PushAllEnqueues(s, q, init);
      PushTaskEnqueues(AfterPushAll(s, q, init), q, vs[|vs| - 1]);
      assert init + [vs[|vs| - 1]] == vs;
    }
  }

  /** Popping n times returns the n oldest entries, oldest first. */
  lemma {:induction false} PopManyTakesOldest(s: State, q: string, n: nat)
    requires s.connected && n <= |Pending(s.queues, q)|
    ensures PopMany(s, q, n).0 == Pending(s.queues, q)[..n]
    ensures PopMany(s, q, n).1.connected
    ensures Pending(PopMany(s, q, n).1.queues, q) == Pending(s.queues, q)[n..]
  {
    if n > 0 {
      PopManyTakesOldest(s, q, n - 1);
      var got := PopMany(s, q, n - 1).0;
      var s' := PopMany(s, q, n - 1).1;
      var p := Pending(s.queues, q);
      assert Pending(s'.queues, q) == p[n - 1..];
      PopTaskDequeues(s', q);
      assert PopReply(s', q) == Some(p[n - 1]);
      assert PopMany(s, q, n) == (got + [p[n - 1]], AfterPop(s', q));
      assert p[..n] == p[..n - 1] + [p[n - 1]];
      assert p[n - 1..][1..] == p[n..];
    }
  }

  /** FIFO: pushing t1, ..., tk onto an empty queue and popping k times yields
      t1, ..., tk and leaves the queue empty. */
  lemma FifoOrder(s: State, q: string, ts: seq<Value>)
    requires s.connected && Pending(s.queues, q) == []
    ensures PopMany(AfterPushAll(s, q, ts), q, |ts|).0 == ts
    ensures Pending(PopMany(AfterPushAll(s, q, ts), q, |ts|).1.queues, q) == []
  {
    PushAllEnqueues(s, q, ts);
    PopManyTakesOldest(AfterPushAll(s, q, ts), q, |ts|);
  }

  /** set_hash_field then get_hash_field returns the value; other fields and other
      hashes are untouched. */
  lemma HashReadsLastWrite(s: State, h: string, f: string, v: Value, h': string, f': string)
    requires s.connected
    ensures HGetReply(AfterHSet(s, h, f, v), h, f) == Some(v)
    ensures (h', f') != (h, f) ==> HGetReply(AfterHSet(s, h, f, v), h', f') == HGetReply(s, h', f')
    ensures AfterHSet(s, h, f, v).queues == s.queues && AfterHSet(s, h, f, v).log == s.log
  {
  }

  /** A second write to the same field wins. */
  lemma HashOverwrite(s: State, h: string, f: string, v1: Value, v2: Value)
    ensures AfterHSet(AfterHSet(s, h, f, v1), h, f, v2) == AfterHSet(s, h, f, v2)
  {
    if s.connected {
      var m := Fields(s.hashes, h);
      assert m[f := v1][f := v2] == m[f := v2];
    }
  }

  /** Writes applied one after the other. */
  function AfterHSets(s: State, h: string, writes: seq<(string, Value)>): State {
    if writes == [] then s
    else AfterHSet(AfterHSets(s, h, writes[..|writes| - 1]), h, writes[|writes| - 1].0, writes[|writes| - 1].1)
  }

  /** get_all_hash_fields on a fresh hash returns exactly the fields written so far. */
  lemma {:induction false} AllFieldsAreThoseWritten(s: State, h: string, writes: seq<(string, Value)>)
    requires s.connected && h !in s.hashes
    ensures HGetAllReply(AfterHSets(s, h, writes), h).Some?
    ensures HGetAllReply(AfterHSets(s, h, writes), h).value.Keys == set i | 0 <= i < |writes| :: writes[i].0
  {
    if writes != [] {
      var init := writes[..|writes| - 1];
      AllFieldsAreThoseWritten(s, h, init);
      var last := writes[|writes| - 1];
      assert (set i | 0 <= i < |writes| :: writes[i].0)
          == (set i | 0 <= i < |init| :: init[i].0) + {last.0} by {
        forall i | 0 <= i < |init| ensures init[i] == writes[i] { }
      }
    }
  }

  /** A value set with a time to live `ttl` at second `now` reads back until
      `ttl` seconds have elapsed, and as missing from then on. */
  lemma TtlWindow(s: State, k: string, v: Value, ttl: nat, now: int, later: int)
    requires s.connected && ttl > 0 && now <= later
    ensures GetReply(AfterSetEx(s, k, v, ttl, now), k, later) == (if later < now + ttl then Some(v) else None)
  {
  }

  /** publish_message appends one message to the bus and changes no stored value. */
  lemma PublishOnlyAppends(s: State, channel: string, m: Value)
    requires s.connected
    ensures AfterPublish(s, channel, m).log == s.log + [Message(channel, m)]
    ensures AfterPublish(s, channel, m).(log := s.log) == s
  {
  }

  // ---------------------------------------------------------------------------
  // The client object

  /** A pub/sub handle (`client.pubsub()`) and the channels it listens to. */
  class PubSub {
    var channels: set<string>

    constructor (channel: string)
      ensures channels == {channel}
    {
      channels := {channel};
    }

    method Unsubscribe(channel: string)
      modifies this
      ensures channels == old(channels) - {channel}
    {
      channels := channels - {channel};
    }
  }

  class RedisClient {
    /** `self.client is not None`: the constructor's ping succeeded. */
    var connected: bool
    var queues: Queues
    var hashes: Hashes
    var strings: Strings
    var log: seq<Message>

    function Snapshot(): State
      reads this
    {
      State(connected, queues, hashes, strings, log)
    }

    /** Connect to a server holding the given contents; `reachable` is the outcome
        of the ping. */
    constructor (reachable: bool, queues0: Queues, hashes0: Hashes, strings0: Strings)
      ensures Snapshot() == State(reachable, queues0, hashes0, strings0, [])
    {
      connected := reachable;
      queues, hashes, strings, log := queues0, hashes0, strings0, [];
    }

    method PushTask(queueName: string, taskData: Value)
      modifies this
      ensures Snapshot() == AfterPush(old(Snapshot()), queueName, taskData)
    {
      if connected {
        queues := LPush(queues, queueName, taskData);
      }
    }

    method PopTask(queueName: string) returns (r: Option<Value>)
      modifies this
      ensures r == PopReply(old(Snapshot()), queueName)
      ensures Snapshot() == AfterPop(old(Snapshot()), queueName)
    {
      r := None;
      if connected {
        var (reply, rest) := RPop(queues, queueName);
        r, queues := reply, rest;
      }
    }

    method SetHashField(hashName: string, field: string, value: Value)
      modifies this
      ensures Snapshot() == AfterHSet(old(Snapshot()), hashName, field, value)
    {
      if connected {
        hashes := HSet(hashes, hashName, field, value);
      }
    }

    method GetHashField(hashName: string, field: string) returns (r: Option<Value>)
      ensures r == HGetReply(Snapshot(), hashName, field)
    {
      r := None;
      if connected {
        r := HGet(hashes, hashName, field);
      }
    }

    method GetAllHashFields(hashName: string) returns (r: Option<map<string, Value>>)
      ensures r == HGetAllReply(Snapshot(), hashName)
    {
      r := None;
      if connected {
        r := Some(Fields(hashes, hashName));
      }
    }

    /** `now` is the server's clock when the command arrives. */
    method SetWithTtl(key: string, value: Value, ttlSeconds: nat, now: int)
      requires ttlSeconds > 0
      modifies this
      ensures Snapshot() == AfterSetEx(old(Snapshot()), key, value, ttlSeconds, now)
    {
      if connected {
        strings := SetEx(strings, key, value, ttlSeconds, now);
      }
    }

    method Get(key: string, now: int) returns (r: Option<Value>)
      ensures r == GetReply(Snapshot(), key, now)
    {
      r := None;
      if connected {
        r := GetAt(strings, key, now);
      }
    }

    method PublishMessage(channel: string, message: Value)
      modifies this
      ensures Snapshot() == AfterPublish(old(Snapshot()), channel, message)
    {
      if connected {
        log := log + [Message(channel, message)];
      }
    }

    /** A handle subscribed to `channel`, or null without a connection. */
    method SubscribeToChannel(channel: string) returns (p: PubSub?)
      ensures (p != null) == connected
      ensures p != null ==> fresh(p) && p.channels == {channel}
    {
      p := null;
      if connected {
        p := new PubSub(channel);
      }
    }
  }
}
