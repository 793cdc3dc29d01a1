/** The in-memory test double of the store (tests/mocks.py). Its queues and hashes
    follow the same commands as the real server (`Store.LPush`, `Store.RPop`,
    `Store.HSet`); instead of a bus it remembers only the latest message published
    on each channel. It has no connection guard and no strings with a time to live. */
module MockStore {
  import opened Wrappers
  import opened Wire
  import opened Store

  /** What the double remembers of a sequence of publishes: the last message per channel. */
  function LatestPerChannel(log: seq<Message>): map<string, Value> {
    if log == [] then map[]
    else LatestPerChannel(log[..|log| - 1])[log[|log| - 1].channel := log[|log| - 1].data]
  }

  /** The remembered message for a channel is the data of the last publish on it, and
      a channel never published to has none. */
  lemma {:induction false} LatestIsLastPublished(log: seq<Message>, channel: string)
    ensures channel in LatestPerChannel(log) <==> exists i :: 0 <= i < |log| && log[i].channel == channel
    ensures channel in LatestPerChannel(log) ==>
      exists i :: 0 <= i < |log| && log[i].channel == channel
        && LatestPerChannel(log)[channel] == log[i].data
        && forall j :: i < j < |log| ==> log[j].channel != channel
  {
    if log != [] {
      var init := log[..|log| - 1];
      var last := log[|log| - 1];
      LatestIsLastPublished(init, channel);
      if last.channel == channel {
        assert log[|log| - 1].channel == channel;
      } else if channel in LatestPerChannel(init) {
        var i :| 0 <= i < |init| && init[i].channel == channel
          && LatestPerChannel(init)[channel] == init[i].data
          && forall j :: i < j < |init| ==> init[j].channel != channel;
        assert log[i] == init[i];
      } else {
        forall i | 0 <= i < |log| ensures log[i].channel != channel {
          if i < |init| { assert log[i] == init[i]; }
        }
      }
    }
  }

  class MockRedisClient {
    var queues: Queues
    var hashes: Hashes
    var publishedMessages: map<string, Value>

    constructor ()
      ensures queues == map[] && hashes == map[] && publishedMessages == map[]
    {
      queues, hashes, publishedMessages := map[], map[], map[];
    }

    /** `queues[q].insert(0, task)`, creating the list first if needed. */
    method PushTask(queueName: string, task: Value)
      modifies this
      ensures queues == LPush(old(queues), queueName, task)
      ensures hashes == old(hashes) && publishedMessages == old(publishedMessages)
    {
      queues := LPush(queues, queueName, task);
    }

    /** `queues[q].pop()`, or None for a missing or empty queue. */
    method PopTask(queueName: string) returns (r: Option<Value>)
      modifies this
      ensures (r, queues) == RPop(old(queues), queueName)
      ensures hashes == old(hashes) && publishedMessages == old(publishedMessages)
    {
      if queueName in queues && queues[queueName] != [] {
        var e := queues[queueName];
        r := Some(e[|e| - 1]);
        queues := queues[queueName := e[..|e| - 1]];
      } else {
        r := None;
      }
    }

    /** Only the latest message per channel is kept. */
    method PublishMessage(channel: string, message: Value)
      modifies this
      ensures publishedMessages == old(publishedMessages)[channel := message]
      ensures queues == old(queues) && hashes == old(hashes)
    {
      publishedMessages := publishedMessages[channel := message];
    }

    method GetPublishedMessage(channel: string) returns (r: Option<Value>)
      ensures r == (if channel in publishedMessages then Some(publishedMessages[channel]) else None)
    {
      r := if channel in publishedMessages then Some(publishedMessages[channel]) else None;
    }

    method SetHashField(hashName: string, key: string, value: Value)
      modifies this
      ensures hashes == HSet(old(hashes), hashName, key, value)
      ensures queues == old(queues) && publishedMessages == old(publishedMessages)
    {
      if hashName !in hashes {
        hashes := hashes[hashName := map[]];
      }
      hashes := hashes[hashName := hashes[hashName][key := value]];
    }

    method GetHashField(hashName: string, key: string) returns (r: Option<Value>)
      ensures r == HGet(hashes, hashName, key)
    {
      var h := if hashName in hashes then hashes[hashName] else map[];
      r := if key in h then Some(h[key]) else None;
    }

    /** A missing hash reads as the empty map. */
    method GetAllHashFields(hashName: string) returns (r: map<string, Value>)
      ensures r == Fields(hashes, hashName)
    {
      r := if hashName in hashes then hashes[hashName] else map[];
    }
  }

  /** A run of calls on the double, replayed on a connected real store, leaves the same
      queues and hashes, and the double's remembered messages are the latest of the
      real bus. */
  datatype Call =
    | Push(queue: string, item: Value)
    | Pop(queue: string)
    | Publish(channel: string, message: Value)
    | HashSet(hash: string, field: string, value: Value)

  function ReplayReal(s: State, calls: seq<Call>): State {
    if calls == [] then s
    else
      var s' := ReplayReal(s, calls[..|calls| - 1]);
      match calls[|calls| - 1]
      case Push(q, v) => AfterPush(s', q, v)
      case Pop(q) => AfterPop(s', q)
      case Publish(c, m) => AfterPublish(s', c, m)
      case HashSet(h, f, v) => AfterHSet(s', h, f, v)
  }

  datatype Double = Double(queues: Queues, hashes: Hashes, published: map<string, Value>)

  function ReplayDouble(d: Double, calls: seq<Call>): Double {
    if calls == [] then d
    else
      var d' := ReplayDouble(d, calls[..|calls| - 1]);
      match calls[|calls| - 1]
      case Push(q, v) => d'.(queues := LPush(d'.queues, q, v))
      case Pop(q) => d'.(queues := RPop(d'.queues, q).1)
      case Publish(c, m) => d'.(published := d'.published[c := m])
      case HashSet(h, f, v) => d'.(hashes := HSet(d'.hashes, h, f, v))
  }

  lemma {:induction false} DoubleAgreesWithStore(s: State, calls: seq<Call>)
    requires s.connected && s.log == []
    ensures ReplayReal(s, calls).connected
    ensures ReplayDouble(Double(s.queues, s.hashes, map[]), calls)
         == Double(ReplayReal(s, calls).queues, ReplayReal(s, calls).hashes, LatestPerChannel(ReplayReal(s, calls).log))
  {
    if calls != [] {
      DoubleAgreesWithStore(s, calls[..|calls| - 1]);
      var r := ReplayReal(s, calls[..|calls| - 1]);
      match calls[|calls| - 1]
      case Publish(c, m) =>
        assert (r.log + [Message(c, m)])[..|r.log|] == r.log;
      case _ =>
    }
  }
}
