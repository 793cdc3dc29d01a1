/** The voice session handler (src/voice_handler.py): one per browser socket. Final
    speech transcripts are announced and queued for the coordinator; agent replies
    published on the session's reply channel are sent back over the socket as an
    optional media link, synthesized audio and the reply text.

    Speech recognition, speech synthesis and the socket are outside the model: the
    recognition results, the synthesizer (`tts`) and the messages received on the
    reply channel are parameters, and `outbox` records what was sent. */
module Voice {
  import opened Wrappers
  import opened Wire
  import opened Store
  import opened Envelope
  import opened Text

  /** The reply channel of a session. */
  function ReplyChannel(sessionId: string): string {
    "session:" + sessionId + ":response"
  }

  /** One frame sent over the socket. */
  datatype Frame = TextFrame(text: Value) | BytesFrame(audio: seq<bv8>)

  /** One item yielded by `pubsub.listen()`: its type and its data. */
  datatype PubSubMessage = PubSubMessage(kind: string, data: Value)

  /** One recognition result: whether it is final, and its best transcript. */
  datatype Recognition = Recognition(isFinal: bool, transcript: string)

  // ---------------------------------------------------------------------------
  // Transcripts to the coordinator

  function TranscribedEvent(transcript: string, sessionId: string): Value {
    Dumps(JObj(map["agent" := JStr("voice_handler"), "status" := JStr("transcribed"),
                   "text" := JStr(transcript), "session_id" := JStr(sessionId)]))
  }

  function VoicePayload(transcript: string, sessionId: string, channel: string): Json {
    JObj(map["query" := JStr(transcript), "session_id" := JStr(sessionId), "response_channel" := JStr(channel)])
  }

  function VoiceEnvelope(taskId: string, transcript: string, sessionId: string, channel: string): Value {
    MakeTask(taskId, VoiceInput, VoicePayload(transcript, sessionId, channel)).1
  }

  /** The final transcripts, in order. */
  function Finals(results: seq<Recognition>): (ts: seq<string>)
    ensures |ts| <= |results|
  {
    if results == [] then []
    else Finals(results[..|results| - 1]) + (if results[|results| - 1].isFinal then [results[|results| - 1].transcript] else [])
  }

  /** The store after the recognition results; the n-th final result is queued
      under task id `uuid(n)`. */
  function Transcribed(s: State, sessionId: string, channel: string, results: seq<Recognition>, uuid: nat -> string): State {
    if results == [] then s
    else
      var init := results[..|results| - 1];
      var r := results[|results| - 1];
      var s1 := Transcribed(s, sessionId, channel, init, uuid);
      if !r.isFinal then s1
      else
        AfterPush(AfterPublish(s1, ActivityChannel, TranscribedEvent(r.transcript, sessionId)),
                  VoiceQueue, VoiceEnvelope(uuid(|Finals(init)|), r.transcript, sessionId, channel))
  }

  // ---------------------------------------------------------------------------
  // Replies to the browser

  function MediaFrame(url: Json, mediaType: Json): Frame {
    TextFrame(Dumps(JObj(map["type" := JStr("media_url"), "url" := url, "media_type" := mediaType])))
  }

  function TextResponseFrame(text: Json): Frame {
    TextFrame(Dumps(JObj(map["type" := JStr("text_response"), "text" := text])))
  }

  /** The frames sent for one received item, and whether handling it raised
      (data that is not JSON, not an object, or a reply text that is not a string). */
  function Respond(m: PubSubMessage, tts: string -> seq<bv8>): (seq<Frame>, bool) {
    if m.kind != "message" then ([], false)
    else
      match Loads(m.data)
      case None => ([], true)
      case Some(d) =>
        if !d.JObj? then ([], true)
        else if GetField(d.fields, "type", JNull) != JStr("agent_response") then ([], false)
        else
          var text := GetField(d.fields, "text", JNull);
          var url := GetField(d.fields, "media_url", JNull);
          var mediaType := GetField(d.fields, "media_type", JNull);
          var media := if Truthy(url) && Truthy(mediaType) then [MediaFrame(url, mediaType)] else [];
          if !Truthy(text) then (media, false)
          else if !text.JStr? then (media, true)
          else (media + [BytesFrame(tts(text.s)), TextResponseFrame(text)], false)
  }

  /** The listening loop over the received items: all frames sent, and whether it
      ended by an exception (which stops it). */
  function Listened(msgs: seq<PubSubMessage>, tts: string -> seq<bv8>): (seq<Frame>, bool) {
    if msgs == [] then ([], false)
    else
      var done := Listened(msgs[..|msgs| - 1], tts);
      if done.1 then done
      else
        var last := Respond(msgs[|msgs| - 1], tts);
        (done.0 + last.0, last.1)
  }

  // ---------------------------------------------------------------------------
  // The handler as written subscribes through an attribute the client lacks

  /** The attributes of a `RedisClient` instance (src/redis_client.py). */
  const ClientAttributes: set<string> := {"client", "get_client", "push_task", "pop_task", "set_hash_field",
    "get_hash_field", "get_all_hash_fields", "set_with_ttl", "get", "publish_message", "subscribe_to_channel"}

  /** The constructor as written: `redis_client.pubsub()` is looked up on the
      client wrapper. The result is the reply channel it would listen to. */
  function InitAsWritten(sessionId: string): Result<string> {
    if "pubsub" in ClientAttributes then Ok(ReplyChannel(sessionId))
    else Crashed("AttributeError: 'RedisClient' object has no attribute 'pubsub'")
  }

  /** Every handler construction raises, whatever the session. */
  lemma InitAsWrittenAlwaysFails(sessionId: string)
    ensures InitAsWritten(sessionId).Crashed?
  {
  }

  class VoiceHandler {
    const redis: RedisClient
    const sessionId: string
    const pubsubChannel: string
    /** The reply-channel subscription; null when the store is unreachable. */
    const redisPubsub: PubSub?
    var outbox: seq<Frame>
    var socketOpen: bool
    var ttsTaskRunning: bool

    /** Subscribes through `subscribe_to_channel`, the client's own pub/sub entry
        point, instead of the missing `pubsub` attribute. `sessionId` is the uuid4
        minted for the session. */
    constructor (redis: RedisClient, sessionId: string)
      ensures this.redis == redis && this.sessionId == sessionId
      ensures pubsubChannel == ReplyChannel(sessionId)
      ensures (redisPubsub != null) == redis.connected
      ensures redisPubsub != null ==> fresh(redisPubsub) && redisPubsub.channels == {pubsubChannel}
      ensures outbox == [] && socketOpen && !ttsTaskRunning
    {
      var channel := ReplyChannel(sessionId);
      var p := redis.SubscribeToChannel(channel);
      this.redis := redis;
      this.sessionId := sessionId;
      pubsubChannel := channel;
      redisPubsub := p;
      outbox := [];
      socketOpen := true;
      ttsTaskRunning := false;
    }

    /** `handle_audio_stream`: starts the reply listener, then handles each
        recognition result; the n-th final one is queued under `uuid(n)`. */
    method HandleAudioStream(results: seq<Recognition>, uuid: nat -> string)
      modifies this, redis
      ensures ttsTaskRunning
      ensures outbox == old(outbox) && socketOpen == old(socketOpen)
      ensures redis.Snapshot() == Transcribed(old(redis.Snapshot()), sessionId, pubsubChannel, results, uuid)
    {
      ttsTaskRunning := true;
      ghost var s0 := redis.Snapshot();
      var finals := 0;
      for i := 0 to |results|
        invariant finals == |Finals(results[..i])|
        invariant outbox == old(outbox) && socketOpen == old(socketOpen) && ttsTaskRunning
        invariant redis.Snapshot() == Transcribed(s0, sessionId, pubsubChannel, results[..i], uuid)
      {
        assert results[..i + 1][..i] == results[..i];
        var result := results[i];
        if result.isFinal {
          var transcript := result.transcript;
          redis.PublishMessage(ActivityChannel, TranscribedEvent(transcript, sessionId));
          var taskPayload := VoiceEnvelope(uuid(finals), transcript, sessionId, pubsubChannel);
          redis.PushTask(VoiceQueue, taskPayload);
          finals := finals + 1;
        }
      }
      assert results[..|results|] == results;
    }

    /** `send_text_to_speech`: the synthesized audio goes out as one binary frame. */
    method SendTextToSpeech(text: string, tts: string -> seq<bv8>)
      modifies this
      ensures outbox == old(outbox) + [BytesFrame(tts(text))]
      ensures socketOpen == old(socketOpen) && ttsTaskRunning == old(ttsTaskRunning)
    {
      outbox := outbox + [BytesFrame(tts(text))];
    }

    /** One item of the listening loop: the frames it sends and whether it raised. */
    method HandleMessage(message: PubSubMessage, tts: string -> seq<bv8>) returns (crashed: bool)
      modifies this
      ensures outbox == old(outbox) + Respond(message, tts).0 && crashed == Respond(message, tts).1
      ensures socketOpen == old(socketOpen) && ttsTaskRunning == old(ttsTaskRunning)
    {
      crashed := false;
      ghost var before := outbox;
      if message.kind == "message" {
        match Loads(message.data) {
          case None =>
            crashed := true;
          case Some(data) =>
            if !data.JObj? {
              crashed := true;
            } else if GetField(data.fields, "type", JNull) == JStr("agent_response") {
              var responseText := GetField(data.fields, "text", JNull);
              var mediaUrl := GetField(data.fields, "media_url", JNull);
              var mediaType := GetField(data.fields, "media_type", JNull);
              ghost var media := if Truthy(mediaUrl) && Truthy(mediaType) then [MediaFrame(mediaUrl, mediaType)] else [];
              if Truthy(mediaUrl) && Truthy(mediaType) {
                outbox := outbox + [MediaFrame(mediaUrl, mediaType)];
              }
              assert outbox == before + media;
              if Truthy(responseText) {
                if !responseText.JStr? {
                  crashed := true;
                } else {
                  SendTextToSpeech(responseText.s, tts);
                  outbox := outbox + [TextResponseFrame(responseText)];
                  assert outbox == before + (media + [BytesFrame(tts(responseText.s)), TextResponseFrame(responseText)]);
                }
              }
              assert Respond(message, tts).0 == media + (if Truthy(responseText) && responseText.JStr? then [BytesFrame(tts(responseText.s)), TextResponseFrame(responseText)] else []);
            } else {
              assert Respond(message, tts).0 == [];
            }
        }
      } else {
        assert Respond(message, tts).0 == [];
      }
      assert outbox == before + Respond(message, tts).0;
      assert crashed == Respond(message, tts).1;
    }

    /** `_listen_for_redis_responses` over the items received on the reply channel;
        without a subscription the first `listen()` raises. */
    method ListenForRedisResponses(messages: seq<PubSubMessage>, tts: string -> seq<bv8>) returns (crashed: bool)
      modifies this
      ensures redisPubsub == null ==> crashed && outbox == old(outbox)
      ensures redisPubsub != null ==> (outbox, crashed) == (old(outbox) + Listened(messages, tts).0, Listened(messages, tts).1)
      ensures socketOpen == old(socketOpen) && ttsTaskRunning == old(ttsTaskRunning)
    {
      if redisPubsub == null {
        return true;
      }
      crashed := HandleMessages(messages, tts);
    }

    /** One turn of the listening loop, stated against the frames sent so far. */
    method HandleNext(messages: seq<PubSubMessage>, i: nat, tts: string -> seq<bv8>, ghost base: seq<Frame>) returns (crashed: bool)
      requires i < |messages| && !Listened(messages[..i], tts).1
      requires outbox == base + Listened(messages[..i], tts).0
      modifies this
      ensures outbox == base + Listened(messages[..i + 1], tts).0 && crashed == Listened(messages[..i + 1], tts).1
      ensures socketOpen == old(socketOpen) && ttsTaskRunning == old(ttsTaskRunning)
    {
      ghost var prev := Listened(messages[..i], tts).0;
      crashed := HandleMessage(messages[i], tts);
      ListenStep(messages, i, tts);
      Assoc(base, prev, Respond(messages[i], tts).0);
    }

    /** The `async for` over the reply channel: each message is handled in turn until
        one of them raises. */
    method HandleMessages(messages: seq<PubSubMessage>, tts: string -> seq<bv8>) returns (crashed: bool)
      modifies this
      ensures outbox == old(outbox) + Listened(messages, tts).0 && crashed == Listened(messages, tts).1
      ensures socketOpen == old(socketOpen) && ttsTaskRunning == old(ttsTaskRunning)
    {
      crashed := false;
      var i := 0;
      assert messages[..0] == [];
      assert Listened(messages[..0], tts) == ([], false);
      assert outbox == old(outbox) + [];
      while i < |messages| && !crashed
        invariant 0 <= i <= |messages|
        invariant outbox == old(outbox) + Listened(messages[..i], tts).0
        invariant crashed == Listened(messages[..i], tts).1
        invariant socketOpen == old(socketOpen) && ttsTaskRunning == old(ttsTaskRunning)
      {
        crashed := HandleNext(messages, i, tts, old(outbox));
        i := i + 1;
      }
      if crashed {
        ListenedStopsAtCrash(messages, i, tts);
      } else {
        assert messages[..i] == messages;
      }
    }

    /** `close`: cancels the reply listener, leaves the reply channel and closes the
        socket; without a subscription the unsubscribe raises first. */
    method Close() returns (crashed: bool)
      modifies this, redisPubsub
      ensures !ttsTaskRunning
      ensures crashed <==> redisPubsub == null
      ensures redisPubsub != null ==> redisPubsub.channels == old(redisPubsub.channels) - {pubsubChannel}
      ensures socketOpen == (old(socketOpen) && crashed)
      ensures outbox == old(outbox)
    {
      if ttsTaskRunning {
        ttsTaskRunning := false;
      }
      if redisPubsub == null {
        return true;
      }
      redisPubsub.Unsubscribe(pubsubChannel);
      socketOpen := false;
      return false;
    }
  }

  /** One more item after a run that did not raise. */
  lemma ListenStep(msgs: seq<PubSubMessage>, i: nat, tts: string -> seq<bv8>)
    requires i < |msgs| && !Listened(msgs[..i], tts).1
    ensures Listened(msgs[..i + 1], tts) == (Listened(msgs[..i], tts).0 + Respond(msgs[i], tts).0, Respond(msgs[i], tts).1)
  {
    assert msgs[..i + 1][..i] == msgs[..i];
  }

  lemma {:induction false} ListenedStopsAtCrash(msgs: seq<PubSubMessage>, i: nat, tts: string -> seq<bv8>)
    requires i <= |msgs| && Listened(msgs[..i], tts).1
    ensures Listened(msgs, tts) == Listened(msgs[..i], tts)
    decreases |msgs| - i
  {
    if i < |msgs| {
      assert msgs[..i + 1][..i] == msgs[..i];
      ListenedStopsAtCrash(msgs, i + 1, tts);
    } else {
      assert msgs[..i] == msgs;
    }
  }

  // ---------------------------------------------------------------------------
  // Properties

  /** Different sessions listen on different channels. */
  lemma ReplyChannelInjective(a: string, b: string)
    requires ReplyChannel(a) == ReplyChannel(b)
    ensures a == b
  {
    var n := |"session:"|;
    assert |a| == |b|;
    assert a == ReplyChannel(a)[n..n + |a|];
    assert b == ReplyChannel(b)[n..n + |b|];
  }

  /** The envelopes queued for the given final transcripts, in order. */
  function QueuedEnvelopes(ts: seq<string>, sessionId: string, channel: string, uuid: nat -> string): (es: seq<Value>)
    ensures |es| == |ts|
  {
    seq(|ts|, i requires 0 <= i < |ts| => VoiceEnvelope(uuid(i), ts[i], sessionId, channel))
  }

  /** The `transcribed` events announced for the given final transcripts, in order. */
  function Announced(ts: seq<string>, sessionId: string): (ms: seq<Message>)
    ensures |ms| == |ts|
  {
    seq(|ts|, i requires 0 <= i < |ts| => Message(ActivityChannel, TranscribedEvent(ts[i], sessionId)))
  }

  lemma QueuedSnoc(ts: seq<string>, t: string, sessionId: string, channel: string, uuid: nat -> string)
    ensures QueuedEnvelopes(ts + [t], sessionId, channel, uuid)
         == QueuedEnvelopes(ts, sessionId, channel, uuid) + [VoiceEnvelope(uuid(|ts|), t, sessionId, channel)]
    ensures Announced(ts + [t], sessionId) == Announced(ts, sessionId) + [Message(ActivityChannel, TranscribedEvent(t, sessionId))]
  {
    assert (ts + [t])[|ts|] == t;
    assert forall i :: 0 <= i < |ts| ==> (ts + [t])[i] == ts[i];
  }

  /** Each final transcript is announced once and queued once for the coordinator,
      in order, with the session's reply channel; other results change nothing. */
  lemma {:induction false} TranscriptsAreQueued(s: State, sessionId: string, channel: string,
                                                results: seq<Recognition>, uuid: nat -> string)
    requires s.connected
    ensures var s' := Transcribed(s, sessionId, channel, results, uuid);
      && s'.connected
      && Pending(s'.queues, VoiceQueue) == Pending(s.queues, VoiceQueue) + QueuedEnvelopes(Finals(results), sessionId, channel, uuid)
      && s'.log == s.log + Announced(Finals(results), sessionId)
      && (forall q :: q != VoiceQueue ==> Entries(s'.queues, q) == Entries(s.queues, q))
      && s'.hashes == s.hashes && s'.strings == s.strings
  {
    if results == [] {
      var noValues: seq<Value> := [];
      var noMessages: seq<Message> := [];
      assert Pending(s.queues, VoiceQueue) + noValues == Pending(s.queues, VoiceQueue);
      assert s.log + noMessages == s.log;
    } else {
      var init := results[..|results| - 1];
      var r := results[|results| - 1];
      TranscriptsAreQueued(s, sessionId, channel, init, uuid);
      var s1 := Transcribed(s, sessionId, channel, init, uuid);
      var ts0 := Finals(init);
      if r.isFinal {
        assert Finals(results) == ts0 + [r.transcript];
        var e := VoiceEnvelope(uuid(|ts0|), r.transcript, sessionId, channel);
        var m := Message(ActivityChannel, TranscribedEvent(r.transcript, sessionId));
        var s2 := AfterPublish(s1, ActivityChannel, TranscribedEvent(r.transcript, sessionId));
        PublishOnlyAppends(s1, ActivityChannel, TranscribedEvent(r.transcript, sessionId));
        PushTaskEnqueues(s2, VoiceQueue, e);
        QueuedSnoc(ts0, r.transcript, sessionId, channel, uuid);
        Assoc(Pending(s.queues, VoiceQueue), QueuedEnvelopes(ts0, sessionId, channel, uuid), [e]);
        Assoc(s.log, Announced(ts0, sessionId), [m]);
      } else {
        assert Finals(results) == ts0;
      }
    }
  }

  /** A reply with text and no media yields the audio first and then the text frame;
      with a media link and type the link frame comes before both. */
  lemma ReplyFrameOrder(text: string, url: string, mediaType: string, tts: string -> seq<bv8>)
    requires text != ""
    ensures Respond(PubSubMessage("message", Dumps(JObj(map["type" := JStr("agent_response"), "text" := JStr(text)]))), tts)
         == ([BytesFrame(tts(text)), TextResponseFrame(JStr(text))], false)
    ensures url != "" && mediaType != "" ==>
      Respond(PubSubMessage("message", Dumps(JObj(map["type" := JStr("agent_response"), "text" := JStr(text),
                                                      "media_url" := JStr(url), "media_type" := JStr(mediaType)]))), tts)
      == ([MediaFrame(JStr(url), JStr(mediaType)), BytesFrame(tts(text)), TextResponseFrame(JStr(text))], false)
  {
    var d := map["type" := JStr("agent_response"), "text" := JStr(text)];
    var m := PubSubMessage("message", Dumps(JObj(d)));
    assert Loads(m.data) == Some(JObj(d));
    assert GetField(d, "type", JNull) == JStr("agent_response");
    assert GetField(d, "text", JNull) == JStr(text);
    assert GetField(d, "media_url", JNull) == JNull;
    assert Respond(m, tts).0 == [BytesFrame(tts(text)), TextResponseFrame(JStr(text))];
    assert !Respond(m, tts).1;
    if url != "" && mediaType != "" {
      var d2 := map["type" := JStr("agent_response"), "text" := JStr(text), "media_url" := JStr(url), "media_type" := JStr(mediaType)];
      var m2 := PubSubMessage("message", Dumps(JObj(d2)));
      assert Loads(m2.data) == Some(JObj(d2));
      assert GetField(d2, "type", JNull) == JStr("agent_response");
      assert GetField(d2, "text", JNull) == JStr(text);
      assert GetField(d2, "media_url", JNull) == JStr(url);
      assert GetField(d2, "media_type", JNull) == JStr(mediaType);
      assert Respond(m2, tts).0 == [MediaFrame(JStr(url), JStr(mediaType))] + [BytesFrame(tts(text)), TextResponseFrame(JStr(text))];
      assert !Respond(m2, tts).1;
      assert [MediaFrame(JStr(url), JStr(mediaType))] + [BytesFrame(tts(text)), TextResponseFrame(JStr(text))]
          == [MediaFrame(JStr(url), JStr(mediaType)), BytesFrame(tts(text)), TextResponseFrame(JStr(text))];
    }
  }

  /** Items that are not messages (subscription confirmations) and messages of other
      types send nothing and do not stop the loop. */
  lemma {:induction false} OnlyAgentResponsesSend(msgs: seq<PubSubMessage>, tts: string -> seq<bv8>)
    requires forall i :: 0 <= i < |msgs| ==>
      msgs[i].kind != "message" ||
      (msgs[i].data.Doc? && msgs[i].data.doc.JObj? && GetField(msgs[i].data.doc.fields, "type", JNull) != JStr("agent_response"))
    ensures Listened(msgs, tts) == ([], false)
  {
    if msgs != [] {
      var init := msgs[..|msgs| - 1];
      assert forall i :: 0 <= i < |init| ==> init[i] == msgs[i];
      OnlyAgentResponsesSend(init, tts);
      assert Respond(msgs[|msgs| - 1], tts) == ([], false);
      ListenStep(msgs, |msgs| - 1, tts);
      assert msgs[..|msgs|] == msgs;
      var none: seq<Frame> := [];
      assert none + none == none;
    }
  }
}
