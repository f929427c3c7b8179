/** CcsClient: the message-handling core of the FCM application-server client.

    The XMPP connection is reduced to what the core does with it: every
    packet handed to `connection.sendPacket` and every processor invoked is
    recorded, in order, in the client's `effects`. The Moshi JSON adapters are
    functions given to the constructor. */
module Ccs {
  import opened Wrappers
  import opened FcmMessages
  import opened Processors
  import opened GcmEnvelope

  /** What a Moshi adapter's fromJson does with a text: it yields a value,
      yields null (the text is the JSON literal null), throws an IOException
      (malformed JSON), or throws a JsonDataException (well-formed JSON of the
      wrong shape, a RuntimeException). */
  datatype Decoded<T> = Parsed(value: T) | ParsedNull | IoFailure | DataFailure

  /** An observable step of the client, in the order it happens. */
  datatype Effect =
    | Invoked(processor: PayloadProcessor, msg: UpstreamRequest)  // processor.handleMessage(msg)
    | Sent(packet: GcmPacketExtension)                            // connection.sendPacket(packet)

  /** How a Java method ends: it returns, or an exception leaves it. */
  datatype Outcome = Returned | Threw(exception: JavaException)

  /** The effects of one call and how it ended. */
  datatype Reaction = Reaction(effects: seq<Effect>, outcome: Outcome)

  /** The message types that handleMessage only logs. */
  const IgnoredTypes: set<Option<string>> := {Some("control"), Some("ack"), Some("nack")}

  /** The number of packets sent in a sequence of effects. */
  function SentCount(effects: seq<Effect>): (n: nat)
  {
    if effects == [] then 0
    else (if effects[0].Sent? then 1 else 0) + SentCount(effects[1..])
  }

  lemma {:induction false} SentCountAppend(a: seq<Effect>, b: seq<Effect>)
    ensures SentCount(a + b) == SentCount(a) + SentCount(b)
  {
    if a == [] {
      assert a + b == b;
    } else {
      assert (a + b)[1..] == a[1..] + b;
      SentCountAppend(a[1..], b);
    }
  }

  class CcsClient {
    const senderId: string
    const serverKey: string
    const debuggable: bool
    /** mFcmMessageAdapter.fromJson */
    const fcmMessageAdapter: string -> Decoded<FcmMessage>
    /** mUpstreamRequestAdapter.fromJson */
    const upstreamRequestAdapter: string -> Decoded<UpstreamRequest>
    /** mUpstreamResponseAdapter.toJson */
    const upstreamResponseAdapter: UpstreamResponse -> string

    /** Everything the client has done, oldest first. */
    var effects: seq<Effect>

    /** The private constructor CcsClient(senderId, serverKey, debuggable). */
    constructor (senderId: string, serverKey: string, debuggable: bool,
                 fcmMessageAdapter: string -> Decoded<FcmMessage>,
                 upstreamRequestAdapter: string -> Decoded<UpstreamRequest>,
                 upstreamResponseAdapter: UpstreamResponse -> string)
      ensures this.senderId == senderId && this.serverKey == serverKey && this.debuggable == debuggable
      ensures this.fcmMessageAdapter == fcmMessageAdapter
      ensures this.upstreamRequestAdapter == upstreamRequestAdapter
      ensures this.upstreamResponseAdapter == upstreamResponseAdapter
      ensures effects == []
    {
      this.senderId := senderId;
      this.serverKey := serverKey;
      this.debuggable := debuggable;
      this.fcmMessageAdapter := fcmMessageAdapter;
      this.upstreamRequestAdapter := upstreamRequestAdapter;
      this.upstreamResponseAdapter := upstreamResponseAdapter;
      effects := [];
    }

    /** The packet that acknowledges `msg`: the JSON of an upstream response
        addressed to the message's sender, for the message's id. */
    function AckPacket(msg: UpstreamRequest): (ack: GcmPacketExtension)
    {
      GcmPacketExtension(upstreamResponseAdapter(NewUpstreamResponse(msg.GetFrom(), msg.GetMessageId())))
    }

    /** What handleIncomingDataMessage does with a (possibly null) message. */
    function DataMessageReaction(msg: Option<UpstreamRequest>): (r: Reaction)
    {
      if msg.None? || msg.value.GetData().None? then
        Reaction([], Threw(NullPointerException))
      else
        match GetProcessor(MapGet(msg.value.GetData().value, "action"))
        case Failure(e) => Reaction([], Threw(e))
        case Success(p) => Reaction([Invoked(p, msg.value)], Returned)
    }

    /** What handleMessage does with the JSON text of an incoming message. */
    function MessageReaction(messageJson: string): (r: Reaction)
    {
      match fcmMessageAdapter(messageJson)
      case IoFailure => Reaction([], Returned)
      case DataFailure => Reaction([], Threw(JsonDataException))
      case ParsedNull => Reaction([], Threw(NullPointerException))
      case Parsed(fcmMessage) =>
        if fcmMessage.GetMessageType() in IgnoredTypes then
          Reaction([], Returned)
        else
          match upstreamRequestAdapter(messageJson)
          case IoFailure => Reaction([], Returned)
          case DataFailure => Reaction([], Threw(JsonDataException))
          case ParsedNull => DataMessageReaction(None)
          case Parsed(upstream) =>
            var handled := DataMessageReaction(Some(upstream));
            if handled.outcome.Threw? then handled
            else Reaction(handled.effects + [Sent(AckPacket(upstream))], Returned)
    }

    /** The acknowledgement discipline at position i of a trace: an
        invocation is followed at once by the ack of the message it
        processed, and a packet sent is the ack of the invocation just
        before it. */
    ghost predicate AcknowledgedAt(trace: seq<Effect>, i: nat)
      requires i < |trace|
    {
      && (trace[i].Invoked? ==>
            i + 1 < |trace| && trace[i + 1] == Sent(AckPacket(trace[i].msg)))
      && (trace[i].Sent? ==>
            0 < i && trace[i - 1].Invoked? && trace[i] == Sent(AckPacket(trace[i - 1].msg)))
    }

    /** The acknowledgement discipline over a whole trace. */
    ghost predicate Acknowledged(trace: seq<Effect>)
    {
      forall i: nat :: i < |trace| ==> AcknowledgedAt(trace, i)
    }

    /** send: wraps the JSON in the GCM extension and sends it as one packet. */
    method Send(jsonRequest: string)
      modifies this
      ensures effects == old(effects) + [Sent(GcmPacketExtension(jsonRequest))]
    {
      var request := GcmPacketExtension(jsonRequest);
      effects := effects + [Sent(request)];
    }

    /** handleIncomingDataMessage: looks the processor up by the message's
        "action" and invokes it. */
    method HandleIncomingDataMessage(msg: Option<UpstreamRequest>) returns (outcome: Outcome)
      modifies this
      ensures effects == old(effects) + DataMessageReaction(msg).effects
      ensures outcome == DataMessageReaction(msg).outcome
    {
      if msg.None? {
        return Threw(NullPointerException);
      }
      var data := msg.value.GetData();
      if data.None? {
        return Threw(NullPointerException);
      }
      var processor := GetProcessor(MapGet(data.value, "action"));
      if processor.Failure? {
        return Threw(processor.error);
      }
      effects := effects + [Invoked(processor.value, msg.value)];
      outcome := Returned;
    }

    /** handleMessage: classifies the message by its type; control, ack and
        nack messages are only logged, anything else is upstream data, which
        is processed and then acknowledged. An IOException from the parser is
        caught and logged; every other exception leaves the method. */
    method HandleMessage(messageJson: string) returns (outcome: Outcome)
      modifies this
      ensures effects == old(effects) + MessageReaction(messageJson).effects
      ensures outcome == MessageReaction(messageJson).outcome
      ensures Acknowledged(old(effects)) ==> Acknowledged(effects)
    {
      ReactionAcknowledged(messageJson);
      if Acknowledged(effects) {
        AcknowledgedAppend(effects, MessageReaction(messageJson).effects);
      }
      var fcmMessage := fcmMessageAdapter(messageJson);
      if fcmMessage.IoFailure? {
        return Returned;
      } else if fcmMessage.DataFailure? {
        return Threw(JsonDataException);
      } else if fcmMessage.ParsedNull? {
        return Threw(NullPointerException);
      }
      var messageType := fcmMessage.value.GetMessageType();
      if messageType == Some("control") {
        outcome := Returned;
      } else if messageType == Some("ack") {
        outcome := Returned;
      } else if messageType == Some("nack") {
        outcome := Returned;
      } else {
        var upStreamMessage := upstreamRequestAdapter(messageJson);
        if upStreamMessage.IoFailure? {
          return Returned;
        } else if upStreamMessage.DataFailure? {
          return Threw(JsonDataException);
        }
        var msg := if upStreamMessage.Parsed? then Some(upStreamMessage.value) else None;
        outcome := HandleIncomingDataMessage(msg);
        if outcome.Threw? {
          return;
        }
        var json := upstreamResponseAdapter(NewUpstreamResponse(msg.value.GetFrom(), msg.value.GetMessageId()));
        Send(json);
      }
    }

    /** The packet listener: takes the GCM extension of an incoming message
        stanza and handles its JSON; a stanza without one ends in a
        NullPointerException before anything is done. */
    method ProcessPacket(extension: Option<GcmPacketExtension>) returns (outcome: Outcome)
      modifies this
      ensures extension.None? ==> effects == old(effects) && outcome == Threw(NullPointerException)
      ensures extension.Some? ==>
        && effects == old(effects) + MessageReaction(extension.value.GetJson()).effects
        && outcome == MessageReaction(extension.value.GetJson()).outcome
    {
      if extension.None? {
        return Threw(NullPointerException);
      }
      var json := extension.value.GetJson();
      outcome := HandleMessage(json);
    }

    /** The effects of handling a sequence of incoming messages in arrival
        order; a message whose handling throws leaves no effect, and the
        next one is handled all the same. */
    function Replay(frames: seq<string>): (trace: seq<Effect>)
    {
      if frames == [] then [] else Replay(frames[..|frames| - 1]) + MessageReaction(frames[|frames| - 1]).effects
    }

    /** handleMessage called on the JSON of each incoming message of a run,
        one after the other: the client's effects grow by the Replay of the
        run, and the acknowledgement discipline is kept throughout. */
    method HandleMessages(frames: seq<string>)
      modifies this
      ensures effects == old(effects) + Replay(frames)
      ensures Acknowledged(old(effects)) ==> Acknowledged(effects)
    {
      var i := 0;
      while i < |frames|
        invariant 0 <= i <= |frames|
        invariant effects == old(effects) + Replay(frames[..i])
        invariant Acknowledged(old(effects)) ==> Acknowledged(effects)
      {
        var _ := HandleMessage(frames[i]);
        assert frames[..i + 1][..i] == frames[..i];
        i := i + 1;
      }
      assert frames[..|frames|] == frames;
    }

    /** Control, ack and nack messages cause nothing: no processor runs and
        no packet is sent. */
    lemma IgnoredTypesHaveNoEffect(messageJson: string)
      requires fcmMessageAdapter(messageJson).Parsed?
      requires fcmMessageAdapter(messageJson).value.GetMessageType() in IgnoredTypes
      ensures MessageReaction(messageJson) == Reaction([], Returned)
    {
    }

    /** Upstream data (any other type, null included) whose action resolves:
        the processor runs first, then exactly one packet is sent, the ack. */
    lemma UpstreamDataIsProcessedThenAcked(messageJson: string, msg: UpstreamRequest, data: Data)
      requires fcmMessageAdapter(messageJson).Parsed?
      requires fcmMessageAdapter(messageJson).value.GetMessageType() !in IgnoredTypes
      requires upstreamRequestAdapter(messageJson) == Parsed(msg)
      requires msg.GetData() == Some(data)
      requires GetProcessor(MapGet(data, "action")).Success?
      ensures MessageReaction(messageJson).outcome == Returned
      ensures MessageReaction(messageJson).effects ==
        [Invoked(GetProcessor(MapGet(data, "action")).value, msg), Sent(AckPacket(msg))]
    {
    }

    /** An unknown action (or none) throws from getProcessor before the ack
        is built: nothing is invoked and nothing is sent. */
    lemma UnknownActionSendsNothing(messageJson: string, msg: UpstreamRequest, data: Data)
      requires fcmMessageAdapter(messageJson).Parsed?
      requires fcmMessageAdapter(messageJson).value.GetMessageType() !in IgnoredTypes
      requires upstreamRequestAdapter(messageJson) == Parsed(msg)
      requires msg.GetData() == Some(data)
      requires "action" !in data || (data["action"] != ActionRegister && data["action"] != ActionMessage)
      ensures MessageReaction(messageJson).effects == []
      ensures MessageReaction(messageJson).outcome.Threw?
      ensures MessageReaction(messageJson).outcome.exception.IllegalStateException?
    {
    }

    /** Malformed JSON is caught and logged: no effect, and the method
        returns normally. */
    lemma MalformedJsonIsDropped(messageJson: string)
      requires fcmMessageAdapter(messageJson).IoFailure?
        || (&& fcmMessageAdapter(messageJson).Parsed?
            && fcmMessageAdapter(messageJson).value.GetMessageType() !in IgnoredTypes
            && upstreamRequestAdapter(messageJson).IoFailure?)
      ensures MessageReaction(messageJson) == Reaction([], Returned)
    {
    }

    /** A packet is sent for a message exactly when a processor was invoked
        for it, and at most one packet is sent per message. */
    lemma ReactionSendsAtMostOnce(messageJson: string)
      ensures var r := MessageReaction(messageJson).effects;
        && SentCount(r) <= 1
        && (SentCount(r) == 1 <==> (exists p, m :: Invoked(p, m) in r))
        && (r != [] ==> MessageReaction(messageJson).outcome == Returned)
    {
      var r := MessageReaction(messageJson).effects;
      if r != [] {
        assert r == [r[0], r[1]];
        assert SentCount(r) == SentCount([r[1]]);
      }
    }

    /** The effects of one message keep the acknowledgement discipline. */
    lemma ReactionAcknowledged(messageJson: string)
      ensures Acknowledged(MessageReaction(messageJson).effects)
      ensures var r := MessageReaction(messageJson).effects;
        r == [] || (|r| == 2 && r[0].Invoked? && r[1] == Sent(AckPacket(r[0].msg)))
    {
    }

    /** Appending the effects of a message to a disciplined trace keeps the
        discipline. */
    lemma AcknowledgedAppend(a: seq<Effect>, b: seq<Effect>)
      requires Acknowledged(a)
      requires b == [] || (|b| == 2 && b[0].Invoked? && b[1] == Sent(AckPacket(b[0].msg)))
      ensures Acknowledged(a + b)
    {
      var t := a + b;
      forall i: nat | i < |t|
        ensures AcknowledgedAt(t, i)
      {
        if i < |a| {
          assert AcknowledgedAt(a, i);
          assert t[i] == a[i];
          if a[i].Invoked? {
            assert t[i + 1] == a[i + 1];
          }
          if a[i].Sent? {
            assert t[i - 1] == a[i - 1];
          }
        } else {
          assert t[i] == b[i - |a|];
        }
      }
    }

    /** Over any run, however its messages are classified and whatever they
        throw, the acks sent are the acks of the invoked processors, each
        right after its invocation, and no more acks than messages. */
    lemma {:induction false} ReplayAcknowledged(frames: seq<string>)
      ensures Acknowledged(Replay(frames))
      ensures SentCount(Replay(frames)) <= |frames|
    {
      if frames != [] {
        var init, last := frames[..|frames| - 1], frames[|frames| - 1];
        ReplayAcknowledged(init);
        ReactionAcknowledged(last);
        ReactionSendsAtMostOnce(last);
        AcknowledgedAppend(Replay(init), MessageReaction(last).effects);
        SentCountAppend(Replay(init), MessageReaction(last).effects);
      }
    }

    /** The ack names the message's sender and id: when the response encoder
        is injective, the only upstream response the ack's JSON can encode is
        an "ack" to `msg.from` for `msg.message_id`. */
    lemma AckAnswersMessage(msg: UpstreamRequest, response: UpstreamResponse)
      requires forall r1, r2 :: upstreamResponseAdapter(r1) == upstreamResponseAdapter(r2) ==> r1 == r2
      requires AckPacket(msg).GetJson() == upstreamResponseAdapter(response)
      ensures response.GetMessageType() == Some(AckType)
      ensures response.GetTo() == msg.GetFrom() && response.GetMessageId() == msg.GetMessageId()
    {
      var ack := NewUpstreamResponse(msg.GetFrom(), msg.GetMessageId());
      assert upstreamResponseAdapter(ack) == upstreamResponseAdapter(response);
    }
  }

  /** The static field sInstance and the two static methods around it. */
  class ClientRegistry {
    var sInstance: Option<CcsClient>

    /** Class initialisation: sInstance starts as null. */
    constructor ()
      ensures sInstance == None
    {
      sInstance := None;
    }

    /** getInstance: the prepared client, or an IllegalStateException when
        prepareClient has not run yet. */
    method GetInstance() returns (r: Result<CcsClient, JavaException>)
      ensures sInstance.Some? ==> r == Success(sInstance.value)
      ensures sInstance.None? ==> r == Failure(IllegalStateException("You have to prepare the client first"))
    {
      if sInstance == None {
        return Failure(IllegalStateException("You have to prepare the client first"));
      }
      return Success(sInstance.value);
    }

    /** prepareClient: creates the client on the first call only; every call
        returns the one instance. */
    method PrepareClient(senderId: string, serverKey: string, debuggable: bool,
                         fcmMessageAdapter: string -> Decoded<FcmMessage>,
                         upstreamRequestAdapter: string -> Decoded<UpstreamRequest>,
                         upstreamResponseAdapter: UpstreamResponse -> string)
      returns (client: CcsClient)
      modifies this
      ensures sInstance == Some(client)
      ensures old(sInstance).Some? ==> client == old(sInstance).value
      ensures old(sInstance).None? ==>
        && fresh(client) && client.effects == []
        && client.senderId == senderId && client.serverKey == serverKey && client.debuggable == debuggable
        && client.fcmMessageAdapter == fcmMessageAdapter
        && client.upstreamRequestAdapter == upstreamRequestAdapter
        && client.upstreamResponseAdapter == upstreamResponseAdapter
    {
      if sInstance == None {
        var created := new CcsClient(senderId, serverKey, debuggable,
                                     fcmMessageAdapter, upstreamRequestAdapter, upstreamResponseAdapter);
        sInstance := Some(created);
      }
      client := sInstance.value;
    }
  }
}
