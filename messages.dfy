/** The message records of the FCM wire protocol (package messages).

    Every Java class here is immutable: its fields are private, set once in
    the constructor and only read by getters. They are Dafny datatypes, which
    are immutable values. The base class FcmMessage is the `base` field of
    each derived record, and each getter inherited from it delegates to it. */
module FcmMessages {
  import opened Wrappers

  /** The only message type an upstream response may carry. */
  const AckType: string := "ack"

  /** The key/value payload of a message (a Java Map<String, String>). */
  type Data = map<string, string>

  /** FcmMessage: the base record, with the two fields every message shares.
      The constructor does no validation: either field may be null. */
  datatype FcmMessage = FcmMessage(messageType: Option<string>, messageId: Option<string>)
  {
    function GetMessageType(): (t: Option<string>) { messageType }
    function GetMessageId(): (id: Option<string>) { messageId }
  }

  /** new FcmMessage(message_type, message_id) */
  function NewFcmMessage(messageType: Option<string>, messageId: Option<string>): (m: FcmMessage)
    ensures m.GetMessageType() == messageType
    ensures m.GetMessageId() == messageId
  {
    FcmMessage(messageType, messageId)
  }

  /** UpstreamMessage.Request: a message sent by a device through FCM.
      The field name `catergory` keeps the source's spelling. */
  datatype UpstreamRequest = UpstreamRequest(
    base: FcmMessage, from: Option<string>, catergory: Option<string>, data: Option<Data>)
  {
    function GetMessageType(): (t: Option<string>) { base.GetMessageType() }
    function GetMessageId(): (id: Option<string>) { base.GetMessageId() }
    function GetFrom(): (f: Option<string>) { from }
    function GetCatergory(): (c: Option<string>) { catergory }
    function GetData(): (d: Option<Data>) { data }
  }

  /** new UpstreamMessage.Request(message_type, from, catergory, message_id, data) */
  function NewUpstreamRequest(
    messageType: Option<string>, from: Option<string>, catergory: Option<string>,
    messageId: Option<string>, data: Option<Data>): (m: UpstreamRequest)
    ensures m.GetMessageType() == messageType && m.GetMessageId() == messageId
    ensures m.GetFrom() == from && m.GetCatergory() == catergory && m.GetData() == data
  {
    UpstreamRequest(NewFcmMessage(messageType, messageId), from, catergory, data)
  }

  /** The base of an upstream response: its type is always "ack". */
  type AckBase = b: FcmMessage | b.messageType == Some(AckType)
    witness FcmMessage(Some(AckType), None)

  /** UpstreamMessage.Response: the app server's reply to an upstream message.
      Its base can only hold the type "ack", as the Java constructor fixes it. */
  datatype UpstreamResponse = UpstreamResponse(base: AckBase, to: Option<string>)
  {
    function GetMessageType(): (t: Option<string>)
      ensures t == Some(AckType)
    {
      base.GetMessageType()
    }
    function GetMessageId(): (id: Option<string>) { base.GetMessageId() }
    function GetTo(): (t: Option<string>) { to }
  }

  /** new UpstreamMessage.Response(to, message_id) */
  function NewUpstreamResponse(to: Option<string>, messageId: Option<string>): (r: UpstreamResponse)
    ensures r.GetMessageType() == Some(AckType)
    ensures r.GetTo() == to && r.GetMessageId() == messageId
  {
    UpstreamResponse(NewFcmMessage(Some(AckType), messageId), to)
  }

  /** The base of a downstream request: its type is always null. */
  type UntypedBase = b: FcmMessage | b.messageType == None
    witness FcmMessage(None, None)

  /** DownstreamMessage.Request: a message the app server sends to a device. */
  datatype DownstreamRequest = DownstreamRequest(base: UntypedBase, to: Option<string>, data: Option<Data>)
  {
    function GetMessageType(): (t: Option<string>)
      ensures t == None
    {
      base.GetMessageType()
    }
    function GetMessageId(): (id: Option<string>) { base.GetMessageId() }
    function GetTo(): (t: Option<string>) { to }
    function GetData(): (d: Option<Data>) { data }
  }

  /** new DownstreamMessage.Request(to, message_id, data) */
  function NewDownstreamRequest(to: Option<string>, messageId: Option<string>, data: Option<Data>): (r: DownstreamRequest)
    ensures r.GetMessageType() == None && r.GetMessageId() == messageId
    ensures r.GetTo() == to && r.GetData() == data
  {
    DownstreamRequest(NewFcmMessage(None, messageId), to, data)
  }

  /** DownstreamMessage.Response: FCM's receipt for a downstream request.
      The Java class declares no getters of its own; its fields are read here
      through the datatype's destructors. */
  datatype DownstreamResponse = DownstreamResponse(
    base: FcmMessage, from: Option<string>, registrationId: Option<string>,
    error: Option<string>, errorDescription: Option<string>)
  {
    function GetMessageType(): (t: Option<string>) { base.GetMessageType() }
    function GetMessageId(): (id: Option<string>) { base.GetMessageId() }
  }

  /** new DownstreamMessage.Response(from, message_id, message_type, registration_id, error, error_description) */
  function NewDownstreamResponse(
    from: Option<string>, messageId: Option<string>, messageType: Option<string>,
    registrationId: Option<string>, error: Option<string>, errorDescription: Option<string>): (r: DownstreamResponse)
    ensures r.GetMessageType() == messageType && r.GetMessageId() == messageId
    ensures r.from == from && r.registrationId == registrationId
    ensures r.error == error && r.errorDescription == errorDescription
  {
    DownstreamResponse(NewFcmMessage(messageType, messageId), from, registrationId, error, errorDescription)
  }
}
