# FCM application-server client: the message-handling core in Dafny

This project models the message-handling core of an FCM (Firebase Cloud
Messaging) application server. The server talks to the Cloud Connection
Server (CCS) over XMPP. The model covers four pieces:

- **Envelope encoder** (`GcmEnvelope`, `envelope.dfy`). `GcmPacketExtension` wraps a JSON text
  verbatim in `<gcm xmlns="google:mobile:data">…</gcm>`. `toPacket().toXML`
  writes the XMPP `<message>` stanza around it with a string builder. The
  optional attributes `xmlns`, `xml:lang`, `id`, `to` and `from` (all but
  `xmlns` are common attributes of section 8.1 of RFC 6120) appear in that
  fixed order, and only `to` and `from` go through the XML escaper.
- **Classifier, router and ack emitter** (`Ccs.CcsClient`, `ccs_client.dfy`).
  `handleMessage` parses the JSON. Messages of type `control`, `ack` and `nack`
  are only logged. Everything else, an absent type included, is upstream data:
  `handleIncomingDataMessage` looks up the processor by `data["action"]` and
  invokes it, then one ack packet goes out through `send`. The class records
  every processor invocation and every packet sent, in order, in
  `effects`. Each method is specified by a function (`DataMessageReaction`,
  `MessageReaction`). The lemmas state the protocol properties about those
  functions, and about `Replay`, the effects of a whole run of incoming
  messages.
- **Processor registry** (`Processors`, `processor_factory.dfy`). `getProcessor` maps the
  two action strings to their processors and throws for every other action,
  null included.
- **Message records** (`FcmMessages`, `messages.dfy`). These are immutable
  datatypes with a shared `FcmMessage` base. An upstream response's base is a
  subset type whose message type can only be `"ack"`. A downstream request's
  base is a subset type whose message type can only be null.

Java `null` is `None` of `Wrappers.Option`. An exception that leaves a method
is `Threw(e)` of `Ccs.Outcome`.

The Moshi JSON adapters are functions given to the `CcsClient` constructor:
`fromJson` yields a `Decoded` value, and `toJson` of the ack is a function on
`UpstreamResponse`. `StringUtils.escapeForXML` is an `escape` function
parameter.

`fromJson` has four outcomes, following the code:

- a value;
- null, for the JSON text `null`;
- an `IOException`, for malformed JSON, which `handleMessage` catches and logs;
- a `JsonDataException`, for well-formed JSON of the wrong shape. This is a
  `RuntimeException`, so it leaves `handleMessage`.

Two behaviours of the code are worth stating, because they are easy to miss:

- An upstream message whose action is unknown or absent makes `getProcessor`
  throw before the ack is built. Nothing is sent, and the exception leaves
  `handleMessage`.
- Only an `IOException` is caught. A `null` parse result, a message without
  `data`, and a `JsonDataException` all end in an exception from
  `handleMessage`, with no effect.

The registry lookup `Processors.GetProcessor` is a Dafny function. It is
stateless and deterministic by construction: the same action always gives the
same outcome. The records are immutable for the same reason.

## Model

| member | source | states |
|---|---|---|
| `FcmMessages.NewFcmMessage` | src/main/java/org/codepond/fcmappserver/messages/FcmMessage.java:35-46 | getMessageType and getMessageId return the constructor's message_type and message_id, with no validation: either may be null |
| `FcmMessages.NewUpstreamRequest` | src/main/java/org/codepond/fcmappserver/messages/UpstreamMessage.java:30-60 | the base keeps message_type and message_id; getFrom, getCatergory and getData return the constructor's arguments |
| `FcmMessages.NewUpstreamResponse` | src/main/java/org/codepond/fcmappserver/messages/UpstreamMessage.java:73-86 | the response has type "ack" whatever its arguments; getTo and getMessageId return the arguments |
| `FcmMessages.UpstreamResponse.GetMessageType` | src/main/java/org/codepond/fcmappserver/messages/UpstreamMessage.java:74 | every upstream response, however built, has message type "ack" |
| `FcmMessages.NewDownstreamRequest` | src/main/java/org/codepond/fcmappserver/messages/DownstreamMessage.java:30-54 | the request's type is null; it keeps message_id, and getTo and getData return the arguments |
| `FcmMessages.DownstreamRequest.GetMessageType` | src/main/java/org/codepond/fcmappserver/messages/DownstreamMessage.java:31 | every downstream request, however built, has a null message type |
| `FcmMessages.NewDownstreamResponse` | src/main/java/org/codepond/fcmappserver/messages/DownstreamMessage.java:61-67 | message_type and message_id reach the base unchanged; from, registration_id, error and error_description are stored unchanged |
| `Processors.GetProcessor` | src/main/java/org/codepond/fcmappserver/ProcessorFactory.java:29-37 | the REGISTER action yields a RegisterProcessor and the MESSAGE action a MessageProcessor, each iff the action is that string; every other action, null included, fails with an IllegalStateException whose message is "Action ", the action ("null" for a null one) and " is unknown" |
| `Processors.ActionsAreDistinctPackageNames` | src/main/java/org/codepond/fcmappserver/ProcessorFactory.java:25-27 | both actions are the package name followed by their suffix, and they differ |
| `GcmEnvelope.GcmPacketExtension.ToXml` | src/main/java/org/codepond/fcmappserver/CcsClient.java:104-107 | the element is exactly `<gcm xmlns="google:mobile:data">`, the JSON unchanged and unescaped, then `</gcm>` |
| `GcmEnvelope.PayloadOfToXml` | src/main/java/org/codepond/fcmappserver/CcsClient.java:94-107 | getJson returns the constructor's JSON, and reading the element back gives exactly that JSON |
| `GcmEnvelope.PacketToXml` | src/main/java/org/codepond/fcmappserver/CcsClient.java:114-137 | the string builder writes `<message`, the attribute text, `>`, the extension element and `</message>` |
| `GcmEnvelope.AttributesTextRendersList` | src/main/java/org/codepond/fcmappserver/CcsClient.java:118-132 | the attribute text is the rendering, in order, of the list of present attributes |
| `GcmEnvelope.AttributeListContents` | src/main/java/org/codepond/fcmappserver/CcsClient.java:118-132 | an attribute appears iff its value is non-null; xmlns, xml:lang and id appear as given, to and from escaped |
| `GcmEnvelope.AttributeListOrdered` | src/main/java/org/codepond/fcmappserver/CcsClient.java:118-132 | the attributes appear in the order xmlns, xml:lang, id, to, from, each at most once |
| `GcmEnvelope.StanzaFraming` | src/main/java/org/codepond/fcmappserver/CcsClient.java:117-135 | the stanza starts with `<message` and ends with the extension element followed by `</message>` |
| `GcmEnvelope.StanzaDeterminesPayload` | src/main/java/org/codepond/fcmappserver/CcsClient.java:116-136 | for the same attributes, two stanzas are equal only if their JSON payloads are equal |
| `Ccs.CcsClient.constructor` | src/main/java/org/codepond/fcmappserver/CcsClient.java:158-169 | the client keeps the sender id, server key, debug flag and adapters, and has done nothing yet |
| `Ccs.CcsClient.Send` | src/main/java/org/codepond/fcmappserver/CcsClient.java:184-187 | exactly one packet is sent, the GCM extension holding the given JSON |
| `Ccs.CcsClient.HandleIncomingDataMessage` | src/main/java/org/codepond/fcmappserver/CcsClient.java:193-196 | the processor for data["action"] is invoked with the message; a null message or null data throws a NullPointerException, an unknown action the factory's exception, and nothing is invoked |
| `Ccs.CcsClient.HandleMessage` | src/main/java/org/codepond/fcmappserver/CcsClient.java:264-289 | the new effects and the outcome are those of MessageReaction, and the acknowledgement discipline is preserved |
| `Ccs.CcsClient.ProcessPacket` | src/main/java/org/codepond/fcmappserver/CcsClient.java:248-255 | the JSON of the packet's GCM extension is handled; a packet without one throws before anything is done |
| `Ccs.CcsClient.IgnoredTypesHaveNoEffect` | src/main/java/org/codepond/fcmappserver/CcsClient.java:267-275 | a control, ack or nack message sends nothing and invokes no processor |
| `Ccs.CcsClient.UpstreamDataIsProcessedThenAcked` | src/main/java/org/codepond/fcmappserver/CcsClient.java:276-283 | any other type, null included, with a known action: the processor is invoked first, then exactly one packet, the ack, is sent |
| `Ccs.CcsClient.UnknownActionSendsNothing` | src/main/java/org/codepond/fcmappserver/CcsClient.java:278-282 | an unknown or absent action throws an IllegalStateException before the ack is built, and nothing is sent |
| `Ccs.CcsClient.MalformedJsonIsDropped` | src/main/java/org/codepond/fcmappserver/CcsClient.java:265-287 | an IOException from either parse is caught: no processor runs, no packet is sent, and the method returns |
| `Ccs.CcsClient.ReactionSendsAtMostOnce` | src/main/java/org/codepond/fcmappserver/CcsClient.java:276-283 | one message sends at most one packet, and sends one iff a processor was invoked; a message with effects returns normally |
| `Ccs.CcsClient.ReactionAcknowledged` | src/main/java/org/codepond/fcmappserver/CcsClient.java:264-289 | one message causes either nothing, or one invocation followed by the ack of the message it processed |
| `Ccs.CcsClient.AcknowledgedAppend` | src/main/java/org/codepond/fcmappserver/CcsClient.java:279-282 | appending the effects of one message to a trace that keeps the acknowledgement discipline keeps it |
| `Ccs.CcsClient.HandleMessages` | src/main/java/org/codepond/fcmappserver/CcsClient.java:248-255 | handleMessage calls on the JSON of a run of incoming messages, in arrival order, add exactly the Replay of the run to the effects and keep the acknowledgement discipline |
| `Ccs.CcsClient.ReplayAcknowledged` | src/main/java/org/codepond/fcmappserver/CcsClient.java:248-255 | over any run of incoming messages, every ack follows the invocation for the message it acknowledges, and no more acks are sent than messages arrived |
| `Ccs.CcsClient.AckAnswersMessage` | src/main/java/org/codepond/fcmappserver/CcsClient.java:281 | if the response encoder is injective, the ack's JSON encodes only an "ack" addressed to the message's sender, for the message's id |
| `Ccs.ClientRegistry.constructor` | src/main/java/org/codepond/fcmappserver/CcsClient.java:76 | no client is prepared at the start |
| `Ccs.ClientRegistry.GetInstance` | src/main/java/org/codepond/fcmappserver/CcsClient.java:142-147 | the prepared client is returned; before prepareClient has run, an IllegalStateException is thrown |
| `Ccs.ClientRegistry.PrepareClient` | src/main/java/org/codepond/fcmappserver/CcsClient.java:149-156 | the first call creates a fresh client with the given settings; every later call returns that same instance |

## Left out

- `connect()` is not modelled. It covers the connection configuration, TLS, the reconnection policy, the connection listener, the packet interceptor and login. These are network I/O over the XMPP library. Only the body of the packet listener is modelled, as `ProcessPacket`.
- `main` is not modelled. It loads the properties file and starts the process.
- The extension-provider registration in the private no-argument constructor is not modelled. It relies on the library's XML pull parser. No decode-after-encode round trip through that parser is claimed. `PayloadOfToXml` reads back only the visible element format.
- The Moshi adapters are not modelled. They are the function parameters described above, so which JSON keys fill which field (the misspelled `catergory` among them) is not modelled either. The two downstream adapters are created but never used by the core, so they are not fields of the model.
- `StringUtils.escapeForXML` is the uninterpreted `escape` parameter.
- The values of the stanza's attributes are not modelled. `getXmlns`, `getLanguage`, `getPacketID`, `getTo` and `getFrom` come from the library's `Packet`, so `StanzaAttributes` takes them as given.
- `Ccs.CcsClient.HandleMessage`: each processor's `handleMessage` is assumed to return normally and to send nothing through the client; a processor that called `send` would put a second packet between its invocation and the ack. `ReactionSendsAtMostOnce` and the acknowledgement discipline rest on this assumption. The processor classes are not part of this model; an invocation is only recorded with its message.
- Map values in the message data are never null in the model. `Map.get("action")` gives null for a null value just as for a missing key, so the routing is the same.
- The `synchronized` block in `prepareClient` is not modelled; initialisation is sequential. Logging and the debugger flags are not modelled either.
- `Ccs.CcsClient.Replay`: it assumes that every incoming message is handled, in order, even after an earlier one threw. How the library treats an exception thrown by a packet listener is not part of this model.
- `Ccs.CcsClient.Send`: the connection is assumed established (`connect()` has run) and `sendPacket` is assumed to return. Before `connect()` the `connection` field is null, so `send` throws a NullPointerException (CcsClient.java:186); a failing `sendPacket` after the processor ran would make `handleMessage` throw after the invocation was recorded. `ReactionSendsAtMostOnce`'s "a message with effects returns normally" and the acknowledgement discipline rest on this assumption.
- `GcmEnvelope.GcmPacketExtension`: the JSON payload is never null in the model. In Java, `send(null)` would build an extension whose `toXML` writes the literal `null` between the tags (CcsClient.java:105); the core never sends a null JSON text.
