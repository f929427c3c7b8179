/** The wire envelope of CcsClient: the GCM extension element that carries
    raw JSON text, and the XMPP <message> stanza that wraps it (the common
    stanza attributes are those of section 8.1 of RFC 6120). */
module GcmEnvelope {
  import opened Wrappers

  const ElementName: string := "gcm"
  const Namespace: string := "google:mobile:data"

  /** The opening and closing tags of the extension element, written out. */
  const OpenTag: string := "<gcm xmlns=\"google:mobile:data\">"
  const CloseTag: string := "</gcm>"

  /** CcsClient.GcmPacketExtension: the JSON text given to the constructor. */
  datatype GcmPacketExtension = GcmPacketExtension(json: string)
  {
    function GetJson(): (j: string) { json }

    /** toXML: the element name and namespace around the JSON, inserted
        verbatim (no escaping, no re-serialisation). */
    function ToXml(): (xml: string)
      ensures xml == OpenTag + GetJson() + CloseTag
    {
      "<" + ElementName + " xmlns=\"" + Namespace + "\">" + json + "</" + ElementName + ">"
    }
  }

  /** The JSON text inside an extension element, if `xml` is one. */
  function PayloadOf(xml: string): (r: Option<string>)
    ensures r.Some? ==> xml == OpenTag + r.value + CloseTag
  {
    if |xml| >= |OpenTag| + |CloseTag| && xml[..|OpenTag|] == OpenTag
       && xml[|xml| - |CloseTag|..] == CloseTag
    then Some(xml[|OpenTag|..|xml| - |CloseTag|])
    else None
  }

  /** The element gives back exactly the JSON it was built from. */
  lemma PayloadOfToXml(json: string)
    ensures GcmPacketExtension(json).GetJson() == json
    ensures PayloadOf(GcmPacketExtension(json).ToXml()) == Some(json)
  {
  }

  /** The optional attributes of the stanza built by toPacket(); None is null.
      Their values come from the XMPP library's Packet, not from this code. */
  datatype StanzaAttributes = StanzaAttributes(
    xmlns: Option<string>, language: Option<string>, packetId: Option<string>,
    to: Option<string>, from: Option<string>)

  /** An attribute as written: its name and its (possibly escaped) value. */
  type Attribute = (string, string)

  /** The attribute names in the order toPacket().toXML writes them. */
  const AttributeOrder: seq<string> := ["xmlns", "xml:lang", "id", "to", "from"]

  /** Position of an attribute name in AttributeOrder (5 for any other name). */
  function Rank(name: string): (k: nat)
    ensures k < |AttributeOrder| ==> AttributeOrder[k] == name
    ensures name in AttributeOrder ==> k < |AttributeOrder|
  {
    if name == "xmlns" then 0
    else if name == "xml:lang" then 1
    else if name == "id" then 2
    else if name == "to" then 3
    else if name == "from" then 4
    else 5
  }

  function Optional(name: string, value: Option<string>): (l: seq<Attribute>)
  {
    if value.Some? then [(name, value.value)] else []
  }

  function Escaped(value: Option<string>, escape: string -> string): (r: Option<string>)
  {
    if value.Some? then Some(escape(value.value)) else None
  }

  /** The attributes the stanza carries, in order; `escape` stands for the
      XMPP library's StringUtils.escapeForXML. */
  function AttributeList(attrs: StanzaAttributes, escape: string -> string): (l: seq<Attribute>)
  {
    Optional("xmlns", attrs.xmlns) + Optional("xml:lang", attrs.language)
    + Optional("id", attrs.packetId) + Optional("to", Escaped(attrs.to, escape))
    + Optional("from", Escaped(attrs.from, escape))
  }

  function Render(a: Attribute): (text: string)
  {
    " " + a.0 + "=\"" + a.1 + "\""
  }

  function RenderAll(attributes: seq<Attribute>): (text: string)
  {
    if attributes == [] then "" else Render(attributes[0]) + RenderAll(attributes[1..])
  }

  lemma {:induction false} RenderAllAppend(a: seq<Attribute>, b: seq<Attribute>)
    ensures RenderAll(a + b) == RenderAll(a) + RenderAll(b)
  {
    if a == [] {
      assert a + b == b;
    } else {
      assert (a + b)[1..] == a[1..] + b;
      RenderAllAppend(a[1..], b);
    }
  }

  /** The text toPacket().toXML writes for one optional attribute: nothing
      when the value is null, else the literal that opens it, the value and
      the closing quote. */
  function AttributeText(opening: string, value: Option<string>): (text: string)
  {
    if value.Some? then opening + value.value + "\"" else ""
  }

  /** The attribute section of the stanza, as toPacket().toXML writes it. */
  function AttributesText(attrs: StanzaAttributes, escape: string -> string): (text: string)
  {
    AttributeText(" xmlns=\"", attrs.xmlns) + AttributeText(" xml:lang=\"", attrs.language)
    + AttributeText(" id=\"", attrs.packetId) + AttributeText(" to=\"", Escaped(attrs.to, escape))
    + AttributeText(" from=\"", Escaped(attrs.from, escape))
  }

  /** The text of the <message> stanza that carries `ext`. */
  function StanzaXml(attrs: StanzaAttributes, ext: GcmPacketExtension, escape: string -> string): (xml: string)
  {
    "<message" + AttributesText(attrs, escape) + ">" + ext.ToXml() + "</message>"
  }

  /** Appending one optional attribute to the builder extends the text
      written so far by that attribute's text. */
  lemma AppendAttribute(buf: string, text: string, opening: string, value: string)
    requires buf == "<message" + text
    ensures buf + opening + value + "\"" == "<message" + (text + AttributeText(opening, Some(value)))
  {
  }

  /** toPacket().toXML: the StringBuilder that writes the stanza piece by
      piece, one optional attribute after the other. */
  method PacketToXml(attrs: StanzaAttributes, ext: GcmPacketExtension, escape: string -> string)
    returns (xml: string)
    ensures xml == StanzaXml(attrs, ext, escape)
  {
    var buf := "<message";
    ghost var text := "";
    assert buf == "<message" + text;
    if attrs.xmlns != None {
      AppendAttribute(buf, text, " xmlns=\"", attrs.xmlns.value);
      buf := buf + " xmlns=\"" + attrs.xmlns.value + "\"";
    }
    assert text + AttributeText(" xmlns=\"", attrs.xmlns) == AttributeText(" xmlns=\"", attrs.xmlns);
    text := AttributeText(" xmlns=\"", attrs.xmlns);
    assert buf == "<message" + text;
    if attrs.language != None {
      AppendAttribute(buf, text, " xml:lang=\"", attrs.language.value);
      buf := buf + " xml:lang=\"" + attrs.language.value + "\"";
    }
    text := text + AttributeText(" xml:lang=\"", attrs.language);
    assert buf == "<message" + text;
    if attrs.packetId != None {
      AppendAttribute(buf, text, " id=\"", attrs.packetId.value);
      buf := buf + " id=\"" + attrs.packetId.value + "\"";
    }
    text := text + AttributeText(" id=\"", attrs.packetId);
    assert buf == "<message" + text;
    if attrs.to != None {
      AppendAttribute(buf, text, " to=\"", escape(attrs.to.value));
      buf := buf + " to=\"" + escape(attrs.to.value) + "\"";
    }
    text := text + AttributeText(" to=\"", Escaped(attrs.to, escape));
    assert buf == "<message" + text;
    if attrs.from != None {
      AppendAttribute(buf, text, " from=\"", escape(attrs.from.value));
      buf := buf + " from=\"" + escape(attrs.from.value) + "\"";
    }
    text := text + AttributeText(" from=\"", Escaped(attrs.from, escape));
    assert buf == "<message" + text;
    assert text == AttributesText(attrs, escape);
    buf := buf + ">";
    buf := buf + ext.ToXml();
    buf := buf + "</message>";
    xml := buf;
  }

  /** The text of one optional attribute is the rendering of the list that
      holds it when it is present. */
  lemma OptionalRenders(opening: string, name: string, value: Option<string>)
    requires opening == " " + name + "=\""
    ensures AttributeText(opening, value) == RenderAll(Optional(name, value))
  {
  }

  /** The attribute section written by toPacket().toXML is exactly the
      rendering, in order, of the attribute list. */
  lemma AttributesTextRendersList(attrs: StanzaAttributes, escape: string -> string)
    ensures AttributesText(attrs, escape) == RenderAll(AttributeList(attrs, escape))
  {
    var l1, l2, l3 := Optional("xmlns", attrs.xmlns), Optional("xml:lang", attrs.language), Optional("id", attrs.packetId);
    var l4, l5 := Optional("to", Escaped(attrs.to, escape)), Optional("from", Escaped(attrs.from, escape));
    OptionalRenders(" xmlns=\"", "xmlns", attrs.xmlns);
    OptionalRenders(" xml:lang=\"", "xml:lang", attrs.language);
    OptionalRenders(" id=\"", "id", attrs.packetId);
    OptionalRenders(" to=\"", "to", Escaped(attrs.to, escape));
    OptionalRenders(" from=\"", "from", Escaped(attrs.from, escape));
    RenderAllAppend(l1, l2);
    RenderAllAppend(l1 + l2, l3);
    RenderAllAppend(l1 + l2 + l3, l4);
    RenderAllAppend(l1 + l2 + l3 + l4, l5);
  }

  /** An attribute is written iff its value is non-null; xmlns, xml:lang and
      id are written as they are, to and from through the escaper. */
  lemma AttributeListContents(attrs: StanzaAttributes, escape: string -> string, name: string, value: string)
    ensures (name, value) in AttributeList(attrs, escape) <==>
      || (name == "xmlns" && attrs.xmlns == Some(value))
      || (name == "xml:lang" && attrs.language == Some(value))
      || (name == "id" && attrs.packetId == Some(value))
      || (name == "to" && attrs.to.Some? && value == escape(attrs.to.value))
      || (name == "from" && attrs.from.Some? && value == escape(attrs.from.value))
  {
  }

  /** The attributes appear in the fixed order xmlns, xml:lang, id, to,
      from, each at most once. */
  lemma AttributeListOrdered(attrs: StanzaAttributes, escape: string -> string)
    ensures forall a :: a in AttributeList(attrs, escape) ==> a.0 in AttributeOrder
    ensures var l := AttributeList(attrs, escape);
      forall i, j :: 0 <= i < j < |l| ==> Rank(l[i].0) < Rank(l[j].0)
  {
  }

  /** Every stanza opens with `<message` and closes with the extension
      element followed by `</message>`. */
  lemma StanzaFraming(attrs: StanzaAttributes, ext: GcmPacketExtension, escape: string -> string)
    ensures var xml := StanzaXml(attrs, ext, escape);
      var tail := ext.ToXml() + "</message>";
      && "<message" <= xml
      && |tail| <= |xml| && xml[|xml| - |tail|..] == tail
  {
    Regroup("<message", AttributesText(attrs, escape), ">", ext.ToXml(), "</message>");
  }

  /** The five pieces of a stanza, regrouped as an opening, a middle and a
      closing part. */
  lemma Regroup(a: string, b: string, c: string, d: string, e: string)
    ensures var s := a + b + c + d + e;
      && a <= s && |d + e| <= |s| && s[|s| - |d + e|..] == d + e
  {
  }

  /** For the same attributes, different payloads give different stanzas:
      the JSON text is never lost or merged by the envelope. */
  lemma {:induction false} StanzaDeterminesPayload(
    attrs: StanzaAttributes, e1: GcmPacketExtension, e2: GcmPacketExtension, escape: string -> string)
    requires StanzaXml(attrs, e1, escape) == StanzaXml(attrs, e2, escape)
    ensures e1 == e2
  {
    var head := "<message" + AttributesText(attrs, escape) + ">" + OpenTag;
    var tail := CloseTag + "</message>";
    var x1, x2 := StanzaXml(attrs, e1, escape), StanzaXml(attrs, e2, escape);
    assert x1 == head + e1.json + tail;
    assert x2 == head + e2.json + tail;
    assert e1.json == x1[|head|..|x1| - |tail|];
    assert e2.json == x2[|head|..|x2| - |tail|];
  }
}
