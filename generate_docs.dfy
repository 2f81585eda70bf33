/** The `generate-docs` edge function: validates the topic, asks the AI
    gateway for a JSON documentation bundle, strips the code fences the model
    may wrap around its reply, checks the structure, optionally stores one
    document row and its ordered section rows, and maps every failure to an
    HTTP status with an `error` message.

    The gateway, `JSON.parse` and the store are foreign: their answers are
    inputs (`Services`), and the calls the handler makes are returned as a
    list of `Effect`s in the order it makes them. */
module GenerateDocs {
  import opened Options
  import opened Strings

  /** The `topic` field of the request body as the JSON parser produced it. */
  datatype TopicField = Missing | NotAString | Text(s: string)

  /** The result of `await req.json()`: an exception message, or the two fields. */
  datatype RequestBody = Unreadable(message: string) | Fields(topic: TopicField, save: bool)

  /** One section object of the model's reply; `icon` is `None` when the
      field is absent or null. */
  datatype RawSection = RawSection(slug: string, title: string, content: string, icon: Option<string>)

  /** The `sections` field of the parsed reply: absent, null or any
      non-array value is `NotAnArray`. */
  datatype SectionsField = NotAnArray | Array(items: seq<RawSection>)

  datatype ParsedDoc = ParsedDoc(description: Option<string>, sections: SectionsField)

  /** What `JSON.parse` makes of the cleaned reply. */
  datatype ParseOutcome = SyntaxError | NullValue | Value(doc: ParsedDoc)

  /** `data.choices?.[0]?.message?.content` of the gateway's JSON body. */
  datatype GatewayContent = BodyUnreadable(message: string) | NoContent | Content(text: string)

  /** The gateway call: a network failure, or a reply with a status. */
  datatype GatewayReply = Unreachable(message: string) | Replied(status: nat, content: GatewayContent)

  /** The answers of the foreign services for one request. `docInsert` is the
      id the store assigns to the document row, `None` when that insert
      reports an error. */
  datatype Services = Services(
    apiKeyConfigured: bool,
    gateway: GatewayReply,
    parse: string -> ParseOutcome,
    docInsert: Option<string>,
    sectionsInsertOk: bool)

  /** A row of the `doc_sections` table. */
  datatype Row = Row(docId: string, slug: string, title: string, content: string, icon: string, orderIndex: nat)

  /** A call the handler makes on a foreign service. */
  datatype Effect =
    | CallGateway(userPrompt: string)
    | InsertDoc(topic: string, description: string)
    | InsertSections(rows: seq<Row>)

  datatype Body =
    | NoBody
    | Error(error: string)
    | Success(docId: Option<string>, topic: string, description: Option<string>, sections: seq<RawSection>)

  datatype Response = Response(status: nat, body: Body)

  const TopicRequired := "Topic is required"
  const ApiKeyMissing := "LOVABLE_API_KEY is not configured"
  const RateLimited := "Rate limits exceeded, please try again later."
  const PaymentRequired := "Payment required, please add funds."
  const NoContentReceived := "No content received from AI"
  const ParseFailed := "Failed to parse generated documentation"
  const InvalidStructure := "Invalid documentation structure"
  const SaveDocFailed := "Failed to save documentation"
  const SaveSectionsFailed := "Failed to save documentation sections"
  /** The TypeError the runtime raises when reading `sections` of `null`. */
  const NullSections := "Cannot read properties of null (reading 'sections')"
  const DefaultIcon := "FileText"
  const JsonFence := "```json"
  const Fence := "```"

  /** `!topic || typeof topic !== "string"` fails. */
  predicate ValidTopic(t: TopicField) {
    t.Text? && t.s != ""
  }

  /** The user message sent to the gateway. */
  function UserPrompt(topic: string): string {
    "Generate comprehensive documentation for: " + topic
  }

  /** `response.ok` */
  predicate IsOk(status: nat) {
    200 <= status <= 299
  }

  function GatewayError(status: nat): string {
    "AI gateway error: " + NatToString(status)
  }

  /** `parsedContent.description || "Documentation for <topic>"` */
  function StoredDescription(description: Option<string>, topic: string): (r: string)
    ensures description.Some? && description.value != "" ==> r == description.value
    ensures description.None? || description.value == "" ==> r == "Documentation for " + topic
  {
    if description.Some? && description.value != "" then description.value else "Documentation for " + topic
  }

  /** `section.icon || "FileText"` */
  function IconOrDefault(icon: Option<string>): (r: string)
    ensures r != ""
    ensures icon.Some? && icon.value != "" ==> r == icon.value
  {
    if icon.Some? && icon.value != "" then icon.value else DefaultIcon
  }

  /** The section rows stored for the document `docId`, the first numbered
      `start`: one row per section, in order, with consecutive order
      indexes, the same document id, the fields copied and a default icon. */
  function RowsFrom(docId: string, items: seq<RawSection>, start: nat): (r: seq<Row>)
    ensures |r| == |items|
    ensures forall i :: 0 <= i < |r| ==> r[i].orderIndex == start + i && r[i].docId == docId
    ensures forall i :: 0 <= i < |r| ==>
      r[i].slug == items[i].slug && r[i].title == items[i].title && r[i].content == items[i].content
    ensures forall i :: 0 <= i < |r| ==> r[i].icon == IconOrDefault(items[i].icon)
  {
    if items == [] then []
    else
      [Row(docId, items[0].slug, items[0].title, items[0].content, IconOrDefault(items[0].icon), start)]
      + RowsFrom(docId, items[1..], start + 1)
  }

  /** `sectionsToInsert`: the order index of every row is its position. */
  function SectionRows(docId: string, items: seq<RawSection>): (r: seq<Row>)
    ensures |r| == |items|
    ensures forall i :: 0 <= i < |r| ==> r[i].orderIndex == i
  {
    RowsFrom(docId, items, 0)
  }

  /** Removes one leading fence, the tagged one tested first. */
  function DropLeadingFence(t: string): (r: string)
    ensures StartsWith(t, JsonFence) ==> t == JsonFence + r
    ensures !StartsWith(t, JsonFence) && StartsWith(t, Fence) ==> t == Fence + r
    ensures !StartsWith(t, Fence) ==> r == t
  {
    if StartsWith(t, JsonFence) then t[7..]
    else if StartsWith(t, Fence) then t[3..]
    else t
  }

  /** Removes one trailing fence. */
  function DropTrailingFence(t: string): (r: string)
    ensures EndsWith(t, Fence) ==> t == r + Fence
    ensures !EndsWith(t, Fence) ==> r == t
  {
    if EndsWith(t, Fence) then t[..|t| - 3] else t
  }

  /** The text handed to `JSON.parse`: the reply trimmed, stripped of at most
      one leading and one trailing fence, and trimmed again. */
  function StripFences(reply: string): (r: string)
    ensures IsTrimmed(r)
    ensures |r| <= |reply|
  {
    Trim(DropTrailingFence(DropLeadingFence(Trim(reply))))
  }

  /** A reply with no fence at either end reaches the parser as its trimmed
      self. */
  lemma StripFencesUnfenced(reply: string)
    requires !StartsWith(Trim(reply), Fence) && !EndsWith(Trim(reply), Fence)
    ensures StripFences(reply) == Trim(reply)
  {
    TrimIdempotent(reply);
  }

  /** The cleaning steps as the handler performs them, one reassignment of
      the working string at a time. */
  method CleanContent(content: string) returns (clean: string)
    ensures clean == StripFences(content)
  {
    clean := Trim(content);
    ghost var t := clean;
    if StartsWith(clean, JsonFence) {
      clean := clean[7..];
    } else if StartsWith(clean, Fence) {
      clean := clean[3..];
    }
    assert clean == DropLeadingFence(t);
    ghost var u := clean;
    if EndsWith(clean, Fence) {
      clean := clean[..|clean| - 3];
    }
    assert clean == DropTrailingFence(u);
    clean := Trim(clean);
  }

  /** A payload wrapped in a `json`-tagged fence, with any white space around
      the fences and between fence and payload, comes out of the cleaning as
      exactly the payload. */
  lemma JsonFencedRoundTrip(w0: string, w1: string, p: string, w2: string, w3: string)
    requires AllWhitespace(w0) && AllWhitespace(w1) && AllWhitespace(w2) && AllWhitespace(w3)
    requires IsTrimmed(p)
    ensures StripFences(w0 + JsonFence + w1 + p + w2 + Fence + w3) == p
  {
    var inner := w1 + p + w2;
    assert w0 + JsonFence + w1 + p + w2 + Fence + w3 == w0 + JsonFence + inner + Fence + w3;
    FencedRoundTrip(w0, JsonFence, inner, w3);
    TrimPadded(w1, p, w2);
  }

  /** The same for an untagged fence, as long as the text after the fence
      does not itself begin with `json`. */
  lemma PlainFencedRoundTrip(w0: string, w1: string, p: string, w2: string, w3: string)
    requires AllWhitespace(w0) && AllWhitespace(w1) && AllWhitespace(w2) && AllWhitespace(w3)
    requires IsTrimmed(p)
    requires !StartsWith(w1 + p + w2 + Fence, "json")
    ensures StripFences(w0 + Fence + w1 + p + w2 + Fence + w3) == p
  {
    var inner := w1 + p + w2;
    assert w1 + p + w2 + Fence == inner + Fence;
    assert w0 + Fence + w1 + p + w2 + Fence + w3 == w0 + Fence + inner + Fence + w3;
    PlainFenceNotTagged(inner);
    FencedRoundTrip(w0, Fence, inner, w3);
    TrimPadded(w1, p, w2);
  }

  lemma FencedRoundTrip(w0: string, open: string, inner: string, w3: string)
    requires AllWhitespace(w0) && AllWhitespace(w3)
    requires open == JsonFence || (open == Fence && !StartsWith(open + inner + Fence, JsonFence))
    ensures StripFences(w0 + open + inner + Fence + w3) == Trim(inner)
  {
    var core := open + inner + Fence;
    assert w0 + open + inner + Fence + w3 == w0 + core + w3;
    FencedCoreIsTrimmed(open, inner);
    TrimPadded(w0, core, w3);
    LeadingFenceDropped(open, inner);
    TrailingFenceDropped(inner);
  }

  lemma PlainFenceNotTagged(inner: string)
    requires !StartsWith(inner + Fence, "json")
    ensures !StartsWith(Fence + inner + Fence, JsonFence)
  {
    var s := Fence + inner + Fence;
    assert s[3..] == inner + Fence;
  }

  lemma FencedCoreIsTrimmed(open: string, inner: string)
    requires open == JsonFence || open == Fence
    ensures IsTrimmed(open + inner + Fence)
  {
    var core := open + inner + Fence;
    assert core[0] == '`';
    assert core[|core| - 1] == '`';
  }

  lemma LeadingFenceDropped(open: string, inner: string)
    requires open == JsonFence || (open == Fence && !StartsWith(open + inner + Fence, JsonFence))
    ensures DropLeadingFence(open + inner + Fence) == inner + Fence
  {
    assert StartsWith(open + inner + Fence, open);
  }

  lemma TrailingFenceDropped(inner: string)
    ensures DropTrailingFence(inner + Fence) == inner
  {
    assert EndsWith(inner + Fence, Fence);
  }

  /** Only one fence is removed at each end: a doubly fenced payload keeps
      its inner fences. */
  lemma OneFenceEachEnd(p: string)
    requires IsTrimmed(p)
    ensures StripFences(JsonFence + JsonFence + p + Fence + Fence) == JsonFence + p + Fence
  {
    var inner := JsonFence + p + Fence;
    assert JsonFence + JsonFence + p + Fence + Fence == [] + JsonFence + inner + Fence + [];
    FencedRoundTrip([], JsonFence, inner, []);
    FencedCoreIsTrimmed(JsonFence, p);
    TrimOfTrimmed(inner);
  }

  /** A response together with the foreign calls made before it, in order. */
  datatype Outcome = Outcome(resp: Response, effects: seq<Effect>)

  /** The storage step for a parsed bundle when saving is asked for: the
      document row first, then all section rows under the id it got. */
  function SaveOutcome(topic: string, d: ParsedDoc, items: seq<RawSection>, svc: Services): (o: Outcome)
    ensures |o.effects| >= 1 && o.effects[0] == InsertDoc(topic, StoredDescription(d.description, topic))
  {
    var insertDoc := InsertDoc(topic, StoredDescription(d.description, topic));
    match svc.docInsert
    case None => Outcome(Response(500, Error(SaveDocFailed)), [insertDoc])
    case Some(id) =>
      var effects := [insertDoc, InsertSections(SectionRows(id, items))];
      if svc.sectionsInsertOk then Outcome(Response(200, Success(Some(id), topic, d.description, items)), effects)
      else Outcome(Response(500, Error(SaveSectionsFailed)), effects)
  }

  /** What follows a successful `JSON.parse`. */
  function ParsedOutcome(topic: string, save: bool, parsed: ParseOutcome, svc: Services): Outcome {
    match parsed
    case SyntaxError => Outcome(Response(500, Error(ParseFailed)), [])
    case NullValue => Outcome(Response(500, Error(NullSections)), [])
    case Value(d) =>
      match d.sections
      case NotAnArray => Outcome(Response(500, Error(InvalidStructure)), [])
      case Array(items) =>
        if save then SaveOutcome(topic, d, items, svc)
        else Outcome(Response(200, Success(None, topic, d.description, items)), [])
  }

  /** What follows the gateway call. */
  function ReplyOutcome(topic: string, save: bool, svc: Services): Outcome {
    match svc.gateway
    case Unreachable(m) => Outcome(Response(500, Error(m)), [])
    case Replied(status, content) =>
      if !IsOk(status) then
        if status == 429 then Outcome(Response(429, Error(RateLimited)), [])
        else if status == 402 then Outcome(Response(402, Error(PaymentRequired)), [])
        else Outcome(Response(500, Error(GatewayError(status))), [])
      else
        match content
        case BodyUnreadable(m) => Outcome(Response(500, Error(m)), [])
        case NoContent => Outcome(Response(500, Error(NoContentReceived)), [])
        case Content(t) =>
          if t == "" then Outcome(Response(500, Error(NoContentReceived)), [])
          else ParsedOutcome(topic, save, svc.parse(StripFences(t)), svc)
  }

  /** The whole request: the answer of the edge function and the foreign
      calls it made. */
  function Handle(preflight: bool, request: RequestBody, svc: Services): Outcome {
    if preflight then Outcome(Response(200, NoBody), [])
    else match request
      case Unreadable(m) => Outcome(Response(500, Error(m)), [])
      case Fields(topic, save) =>
        if !ValidTopic(topic) then Outcome(Response(400, Error(TopicRequired)), [])
        else if !svc.apiKeyConfigured then Outcome(Response(500, Error(ApiKeyMissing)), [])
        else
          var rest := ReplyOutcome(topic.s, save, svc);
          Outcome(rest.resp, [CallGateway(UserPrompt(topic.s))] + rest.effects)
  }

  /** The request handler as written: a sequence of early returns. */
  method Serve(preflight: bool, request: RequestBody, svc: Services) returns (resp: Response, effects: seq<Effect>)
    ensures Outcome(resp, effects) == Handle(preflight, request, svc)
  {
    effects := [];
    if preflight {
      return Response(200, NoBody), effects;
    }
    if request.Unreadable? {
      return Response(500, Error(request.message)), effects;
    }
    var topic := request.topic;
    if !ValidTopic(topic) {
      return Response(400, Error(TopicRequired)), effects;
    }
    if !svc.apiKeyConfigured {
      return Response(500, Error(ApiKeyMissing)), effects;
    }
    var later;
    resp, later := AskGateway(topic.s, request.save, svc);
    effects := [CallGateway(UserPrompt(topic.s))] + later;
  }

  /** From the gateway call on: status mapping, content extraction and
      cleaning. */
  method AskGateway(topic: string, save: bool, svc: Services) returns (resp: Response, effects: seq<Effect>)
    ensures Outcome(resp, effects) == ReplyOutcome(topic, save, svc)
  {
    effects := [];
    var reply := svc.gateway;
    if reply.Unreachable? {
      return Response(500, Error(reply.message)), effects;
    }
    if !IsOk(reply.status) {
      if reply.status == 429 {
        return Response(429, Error(RateLimited)), effects;
      }
      if reply.status == 402 {
        return Response(402, Error(PaymentRequired)), effects;
      }
      return Response(500, Error(GatewayError(reply.status))), effects;
    }
    var content;
    match reply.content {
      case BodyUnreadable(m) =>
        return Response(500, Error(m)), effects;
      case NoContent =>
        return Response(500, Error(NoContentReceived)), effects;
      case Content(t) =>
        content := t;
    }
    if content == "" {
      return Response(500, Error(NoContentReceived)), effects;
    }
    var clean := CleanContent(content);
    resp, effects := Store(topic, save, svc.parse(clean), svc);
  }

  /** From the parsed reply on: structure check and the optional save, with
      the document id held in a variable only a successful save sets. */
  method Store(topic: string, save: bool, parsed: ParseOutcome, svc: Services) returns (resp: Response, effects: seq<Effect>)
    ensures Outcome(resp, effects) == ParsedOutcome(topic, save, parsed, svc)
  {
    effects := [];
    var d;
    match parsed {
      case SyntaxError =>
        return Response(500, Error(ParseFailed)), effects;
      case NullValue =>
        return Response(500, Error(NullSections)), effects;
      case Value(v) =>
        d := v;
    }
    if d.sections.NotAnArray? {
      return Response(500, Error(InvalidStructure)), effects;
    }
    var items := d.sections.items;
    var docId: Option<string> := None;
    if save {
      effects := effects + [InsertDoc(topic, StoredDescription(d.description, topic))];
      if svc.docInsert.None? {
        return Response(500, Error(SaveDocFailed)), effects;
      }
      docId := svc.docInsert;
      effects := effects + [InsertSections(SectionRows(docId.value, items))];
      if !svc.sectionsInsertOk {
        return Response(500, Error(SaveSectionsFailed)), effects;
      }
    }
    resp := Response(200, Success(docId, topic, d.description, items));
  }

  /** A missing, empty or non-string topic is answered with 400 "Topic is
      required" before any foreign call; no other path answers 400. A
      white-space-only topic is accepted. */
  lemma TopicValidation(preflight: bool, request: RequestBody, svc: Services)
    ensures var o := Handle(preflight, request, svc);
      o.resp.status == 400 <==> !preflight && request.Fields? && !ValidTopic(request.topic)
    ensures var o := Handle(preflight, request, svc);
      o.resp.status == 400 ==> o.resp.body == Error(TopicRequired) && o.effects == []
    ensures ValidTopic(Text(" "))
  {
    var o := Handle(preflight, request, svc);
    if !preflight && request.Fields? && ValidTopic(request.topic) && svc.apiKeyConfigured {
      ReplyFacts(request.topic.s, request.save, svc);
    }
  }

  /** After parsing: only 200 or 500, at most the two inserts, and a
      document id only from a save whose two inserts both succeeded. */
  lemma ParsedFacts(topic: string, save: bool, parsed: ParseOutcome, svc: Services)
    ensures var o := ParsedOutcome(topic, save, parsed, svc);
      && o.resp.status in {200, 500}
      && |o.effects| <= 2
      && (forall i :: 0 <= i < |o.effects| ==> !o.effects[i].CallGateway?)
      && (o.effects != [] ==> save)
      && (o.resp.body.Success? && o.resp.body.docId.Some? ==>
            save && svc.docInsert == Some(o.resp.body.docId.value) && svc.sectionsInsertOk)
  {
    if parsed.Value? && parsed.doc.sections.Array? && save {
      var o := SaveOutcome(topic, parsed.doc, parsed.doc.sections.items, svc);
      assert o.resp.status in {200, 500};
    }
  }

  /** After the gateway call: the statuses the function can answer with, and
      the same facts about the inserts. */
  lemma ReplyFacts(topic: string, save: bool, svc: Services)
    ensures var o := ReplyOutcome(topic, save, svc);
      && o.resp.status in {200, 402, 429, 500}
      && |o.effects| <= 2
      && (forall i :: 0 <= i < |o.effects| ==> !o.effects[i].CallGateway?)
      && (o.effects != [] ==> save)
      && (o.resp.body.Success? && o.resp.body.docId.Some? ==>
            save && svc.docInsert == Some(o.resp.body.docId.value) && svc.sectionsInsertOk)
  {
    var o := ReplyOutcome(topic, save, svc);
    if svc.gateway.Replied? && IsOk(svc.gateway.status) && svc.gateway.content.Content? && svc.gateway.content.text != "" {
      var parsed := svc.parse(StripFences(svc.gateway.content.text));
      assert o == ParsedOutcome(topic, save, parsed, svc);
      ParsedFacts(topic, save, parsed, svc);
    } else {
      assert o.effects == [];
    }
  }

  /** The gateway is called exactly once, first, with the topic, whenever and
      only when the request is valid and the key is configured; at most the
      two inserts follow it. */
  lemma GatewayCalledOnce(preflight: bool, request: RequestBody, svc: Services)
    ensures var o := Handle(preflight, request, svc);
      o.effects != [] <==> !preflight && request.Fields? && ValidTopic(request.topic) && svc.apiKeyConfigured
    ensures var o := Handle(preflight, request, svc);
      o.effects != [] ==>
        (&& o.effects[0] == CallGateway(UserPrompt(request.topic.s))
         && |o.effects| <= 3
         && forall i :: 1 <= i < |o.effects| ==> !o.effects[i].CallGateway?)
  {
    if !preflight && request.Fields? && ValidTopic(request.topic) && svc.apiKeyConfigured {
      ReplyFacts(request.topic.s, request.save, svc);
      var rest := ReplyOutcome(request.topic.s, request.save, svc);
      GatewayFirst(CallGateway(UserPrompt(request.topic.s)), rest.effects);
    } else {
      assert Handle(preflight, request, svc).effects == [];
    }
  }

  /** Effects after a first one that call no gateway still call none from
      position one on. */
  lemma GatewayFirst(first: Effect, rest: seq<Effect>)
    requires forall i :: 0 <= i < |rest| ==> !rest[i].CallGateway?
    ensures ([first] + rest)[0] == first
    ensures forall i :: 1 <= i < |[first] + rest| ==> !([first] + rest)[i].CallGateway?
  {
    forall i | 1 <= i < |[first] + rest|
      ensures !([first] + rest)[i].CallGateway?
    {
      assert ([first] + rest)[i] == rest[i - 1];
    }
  }

  /** Gateway failures: 429 and 402 are passed through with their own
      messages, any other non-2xx status becomes 500 "AI gateway error:
      <status>", and a reply without content becomes 500 "No content received
      from AI". None of them touches the store. */
  lemma GatewayStatusMapping(topic: string, save: bool, svc: Services)
    requires svc.gateway.Replied?
    ensures var o := ReplyOutcome(topic, save, svc);
      && (svc.gateway.status == 429 ==> o == Outcome(Response(429, Error(RateLimited)), []))
      && (svc.gateway.status == 402 ==> o == Outcome(Response(402, Error(PaymentRequired)), []))
      && (!IsOk(svc.gateway.status) && svc.gateway.status != 429 && svc.gateway.status != 402 ==>
            o == Outcome(Response(500, Error(GatewayError(svc.gateway.status))), []))
      && (IsOk(svc.gateway.status) && (svc.gateway.content == NoContent || svc.gateway.content == Content("")) ==>
            o == Outcome(Response(500, Error(NoContentReceived)), []))
  {
  }

  /** A reply that does not parse ends in a 500 saying so and touches the
      store not at all. */
  lemma UnparsableReply(topic: string, save: bool, t: string, svc: Services)
    requires svc.gateway.Replied? && IsOk(svc.gateway.status) && svc.gateway.content == Content(t) && t != ""
    requires svc.parse(StripFences(t)) == SyntaxError
    ensures ReplyOutcome(topic, save, svc) == Outcome(Response(500, Error(ParseFailed)), [])
  {
    assert ReplyOutcome(topic, save, svc) == ParsedOutcome(topic, save, svc.parse(StripFences(t)), svc);
  }

  /** A reply whose `sections` is not an array ends in a 500 saying so and
      touches the store not at all. */
  lemma SectionsNotAnArray(topic: string, save: bool, t: string, description: Option<string>, svc: Services)
    requires svc.gateway.Replied? && IsOk(svc.gateway.status) && svc.gateway.content == Content(t) && t != ""
    requires svc.parse(StripFences(t)) == Value(ParsedDoc(description, NotAnArray))
    ensures ReplyOutcome(topic, save, svc) == Outcome(Response(500, Error(InvalidStructure)), [])
  {
    var parsed := Value(ParsedDoc(description, NotAnArray));
    assert ReplyOutcome(topic, save, svc) == ParsedOutcome(topic, save, parsed, svc);
    assert ParsedOutcome(topic, save, parsed, svc) == Outcome(Response(500, Error(InvalidStructure)), []);
  }

  /** A document id is returned only when saving was asked for and both
      inserts succeeded; it is the id the store gave the document row. */
  lemma DocIdOnlyWhenSaved(preflight: bool, request: RequestBody, svc: Services)
    ensures var o := Handle(preflight, request, svc);
      o.resp.body.Success? && o.resp.body.docId.Some? ==>
        && request.Fields? && request.save
        && svc.docInsert == Some(o.resp.body.docId.value) && svc.sectionsInsertOk
  {
    if !preflight && request.Fields? && ValidTopic(request.topic) && svc.apiKeyConfigured {
      ReplyFacts(request.topic.s, request.save, svc);
    }
  }

  /** When saving, the section rows stored are the parsed sections in order
      under the new document id; a failed section insert answers 500 but the
      document row it follows has already been written and stays. The stored
      description falls back to "Documentation for <topic>" while the
      response carries the parsed description as it was. */
  lemma SavedRows(topic: string, d: ParsedDoc, items: seq<RawSection>, svc: Services, id: string)
    requires svc.docInsert == Some(id)
    ensures var o := SaveOutcome(topic, d, items, svc);
      && o.effects == [InsertDoc(topic, StoredDescription(d.description, topic)), InsertSections(SectionRows(id, items))]
      && (svc.sectionsInsertOk ==> o.resp == Response(200, Success(Some(id), topic, d.description, items)))
      && (!svc.sectionsInsertOk ==> o.resp == Response(500, Error(SaveSectionsFailed)))
  {
  }

  /** The example of two generated sections saved under one document: two
      rows, indexes 0 and 1, in input order. */
  lemma TwoSectionsSaved(id: string, a: RawSection, b: RawSection)
    ensures var rows := SectionRows(id, [a, b]);
      |rows| == 2 && rows[0].orderIndex == 0 && rows[1].orderIndex == 1
      && rows[0].slug == a.slug && rows[1].slug == b.slug
  {
  }
}
