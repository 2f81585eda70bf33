/** The create page: topic validation, the topic sent with its optional
    context, the request, and the state the reply and the final step leave
    behind. */
module CreateDocsPage {
  import opened Options
  import opened Strings
  import opened Seqs

  const ContextSeparator := ". Additional context: "
  const DefaultFailure := "Failed to generate documentation"
  const GeneratedPrefix := "/generated/"

  /** The body posted to the generation function. */
  datatype GenerateRequest = GenerateRequest(topic: string, save: bool)

  /** How the request ends: the fetch or the body parse rejects with a
      message; a non-ok response with its body's `error` field; or an ok
      body with its `docId` (`null` when nothing was saved). */
  datatype Reply = Rejected(message: string) | NotOk(error: Option<string>) | Ok(docId: Option<string>)

  datatype Toast = TopicRequired | Generated(topic: string) | GenerationFailed(description: string)

  /** `fullTopic`: the topic, followed by the context when one is given. A
      context of blanks is still given. */
  function FullTopic(topic: string, context: string): (r: string)
    ensures StandsAt(r, 0, topic)
    ensures context == "" ==> r == topic
    ensures context != "" ==> (|r| == |topic| + |ContextSeparator| + |context|
      && StandsAt(r, |topic|, ContextSeparator) && StandsAt(r, |topic| + |ContextSeparator|, context))
  {
    if context != "" then
      PrefixStands(topic, ContextSeparator + context);
      Assoc(topic, ContextSeparator, context);
      MiddleStands(topic, ContextSeparator, context);
      SuffixStands(topic + ContextSeparator, context);
      topic + ContextSeparator + context
    else topic
  }

  /** Given the topic's length, the topic and the context can be read back
      from the text sent. */
  lemma FullTopicInjective(t1: string, c1: string, t2: string, c2: string)
    requires |t1| == |t2| && FullTopic(t1, c1) == FullTopic(t2, c2)
    ensures t1 == t2 && c1 == c2
  {
  }

  /** Without the topic's length they cannot: a topic that itself contains
      the separator is sent exactly like a shorter topic with a context. */
  lemma FullTopicCollision()
    ensures FullTopic("a", "b") == FullTopic("a" + ContextSeparator + "b", "")
    ensures "a" != "a" + ContextSeparator + "b"
  {
  }

  /** The message of the thrown error: the body's `error` when it is a
      non-empty string, else the default. */
  function FailureMessage(error: Option<string>): (r: string)
    ensures r != ""
    ensures error.Some? && error.value != "" ==> r == error.value
    ensures error.None? || error.value == "" ==> r == DefaultFailure
  {
    if error.Some? && error.value != "" then error.value else DefaultFailure
  }

  /** The route scheduled after success; a `null` id is written out by the
      template literal. */
  function GeneratedRoute(docId: Option<string>): (r: string)
    ensures docId.Some? ==> r == GeneratedPrefix + docId.value
    ensures docId.None? ==> r == GeneratedPrefix + "null"
  {
    GeneratedPrefix + docId.GetOr("null")
  }

  /** The form state, with the toasts shown, the requests posted and the
      navigations scheduled. `progress` is only modelled at the values the
      handler writes itself. */
  class Form {
    var topic: string
    var additionalContext: string
    var isGenerating: bool
    var progress: int
    var toasts: seq<Toast>
    var requests: seq<GenerateRequest>
    var navigations: seq<string>

    constructor()
      ensures topic == "" && additionalContext == "" && !isGenerating && progress == 0
      ensures toasts == [] && requests == [] && navigations == []
    {
      topic := "";
      additionalContext := "";
      isGenerating := false;
      progress := 0;
      toasts := [];
      requests := [];
      navigations := [];
    }

    /** The generate button is disabled while generating or while the topic
        is blank. */
    predicate Disabled()
      reads this
    {
      isGenerating || IsBlank(topic)
    }

    method SetTopic(t: string)
      modifies this
      ensures topic == t && additionalContext == old(additionalContext) && isGenerating == old(isGenerating)
      ensures progress == old(progress) && toasts == old(toasts) && requests == old(requests) && navigations == old(navigations)
    {
      topic := t;
    }

    method SetContext(c: string)
      modifies this
      ensures additionalContext == c && topic == old(topic) && isGenerating == old(isGenerating)
      ensures progress == old(progress) && toasts == old(toasts) && requests == old(requests) && navigations == old(navigations)
    {
      additionalContext := c;
    }

    /** `handleGenerate` up to the request: a blank topic only raises the
        toast; otherwise generation starts and one request is posted, always
        asking to save. */
    method Submit() returns (sent: bool)
      modifies this
      ensures sent <==> !IsBlank(old(topic))
      ensures topic == old(topic) && additionalContext == old(additionalContext) && navigations == old(navigations)
      ensures !sent ==> (toasts == old(toasts) + [TopicRequired] && requests == old(requests)
        && isGenerating == old(isGenerating) && progress == old(progress))
      ensures sent ==> (toasts == old(toasts) && isGenerating && progress == 0
        && requests == old(requests) + [GenerateRequest(FullTopic(topic, additionalContext), true)])
    {
      sent := !IsBlank(topic);
      if !sent {
        toasts := toasts + [TopicRequired];
      } else {
        isGenerating := true;
        progress := 0;
        var fullTopic := FullTopic(topic, additionalContext);
        requests := requests + [GenerateRequest(fullTopic, true)];
      }
    }

    /** The rest of `handleGenerate` once the reply is in: success raises its
        toast and schedules the route of the new document; a failure raises
        the error toast; the final step always ends generation and resets the
        progress, including the 100 written on success. */
    method Settle(reply: Reply)
      modifies this
      ensures !isGenerating && progress == 0
      ensures topic == old(topic) && additionalContext == old(additionalContext) && requests == old(requests)
      ensures reply.Ok? ==> toasts == old(toasts) + [Generated(topic)] && navigations == old(navigations) + [GeneratedRoute(reply.docId)]
      ensures reply.NotOk? ==> toasts == old(toasts) + [GenerationFailed(FailureMessage(reply.error))] && navigations == old(navigations)
      ensures reply.Rejected? ==> toasts == old(toasts) + [GenerationFailed(reply.message)] && navigations == old(navigations)
    {
      match reply {
        case Ok(docId) =>
          progress := 100;
          toasts := toasts + [Generated(topic)];
          navigations := navigations + [GeneratedRoute(docId)];
        case NotOk(error) =>
          toasts := toasts + [GenerationFailed(FailureMessage(error))];
        case Rejected(message) =>
          toasts := toasts + [GenerationFailed(message)];
      }
      isGenerating := false;
      progress := 0;
    }
  }

  /** A submission from an enabled button posts exactly one request, and
      while it is pending the button is disabled. */
  method SubmitFromEnabled(f: Form) returns (sent: bool)
    requires !f.Disabled()
    modifies f
    ensures sent && f.Disabled() && |f.requests| == |old(f.requests)| + 1
    ensures f.requests[|f.requests| - 1].save
  {
    sent := f.Submit();
  }

  /** A full round: submitting a topic and settling with a saved document
      posts the composed topic and schedules its route, leaving the form idle
      and enabled again. */
  method GenerateOnce(t: string, c: string, id: string) returns (f: Form)
    requires !IsBlank(t)
    ensures f.requests == [GenerateRequest(FullTopic(t, c), true)]
    ensures f.navigations == [GeneratedPrefix + id]
    ensures !f.isGenerating && f.progress == 0 && !f.Disabled()
  {
    f := new Form();
    f.SetTopic(t);
    f.SetContext(c);
    var sent := f.Submit();
    f.Settle(Ok(Some(id)));
  }
}
