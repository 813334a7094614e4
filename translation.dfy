/** The translation route (`POST` in src/app/api/translate/route.ts): a key
    guard, a prompt built from a fixed template, one chat-completion request
    with fixed parameters, and a lenient extraction of the first completion.
    The language model's reply is an input. */
module TranslationRoute {
  import opened Js
  import opened Http

  const MissingKeyMessage := "Missing OpenAI API key"
  const FailedMessage := "Translation failed"
  const Model := "gpt-3.5-turbo"
  const SystemPrompt := "You are a medical translation assistant."
  const MaxTokens: nat := 512
  const Temperature: real := 0.3
  const PromptHead := "Translate the following medical text from "
  const PromptTail := ". Only return the translated text.\n\n"

  /** What `await req.json()` destructures into: a body that is not JSON (or
      is JSON `null`) throws; otherwise each field may be absent. */
  datatype RequestBody = Unparsable | Fields(text: Option<string>, from: Option<string>, to: Option<string>)

  datatype Message = Message(role: string, content: string)

  /** The chat-completion request: its `Authorization` header, then its JSON body. */
  datatype ChatRequest = ChatRequest(
    authorization: string, model: string, messages: seq<Message>, maxTokens: nat, temperature: real)

  /** The reply of the completion endpoint.  `ReplyThrew` stands for a failed
      fetch, a body that is not JSON, or a JSON `null`. */
  datatype CompletionReply = ReplyThrew | ReplyData(choices: Option<seq<Choice>>)
  datatype Choice = Choice(message: Option<ChoiceMessage>)
  datatype ChoiceMessage = ChoiceMessage(content: Option<string>)

  /** The response together with the request issued, if any. */
  datatype RouteRun = RouteRun(outcome: Outcome, sent: Option<ChatRequest>)

  /** A template-literal substitution `${x}`: an absent field reads "undefined". */
  function Interpolate(x: Option<string>): string {
    if x.Some? then x.value else "undefined"
  }

  /** The user prompt, read off piece by piece: the fixed head, the source
      language, " to ", the target language, the fixed tail ending in a blank
      line, then the text. */
  function Prompt(text: string, from: string, to: string): (r: string)
    ensures |r| == |PromptHead| + |from| + 4 + |to| + |PromptTail| + |text|
    ensures var f := |PromptHead|;
      var t := f + |from| + 4;
      var x := t + |to| + |PromptTail|;
      && r[..f] == "Translate the following medical text from "
      && r[f..f + |from|] == from
      && r[f + |from|..t] == " to "
      && r[t..t + |to|] == to
      && r[t + |to|..x] == ". Only return the translated text.\n\n"
      && r[x..] == text
  {
    PromptHead + from + " to " + to + PromptTail + text
  }

  /** The request sent for `prompt`: the fixed model and sampling parameters,
      the system message, then the prompt as the user message. */
  function ChatRequestFor(apiKey: string, prompt: string): (r: ChatRequest)
    ensures r.model == "gpt-3.5-turbo" && r.maxTokens == 512 && r.temperature == 0.3
    ensures r.messages == [Message("system", "You are a medical translation assistant."), Message("user", prompt)]
    ensures r.authorization == "Bearer " + apiKey
  {
    ChatRequest("Bearer " + apiKey, Model, [Message("system", SystemPrompt), Message("user", prompt)], MaxTokens, Temperature)
  }

  /** `data.choices?.[0]?.message?.content`: the first completion's content,
      absent when any link of the chain is. */
  function FirstContent(choices: Option<seq<Choice>>): (r: Option<string>)
    ensures r.Some? <==> (choices.Some? && |choices.value| > 0
                          && choices.value[0].message.Some? && choices.value[0].message.value.content.Some?)
    ensures r.Some? ==> r == choices.value[0].message.value.content
  {
    if choices.None? || |choices.value| == 0 then None
    else match choices.value[0].message
      case None => None
      case Some(m) => m.content
  }

  /** `…?.content?.trim() || ''`: the trimmed first content, or "". */
  function Extract(choices: Option<seq<Choice>>): (r: string)
    ensures FirstContent(choices).None? ==> r == ""
    ensures FirstContent(choices).Some? ==> r == Trim(FirstContent(choices).value)
  {
    match FirstContent(choices)
    case None => ""
    case Some(c) => Trim(c)  // `c.trim() || ''` is `c.trim()`, "" included
  }

  /** The route handler.  The body is read before the key check and outside
      the `try` block, so a malformed body rejects the handler whatever the
      key; a request goes out exactly when the body is readable and the key
      is present; every response is 200 with a translation or 500 with an
      error, and 200 only when the reply did not throw. */
  function Post(body: RequestBody, apiKey: Option<string>, reply: CompletionReply): (r: RouteRun)
    ensures r.outcome.Rejected? <==> body.Unparsable?
    ensures r.sent.Some? <==> (body.Fields? && Truthy(apiKey))
    ensures r.outcome.Respond? ==>
      && r.outcome.status in {200, 500}
      && (r.outcome.status == 200 <==> r.outcome.body.TranslatedBody?)
      && (r.outcome.status == 500 <==> r.outcome.body.ErrorBody?)
    ensures r.outcome.Respond? && r.outcome.status == 200 ==> r.sent.Some? && reply.ReplyData?
  {
    match body
    case Unparsable => RouteRun(Rejected, None)
    case Fields(text, from, to) =>
      if !Truthy(apiKey) then RouteRun(Fail(500, MissingKeyMessage), None)
      else
        var prompt := Prompt(Interpolate(text), Interpolate(from), Interpolate(to));
        var request := ChatRequestFor(apiKey.value, prompt);
        match reply
        case ReplyThrew => RouteRun(Fail(500, FailedMessage), Some(request))
        case ReplyData(choices) => RouteRun(Ok(TranslatedBody(Extract(choices))), Some(request))
  }

  /** A missing key gives 500 and no outbound request. */
  lemma MissingKeyNoRequest(text: Option<string>, from: Option<string>, to: Option<string>, apiKey: Option<string>, reply: CompletionReply)
    requires !Truthy(apiKey)
    ensures Post(Fields(text, from, to), apiKey, reply) == RouteRun(Respond(500, ErrorBody("Missing OpenAI API key")), None)
  {
  }

  /** A body that cannot be read is not turned into the handler's own error
      response, even when the key is missing. */
  lemma MalformedBodyRejects(apiKey: Option<string>, reply: CompletionReply)
    ensures Post(Unparsable, apiKey, reply) == RouteRun(Rejected, None)
  {
  }

  /** With a key and a readable body exactly one request is sent: the fixed
      record carrying the prompt for the body's fields. */
  lemma RequestCarriesPrompt(text: string, from: string, to: string, apiKey: string, reply: CompletionReply)
    requires apiKey != ""
    ensures var r := Post(Fields(Some(text), Some(from), Some(to)), Some(apiKey), reply);
      && r.sent.Some?
      && r.sent.value.model == "gpt-3.5-turbo" && r.sent.value.maxTokens == 512 && r.sent.value.temperature == 0.3
      && |r.sent.value.messages| == 2
      && r.sent.value.messages[0] == Message("system", "You are a medical translation assistant.")
      && r.sent.value.messages[1] == Message("user",
           "Translate the following medical text from " + from + " to " + to
           + ". Only return the translated text.\n\n" + text)
  {
  }

  /** A reply gives 200 with the first completion's content trimmed: no
      white space or line terminator at either end, and what was cut off at
      either end was only such characters; a reply without one gives "". */
  lemma SuccessIsTrimmedContent(body: RequestBody, apiKey: Option<string>, choices: Option<seq<Choice>>)
    requires body.Fields? && Truthy(apiKey)
    ensures var r := Post(body, apiKey, ReplyData(choices));
      var t := Extract(choices);
      && r.outcome == Respond(200, TranslatedBody(t))
      && (t == "" || (!IsTrimmable(t[0]) && !IsTrimmable(t[|t| - 1])))
      && (FirstContent(choices).Some? ==>
            var c := FirstContent(choices).value;
            var a := LeadingTrimmed(c);
            && a + |t| <= |c| && t == c[a..a + |t|]
            && (forall i :: 0 <= i < a ==> IsTrimmable(c[i]))
            && (forall i :: a + |t| <= i < |c| ==> IsTrimmable(c[i])))
  {
  }

  /** Missing `choices`, an empty list, a missing message or content, and
      content made only of white space all give `translated: ""`, not an
      error. */
  lemma LenientFallback(body: RequestBody, apiKey: Option<string>, choices: Option<seq<Choice>>)
    requires body.Fields? && Truthy(apiKey)
    ensures (|| choices.None? || choices.value == []
             || choices.value[0].message.None? || choices.value[0].message.value.content.None?
             || (forall i :: 0 <= i < |choices.value[0].message.value.content.value|
                   ==> IsTrimmable(choices.value[0].message.value.content.value[i])))
      ==> Post(body, apiKey, ReplyData(choices)).outcome == Respond(200, TranslatedBody(""))
  {
    if choices.Some? && choices.value != [] && choices.value[0].message.Some?
      && choices.value[0].message.value.content.Some?
    {
      TrimBlank(choices.value[0].message.value.content.value);
    }
  }

  /** A padded completion "  Hola  " is returned as "Hola". */
  lemma PaddedCompletion(body: RequestBody, apiKey: Option<string>)
    requires body.Fields? && Truthy(apiKey)
    ensures Post(body, apiKey, ReplyData(Some([Choice(Some(ChoiceMessage(Some("  Hola  "))))]))).outcome
         == Respond(200, TranslatedBody("Hola"))
  {
    HolaTrimmed();
  }

  lemma HolaTrimmed()
    ensures Trim("  Hola  ") == "Hola"
  {
    HolaTrimmedStart();
    HolaTrimmedEnd();
  }

  lemma HolaTrimmedStart()
    ensures TrimStart("  Hola  ") == "Hola  "
  {
    assert !IsTrimmable('H');
    assert TrimStart("Hola  ") == "Hola  ";
    assert IsTrimmable(' ') && "  Hola  "[1..] == " Hola  " && " Hola  "[1..] == "Hola  ";
  }

  lemma HolaTrimmedEnd()
    ensures TrimEnd("Hola  ") == "Hola"
  {
    assert !IsTrimmable('a');
    assert TrimEnd("Hola") == "Hola";
    assert IsTrimmable(' ') && "Hola  "[..5] == "Hola " && "Hola "[..4] == "Hola";
  }

  /** A failure thrown inside the `try` block gives the generic 500. */
  lemma ThrowGivesGenericFailure(body: RequestBody, apiKey: Option<string>)
    requires body.Fields? && Truthy(apiKey)
    ensures Post(body, apiKey, ReplyThrew).outcome == Respond(500, ErrorBody("Translation failed"))
  {
  }
}
