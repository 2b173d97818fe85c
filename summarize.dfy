/**
 * `summarize(client, text, model, style, max_words)`: the two-message request
 * sent to the chat-completion service and the extraction of the summary from
 * its reply. The service itself is a function parameter.
 */
module Summarize {
  import opened Wrappers
  import opened Whitespace
  import opened Prompt

  datatype Role = System | User

  datatype Message = Message(role: Role, content: string)

  /** A chat-completion request: the model name and the role-tagged messages. */
  datatype Request = Request(model: string, messages: seq<Message>)

  /**
   * What the service call gives back: the candidate completions, each with a
   * message content that may be absent, or a raised exception with its text.
   */
  datatype Reply = Completion(choices: seq<Option<string>>) | Failure(message: string)

  const SystemInstruction: string :=
    "You are a helpful assistant that summarizes text accurately and concisely."

  /** Separates the prompt from the text in the user turn. */
  const TextMarker: string := "\n\nTEXT:\n"

  /** `str()` of the IndexError raised by `resp.choices[0]` on an empty list. */
  const NoChoiceMessage: string := "list index out of range"

  /** `str()` of the AttributeError raised by calling `.strip()` on a missing content. */
  const NoContentMessage: string := "'NoneType' object has no attribute 'strip'"

  /** The user turn: the prompt, a blank line, the `TEXT:` marker line, then the text. */
  function UserContent(prompt: string, text: string): (m: string)
    ensures StartsWith(m, prompt + TextMarker)
    ensures |m| == |prompt| + |TextMarker| + |text| && m[|prompt| + |TextMarker|..] == text
  {
    ConcatSplit(prompt + TextMarker, text);
    prompt + TextMarker + text
  }

  /** Reads a user turn back into the style variant, the word budget and the text. */
  function ParseUserContent(m: string): Option<ParsedPrompt> {
    match ParsePromptPrefix(m)
    case None => None
    case Some(pp) =>
      if StartsWith(pp.rest, TextMarker) then Some(pp.(rest := pp.rest[|TextMarker|..])) else None
  }

  /**
   * The user turn built from any style, budget and text reads back as exactly
   * that style variant, budget and text: nothing of the text is lost or merged
   * into the prompt.
   */
  lemma {:induction false} UserContentRoundTrip(style: string, maxWords: int, text: string)
    ensures ParseUserContent(UserContent(BuildPrompt(style, maxWords), text))
            == Some(ParsedPrompt(StyleOf(style), maxWords, text))
  {
    var p := BuildPrompt(style, maxWords);
    var tail := TextMarker + text;
    ConcatRegroup3(p, TextMarker, text);
    PromptRoundTrip(style, maxWords, tail);
    ConcatSplit(TextMarker, text);
  }

  /** The request `summarize` sends: the fixed system turn, then the user turn. */
  function BuildRequest(text: string, model: string, style: string, maxWords: int): (req: Request)
    ensures req.model == model && |req.messages| == 2
    ensures req.messages[0] == Message(System, SystemInstruction)
    ensures req.messages[1] == Message(User, UserContent(BuildPrompt(style, maxWords), text))
    ensures ParseUserContent(req.messages[1].content) == Some(ParsedPrompt(StyleOf(style), maxWords, text))
  {
    UserContentRoundTrip(style, maxWords, text);
    Request(model, [Message(System, SystemInstruction), Message(User, UserContent(BuildPrompt(style, maxWords), text))])
  }

  /**
   * Two requests are equal exactly when they carry the same text, model,
   * style variant and word budget.
   */
  lemma BuildRequestInjective(t1: string, m1: string, s1: string, n1: int, t2: string, m2: string, s2: string, n2: int)
    ensures BuildRequest(t1, m1, s1, n1) == BuildRequest(t2, m2, s2, n2)
            <==> t1 == t2 && m1 == m2 && StyleOf(s1) == StyleOf(s2) && n1 == n2
  {
  }

  /**
   * `resp.choices[0].message.content.strip()`: the stripped content of the
   * first choice, or the text of the exception the expression raises.
   */
  function ReplyText(reply: Reply): (r: Result<string, string>)
    ensures r.Ok? <==> reply.Completion? && reply.choices != [] && reply.choices[0].Some?
    ensures r.Ok? ==> r.value == Strip(reply.choices[0].value)
    ensures r.Ok? ==> NoOuterSpace(r.value) && |r.value| <= |reply.choices[0].value|
    ensures reply.Failure? ==> r == Err(reply.message)
    ensures reply.Completion? && reply.choices == [] ==> r == Err(NoChoiceMessage)
    ensures reply.Completion? && reply.choices != [] && reply.choices[0].None? ==> r == Err(NoContentMessage)
  {
    match reply
    case Failure(message) => Err(message)
    case Completion(choices) =>
      if choices == [] then Err(NoChoiceMessage)
      else match choices[0]
        case None => Err(NoContentMessage)
        case Some(content) => Ok(Strip(content))
  }

  /**
   * `summarize`: one call to the service with the built request; the summary
   * is the stripped first choice, and every failure surfaces as its message.
   */
  function Summarize(service: Request -> Reply, text: string, model: string, style: string, maxWords: int)
    : (r: Result<string, string>)
    ensures var reply := service(BuildRequest(text, model, style, maxWords));
            (r.Ok? <==> reply.Completion? && reply.choices != [] && reply.choices[0].Some?)
            && (r.Ok? ==> r.value == Strip(reply.choices[0].value))
            && (reply.Failure? ==> r == Err(reply.message))
            && (reply.Completion? && reply.choices == [] ==> r == Err(NoChoiceMessage))
            && (reply.Completion? && reply.choices != [] && reply.choices[0].None? ==> r == Err(NoContentMessage))
  {
    ReplyText(service(BuildRequest(text, model, style, maxWords)))
  }
}
