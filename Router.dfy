/**
  * The message router of the chat server (`chat_with_groq` in travel_planner/helpers.py):
  * the travel gate decides between a canned redirect and one call to the completion
  * service, whose request carries the system prompt, the history and the new message.
  *
  * The completion service is an oracle: `CompletionClient` holds a pure function from
  * request to outcome, and records every request it is given, so that "the service is
  * never called" is a statement about the record.
  */
module Router {
  import opened Wrappers
  import opened Locations
  import Gate
  import Redirect
  import Prompt

  datatype Role = System | User

  datatype ChatMessage = ChatMessage(role: Role, content: string)

  /** The arguments of `chat.completions.create`. */
  datatype ChatRequest = ChatRequest(
    model: string,
    messages: seq<ChatMessage>,
    maxTokens: int,
    temperature: real)

  /** What the service gives back: the first choice's text, or the exception it raised. */
  datatype Completion = Answer(text: string) | Failure(error: string)

  /** The sampling temperature written into every request. */
  const RequestTemperature: real := 0.3

  /** The completion client, configured once with a model and a token limit. */
  class CompletionClient {
    const model: string
    const maxTokens: int
    /** The service's answer to each request. */
    const service: ChatRequest -> Completion
    /** Every request sent so far, oldest first. */
    var sent: seq<ChatRequest>

    constructor (model: string, maxTokens: int, service: ChatRequest -> Completion)
      ensures this.model == model && this.maxTokens == maxTokens && this.service == service
      ensures sent == []
    {
      this.model := model;
      this.maxTokens := maxTokens;
      this.service := service;
      sent := [];
    }

    /** `chat.completions.create(...)`: one call to the service. */
    method Create(request: ChatRequest) returns (outcome: Completion)
      modifies this
      ensures sent == old(sent) + [request]
      ensures outcome == service(request)
    {
      sent := sent + [request];
      outcome := service(request);
    }
  }

  /** One user turn per history item, in order, then the new message. */
  method BuildMessages(history: seq<string>, message: string) returns (messages: seq<ChatMessage>)
    ensures |messages| == |history| + 1
    ensures forall i :: 0 <= i < |history| ==> messages[i] == ChatMessage(User, history[i])
    ensures messages[|history|] == ChatMessage(User, message)
  {
    messages := [];
    var i := 0;
    while i < |history|
      invariant 0 <= i <= |history|
      invariant |messages| == i
      invariant forall k :: 0 <= k < i ==> messages[k] == ChatMessage(User, history[k])
    {
      messages := messages + [ChatMessage(User, history[i])];
      i := i + 1;
    }
    messages := messages + [ChatMessage(User, message)];
  }

  /** The request for a message the gate admits. */
  function RequestFor(model: string, maxTokens: int, prompt: string, messages: seq<ChatMessage>)
    : (request: ChatRequest)
    ensures |request.messages| == |messages| + 1
    ensures request.messages[0] == ChatMessage(System, prompt)
    ensures request.messages[1..] == messages
    ensures request.model == model && request.maxTokens == maxTokens
    ensures request.temperature == RequestTemperature
  {
    ChatRequest(model, [ChatMessage(System, prompt)] + messages, maxTokens, RequestTemperature)
  }

  /** The text returned to the browser: the answer, or `"Error: " + str(e)`. */
  function ReplyText(outcome: Completion): (reply: string)
    ensures outcome.Answer? ==> reply == outcome.text
    ensures outcome.Failure? ==> reply == "Error: " + outcome.error
  {
    match outcome
    case Answer(text) => text
    case Failure(error) => "Error: " + error
  }

  /**
    * `chat_with_groq(user_message, location_context, conversation_history)`. A message the
    * gate rejects gets the redirect and the service is not called; any other message leads to
    * exactly one request: the system prompt, each history item as a user turn, and the
    * message last.
    */
  method ChatWithGroq(client: CompletionClient, message: string, context: Option<LocationRecord>,
                      history: seq<string>)
    returns (reply: string)
    modifies client
    ensures !Gate.IsTravelQuery(message) ==>
      && client.sent == old(client.sent)
      && reply == Redirect.RedirectMessage(SelectedLocation(context), message)
    ensures Gate.IsTravelQuery(message) ==>
      && |client.sent| == |old(client.sent)| + 1
      && client.sent[..|old(client.sent)|] == old(client.sent)
      && var request := client.sent[|old(client.sent)|];
      && request.model == client.model && request.maxTokens == client.maxTokens
      && request.temperature == RequestTemperature
      && |request.messages| == |history| + 2
      && request.messages[0] == ChatMessage(System, Prompt.BuildSystemPrompt(context))
      && (forall i :: 0 <= i < |history| ==> request.messages[i + 1] == ChatMessage(User, history[i]))
      && request.messages[|history| + 1] == ChatMessage(User, message)
      && reply == ReplyText(client.service(request))
  {
    if !Gate.IsTravelQuery(message) {
      var locationName := SelectedLocation(context);
      return Redirect.RedirectMessage(locationName, message);
    }
    var systemPrompt := Prompt.BuildSystemPrompt(context);
    var messages := BuildMessages(history, message);
    var request := RequestFor(client.model, client.maxTokens, systemPrompt, messages);
    var outcome := client.Create(request);
    reply := ReplyText(outcome);
  }
}
