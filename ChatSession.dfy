/**
  * The browser's conversation state (`conversationHistory` in
  * travel_planner/static/script.js): every message the user sends is trimmed, appended to
  * the history and posted together with the whole history; clearing the chat empties it.
  * The bot's replies are never added.
  *
  * `Exchange` follows one message from the browser through the chat route to the router,
  * which shows that the newest message reaches the completion service twice: once as the
  * last history item and once as the message itself.
  */
module ChatSession {
  import opened Text
  import opened Wrappers
  import opened Locations
  import Router
  import Gate
  import Redirect
  import Prompt

  /** The JSON body posted to `/api/chat`. */
  datatype ChatPost = ChatPost(message: string, location: string, history: seq<string>)

  class Conversation {
    /** The messages sent since the page was loaded or the chat was cleared, oldest first. */
    var history: seq<string>

    constructor ()
      ensures history == []
    {
      history := [];
    }

    /**
      * `sendMessage()`: a message that is empty once trimmed is ignored; any other is
      * appended to the history, trimmed, before the history is posted with it.
      */
    method SendMessage(input: string, location: string) returns (post: Option<ChatPost>)
      modifies this
      ensures JsTrim(input) == "" ==> post == None && history == old(history)
      ensures JsTrim(input) != "" ==>
        && history == old(history) + [JsTrim(input)]
        && post == Some(ChatPost(JsTrim(input), location, history))
    {
      var message := JsTrim(input);
      if message == "" {
        return None;
      }
      history := history + [message];
      post := Some(ChatPost(message, location, history));
    }

    /** `clearChat()`. */
    method ClearChat()
      modifies this
      ensures history == []
    {
      history := [];
    }
  }

  /** A posted history always ends with the posted message. */
  lemma PostedHistoryEndsWithMessage(h: seq<string>, input: string, location: string)
    requires JsTrim(input) != ""
    ensures var post := ChatPost(JsTrim(input), location, h + [JsTrim(input)]);
      && |post.history| == |h| + 1
      && post.history[|h|] == post.message
      && post.history[..|h|] == h
  {
    assert (h + [JsTrim(input)])[..|h|] == h;
  }

  /** The chat route's `get_location_context(location) if location else None`. */
  function RouteContext(table: seq<(string, LocationRecord)>, location: string): Option<LocationRecord> {
    if location != "" then Lookup(table, location) else None
  }

  /**
    * One message from the browser to the completion service: the chat route looks the
    * selected destination up (none when nothing is selected) and hands message and history
    * to the router. Requests already sent are kept. A blank message sends nothing; a message
    * the gate rejects sends nothing either and gets the redirect; an admitted message sends
    * one request, opened by the destination's system prompt, whose last two turns are both
    * the message, and gets the service's answer.
    */
  method Exchange(conversation: Conversation, client: Router.CompletionClient,
                  table: seq<(string, LocationRecord)>, input: string, location: string)
    returns (reply: Option<string>)
    modifies conversation, client
    ensures JsTrim(input) == "" ==>
      reply == None && conversation.history == old(conversation.history)
      && client.sent == old(client.sent)
    ensures JsTrim(input) != "" ==>
      && conversation.history == old(conversation.history) + [JsTrim(input)]
      && reply.Some?
    ensures |client.sent| >= |old(client.sent)| && client.sent[..|old(client.sent)|] == old(client.sent)
    ensures JsTrim(input) != "" && !Gate.IsTravelQuery(JsTrim(input)) ==>
      && client.sent == old(client.sent)
      && reply == Some(Redirect.RedirectMessage(SelectedLocation(RouteContext(table, location)),
                                                JsTrim(input)))
    ensures JsTrim(input) != "" && Gate.IsTravelQuery(JsTrim(input)) ==>
      && |client.sent| == |old(client.sent)| + 1
      && var request := client.sent[|old(client.sent)|];
      && var n := |old(conversation.history)|;
      && |request.messages| == n + 3
      && request.messages[0] ==
           Router.ChatMessage(Router.System, Prompt.BuildSystemPrompt(RouteContext(table, location)))
      && request.messages[n + 1] == Router.ChatMessage(Router.User, JsTrim(input))
      && request.messages[n + 2] == Router.ChatMessage(Router.User, JsTrim(input))
      && reply == Some(Router.ReplyText(client.service(request)))
  {
    var post := conversation.SendMessage(input, location);
    if post.None? {
      return None;
    }
    var context: Option<LocationRecord> := None;
    if post.value.location != "" {
      context := GetLocationContext(table, post.value.location);
    }
    ghost var n := |conversation.history| - 1;
    ghost var before := client.sent;
    var message, history := post.value.message, post.value.history;
    assert |history| == n + 1 && history[n] == message;
    var text := Router.ChatWithGroq(client, message, context, history);
    if Gate.IsTravelQuery(message) {
      ghost var request := client.sent[|before|];
      assert request.messages[n + 1] == Router.ChatMessage(Router.User, history[n]);
    }
    reply := Some(text);
  }
}
