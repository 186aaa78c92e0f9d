/**
 * The chat window's conversation state (`ChatInterface` in
 * src/components/ChatInterface.tsx): the message list, the text being typed,
 * the loading flag and the error line. Sending a message is split at its one
 * `await`: `Submit` is everything before the request leaves, `Complete` is
 * everything after its outcome is known. Timestamps are not modelled.
 */
module ChatSession {
  import opened Common
  import opened Strings
  import Profile
  import ChatRoute

  datatype Role = User | Assistant

  /** One message shown in the chat window. */
  datatype Message = Message(role: Role, content: string)

  /** What the browser sends to the chat route: the trimmed text and the conversation before it. */
  datatype Request = Request(message: string, history: seq<Message>)

  /**
   * How the request ended: a 2xx answer carrying the reply, a non-2xx answer
   * carrying the body's `error` field if any, or an exception (network failure,
   * unreadable body).
   */
  datatype Outcome = Replied(reply: string) | Refused(errorField: Option<string>) | Threw(err: Thrown)

  function RoleName(r: Role): (name: string)
    ensures name == "user" <==> r == User
    ensures name == "assistant" <==> r == Assistant
  {
    match r
    case User => "user"
    case Assistant => "assistant"
  }

  /** The `history` array as sent: each message reduced to its role and content, in order. */
  function Wire(history: seq<Message>): (w: seq<ChatRoute.ChatMessage>)
    ensures |w| == |history|
    ensures forall i :: 0 <= i < |history| ==>
      w[i] == ChatRoute.ChatMessage(RoleName(history[i].role), history[i].content)
  {
    if history == [] then []
    else [ChatRoute.ChatMessage(RoleName(history[0].role), history[0].content)] + Wire(history[1..])
  }

  /** The error line after a failed request. */
  function FailureText(o: Outcome): (text: string)
    requires !o.Replied?
    ensures o.Refused? && Truthy(o.errorField) ==> text == o.errorField.value
    ensures o.Refused? && !Truthy(o.errorField) ==> text == "Failed to get response"
    ensures o.Threw? && o.err.ErrorObject? ==> text == o.err.message
    ensures o.Threw? && o.err.NonError? ==> text == "Failed to get response. Please try again."
  {
    match o
    case Refused(field) => OrElse(field, "Failed to get response")
    case Threw(err) => MessageOr(err, "Failed to get response. Please try again.")
  }

  /**
   * The shape the window keeps: user and assistant messages alternate starting
   * with the user, every user message is trimmed and not empty, and the list
   * has odd length exactly while a request is in flight (its last message is
   * the one waiting for an answer).
   */
  ghost predicate Conversation(msgs: seq<Message>, pending: bool)
  {
    && (|msgs| % 2 == 1 <==> pending)
    && (forall i :: 0 <= i < |msgs| ==> msgs[i].role == (if i % 2 == 0 then User else Assistant))
    && (forall i :: 0 <= i < |msgs| && msgs[i].role == User ==>
          msgs[i].content != [] && IsTrimmed(msgs[i].content))
  }

  /** Appending the user's message to a resting conversation leaves one waiting for an answer. */
  lemma {:induction false} AskKeepsConversation(msgs: seq<Message>, text: string)
    requires Conversation(msgs, false) && text != [] && IsTrimmed(text)
    ensures Conversation(msgs + [Message(User, text)], true)
  {
    var next := msgs + [Message(User, text)];
    forall i | 0 <= i < |next| ensures next[i].role == (if i % 2 == 0 then User else Assistant) {
      if i < |msgs| { assert next[i] == msgs[i]; }
    }
  }

  /** Appending the reply to a waiting conversation brings it to rest. */
  lemma {:induction false} ReplyKeepsConversation(msgs: seq<Message>, reply: string)
    requires Conversation(msgs, true)
    ensures Conversation(msgs + [Message(Assistant, reply)], false)
  {
    var next := msgs + [Message(Assistant, reply)];
    forall i | 0 <= i < |next| ensures next[i].role == (if i % 2 == 0 then User else Assistant) {
      if i < |msgs| { assert next[i] == msgs[i]; }
    }
  }

  /** Dropping the waiting message brings a conversation back to rest. */
  lemma {:induction false} DropKeepsConversation(msgs: seq<Message>)
    requires Conversation(msgs, true)
    ensures Conversation(msgs[..|msgs| - 1], false)
  {
  }

  class ChatWindow {
    var messages: seq<Message>
    var input: string
    var isLoading: bool
    var error: Option<string>

    ghost predicate Valid()
      reads this
    {
      Conversation(messages, isLoading)
    }

    constructor ()
      ensures Valid()
      ensures messages == [] && input == "" && !isLoading && error == None
    {
      messages := [];
      input := "";
      isLoading := false;
      error := None;
    }

    /** The text area's change handler. */
    method SetInput(text: string)
      requires Valid()
      modifies this
      ensures Valid()
      ensures input == text
      ensures messages == old(messages) && isLoading == old(isLoading) && error == old(error)
    {
      input := text;
    }

    /**
     * The submit handler up to the request: a blank input or a request in flight
     * does nothing; otherwise the trimmed input is appended as a user message,
     * the input and error are cleared, loading starts, and the request carries
     * the trimmed text with the conversation as it was before.
     */
    method Submit() returns (sent: Option<Request>)
      requires Valid()
      modifies this
      ensures Valid()
      ensures Trim(old(input)) == [] || old(isLoading) ==>
        && sent.None?
        && messages == old(messages) && input == old(input) && isLoading == old(isLoading) && error == old(error)
      ensures Trim(old(input)) != [] && !old(isLoading) ==>
        && sent == Some(Request(Trim(old(input)), old(messages)))
        && messages == old(messages) + [Message(User, Trim(old(input)))]
        && input == [] && error.None? && isLoading
    {
      if Trim(input) == [] || isLoading {
        return None;
      }
      var userMessage := Trim(input);
      AskKeepsConversation(messages, userMessage);
      input := [];
      error := None;
      isLoading := true;
      sent := Some(Request(userMessage, messages));
      messages := messages + [Message(User, userMessage)];
    }

    /**
     * The rest of the submit handler: a reply is appended as an assistant
     * message; a failure removes the waiting user message and shows the error
     * line; either way loading ends.
     */
    method Complete(outcome: Outcome)
      requires Valid() && isLoading
      modifies this
      ensures Valid() && !isLoading && input == old(input)
      ensures outcome.Replied? ==>
        messages == old(messages) + [Message(Assistant, outcome.reply)] && error == old(error)
      ensures !outcome.Replied? ==>
        messages == old(messages)[..|old(messages)| - 1] && error == Some(FailureText(outcome))
    {
      if outcome.Replied? {
        ReplyKeepsConversation(messages, outcome.reply);
        messages := messages + [Message(Assistant, outcome.reply)];
      } else {
        DropKeepsConversation(messages);
        error := Some(FailureText(outcome));
        messages := messages[..|messages| - 1];
      }
      isLoading := false;
    }
  }

  /** The body the chat route receives for a request sent with profile `p`. */
  function Body(req: Request, p: Profile.UserProfile): (body: ChatRoute.Body)
    ensures body.Json? && body.request.message == Some(req.message)
    ensures body.request.userProfile == Some(p)
    ensures body.request.history == ChatRoute.HistoryArray(Wire(req.history))
  {
    ChatRoute.Json(ChatRoute.ChatRequest(Some(req.message), Some(p), ChatRoute.HistoryArray(Wire(req.history))))
  }

  /**
   * A request the window sends always passes the route's validation: the route
   * forwards the system prompt, then the earlier conversation with its roles
   * and order kept, then the new message.
   */
  lemma {:induction false} SentRequestIsForwarded(req: Request, p: Profile.UserProfile)
    requires req.message != [] && IsTrimmed(req.message)
    ensures var r := ChatRoute.Respond(Body(req, p));
      && r.Forwarded?
      && |r.upstream| == |req.history| + 2
      && r.upstream[0] == ChatRoute.ChatMessage("system", ChatRoute.SystemPrompt(p))
      && r.upstream[1..|r.upstream| - 1] == Wire(req.history)
      && r.upstream[|r.upstream| - 1] == ChatRoute.ChatMessage("user", req.message)
  {
    var body := Body(req, p);
    assert !ChatRoute.MessageBlank(body.request.message) by {
      TrimTrimmed(req.message);
    }
    var r := ChatRoute.Respond(body);
    assert r.Forwarded?;
    assert r.upstream == ChatRoute.UpstreamMessages(ChatRoute.SystemPrompt(p), body.request.history, req.message);
  }
}
