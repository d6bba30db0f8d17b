/** ZimChemBot: the object that owns the conversation store and answers text
    and image queries through the remote model. Its methods update the store
    in place, step by step, as the bot does; each one is proved against the
    value-level specification in modules Conversation and Responder. */
module ChemBot {
  import opened Conversation
  import opened Responder

  class ZimChemBot {
    /** User id to history. */
    var conversations: Store

    /** Object invariant: every stored history starts with the system turn
        and is at most MAX_HISTORY long. */
    ghost predicate Valid()
      reads this
    {
      StoreValid(conversations)
    }

    constructor ()
      ensures Valid()
      ensures conversations == map[]
    {
      conversations := map[];
    }

    /** Returns the history of `userId`, creating it with the system turn when
        the id is new. Nothing else in the store changes. */
    method GetConversationHistory(userId: string) returns (history: seq<Turn>)
      requires Valid()
      modifies this
      ensures Valid()
      ensures history == Lookup(old(conversations), userId)
      ensures conversations == Seeded(old(conversations), userId)
      ensures history == conversations[userId] && history[0] == SystemTurn()
    {
      SeededValid(conversations, userId);
      if userId !in conversations {
        conversations := conversations[userId := [SystemTurn()]];
      }
      history := conversations[userId];
    }

    /** Appends one turn to the history of `userId`; when the history then
        exceeds MAX_HISTORY, it is replaced by its first turn and its WINDOW
        most recent turns. */
    method AddToConversation(userId: string, role: Role, content: string)
      requires Valid()
      modifies this
      ensures Valid()
      ensures conversations == Add(old(conversations), userId, Turn(role, content))
    {
      ghost var before := conversations;
      AddValid(before, userId, Turn(role, content));
      AppendedTrimsOnlyPastThreshold(Lookup(before, userId), Turn(role, content));
      var history := GetConversationHistory(userId);
      history := history + [Turn(role, content)];
      // the in-place append is visible through the stored entry
      conversations := conversations[userId := history];
      if |history| > MAX_HISTORY {
        history := [history[0]] + history[|history| - WINDOW..];
        conversations := conversations[userId := history];
      }
      assert history == Appended(Lookup(before, userId), Turn(role, content));
    }

    /** Answers an image query: stores the marked user turn, sends the system
        turn and the current turn to the remote model, stores and returns the
        reply, or returns the image apology with the error text. `sent` is the
        request the remote model received. */
    method AnalyzeImage(imageData: string, userMessage: string, userId: string, remote: Remote)
      returns (response: string, ghost sent: Request)
      requires Valid()
      modifies this
      ensures Valid()
      ensures var e := ImageExchange(old(conversations), userId, imageData, userMessage, remote);
        sent == e.sent && response == e.response && conversations == e.store
    {
      AddToConversation(userId, User, IMAGE_MARKER + userMessage);
      var request := ImageRequest(imageData, userMessage);
      sent := request;
      match remote(request)
      case Completion(reply) =>
        AddToConversation(userId, Assistant, reply);
        response := reply;
      case Failure(error) =>
        response := IMAGE_APOLOGY + error;
    }

    /** Answers a text query: stores the user turn, sends the retained history
        to the remote model, stores and returns the reply, or returns the text
        apology with the error text. `sent` is the request the remote model
        received. */
    method GetTextResponse(userMessage: string, userId: string, remote: Remote)
      returns (response: string, ghost sent: Request)
      requires Valid()
      modifies this
      ensures Valid()
      ensures var e := TextExchange(old(conversations), userId, userMessage, remote);
        sent == e.sent && response == e.response && conversations == e.store
    {
      AddToConversation(userId, User, userMessage);
      ghost var asked := conversations;
      assert userId in asked;
      var messages := GetConversationHistory(userId);
      assert conversations == asked && messages == Lookup(asked, userId);
      var request := TextRequest(messages);
      sent := request;
      match remote(request)
      case Completion(reply) =>
        AddToConversation(userId, Assistant, reply);
        response := reply;
      case Failure(error) =>
        response := TEXT_APOLOGY + error;
    }
  }
}
