/** The two responders of ZimChemBot, as values: what each one sends to the
    remote model, what it answers, and what it leaves in the store. The remote
    model is an oracle, a total function from the request to either a
    completion or an error text. */
module Responder {
  import opened Conversation

  /** One part of a multi-part user message. */
  datatype Part = TextPart(text: string) | ImageUrlPart(url: string)

  /** A message of a remote request: a plain `{role, content}` turn, or a turn
      whose content is a list of parts. */
  datatype Message = Plain(turn: Turn) | WithParts(role: Role, parts: seq<Part>)

  /** A chat-completion request. The sampling temperature of the text call is
      not recorded. */
  datatype Request = Request(model: string, messages: seq<Message>, maxTokens: nat)

  /** What the remote model does with a request: the content of its first
      choice, or the text of the exception raised. */
  datatype RemoteResult = Completion(content: string) | Failure(error: string)

  type Remote = Request -> RemoteResult

  const TEXT_MODEL: string := "gpt-3.5-turbo"
  const IMAGE_MODEL: string := "gpt-4o-mini"
  const TEXT_MAX_TOKENS: nat := 800
  const IMAGE_MAX_TOKENS: nat := 1000
  const TEXT_APOLOGY: string := "Sorry, I'm having trouble right now. Error: "
  const IMAGE_APOLOGY: string := "Sorry, I couldn't analyze the image. Error: "
  const IMAGE_MARKER: string := "[Image uploaded] "
  const JPEG_DATA_URL: string := "data:image/jpeg;base64,"

  /** A history as a list of plain messages, turn for turn. */
  function Plains(h: seq<Turn>): (ms: seq<Message>)
    ensures |ms| == |h|
    ensures forall i :: 0 <= i < |h| ==> ms[i] == Plain(h[i])
  {
    if h == [] then [] else [Plain(h[0])] + Plains(h[1..])
  }

  /** The text request: the whole retained history. */
  function TextRequest(h: seq<Turn>): Request {
    Request(TEXT_MODEL, Plains(h), TEXT_MAX_TOKENS)
  }

  /** The image request: the system turn and one user turn holding the text
      and the inline image; no stored history. */
  function ImageRequest(imageData: string, userMessage: string): Request {
    Request(IMAGE_MODEL,
            [Plain(SystemTurn()),
             WithParts(User, [TextPart(userMessage), ImageUrlPart(JPEG_DATA_URL + imageData)])],
            IMAGE_MAX_TOKENS)
  }

  /** One responder call: the request sent, the text answered, the new store. */
  datatype Exchange = Exchange(sent: Request, response: string, store: Store)

  /** `get_text_response`: store the user turn, send the history, store and
      return the reply; on failure return the apology and keep the user turn. */
  function TextExchange(m: Store, userId: string, userMessage: string, remote: Remote): Exchange {
    var asked := Add(m, userId, Turn(User, userMessage));
    var sent := TextRequest(Lookup(asked, userId));
    match remote(sent)
    case Completion(reply) => Exchange(sent, reply, Add(asked, userId, Turn(Assistant, reply)))
    case Failure(error) => Exchange(sent, TEXT_APOLOGY + error, asked)
  }

  /** `analyze_image`: store the marked user turn, send system turn plus the
      current turn, store and return the reply; on failure return the
      apology and keep the user turn. */
  function ImageExchange(m: Store, userId: string, imageData: string, userMessage: string,
                         remote: Remote): Exchange
  {
    var asked := Add(m, userId, Turn(User, IMAGE_MARKER + userMessage));
    var sent := ImageRequest(imageData, userMessage);
    match remote(sent)
    case Completion(reply) => Exchange(sent, reply, Add(asked, userId, Turn(Assistant, reply)))
    case Failure(error) => Exchange(sent, IMAGE_APOLOGY + error, asked)
  }

  // ---------------------------------------------------------------------------
  // The store updates both responders make

  /** Storing the user turn keeps the store valid, writes only this user's
      entry, and leaves the user turn last. */
  lemma UserTurnStored(m: Store, userId: string, user: Turn)
    requires StoreValid(m)
    ensures var asked := Add(m, userId, user);
      && StoreValid(asked)
      && asked.Keys == m.Keys + {userId}
      && (forall u :: u in m && u != userId ==> asked[u] == m[u])
      && asked[userId][|asked[userId]| - 1] == user
  {
    AddValid(m, userId, user);
    AddTouchesOnlyUser(m, userId, user);
  }

  /** Storing the user turn and then the reply keeps the store valid, writes
      only this user's entry, and leaves the two turns last, in that order. */
  lemma ReplyStored(m: Store, userId: string, user: Turn, reply: string)
    requires StoreValid(m)
    ensures var done := Add(Add(m, userId, user), userId, Turn(Assistant, reply));
      var h := done[userId];
      && StoreValid(done)
      && done.Keys == m.Keys + {userId}
      && (forall u :: u in m && u != userId ==> done[u] == m[u])
      && |h| >= 3 && h[|h| - 2] == user && h[|h| - 1] == Turn(Assistant, reply)
  {
    var answer := Turn(Assistant, reply);
    var asked := Add(m, userId, user);
    UserTurnStored(m, userId, user);
    AddValid(asked, userId, answer);
    AddTouchesOnlyUser(asked, userId, answer);
    SeededValid(m, userId);
    TwoAppendsEndWith(Lookup(m, userId), user, answer);
  }

  /** Two appends to a well-formed history leave the two new turns last, in
      order. */
  lemma TwoAppendsEndWith(h: seq<Turn>, first: Turn, second: Turn)
    requires WellFormed(h)
    ensures var r := Appended(Appended(h, first), second);
      |r| >= 3 && r[|r| - 2] == first && r[|r| - 1] == second
  {
    var h1 := Appended(h, first);
    AppendedWellFormed(h, first);
    AppendedBounds(h, first);
    AppendedBounds(h1, second);
    AppendedFromEnd(h1, second, 1);
  }

  // ---------------------------------------------------------------------------
  // Text path

  /** The text call sends the user's history after the new user turn was
      appended (and trimmed): it starts with the system turn, ends with that
      user turn, and is never longer than MAX_HISTORY. */
  lemma TextSendsRetainedHistory(m: Store, userId: string, userMessage: string, remote: Remote)
    requires StoreValid(m)
    ensures var e := TextExchange(m, userId, userMessage, remote);
      var ms := e.sent.messages;
      && e.sent.model == TEXT_MODEL
      && ms == Plains(Appended(Lookup(m, userId), Turn(User, userMessage)))
      && 2 <= |ms| <= MAX_HISTORY
      && ms[0] == Plain(SystemTurn())
      && ms[|ms| - 1] == Plain(Turn(User, userMessage))
  {
    SeededValid(m, userId);
    AppendedWellFormed(Lookup(m, userId), Turn(User, userMessage));
    AppendedBounds(Lookup(m, userId), Turn(User, userMessage));
  }

  /** What a text call leaves behind. On success the reply is returned and
      the history has grown by the user turn and then the assistant turn; on
      failure the apology with the error text is returned and only the user
      turn was added. Either way only this user's entry changed and the store
      stays valid. */
  lemma TextOutcome(m: Store, userId: string, userMessage: string, remote: Remote)
    requires StoreValid(m)
    ensures var e := TextExchange(m, userId, userMessage, remote);
      var asked := Add(m, userId, Turn(User, userMessage));
      var h := e.store[userId];
      && StoreValid(e.store)
      && e.store.Keys == m.Keys + {userId}
      && (forall u :: u in m && u != userId ==> e.store[u] == m[u])
      && match remote(e.sent)
         case Completion(reply) =>
           && e.response == reply
           && e.store == Add(asked, userId, Turn(Assistant, reply))
           && |h| >= 3 && h[|h| - 2] == Turn(User, userMessage) && h[|h| - 1] == Turn(Assistant, reply)
         case Failure(error) =>
           && e.response == TEXT_APOLOGY + error
           && e.store == asked
           && h[|h| - 1] == Turn(User, userMessage)
  {
    var user := Turn(User, userMessage);
    var asked := Add(m, userId, user);
    var sent := TextRequest(Lookup(asked, userId));
    var e := TextExchange(m, userId, userMessage, remote);
    assert e.sent == sent;
    match remote(sent)
    case Completion(reply) =>
      assert e == Exchange(sent, reply, Add(asked, userId, Turn(Assistant, reply)));
      ReplyStored(m, userId, user, reply);
    case Failure(error) =>
      assert e == Exchange(sent, TEXT_APOLOGY + error, asked);
      UserTurnStored(m, userId, user);
  }

  /** The text call sends the stored history of `userId` after the new user
      turn was appended and trimmed. */
  lemma TextSent(m: Store, userId: string, userMessage: string, remote: Remote)
    ensures TextExchange(m, userId, userMessage, remote).sent
      == TextRequest(Appended(Lookup(m, userId), Turn(User, userMessage)))
  {
  }

  /** Two text messages in a row from one user: when the first is answered,
      the second call sends the first message, its answer and the second
      message as its last three turns, whatever was trimmed. */
  lemma SecondTextCallCarriesFirstExchange(m: Store, userId: string, first: string, second: string,
                                           remote: Remote)
    requires StoreValid(m)
    requires remote(TextExchange(m, userId, first, remote).sent).Completion?
    ensures var e1 := TextExchange(m, userId, first, remote);
      var ms := TextExchange(e1.store, userId, second, remote).sent.messages;
      && |ms| >= 4
      && ms[|ms| - 3] == Plain(Turn(User, first))
      && ms[|ms| - 2] == Plain(Turn(Assistant, e1.response))
      && ms[|ms| - 1] == Plain(Turn(User, second))
  {
    var user := Turn(User, first);
    var asked := Add(m, userId, user);
    var sent := TextRequest(Lookup(asked, userId));
    var reply := remote(sent).content;
    var e1 := TextExchange(m, userId, first, remote);
    assert e1 == Exchange(sent, reply, Add(asked, userId, Turn(Assistant, reply)));
    ReplyStored(m, userId, user, reply);
    var h := e1.store[userId];
    TextSent(e1.store, userId, second, remote);
    LastThreeSent(h, Turn(User, second));
  }

  /** The text request built after appending `t` to a well-formed history of
      at least three turns ends with the last two old turns and then `t`. */
  lemma LastThreeSent(h: seq<Turn>, t: Turn)
    requires WellFormed(h) && |h| >= 3
    ensures var ms := Plains(Appended(h, t));
      && |ms| >= 4
      && ms[|ms| - 3] == Plain(h[|h| - 2])
      && ms[|ms| - 2] == Plain(h[|h| - 1])
      && ms[|ms| - 1] == Plain(t)
  {
    AppendedBounds(h, t);
    AppendedFromEnd(h, t, 1);
    AppendedFromEnd(h, t, 2);
  }

  // ---------------------------------------------------------------------------
  // Image path

  /** The image call sends exactly two messages, the system turn and one user
      turn with the text and the image, and the same request whatever the
      store holds: no stored history is replayed. The equal answers follow
      from the oracle being one fixed function of the request: under a fixed
      oracle the answer does not depend on the store. */
  lemma ImageSendsOnlyCurrentTurn(m1: Store, m2: Store, userId: string, imageData: string,
                                  userMessage: string, remote: Remote)
    ensures var e1 := ImageExchange(m1, userId, imageData, userMessage, remote);
      var e2 := ImageExchange(m2, userId, imageData, userMessage, remote);
      && e1.sent == e2.sent
      && e1.response == e2.response
      && e1.sent.model == IMAGE_MODEL
      && |e1.sent.messages| == 2
      && e1.sent.messages[0] == Plain(SystemTurn())
      && e1.sent.messages[1].WithParts?
      && e1.sent.messages[1].role == User
      && e1.sent.messages[1].parts == [TextPart(userMessage), ImageUrlPart(JPEG_DATA_URL + imageData)]
  {
  }

  /** What an image call leaves behind: the stored user turn is the marked
      message; on success the reply is returned and stored after it, on
      failure the apology with the error text is returned and only the user
      turn was added. Only this user's entry changed and the store stays
      valid. */
  lemma ImageOutcome(m: Store, userId: string, imageData: string, userMessage: string, remote: Remote)
    requires StoreValid(m)
    ensures var e := ImageExchange(m, userId, imageData, userMessage, remote);
      var user := Turn(User, IMAGE_MARKER + userMessage);
      var asked := Add(m, userId, user);
      var h := e.store[userId];
      && StoreValid(e.store)
      && e.store.Keys == m.Keys + {userId}
      && (forall u :: u in m && u != userId ==> e.store[u] == m[u])
      && match remote(e.sent)
         case Completion(reply) =>
           && e.response == reply
           && e.store == Add(asked, userId, Turn(Assistant, reply))
           && |h| >= 3 && h[|h| - 2] == user && h[|h| - 1] == Turn(Assistant, reply)
         case Failure(error) =>
           && e.response == IMAGE_APOLOGY + error
           && e.store == asked
           && h[|h| - 1] == user
  {
    var user := Turn(User, IMAGE_MARKER + userMessage);
    var asked := Add(m, userId, user);
    var sent := ImageRequest(imageData, userMessage);
    var e := ImageExchange(m, userId, imageData, userMessage, remote);
    assert e.sent == sent;
    match remote(sent)
    case Completion(reply) =>
      assert e == Exchange(sent, reply, Add(asked, userId, Turn(Assistant, reply)));
      ReplyStored(m, userId, user, reply);
    case Failure(error) =>
      assert e == Exchange(sent, IMAGE_APOLOGY + error, asked);
      UserTurnStored(m, userId, user);
  }
}
