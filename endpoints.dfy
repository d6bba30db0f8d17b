/** The two HTTP endpoints with logic of their own: `/whatsapp`, which checks
    the JSON body and routes it to the image or the text responder, and
    `/users`, which summarises every stored history. */
module Endpoints {
  import opened Conversation
  import opened Responder
  import opened ChemBot

  datatype Option<T> = None | Some(value: T)

  /** A JSON object body, with string-valued fields. */
  type JsonObject = map<string, string>

  const DEFAULT_USER_ID: string := "unknown"
  const DEFAULT_IMAGE_PROMPT: string := "Analyze this image"
  const NO_DATA_ERROR: string := "No data provided"
  const NO_INPUT_ERROR: string := "No message or image provided"

  /** `d.get(key, default)`. */
  function Field(d: JsonObject, key: string, default: string): string {
    if key in d then d[key] else default
  }

  /** An image was supplied: the `image` field is present and not empty. */
  predicate HasImage(d: JsonObject) {
    "image" in d && d["image"] != ""
  }

  /** Where a `/whatsapp` request goes. */
  datatype Route =
    | Reject(error: string)
    | ToImage(userId: string, imageData: string, prompt: string)
    | ToText(userId: string, message: string)

  /** The validation and routing of `/whatsapp`: a missing or empty body, or a
      body with neither message nor image, is rejected; a body with an image
      goes to the image path, with a default prompt when the message is empty;
      any other body goes to the text path. */
  function RouteRequest(data: Option<JsonObject>): (r: Route)
    ensures r.Reject? <==>
      data.None? || data.value == map[] || (Field(data.value, "message", "") == "" && !HasImage(data.value))
    ensures r.Reject? ==>
      r.error == if data.None? || data.value == map[] then NO_DATA_ERROR else NO_INPUT_ERROR
    ensures r.ToImage? <==> data.Some? && HasImage(data.value)
    ensures r.ToImage? ==>
      && r.imageData == data.value["image"]
      && r.imageData != ""
      && r.prompt == (if Field(data.value, "message", "") == "" then DEFAULT_IMAGE_PROMPT
                      else data.value["message"])
    ensures r.ToText? ==>
      && !HasImage(data.value)
      && r.message == Field(data.value, "message", "")
      && r.message != ""
    ensures !r.Reject? ==> r.userId == Field(data.value, "user_id", DEFAULT_USER_ID)
  {
    if data.None? || data.value == map[] then Reject(NO_DATA_ERROR)
    else
      var userId := Field(data.value, "user_id", DEFAULT_USER_ID);
      var message := Field(data.value, "message", "");
      if message == "" && !HasImage(data.value) then Reject(NO_INPUT_ERROR)
      else if HasImage(data.value) then
        ToImage(userId, data.value["image"], if message == "" then DEFAULT_IMAGE_PROMPT else message)
      else ToText(userId, message)
  }

  /** The model name reported back to the caller. */
  function ModelUsed(imageSupplied: bool): string {
    if imageSupplied then IMAGE_MODEL else TEXT_MODEL
  }

  /** The reported model is the image model exactly when an image was
      supplied, and it is always the model the remote request named. */
  lemma ReportedModelMatchesRequest(m: Store, data: Option<JsonObject>, remote: Remote)
    requires data.Some?
    ensures (ModelUsed(HasImage(data.value)) == IMAGE_MODEL) <==> HasImage(data.value)
    ensures (ModelUsed(HasImage(data.value)) == TEXT_MODEL) <==> !HasImage(data.value)
    ensures match RouteRequest(data)
      case ToImage(u, img, prompt) =>
        ModelUsed(HasImage(data.value)) == ImageExchange(m, u, img, prompt, remote).sent.model
      case ToText(u, msg) =>
        ModelUsed(HasImage(data.value)) == TextExchange(m, u, msg, remote).sent.model
      case Reject(_) => true
  {
    assert IMAGE_MODEL[4] != TEXT_MODEL[4];
  }

  /** The reply of `/whatsapp`: an error with its status, or the answer with
      the user id and the model name. The constant `"success": True` field
      and the timestamp of a successful reply are not modelled. */
  datatype WhatsappReply =
    | Rejected(status: nat, error: string)
    | Answered(response: string, userId: string, modelUsed: string)

  /** The `/whatsapp` endpoint: rejected requests get status 400 and leave
      the store alone; accepted ones get the responder's answer, with the
      store updated as that responder specifies. */
  method Whatsapp(bot: ZimChemBot, data: Option<JsonObject>, remote: Remote) returns (reply: WhatsappReply)
    requires bot.Valid()
    modifies bot
    ensures bot.Valid()
    ensures match RouteRequest(data)
      case Reject(error) =>
        reply == Rejected(400, error) && bot.conversations == old(bot.conversations)
      case ToImage(u, img, prompt) =>
        var e := ImageExchange(old(bot.conversations), u, img, prompt, remote);
        reply == Answered(e.response, u, IMAGE_MODEL) && bot.conversations == e.store
      case ToText(u, msg) =>
        var e := TextExchange(old(bot.conversations), u, msg, remote);
        reply == Answered(e.response, u, TEXT_MODEL) && bot.conversations == e.store
  {
    var route := RouteRequest(data);
    match route
    case Reject(error) =>
      reply := Rejected(400, error);
    case ToImage(userId, imageData, prompt) =>
      var response, _ := bot.AnalyzeImage(imageData, prompt, userId, remote);
      reply := Answered(response, userId, ModelUsed(HasImage(data.value)));
    case ToText(userId, message) =>
      var response, _ := bot.GetTextResponse(message, userId, remote);
      reply := Answered(response, userId, ModelUsed(HasImage(data.value)));
  }

  // ---------------------------------------------------------------------------
  // /users

  const SNIPPET_LENGTH: nat := 100
  const ELLIPSIS: string := "..."
  const NO_MESSAGES: string := "No messages"

  /** Per-user statistics. */
  datatype UserStat = UserStat(messageCount: int, lastMessage: string)

  /** The summary of one history: the number of turns after the system turn,
      and a snippet of the last turn, or "No messages" when there is none. */
  function Summarize(h: seq<Turn>): (s: UserStat)
    ensures s.messageCount + 1 == |h|
    ensures |h| <= 1 ==> s.lastMessage == NO_MESSAGES
    ensures |h| > 1 ==>
      var last := h[|h| - 1].content;
      && |s.lastMessage| == (if |last| < SNIPPET_LENGTH then |last| else SNIPPET_LENGTH) + |ELLIPSIS|
      && s.lastMessage[..|s.lastMessage| - |ELLIPSIS|] <= last
      && s.lastMessage[|s.lastMessage| - |ELLIPSIS|..] == ELLIPSIS
  {
    if |h| > 1 then
      var last := h[|h| - 1].content;
      var snippet := if |last| < SNIPPET_LENGTH then last else last[..SNIPPET_LENGTH];
      UserStat(|h| - 1, snippet + ELLIPSIS)
    else UserStat(|h| - 1, NO_MESSAGES)
  }

  /** For a stored history the count lies between 0 and WINDOW, the snippet is
      at most 103 characters, and "No messages" is reported exactly when the
      history holds the system turn alone. */
  lemma SummaryOfStoredHistory(h: seq<Turn>)
    requires WellFormed(h)
    ensures var s := Summarize(h);
      && 0 <= s.messageCount <= WINDOW
      && |s.lastMessage| <= SNIPPET_LENGTH + |ELLIPSIS|
      && (s.lastMessage == NO_MESSAGES <==> s.messageCount == 0)
  {
    var s := Summarize(h);
    if |h| > 1 {
      assert s.lastMessage[|s.lastMessage| - 1] == '.';
      assert NO_MESSAGES[|NO_MESSAGES| - 1] == 's';
    }
  }

  /** The `/users` endpoint: the number of active users and the summary of
      every user's history. */
  method Users(bot: ZimChemBot) returns (activeUsers: nat, stats: map<string, UserStat>)
    ensures activeUsers == |bot.conversations|
    ensures stats.Keys == bot.conversations.Keys
    ensures forall u :: u in stats ==> stats[u] == Summarize(bot.conversations[u])
  {
    var conversations := bot.conversations;
    stats := map[];
    var pending := conversations.Keys;
    while pending != {}
      invariant pending <= conversations.Keys
      invariant stats.Keys == conversations.Keys - pending
      invariant forall u :: u in stats ==> stats[u] == Summarize(conversations[u])
      decreases pending
    {
      var userId :| userId in pending;
      stats := stats[userId := Summarize(conversations[userId])];
      pending := pending - {userId};
    }
    activeUsers := |conversations|;
  }
}
