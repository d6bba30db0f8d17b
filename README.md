# ZimChem bot: conversation store and responders

ZimChem is a chemistry assistant served over HTTP. It keeps a short rolling
conversation history per user id and forwards text or image queries to a
remote language model. This project models the part of it with logic of its
own:

- the per-user conversation store of `ZimChemBot` (`conversation.dfy`, module
  `Conversation`, as values; `bot.dfy`, class `ChemBot.ZimChemBot`, as the
  object that updates it in place). A missing history is created lazily with
  the fixed system turn. Every append is followed by a trim: a history longer
  than 21 turns becomes the system turn plus the 20 most recent turns;
- the two responders, text and image (`responder.dfy`, module `Responder`,
  and the methods of `ZimChemBot`). Each is a fixed sequence of store updates
  around one remote call. The remote model is an oracle: a total function
  `Remote` from the request to `Completion(content)` or `Failure(error)`.
  The methods return, as a ghost out-parameter, the request the oracle
  received, so the contracts can say what was sent;
- the validation and routing of `POST /whatsapp`, and the per-user summary
  of `GET /users` (`endpoints.dfy`, module `Endpoints`).

`App.py` and `app.py` are byte-identical, so one model covers both. The
table cites `app.py`; the same lines hold the same code in `App.py`.

The main facts proved:

- every reachable store is valid: each history starts with the system turn
  and has at most 21 turns (`ReplayValid`, `ReachableStoresValid`);
- an append trims only past the threshold, then drops exactly the oldest
  non-system turn, and keeps the order of what survives;
- an append writes one key only;
- the text call sends the whole retained history, ending with the new user
  turn. The image call sends only the system turn and the current turn,
  whatever the store holds;
- on failure each responder returns its apology with the error text appended.
  The user turn stays stored and no assistant turn is added;
- routing rejects exactly the bodies with neither message nor image, and the
  reported model name follows image presence.

## Model

| member | source | states |
|---|---|---|
| `Conversation.LookupSeeds` | app.py:29-34 | an unknown id gets exactly the one-turn system history; a known id leaves the store unchanged; a second lookup is a no-op and returns the same history |
| `Conversation.SeededValid` | app.py:29-34 | a lookup keeps every stored history well formed, and the history it returns is well formed |
| `Conversation.AppendedBounds` | app.py:38-43 | for any history, an append yields min(len + 1, 21) turns, ends with the new turn and keeps the first turn |
| `Conversation.AppendedTrimsOnlyPastThreshold` | app.py:40-43 | up to 21 turns after the append nothing is trimmed; beyond that the result is the first turn followed by the 20 most recent turns |
| `Conversation.AppendedWellFormed` | app.py:38-43 | an append keeps a history well formed; below 21 turns it just adds the turn; at 21 it stays at 21 and the oldest non-system turn is gone |
| `Conversation.AppendedKeepsOrder` | app.py:38-43 | after an append the history is the system turn, then the most recent old turns as one run in their old order, then the new turn |
| `Conversation.AppendedKeepsRecent` | app.py:38-43 | the k most recent turns (k < 20) survive an append unchanged, just before the new turn |
| `Conversation.AddTouchesOnlyUser` | app.py:36-43 | an append changes only the entry of the given user id; every other key keeps its history; the key set grows by at most that id |
| `Conversation.AddValid` | app.py:36-43 | an append keeps the store invariant, and the written history ends with the new turn |
| `Conversation.ReplayValid` | app.py:29-43 | after any series of appends every history still starts with the system turn and has at most 21 turns; the keys are the old keys plus the ids written to |
| `Conversation.ReachableStoresValid` | app.py:13-43 | every store reachable from the empty store by appends is valid and holds exactly the ids written to |
| `Responder.Plains` | app.py:77-81 | the text request carries the history turn for turn, same length, same order |
| `Responder.UserTurnStored` | app.py:76 | storing the user turn keeps the store valid, writes only that user's entry and leaves the user turn last |
| `Responder.ReplyStored` | app.py:86-88 | storing the user turn and then the reply keeps the store valid, writes only that user's entry and leaves user turn then assistant turn last |
| `Responder.TextSendsRetainedHistory` | app.py:76-84 | the text call sends the history after the new user turn was appended and trimmed: it starts with the system turn, ends with that user turn and has 2 to 21 messages |
| `Responder.TextOutcome` | app.py:74-91 | on success the reply is returned and stored after the user turn; on failure the text apology plus the error text is returned and only the user turn was added; only that user's entry changes |
| `Responder.SecondTextCallCarriesFirstExchange` | app.py:74-88 | after an answered text message, the next text call from that user sends the first message, its answer and the new message as its last three turns |
| `Responder.LastThreeSent` | app.py:40-43 | a text request built after an append ends with the two turns that were last before it and then the new turn |
| `Responder.ImageSendsOnlyCurrentTurn` | app.py:49-65 | the image call sends exactly two messages, the system turn and a user turn with the text part and the inline JPEG data URL; the request is the same whatever the stored history; under a fixed oracle, the answer does not depend on the store either |
| `Responder.ImageOutcome` | app.py:45-72 | the stored user turn is "[Image uploaded] " plus the message; on success the reply is returned and stored after it; on failure the image apology plus the error text is returned and only the user turn was added |
| `ChemBot.ZimChemBot.constructor` | app.py:11-13 | the bot starts with an empty, valid store |
| `ChemBot.ZimChemBot.GetConversationHistory` | app.py:29-34 | returns the stored history or creates the one-turn system history; the store becomes the old store with that entry seeded; the invariant is kept |
| `ChemBot.ZimChemBot.AddToConversation` | app.py:36-43 | the store becomes the old store with one turn appended and trimmed in the given user's entry; the invariant is kept |
| `ChemBot.ZimChemBot.AnalyzeImage` | app.py:45-72 | the request sent, the text returned and the new store are those of the image exchange |
| `ChemBot.ZimChemBot.GetTextResponse` | app.py:74-91 | the request sent, the text returned and the new store are those of the text exchange |
| `Endpoints.RouteRequest` | app.py:184-197 | a missing or empty body, or one with neither message nor image, is rejected with its error text, and only those are; an image goes to the image path with the message or "Analyze this image"; otherwise the non-empty message goes to the text path; the user id defaults to "unknown" |
| `Endpoints.ReportedModelMatchesRequest` | app.py:194-204 | the reported model is "gpt-4o-mini" exactly when an image was supplied, else "gpt-3.5-turbo", and it is the model the remote request named |
| `Endpoints.Whatsapp` | app.py:180-205 | a rejected body gets status 400 and leaves the store unchanged; an accepted one gets the responder's answer, the user id and the model name, and the store that responder leaves |
| `Endpoints.Summarize` | app.py:213-217 | the message count is the length minus one; the snippet is the first min(100, len) characters of the last turn's content followed by "..." when there is more than one turn, else "No messages" |
| `Endpoints.SummaryOfStoredHistory` | app.py:213-217 | for a stored history the count is between 0 and 20, the snippet has at most 103 characters, and "No messages" appears exactly when the count is 0 |
| `Endpoints.Users` | app.py:210-222 | the active-user count is the number of stored ids, and every stored id gets the summary of its history |

## Left out

- The HTTP framework: the `/`, `/chat` and `/health` handlers, request and form parsing, `jsonify`, and the HTML templates. `/chat` only calls the text responder, which is modelled.
- The remote model client and its completion calls are replaced by the `Remote` oracle. The sampling temperature of the text call (0.7) is not recorded.
- A remote reply whose content is `None` is not modelled; the oracle always answers with a string. In the source such a reply is stored as the content and returned, and a later `/users` call then fails on `None[:100]` (app.py:216). That error is outside any `try`, so the whole endpoint answers with status 500.
- The base64 image payload is an opaque string. It is concatenated to the JPEG data-URL prefix and never decoded.
- The `/whatsapp` body is modelled as an optional JSON object with string-valued fields. Non-string field values are not modelled: a number or `null` under `message`, `image` or `user_id`, and a JSON array body.
- The generic exception handler of `/whatsapp` that returns status 500 is not modelled. Its causes are framework and JSON parsing errors, and a body that is a JSON string, number or `true`: it passes the emptiness test (app.py:184), and then `data.get` fails on it (app.py:187).
- The constant `"success": True` field of the `/whatsapp` reply (app.py:200) is not modelled; `Endpoints.WhatsappReply` carries only the fields that vary.
- The timestamp in the `/whatsapp` reply (a clock read), the `OPENAI_API_KEY` and `PORT` environment reads, and the server start-up are I/O and are not modelled.
- Concurrent requests sharing the store are not modelled. The source has no locking; the model runs one request at a time.
- Histories are modelled as values (`seq`), not as shared Python lists. The one alias in the source is `messages` in `get_text_response` (app.py:77). It is the stored list itself, and the assistant append (app.py:87, through app.py:38) mutates it. `messages` is never read after the remote call returns, so the alias changes no result.
- Strings are Dafny `string`s, whose characters are Unicode scalar values, so slicing by `char` in `Endpoints.Summarize` agrees with Python's slicing by code point, outside the Basic Multilingual Plane too. A Python `str` can also hold lone surrogates (U+D800 to U+DFFF), for instance from a `\ud800` escape in the `/whatsapp` JSON body, and a Dafny `string` cannot. Such strings are not modelled anywhere: not in messages, user ids, image data or history contents.
