# Chat backend conversation registry, in Dafny

This project models the core of a small chat backend (`backend/app.py`).
The backend keeps an in-memory registry from conversation id to conversation.
Each conversation holds an ordered log of role/content messages and an `active` flag.
Each `POST /chat/` request is one turn, with these steps in order:

1. Look up the conversation, creating it on first sight. A new conversation is seeded with the system prompt "You are a useful AI assistant." and is active.
2. Refuse an inactive conversation with status 400.
3. Log the user's message under the request's role, which defaults to `"user"`.
4. Stream a completion from a language model, concatenating the chunk contents in order. A missing content counts as `""`.
5. Log the reply under role `"system"`.
6. Return the reply together with the echoed conversation id.

Any failure while talking to the model becomes status 500. The user's message is not rolled back.

Files:

- `types.dfy` (module `Types`): messages, the request and reply bodies, `Outcome` (a value or an HTTP status), and `Option`.
- `reply_stream.dfy` (module `ReplyStream`): the streamed completion, modelled as an oracle result.
  - A `Completion` is either a `Stream` of chunks or `Refused`, meaning the call itself raised.
  - A `Chunk` is a `Delta` with optional content, or `Interrupted`, meaning reading it raised.
  - `Joined` is the specification of the reply: the chunk texts, concatenated in order.
  - `QueryModel` is the accumulating loop, proved against `Joined`.
- `conversations.dfy` (module `Conversations`): the registry.
  - `GetOrCreate` and `Turn` are the specification functions over the table.
  - The class `ConversationStore` holds the table in a mutable field. Its methods are proved equal to those functions.
  - The lemmas state the outcomes of a turn, what it changes and what it leaves alone, and an invariant of every registry the server can build. From that invariant, the 400 branch is never taken.

The language model is a parameter of each turn: `model: seq<Message> -> Completion`.
It maps the log it is sent to what it streams back.
So the model can state that the log sent to the model already ends in the user's message.
Each turn gets its own function, so a model that answers differently from turn to turn is covered.

The code logs the model's reply under role `"system"`, not `"assistant"`. The model follows the code.

## Model

| member | source | states |
|---|---|---|
| `ReplyStream.QueryModel` | backend/app.py:42-61 | The call succeeds exactly when the model streams and no chunk raises. The reply is then the in-order concatenation of the chunk texts. Every failure is status 500. |
| `ReplyStream.JoinedAppend` | backend/app.py:54-56 | The reply of two streams in sequence is the reply of the first followed by the reply of the second. |
| `ReplyStream.JoinedCons` | backend/app.py:54-56 | The first chunk's text comes first in the reply, followed by the reply of the remaining chunks. |
| `ReplyStream.ChunkInPlace` | backend/app.py:54-56 | Each chunk's text appears in the reply, in stream order, right after the texts of the chunks before it. |
| `ReplyStream.EmptyDeltasEmptyReply` | backend/app.py:56 | A stream whose deltas all have missing content gives the empty reply, because a missing content counts as `""`. |
| `ReplyStream.JoinedLength` | backend/app.py:54-56 | The length of the reply is the sum of the lengths of the chunk texts. |
| `Conversations.GetOrCreate` | backend/app.py:64-67 | The id is registered afterwards, and the key set grows by exactly that id. Every existing entry is unchanged. A known id leaves the table as it was. A new id gets an active conversation whose log is exactly the system prompt message. |
| `Conversations.GetOrCreateIdempotent` | backend/app.py:64-67 | A second lookup of the same id finds the same conversation and leaves the table unchanged. |
| `Conversations.ConversationStore.constructor` | backend/app.py:40 | The registry starts empty. |
| `Conversations.ConversationStore.GetOrCreateConversation` | backend/app.py:64-67 | Updates the table in place to `GetOrCreate` of the old table. Returns the registered conversation. |
| `Conversations.ConversationStore.AppendMessage` | backend/app.py:77-79 | Appends one entry to the end of one registered log. Every other entry, and that conversation's flag, are unchanged. |
| `Conversations.ConversationStore.Chat` | backend/app.py:69-84 | The new table and the answer are exactly `Turn` of the old table. A well-formed table stays well formed, and the turn is never refused with 400. |
| `Conversations.TurnOutcomes` | backend/app.py:69-84 | A turn ends in a reply, in status 400 or in status 500, and in nothing else. |
| `Conversations.TurnFrame` | backend/app.py:71-79 | A turn registers its own id and adds no other key. It leaves every other conversation unchanged. |
| `Conversations.TurnSucceeds` | backend/app.py:76-81 | A turn succeeds exactly when the conversation is active and the model streams without raising. The model is sent the prior log plus the user's message. On success the log grows by exactly the user entry (request role and message) and then the `"system"` reply entry, in that order. The reply is the joined stream, and the id is echoed. |
| `Conversations.TurnRejected` | backend/app.py:73-74 | Status 400 is returned exactly when the id is registered and its conversation is inactive. The table is then unchanged. |
| `Conversations.TurnFails` | backend/app.py:76-84 | Status 500 is returned exactly when the conversation is active and the model call raises. The log then ends in the user's message with no reply entry. The id, even a new one, stays registered. |
| `Conversations.TurnKeepsWellFormed` | backend/app.py:33-38 | A turn keeps every conversation active and opening with the system message. |
| `Conversations.WellFormedNeverRejects` | backend/app.py:73-74 | From a well-formed table a turn is never refused with 400, since nothing clears `active`. |
| `Conversations.ServeNeverRejects` | backend/app.py:69-84 | Requests served one after another from a well-formed table give one answer each, never status 400, and leave the table well formed. |
| `Conversations.StartIsWellFormed` | backend/app.py:40 | The empty registry the server starts with is well formed. |

## Left out

- The Groq client call (model name, `temperature`, `max_tokens`, `top_p`, `stream`, `stop`) is a foreign network API. It is modelled only as the `Completion` it yields for a log.
- The text of exception details (`detail=str(e)` and "Conversation has ended.") is not modelled. Only the status codes are kept.
- FastAPI routing, CORS middleware, pydantic validation of the request body, `.env` loading, the `GROQ_API_KEY` startup check and the uvicorn startup are framework and I/O plumbing.
- The endpoint is `async`. Overlapping requests against one conversation are a concurrency concern, so turns are modelled one after another.
- A conversation is a value stored in the map, not a shared object. The turn's local reference and the dictionary's entry are one object in the code. Since turns are sequential, updating the map entry has the same effect.
- The React front end (`frontend/chatbotui/src/App.jsx`) is a rendering component around one `fetch` call. It is not part of this model.
