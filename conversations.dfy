/** The backend's in-memory conversation registry and the chat turn it serves. */
module Conversations {
  import opened Types
  import opened ReplyStream

  /** The instruction every new conversation opens with. */
  const SystemPrompt: string := "You are a useful AI assistant."

  /** A conversation: its ordered message log and whether it still takes turns. */
  datatype Conversation = Conversation(messages: seq<Message>, active: bool)

  /** The registry: conversation id to conversation. */
  type Table = map<string, Conversation>

  /** A conversation as first created: seeded with the system message, active. */
  function NewConversation(): Conversation
  {
    Conversation([Message("system", SystemPrompt)], true)
  }

  /** The registry after looking up `id`, creating its conversation on first sight. */
  function GetOrCreate(table: Table, id: string): (r: Table)
    ensures id in r
    ensures id in table ==> r == table
    ensures id !in table ==> r[id].active && r[id].messages == [Message("system", "You are a useful AI assistant.")]
    ensures r.Keys == table.Keys + {id}
    ensures forall k :: k in table ==> r[k] == table[k]
  {
    if id in table then table else table[id := NewConversation()]
  }

  /** The conversation a turn for `id` works on. */
  function Opened(table: Table, id: string): Conversation
  {
    GetOrCreate(table, id)[id]
  }

  /** The log entry a turn appends for the user's message. */
  function UserEntry(input: UserInput): Message
  {
    Message(input.role, input.message)
  }

  /** The log entry a turn appends for the model's reply. */
  function ReplyEntry(response: string): Message
  {
    Message("system", response)
  }

  /** The new registry and the endpoint's answer after one turn. */
  datatype TurnResult = TurnResult(table: Table, outcome: Outcome<Reply>)

  /** One `POST /chat/` turn against the registry; `model` answers the log it is sent. */
  function Turn(table: Table, input: UserInput, model: seq<Message> -> Completion): TurnResult
  {
    var id := input.conversationId;
    var registered := GetOrCreate(table, id);
    var conversation := registered[id];
    if !conversation.active then
      TurnResult(registered, Failure(BadRequest))
    else
      var asked := conversation.messages + [UserEntry(input)];
      var waiting := registered[id := conversation.(messages := asked)];
      match Query(asked, model)
      case Failure(_) => TurnResult(waiting, Failure(InternalError))
      case Success(response) =>
        TurnResult(waiting[id := conversation.(messages := asked + [ReplyEntry(response)])],
                   Success(Reply(response, id)))
  }

  /** The registry as a mutable object, as the module-level dictionary is. */
  class ConversationStore {
    var conversations: Table

    constructor ()
      ensures conversations == map[]
    {
      conversations := map[];
    }

    /** Returns the conversation for `id`, registering a new one on first sight. */
    method GetOrCreateConversation(id: string) returns (c: Conversation)
      modifies this
      ensures conversations == GetOrCreate(old(conversations), id)
      ensures c == conversations[id]
    {
      if id !in conversations {
        conversations := conversations[id := NewConversation()];
      }
      c := conversations[id];
    }

    /** Appends one entry to the log of a registered conversation. */
    method AppendMessage(id: string, m: Message)
      requires id in conversations
      modifies this
      ensures id in conversations
      ensures conversations == old(conversations)[id := old(conversations)[id].(messages := old(conversations)[id].messages + [m])]
    {
      var conversation := conversations[id];
      conversations := conversations[id := conversation.(messages := conversation.messages + [m])];
    }

    /** Serves one chat turn: look up or create, refuse an ended conversation,
        log the user's message, ask the model, log and return its reply. */
    method Chat(input: UserInput, model: seq<Message> -> Completion) returns (r: Outcome<Reply>)
      modifies this
      ensures TurnResult(conversations, r) == Turn(old(conversations), input, model)
      ensures old(WellFormed(conversations)) ==> WellFormed(conversations) && r != Failure(BadRequest)
    {
      ghost var before := conversations;
      var id := input.conversationId;
      var conversation := GetOrCreateConversation(id);
      if !conversation.active {
        r := Failure(BadRequest);
      } else {
        AppendMessage(id, UserEntry(input));
        var response := QueryModel(conversations[id].messages, model);
        if response.Failure? {
          r := Failure(InternalError);
        } else {
          AppendMessage(id, ReplyEntry(response.value));
          r := Success(Reply(response.value, id));
        }
      }
      if WellFormed(before) {
        TurnKeepsWellFormed(before, input, model);
        WellFormedNeverRejects(before, input, model);
      }
    }
  }

  /** Looking up an id a second time finds the same conversation and changes nothing. */
  lemma GetOrCreateIdempotent(table: Table, id: string)
    ensures GetOrCreate(GetOrCreate(table, id), id) == GetOrCreate(table, id)
    ensures Opened(GetOrCreate(table, id), id) == Opened(table, id)
  {
  }

  /** A turn ends in exactly one of: a reply, status 400, status 500. */
  lemma TurnOutcomes(table: Table, input: UserInput, model: seq<Message> -> Completion)
    ensures var o := Turn(table, input, model).outcome;
      o.Success? || o == Failure(BadRequest) || o == Failure(InternalError)
  {
  }

  /** A turn touches only its own conversation, and registers it. */
  lemma TurnFrame(table: Table, input: UserInput, model: seq<Message> -> Completion)
    ensures var t := Turn(table, input, model).table;
      && t.Keys == table.Keys + {input.conversationId}
      && forall k :: k in table && k != input.conversationId ==> t[k] == table[k]
  {
  }

  /** A turn succeeds exactly when the conversation is active and the model,
      sent the log ending in the user's message, streams its answer. The log
      then grows by the user entry and the reply entry, in that order, and the
      reply echoes the conversation id. */
  lemma TurnSucceeds(table: Table, input: UserInput, model: seq<Message> -> Completion)
    ensures var before := Opened(table, input.conversationId);
      var asked := before.messages + [Message(input.role, input.message)];
      var r := Turn(table, input, model);
      && (r.outcome.Success? <==> before.active && Query(asked, model).Success?)
      && (r.outcome.Success? ==>
            && r.outcome.value.response == Joined(model(asked).chunks)
            && r.outcome.value.conversationId == input.conversationId
            && r.table[input.conversationId].active
            && r.table[input.conversationId].messages
               == before.messages + [Message(input.role, input.message), Message("system", r.outcome.value.response)])
  {
  }

  /** A turn is refused with 400 exactly when the conversation is registered
      and has ended; the registry is then left as it was. */
  lemma TurnRejected(table: Table, input: UserInput, model: seq<Message> -> Completion)
    ensures var r := Turn(table, input, model);
      && (r.outcome == Failure(BadRequest) <==> input.conversationId in table && !table[input.conversationId].active)
      && (r.outcome == Failure(BadRequest) ==> r.table == table)
  {
  }

  /** A turn fails with 500 exactly when the conversation is active and the
      model call raises. The user's message stays logged, no reply is logged,
      and a new id stays registered. */
  lemma TurnFails(table: Table, input: UserInput, model: seq<Message> -> Completion)
    ensures var before := Opened(table, input.conversationId);
      var asked := before.messages + [Message(input.role, input.message)];
      var r := Turn(table, input, model);
      && (r.outcome == Failure(InternalError) <==> before.active && Query(asked, model).Failure?)
      && (r.outcome == Failure(InternalError) ==>
            && input.conversationId in r.table
            && r.table[input.conversationId] == Conversation(asked, true))
  {
  }

  /** Every conversation the registry can hold: active, and opening with the
      system message. */
  predicate WellFormed(table: Table)
  {
    forall id :: id in table ==>
      && table[id].active
      && |table[id].messages| > 0
      && table[id].messages[0] == Message("system", SystemPrompt)
  }

  lemma TurnKeepsWellFormed(table: Table, input: UserInput, model: seq<Message> -> Completion)
    requires WellFormed(table)
    ensures WellFormed(Turn(table, input, model).table)
  {
  }

  /** Since nothing ever ends a conversation, the 400 branch is never taken. */
  lemma WellFormedNeverRejects(table: Table, input: UserInput, model: seq<Message> -> Completion)
    requires WellFormed(table)
    ensures Turn(table, input, model).outcome != Failure(BadRequest)
  {
  }

  /** One request of a session: the input and how the model answers. */
  datatype Request = Request(input: UserInput, model: seq<Message> -> Completion)

  /** The registry and the answers after serving requests one after another. */
  datatype Session = Session(table: Table, outcomes: seq<Outcome<Reply>>)

  function Serve(table: Table, requests: seq<Request>): Session
    decreases |requests|
  {
    if requests == [] then Session(table, [])
    else
      var first := Turn(table, requests[0].input, requests[0].model);
      var rest := Serve(first.table, requests[1..]);
      Session(rest.table, [first.outcome] + rest.outcomes)
  }

  /** From a registry the endpoint could have built, no request in a session
      is ever refused with 400, and the registry stays well formed. */
  lemma {:induction false} ServeNeverRejects(table: Table, requests: seq<Request>)
    requires WellFormed(table)
    ensures var s := Serve(table, requests);
      && WellFormed(s.table)
      && |s.outcomes| == |requests|
      && forall i :: 0 <= i < |s.outcomes| ==> s.outcomes[i] != Failure(BadRequest)
    decreases |requests|
  {
    if requests != [] {
      var first := Turn(table, requests[0].input, requests[0].model);
      TurnKeepsWellFormed(table, requests[0].input, requests[0].model);
      WellFormedNeverRejects(table, requests[0].input, requests[0].model);
      ServeNeverRejects(first.table, requests[1..]);
    }
  }

  /** The empty registry the server starts with is well formed. */
  lemma StartIsWellFormed()
    ensures WellFormed(map[])
  {
  }
}
