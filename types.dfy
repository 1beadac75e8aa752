/** Values exchanged between the chat endpoint, its conversations and the language model. */
module Types {

  /** One entry of a conversation log: the `{"role": ..., "content": ...}` dictionary. */
  datatype Message = Message(role: string, content: string)

  /** The request body of `POST /chat/`. The role is optional and defaults to "user". */
  datatype UserInput = UserInput(message: string, conversationId: string, role: string := "user")

  /** The success body of `POST /chat/`: the reply and the echoed conversation id. */
  datatype Reply = Reply(response: string, conversationId: string)

  /** A value, or the HTTP status of the exception that replaced it. */
  datatype Outcome<+T> = Success(value: T) | Failure(status: int)

  /** Python's `None`-or-value, as the streamed delta content is. */
  datatype Option<+T> = None | Some(value: T)

  /** Status raised when the conversation has ended. */
  const BadRequest: int := 400
  /** Status raised for any failure while the turn talks to the model. */
  const InternalError: int := 500
}
