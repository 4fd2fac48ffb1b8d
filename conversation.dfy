/** The conversation history that the chat loops replay to the model, and the
    record of how one invocation of a loop ended. */
module Conversation {
  import opened Wrappers

  datatype Role = System | User | Assistant

  /** One `{"role": ..., "content": ...}` entry of the history. */
  datatype Message = Message(role: Role, content: string)

  /** The completion backend (`client.chat(...)["message"]["content"]`): given
      the whole history, the assistant's reply, or the text of the exception
      the call raised. */
  type Backend = seq<Message> -> Result<string, string>

  /** How a loop ended: a call-free reply, the round budget used up, an error
      turned into the returned text, an exception that escapes the function,
      or (MCP client only) no tools to offer. */
  datatype Exit = Answered | Exhausted | Errored | Raised | NoTools

  /** The end of one chat invocation: how it ended, the text it returns (or,
      for `Raised`, the exception's text), the history as it stood at the end,
      and how many times the backend was asked. */
  datatype Run = Run(exit: Exit, answer: string, history: seq<Message>, queries: nat)

  /** What one round of a chat loop decides: stop, with how the loop ends and
      the text it returns, or go on, appending the reply and the user message
      that carries the call's outcome. */
  datatype Round = Stop(exit: Exit, answer: string) | Continue(reply: string, feedback: string)

  /** The two messages a round that goes on appends to the history. */
  function Folded(reply: string, feedback: string): seq<Message> {
    [Message(Assistant, reply), Message(User, feedback)]
  }

  /** What the caller of the chat function sees: the returned text, or
      (`Failure`) the text of the exception that escapes it. */
  function Returned(run: Run): Result<string, string> {
    if run.exit == Raised then Failure(run.answer) else Success(run.answer)
  }

  /** The first two entries of every history: the system prompt and the user's message. */
  function Seed(systemPrompt: string, userMessage: string): seq<Message> {
    [Message(System, systemPrompt), Message(User, userMessage)]
  }

  function Max(a: int, b: int): int {
    if a < b then b else a
  }
}
