/**
 * What the core sees of the language-model client: the outcome of one chat
 * completion.  Prompts are not modelled; each request is a parameter of the
 * operation that makes it.
 */
module Assistant {

  /** The message content of the first choice, or the message of the exception the request raised. */
  datatype Reply = Replied(content: string) | Raised(message: string)
}
