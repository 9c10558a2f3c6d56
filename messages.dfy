/** The messages exchanged on the actors' control and data channels. */
module Messages {

  datatype Message =
    | StartMessage                        // ask an actor to initialise
    | PoisonPillMessage                   // ask an actor to stop; never answered
    | OKMessage(sender: string)           // success, carries the answering actor's name
    | ErrorMessage(errorMessage: string)  // failure, carries a readable reason

  /** The reason given to a second StartMessage. */
  const AlreadyInitialized: string := "Actor already initialized"
}
