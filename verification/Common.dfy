/** Shared vocabulary: optional values and the status codes of mqmx/types.h. */
module Common {

  datatype Option<+T> = None | Some(value: T)

  datatype Status =
    | Success
    | AlreadyExist
    | InvalidArgument
    | NotSupported
    | NotFound
    | RestartNeeded
    | HaltRequested
    | PauseRequested
    | NotAllowed

  /** Identifiers are unsigned 64-bit words; the greatest word is the "invalid" one. */
  const WORD_LIMIT: nat := 0x1_0000_0000_0000_0000
  const INVALID_ID: nat := WORD_LIMIT - 1

  /** `++counter`, skipping the invalid word, with the wrap-around of the machine word. */
  function NextIdentifier(counter: nat): nat {
    var next := (counter + 1) % WORD_LIMIT;
    if next == INVALID_ID then (next + 1) % WORD_LIMIT else next
  }
}
