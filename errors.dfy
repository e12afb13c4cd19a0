/** The failures the game core reports to its caller, and a result type carrying them. */
module GameErrors {

  /** The two errors the core raises; the caller shows them as messages. */
  datatype GameError =
    | NotEnoughRecentData    // no trading date lies in the recency window
    | InsufficientPriorDays  // fewer than seven trading dates precede the start date

  datatype Result<+T> = Ok(value: T) | Err(error: GameError)
}
