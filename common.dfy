/** Shared wrappers and the error vocabulary of the game model.
  * The Java code signals failures with exceptions; the model returns them as values. */
module Common {

  /** The largest side a board may have (Board.MAX_SIZE); also the base of the
    * turn hash codes. */
  const MAX_SIZE: int := 19

  datatype Option<T> = None | Some(value: T)

  /** The outcome of an operation that returns nothing on success. */
  datatype Outcome<E> = Ok | Fail(error: E)

  datatype Result<T, E> = Success(value: T) | Failure(error: E)

  /** The rule a move breaks, one per check of the board's move validation,
    * in the order the checks are made. */
  datatype Rule =
    | OriginOffBoard        // "from" is not a square of the board
    | DestinationOffBoard   // an off-board destination before the end game
    | NotThroughExit        // an off-board destination not on a centre line
    | NoTileToMove
    | MovingFaceDownTile
    | NoDistance            // from == to
    | Diagonal
    | OutOfRange
    | Blocked               // a tile lies strictly between from and to
    | CaptureFaceDownTile
    | NotPrey               // the moving tile cannot capture the occupant
    | WrongDirection        // a Hunter capturing against its facing
    | OtherTeamsTile
    | JustFlippedNeutralTile
    | ReversesOwnMove
    | RescuesNeutralTile

  /** The exceptions of the Java code: IllegalArgumentException (a programmer
    * error), IllegalMoveException (a broken game rule) and IllegalStateException. */
  datatype Error = IllegalArgument | IllegalMove(rule: Rule) | IllegalState
}
