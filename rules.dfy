/** The chess rules library the server relies on (chess.js), seen from outside: a position
    type nobody looks into and the handful of queries and the one update the services use.
    Every service takes a `ChessRules` value, so what is proved holds for any rules library
    with these operations. */
module Rules {
  import opened Types

  /** A chess.js instance's position (placement, side to move, history). */
  type Position(==)

  /** What a successful `chess.move({ from, to, promotion })` reports. */
  datatype Applied = Applied(after: Position, san: string, from: string, to: string, promotion: Option<string>)

  /** chess.move either applies the move, answers null, or throws an error with a message. */
  datatype ApplyResult = Accepted(applied: Applied) | ReturnedNull | Threw(message: string)

  /** `new Chess(fen)` either yields a position or throws with a message. */
  datatype LoadResult = Loaded(position: Position) | LoadFailed(message: string)

  datatype ChessRules = ChessRules(
    initial: Position,
    load: string -> LoadResult,
    fen: Position -> string,
    pgn: Position -> string,
    turn: Position -> Color,
    move: (Position, string, string, Option<string>) -> ApplyResult,
    isCheckmate: Position -> bool,
    isDraw: Position -> bool,
    isStalemate: Position -> bool,
    isThreefoldRepetition: Position -> bool,
    /** `chess.moves()`: the SAN of every legal move. */
    sanMoves: Position -> seq<string>,
    /** `chess.moves({ square, verbose: true }).map(m => m.to)`. */
    targetsFrom: (Position, string) -> seq<string>)

  /** The game is over and drawn by one of the three tests the server checks. */
  predicate IsDrawn(rules: ChessRules, p: Position) {
    rules.isDraw(p) || rules.isStalemate(p) || rules.isThreefoldRepetition(p)
  }
}
