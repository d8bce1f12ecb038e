/** The server's in-memory game store (`backend/src/services/game.service.ts`): games keyed by
    id next to the rules-library instance of each, a status that only leaves `active`, moves
    applied through the rules library, resignation, deletion, and the choice of who supplies
    an AI move. */
module GameSessions {
  import opened Types
  import opened Rules

  datatype PlayerKind = Human | AI

  datatype PlayerConfig = PlayerConfig(kind: PlayerKind, aiModel: Option<string>, aiLevel: Option<Level>)

  datatype GameConfig = GameConfig(whitePlayer: PlayerConfig, blackPlayer: PlayerConfig, gameType: GameType)

  datatype Status = Active | Completed | Resigned

  datatype Game = Game(
    id: string,
    config: GameConfig,
    fen: string,
    pgn: string,
    currentPlayer: Color,
    status: Status,
    winner: Option<Winner>,
    moves: seq<string>,
    startTime: int,
    whiteTime: nat,
    blackTime: nat,
    createdBy: string)

  /** The move reported back to the caller of a successful move. */
  datatype MoveInfo = MoveInfo(from: string, to: string, san: string, uci: string, promotion: Option<string>)

  datatype MoveResponse = MoveOk(move: MoveInfo, fen: string) | MoveFailed(error: string)

  /** Who was asked for an AI move, in order, and with which model and level. */
  datatype Source = Provider(model: string, level: Level) | Stockfish(level: Level)

  /** `timeByType`: seconds on each clock. */
  function TimeByType(t: GameType): (seconds: nat)
    ensures seconds > 0
  {
    match t
    case Normal => 3600
    case Rapid => 600
    case Blitz => 180
  }

  /** Longer game types get strictly more time. */
  lemma TimeByTypeOrdered()
    ensures TimeByType(Blitz) < TimeByType(Rapid) < TimeByType(Normal)
  {
  }

  /** The end-of-game check after a move: checkmate completes the game and the side that
      just moved (not the side to move in `p`) wins; a draw, stalemate or threefold
      repetition completes it as a draw; otherwise nothing changes. */
  function Conclude(rules: ChessRules, g: Game, p: Position): (r: Game)
    ensures r.(status := g.status, winner := g.winner) == g
    ensures rules.isCheckmate(p) ==> r.status == Completed && r.winner == Some(WinnerAgainst(rules.turn(p)))
    ensures !rules.isCheckmate(p) && IsDrawn(rules, p) ==> r.status == Completed && r.winner == Some(DrawGame)
    ensures !rules.isCheckmate(p) && !IsDrawn(rules, p) ==> r == g
  {
    if rules.isCheckmate(p) then g.(status := Completed, winner := Some(WinnerAgainst(rules.turn(p))))
    else if IsDrawn(rules, p) then g.(status := Completed, winner := Some(DrawGame))
    else g
  }

  /** The game record after the rules library accepted a move leading to `p` with SAN `san`. */
  function Played(rules: ChessRules, g: Game, p: Position, san: string): Game {
    Conclude(rules, g.(fen := rules.fen(p), pgn := rules.pgn(p), currentPlayer := rules.turn(p), moves := g.moves + [san]), p)
  }

  /** A played move appends exactly its SAN, hands the turn to the rules library's side to
      move, and leaves the configuration, clocks and identity alone; a finished game that is
      not a win is a draw. */
  lemma PlayedMove(rules: ChessRules, g: Game, p: Position, san: string)
    ensures var r := Played(rules, g, p, san);
      && r.moves == g.moves + [san]
      && |r.moves| == |g.moves| + 1
      && r.currentPlayer == rules.turn(p)
      && r.fen == rules.fen(p) && r.pgn == rules.pgn(p)
      && r.id == g.id && r.config == g.config && r.whiteTime == g.whiteTime && r.blackTime == g.blackTime
      && (g.status == Active ==> (r.status == Active <==> !rules.isCheckmate(p) && !IsDrawn(rules, p)))
      && (r.status == Completed && g.status == Active && r.winner != Some(DrawGame) ==> rules.isCheckmate(p))
  {
    var mid := g.(fen := rules.fen(p), pgn := rules.pgn(p), currentPlayer := rules.turn(p), moves := g.moves + [san]);
    assert Played(rules, g, p, san) == Conclude(rules, mid, p);
  }

  /** The record `id` may change from `before` to `after`: a finished game is frozen, the move
      list only grows, and the status only leaves `active`. */
  ghost predicate Evolves(before: Game, after: Game) {
    && (before.status != Active ==> after == before)
    && before.moves <= after.moves
    && after.id == before.id && after.config == before.config
  }

  /** The player configuration of the side to move. */
  function Mover(g: Game): PlayerConfig {
    if g.currentPlayer == White then g.config.whitePlayer else g.config.blackPlayer
  }

  /** `currentPlayer.aiModel || 'stockfish'`: a missing or empty model name means Stockfish. */
  function ModelOrDefault(p: PlayerConfig): (model: string)
    ensures model != ""
    ensures p.aiModel.Some? && p.aiModel.value != "" ==> model == p.aiModel.value
  {
    if p.aiModel.Some? && p.aiModel.value != "" then p.aiModel.value else "stockfish"
  }

  /** The `let move = null` sequence shared by the store and the worker: ask the named
      provider unless the model is Stockfish, then ask Stockfish if there is still no move.
      `providerAnswer` and `stockfishAnswer` are what those calls would answer. */
  method ChooseMove(model: string, level: Level, providerAnswer: Option<AIMove>, stockfishAnswer: Option<AIMove>)
    returns (move: Option<AIMove>, asked: seq<Source>)
    ensures (Provider(model, level) in asked) <==> model != "stockfish"
    ensures (Stockfish(level) in asked) <==> (model == "stockfish" || providerAnswer.None?)
    ensures asked == (if model != "stockfish" then [Provider(model, level)] else [])
                     + (if model == "stockfish" || providerAnswer.None? then [Stockfish(level)] else [])
    ensures move == (if model != "stockfish" && providerAnswer.Some? then providerAnswer else stockfishAnswer)
    ensures move.None? <==> (model == "stockfish" || providerAnswer.None?) && stockfishAnswer.None?
  {
    move := None;
    asked := [];
    if model != "stockfish" {
      asked := asked + [Provider(model, level)];
      move := providerAnswer;
    }
    if move.None? {
      asked := asked + [Stockfish(level)];
      move := stockfishAnswer;
    }
  }

  /** The accepted-move branch of `makeMove`: the record takes the new FEN, PGN, side to move
      and SAN, then the end-of-game check runs. */
  method ApplyAccepted(rules: ChessRules, before: Game, chess: Position, san: string) returns (game: Game)
    ensures game == Played(rules, before, chess, san)
  {
    game := before.(fen := rules.fen(chess), pgn := rules.pgn(chess), currentPlayer := rules.turn(chess),
                    moves := before.moves + [san]);
    if rules.isCheckmate(chess) {
      game := game.(status := Completed, winner := Some(if rules.turn(chess) == White then BlackWon else WhiteWon));
    } else if rules.isDraw(chess) || rules.isStalemate(chess) || rules.isThreefoldRepetition(chess) {
      game := game.(status := Completed, winner := Some(DrawGame));
    }
  }

  /** What `makeMove(gameId, from, to, promotion)` answers and leaves behind, for stores `g0`
      and `c0` before the call and `g1` and `c1` after it. An unknown id fails with "Game not
      found", a game that is not active with "Game is not active", a move the rules library
      refuses with "Invalid move" and one it throws on with the thrown message, each leaving
      both maps as they were. An accepted move answers its squares, SAN, UCI text and the new
      FEN, and only this game's record and instance change: the record as Played, the
      instance to the position after the move. */
  predicate MoveEffect(rules: ChessRules, g0: map<string, Game>, c0: map<string, Position>, gameId: string,
                       from: string, to: string, promotion: Option<string>,
                       r: MoveResponse, g1: map<string, Game>, c1: map<string, Position>)
    requires gameId in g0 ==> gameId in c0
  {
    if gameId !in g0 then r == MoveFailed("Game not found") && g1 == g0 && c1 == c0
    else if g0[gameId].status != Active then r == MoveFailed("Game is not active") && g1 == g0 && c1 == c0
    else
      match rules.move(c0[gameId], from, to, promotion)
      case ReturnedNull => r == MoveFailed("Invalid move") && g1 == g0 && c1 == c0
      case Threw(message) => r == MoveFailed(message) && g1 == g0 && c1 == c0
      case Accepted(a) =>
        && r == MoveOk(MoveInfo(a.from, a.to, a.san, from + to + promotion.GetOr(""), a.promotion), rules.fen(a.after))
        && g1 == g0[gameId := Played(rules, g0[gameId], a.after, a.san)]
        && c1 == c0[gameId := a.after]
  }

  class GameService {
    var games: map<string, Game>
    var chessInstances: map<string, Position>
    const rules: ChessRules

    /** Every game has its rules instance under the same id, carries that id, and its FEN and
        PGN are the instance's. */
    ghost predicate Valid()
      reads this
    {
      && games.Keys == chessInstances.Keys
      && forall id :: id in games ==>
           && games[id].id == id
           && games[id].fen == rules.fen(chessInstances[id])
           && games[id].pgn == rules.pgn(chessInstances[id])
    }

    constructor(rules: ChessRules)
      ensures Valid()
      ensures this.rules == rules && games == map[] && chessInstances == map[]
    {
      this.rules := rules;
      games := map[];
      chessInstances := map[];
    }

    /** `getGame`. */
    function GetGame(gameId: string): (r: Option<Game>)
      reads this
      ensures r.Some? <==> gameId in games
      ensures Valid() && r.Some? ==>
        r.value.id == gameId && r.value.fen == rules.fen(chessInstances[gameId]) && r.value.pgn == rules.pgn(chessInstances[gameId])
    {
      if gameId in games then Some(games[gameId]) else None
    }

    /** `createGame`: `gameId` and `now` stand for the generated id and `Date.now()`. The new
        game is active, white to move, with no moves, both clocks sized by the game type, and
        the FEN and PGN of a fresh rules instance; any game already under that id is replaced. */
    method CreateGame(config: GameConfig, creatorId: string, gameId: string, now: int) returns (game: Game)
      requires Valid()
      modifies this
      ensures Valid()
      ensures game.id == gameId && game.config == config && game.createdBy == creatorId && game.startTime == now
      ensures game.status == Active && game.winner == None && game.currentPlayer == White && game.moves == []
      ensures game.whiteTime == TimeByType(config.gameType) && game.blackTime == TimeByType(config.gameType)
      ensures game.fen == rules.fen(rules.initial) && game.pgn == rules.pgn(rules.initial)
      ensures games == old(games)[gameId := game]
      ensures chessInstances == old(chessInstances)[gameId := rules.initial]
    {
      var chess := rules.initial;
      var seconds := TimeByType(config.gameType);
      game := Game(gameId, config, rules.fen(chess), rules.pgn(chess), White, Active, None, [], now, seconds, seconds, creatorId);
      games := games[gameId := game];
      chessInstances := chessInstances[gameId := chess];
    }

    /** `makeMove`. An unknown id, a game that is not active, and a move the rules library
        rejects (null) or throws on all fail and leave the store as it was; an accepted move
        updates FEN, PGN, side to move and the move list, then runs the end-of-game check. */
    method MakeMove(gameId: string, from: string, to: string, promotion: Option<string>) returns (r: MoveResponse)
      requires Valid()
      modifies this
      ensures Valid()
      ensures MoveEffect(rules, old(games), old(chessInstances), gameId, from, to, promotion, r, games, chessInstances)
      ensures r.MoveFailed? ==> games == old(games) && chessInstances == old(chessInstances)
      ensures games.Keys == old(games).Keys
      ensures forall id :: id in old(games) ==> Evolves(old(games)[id], games[id])
    {
      if gameId !in games || gameId !in chessInstances {
        return MoveFailed("Game not found");
      }
      var game := games[gameId];
      var chess := chessInstances[gameId];
      if game.status != Active {
        return MoveFailed("Game is not active");
      }
      match rules.move(chess, from, to, promotion) {
        case Threw(message) =>
          return MoveFailed(message);
        case ReturnedNull =>
          return MoveFailed("Invalid move");
        case Accepted(move) =>
          chess := move.after;
          game := ApplyAccepted(rules, game, chess, move.san);
          PlayedMove(rules, games[gameId], chess, move.san);
          games := games[gameId := game];
          chessInstances := chessInstances[gameId := chess];
          r := MoveOk(MoveInfo(move.from, move.to, move.san, from + to + promotion.GetOr(""), move.promotion), rules.fen(chess));
      }
    }

    /** `getAIMove`, without the emit callback and the AI-versus-AI rescheduling. The side to
        move must be an AI; its level defaults to intermediate and its model to Stockfish; the
        move comes from ChooseMove and is then played through MakeMove. */
    method GetAIMove(gameId: string, providerAnswer: Option<AIMove>, stockfishAnswer: Option<AIMove>)
      returns (r: MoveResponse, asked: seq<Source>)
      requires Valid()
      modifies this
      ensures Valid()
      ensures gameId !in old(games) ==> r == MoveFailed("Game not found") && asked == []
      ensures gameId in old(games) && Mover(old(games)[gameId]).kind == Human ==>
        r == MoveFailed("Current player is not AI") && asked == []
      ensures gameId in old(games) && Mover(old(games)[gameId]).kind == AI ==>
        var p := Mover(old(games)[gameId]);
        var level := p.aiLevel.GetOr(Intermediate);
        var model := ModelOrDefault(p);
        var chosen := if model != "stockfish" && providerAnswer.Some? then providerAnswer else stockfishAnswer;
        && asked == (if model != "stockfish" then [Provider(model, level)] else [])
                    + (if model == "stockfish" || providerAnswer.None? then [Stockfish(level)] else [])
        && (chosen.None? ==> r == MoveFailed("AI failed to generate move"))
        && (chosen.Some? ==>
              MoveEffect(rules, old(games), old(chessInstances), gameId, chosen.value.from, chosen.value.to,
                         chosen.value.promotion, r, games, chessInstances))
      ensures r.MoveFailed? ==> games == old(games) && chessInstances == old(chessInstances)
      ensures games.Keys == old(games).Keys
      ensures forall id :: id in old(games) ==> Evolves(old(games)[id], games[id])
    {
      asked := [];
      if gameId !in games || gameId !in chessInstances {
        return MoveFailed("Game not found"), [];
      }
      var game := games[gameId];
      var currentPlayer := if game.currentPlayer == White then game.config.whitePlayer else game.config.blackPlayer;
      if currentPlayer.kind != AI {
        return MoveFailed("Current player is not AI"), [];
      }
      var level := currentPlayer.aiLevel.GetOr(Intermediate);
      var aiModel := if currentPlayer.aiModel.Some? && currentPlayer.aiModel.value != "" then currentPlayer.aiModel.value else "stockfish";
      var move;
      move, asked := ChooseMove(aiModel, level, providerAnswer, stockfishAnswer);
      if move.None? {
        return MoveFailed("AI failed to generate move"), asked;
      }
      r := MakeMove(gameId, move.value.from, move.value.to, move.value.promotion);
    }

    /** `resignGame`: succeeds exactly for an existing active game, which becomes resigned
        and won by the other colour; otherwise nothing changes. */
    method ResignGame(gameId: string, color: Color) returns (ok: bool)
      requires Valid()
      modifies this
      ensures Valid()
      ensures ok <==> gameId in old(games) && old(games)[gameId].status == Active
      ensures ok ==> games == old(games)[gameId := old(games)[gameId].(status := Resigned, winner := Some(WinnerAgainst(color)))]
      ensures !ok ==> games == old(games)
      ensures chessInstances == old(chessInstances)
      ensures forall id :: id in old(games) ==> Evolves(old(games)[id], games[id])
    {
      if gameId !in games || games[gameId].status != Active {
        return false;
      }
      var game := games[gameId];
      game := game.(status := Resigned, winner := Some(if color == White then BlackWon else WhiteWon));
      games := games[gameId := game];
      return true;
    }

    /** `deleteGame`: reports whether the game existed; afterwards neither map has the id. */
    method DeleteGame(gameId: string) returns (existed: bool)
      requires Valid()
      modifies this
      ensures Valid()
      ensures existed <==> gameId in old(games)
      ensures games == old(games) - {gameId} && chessInstances == old(chessInstances) - {gameId}
      ensures GetGame(gameId) == None
      ensures forall square :: GetLegalMoves(gameId, square) == []
    {
      chessInstances := chessInstances - {gameId};
      existed := gameId in games;
      games := games - {gameId};
    }

    /** `getLegalMoves`: nothing for an unknown id; the target squares from `square` when one
        is given and non-empty; otherwise every legal move in SAN. */
    function GetLegalMoves(gameId: string, square: Option<string>): (r: seq<string>)
      reads this
      ensures Valid() && GetGame(gameId).None? ==> r == []
      ensures gameId in chessInstances && square.Some? && square.value != "" ==>
        r == rules.targetsFrom(chessInstances[gameId], square.value)
      ensures gameId in chessInstances && (square.None? || square.value == "") ==> r == rules.sanMoves(chessInstances[gameId])
    {
      if gameId !in chessInstances then []
      else if square.Some? && square.value != "" then rules.targetsFrom(chessInstances[gameId], square.value)
      else rules.sanMoves(chessInstances[gameId])
    }
  }
}
