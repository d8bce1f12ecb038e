/** The queue worker that computes an AI move (`backend/src/workers/ai-move.worker.ts`),
    without the queue itself: one job is processed against the game store, with what the
    named provider answered within its fifteen seconds and what Stockfish answered given as
    parameters. The job's progress reports are returned in order. */
module AIMoveWorker {
  import opened Types
  import opened Rules
  import opened GameSessions

  /** `mapAIModel`: the display names the client sends become model names; the model names
      themselves and every other string pass through. */
  function MapAIModel(name: string): (r: string)
    ensures name == "Gemini Flash" ==> r == "gemini-2.0-flash-lite"
    ensures name == "ChatGPT-3.5" ==> r == "gpt-3.5-turbo"
    ensures name == "Stockfish" ==> r == "stockfish"
    ensures name != "Gemini Flash" && name != "ChatGPT-3.5" && name != "Stockfish" ==> r == name
  {
    if name == "Gemini Flash" then "gemini-2.0-flash-lite"
    else if name == "ChatGPT-3.5" then "gpt-3.5-turbo"
    else if name == "Stockfish" then "stockfish"
    else name
  }

  /** Mapping twice is mapping once: no display name is the image of another. */
  lemma MapAIModelIdempotent(name: string)
    ensures MapAIModel(MapAIModel(name)) == MapAIModel(name)
  {
  }

  /** A model name is left alone exactly when it is not one of the three display names. */
  lemma MapAIModelFixedPoints(name: string)
    ensures MapAIModel(name) == name <==> name != "Gemini Flash" && name != "ChatGPT-3.5" && name != "Stockfish"
  {
  }

  datatype Job = Job(gameId: string, fen: string, aiModel: string, level: Level, moveHistory: seq<string>)

  /** `{ skipped, reason }`, a thrown error with its message, or `{ success, move, fen }`. */
  datatype Outcome =
    | Skipped(reason: string)
    | Errored(error: string)
    | Succeeded(move: MoveInfo, fen: string)

  function StatusText(s: Status): string {
    match s
    case Active => "active"
    case Completed => "completed"
    case Resigned => "resigned"
  }

  /** The legality gate: the chosen move is replayed on position `p` (a fresh one from the
      job's FEN); the job succeeds exactly when the rules library accepts the move, and then
      reports it with its UCI text, its SAN and the FEN after it. A null answer names the
      move in the error; a thrown error is passed on. */
  function Verdict(rules: ChessRules, p: Position, m: AIMove): (o: Outcome)
    ensures o.Succeeded? <==> rules.move(p, m.from, m.to, m.promotion).Accepted?
    ensures o.Succeeded? ==>
      var a := rules.move(p, m.from, m.to, m.promotion).applied;
      o.move == MoveInfo(m.from, m.to, a.san, UciText(m), m.promotion) && o.fen == rules.fen(a.after)
    ensures rules.move(p, m.from, m.to, m.promotion).ReturnedNull? ==> o == Errored("AI generated illegal move: " + m.from + m.to)
    ensures !o.Skipped?
  {
    match rules.move(p, m.from, m.to, m.promotion)
    case ReturnedNull => Errored("AI generated illegal move: " + m.from + m.to)
    case Threw(message) => Errored(message)
    case Accepted(applied) => Succeeded(MoveInfo(m.from, m.to, applied.san, UciText(m), m.promotion), rules.fen(applied.after))
  }

  /** `processAIMove`. A job whose game is gone or no longer active is skipped before any
      source is asked. Otherwise the job's FEN is loaded (a FEN the rules library refuses
      fails the job), the sources are asked as in ChooseMove, a job without a move fails,
      and the move is replayed on a fresh position from the same FEN: the job completes only
      when the rules library accepts it, and reports the move with its UCI text and SAN and
      the FEN after it. */
  method ProcessAIMove(job: Job, store: GameService, providerAnswer: Option<AIMove>, stockfishAnswer: Option<AIMove>)
    returns (outcome: Outcome, asked: seq<Source>, progress: seq<nat>)
    ensures store.GetGame(job.gameId).None? ==> outcome == Skipped("Game not found") && asked == [] && progress == []
    ensures store.GetGame(job.gameId).Some? && store.GetGame(job.gameId).value.status != Active ==>
      outcome == Skipped("Game status: " + StatusText(store.GetGame(job.gameId).value.status)) && asked == [] && progress == []
    ensures outcome.Skipped? <==> store.GetGame(job.gameId).None? || store.GetGame(job.gameId).value.status != Active
    ensures !outcome.Skipped? && store.rules.load(job.fen).LoadFailed? ==>
      outcome == Errored(store.rules.load(job.fen).message) && asked == [] && progress == [10]
    ensures !outcome.Skipped? && store.rules.load(job.fen).Loaded? ==>
      var model := MapAIModel(job.aiModel);
      var chosen := if model != "stockfish" && providerAnswer.Some? then providerAnswer else stockfishAnswer;
      && asked == (if model != "stockfish" then [Provider(model, job.level)] else [])
                + (if model == "stockfish" || providerAnswer.None? then [Stockfish(job.level)] else [])
      && (Provider(model, job.level) in asked <==> model != "stockfish")
      && (Stockfish(job.level) in asked <==> model == "stockfish" || providerAnswer.None?)
      && progress == [10, 20] + (if model != "stockfish" then [70] else [])
                              + (if model == "stockfish" || providerAnswer.None? then [90] else [])
                              + (if outcome.Succeeded? then [100] else [])
      && (chosen.None? ==> outcome == Errored("Failed to generate move from all AI providers"))
      && (chosen.Some? ==> outcome == Verdict(store.rules, store.rules.load(job.fen).position, chosen.value))
  {
    asked := [];
    progress := [];
    var model := MapAIModel(job.aiModel);
    var game := store.GetGame(job.gameId);
    if game.None? || game.value.status != Active {
      var reason := if game.Some? then "Game status: " + StatusText(game.value.status) else "Game not found";
      return Skipped(reason), [], [];
    }
    progress := progress + [10];
    var loaded := store.rules.load(job.fen);
    if loaded.LoadFailed? {
      return Errored(loaded.message), [], progress;
    }
    progress := progress + [20];
    var move;
    move, asked := ChooseMove(model, job.level, providerAnswer, stockfishAnswer);
    progress := progress + (if model != "stockfish" then [70] else [])
                         + (if model == "stockfish" || providerAnswer.None? then [90] else []);
    if move.None? {
      return Errored("Failed to generate move from all AI providers"), asked, progress;
    }
    var testChess := store.rules.load(job.fen);
    outcome := Verdict(store.rules, testChess.position, move.value);
    if outcome.Succeeded? {
      progress := progress + [100];
    }
  }

  /** What the thrown TypeError says when `getGameById` is looked up on the exported store,
      where it is undefined (the exact wording depends on how the module is compiled). */
  const NotAFunction: string := "GameService.getGameById is not a function"

  /** `processAIMove` as written. It reads the game with `GameService.getGameById`, but the
      exported store only has `getGame`, so that call throws inside the `try`; the error is
      rethrown before any progress is reported or any source is asked. Every job fails,
      whatever its game and its FEN. */
  method ProcessAIMoveAsWritten(job: Job, store: GameService, providerAnswer: Option<AIMove>, stockfishAnswer: Option<AIMove>)
    returns (outcome: Outcome, asked: seq<Source>, progress: seq<nat>)
    ensures outcome == Errored(NotAFunction) && asked == [] && progress == []
    ensures !outcome.Succeeded? && !outcome.Skipped?
  {
    outcome, asked, progress := Errored(NotAFunction), [], [];
  }
}
