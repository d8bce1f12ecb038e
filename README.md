# CHESS core in Dafny

This project models the core of a chess application in Dafny. The application pairs a Next.js
client with an Express/Socket.IO server, and a human plays against another human or against AI
players (OpenAI, Gemini, Stockfish). The model covers these parts, with one Dafny module each:

- the client's own move generator (`lib/chess-engine.ts`): square notation, per-piece move
  generation, attacked squares, playing a move and the initial board;
- the server's in-memory game store (`GameService`) and its per-game chess clocks
  (`GameTimerService`);
- the queue worker's decision logic for one AI-move job;
- the AI provider's reply parser, temperature table and configuration checks;
- Stockfish's difficulty tables, its `bestmove` reply extraction and the random fallback move;
- the client's local user store: statistics after a game, leaderboard, lookups and sign-up;
- the move log's copy text and its rows, the captured-pieces panel, and the game screen's
  clocks, prediction mode, undo and resignation.

The chess rules library (chess.js) is seen only from outside. `Rules.ChessRules` is a datatype
of total functions over an uninterpreted `Position` type, and every service takes one as a
parameter, so each proof holds for any rules library with those operations. The following
become explicit parameters or recorded lists:

- the current time;
- what an AI provider or the Stockfish process answered;
- what the socket server would broadcast;
- what a React parent is told.

Modules: `Text` holds decimal rendering of numbers, the JavaScript `trim` whitespace set, ASCII
lower-casing, `join` and `padStart(2, "0")`. `Types` holds the shared value types. Then come
`Rules`, `ChessEngine`, `GameSessions`, `GameTimers`, `AIMoveWorker`, `AIProvider`,
`Stockfish`, `UserStorage`, `MoveLog`, `CapturedPieces` and `GameBoard`.

Some of the source works in place. There the model is a class with `modifies` clauses:
`GameService`, `GameTimerService`, `StockfishService`, `UserStore` and `BoardScreen`. The same
holds for the loops: the move generators' `forEach`/`for` loops, the copy-text loop, the
grouping reduce and the output polling. Each such method is proved equal to a function on
values, and what the source promises is proved about that function. Pure table lookups and
string scans are functions with lemmas.

Where the code and its own comments or prompts disagree, the model follows the code and
records the difference as a finding. For example, the provider prompts
(`backend/src/services/ai-provider.service.ts`, lines 73, 115 and 189) ask for answers such as
"e7e8q", yet `parseUCIMove` drops every promotion piece but a bishop.

## Model

| member | source | states |
|---|---|---|
| ChessEngine.SquareToCoords | lib/chess-engine.ts:96-107 | coordinates exist exactly for strings matching `[a-h][1-8]`, and then lie on the board |
| ChessEngine.CoordsToSquare | lib/chess-engine.ts:109-112 | the name is a valid square exactly when the coordinates are on the board, and then reads back as the same coordinates |
| ChessEngine.CoordsToSquareIsDecimal | lib/chess-engine.ts:110-112 | the square name is the file letter `97 + file` followed by the JavaScript decimal text of `8 - rank`, negative numbers included |
| ChessEngine.SquareRoundTrip | lib/chess-engine.ts:97-112 | every valid square name survives squareToCoords followed by coordsToSquare |
| ChessEngine.ValidSquaresAreBoardSquares | lib/chess-engine.ts:97-99 | a name passes `isValidSquare` exactly when it is the name of one of the 64 board squares |
| ChessEngine.ValidOnly | lib/chess-engine.ts:196 | the `isValidSquare` filter keeps exactly the valid members |
| ChessEngine.StepTargetsMembers | lib/chess-engine.ts:212-218 | a target of the fixed-offset pass is exactly `file+df, rank+dr` for one offset, holding no piece or an opponent piece |
| ChessEngine.OffsetMovesExactly | lib/chess-engine.ts:199-221 | knight and king targets are exactly the on-board squares at the fixed offsets that are empty or hold an opponent piece |
| ChessEngine.RayStep | lib/chess-engine.ts:234-235 | the i-th ray square is valid exactly when it lies on the board |
| ChessEngine.WalkAt | lib/chess-engine.ts:233-244 | the j-th square the loop pushes is its j-th step, a valid square |
| ChessEngine.WalkInterior | lib/chess-engine.ts:237-239 | every pushed square but the last is empty |
| ChessEngine.WalkLast | lib/chess-engine.ts:237-242 | the last pushed square is empty or an opponent's |
| ChessEngine.WalkStops | lib/chess-engine.ts:235-243 | a walk that ends empty-handed before its steps run out, facing a valid square, faces the mover's own piece |
| ChessEngine.RayAlong | lib/chess-engine.ts:232-245 | a ray holds the consecutive valid squares along its direction, at most seven |
| ChessEngine.RayContents | lib/chess-engine.ts:237-243 | every ray square before the last is empty, and the last one is empty or holds an opponent piece |
| ChessEngine.RayStops | lib/chess-engine.ts:235-243 | when a ray ends on the board before its seventh step with an empty last square, the next square holds a piece of the mover's colour. So a ray stops only at the edge, after seven steps, or at the first occupied square |
| ChessEngine.RayMovesSound | lib/chess-engine.ts:232-245 | every square a ray yields is valid and not occupied by the mover's colour |
| ChessEngine.RaysSound | lib/chess-engine.ts:223-275 | the same holds for all four directions of a bishop or rook |
| ChessEngine.PawnPushesExactly | lib/chess-engine.ts:174-186 | the forward steps that are valid squares are exactly the single push onto a null square and the double push from the start rank |
| ChessEngine.PawnCaptureExactly | lib/chess-engine.ts:188-194 | a diagonal is pushed, and is a valid square, exactly when it is on the board and holds an opponent piece |
| ChessEngine.PawnMovesExactly | lib/chess-engine.ts:169-196 | a pawn target is exactly: one forward onto a null square; two forward from the start rank over two null squares; or a diagonal step onto an opponent piece |
| ChessEngine.OffsetMovesSound | lib/chess-engine.ts:199-221 | knight and king targets are valid squares without the mover's pieces |
| ChessEngine.PawnMovesSound | lib/chess-engine.ts:169-196 | pawn targets are valid squares without the mover's pieces |
| ChessEngine.PieceMovesSound | lib/chess-engine.ts:145-164 | whatever the piece type, its targets are valid squares without the mover's pieces |
| ChessEngine.ValidMovesSound | lib/chess-engine.ts:135-167 | an empty square has no moves; every move of an occupied square is a valid square without the mover's pieces |
| ChessEngine.GetPawnMoves | lib/chess-engine.ts:169-197 | the imperative pawn generator computes exactly the pawn-move function |
| ChessEngine.AddPawnCapture | lib/chess-engine.ts:189-193 | one pass of the callback appends the diagonal exactly when it holds an opponent piece |
| ChessEngine.AddPawnCaptures | lib/chess-engine.ts:188-194 | the capture loop appends exactly the opponent-occupied diagonals |
| ChessEngine.GetOffsetMoves | lib/chess-engine.ts:199-221 | the fixed-offset loop with its filter computes exactly the filtered targets |
| ChessEngine.AddStepTarget | lib/chess-engine.ts:212-218 | one `forEach` step appends the target exactly when it is empty or an opponent's, so it appends exactly StepTarget |
| ChessEngine.GetKnightMoves | lib/chess-engine.ts:199-221 | getKnightMoves equals the knight-move function |
| ChessEngine.GetKingMoves | lib/chess-engine.ts:281-303 | getKingMoves equals the king-move function |
| ChessEngine.GetSlidingMoves | lib/chess-engine.ts:232-247 | the direction loop collects the rays of every direction in order |
| ChessEngine.WalkRay | lib/chess-engine.ts:233-244 | the `for (i = 1; i < 8; i++)` loop with its breaks appends exactly the ray |
| ChessEngine.GetBishopMoves | lib/chess-engine.ts:223-248 | getBishopMoves equals the bishop rays |
| ChessEngine.GetRookMoves | lib/chess-engine.ts:250-275 | getRookMoves equals the rook rays |
| ChessEngine.GetQueenMoves | lib/chess-engine.ts:277-279 | queen moves are exactly bishop moves followed by rook moves |
| ChessEngine.GetValidMoves | lib/chess-engine.ts:135-167 | getValidMoves is empty for an empty square, and every result is a valid square not holding a piece of the mover's colour |
| ChessEngine.GetAttackedSquares | lib/chess-engine.ts:122-132 | a square is attacked exactly when some piece of that colour has it among its valid moves |
| ChessEngine.IsSquareAttacked | lib/chess-engine.ts:115-119 | the answer is true exactly when some piece of `byColor` has the square among its valid moves |
| ChessEngine.MakeMove | lib/chess-engine.ts:306-330 | an unaccepted move returns the same board. An accepted one moves the piece, empties `from` and keeps every other square. It flips the side to move, appends `from+to`, and adds a captured piece to the mover's list only. The result differs from the input exactly when the move is accepted |
| ChessEngine.InitialBoard | lib/chess-engine.ts:20-94 | all 64 squares present with the standard set-up, white to move, empty history and captures |
| GameSessions.TimeByType | backend/src/services/game.service.ts:14-18 | every game type starts with a positive clock |
| GameSessions.TimeByTypeOrdered | backend/src/services/game.service.ts:14-18 | blitz < rapid < normal |
| GameSessions.Conclude | backend/src/services/game.service.ts:84-91 | only status and winner change. Checkmate completes the game for the side that just moved. A draw, stalemate or threefold repetition completes it as a draw. Otherwise nothing changes |
| GameSessions.PlayedMove | backend/src/services/game.service.ts:79-91 | a played move appends exactly one SAN, takes the engine's side to move, FEN and PGN, and keeps identity, configuration and clocks. An active game stays active exactly when it is neither mate nor drawn |
| GameSessions.ModelOrDefault | backend/src/services/game.service.ts:129 | a missing or empty model name becomes `stockfish` |
| GameSessions.ChooseMove | backend/src/services/game.service.ts:131-146 | the provider is asked exactly when the model is not Stockfish, and Stockfish exactly when no move was obtained. The move is the first answer obtained and is missing only if every source that was asked failed |
| GameSessions.GameService.constructor | backend/src/services/game.service.ts:7-8 | both maps start empty |
| GameSessions.GameService.CreateGame | backend/src/services/game.service.ts:10-35 | the stored game is active, white to move and has no moves. Both clocks hold the game type's time. Only that id is added to both maps |
| GameSessions.ApplyAccepted | backend/src/services/game.service.ts:78-91 | the in-place updates of an accepted move give exactly the played record |
| GameSessions.GameService.MakeMove | backend/src/services/game.service.ts:54-107 | unknown id: "Game not found"; status not active: "Game is not active". A refused or throwing move fails and changes nothing. An accepted move updates the record as PlayedMove describes. Records only evolve; finished games stay frozen |
| GameSessions.GameService.GetAIMove | backend/src/services/game.service.ts:109-152 | the call fails when the game is missing or the side to move is human. Level defaults to intermediate and model to Stockfish, and the sources are asked in exactly ChooseMove's order. With no move it fails with "AI failed to generate move" and leaves the store unchanged. Otherwise the chosen move (the provider's answer when it gave one, else Stockfish's) is played through makeMove: the answer and both maps are exactly what makeMove gives for it, "Game is not active" included, since no status is checked first |
| GameSessions.GameService.GetGame | backend/src/services/game.service.ts:50-52 | a record exactly for a stored id; in a consistent store it carries that id and the FEN and PGN of the game's rules instance |
| GameSessions.GameService.GetLegalMoves | backend/src/services/game.service.ts:195-208 | nothing for an unknown game; the target squares of the given square when one is given and non-empty; otherwise every legal move in SAN |
| GameSessions.GameService.ResignGame | backend/src/services/game.service.ts:173-184 | true exactly for an existing active game, which becomes resigned and won by the other colour; otherwise nothing changes |
| GameSessions.GameService.DeleteGame | backend/src/services/game.service.ts:186-208 | returns whether the game existed; afterwards getGame is empty and getLegalMoves returns nothing |
| GameTimers.FloorAtZero | backend/src/services/game-timer.service.ts:51-53 | `Math.max(0, x)` is non-negative, at least `x`, and either `x` or 0 |
| GameTimers.Charged | backend/src/services/game-timer.service.ts:44-56 | the side to move loses the elapsed whole seconds, floored at 0. The other clock is kept and `lastUpdate` becomes now |
| GameTimers.ChargeNeverIncreases | backend/src/services/game-timer.service.ts:50-54 | a tick never adds time and never leaves a clock negative |
| GameTimers.TicksNeverOvercharge | backend/src/services/game-timer.service.ts:44-56 | two consecutive ticks never charge more seconds than really passed |
| GameTimers.TickEvents | backend/src/services/game-timer.service.ts:58-78 | exactly one timer_update with both clocks and the mover. It comes first, followed by a game_over exactly when a clock is 0; white's zero is checked first |
| GameTimers.GameTimerService.constructor | backend/src/services/game-timer.service.ts:13-14 | no timers, no socket server, no events |
| GameTimers.GameTimerService.Initialize | backend/src/services/game-timer.service.ts:16-19 | the socket server becomes available and nothing else changes |
| GameTimers.GameTimerService.StartTimer | backend/src/services/game-timer.service.ts:21-38 | any timer under the id is replaced by a running one with the given clocks; other games are untouched |
| GameTimers.ChargeClock | backend/src/services/game-timer.service.ts:50-56 | the in-place charge of the side to move gives exactly the charged timer |
| GameTimers.GameTimerService.Tick | backend/src/services/game-timer.service.ts:40-79 | a firing happens only while some interval runs for the game; without one nothing changes. Nothing happens for an unknown game, without a socket server, or under one whole second. Otherwise the clock is charged, the tick's events are emitted, and a timer at zero is removed |
| GameTimers.GameTimerService.SwitchPlayer | backend/src/services/game-timer.service.ts:81-87 | only the side to move and `lastUpdate` change; an unknown game is left alone |
| GameTimers.GameTimerService.PauseTimer | backend/src/services/game-timer.service.ts:89-95 | the stored interval is cleared; the entry and its clocks stay, so getTimer answers as before, and no interval fires for the game unless a leaked one survives |
| GameTimers.GameTimerService.PausedClockKeepsTime | backend/src/services/game-timer.service.ts:89-106 | pausing, any number of firings, then resuming leaves both clocks as they were and broadcasts nothing, unless an interval leaked earlier still fires; the resumed clock is charged only from the resume on, and resuming after a pause leaks nothing |
| GameTimers.GameTimerService.ResumeTimer | backend/src/services/game-timer.service.ts:97-106 | `lastUpdate` restarts at the resume time and a new interval is stored with the clocks kept; a still-running interval is overwritten without being cleared and keeps firing |
| GameTimers.GameTimerService.ResumeTimerClearing | backend/src/services/game-timer.service.ts:97-106 | the corrected resume: the same record, and no interval is leaked |
| GameTimers.ResumeWhileRunningLeaks | backend/src/services/game-timer.service.ts:97-104 | start, resume, pause, then a firing five seconds later: the paused white clock has lost five seconds |
| GameTimers.ResumeWhileRunningCleared | backend/src/services/game-timer.service.ts:97-104 | the same calls with the corrected resume leave the paused clocks untouched |
| GameTimers.GameTimerService.StopTimer | backend/src/services/game-timer.service.ts:108-115 | the entry is removed, idempotently, and getTimer answers null |
| GameTimers.GameTimerService.GetTimer | backend/src/services/game-timer.service.ts:117-125 | both clocks exactly for a game with a timer, null otherwise |
| AIMoveWorker.MapAIModel | backend/src/workers/ai-move.worker.ts:16-28 | the three display names map to their technical names; every other string, the technical names included, maps to itself |
| AIMoveWorker.MapAIModelIdempotent | backend/src/workers/ai-move.worker.ts:16-28 | mapping twice is mapping once |
| AIMoveWorker.MapAIModelFixedPoints | backend/src/workers/ai-move.worker.ts:16-28 | a name is left unchanged exactly when it is not a display name |
| AIMoveWorker.Verdict | backend/src/workers/ai-move.worker.ts:98-120 | success exactly when the rules library accepts the move on the FEN snapshot. Success carries from, to, SAN, `from ++ to ++ promotion` and the FEN after the move. A null answer fails naming the move |
| AIMoveWorker.ProcessAIMove | backend/src/workers/ai-move.worker.ts:30-120 | the job as evidently intended, reading the game with `getGame`: a missing or inactive game is skipped with its reason before any source is asked; a refused FEN fails after progress 10. Sources are asked in ChooseMove's exact order and count (the provider first unless the model is stockfish, then Stockfish when the model is stockfish or the provider gave nothing), with progress 10, 20, 70 and 90 as the source reports them and 100 on success. No move fails the job; otherwise the outcome is the legality verdict |
| AIMoveWorker.ProcessAIMoveAsWritten | backend/src/workers/ai-move.worker.ts:36-41 | as written, the store has no `getGameById`, so every job fails with the TypeError before any progress is reported or any source is asked |
| AIProvider.LoadKeys | backend/src/services/ai-provider.service.ts:17-20 | each key is its environment variable (or empty), trimmed, so it begins and ends with no whitespace |
| AIProvider.TrimBothEnds | backend/src/services/ai-provider.service.ts:18-19 | a trimmed string is empty or has no whitespace at either end |
| AIProvider.KeepAsWritten | backend/src/services/ai-provider.service.ts:194 | the `[^a-h0-8]` filter keeps only those characters, and keeps a string made of them whole |
| AIProvider.KeepIntended | backend/src/services/ai-provider.service.ts:194-205 | the filter with q, r and n added keeps only characters of the move alphabet |
| AIProvider.ParseCleaned | backend/src/services/ai-provider.service.ts:196-209 | under four kept characters gives null. Otherwise from and to are the first two pairs, both valid squares. A promotion is present exactly when five characters are kept, and is a letter of `qrbn` |
| AIProvider.ParseUCIMove | backend/src/services/ai-provider.service.ts:192-210 | as written: any parsed move has valid squares, and its promotion, if any, is "b" |
| AIProvider.ParseUCIMoveFixed | backend/src/services/ai-provider.service.ts:192-210 | corrected filter: any parsed move has valid squares and a promotion letter from `qrbn` |
| AIProvider.UciTextLowerAndKept | backend/src/services/ai-provider.service.ts:194 | UCI text is already lower case and survives the corrected filter |
| AIProvider.FixedParsesUci | backend/src/services/ai-provider.service.ts:192-210 | the corrected parser reads every UCI move text back as that move: parse then print is the identity |
| AIProvider.AsWrittenDropsPromotion | backend/src/services/ai-provider.service.ts:194-205 | as written, a five-letter UCI text promoting to anything but a bishop parses with no promotion |
| AIProvider.KeepAsWrittenSplit | backend/src/services/ai-provider.service.ts:194 | the filter works character by character over concatenation |
| AIProvider.QueenPromotionLost | backend/src/services/ai-provider.service.ts:194-205 | "e7e8q" parses as e7e8 with no promotion as written, and with promotion q when corrected |
| AIProvider.TemperatureTenths | backend/src/services/ai-provider.service.ts:212-220 | the temperature in tenths lies between 1 and 10 and falls by three tenths per level |
| AIProvider.TemperatureDecreasing | backend/src/services/ai-provider.service.ts:212-220 | a harder level has a strictly lower temperature |
| AIProvider.IsConfigured | backend/src/services/ai-provider.service.ts:222-227 | Stockfish is always configured, `gpt-` models exactly with an OpenAI key and `gemini-` models exactly with a Gemini key; nothing else is configured |
| AIProvider.GetAvailableModels | backend/src/services/ai-provider.service.ts:229-235 | three entries: Stockfish always configured, and the other two exactly when their key is set, agreeing with isConfigured |
| AIProvider.GetMove | backend/src/services/ai-provider.service.ts:22-47 | Stockfish, unknown models and a failed request give null. A move comes only from a configured provider model, parsed from the trimmed reply with the as-written `parseUCIMove` (lines 93 and 154) |
| AIProvider.GetMoveFixed | backend/src/services/ai-provider.service.ts:22-47 | the same dispatch with the corrected parser: a move comes only from a configured provider model, parsed from the trimmed reply with the promotion letters kept |
| AIProvider.GetMoveFixedReturnsUci | backend/src/services/ai-provider.service.ts:93-94 | with the corrected parser, a configured provider answering a UCI move text yields exactly that move, promotion included |
| AIProvider.GetMoveDropsQueen | backend/src/services/ai-provider.service.ts:93-94 | a configured OpenAI model answering "e7e8q" yields e7-e8 without promotion as written, and with a queen promotion when corrected |
| Stockfish.SkillLevel | backend/src/services/stockfish.service.ts:133-141 | beginner 1, intermediate 10, advanced 15, master 20 |
| Stockfish.Depth | backend/src/services/stockfish.service.ts:143-151 | five plies per level step, from 5 to 20 |
| Stockfish.TablesIncreasing | backend/src/services/stockfish.service.ts:133-151 | both tables are strictly increasing with difficulty |
| Stockfish.MoveAt | backend/src/services/stockfish.service.ts:117-127 | a match gives two valid squares and the optional letter right after them |
| Stockfish.FirstMatch | backend/src/services/stockfish.service.ts:117 | the leftmost match at or after a position, or none at all |
| Stockfish.FindBestmove | backend/src/services/stockfish.service.ts:116-127 | a move it reads has two valid squares |
| Stockfish.NoBestmoveIffNoMatch | backend/src/services/stockfish.service.ts:116-117 | null exactly when the output contains no `bestmove <sq><sq>` anywhere |
| Stockfish.FirstMatchIs | backend/src/services/stockfish.service.ts:117-127 | the result is read at the leftmost match |
| Stockfish.BestmoveRoundTrip | backend/src/services/stockfish.service.ts:117-127 | a `bestmove` line carrying a well-formed move gives that move back |
| Stockfish.PonderIgnored | backend/src/services/stockfish.service.ts:117-127 | `bestmove e2e4 ponder e7e5` gives e2e4 |
| Stockfish.FindStable | backend/src/services/stockfish.service.ts:116-117 | output arriving after a match does not change the answer |
| Stockfish.FoundStaysFound | backend/src/services/stockfish.service.ts:115-129 | once the chunks so far hold a match, more chunks keep the same answer |
| Stockfish.Polled | backend/src/services/stockfish.service.ts:115-129 | polling stops at the first chunk that completes a match, or when output ends |
| Stockfish.RandomMove | backend/src/services/stockfish.service.ts:153-173 | null exactly when there are no legal moves; otherwise one of them |
| Stockfish.SearchCommands | backend/src/services/stockfish.service.ts:104-109 | three commands, the position command carrying the FEN |
| Stockfish.AnyReadyokAppend | backend/src/services/stockfish.service.ts:33-41 | readiness after a chunk is readiness before or `readyok` in that chunk |
| Stockfish.SearchAnswer | backend/src/services/stockfish.service.ts:111-129 | the engine's move when its output has one, else the random fallback; null only with neither |
| Stockfish.StockfishService.constructor | backend/src/services/stockfish.service.ts:11-61 | not ready, empty queue; `uci` and `isready` are sent when the process was spawned |
| Stockfish.StockfishService.SendCommand | backend/src/services/stockfish.service.ts:63-67 | the newline-terminated command is written only while the process exists |
| Stockfish.StockfishService.OnOutput | backend/src/services/stockfish.service.ts:33-41 | the chunk is queued, and readiness is set when it contains `readyok` |
| Stockfish.StockfishService.OnError | backend/src/services/stockfish.service.ts:22-31 | an ENOENT error drops the process; other errors change nothing |
| Stockfish.StockfishService.OnClose | backend/src/services/stockfish.service.ts:47-50 | the engine is no longer ready |
| Stockfish.StockfishService.Poll | backend/src/services/stockfish.service.ts:115-129 | the polling loop returns the match in all of the output and had queued exactly the chunks up to the first match |
| Stockfish.StockfishService.PollOnce | backend/src/services/stockfish.service.ts:115-117 | one arriving chunk is queued, may set the ready flag, and the joined buffer is searched |
| Stockfish.PollStep | backend/src/services/stockfish.service.ts:115-129 | a poll without a match lets polling go on; a poll with one stops it, and later output does not change the answer |
| Stockfish.StockfishService.GetBestMove | backend/src/services/stockfish.service.ts:88-131 | without a process, the random fallback. Otherwise the queue is cleared, so an earlier `bestmove` cannot be reused, and the three commands are sent. The answer is the first match in the new output, else the random fallback |
| UserStorage.EmptyStats | lib/user-storage.ts:9-25 | every counter, average and per-type tally is 0 |
| UserStorage.WithTally | lib/user-storage.ts:124-131 | only the given game type's tally changes |
| UserStorage.WonCount | lib/user-storage.ts:135-137 | no more games are won than played |
| UserStorage.RoundDiv | lib/user-storage.ts:140-141 | `Math.round(a / b)`: the result is within half of `a / b`, with halves rounded up |
| UserStorage.RecordedEffects | lib/user-storage.ts:103-146 | the game is appended to the history, and played, moves and time grow by the game's values. Exactly one of won, draw and lost grows. Only that game type's tally changes. With wins, the averages are the rounded means over won games; otherwise they stay |
| UserStorage.NewUserConsistent | lib/user-storage.ts:67-78 | a new user's statistics agree with its empty history |
| UserStorage.RecordedConsistent | lib/user-storage.ts:103-146 | played = won + lost + draw, and the totals, tallies and averages keep agreeing with the history after each recorded game |
| UserStorage.TypeCountsAddUp | lib/user-storage.ts:122-131 | the per-type played counts add up to the games played, and the won counts to the games won |
| UserStorage.FindById | lib/user-storage.ts:105 | `findIndex`: the first user with that id, or none exactly when no user has it |
| UserStorage.InsertByWins | lib/user-storage.ts:157 | inserting keeps every user exactly once |
| UserStorage.SortByWins | lib/user-storage.ts:157 | sorting is a permutation |
| UserStorage.InsertKeepsDescending | lib/user-storage.ts:157 | insertion keeps the order by non-increasing wins, and the new head is the inserted user or the old head |
| UserStorage.SortByWinsSorted | lib/user-storage.ts:155-158 | the leaderboard is ordered by non-increasing `gamesWon` |
| UserStorage.InsertStable | lib/user-storage.ts:157 | insertion keeps users with equal wins in their order |
| UserStorage.SortByWinsStable | lib/user-storage.ts:157 | `Array.prototype.sort` is stable: users with equal wins keep their stored order |
| UserStorage.UserStore.constructor | lib/user-storage.ts:28-32 | an empty store with nobody signed in |
| UserStorage.UserStore.SetCurrentUser | lib/user-storage.ts:49-51 | the signed-in id becomes the given one; the users stay |
| UserStorage.UserStore.Logout | lib/user-storage.ts:161-163 | nobody is signed in; the users stay |
| UserStorage.UserStore.GetUserById | lib/user-storage.ts:149-152 | the first stored user with that id, as `find` returns it, or null exactly when there is none |
| UserStorage.UserStore.GetCurrentUser | lib/user-storage.ts:40-46 | null without a signed-in id or with an empty one; otherwise exactly getUserById of that id, so a stored user with that id is found, the first one |
| UserStorage.UserStore.CreateUser | lib/user-storage.ts:67-86 | a fresh user with empty stats and history, and a hash only when a password was given, is appended and signed in |
| UserStorage.UserStore.UpdateUserStats | lib/user-storage.ts:103-146 | an unknown id changes nothing; otherwise exactly that user becomes its recorded successor and every other user is kept |
| UserStorage.RecordResult | lib/user-storage.ts:108-142 | the step-by-step updates of the found user's history, counters, tally and averages produce exactly the recorded successor |
| UserStorage.UserStore.GetLeaderboard | lib/user-storage.ts:155-158 | a permutation of the stored users |
| MoveLog.Pairs | components/move-log.tsx:48 | the number of move numbers is `ceil(n / 2)` |
| MoveLog.HandleCopyPGN | components/move-log.tsx:15-22 | the loop stepping by two builds exactly the trimmed copy text |
| MoveLog.GroupTokens | components/move-log.tsx:19 | a full pair gives three tokens and a lone white move two |
| MoveLog.TokensLayout | components/move-log.tsx:18-19 | token `3j` is the move number `j+1.`. It is followed by white's move and, when present, black's, so the numbers run 1, 2, 3… in order |
| MoveLog.JoinAppend | components/move-log.tsx:19 | joining two non-empty lists is joining each with a separator between |
| MoveLog.JoinGroup | components/move-log.tsx:19 | one group's tokens joined by spaces |
| MoveLog.GroupIsTokens | components/move-log.tsx:19 | the template string of one group is its tokens joined by spaces, plus one trailing space, or two for a lone white move |
| MoveLog.RawIsTokens | components/move-log.tsx:17-20 | the text before trimming is the movetext followed by the trailing spaces |
| MoveLog.CopyTextIsMoveText | components/move-log.tsx:17-22 | when the last move does not end in whitespace, the copied text is exactly the move tokens (`1. e4 e5 2. Nf3`) joined by single spaces, as in PGN movetext (section 8.2.2 of the PGN standard) |
| MoveLog.MoveTextEnds | components/move-log.tsx:19-22 | such movetext starts with a digit and ends with the last move, so it has no whitespace at either end |
| MoveLog.TrimSpaces | components/move-log.tsx:22 | trimming removes exactly the trailing spaces |
| MoveLog.JoinEndsWith | components/move-log.tsx:19-22 | a join ends with the last part's final character |
| MoveLog.JoinStartsWith | components/move-log.tsx:19 | a join starts with the first part's first character |
| MoveLog.CopyTextEmpty | components/move-log.tsx:17-22 | no moves give the empty string |
| MoveLog.Rows | components/move-log.tsx:48-61 | `ceil(n / 2)` rows |
| MoveLog.View | components/move-log.tsx:43-44 | the placeholder appears exactly when there are no moves |
| MoveLog.RowsShowEveryMove | components/move-log.tsx:48-61 | the first k rows show the first moves in order, row i showing `moves[2i]` and then `moves[2i+1]` when present |
| MoveLog.RowsRoundTrip | components/move-log.tsx:48-61 | reading the rows back gives every move once, in input order |
| CapturedPieces.PieceValue | components/captured-pieces.tsx:8-15 | `pieceValues[p] \|\| 0`: at most 9, and 9 only for a queen |
| CapturedPieces.TotalValueBounds | components/captured-pieces.tsx:31 | `0 <= total <= 9 * length`, with the maximum exactly when every piece is a queen |
| CapturedPieces.TotalValueConcat | components/captured-pieces.tsx:31 | the total of two lists is the sum of their totals |
| CapturedPieces.TotalValuePermutation | components/captured-pieces.tsx:31 | the total does not depend on the order of the pieces |
| CapturedPieces.GroupCounts | components/captured-pieces.tsx:23-29 | the accumulator's keys are exactly the captured letters and each count is that letter's number of occurrences |
| CapturedPieces.Distinct | components/captured-pieces.tsx:23-29 | the letters that occur, each once |
| CapturedPieces.DistinctFirstAppearance | components/captured-pieces.tsx:23-29 | the letters come in order of first appearance, as the accumulator object gains its keys |
| CapturedPieces.SumCountsAdd | components/captured-pieces.tsx:25 | one more piece raises the summed counts by one exactly when its letter is listed |
| CapturedPieces.CountsAddUp | components/captured-pieces.tsx:23-29 | the grouped counts add up to the number of captured pieces |
| CapturedPieces.View | components/captured-pieces.tsx:18-31 | the placeholder exactly for an empty list, otherwise the pieces with their total, at most 9 per piece |
| GameBoard.InitialTime | components/game-board.tsx:52-63 | normal 3600, rapid 600, blitz 180, and 600 for any other name |
| GameBoard.InitialTimeAgreesWithServer | components/game-board.tsx:52-63 | the screen starts each clock with the server's time for the same game type |
| GameBoard.InitialTimeWholeMinutes | components/game-board.tsx:52-63 | every initial time is a whole number of minutes, at least three |
| GameBoard.FormatTime | components/game-board.tsx:169-173 | the text is the whole minutes in decimal, a colon, and two more characters |
| GameBoard.ParseClock | components/game-board.tsx:169-173 | a clock text that reads back has the `m:ss` shape |
| GameBoard.SecondsText | components/game-board.tsx:171-172 | the padded seconds are two digits worth `s % 60` |
| GameBoard.FormatTimeRoundTrip | components/game-board.tsx:169-173 | the clock text reads back as the seconds it shows, so different times never look alike |
| GameBoard.InitialClockText | components/game-board.tsx:52-63 | fresh clocks show 60:00, 10:00 and 3:00 |
| GameBoard.Ticked | components/game-board.tsx:84-92 | a tick takes one second off, never below zero, and a clock reaches zero from 1 or 0 only |
| GameBoard.TicksFloor | components/game-board.tsx:81-99 | after k ticks a clock shows `max(0, t - k)`, and it is at zero exactly once k reaches t |
| GameBoard.ReportFor | components/game-board.tsx:70-72 | the parent hears "win" exactly when white wins, and never "draw" |
| GameBoard.ResignWinner | components/game-board.tsx:164 | the side not to move wins; white is named when no board is loaded |
| GameBoard.BoardScreen.constructor | components/game-board.tsx:39-66 | no board, no moves, playing, not paused, no prediction state, both clocks at the game type's initial time |
| GameBoard.BoardScreen.Mount | components/game-board.tsx:74-77 | the initial board is loaded and nothing else changes |
| GameBoard.BoardScreen.Tick | components/game-board.tsx:79-105 | no tick happens unless the screen is unpaused, not predicting, has a board and is playing. A tick lowers only the mover's clock, by Ticked. A clock left at zero reports the other side as winner, again on each further tick. Nothing else changes |
| GameBoard.BoardScreen.TogglePause | components/game-board.tsx:258 | only the pause flag flips |
| GameBoard.BoardScreen.SetBoard | components/game-board.tsx:241 | only the board is replaced |
| GameBoard.BoardScreen.EnterPredictionMode | components/game-board.tsx:107-114 | with a board, copies of board and moves are saved, exploratory moves start empty and prediction mode is on; without one nothing changes |
| GameBoard.BoardScreen.ExitPredictionMode | components/game-board.tsx:116-125 | with a saved board, board and moves return to the saved copies, and the saved copies and exploratory moves are cleared. With none, nothing changes |
| GameBoard.BoardScreen.HandleMove | components/game-board.tsx:127-134 | with a board, the move is appended to the exploratory list in prediction mode, leaving the real list alone, and to the real list otherwise |
| GameBoard.BoardScreen.HandleUndo | components/game-board.tsx:157-161 | exactly the last move is dropped, nothing when there is none; the board is not touched |
| GameBoard.BoardScreen.HandleResign | components/game-board.tsx:163-167 | the game is resigned and the clocks stop. The parent hears the win of the side not to move |
| GameBoard.BoardScreen.ExplorePrediction | components/game-board.tsx:107-134 | entering prediction mode, playing and changing the board, then leaving, restores board and moves as at entry. The exploratory moves are cleared and the clocks did not run |

## Left out

- `getPieceSymbol` (lib/chess-engine.ts:333-348) and the piece symbols of the panels: display glyphs only.
- chess.js itself: each query is an uninterpreted function of `Rules.ChessRules`. That covers FEN, SAN and PGN text, legality, mate and draw detection. `getLegalMoves` passes its content through.
- `getAllGames`, the `emitCallback` of `getAIMove`, and the `setTimeout` self-scheduling of AI-versus-AI turns: timing and concurrency; only the per-call decision is modelled.
- The generated game id (`Date.now()` plus `Math.random`) and the start time: they are parameters of `CreateGame`.
- The timer service's `setInterval`/`clearInterval` handles and `Date.now()`: each interval firing becomes an explicit `Tick(gameId, now)` call, allowed to happen only while an interval runs for the game. The stored handle becomes a `running` flag, and handles no record holds any more become the `strays` multiset. How often and when intervals fire is not modelled. Console logging is dropped.
- The HTTP requests to OpenAI and Gemini and their prompt: network I/O. What they answered is the `reply` parameter of `AIProvider.GetMove`, and a thrown error is a missing reply.
- Non-ASCII lower-casing in `parseUCIMove`: `Text.ToLower` only maps ASCII capitals. No other character lowercases into the kept alphabet, so the result is unchanged.
- The Stockfish child process: the model does not cover `waitForReady`, the 100 ms poll and 5 s timeout schedule, stderr, or `analyzePosition` (which uses floating-point scores). Output arrives as a list of chunks, and a search that times out is one whose chunks hold no match.
- Stockfish.RandomMove: the uniformly random index is a parameter, so only "some legal move" is stated. An invalid FEN handed to `new Chess(fen)` in `getRandomMove` (which would throw) is not modelled.
- The BullMQ queue, its retry, backoff, concurrency and rate-limit configuration, and the worker's 15-second race: what the provider answered in time is the `providerAnswer` parameter.
- ProcessAIMove: reads the game with `getGame`. The worker as written calls `GameService.getGameById` (backend/src/workers/ai-move.worker.ts:40), which the exported store (backend/src/services/game.service.ts:211) does not have. Every job then fails with a TypeError before any progress is reported, so none of the outcomes ProcessAIMove describes can happen as written; `ProcessAIMoveAsWritten` models that, see Findings.
- Object-prototype keys: `mapAIModel` and `pieceValues` use plain object lookups, so keys such as `"constructor"` would find inherited members. The model treats every non-listed string as absent.
- localStorage, JSON (de)serialisation and the `typeof window` server-side check in `lib/user-storage.ts`: the store is a `seq` field.
- `authenticateUser`, SHA-256 hashing and `randomUUID`: foreign calls. The hash is the `hash` parameter of `CreateUser`, and the id and creation time are parameters as well.
- Teach mode (`generateTeachContent`, the teaching panel and the explanation request) in the game screen, `gameStartTime` and the rendering: random canned texts and presentation.
- The React state batching of the game screen: each handler is modelled as applying its updates at once. Sub-second drift of `setInterval` is not modelled.
- ChessEngine.GetAttackedSquares: returns a `set`, not the array of the source's `Set` in insertion order. Only membership is used (by `isSquareAttacked`).
- Game records are values in the maps: the source's in-place edits of a `Game` object become replacing the map entry, and aliasing between the record and the map is not modelled.

## Findings

| source | as written | input that shows it | evidently intended | confidence | as-written member | corrected member |
|---|---|---|---|---|---|---|
| backend/src/services/ai-provider.service.ts:194-205 | the clean-up filter `[^a-h0-8]` removes q, r and n before the promotion letter is read, so the `[qrbn]?` test only ever sees a bishop | `"e7e8q"` parses as e7-e8 with no promotion, and so do `"e7e8r"` and `"e7e8n"`: the move reaches the rules library without its promotion piece | keep the promotion letters through the filter, so every UCI move text reads back as itself | not executed | AIProvider.ParseUCIMove, AIProvider.AsWrittenDropsPromotion, AIProvider.QueenPromotionLost, AIProvider.GetMove, AIProvider.GetMoveDropsQueen | AIProvider.ParseUCIMoveFixed, AIProvider.FixedParsesUci, AIProvider.GetMoveFixed, AIProvider.GetMoveFixedReturnsUci |
| backend/src/workers/ai-move.worker.ts:40 | the worker reads the game with `GameService.getGameById`, but the exported store (backend/src/services/game.service.ts:211) only has `getGame` (line 50) | any job, for any game: the lookup throws a TypeError inside the `try`, which is rethrown before progress 10, so no job is ever skipped or completed | look the game up with `getGame`, then skip, fail or complete as the rest of the function describes | not executed | AIMoveWorker.ProcessAIMoveAsWritten | AIMoveWorker.ProcessAIMove |
| backend/src/services/game-timer.service.ts:101-104 | `resumeTimer` stores a new interval without clearing the one already stored | start a timer, resume it without pausing, pause it: the first interval was never cleared and keeps calling `tick`, so the paused clock keeps losing time, and a later stop does not end it either | clear the stored interval before starting a new one, so that a paused clock loses no time | not executed | GameTimers.GameTimerService.ResumeTimer, GameTimers.ResumeWhileRunningLeaks | GameTimers.GameTimerService.ResumeTimerClearing, GameTimers.ResumeWhileRunningCleared |
