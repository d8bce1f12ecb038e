/** The game screen's state (`components/game-board.tsx`): the two clocks and the rule by
    which the interval callback runs them down, prediction mode (explore moves on a copy and
    return to the real game), the move list with undo, resignation, and the `m:ss` clock text.
    The React state hooks become the fields of one object; each handler and the interval
    callback become methods that update those fields. What the parent's `onGameEnd` is told is
    kept as a list of reports. */
module GameBoard {
  import opened Types
  import opened Text
  import opened ChessEngine
  import GameSessions

  /** The `gameStatus` state: "playing" | "checkmate" | "stalemate" | "resigned". */
  datatype BoardStatus = Playing | Checkmate | Stalemate | ResignedGame

  /** What `onGameEnd` is called with. */
  datatype Report = Win | Loss | Draw

  /** The string a game type travels as. */
  function GameTypeName(t: GameType): string {
    match t
    case Normal => "normal"
    case Rapid => "rapid"
    case Blitz => "blitz"
  }

  /** `getInitialTime`: seconds on each clock for a game type, 600 for an unknown name. */
  function InitialTime(gameType: string): (seconds: nat)
    ensures gameType == "normal" ==> seconds == 3600
    ensures gameType == "rapid" ==> seconds == 600
    ensures gameType == "blitz" ==> seconds == 180
    ensures gameType != "normal" && gameType != "blitz" ==> seconds == 600
  {
    if gameType == "normal" then 3600
    else if gameType == "rapid" then 600
    else if gameType == "blitz" then 180
    else 600
  }

  /** The screen starts each clock with the time the server gives the same game type. */
  lemma InitialTimeAgreesWithServer(t: GameType)
    ensures InitialTime(GameTypeName(t)) == GameSessions.TimeByType(t)
  {
  }

  /** Every initial time is a whole number of minutes, at least three. */
  lemma InitialTimeWholeMinutes(gameType: string)
    ensures InitialTime(gameType) % 60 == 0 && InitialTime(gameType) >= 180
  {
  }

  /** `formatTime`: whole minutes, a colon, and the remaining seconds padded to two digits. */
  function FormatTime(seconds: nat): (text: string)
    ensures |text| >= 4 && text[|text| - 3] == ':'
    ensures text[..|text| - 3] == NatToDecimal(seconds / 60)
  {
    NatToDecimal(seconds / 60) + ":" + PadTwo(NatToDecimal(seconds % 60))
  }

  /** Reads a clock text back: digits, a colon, and exactly two digits worth less than 60. */
  function ParseClock(text: string): (r: Option<nat>)
    ensures r.Some? ==> |text| >= 4 && text[|text| - 3] == ':'
  {
    if |text| >= 4 && text[|text| - 3] == ':'
       && (forall i :: 0 <= i < |text| - 3 ==> IsDigit(text[i]))
       && IsDigit(text[|text| - 2]) && IsDigit(text[|text| - 1])
       && DecimalValue(text[|text| - 2..]) < 60
    then Some(DecimalValue(text[..|text| - 3]) * 60 + DecimalValue(text[|text| - 2..]))
    else None
  }

  /** The seconds part is two digits whose value is `seconds % 60`. */
  lemma SecondsText(n: nat)
    requires n < 60
    ensures |PadTwo(NatToDecimal(n))| == 2
    ensures IsDigit(PadTwo(NatToDecimal(n))[0]) && IsDigit(PadTwo(NatToDecimal(n))[1])
    ensures DecimalValue(PadTwo(NatToDecimal(n))) == n
  {
    DecimalRoundTrip(n);
    var d := NatToDecimal(n);
    if n < 10 {
      var p := PadTwo(d);
      assert p == ['0', d[0]];
      assert p[..1] == ['0'];
      assert [d[0]][..0] == [];
      assert DecimalValue(['0']) == 0 by {
        assert ['0'][..0] == [];
      }
      assert DecimalValue(d) == d[0] as int - '0' as int by {
        assert d == [d[0]];
      }
    }
  }

  /** The clock text loses nothing: it reads back as the seconds it shows, so two different
      times never show the same text. */
  lemma {:induction false} FormatTimeRoundTrip(seconds: nat)
    ensures ParseClock(FormatTime(seconds)) == Some(seconds)
  {
    var mins := NatToDecimal(seconds / 60);
    var secs := PadTwo(NatToDecimal(seconds % 60));
    SecondsText(seconds % 60);
    DecimalRoundTrip(seconds / 60);
    var text := FormatTime(seconds);
    assert text == mins + ":" + secs;
    assert text[..|text| - 3] == mins;
    assert text[|text| - 2..] == secs;
    assert text[|text| - 2] == secs[0] && text[|text| - 1] == secs[1];
    assert forall i :: 0 <= i < |text| - 3 ==> text[i] == mins[i];
  }

  /** A fresh clock shows its minutes and ":00". */
  lemma InitialClockText()
    ensures FormatTime(InitialTime("normal")) == "60:00"
    ensures FormatTime(InitialTime("rapid")) == "10:00"
    ensures FormatTime(InitialTime("blitz")) == "3:00"
  {
    assert InitialTime("normal") == 3600 && InitialTime("rapid") == 600 && InitialTime("blitz") == 180;
    assert 3600 / 60 == 60 && 600 / 60 == 10 && 180 / 60 == 3;
    assert 3600 % 60 == 0 && 600 % 60 == 0 && 180 % 60 == 0;
    assert PadTwo(NatToDecimal(0)) == "00" by {
      assert NatToDecimal(0) == "0";
    }
    assert NatToDecimal(60) == "60" by {
      assert NatToDecimal(6) == "6";
    }
    assert NatToDecimal(10) == "10" by {
      assert NatToDecimal(1) == "1";
    }
    assert NatToDecimal(3) == "3";
  }

  /** `Math.max(0, t - 1)`: one second off a clock, never below zero. */
  function Ticked(t: nat): (n: nat)
    ensures n <= t
    ensures t > 0 ==> n == t - 1
    ensures n == 0 <==> t <= 1
  {
    if t == 0 then 0 else t - 1
  }

  /** A clock after `k` ticks of the interval callback. */
  function Ticks(t: nat, k: nat): nat {
    if k == 0 then t else Ticked(Ticks(t, k - 1))
  }

  /** `k` ticks take `k` seconds off, floored at zero: a clock reaches zero after exactly as
      many ticks as it had seconds, and stays there. */
  lemma {:induction false} TicksFloor(t: nat, k: nat)
    ensures Ticks(t, k) == if k >= t then 0 else t - k
    ensures Ticks(t, k) == 0 <==> k >= t
  {
    if k > 0 {
      TicksFloor(t, k - 1);
    }
  }

  /** `handleGameEnd`: the parent hears "win" when white wins and "loss" otherwise. */
  function ReportFor(winner: Color): (r: Report)
    ensures r == Win <==> winner == White
    ensures r != Draw
  {
    if winner == White then Win else Loss
  }

  /** `board?.currentPlayer === "w" ? "black" : "white"`: the side to move resigns, and with no
      board loaded white is named the winner. */
  function ResignWinner(board: Option<Board>): (w: Color)
    ensures board.Some? ==> w == board.value.currentPlayer.Opposite()
    ensures board.None? ==> w == White
  {
    if board.Some? && board.value.currentPlayer == White then Black else White
  }

  class BoardScreen {
    var board: Option<Board>
    var moves: seq<string>
    var isPaused: bool
    var gameStatus: BoardStatus
    var predictionMode: bool
    var savedBoard: Option<Board>
    var savedMoves: seq<string>
    var predictionMoves: seq<string>
    var whiteTime: nat
    var blackTime: nat
    /** Every call of `onGameEnd`, in order. */
    var reported: seq<Report>

    /** The state hooks' initial values: no board yet, both clocks at the game type's time. */
    constructor(gameType: string)
      ensures board.None? && moves == [] && !isPaused && gameStatus == Playing
      ensures !predictionMode && savedBoard.None? && savedMoves == [] && predictionMoves == []
      ensures whiteTime == InitialTime(gameType) && blackTime == InitialTime(gameType)
      ensures reported == []
    {
      board := None;
      moves := [];
      isPaused := false;
      gameStatus := Playing;
      predictionMode := false;
      savedBoard := None;
      savedMoves := [];
      predictionMoves := [];
      whiteTime := InitialTime(gameType);
      blackTime := InitialTime(gameType);
      reported := [];
    }

    /** The mount effect: the initial position is loaded. */
    method Mount()
      modifies this
      ensures board == Some(InitialBoard())
      ensures moves == old(moves) && isPaused == old(isPaused) && gameStatus == old(gameStatus)
      ensures predictionMode == old(predictionMode) && savedBoard == old(savedBoard)
      ensures savedMoves == old(savedMoves) && predictionMoves == old(predictionMoves)
      ensures whiteTime == old(whiteTime) && blackTime == old(blackTime) && reported == old(reported)
    {
      board := Some(InitialBoard());
    }

    /** The condition under which the interval is running. */
    predicate Ticking()
      reads this
    {
      !isPaused && !predictionMode && board.Some? && gameStatus == Playing
    }

    /** The interval callback, once a second. When the interval is running only the clock of
        the side to move loses a second, floored at zero; a tick that leaves it at zero tells
        the parent that the other side won. The status does not change, so a clock at zero
        reports again on every further tick. When the interval is not running nothing
        happens. */
    method Tick()
      modifies this
      ensures board == old(board) && moves == old(moves) && isPaused == old(isPaused)
      ensures gameStatus == old(gameStatus) && predictionMode == old(predictionMode)
      ensures savedBoard == old(savedBoard) && savedMoves == old(savedMoves)
      ensures predictionMoves == old(predictionMoves)
      ensures !old(Ticking()) ==> whiteTime == old(whiteTime) && blackTime == old(blackTime) && reported == old(reported)
      ensures old(Ticking()) && old(board).value.currentPlayer == White ==>
        && whiteTime == Ticked(old(whiteTime)) && blackTime == old(blackTime)
        && reported == old(reported) + (if whiteTime == 0 then [ReportFor(Black)] else [])
      ensures old(Ticking()) && old(board).value.currentPlayer == Black ==>
        && blackTime == Ticked(old(blackTime)) && whiteTime == old(whiteTime)
        && reported == old(reported) + (if blackTime == 0 then [ReportFor(White)] else [])
    {
      if Ticking() {
        if board.value.currentPlayer == White {
          var newTime := if whiteTime >= 1 then whiteTime - 1 else 0;
          if newTime == 0 {
            reported := reported + [ReportFor(Black)];
          }
          whiteTime := newTime;
        } else {
          var newTime := if blackTime >= 1 then blackTime - 1 else 0;
          if newTime == 0 {
            reported := reported + [ReportFor(White)];
          }
          blackTime := newTime;
        }
      }
    }

    /** The pause button. */
    method TogglePause()
      modifies this
      ensures isPaused == !old(isPaused)
      ensures board == old(board) && moves == old(moves) && gameStatus == old(gameStatus)
      ensures predictionMode == old(predictionMode) && savedBoard == old(savedBoard)
      ensures savedMoves == old(savedMoves) && predictionMoves == old(predictionMoves)
      ensures whiteTime == old(whiteTime) && blackTime == old(blackTime) && reported == old(reported)
    {
      isPaused := !isPaused;
    }

    /** `onBoardChange`: the chessboard replaces the board (in prediction mode too). */
    method SetBoard(b: Board)
      modifies this
      ensures board == Some(b)
      ensures moves == old(moves) && isPaused == old(isPaused) && gameStatus == old(gameStatus)
      ensures predictionMode == old(predictionMode) && savedBoard == old(savedBoard)
      ensures savedMoves == old(savedMoves) && predictionMoves == old(predictionMoves)
      ensures whiteTime == old(whiteTime) && blackTime == old(blackTime) && reported == old(reported)
    {
      board := Some(b);
    }

    /** `handleEnterPredictionMode`: with a board loaded, a copy of the board and of the move
        list is put aside, the exploratory moves start empty and prediction mode is on. */
    method EnterPredictionMode()
      modifies this
      ensures old(board).Some? ==>
        && savedBoard == old(board) && savedMoves == old(moves)
        && predictionMoves == [] && predictionMode
      ensures old(board).None? ==>
        && savedBoard == old(savedBoard) && savedMoves == old(savedMoves)
        && predictionMoves == old(predictionMoves) && predictionMode == old(predictionMode)
      ensures board == old(board) && moves == old(moves) && isPaused == old(isPaused)
      ensures gameStatus == old(gameStatus)
      ensures whiteTime == old(whiteTime) && blackTime == old(blackTime) && reported == old(reported)
    {
      if board.Some? {
        savedBoard := board;
        savedMoves := moves;
        predictionMoves := [];
        predictionMode := true;
      }
    }

    /** `handleExitPredictionMode`: with a saved board, board and moves go back to what was put
        aside, the saved copies and exploratory moves are cleared and prediction mode is off. */
    method ExitPredictionMode()
      modifies this
      ensures old(savedBoard).Some? ==>
        && board == old(savedBoard) && moves == old(savedMoves)
        && savedBoard.None? && savedMoves == [] && predictionMoves == [] && !predictionMode
      ensures old(savedBoard).None? ==>
        && board == old(board) && moves == old(moves) && savedBoard == old(savedBoard)
        && savedMoves == old(savedMoves) && predictionMoves == old(predictionMoves)
        && predictionMode == old(predictionMode)
      ensures isPaused == old(isPaused) && gameStatus == old(gameStatus)
      ensures whiteTime == old(whiteTime) && blackTime == old(blackTime) && reported == old(reported)
    {
      if savedBoard.Some? {
        board := savedBoard;
        moves := savedMoves;
        savedBoard := None;
        savedMoves := [];
        predictionMoves := [];
        predictionMode := false;
      }
    }

    /** `handleMove` without the teaching panel: with a board loaded the move goes to the
        exploratory list in prediction mode and to the real list otherwise. */
    method HandleMove(move: string)
      modifies this
      ensures old(board).Some? && old(predictionMode) ==> predictionMoves == old(predictionMoves) + [move] && moves == old(moves)
      ensures old(board).Some? && !old(predictionMode) ==> moves == old(moves) + [move] && predictionMoves == old(predictionMoves)
      ensures old(board).None? ==> moves == old(moves) && predictionMoves == old(predictionMoves)
      ensures board == old(board) && isPaused == old(isPaused) && gameStatus == old(gameStatus)
      ensures predictionMode == old(predictionMode) && savedBoard == old(savedBoard) && savedMoves == old(savedMoves)
      ensures whiteTime == old(whiteTime) && blackTime == old(blackTime) && reported == old(reported)
    {
      if board.Some? {
        if predictionMode {
          predictionMoves := predictionMoves + [move];
        } else {
          moves := moves + [move];
        }
      }
    }

    /** `handleUndo`: the last entry of the move list is dropped; the board is not touched. */
    method HandleUndo()
      modifies this
      ensures |old(moves)| > 0 ==> moves == old(moves)[..|old(moves)| - 1]
      ensures |old(moves)| > 0 ==> old(moves) == moves + [old(moves)[|old(moves)| - 1]]
      ensures old(moves) == [] ==> moves == []
      ensures board == old(board) && isPaused == old(isPaused) && gameStatus == old(gameStatus)
      ensures predictionMode == old(predictionMode) && savedBoard == old(savedBoard)
      ensures savedMoves == old(savedMoves) && predictionMoves == old(predictionMoves)
      ensures whiteTime == old(whiteTime) && blackTime == old(blackTime) && reported == old(reported)
    {
      if |moves| > 0 {
        moves := moves[..|moves| - 1];
      }
    }

    /** `handleResign`: the game is resigned and the parent hears that the side not to move
        won, which stops the clocks. */
    method HandleResign()
      modifies this
      ensures gameStatus == ResignedGame && !Ticking()
      ensures reported == old(reported) + [ReportFor(ResignWinner(old(board)))]
      ensures board == old(board) && moves == old(moves) && isPaused == old(isPaused)
      ensures predictionMode == old(predictionMode) && savedBoard == old(savedBoard)
      ensures savedMoves == old(savedMoves) && predictionMoves == old(predictionMoves)
      ensures whiteTime == old(whiteTime) && blackTime == old(blackTime)
    {
      gameStatus := ResignedGame;
      reported := reported + [ReportFor(ResignWinner(board))];
    }

    /** A visit to prediction mode: entering, playing `move` on the copy while a second of
        the interval passes and the chessboard shows `scratch`, and leaving again gives back the
        board and the move list as they were, with no exploratory moves left and the clocks
        untouched. */
    method ExplorePrediction(move: string, scratch: Board)
      requires board.Some?
      modifies this
      ensures board == old(board) && moves == old(moves)
      ensures !predictionMode && predictionMoves == [] && savedBoard.None? && savedMoves == []
      ensures whiteTime == old(whiteTime) && blackTime == old(blackTime) && reported == old(reported)
    {
      EnterPredictionMode();
      HandleMove(move);
      assert predictionMoves == [move];
      Tick();
      SetBoard(scratch);
      ExitPredictionMode();
    }
  }
}
