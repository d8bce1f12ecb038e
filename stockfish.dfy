/** The Stockfish wrapper (`backend/src/services/stockfish.service.ts`) without its child
    process: the difficulty tables, the extraction of the engine's `bestmove` reply (the UCI
    protocol's "Engine to GUI: bestmove" message), the random legal-move fallback, and the
    service's output buffer, readiness flag and command stream. What the process writes on
    stdout within the five-second search window is a parameter; what it is sent on stdin is
    appended to `commands`. */
module Stockfish {
  import opened Types
  import opened Text
  import opened ChessEngine

  /** `getSkillLevel`: the engine's "Skill Level" option per difficulty. */
  function SkillLevel(level: Level): (s: nat)
    ensures 1 <= s <= 20
    ensures level == Beginner ==> s == 1
    ensures level == Intermediate ==> s == 10
    ensures level == Advanced ==> s == 15
    ensures level == Master ==> s == 20
  {
    match level
    case Beginner => 1
    case Intermediate => 10
    case Advanced => 15
    case Master => 20
  }

  /** `getDepth`: the search depth in plies per difficulty. */
  function Depth(level: Level): (d: nat)
    ensures 5 <= d <= 20 && d % 5 == 0
    ensures d == 5 * (LevelRank(level) + 1)
  {
    match level
    case Beginner => 5
    case Intermediate => 10
    case Advanced => 15
    case Master => 20
  }

  /** Both tables grow strictly with difficulty. */
  lemma TablesIncreasing(a: Level, b: Level)
    requires LevelRank(a) < LevelRank(b)
    ensures SkillLevel(a) < SkillLevel(b)
    ensures Depth(a) < Depth(b)
  {
  }

  // ---------------------------------------------------------------- the bestmove reply

  /** `/bestmove ([a-h][1-8])([a-h][1-8])([qrbn])?/` matches at index `i` of `s`. */
  predicate MatchAt(s: string, i: nat) {
    && i + 13 <= |s|
    && s[i..i + 9] == "bestmove "
    && IsValidSquare(s[i + 9..i + 11]) && IsValidSquare(s[i + 11..i + 13])
  }

  /** The groups of a match at `i`: the optional promotion group is greedy, so it takes the
      next character when that is one of q, r, b, n. */
  function MoveAt(s: string, i: nat): (m: AIMove)
    requires MatchAt(s, i)
    ensures IsValidSquare(m.from) && IsValidSquare(m.to)
    ensures m.promotion.Some? <==> i + 13 < |s| && IsPromotionLetter(s[i + 13])
  {
    AIMove(s[i + 9..i + 11], s[i + 11..i + 13],
      if i + 13 < |s| && IsPromotionLetter(s[i + 13]) then Some([s[i + 13]]) else None)
  }

  /** The leftmost match at or after `i`. */
  function FirstMatch(s: string, i: nat): (r: Option<nat>)
    requires i <= |s|
    ensures r.Some? ==> i <= r.value && MatchAt(s, r.value)
    ensures r.Some? ==> forall j: nat :: i <= j < r.value ==> !MatchAt(s, j)
    ensures r.None? ==> forall j: nat :: i <= j ==> !MatchAt(s, j)
    decreases |s| - i
  {
    if i + 13 > |s| then None
    else if MatchAt(s, i) then Some(i)
    else FirstMatch(s, i + 1)
  }

  /** `output.match(...)` for the `bestmove` regex, turned into a move. */
  function FindBestmove(output: string): (r: Option<AIMove>)
    ensures r.Some? ==> IsValidSquare(r.value.from) && IsValidSquare(r.value.to)
  {
    match FirstMatch(output, 0)
    case Some(i) => Some(MoveAt(output, i))
    case None => None
  }

  /** There is no answer exactly when the pattern matches nowhere. */
  lemma NoBestmoveIffNoMatch(output: string)
    ensures FindBestmove(output).None? <==> forall j: nat :: !MatchAt(output, j)
  {
    var r := FirstMatch(output, 0);
    if r.Some? {
      assert MatchAt(output, r.value);
    }
  }

  /** The first match is the one at `i` when `i` matches and nothing before it does. */
  lemma FirstMatchIs(s: string, i: nat)
    requires MatchAt(s, i) && forall j: nat :: j < i ==> !MatchAt(s, j)
    ensures FindBestmove(s) == Some(MoveAt(s, i))
  {
    var r := FirstMatch(s, 0);
    assert r.Some? && r.value == i;
  }

  /** A well-formed move as the engine writes it. */
  predicate WellFormed(m: AIMove) {
    && IsValidSquare(m.from) && IsValidSquare(m.to)
    && (m.promotion.Some? ==> |m.promotion.value| == 1 && IsPromotionLetter(m.promotion.value[0]))
  }

  /** A reply that starts with `bestmove <move>` yields that move, provided the text after a
      move without promotion does not begin with a promotion letter (in practice it is a
      space before `ponder`, or a line end). */
  lemma {:induction false} BestmoveRoundTrip(m: AIMove, rest: string)
    requires WellFormed(m)
    requires m.promotion.None? ==> rest == [] || !IsPromotionLetter(rest[0])
    ensures FindBestmove("bestmove " + UciText(m) + rest) == Some(m)
  {
    var s := "bestmove " + UciText(m) + rest;
    assert s[..9] == "bestmove ";
    assert s[9..11] == m.from && s[11..13] == m.to;
    assert MatchAt(s, 0);
    FirstMatchIs(s, 0);
    if m.promotion.Some? {
      assert s[13] == m.promotion.value[0];
      assert [s[13]] == m.promotion.value;
    } else if rest != [] {
      assert s[13] == rest[0];
    }
  }

  /** The usual reply line: the move, then the expected answer after `ponder`. */
  lemma PonderIgnored()
    ensures FindBestmove("bestmove e2e4 ponder e7e5") == Some(AIMove("e2", "e4", None))
  {
    assert IsValidSquare("e2") && IsValidSquare("e4");
    assert "bestmove e2e4 ponder e7e5" == "bestmove " + UciText(AIMove("e2", "e4", None)) + " ponder e7e5";
    BestmoveRoundTrip(AIMove("e2", "e4", None), " ponder e7e5");
  }

  /** More output after a line break never changes the move found: the leftmost match stays
      leftmost, and a match that ended the text is followed by the break, which is no
      promotion letter. */
  lemma {:induction false} FindStable(s: string, t: string)
    requires FindBestmove(s).Some?
    ensures FindBestmove(s + "\n" + t) == FindBestmove(s)
  {
    var u := s + "\n" + t;
    var i := FirstMatch(s, 0).value;
    assert u[..|s|] == s;
    assert u[i..i + 9] == s[i..i + 9] && u[i + 9..i + 11] == s[i + 9..i + 11] && u[i + 11..i + 13] == s[i + 11..i + 13];
    assert MatchAt(u, i);
    forall j: nat | j < i ensures !MatchAt(u, j) {
      assert !MatchAt(s, j);
      assert u[j..j + 9] == s[j..j + 9] && u[j + 9..j + 11] == s[j + 9..j + 11] && u[j + 11..j + 13] == s[j + 11..j + 13];
    }
    FirstMatchIs(u, i);
    if i + 13 < |s| {
      assert u[i + 13] == s[i + 13];
    } else {
      assert u[i + 13] == '\n';
    }
  }

  /** Joining more chunks of output keeps a move already found. */
  lemma {:induction false} FoundStaysFound(chunks: seq<string>, k: nat)
    requires 1 <= k <= |chunks|
    requires FindBestmove(Join(chunks[..k], "\n")).Some?
    ensures FindBestmove(Join(chunks, "\n")) == FindBestmove(Join(chunks[..k], "\n"))
    decreases |chunks| - k
  {
    if k < |chunks| {
      assert chunks[..k + 1][..k] == chunks[..k];
      assert Join(chunks[..k + 1], "\n") == Join(chunks[..k], "\n") + "\n" + chunks[k];
      FindStable(Join(chunks[..k], "\n"), chunks[k]);
      FoundStaysFound(chunks, k + 1);
    } else {
      assert chunks[..k] == chunks;
    }
  }

  /** How many chunks the polling has taken in when it stops, counting from `k`: up to and
      including the first whose arrival makes the joined text hold a match, or all of them
      when none does. */
  function Polled(chunks: seq<string>, k: nat): (n: nat)
    requires k <= |chunks|
    ensures k <= n <= |chunks|
    ensures n > k ==> FindBestmove(Join(chunks[..n], "\n")).Some? || n == |chunks|
    decreases |chunks| - k
  {
    if k == |chunks| then k
    else if FindBestmove(Join(chunks[..k + 1], "\n")).Some? then k + 1
    else Polled(chunks, k + 1)
  }

  /** One poll: without a match the count goes on from the next chunk; with one, polling
      stops there and the match is the one in all of `chunks`. */
  lemma PollStep(chunks: seq<string>, k: nat)
    requires k < |chunks|
    ensures var found := FindBestmove(Join(chunks[..k + 1], "\n"));
      && (found.None? ==> Polled(chunks, k) == Polled(chunks, k + 1))
      && (found.Some? ==> Polled(chunks, k) == k + 1 && FindBestmove(Join(chunks, "\n")) == found)
  {
    if FindBestmove(Join(chunks[..k + 1], "\n")).Some? {
      FoundStaysFound(chunks, k + 1);
    }
  }

  // ---------------------------------------------------------------- the fallback

  /** `getRandomMove` with the random draw as `pick`: null exactly when there is no legal
      move, otherwise one of the legal moves. */
  function RandomMove(legal: seq<AIMove>, pick: nat): (r: Option<AIMove>)
    ensures r.None? <==> |legal| == 0
    ensures r.Some? ==> r.value in legal
  {
    if |legal| == 0 then None else Some(legal[pick % |legal|])
  }

  /** The three commands of a search, each written with its line end. */
  function SearchCommands(fen: string, level: Level): (cmds: seq<string>)
    ensures |cmds| == 3
    ensures cmds[1] == "position fen " + fen + "\n"
  {
    [ "setoption name Skill Level value " + NatToDecimal(SkillLevel(level)) + "\n",
      "position fen " + fen + "\n",
      "go depth " + NatToDecimal(Depth(level)) + "\n" ]
  }

  /** `s.includes(part)`. */
  predicate Contains(s: string, part: string)
    decreases |s|
  {
    StartsWith(s, part) || (s != [] && Contains(s[1..], part))
  }

  /** Some chunk of the buffer says `readyok`. */
  predicate AnyReadyok(queue: seq<string>) {
    exists j :: 0 <= j < |queue| && Contains(queue[j], "readyok")
  }

  lemma AnyReadyokAppend(queue: seq<string>, data: string)
    ensures AnyReadyok(queue + [data]) == (AnyReadyok(queue) || Contains(data, "readyok"))
  {
    var q := queue + [data];
    if Contains(data, "readyok") {
      assert q[|queue|] == data;
    }
    if AnyReadyok(q) && !Contains(data, "readyok") {
      var j :| 0 <= j < |q| && Contains(q[j], "readyok");
      assert j < |queue| && q[j] == queue[j];
    }
    if AnyReadyok(queue) {
      var j :| 0 <= j < |queue| && Contains(queue[j], "readyok");
      assert q[j] == queue[j];
    }
  }

  /** What a search with a live engine answers: the `bestmove` in the output, or the random
      fallback at the timeout. */
  function SearchAnswer(chunks: seq<string>, legal: seq<AIMove>, pick: nat): (r: Option<AIMove>)
    ensures FindBestmove(Join(chunks, "\n")).Some? ==> r == FindBestmove(Join(chunks, "\n"))
    ensures FindBestmove(Join(chunks, "\n")).None? ==> r == RandomMove(legal, pick)
    ensures r.None? <==> FindBestmove(Join(chunks, "\n")).None? && |legal| == 0
  {
    match FindBestmove(Join(chunks, "\n"))
    case Some(m) => Some(m)
    case None => RandomMove(legal, pick)
  }

  class StockfishService {
    /** The process exists and is not killed. */
    var engineAvailable: bool
    var isReady: bool
    var outputQueue: seq<string>
    /** Everything written to the engine's stdin, in order. */
    var commands: seq<string>

    /** The constructor after `initStockfish`: a spawned engine has been sent `uci` and
        `isready`; when spawning threw, nothing was sent and the random fallback is used. */
    constructor(spawned: bool)
      ensures engineAvailable == spawned && !isReady && outputQueue == []
      ensures commands == (if spawned then ["uci\n", "isready\n"] else [])
    {
      engineAvailable := spawned;
      isReady := false;
      outputQueue := [];
      commands := [];
      new;
      SendCommand("uci");
      SendCommand("isready");
      assert "uci" + "\n" == "uci\n" && "isready" + "\n" == "isready\n";
    }

    /** `sendCommand`: written only to a live process. */
    method SendCommand(command: string)
      modifies this
      ensures commands == old(commands) + (if engineAvailable then [command + "\n"] else [])
      ensures engineAvailable == old(engineAvailable) && isReady == old(isReady) && outputQueue == old(outputQueue)
    {
      if engineAvailable {
        commands := commands + [command + "\n"];
      }
    }

    /** The stdout handler: the chunk is queued, and `readyok` anywhere in it marks the engine
        ready. */
    method OnOutput(data: string)
      modifies this
      ensures outputQueue == old(outputQueue) + [data]
      ensures isReady == (old(isReady) || Contains(data, "readyok"))
      ensures engineAvailable == old(engineAvailable) && commands == old(commands)
    {
      outputQueue := outputQueue + [data];
      if Contains(data, "readyok") {
        isReady := true;
      }
    }

    /** The error handler: a missing executable (ENOENT) drops the process; other errors are
        only logged. */
    method OnError(notFound: bool)
      modifies this
      ensures engineAvailable == (old(engineAvailable) && !notFound)
      ensures isReady == old(isReady) && outputQueue == old(outputQueue) && commands == old(commands)
    {
      if notFound {
        engineAvailable := false;
      }
    }

    /** The close handler. */
    method OnClose()
      modifies this
      ensures !isReady
      ensures engineAvailable == old(engineAvailable) && outputQueue == old(outputQueue) && commands == old(commands)
    {
      isReady := false;
    }

    /** The polling of the output buffer during a search, one poll after each chunk in
        `chunks` arrives: the first poll whose joined buffer holds a `bestmove` answers, and
        none answers when no poll does (the timeout then takes over). Because later output
        never changes a match already found, the answer is the match in all of `chunks`. */
    method Poll(chunks: seq<string>) returns (r: Option<AIMove>)
      requires outputQueue == []
      modifies this
      ensures r == FindBestmove(Join(chunks, "\n"))
      ensures outputQueue == chunks[..Polled(chunks, 0)]
      ensures isReady == (old(isReady) || AnyReadyok(outputQueue))
      ensures engineAvailable == old(engineAvailable) && commands == old(commands)
    {
      var k := 0;
      while k < |chunks|
        invariant 0 <= k <= |chunks|
        invariant outputQueue == chunks[..k]
        invariant engineAvailable == old(engineAvailable) && commands == old(commands)
        invariant Polled(chunks, 0) == Polled(chunks, k)
        invariant isReady == (old(isReady) || AnyReadyok(outputQueue))
        invariant FindBestmove(Join(chunks[..k], "\n")).None?
      {
        var found := PollOnce(chunks, k);
        PollStep(chunks, k);
        if found.Some? {
          r := found;
          return;
        }
        k := k + 1;
      }
      assert chunks[..k] == chunks;
      r := None;
    }

    /** Chunk `k` arrives and the joined buffer is searched once. */
    method PollOnce(chunks: seq<string>, k: nat) returns (found: Option<AIMove>)
      requires k < |chunks| && outputQueue == chunks[..k]
      modifies this
      ensures outputQueue == chunks[..k + 1]
      ensures isReady == (old(isReady) || Contains(chunks[k], "readyok"))
      ensures AnyReadyok(outputQueue) == (AnyReadyok(old(outputQueue)) || Contains(chunks[k], "readyok"))
      ensures engineAvailable == old(engineAvailable) && commands == old(commands)
      ensures found == FindBestmove(Join(chunks[..k + 1], "\n"))
    {
      OnOutput(chunks[k]);
      assert outputQueue == chunks[..k + 1];
      AnyReadyokAppend(chunks[..k], chunks[k]);
      found := FindBestmove(Join(outputQueue, "\n"));
    }

    /** `getBestMove`. Without a process the random fallback answers at once and nothing is
        sent. Otherwise the output buffer is emptied, the skill level, position and depth are
        sent, and the buffer is polled until a `bestmove` shows up or the five-second window
        (the chunks in `chunks`) is over, when the random fallback answers. Output buffered
        before the search starts is discarded. */
    method GetBestMove(fen: string, level: Option<Level>, chunks: seq<string>, legal: seq<AIMove>, pick: nat)
      returns (r: Option<AIMove>)
      modifies this
      ensures !old(engineAvailable) ==>
        r == RandomMove(legal, pick)
        && outputQueue == old(outputQueue) && commands == old(commands) && isReady == old(isReady)
      ensures old(engineAvailable) ==>
        && r == SearchAnswer(chunks, legal, pick)
        && commands == old(commands) + SearchCommands(fen, level.GetOr(Intermediate))
        && outputQueue == chunks[..Polled(chunks, 0)]
        && isReady == (old(isReady) || AnyReadyok(outputQueue))
      ensures engineAvailable == old(engineAvailable)
    {
      if !engineAvailable {
        r := RandomMove(legal, pick);
        return;
      }
      outputQueue := [];
      var lvl := level.GetOr(Intermediate);
      SendCommand("setoption name Skill Level value " + NatToDecimal(SkillLevel(lvl)));
      SendCommand("position fen " + fen);
      SendCommand("go depth " + NatToDecimal(Depth(lvl)));
      r := Poll(chunks);
      if r.None? {
        r := RandomMove(legal, pick);
      }
    }
  }
}
