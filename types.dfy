/** Shared value types of the server and client: colours, difficulty levels, game types and
    the compact move an AI source proposes. */
module Types {

  datatype Option<+T> = None | Some(value: T) {
    function GetOr(default: T): T {
      match this
      case Some(v) => v
      case None => default
    }
  }

  /** The side to move, the source's 'w' | 'b'. */
  datatype Color = White | Black {
    function Opposite(): (c: Color)
      ensures c != this
    {
      if this == White then Black else White
    }
  }

  /** A game's winner, the source's "white" | "black" | "draw". */
  datatype Winner = WhiteWon | BlackWon | DrawGame

  /** The winner when `c` loses (resigns, runs out of time, is checkmated). */
  function WinnerAgainst(c: Color): (w: Winner)
    ensures w != DrawGame
    ensures w.WhiteWon? <==> c.Black?
  {
    match c
    case White => BlackWon
    case Black => WhiteWon
  }

  /** AI difficulty: 'beginner' | 'intermediate' | 'advanced' | 'master'. */
  datatype Level = Beginner | Intermediate | Advanced | Master

  /** The position of a level in the order beginner < intermediate < advanced < master. */
  function LevelRank(l: Level): (r: nat)
    ensures r < 4
  {
    match l
    case Beginner => 0
    case Intermediate => 1
    case Advanced => 2
    case Master => 3
  }

  /** 'normal' | 'rapid' | 'blitz'. */
  datatype GameType = Normal | Rapid | Blitz

  /** A move proposed by an AI source: `{ from, to, promotion? }`. */
  datatype AIMove = AIMove(from: string, to: string, promotion: Option<string>)

  /** The letters of `[qrbn]`: the pieces a pawn may promote to. */
  predicate IsPromotionLetter(c: char) {
    c == 'q' || c == 'r' || c == 'b' || c == 'n'
  }

  /** The compact UCI text `from ++ to ++ (promotion or "")`. */
  function UciText(m: AIMove): string {
    m.from + m.to + m.promotion.GetOr("")
  }

  /** Regrouping a concatenation; stated once so that loops appending to a result need not
      rediscover it. */
  lemma ConcatAssoc<T>(a: seq<T>, b: seq<T>, c: seq<T>)
    ensures a + (b + c) == (a + b) + c
  {
  }
}
