/** The client-side move generator of `lib/chess-engine.ts`: a board maps square names to an
    optional piece, moves are pseudo-legal (no check detection, castling, en passant or
    promotion), and `makeMove` returns either the input board or an updated copy.

    A JavaScript lookup `board.squares[sq]` has three outcomes: a piece, `null` (the key is
    present and empty) and `undefined` (the key is absent). The map below keeps them apart:
    `Some(p)`, `None`, and a missing key. Most of the source tests truthiness, which merges
    the last two (`Lookup`); the pawn's forward step tests `=== null` (`IsNull`). */
module ChessEngine {
  import opened Types
  import opened Text

  datatype PieceType = Pawn | Knight | Bishop | Rook | Queen | King

  datatype Piece = Piece(kind: PieceType, color: Color)

  /** `ChessBoard`. `capturedW` is `capturedPieces.w` (the types white has taken), `capturedB`
      is `capturedPieces.b`. */
  datatype Board = Board(
    squares: map<string, Option<Piece>>,
    currentPlayer: Color,
    moveHistory: seq<string>,
    capturedW: seq<PieceType>,
    capturedB: seq<PieceType>)

  /** The one-letter name of a piece type, as stored in `capturedPieces`. */
  function Letter(t: PieceType): string {
    match t
    case Pawn => "p"
    case Knight => "n"
    case Bishop => "b"
    case Rook => "r"
    case Queen => "q"
    case King => "k"
  }

  // ---------------------------------------------------------------- coordinates

  /** `/^[a-h][1-8]$/`. */
  predicate IsValidSquare(s: string) {
    |s| == 2 && 'a' <= s[0] <= 'h' && '1' <= s[1] <= '8'
  }

  predicate OnBoard(file: int, rank: int) {
    0 <= file < 8 && 0 <= rank < 8
  }

  /** File index from the letter (a = 0) and rank index counted from the top (rank 8 = 0). */
  function SquareToCoords(s: string): (r: Option<(int, int)>)
    ensures r.Some? <==> IsValidSquare(s)
    ensures r.Some? ==> OnBoard(r.value.0, r.value.1)
  {
    if !IsValidSquare(s) then None
    else Some((s[0] as int - 97, 8 - (s[1] as int - '0' as int)))
  }

  /** The points the generators ever convert: at most seven steps off the board. */
  predicate NearBoard(file: int, rank: int) {
    -7 <= file <= 14 && -7 <= rank <= 14
  }

  /** `String(n)` for the rank numbers that arise near the board, with the digits written out
      (RankTextIsDecimal shows it is the general decimal rendering). */
  function RankText(n: int): string
    requires -6 <= n <= 15
  {
    if n < 0 then ['-', DigitChar(-n)]
    else if n < 10 then [DigitChar(n)]
    else ['1', DigitChar(n - 10)]
  }

  lemma RankTextIsDecimal(n: int)
    requires -6 <= n <= 15
    ensures RankText(n) == IntToDecimal(n)
  {
    if n >= 10 {
      assert NatToDecimal(n) == NatToDecimal(n / 10) + [DigitChar(n % 10)];
    } else if n < 0 {
      assert NatToDecimal(-n) == [DigitChar(-n)];
    }
  }

  /** `String.fromCharCode(97 + file) + (8 - rank)`. Off the board it yields strings such as
      "`9", "i0" or "c-2", which are not square names. */
  function CoordsToSquare(file: int, rank: int): (s: string)
    requires NearBoard(file, rank)
    ensures IsValidSquare(s) <==> OnBoard(file, rank)
    ensures OnBoard(file, rank) ==> SquareToCoords(s) == Some((file, rank))
  {
    [(97 + file) as char] + RankText(8 - rank)
  }

  /** The square name is the letter followed by the decimal text of `8 - rank`. */
  lemma CoordsToSquareIsDecimal(file: int, rank: int)
    requires NearBoard(file, rank)
    ensures CoordsToSquare(file, rank) == [(97 + file) as char] + IntToDecimal(8 - rank)
  {
    RankTextIsDecimal(8 - rank);
  }

  /** Every square name converts to coordinates and back to itself. */
  lemma SquareRoundTrip(s: string)
    requires IsValidSquare(s)
    ensures SquareToCoords(s).Some?
    ensures CoordsToSquare(SquareToCoords(s).value.0, SquareToCoords(s).value.1) == s
  {
    var fr := SquareToCoords(s).value;
    var t := CoordsToSquare(fr.0, fr.1);
    assert IntToDecimal(8 - fr.1) == [DigitChar(8 - fr.1)];
    assert t[0] == s[0] && t[1] == s[1];
  }

  /** The names `isValidSquare` accepts are exactly the names of the 64 board squares. */
  lemma ValidSquaresAreBoardSquares(s: string)
    ensures IsValidSquare(s) <==> exists f, r :: OnBoard(f, r) && CoordsToSquare(f, r) == s
  {
    if IsValidSquare(s) {
      SquareRoundTrip(s);
      var fr := SquareToCoords(s).value;
      assert OnBoard(fr.0, fr.1) && CoordsToSquare(fr.0, fr.1) == s;
    }
  }

  // ---------------------------------------------------------------- lookups

  /** The truthiness of `board.squares[sq]`: a missing key reads as no piece. */
  function Lookup(b: Board, sq: string): Option<Piece> {
    if sq in b.squares then b.squares[sq] else None
  }

  /** `board.squares[sq] === null`: the key is present and holds no piece. */
  predicate IsNull(b: Board, sq: string) {
    sq in b.squares && b.squares[sq] == None
  }

  /** A square a piece of `color` may move to: empty or holding an opponent piece. */
  predicate Enterable(b: Board, sq: string, color: Color) {
    Lookup(b, sq).None? || Lookup(b, sq).value.color != color
  }

  predicate HoldsOpponent(b: Board, sq: string, color: Color) {
    Lookup(b, sq).Some? && Lookup(b, sq).value.color != color
  }

  predicate HoldsOwn(b: Board, sq: string, color: Color) {
    Lookup(b, sq).Some? && Lookup(b, sq).value.color == color
  }

  /** `moves.filter((m) => isValidSquare(m))`. */
  function ValidOnly(moves: seq<string>): (r: seq<string>)
    ensures forall s :: s in r <==> s in moves && IsValidSquare(s)
    ensures forall k :: 0 <= k < |r| ==> IsValidSquare(r[k])
  {
    if moves == [] then []
    else (if IsValidSquare(moves[0]) then [moves[0]] else []) + ValidOnly(moves[1..])
  }

  // ---------------------------------------------------------------- fixed offsets (knight, king)

  const KnightDeltas: seq<(int, int)> :=
    [(-2, -1), (-2, 1), (-1, -2), (-1, 2), (1, -2), (1, 2), (2, -1), (2, 1)]

  const KingDeltas: seq<(int, int)> :=
    [(-1, -1), (-1, 0), (-1, 1), (0, -1), (0, 1), (1, -1), (1, 0), (1, 1)]

  predicate SmallDeltas(ds: seq<(int, int)>) {
    forall k :: 0 <= k < |ds| ==> -2 <= ds[k].0 <= 2 && -2 <= ds[k].1 <= 2
  }

  /** What one `deltas.forEach` step pushes: the target if it is empty or an opponent's. */
  function StepTarget(b: Board, file: int, rank: int, color: Color, d: (int, int)): seq<string>
    requires OnBoard(file, rank) && -2 <= d.0 <= 2 && -2 <= d.1 <= 2
  {
    var sq := CoordsToSquare(file + d.0, rank + d.1);
    if Enterable(b, sq, color) then [sq] else []
  }

  /** What the `forEach` over `ds` pushes, before filtering. */
  function StepTargets(b: Board, file: int, rank: int, color: Color, ds: seq<(int, int)>): seq<string>
    requires OnBoard(file, rank) && SmallDeltas(ds)
  {
    if ds == [] then []
    else StepTargets(b, file, rank, color, ds[..|ds| - 1]) + StepTarget(b, file, rank, color, ds[|ds| - 1])
  }

  lemma StepTargetsStep(b: Board, file: int, rank: int, color: Color, ds: seq<(int, int)>, k: nat)
    requires OnBoard(file, rank) && SmallDeltas(ds) && k < |ds|
    ensures StepTargets(b, file, rank, color, ds[..k + 1])
      == StepTargets(b, file, rank, color, ds[..k]) + StepTarget(b, file, rank, color, ds[k])
  {
    assert ds[..k + 1][..k] == ds[..k];
  }

  /** `s` is the target of offset `d` and may be entered by `color`. */
  predicate OffsetHit(b: Board, file: int, rank: int, color: Color, d: (int, int), s: string)
    requires OnBoard(file, rank) && -2 <= d.0 <= 2 && -2 <= d.1 <= 2
  {
    s == CoordsToSquare(file + d.0, rank + d.1) && Enterable(b, s, color)
  }

  /** One step pushes `s` exactly when `s` is that offset's enterable target. */
  lemma StepTargetHit(b: Board, file: int, rank: int, color: Color, d: (int, int), s: string)
    requires OnBoard(file, rank) && -2 <= d.0 <= 2 && -2 <= d.1 <= 2
    ensures s in StepTarget(b, file, rank, color, d) <==> OffsetHit(b, file, rank, color, d, s)
  {
  }

  /** Some offset of `init + [d]` hits `s` exactly when one of `init` does or `d` does. */
  lemma OffsetHitSplit(b: Board, file: int, rank: int, color: Color, ds: seq<(int, int)>, init: seq<(int, int)>,
                       d: (int, int), s: string)
    requires OnBoard(file, rank) && ds == init + [d] && SmallDeltas(ds) && SmallDeltas(init)
    requires -2 <= d.0 <= 2 && -2 <= d.1 <= 2
    ensures (exists k :: 0 <= k < |ds| && OffsetHit(b, file, rank, color, ds[k], s)) <==>
      (exists k :: 0 <= k < |init| && OffsetHit(b, file, rank, color, init[k], s))
      || OffsetHit(b, file, rank, color, d, s)
  {
    assert ds[|init|] == d;
    if exists k :: 0 <= k < |ds| && OffsetHit(b, file, rank, color, ds[k], s) {
      var k :| 0 <= k < |ds| && OffsetHit(b, file, rank, color, ds[k], s);
      if k < |init| {
        assert init[k] == ds[k];
      }
    }
    if exists k :: 0 <= k < |init| && OffsetHit(b, file, rank, color, init[k], s) {
      var k :| 0 <= k < |init| && OffsetHit(b, file, rank, color, init[k], s);
      assert init[k] == ds[k];
    }
  }

  /** The squares pushed for `ds` are exactly the enterable targets of its offsets. */
  lemma {:induction false} StepTargetsMembers(b: Board, file: int, rank: int, color: Color, ds: seq<(int, int)>, s: string)
    requires OnBoard(file, rank) && SmallDeltas(ds)
    ensures s in StepTargets(b, file, rank, color, ds) <==>
      exists k :: 0 <= k < |ds| && OffsetHit(b, file, rank, color, ds[k], s)
  {
    if ds != [] {
      var init := ds[..|ds| - 1];
      var d := ds[|ds| - 1];
      StepTargetsMembers(b, file, rank, color, init, s);
      assert StepTargets(b, file, rank, color, ds)
        == StepTargets(b, file, rank, color, init) + StepTarget(b, file, rank, color, d);
      StepTargetHit(b, file, rank, color, d, s);
      assert ds == init + [d];
      OffsetHitSplit(b, file, rank, color, ds, init, d, s);
    }
  }

  function KnightMoves(b: Board, file: int, rank: int, color: Color): seq<string>
    requires OnBoard(file, rank)
  {
    ValidOnly(StepTargets(b, file, rank, color, KnightDeltas))
  }

  function KingMoves(b: Board, file: int, rank: int, color: Color): seq<string>
    requires OnBoard(file, rank)
  {
    ValidOnly(StepTargets(b, file, rank, color, KingDeltas))
  }

  /** Knight and king targets are exactly the on-board squares at the fixed offsets that are
      empty or hold an opponent piece. */
  lemma OffsetMovesExactly(b: Board, file: int, rank: int, color: Color, ds: seq<(int, int)>, s: string)
    requires OnBoard(file, rank) && SmallDeltas(ds)
    ensures s in ValidOnly(StepTargets(b, file, rank, color, ds)) <==>
      exists k :: 0 <= k < |ds| && OnBoard(file + ds[k].0, rank + ds[k].1) && OffsetHit(b, file, rank, color, ds[k], s)
  {
    StepTargetsMembers(b, file, rank, color, ds, s);
    if s in ValidOnly(StepTargets(b, file, rank, color, ds)) {
      var k :| 0 <= k < |ds| && OffsetHit(b, file, rank, color, ds[k], s);
      assert IsValidSquare(s);
      assert OnBoard(file + ds[k].0, rank + ds[k].1);
    }
  }

  // ---------------------------------------------------------------- sliding pieces

  predicate UnitDirs(dirs: seq<(int, int)>) {
    forall k :: 0 <= k < |dirs| ==> -1 <= dirs[k].0 <= 1 && -1 <= dirs[k].1 <= 1
  }

  const BishopDirs: seq<(int, int)> := [(-1, -1), (-1, 1), (1, -1), (1, 1)]

  const RookDirs: seq<(int, int)> := [(-1, 0), (1, 0), (0, -1), (0, 1)]

  /** `d * i` for a unit direction `d`, written without a product so that the solver's
      arithmetic stays linear (ScaleIsProduct). */
  function Scale(d: int, i: int): (r: int)
    requires -1 <= d <= 1
  {
    if d < 0 then -i else if d > 0 then i else 0
  }

  lemma ScaleIsProduct(d: int, i: int)
    requires -1 <= d <= 1
    ensures Scale(d, i) == d * i
  {
  }

  /** The square `i` steps from (file, rank) along (df, dr): a square name exactly when that
      point is on the board. */
  function RayStep(file: int, rank: int, df: int, dr: int, i: nat): (s: string)
    requires OnBoard(file, rank) && -1 <= df <= 1 && -1 <= dr <= 1 && i < 8
    ensures IsValidSquare(s) <==> OnBoard(file + Scale(df, i), rank + Scale(dr, i))
  {
    CoordsToSquare(file + Scale(df, i), rank + Scale(dr, i))
  }

  /** The squares steps `i`, `i + 1`, ..., 7 of the `for` loop compute. */
  function Steps(file: int, rank: int, df: int, dr: int, i: nat): (s: seq<string>)
    requires OnBoard(file, rank) && -1 <= df <= 1 && -1 <= dr <= 1 && 1 <= i <= 8
    ensures |s| == 8 - i
    ensures forall k :: 0 <= k < |s| ==> s[k] == RayStep(file, rank, df, dr, i + k)
  {
    seq(8 - i, k requires 0 <= k < 8 - i => RayStep(file, rank, df, dr, i + k))
  }

  lemma StepsTail(file: int, rank: int, df: int, dr: int, i: nat)
    requires OnBoard(file, rank) && -1 <= df <= 1 && -1 <= dr <= 1 && 1 <= i < 8
    ensures Steps(file, rank, df, dr, i) == [RayStep(file, rank, df, dr, i)] + Steps(file, rank, df, dr, i + 1)
  {
    var s := Steps(file, rank, df, dr, i);
    var t := Steps(file, rank, df, dr, i + 1);
    forall k | 0 <= k < |t| ensures s[k + 1] == t[k] {
      assert i + (k + 1) == i + 1 + k;
    }
    assert s[1..] == t;
  }

  /** The loop body over the step squares `sqs`: empty squares are pushed and the walk goes on;
      it stops at the first string that is not a square name or at the first piece, which is
      pushed only when it is an opponent's. */
  function Walk(b: Board, color: Color, sqs: seq<string>): seq<string>
  {
    if sqs == [] || !IsValidSquare(sqs[0]) then []
    else
      match Lookup(b, sqs[0])
      case None => [sqs[0]] + Walk(b, color, sqs[1..])
      case Some(p) => if p.color != color then [sqs[0]] else []
  }

  /** The squares the `for (i = ...; i < 8; i++)` loop pushes from step `i` on. */
  function Ray(b: Board, file: int, rank: int, color: Color, df: int, dr: int, i: nat): seq<string>
    requires OnBoard(file, rank) && -1 <= df <= 1 && -1 <= dr <= 1 && 1 <= i <= 8
  {
    Walk(b, color, Steps(file, rank, df, dr, i))
  }

  /** A walk is no longer than its steps. */
  lemma {:induction false} WalkLength(b: Board, color: Color, sqs: seq<string>)
    ensures |Walk(b, color, sqs)| <= |sqs|
  {
    if sqs != [] && IsValidSquare(sqs[0]) && Lookup(b, sqs[0]).None? {
      WalkLength(b, color, sqs[1..]);
    }
  }

  /** The `j`-th square of a walk is its `j`-th step, and that step is a square name. */
  lemma {:induction false} WalkAt(b: Board, color: Color, sqs: seq<string>, j: nat)
    requires j < |Walk(b, color, sqs)|
    ensures j < |sqs| && Walk(b, color, sqs)[j] == sqs[j] && IsValidSquare(sqs[j])
    decreases j
  {
    if j > 0 {
      assert Walk(b, color, sqs) == [sqs[0]] + Walk(b, color, sqs[1..]);
      WalkAt(b, color, sqs[1..], j - 1);
    }
  }

  /** Every square of a walk but the last is empty. */
  lemma {:induction false} WalkInterior(b: Board, color: Color, sqs: seq<string>, j: nat)
    requires j + 1 < |Walk(b, color, sqs)|
    ensures Lookup(b, Walk(b, color, sqs)[j]).None?
    decreases j
  {
    assert Walk(b, color, sqs) == [sqs[0]] + Walk(b, color, sqs[1..]);
    if j > 0 {
      WalkInterior(b, color, sqs[1..], j - 1);
    }
  }

  /** The last square of a walk is empty or an opponent's. */
  lemma {:induction false} WalkLast(b: Board, color: Color, sqs: seq<string>)
    requires Walk(b, color, sqs) != []
    ensures var w := Walk(b, color, sqs); Enterable(b, w[|w| - 1], color)
  {
    if Lookup(b, sqs[0]).None? {
      var w := Walk(b, color, sqs);
      var rest := Walk(b, color, sqs[1..]);
      assert w == [sqs[0]] + rest;
      if rest != [] {
        WalkLast(b, color, sqs[1..]);
        assert w[|w| - 1] == rest[|rest| - 1];
      }
    }
  }

  /** A walk that ends on an empty square (or is empty) before its steps run out, while the
      next step is a square name, was stopped by a piece of the mover's own colour. */
  lemma {:induction false} WalkStops(b: Board, color: Color, sqs: seq<string>)
    ensures var w := Walk(b, color, sqs);
      |w| < |sqs| && (w == [] || Lookup(b, w[|w| - 1]).None?) && IsValidSquare(sqs[|w|])
      ==> HoldsOwn(b, sqs[|w|], color)
  {
    if sqs != [] && IsValidSquare(sqs[0]) && Lookup(b, sqs[0]).None? {
      var w := Walk(b, color, sqs);
      var rest := Walk(b, color, sqs[1..]);
      assert w == [sqs[0]] + rest;
      WalkStops(b, color, sqs[1..]);
      if |w| < |sqs| {
        assert sqs[|w|] == sqs[1..][|rest|];
      }
      if rest != [] {
        assert w[|w| - 1] == rest[|rest| - 1];
      }
    }
  }

  /** WalkStops, for the step `next` that follows the walk. */
  lemma WalkStopsAt(b: Board, color: Color, sqs: seq<string>, next: string)
    requires |Walk(b, color, sqs)| < |sqs| && sqs[|Walk(b, color, sqs)|] == next
    ensures var w := Walk(b, color, sqs);
      (w == [] || Lookup(b, w[|w| - 1]).None?) && IsValidSquare(next) ==> HoldsOwn(b, next, color)
  {
    WalkStops(b, color, sqs);
  }

  /** A ray from step `i` lists consecutive steps, every one of them a square name. */
  lemma RayAlong(b: Board, file: int, rank: int, color: Color, df: int, dr: int, i: nat)
    requires OnBoard(file, rank) && -1 <= df <= 1 && -1 <= dr <= 1 && 1 <= i <= 8
    ensures var r := Ray(b, file, rank, color, df, dr, i);
      && i + |r| <= 8
      && forall j :: 0 <= j < |r| ==> r[j] == RayStep(file, rank, df, dr, i + j) && IsValidSquare(r[j])
  {
    var sqs := Steps(file, rank, df, dr, i);
    WalkLength(b, color, sqs);
    forall j | 0 <= j < |Walk(b, color, sqs)|
      ensures Walk(b, color, sqs)[j] == RayStep(file, rank, df, dr, i + j)
      ensures IsValidSquare(Walk(b, color, sqs)[j])
    {
      WalkAt(b, color, sqs, j);
    }
  }

  /** Every square of a ray but the last is empty, and the last is empty or an opponent's. */
  lemma RayContents(b: Board, file: int, rank: int, color: Color, df: int, dr: int, i: nat)
    requires OnBoard(file, rank) && -1 <= df <= 1 && -1 <= dr <= 1 && 1 <= i <= 8
    ensures var r := Ray(b, file, rank, color, df, dr, i);
      && (forall j :: 0 <= j < |r| - 1 ==> Lookup(b, r[j]).None?)
      && (r != [] ==> Enterable(b, r[|r| - 1], color))
  {
    var sqs := Steps(file, rank, df, dr, i);
    forall j | 0 <= j < |Walk(b, color, sqs)| - 1
      ensures Lookup(b, Walk(b, color, sqs)[j]).None?
    {
      WalkInterior(b, color, sqs, j);
    }
    if Walk(b, color, sqs) != [] {
      WalkLast(b, color, sqs);
    }
  }

  /** A ray that ends on an empty square (or is empty) while the next step is still on the
      board was stopped by a piece of the mover's own colour. */
  lemma RayStops(b: Board, file: int, rank: int, color: Color, df: int, dr: int, i: nat)
    requires OnBoard(file, rank) && -1 <= df <= 1 && -1 <= dr <= 1 && 1 <= i <= 8
    ensures var r := Ray(b, file, rank, color, df, dr, i);
      i + |r| < 8 && (r == [] || Lookup(b, r[|r| - 1]).None?)
        && IsValidSquare(RayStep(file, rank, df, dr, i + |r|))
      ==> HoldsOwn(b, RayStep(file, rank, df, dr, i + |r|), color)
  {
    var sqs := Steps(file, rank, df, dr, i);
    var r := Walk(b, color, sqs);
    assert Ray(b, file, rank, color, df, dr, i) == r;
    if i + |r| < 8 {
      var next := RayStep(file, rank, df, dr, i + |r|);
      assert sqs[|r|] == next;
      WalkStopsAt(b, color, sqs, next);
    }
  }

  /** The concatenation, in order, of the rays along `dirs`. */
  function Rays(b: Board, file: int, rank: int, color: Color, dirs: seq<(int, int)>): seq<string>
    requires OnBoard(file, rank) && UnitDirs(dirs)
  {
    if dirs == [] then []
    else
      var last := dirs[|dirs| - 1];
      Rays(b, file, rank, color, dirs[..|dirs| - 1]) + Ray(b, file, rank, color, last.0, last.1, 1)
  }

  function BishopMoves(b: Board, file: int, rank: int, color: Color): seq<string>
    requires OnBoard(file, rank)
  {
    Rays(b, file, rank, color, BishopDirs)
  }

  function RookMoves(b: Board, file: int, rank: int, color: Color): seq<string>
    requires OnBoard(file, rank)
  {
    Rays(b, file, rank, color, RookDirs)
  }

  /** `getQueenMoves`: bishop moves followed by rook moves. */
  function QueenMoves(b: Board, file: int, rank: int, color: Color): seq<string>
    requires OnBoard(file, rank)
  {
    BishopMoves(b, file, rank, color) + RookMoves(b, file, rank, color)
  }

  /** Every square on a ray is a square name that is empty or holds an opponent piece. */
  lemma RayMovesSound(b: Board, file: int, rank: int, color: Color, df: int, dr: int, s: string)
    requires OnBoard(file, rank) && -1 <= df <= 1 && -1 <= dr <= 1
    requires s in Ray(b, file, rank, color, df, dr, 1)
    ensures IsValidSquare(s) && Enterable(b, s, color)
  {
    var r := Ray(b, file, rank, color, df, dr, 1);
    var j :| 0 <= j < |r| && r[j] == s;
    var sqs := Steps(file, rank, df, dr, 1);
    WalkAt(b, color, sqs, j);
    if j < |r| - 1 {
      WalkInterior(b, color, sqs, j);
    } else {
      WalkLast(b, color, sqs);
    }
  }

  lemma {:induction false} RaysSound(b: Board, file: int, rank: int, color: Color, dirs: seq<(int, int)>, s: string)
    requires OnBoard(file, rank) && UnitDirs(dirs)
    requires s in Rays(b, file, rank, color, dirs)
    ensures IsValidSquare(s) && Enterable(b, s, color)
  {
    var init := dirs[..|dirs| - 1];
    var last := dirs[|dirs| - 1];
    assert UnitDirs(init);
    if s in Rays(b, file, rank, color, init) {
      RaysSound(b, file, rank, color, init, s);
    } else {
      RayMovesSound(b, file, rank, color, last.0, last.1, s);
    }
  }

  // ---------------------------------------------------------------- pawns

  function PawnDirection(color: Color): int {
    if color == White then -1 else 1
  }

  function PawnStartRank(color: Color): int {
    if color == White then 6 else 1
  }

  /** The forward steps: one square onto an empty (`null`) square, and from the start rank a
      second one when that square is empty too. */
  function PawnPushes(b: Board, file: int, rank: int, color: Color): seq<string>
    requires OnBoard(file, rank)
  {
    var dir := PawnDirection(color);
    var forward := CoordsToSquare(file, rank + dir);
    var double := CoordsToSquare(file, rank + 2 * dir);
    if !IsNull(b, forward) then []
    else [forward] + (if rank == PawnStartRank(color) && IsNull(b, double) then [double] else [])
  }

  /** What one step of the `[-1, 1].forEach` capture loop pushes: the diagonal square when it
      holds an opponent piece. */
  function PawnCapture(b: Board, file: int, rank: int, color: Color, df: int): seq<string>
    requires OnBoard(file, rank) && -1 <= df <= 1
  {
    var sq := CoordsToSquare(file + df, rank + PawnDirection(color));
    if HoldsOpponent(b, sq, color) then [sq] else []
  }

  predicate UnitOffsets(dfs: seq<int>) {
    forall k :: 0 <= k < |dfs| ==> -1 <= dfs[k] <= 1
  }

  /** What the capture loop pushes for the file offsets `dfs`. */
  function PawnCaptures(b: Board, file: int, rank: int, color: Color, dfs: seq<int>): seq<string>
    requires OnBoard(file, rank) && UnitOffsets(dfs)
  {
    if dfs == [] then []
    else PawnCaptures(b, file, rank, color, dfs[..|dfs| - 1]) + PawnCapture(b, file, rank, color, dfs[|dfs| - 1])
  }

  lemma PawnCapturesStep(b: Board, file: int, rank: int, color: Color, dfs: seq<int>, k: nat)
    requires OnBoard(file, rank) && UnitOffsets(dfs) && k < |dfs|
    ensures PawnCaptures(b, file, rank, color, dfs[..k + 1])
      == PawnCaptures(b, file, rank, color, dfs[..k]) + PawnCapture(b, file, rank, color, dfs[k])
  {
    assert dfs[..k + 1][..k] == dfs[..k];
  }

  /** The file offsets of the two capture squares, in the order the loop visits them. */
  const CaptureOffsets: seq<int> := [-1, 1]

  function PawnMoves(b: Board, file: int, rank: int, color: Color): seq<string>
    requires OnBoard(file, rank)
  {
    ValidOnly(PawnPushes(b, file, rank, color) + PawnCaptures(b, file, rank, color, CaptureOffsets))
  }

  /** A pawn moves one square forward only onto an empty square, two only from its start rank
      over two empty squares, and diagonally only onto an opponent piece. */
  lemma PawnMovesExactly(b: Board, file: int, rank: int, color: Color, s: string)
    requires OnBoard(file, rank)
    ensures var dir := PawnDirection(color);
      s in PawnMoves(b, file, rank, color) <==>
        || (s == CoordsToSquare(file, rank + dir) && OnBoard(file, rank + dir) && IsNull(b, s))
        || (s == CoordsToSquare(file, rank + 2 * dir) && rank == PawnStartRank(color)
              && IsNull(b, CoordsToSquare(file, rank + dir)) && IsNull(b, s))
        || (s == CoordsToSquare(file - 1, rank + dir) && OnBoard(file - 1, rank + dir) && HoldsOpponent(b, s, color))
        || (s == CoordsToSquare(file + 1, rank + dir) && OnBoard(file + 1, rank + dir) && HoldsOpponent(b, s, color))
  {
    var caps := PawnCaptures(b, file, rank, color, CaptureOffsets);
    PawnCapturesBoth(b, file, rank, color);
    PawnPushesExactly(b, file, rank, color, s);
    PawnCaptureExactly(b, file, rank, color, -1, s);
    PawnCaptureExactly(b, file, rank, color, 1, s);
    assert s in PawnMoves(b, file, rank, color) <==> s in PawnPushes(b, file, rank, color) + caps && IsValidSquare(s);
  }

  lemma PawnCapturesBoth(b: Board, file: int, rank: int, color: Color)
    requires OnBoard(file, rank)
    ensures PawnCaptures(b, file, rank, color, CaptureOffsets)
      == PawnCapture(b, file, rank, color, -1) + PawnCapture(b, file, rank, color, 1)
  {
    assert CaptureOffsets[..1] == [-1] && [-1][..0] == [];
    assert PawnCaptures(b, file, rank, color, [-1]) == PawnCapture(b, file, rank, color, -1);
  }

  lemma PawnPushesExactly(b: Board, file: int, rank: int, color: Color, s: string)
    requires OnBoard(file, rank)
    ensures var dir := PawnDirection(color);
      s in PawnPushes(b, file, rank, color) && IsValidSquare(s) <==>
        || (s == CoordsToSquare(file, rank + dir) && OnBoard(file, rank + dir) && IsNull(b, s))
        || (s == CoordsToSquare(file, rank + 2 * dir) && rank == PawnStartRank(color)
              && IsNull(b, CoordsToSquare(file, rank + dir)) && IsNull(b, s))
  {
  }

  lemma PawnCaptureExactly(b: Board, file: int, rank: int, color: Color, df: int, s: string)
    requires OnBoard(file, rank) && -1 <= df <= 1
    ensures var sq := CoordsToSquare(file + df, rank + PawnDirection(color));
      s in PawnCapture(b, file, rank, color, df) && IsValidSquare(s) <==>
        s == sq && OnBoard(file + df, rank + PawnDirection(color)) && HoldsOpponent(b, s, color)
  {
  }

  // ---------------------------------------------------------------- dispatch

  function PieceMoves(b: Board, file: int, rank: int, p: Piece): seq<string>
    requires OnBoard(file, rank)
  {
    match p.kind
    case Pawn => PawnMoves(b, file, rank, p.color)
    case Knight => KnightMoves(b, file, rank, p.color)
    case Bishop => BishopMoves(b, file, rank, p.color)
    case Rook => RookMoves(b, file, rank, p.color)
    case Queen => QueenMoves(b, file, rank, p.color)
    case King => KingMoves(b, file, rank, p.color)
  }

  /** `getValidMoves`: nothing for an empty square or a key that is not a square name. */
  function ValidMoves(b: Board, sq: string): seq<string> {
    match Lookup(b, sq)
    case None => []
    case Some(p) =>
      match SquareToCoords(sq)
      case None => []
      case Some(fr) => PieceMoves(b, fr.0, fr.1, p)
  }

  lemma OffsetMovesSound(b: Board, file: int, rank: int, color: Color, ds: seq<(int, int)>, m: string)
    requires OnBoard(file, rank) && SmallDeltas(ds)
    requires m in ValidOnly(StepTargets(b, file, rank, color, ds))
    ensures IsValidSquare(m) && Enterable(b, m, color)
  {
    StepTargetsMembers(b, file, rank, color, ds, m);
    var k :| 0 <= k < |ds| && OffsetHit(b, file, rank, color, ds[k], m);
  }

  lemma PawnMovesSound(b: Board, file: int, rank: int, color: Color, m: string)
    requires OnBoard(file, rank)
    requires m in PawnMoves(b, file, rank, color)
    ensures IsValidSquare(m) && Enterable(b, m, color)
  {
    PawnMovesExactly(b, file, rank, color, m);
  }

  /** The offset and direction tables are within the bounds the generators require. */
  lemma TablesInRange()
    ensures SmallDeltas(KnightDeltas) && SmallDeltas(KingDeltas)
    ensures UnitDirs(BishopDirs) && UnitDirs(RookDirs)
  {
  }

  /** Every target of a piece is a square name that does not hold a piece of its own colour. */
  lemma PieceMovesSound(b: Board, file: int, rank: int, p: Piece, m: string)
    requires OnBoard(file, rank)
    requires m in PieceMoves(b, file, rank, p)
    ensures IsValidSquare(m) && Enterable(b, m, p.color)
  {
    TablesInRange();
    match p.kind
    case Pawn =>
      PawnMovesSound(b, file, rank, p.color, m);
    case Knight =>
      OffsetMovesSound(b, file, rank, p.color, KnightDeltas, m);
    case King =>
      OffsetMovesSound(b, file, rank, p.color, KingDeltas, m);
    case Bishop =>
      RaysSound(b, file, rank, p.color, BishopDirs, m);
    case Rook =>
      RaysSound(b, file, rank, p.color, RookDirs, m);
    case Queen =>
      if m in BishopMoves(b, file, rank, p.color) {
        RaysSound(b, file, rank, p.color, BishopDirs, m);
      } else {
        RaysSound(b, file, rank, p.color, RookDirs, m);
      }
  }

  /** No moves from an empty square; every target is a square name that does not hold a piece
      of the mover's own colour. */
  lemma ValidMovesSound(b: Board, sq: string, m: string)
    ensures Lookup(b, sq).None? ==> ValidMoves(b, sq) == []
    ensures m in ValidMoves(b, sq) ==> IsValidSquare(m) && Enterable(b, m, Lookup(b, sq).value.color)
  {
    if m in ValidMoves(b, sq) {
      var fr := SquareToCoords(sq).value;
      PieceMovesSound(b, fr.0, fr.1, Lookup(b, sq).value, m);
    }
  }

  // ---------------------------------------------------------------- the generators

  /** `getPawnMoves`: the forward steps, then the capture loop, then the filter. */
  method GetPawnMoves(b: Board, file: int, rank: int, color: Color) returns (moves: seq<string>)
    requires OnBoard(file, rank)
    ensures moves == PawnMoves(b, file, rank, color)
  {
    var raw: seq<string> := [];
    var direction := if color == White then -1 else 1;
    var startRank := if color == White then 6 else 1;
    var forwardSquare := CoordsToSquare(file, rank + direction);
    if IsNull(b, forwardSquare) {
      raw := raw + [forwardSquare];
      if rank == startRank {
        var doubleSquare := CoordsToSquare(file, rank + 2 * direction);
        if IsNull(b, doubleSquare) {
          raw := raw + [doubleSquare];
        }
      }
    }
    assert raw == PawnPushes(b, file, rank, color);
    raw := AddPawnCaptures(b, file, rank, color, CaptureOffsets, raw);
    moves := ValidOnly(raw);
  }

  /** The `[-1, 1].forEach` capture loop of `getPawnMoves` over `fileOffsets`, appending to
      `raw`. */
  method AddPawnCaptures(b: Board, file: int, rank: int, color: Color, fileOffsets: seq<int>, raw: seq<string>)
    returns (out: seq<string>)
    requires OnBoard(file, rank) && UnitOffsets(fileOffsets)
    ensures out == raw + PawnCaptures(b, file, rank, color, fileOffsets)
  {
    out := raw;
    var direction := if color == White then -1 else 1;
    var k := 0;
    while k < |fileOffsets|
      invariant 0 <= k <= |fileOffsets|
      invariant out == raw + PawnCaptures(b, file, rank, color, fileOffsets[..k])
    {
      out := AddPawnCapture(b, file, rank, color, direction, fileOffsets[k], out);
      PawnCapturesStep(b, file, rank, color, fileOffsets, k);
      ConcatAssoc(raw, PawnCaptures(b, file, rank, color, fileOffsets[..k]), PawnCapture(b, file, rank, color, fileOffsets[k]));
      k := k + 1;
    }
    assert fileOffsets[..k] == fileOffsets;
  }

  /** One pass of the capture loop's callback. */
  method AddPawnCapture(b: Board, file: int, rank: int, color: Color, direction: int, df: int, raw: seq<string>)
    returns (out: seq<string>)
    requires OnBoard(file, rank) && -1 <= df <= 1 && direction == PawnDirection(color)
    ensures out == raw + PawnCapture(b, file, rank, color, df)
  {
    var captureSquare := CoordsToSquare(file + df, rank + direction);
    out := raw;
    if HoldsOpponent(b, captureSquare, color) {
      out := out + [captureSquare];
    }
  }

  /** The `deltas.forEach` loop of `getKnightMoves` and `getKingMoves`, then the filter. */
  method GetOffsetMoves(b: Board, file: int, rank: int, color: Color, deltas: seq<(int, int)>) returns (moves: seq<string>)
    requires OnBoard(file, rank) && SmallDeltas(deltas)
    ensures moves == ValidOnly(StepTargets(b, file, rank, color, deltas))
  {
    var raw: seq<string> := [];
    var k := 0;
    while k < |deltas|
      invariant 0 <= k <= |deltas|
      invariant raw == StepTargets(b, file, rank, color, deltas[..k])
    {
      raw := AddStepTarget(b, file, rank, color, deltas[k], raw);
      StepTargetsStep(b, file, rank, color, deltas, k);
      k := k + 1;
    }
    assert deltas[..k] == deltas;
    moves := ValidOnly(raw);
  }

  /** One `deltas.forEach` step: the target is pushed when it is empty or an opponent's. */
  method AddStepTarget(b: Board, file: int, rank: int, color: Color, delta: (int, int), raw: seq<string>)
    returns (out: seq<string>)
    requires OnBoard(file, rank) && -2 <= delta.0 <= 2 && -2 <= delta.1 <= 2
    ensures out == raw + StepTarget(b, file, rank, color, delta)
  {
    var newSquare := CoordsToSquare(file + delta.0, rank + delta.1);
    var targetPiece := Lookup(b, newSquare);
    out := raw;
    if targetPiece.None? || targetPiece.value.color != color {
      out := out + [newSquare];
    }
  }

  method GetKnightMoves(b: Board, file: int, rank: int, color: Color) returns (moves: seq<string>)
    requires OnBoard(file, rank)
    ensures moves == KnightMoves(b, file, rank, color)
  {
    moves := GetOffsetMoves(b, file, rank, color, KnightDeltas);
  }

  method GetKingMoves(b: Board, file: int, rank: int, color: Color) returns (moves: seq<string>)
    requires OnBoard(file, rank)
    ensures moves == KingMoves(b, file, rank, color)
  {
    moves := GetOffsetMoves(b, file, rank, color, KingDeltas);
  }

  /** The `directions.forEach` loop of `getBishopMoves` and `getRookMoves`. */
  method GetSlidingMoves(b: Board, file: int, rank: int, color: Color, directions: seq<(int, int)>) returns (moves: seq<string>)
    requires OnBoard(file, rank) && UnitDirs(directions)
    ensures moves == Rays(b, file, rank, color, directions)
  {
    moves := [];
    var d := 0;
    while d < |directions|
      invariant 0 <= d <= |directions|
      invariant moves == Rays(b, file, rank, color, directions[..d])
    {
      var (df, dr) := directions[d];
      assert directions[..d + 1][..d] == directions[..d];
      moves := WalkRay(b, file, rank, color, df, dr, moves);
      d := d + 1;
    }
    assert directions[..d] == directions;
  }

  /** The body of the `forEach` callback: a `for` loop over the steps 1..7 of one direction
      that pushes empty squares, and at the first piece pushes it if it is an opponent's and
      breaks; it also breaks at the first point off the board. */
  method WalkRay(b: Board, file: int, rank: int, color: Color, df: int, dr: int, moves: seq<string>) returns (out: seq<string>)
    requires OnBoard(file, rank) && -1 <= df <= 1 && -1 <= dr <= 1
    ensures out == moves + Ray(b, file, rank, color, df, dr, 1)
  {
    out := moves;
    var i := 1;
    while i < 8
      invariant 1 <= i <= 8
      invariant out + Ray(b, file, rank, color, df, dr, i) == moves + Ray(b, file, rank, color, df, dr, 1)
    {
      var newSquare := CoordsToSquare(file + Scale(df, i), rank + Scale(dr, i));
      assert newSquare == RayStep(file, rank, df, dr, i);
      StepsTail(file, rank, df, dr, i);
      ghost var ray := Ray(b, file, rank, color, df, dr, i);
      if !IsValidSquare(newSquare) {
        assert ray == [];
        break;
      }
      var targetPiece := Lookup(b, newSquare);
      if targetPiece.None? {
        assert ray == [newSquare] + Ray(b, file, rank, color, df, dr, i + 1);
        out := out + [newSquare];
      } else {
        if targetPiece.value.color != color {
          assert ray == [newSquare];
          out := out + [newSquare];
        } else {
          assert ray == [];
        }
        break;
      }
      i := i + 1;
    }
  }

  method GetBishopMoves(b: Board, file: int, rank: int, color: Color) returns (moves: seq<string>)
    requires OnBoard(file, rank)
    ensures moves == BishopMoves(b, file, rank, color)
  {
    moves := GetSlidingMoves(b, file, rank, color, BishopDirs);
  }

  method GetRookMoves(b: Board, file: int, rank: int, color: Color) returns (moves: seq<string>)
    requires OnBoard(file, rank)
    ensures moves == RookMoves(b, file, rank, color)
  {
    moves := GetSlidingMoves(b, file, rank, color, RookDirs);
  }

  /** Queen moves are exactly the bishop moves followed by the rook moves. */
  method GetQueenMoves(b: Board, file: int, rank: int, color: Color) returns (moves: seq<string>)
    requires OnBoard(file, rank)
    ensures moves == BishopMoves(b, file, rank, color) + RookMoves(b, file, rank, color)
  {
    var diagonal := GetBishopMoves(b, file, rank, color);
    var straight := GetRookMoves(b, file, rank, color);
    moves := diagonal + straight;
  }

  /** `getValidMoves`. */
  method GetValidMoves(b: Board, square: string) returns (moves: seq<string>)
    ensures moves == ValidMoves(b, square)
    ensures Lookup(b, square).None? ==> moves == []
    ensures forall m :: m in moves ==> IsValidSquare(m) && Enterable(b, m, Lookup(b, square).value.color)
  {
    var piece := Lookup(b, square);
    if piece.None? {
      return [];
    }
    moves := [];
    var coords := SquareToCoords(square);
    if coords.None? {
      return [];
    }
    var (file, rank) := coords.value;
    var color := piece.value.color;
    var found: seq<string>;
    match piece.value.kind {
      case Pawn => found := GetPawnMoves(b, file, rank, color);
      case Knight => found := GetKnightMoves(b, file, rank, color);
      case Bishop => found := GetBishopMoves(b, file, rank, color);
      case Rook => found := GetRookMoves(b, file, rank, color);
      case Queen => found := GetQueenMoves(b, file, rank, color);
      case King => found := GetKingMoves(b, file, rank, color);
    }
    moves := moves + found;
    assert moves == ValidMoves(b, square);
    forall m | m in moves ensures IsValidSquare(m) && Enterable(b, m, color) {
      ValidMovesSound(b, square, m);
    }
  }

  // ---------------------------------------------------------------- attacks

  /** `m` is a target of some piece of `color` standing on one of the keys in `from`. */
  ghost predicate AttackedFrom(b: Board, color: Color, from: set<string>, m: string) {
    exists s :: s in from && s in b.squares && HoldsOwn(b, s, color) && m in ValidMoves(b, s)
  }

  /** `getAttackedSquares`: the union of the targets of every piece of `color`; the source's
      array order (key insertion order) is not kept, only membership. */
  method GetAttackedSquares(b: Board, color: Color) returns (attacked: set<string>)
    ensures forall m :: m in attacked <==> AttackedFrom(b, color, b.squares.Keys, m)
  {
    attacked := {};
    var remaining := b.squares.Keys;
    while remaining != {}
      invariant remaining <= b.squares.Keys
      invariant forall m :: m in attacked <==> AttackedFrom(b, color, b.squares.Keys - remaining, m)
      decreases |remaining|
    {
      var square :| square in remaining;
      var piece := b.squares[square];
      if piece.Some? && piece.value.color == color {
        var targets := GetValidMoves(b, square);
        attacked := attacked + set m | m in targets;
      }
      remaining := remaining - {square};
      forall m ensures m in attacked <==> AttackedFrom(b, color, b.squares.Keys - remaining, m) {
        if AttackedFrom(b, color, b.squares.Keys - remaining, m) {
          var s :| s in b.squares.Keys - remaining && s in b.squares && HoldsOwn(b, s, color) && m in ValidMoves(b, s);
          if s != square {
            assert s in b.squares.Keys - (remaining + {square});
          }
        }
      }
    }
  }

  /** `isSquareAttacked`: some piece of `byColor` has `square` among its targets. */
  method IsSquareAttacked(b: Board, square: string, byColor: Color) returns (r: bool)
    ensures r <==> exists s :: s in b.squares && HoldsOwn(b, s, byColor) && square in ValidMoves(b, s)
  {
    var attacked := GetAttackedSquares(b, byColor);
    r := square in attacked;
  }

  // ---------------------------------------------------------------- makeMove

  /** The move `from`–`to` is accepted: `from` holds a piece of the side to move and `to` is
      one of its targets. */
  predicate Accepts(b: Board, from: string, to: string) {
    && Lookup(b, from).Some?
    && Lookup(b, from).value.color == b.currentPlayer
    && to in ValidMoves(b, from)
  }

  /** `makeMove`. A rejected move returns the input board; an accepted one returns a copy in
      which the piece stands on `to`, `from` is empty, nothing else changed, the side to
      move is flipped, `from ++ to` is appended to the history, and the mover's capture list
      gains the type of the piece that stood on `to`, if any. Since an accepted move always
      changes the board, the result differs from the input exactly when the move is accepted
      (the source's callers test `newBoard !== board`). */
  method MakeMove(b: Board, from: string, to: string) returns (nb: Board)
    ensures !Accepts(b, from, to) ==> nb == b
    ensures Accepts(b, from, to) ==>
      && nb.squares.Keys == b.squares.Keys + {to}
      && nb.squares[to] == Lookup(b, from)
      && nb.squares[from] == None
      && (forall s :: s in b.squares && s != from && s != to ==> nb.squares[s] == b.squares[s])
      && nb.currentPlayer == b.currentPlayer.Opposite()
      && nb.moveHistory == b.moveHistory + [from + to]
      && var captured := Lookup(b, to);
         var mover := b.currentPlayer;
         && nb.capturedW == (if mover == White && captured.Some? then b.capturedW + [captured.value.kind] else b.capturedW)
         && nb.capturedB == (if mover == Black && captured.Some? then b.capturedB + [captured.value.kind] else b.capturedB)
    ensures nb != b <==> Accepts(b, from, to)
  {
    var piece := Lookup(b, from);
    if piece.None? || piece.value.color != b.currentPlayer {
      return b;
    }
    var validMoves := GetValidMoves(b, from);
    if to !in validMoves {
      return b;
    }
    ValidMovesSound(b, from, to);
    assert HoldsOwn(b, from, piece.value.color) && Enterable(b, to, piece.value.color);
    assert from in b.squares && from != to;
    nb := b;
    var targetPiece := Lookup(nb, to);
    if targetPiece.Some? {
      if piece.value.color == White {
        nb := nb.(capturedW := nb.capturedW + [targetPiece.value.kind]);
      } else {
        nb := nb.(capturedB := nb.capturedB + [targetPiece.value.kind]);
      }
    }
    nb := nb.(squares := nb.squares[to := piece]);
    nb := nb.(squares := nb.squares[from := None]);
    nb := nb.(currentPlayer := if nb.currentPlayer == White then Black else White);
    nb := nb.(moveHistory := nb.moveHistory + [from + to]);
    assert nb.squares[from] != b.squares[from];
  }

  // ---------------------------------------------------------------- the starting position

  function BackRank(file: int): PieceType
    requires 0 <= file < 8
  {
    [Rook, Knight, Bishop, Queen, King, Bishop, Knight, Rook][file]
  }

  /** `INITIAL_POSITION` at a square name. */
  function InitialPiece(s: string): Option<Piece>
    requires IsValidSquare(s)
  {
    var file := s[0] as int - 'a' as int;
    if s[1] == '8' then Some(Piece(BackRank(file), Black))
    else if s[1] == '7' then Some(Piece(Pawn, Black))
    else if s[1] == '2' then Some(Piece(Pawn, White))
    else if s[1] == '1' then Some(Piece(BackRank(file), White))
    else None
  }

  /** `initializeBoard`: all 64 squares present, white to move, no history, no captures. */
  function InitialBoard(): (b: Board)
    ensures forall s :: s in b.squares <==> IsValidSquare(s)
    ensures forall s :: s in b.squares ==> b.squares[s] == InitialPiece(s)
    ensures b.currentPlayer == White && b.moveHistory == [] && b.capturedW == [] && b.capturedB == []
  {
    var names := set c1, c2 | c1 in "abcdefgh" && c2 in "12345678" :: [c1, c2];
    assert forall s :: s in names <==> IsValidSquare(s) by {
      forall s | IsValidSquare(s) ensures s in names {
        assert s == [s[0], s[1]];
        assert s[0] in "abcdefgh" by {
          var i := s[0] as int - 'a' as int;
          assert "abcdefgh"[i] == s[0];
        }
        assert s[1] in "12345678" by {
          var i := s[1] as int - '1' as int;
          assert "12345678"[i] == s[1];
        }
      }
    }
    Board(map s | s in names :: InitialPiece(s), White, [], [], [])
  }
}
