/** The browser-side user list (`lib/user-storage.ts`): accounts with their statistics and
    game history, the current user, the update after a finished game and the leaderboard.
    The two localStorage entries become the fields `users` and `currentUserId`; generated
    ids, timestamps and password hashing are parameters. */
module UserStorage {
  import opened Types

  datatype TypeTally = TypeTally(played: nat, won: nat)

  /** `UserStats`, with `byGameType` as one tally per game type. */
  datatype Stats = Stats(
    gamesPlayed: nat,
    gamesWon: nat,
    gamesLost: nat,
    gamesDraw: nat,
    totalMoves: nat,
    totalTime: nat,
    averageMovesPerWin: nat,
    averageTimePerWin: nat,
    normal: TypeTally,
    rapid: TypeTally,
    blitz: TypeTally)

  datatype Opponent = HumanOpponent | AIOpponent

  datatype GameResult = GameResult(
    id: string,
    date: string,
    gameType: GameType,
    whitePlayer: string,
    blackPlayer: string,
    winner: Winner,
    moves: nat,
    duration: nat,
    userColor: Color,
    opponentType: Opponent,
    opponentModel: Option<string>)

  datatype User = User(
    id: string,
    username: string,
    passwordHash: Option<string>,
    createdAt: string,
    stats: Stats,
    gameHistory: seq<GameResult>)

  /** `createEmptyStats`. */
  function EmptyStats(): (s: Stats)
    ensures s.gamesPlayed == s.gamesWon == s.gamesLost == s.gamesDraw == 0
    ensures s.totalMoves == s.totalTime == s.averageMovesPerWin == s.averageTimePerWin == 0
    ensures forall t :: Tally(s, t) == TypeTally(0, 0)
  {
    Stats(0, 0, 0, 0, 0, 0, 0, 0, TypeTally(0, 0), TypeTally(0, 0), TypeTally(0, 0))
  }

  /** `stats.byGameType[t]`. */
  function Tally(s: Stats, t: GameType): TypeTally {
    match t
    case Normal => s.normal
    case Rapid => s.rapid
    case Blitz => s.blitz
  }

  /** The stats with the tally of `t` replaced and every other field kept. */
  function WithTally(s: Stats, t: GameType, tally: TypeTally): (r: Stats)
    ensures Tally(r, t) == tally
    ensures forall u :: u != t ==> Tally(r, u) == Tally(s, u)
    ensures r.gamesPlayed == s.gamesPlayed && r.gamesWon == s.gamesWon && r.gamesLost == s.gamesLost && r.gamesDraw == s.gamesDraw
    ensures r.totalMoves == s.totalMoves && r.totalTime == s.totalTime
    ensures r.averageMovesPerWin == s.averageMovesPerWin && r.averageTimePerWin == s.averageTimePerWin
  {
    match t
    case Normal => s.(normal := tally)
    case Rapid => s.(rapid := tally)
    case Blitz => s.(blitz := tally)
  }

  /** The user played the winning colour. */
  predicate UserWon(g: GameResult) {
    (g.userColor == White && g.winner == WhiteWon) || (g.userColor == Black && g.winner == BlackWon)
  }

  /** The number of won games in a history. */
  function WonCount(h: seq<GameResult>): (n: nat)
    ensures n <= |h|
  {
    if h == [] then 0 else WonCount(h[..|h| - 1]) + (if UserWon(h[|h| - 1]) then 1 else 0)
  }

  /** The moves of the won games, summed (`wonGames.reduce((sum, g) => sum + g.moves, 0)`). */
  function WonMoves(h: seq<GameResult>): nat {
    if h == [] then 0 else WonMoves(h[..|h| - 1]) + (if UserWon(h[|h| - 1]) then h[|h| - 1].moves else 0)
  }

  /** The durations of the won games, summed. */
  function WonTime(h: seq<GameResult>): nat {
    if h == [] then 0 else WonTime(h[..|h| - 1]) + (if UserWon(h[|h| - 1]) then h[|h| - 1].duration else 0)
  }

  function TotalMoves(h: seq<GameResult>): nat {
    if h == [] then 0 else TotalMoves(h[..|h| - 1]) + h[|h| - 1].moves
  }

  function TotalTime(h: seq<GameResult>): nat {
    if h == [] then 0 else TotalTime(h[..|h| - 1]) + h[|h| - 1].duration
  }

  /** The number of games of one type in a history, and how many of them were won. */
  function TypeCount(h: seq<GameResult>, t: GameType): TypeTally {
    if h == [] then TypeTally(0, 0)
    else
      var prev := TypeCount(h[..|h| - 1], t);
      var g := h[|h| - 1];
      if g.gameType != t then prev
      else TypeTally(prev.played + 1, prev.won + (if UserWon(g) then 1 else 0))
  }

  /** `Math.round(a / b)` for a non-negative `a` and a positive `b`: the nearest whole number,
      halves rounded up. */
  function RoundDiv(a: nat, b: nat): (r: nat)
    requires b > 0
    ensures b * (2 * r) <= 2 * a + b < b * (2 * r + 2)
  {
    (2 * a + b) / (2 * b)
  }

  /** The user after `updateUserStats` with `g`: the result appended to the history, one
      more game played with its moves and time added, exactly one of won, draw, lost
      counted, the game type's tally updated, and, once there is a win, the averages per
      win recomputed over the won games of the history. */
  function Recorded(u: User, g: GameResult): User {
    var h := u.gameHistory + [g];
    var s := u.stats;
    var s1 := s.(gamesPlayed := s.gamesPlayed + 1, totalMoves := s.totalMoves + g.moves, totalTime := s.totalTime + g.duration);
    var s2 :=
      if UserWon(g) then
        var t := Tally(s1, g.gameType);
        WithTally(s1.(gamesWon := s1.gamesWon + 1), g.gameType, t.(won := t.won + 1))
      else if g.winner == DrawGame then s1.(gamesDraw := s1.gamesDraw + 1)
      else s1.(gamesLost := s1.gamesLost + 1);
    var t2 := Tally(s2, g.gameType);
    var s3 := WithTally(s2, g.gameType, t2.(played := t2.played + 1));
    var s4 :=
      if s3.gamesWon > 0 then
        s3.(averageMovesPerWin := RoundDiv(WonMoves(h), s3.gamesWon), averageTimePerWin := RoundDiv(WonTime(h), s3.gamesWon))
      else s3;
    u.(gameHistory := h, stats := s4)
  }

  /** What one recorded game changes, field by field. */
  lemma RecordedEffects(u: User, g: GameResult)
    ensures var r := Recorded(u, g);
      && r.id == u.id && r.username == u.username && r.passwordHash == u.passwordHash && r.createdAt == u.createdAt
      && r.gameHistory == u.gameHistory + [g]
      && r.stats.gamesPlayed == u.stats.gamesPlayed + 1
      && r.stats.totalMoves == u.stats.totalMoves + g.moves
      && r.stats.totalTime == u.stats.totalTime + g.duration
      && r.stats.gamesWon == u.stats.gamesWon + (if UserWon(g) then 1 else 0)
      && r.stats.gamesDraw == u.stats.gamesDraw + (if !UserWon(g) && g.winner == DrawGame then 1 else 0)
      && r.stats.gamesLost == u.stats.gamesLost + (if !UserWon(g) && g.winner != DrawGame then 1 else 0)
      && Tally(r.stats, g.gameType).played == Tally(u.stats, g.gameType).played + 1
      && Tally(r.stats, g.gameType).won == Tally(u.stats, g.gameType).won + (if UserWon(g) then 1 else 0)
      && (forall t :: t != g.gameType ==> Tally(r.stats, t) == Tally(u.stats, t))
      && (r.stats.gamesWon > 0 ==>
            r.stats.averageMovesPerWin == RoundDiv(WonMoves(r.gameHistory), r.stats.gamesWon)
            && r.stats.averageTimePerWin == RoundDiv(WonTime(r.gameHistory), r.stats.gamesWon))
      && (r.stats.gamesWon == 0 ==>
            r.stats.averageMovesPerWin == u.stats.averageMovesPerWin && r.stats.averageTimePerWin == u.stats.averageTimePerWin)
  {
  }

  /** A user's statistics agree with its history: every count is the count over the history,
      the outcomes and the game types each add up to the games played, and the averages are
      those of the won games. */
  predicate Consistent(u: User) {
    var s := u.stats;
    var h := u.gameHistory;
    && s.gamesPlayed == |h|
    && s.gamesPlayed == s.gamesWon + s.gamesLost + s.gamesDraw
    && s.gamesWon == WonCount(h)
    && s.totalMoves == TotalMoves(h) && s.totalTime == TotalTime(h)
    && (forall t :: Tally(s, t) == TypeCount(h, t))
    && (s.gamesWon > 0 ==>
          s.averageMovesPerWin == RoundDiv(WonMoves(h), s.gamesWon)
          && s.averageTimePerWin == RoundDiv(WonTime(h), s.gamesWon))
  }

  /** A new user is consistent, and recording a game keeps a user consistent. */
  lemma NewUserConsistent(u: User)
    requires u.stats == EmptyStats() && u.gameHistory == []
    ensures Consistent(u)
  {
    forall t ensures Tally(u.stats, t) == TypeCount(u.gameHistory, t) {
    }
  }

  lemma {:induction false} RecordedConsistent(u: User, g: GameResult)
    requires Consistent(u)
    ensures Consistent(Recorded(u, g))
  {
    var h := u.gameHistory + [g];
    var r := Recorded(u, g);
    RecordedEffects(u, g);
    assert h[..|h| - 1] == u.gameHistory && h[|h| - 1] == g;
    assert WonCount(h) == WonCount(u.gameHistory) + (if UserWon(g) then 1 else 0);
    assert TotalMoves(h) == TotalMoves(u.gameHistory) + g.moves;
    assert TotalTime(h) == TotalTime(u.gameHistory) + g.duration;
    forall t ensures Tally(r.stats, t) == TypeCount(h, t) {
      assert TypeCount(h, t) == (if g.gameType != t then TypeCount(u.gameHistory, t)
        else TypeTally(TypeCount(u.gameHistory, t).played + 1, TypeCount(u.gameHistory, t).won + (if UserWon(g) then 1 else 0)));
    }
  }

  /** The games of each type add up to all games, and each type's wins to all wins. */
  lemma {:induction false} TypeCountsAddUp(h: seq<GameResult>)
    ensures TypeCount(h, Normal).played + TypeCount(h, Rapid).played + TypeCount(h, Blitz).played == |h|
    ensures TypeCount(h, Normal).won + TypeCount(h, Rapid).won + TypeCount(h, Blitz).won == WonCount(h)
  {
    if h != [] {
      TypeCountsAddUp(h[..|h| - 1]);
    }
  }

  /** The first user with the given id (`users.find(u => u.id === id)`). */
  function FindById(users: seq<User>, id: string): (r: Option<nat>)
    ensures r.Some? ==> r.value < |users| && users[r.value].id == id
    ensures r.Some? ==> forall i :: 0 <= i < r.value ==> users[i].id != id
    ensures r.None? <==> forall i :: 0 <= i < |users| ==> users[i].id != id
  {
    if users == [] then None
    else if users[0].id == id then Some(0)
    else match FindById(users[1..], id)
      case Some(i) => Some(i + 1)
      case None => None
  }

  /** The body of `updateUserStats` for the user found: the result is appended to the
      history and the counters, the per-type tally and the per-win averages are updated. */
  method RecordResult(user: User, result: GameResult) returns (updated: User)
    ensures updated == Recorded(user, result)
  {
    var history := user.gameHistory + [result];
    var stats := user.stats;
    stats := stats.(gamesPlayed := stats.gamesPlayed + 1);
    stats := stats.(totalMoves := stats.totalMoves + result.moves);
    stats := stats.(totalTime := stats.totalTime + result.duration);
    if UserWon(result) {
      stats := stats.(gamesWon := stats.gamesWon + 1);
      var tally := Tally(stats, result.gameType);
      stats := WithTally(stats, result.gameType, tally.(won := tally.won + 1));
    } else if result.winner == DrawGame {
      stats := stats.(gamesDraw := stats.gamesDraw + 1);
    } else {
      stats := stats.(gamesLost := stats.gamesLost + 1);
    }
    var tally := Tally(stats, result.gameType);
    stats := WithTally(stats, result.gameType, tally.(played := tally.played + 1));
    if stats.gamesWon > 0 {
      stats := stats.(averageMovesPerWin := RoundDiv(WonMoves(history), stats.gamesWon));
      stats := stats.(averageTimePerWin := RoundDiv(WonTime(history), stats.gamesWon));
    }
    updated := user.(gameHistory := history, stats := stats);
  }

  // ---------------------------------------------------------------- the leaderboard

  /** Inserts `u` before the first user with no more wins than `u`. */
  function InsertByWins(u: User, sorted: seq<User>): (r: seq<User>)
    ensures multiset(r) == multiset(sorted) + multiset{u}
    ensures |r| == |sorted| + 1
  {
    if sorted == [] || sorted[0].stats.gamesWon <= u.stats.gamesWon then [u] + sorted
    else
      assert sorted == [sorted[0]] + sorted[1..];
      [sorted[0]] + InsertByWins(u, sorted[1..])
  }

  /** `users.sort((a, b) => b.stats.gamesWon - a.stats.gamesWon)`, a stable sort. */
  function SortByWins(users: seq<User>): (r: seq<User>)
    ensures multiset(r) == multiset(users)
    ensures |r| == |users|
  {
    if users == [] then []
    else
      assert users == [users[0]] + users[1..];
      InsertByWins(users[0], SortByWins(users[1..]))
  }

  predicate ByWinsDescending(s: seq<User>) {
    forall i, j :: 0 <= i < j < |s| ==> s[i].stats.gamesWon >= s[j].stats.gamesWon
  }

  lemma {:induction false} InsertKeepsDescending(u: User, sorted: seq<User>)
    requires ByWinsDescending(sorted)
    ensures ByWinsDescending(InsertByWins(u, sorted))
    ensures var r := InsertByWins(u, sorted); r[0] == u || (sorted != [] && r[0] == sorted[0])
  {
    var r := InsertByWins(u, sorted);
    if sorted != [] && sorted[0].stats.gamesWon > u.stats.gamesWon {
      var tail := sorted[1..];
      var rest := InsertByWins(u, tail);
      InsertKeepsDescending(u, tail);
      assert r == [sorted[0]] + rest;
      assert rest[0].stats.gamesWon <= sorted[0].stats.gamesWon by {
        if rest[0] != u {
          assert rest[0] == sorted[1];
        }
      }
      forall i, j | 0 <= i < j < |r| ensures r[i].stats.gamesWon >= r[j].stats.gamesWon {
        if i > 0 {
          assert r[i] == rest[i - 1] && r[j] == rest[j - 1];
        } else {
          assert r[j] == rest[j - 1];
          assert rest[0].stats.gamesWon >= rest[j - 1].stats.gamesWon;
        }
      }
    }
  }

  /** The leaderboard lists every user exactly once, with no fewer wins above more. */
  lemma {:induction false} SortByWinsSorted(users: seq<User>)
    ensures ByWinsDescending(SortByWins(users))
  {
    if users != [] {
      SortByWinsSorted(users[1..]);
      InsertKeepsDescending(users[0], SortByWins(users[1..]));
    }
  }

  /** The users with a given number of wins, in order. */
  function WithWins(s: seq<User>, w: nat): seq<User> {
    if s == [] then [] else (if s[0].stats.gamesWon == w then [s[0]] else []) + WithWins(s[1..], w)
  }

  lemma WithWinsCons(x: User, rest: seq<User>, w: nat)
    ensures WithWins([x] + rest, w) == (if x.stats.gamesWon == w then [x] else []) + WithWins(rest, w)
  {
    assert ([x] + rest)[0] == x && ([x] + rest)[1..] == rest;
  }

  lemma {:induction false} InsertStable(u: User, sorted: seq<User>, w: nat)
    requires ByWinsDescending(sorted)
    ensures WithWins(InsertByWins(u, sorted), w) == (if u.stats.gamesWon == w then [u] else []) + WithWins(sorted, w)
  {
    if sorted == [] || sorted[0].stats.gamesWon <= u.stats.gamesWon {
      WithWinsCons(u, sorted, w);
    } else {
      var rest := InsertByWins(u, sorted[1..]);
      InsertStable(u, sorted[1..], w);
      WithWinsCons(sorted[0], rest, w);
      assert sorted == [sorted[0]] + sorted[1..];
      WithWinsCons(sorted[0], sorted[1..], w);
      if u.stats.gamesWon == w {
        assert sorted[0].stats.gamesWon != w;
        assert WithWins(sorted, w) == WithWins(sorted[1..], w);
      } else {
        assert WithWins(InsertByWins(u, sorted), w) == WithWins([sorted[0]] + rest, w);
      }
    }
  }

  /** The sort is stable: users with the same number of wins keep their stored order. */
  lemma {:induction false} SortByWinsStable(users: seq<User>, w: nat)
    ensures WithWins(SortByWins(users), w) == WithWins(users, w)
  {
    if users != [] {
      SortByWinsStable(users[1..], w);
      SortByWinsSorted(users[1..]);
      InsertStable(users[0], SortByWins(users[1..]), w);
    }
  }

  class UserStore {
    /** The `chess_users` entry. */
    var users: seq<User>
    /** The `chess_current_user` entry. */
    var currentUserId: Option<string>

    constructor()
      ensures users == [] && currentUserId == None
    {
      users := [];
      currentUserId := None;
    }

    /** `setCurrentUser`. */
    method SetCurrentUser(userId: string)
      modifies this
      ensures currentUserId == Some(userId) && users == old(users)
    {
      currentUserId := Some(userId);
    }

    /** `logoutUser`. */
    method Logout()
      modifies this
      ensures currentUserId == None && users == old(users)
    {
      currentUserId := None;
    }

    /** `getUserById`: the first user with that id. */
    function GetUserById(userId: string): (r: Option<User>)
      reads this
      ensures r.Some? ==> r.value in users && r.value.id == userId
      ensures r.Some? ==> exists i :: 0 <= i < |users| && users[i] == r.value && (forall j :: 0 <= j < i ==> users[j].id != userId)
      ensures r.None? <==> forall i :: 0 <= i < |users| ==> users[i].id != userId
    {
      match FindById(users, userId)
      case Some(i) => Some(users[i])
      case None => None
    }

    /** `getCurrentUser`: nothing when no id is stored (or it is empty), otherwise the user
        with that id if there is one. */
    function GetCurrentUser(): (r: Option<User>)
      reads this
      ensures currentUserId.None? || currentUserId.value == "" ==> r == None
      ensures r.Some? ==> r.value in users && Some(r.value.id) == currentUserId
      ensures currentUserId.Some? && currentUserId.value != "" ==> r == GetUserById(currentUserId.value)
      ensures currentUserId.Some? && currentUserId.value != "" ==>
        (r.Some? <==> exists i :: 0 <= i < |users| && users[i].id == currentUserId.value)
    {
      if currentUserId.None? || currentUserId.value == "" then None else GetUserById(currentUserId.value)
    }

    /** `createUser`: `userId` and `createdAt` stand for the generated id and the clock, and
        `hash` for the password hashing; an absent or empty password stores no hash. The new
        user, with empty statistics and history, is appended and becomes the current user. */
    method CreateUser(username: string, password: Option<string>, userId: string, createdAt: string, hash: string -> string)
      returns (user: User)
      modifies this
      ensures user == User(userId, username,
        if password.Some? && password.value != "" then Some(hash(password.value)) else None,
        createdAt, EmptyStats(), [])
      ensures Consistent(user)
      ensures users == old(users) + [user]
      ensures currentUserId == Some(userId)
    {
      var passwordHash := if password.Some? && password.value != "" then Some(hash(password.value)) else None;
      user := User(userId, username, passwordHash, createdAt, EmptyStats(), []);
      NewUserConsistent(user);
      users := users + [user];
      currentUserId := Some(user.id);
    }

    /** `updateUserStats`: an unknown id changes nothing; otherwise the first user with that
        id is replaced by Recorded and every other entry stays. */
    method UpdateUserStats(userId: string, result: GameResult)
      modifies this
      ensures FindById(old(users), userId).None? ==> users == old(users)
      ensures FindById(old(users), userId).Some? ==>
        var i := FindById(old(users), userId).value;
        users == old(users)[i := Recorded(old(users)[i], result)]
      ensures |users| == |old(users)|
      ensures currentUserId == old(currentUserId)
    {
      var index := FindById(users, userId);
      if index.None? {
        return;
      }
      var user := RecordResult(users[index.value], result);
      users := users[index.value := user];
    }

    /** `getLeaderboard`: every user, most wins first, ties in stored order; the stored list
        is not changed. */
    function GetLeaderboard(): (board: seq<User>)
      reads this
      ensures multiset(board) == multiset(users)
    {
      SortByWins(users)
    }
  }
}
