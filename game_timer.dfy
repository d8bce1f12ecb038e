/** The server's per-game chess clocks (`backend/src/services/game-timer.service.ts`). The
    one-second interval and `Date.now()` become explicit calls to `Tick(gameId, now)` with the
    current time in milliseconds, and what the socket server would broadcast is appended to
    `events`. */
module GameTimers {
  import opened Types

  /** A clock record. `running` says whether the interval handle stored in the record is
      still firing `tick` (cleared by pause and stop, set by start and resume). */
  datatype Timer = Timer(gameId: string, whiteTime: int, blackTime: int, currentPlayer: Color, lastUpdate: int, running: bool)

  datatype TimerEvent =
    | TimerUpdate(gameId: string, whiteTime: int, blackTime: int, currentPlayer: Color)
    | GameOver(gameId: string, reason: string, winner: Winner)

  /** `Math.max(0, x)`. */
  function FloorAtZero(x: int): (r: int)
    ensures r >= 0 && r >= x && (r == x || r == 0)
  {
    if x < 0 then 0 else x
  }

  /** `Math.floor((now - lastUpdate) / 1000)`: whole seconds since the last charge (negative
      when the clock went backwards). */
  function Elapsed(t: Timer, now: int): int {
    (now - t.lastUpdate) / 1000
  }

  /** The timer after a tick that found `elapsed >= 1` whole seconds: the side to move loses
      them, floored at zero, the other side keeps its time, and `lastUpdate` becomes `now`. */
  function Charged(t: Timer, now: int): (r: Timer)
    requires Elapsed(t, now) >= 1
    ensures r.lastUpdate == now && r.currentPlayer == t.currentPlayer && r.gameId == t.gameId && r.running == t.running
    ensures t.currentPlayer == White ==>
      r.whiteTime == FloorAtZero(t.whiteTime - Elapsed(t, now)) && r.blackTime == t.blackTime
    ensures t.currentPlayer == Black ==>
      r.blackTime == FloorAtZero(t.blackTime - Elapsed(t, now)) && r.whiteTime == t.whiteTime
  {
    var elapsed := Elapsed(t, now);
    if t.currentPlayer == White then t.(whiteTime := FloorAtZero(t.whiteTime - elapsed), lastUpdate := now)
    else t.(blackTime := FloorAtZero(t.blackTime - elapsed), lastUpdate := now)
  }

  /** A tick never gives time back: a clock that was non-negative stays non-negative and does
      not grow, and a clock that was already at zero stays at zero. */
  lemma ChargeNeverIncreases(t: Timer, now: int)
    requires Elapsed(t, now) >= 1 && t.whiteTime >= 0 && t.blackTime >= 0
    ensures var r := Charged(t, now);
      && 0 <= r.whiteTime <= t.whiteTime && 0 <= r.blackTime <= t.blackTime
      && (t.whiteTime == 0 ==> r.whiteTime == 0) && (t.blackTime == 0 ==> r.blackTime == 0)
      && (r.whiteTime < t.whiteTime || r.blackTime < t.blackTime || (t.currentPlayer == White && t.whiteTime == 0)
          || (t.currentPlayer == Black && t.blackTime == 0))
  {
  }

  /** Charging whole seconds at each tick never takes more than the whole seconds that have
      passed in total: the part of a second left over at a tick is dropped, not carried. */
  lemma TicksNeverOvercharge(t: Timer, now1: int, now2: int)
    requires Elapsed(t, now1) >= 1 && Elapsed(Charged(t, now1), now2) >= 1
    ensures Elapsed(t, now1) + Elapsed(Charged(t, now1), now2) <= Elapsed(t, now2)
  {
  }

  /** The events of a tick after the charge: always one update carrying both clocks and the
      side to move, then a timeout when a clock reached zero (white's checked first). */
  function TickEvents(gameId: string, r: Timer): (evs: seq<TimerEvent>)
    ensures |evs| >= 1 && evs[0] == TimerUpdate(gameId, r.whiteTime, r.blackTime, r.currentPlayer)
    ensures |evs| == 2 <==> r.whiteTime == 0 || r.blackTime == 0
    ensures |evs| == 2 ==> evs[1] == GameOver(gameId, "timeout", if r.whiteTime == 0 then BlackWon else WhiteWon)
    ensures |evs| <= 2
  {
    [TimerUpdate(gameId, r.whiteTime, r.blackTime, r.currentPlayer)]
    + (if r.whiteTime == 0 then [GameOver(gameId, "timeout", BlackWon)]
       else if r.blackTime == 0 then [GameOver(gameId, "timeout", WhiteWon)]
       else [])
  }

  /** The in-place charge of `tick`: the side to move loses `elapsed` seconds, floored at
      zero, and `lastUpdate` becomes `now`. */
  method ChargeClock(before: Timer, elapsed: int, now: int) returns (timer: Timer)
    requires elapsed == Elapsed(before, now) && elapsed >= 1
    ensures timer == Charged(before, now)
  {
    timer := before;
    if timer.currentPlayer == White {
      timer := timer.(whiteTime := if timer.whiteTime - elapsed < 0 then 0 else timer.whiteTime - elapsed);
    } else {
      timer := timer.(blackTime := if timer.blackTime - elapsed < 0 then 0 else timer.blackTime - elapsed);
    }
    timer := timer.(lastUpdate := now);
  }

  class GameTimerService {
    var timers: map<string, Timer>
    var ioReady: bool
    var events: seq<TimerEvent>
    /** Intervals whose handle no record holds any more but which were never cleared: each
        still fires `tick` for its game id, whatever record is filed under that id. */
    var strays: multiset<string>

    /** Every record is filed under its own game id. */
    ghost predicate Valid()
      reads this
    {
      forall id :: id in timers ==> timers[id].gameId == id
    }

    /** Some interval fires `tick(gameId)`: the record's own one, or a stray. */
    predicate Firing(gameId: string)
      reads this
    {
      (gameId in timers && timers[gameId].running) || gameId in strays
    }

    constructor()
      ensures Valid()
      ensures timers == map[] && !ioReady && events == [] && strays == multiset{}
    {
      timers := map[];
      ioReady := false;
      events := [];
      strays := multiset{};
    }

    /** `initialize`: from now on ticks may broadcast. */
    method Initialize()
      modifies this
      ensures ioReady && timers == old(timers) && events == old(events) && strays == old(strays)
    {
      ioReady := true;
    }

    /** `startTimer`: any timer of the same game is stopped and replaced by a running one with
        the given clocks; other games' timers are untouched. */
    method StartTimer(gameId: string, whiteTime: int, blackTime: int, currentPlayer: Color, now: int)
      requires Valid()
      modifies this
      ensures Valid()
      ensures timers == old(timers)[gameId := Timer(gameId, whiteTime, blackTime, currentPlayer, now, true)]
      ensures ioReady == old(ioReady) && events == old(events) && strays == old(strays)
    {
      StopTimer(gameId);
      var timer := Timer(gameId, whiteTime, blackTime, currentPlayer, now, true);
      timers := timers[gameId := timer];
    }

    /** One firing of an interval for `gameId` at time `now`, which calls `tick`. When no
        interval fires for the game there is no such call, and nothing changes. An unknown
        game, a service without a socket server, or less than one whole elapsed second change
        nothing and broadcast nothing. Otherwise the side to move is charged (Charged), one
        update is broadcast, and if a clock reached zero a timeout is broadcast and the timer
        removed. */
    method Tick(gameId: string, now: int)
      requires Valid()
      modifies this
      ensures Valid()
      ensures ioReady == old(ioReady) && strays == old(strays)
      ensures !old(Firing(gameId)) ==> timers == old(timers) && events == old(events)
      ensures gameId !in old(timers) || !ioReady || Elapsed(old(timers)[gameId], now) < 1 ==>
        timers == old(timers) && events == old(events)
      ensures old(Firing(gameId)) && gameId in old(timers) && ioReady && Elapsed(old(timers)[gameId], now) >= 1 ==>
        var r := Charged(old(timers)[gameId], now);
        && events == old(events) + TickEvents(gameId, r)
        && timers == (if r.whiteTime == 0 || r.blackTime == 0 then old(timers) - {gameId} else old(timers)[gameId := r])
    {
      if !Firing(gameId) {
        return;
      }
      if gameId !in timers || !ioReady {
        return;
      }
      var timer := timers[gameId];
      var elapsed := (now - timer.lastUpdate) / 1000;
      if elapsed < 1 {
        return;
      }
      timer := ChargeClock(timer, elapsed, now);
      timers := timers[gameId := timer];
      events := events + [TimerUpdate(gameId, timer.whiteTime, timer.blackTime, timer.currentPlayer)];
      if timer.whiteTime == 0 {
        events := events + [GameOver(gameId, "timeout", BlackWon)];
        StopTimer(gameId);
      } else if timer.blackTime == 0 {
        events := events + [GameOver(gameId, "timeout", WhiteWon)];
        StopTimer(gameId);
      }
    }

    /** `switchPlayer`: only the side to move and `lastUpdate` change, never the clocks; an
        unknown game is left alone. */
    method SwitchPlayer(gameId: string, newPlayer: Color, now: int)
      requires Valid()
      modifies this
      ensures Valid()
      ensures gameId !in old(timers) ==> timers == old(timers)
      ensures gameId in old(timers) ==>
        timers == old(timers)[gameId := old(timers)[gameId].(currentPlayer := newPlayer, lastUpdate := now)]
      ensures ioReady == old(ioReady) && events == old(events) && strays == old(strays)
    {
      if gameId !in timers {
        return;
      }
      var timer := timers[gameId];
      timer := timer.(currentPlayer := newPlayer, lastUpdate := now);
      timers := timers[gameId := timer];
    }

    /** `pauseTimer`: the stored interval is cleared; the record and its clocks stay. Unless a
        stray interval survives for the game, nothing fires `tick` for it any more. */
    method PauseTimer(gameId: string)
      requires Valid()
      modifies this
      ensures Valid()
      ensures gameId !in old(timers) ==> timers == old(timers)
      ensures gameId in old(timers) ==> timers == old(timers)[gameId := old(timers)[gameId].(running := false)]
      ensures GetTimer(gameId) == old(GetTimer(gameId))
      ensures Firing(gameId) <==> gameId in strays
      ensures ioReady == old(ioReady) && events == old(events) && strays == old(strays)
    {
      if gameId !in timers {
        return;
      }
      timers := timers[gameId := timers[gameId].(running := false)];
    }

    /** `resumeTimer` as written: `lastUpdate` restarts at `now` and a new interval is stored,
        overwriting the handle without clearing it; when that interval was still firing it
        becomes a stray that no later pause or stop reaches. */
    method ResumeTimer(gameId: string, now: int)
      requires Valid()
      modifies this
      ensures Valid()
      ensures gameId !in old(timers) ==> timers == old(timers) && strays == old(strays)
      ensures gameId in old(timers) ==>
        && timers == old(timers)[gameId := old(timers)[gameId].(lastUpdate := now, running := true)]
        && strays == old(strays) + (if old(timers)[gameId].running then multiset{gameId} else multiset{})
      ensures GetTimer(gameId) == old(GetTimer(gameId))
      ensures ioReady == old(ioReady) && events == old(events)
    {
      if gameId !in timers {
        return;
      }
      if timers[gameId].running {
        strays := strays + multiset{gameId};
      }
      timers := timers[gameId := timers[gameId].(lastUpdate := now, running := true)];
    }

    /** `resumeTimer` as evidently intended: the stored interval is cleared before the new one
        is stored, so resuming a running timer leaves no stray behind. */
    method ResumeTimerClearing(gameId: string, now: int)
      requires Valid()
      modifies this
      ensures Valid()
      ensures gameId !in old(timers) ==> timers == old(timers)
      ensures gameId in old(timers) ==>
        timers == old(timers)[gameId := old(timers)[gameId].(lastUpdate := now, running := true)]
      ensures GetTimer(gameId) == old(GetTimer(gameId))
      ensures ioReady == old(ioReady) && events == old(events) && strays == old(strays)
    {
      if gameId !in timers {
        return;
      }
      timers := timers[gameId := timers[gameId].(lastUpdate := now, running := true)];
    }

    /** `stopTimer`: clears the stored interval and removes the record if there is one;
        stopping twice is stopping once. */
    method StopTimer(gameId: string)
      requires Valid()
      modifies this
      ensures Valid()
      ensures timers == old(timers) - {gameId}
      ensures GetTimer(gameId) == None
      ensures ioReady == old(ioReady) && events == old(events) && strays == old(strays)
    {
      if gameId !in timers {
        return;
      }
      timers := timers - {gameId};
    }

    /** `getTimer`: both clocks, or nothing for an unknown game. */
    function GetTimer(gameId: string): (r: Option<(int, int)>)
      reads this
      ensures r.Some? <==> gameId in timers
      ensures r.Some? ==> r.value.0 == timers[gameId].whiteTime && r.value.1 == timers[gameId].blackTime
    {
      if gameId in timers then Some((timers[gameId].whiteTime, timers[gameId].blackTime)) else None
    }

    /** A pause loses no time: pausing, then any number of interval firings at any times, then
        resuming leaves both clocks as they were and broadcasts nothing, provided no stray
        interval fires for the game; the resumed clock is charged only from `resumeAt` on, and
        resuming after a pause leaks no interval. */
    method PausedClockKeepsTime(gameId: string, tickTimes: seq<int>, resumeAt: int)
      requires Valid() && gameId !in strays
      modifies this
      ensures Valid()
      ensures GetTimer(gameId) == old(GetTimer(gameId)) && events == old(events)
      ensures gameId in timers ==> timers[gameId].lastUpdate == resumeAt && timers[gameId].running
      ensures strays == old(strays)
    {
      PauseTimer(gameId);
      var clocks := GetTimer(gameId);
      for k := 0 to |tickTimes|
        invariant Valid() && !Firing(gameId)
        invariant GetTimer(gameId) == clocks && events == old(events) && strays == old(strays)
      {
        Tick(gameId, tickTimes[k]);
      }
      ResumeTimer(gameId, resumeAt);
    }
  }

  /** Resuming a running timer and then pausing it still lets the leaked interval charge the
      paused clock: five seconds after the resume white has lost five seconds. */
  method ResumeWhileRunningLeaks() returns (s: GameTimerService)
    ensures s.Valid() && "g" in s.timers && !s.timers["g"].running && "g" in s.strays
    ensures s.GetTimer("g") == Some((595, 600))
  {
    s := new GameTimerService();
    s.Initialize();
    s.StartTimer("g", 600, 600, White, 0);
    s.ResumeTimer("g", 0);
    s.PauseTimer("g");
    s.Tick("g", 5000);
  }

  /** The same calls with the clearing resume leave the paused clock untouched. */
  method ResumeWhileRunningCleared() returns (s: GameTimerService)
    ensures s.Valid() && "g" in s.timers && !s.timers["g"].running && s.strays == multiset{}
    ensures s.GetTimer("g") == Some((600, 600))
  {
    s := new GameTimerService();
    s.Initialize();
    s.StartTimer("g", 600, 600, White, 0);
    s.ResumeTimerClearing("g", 0);
    s.PauseTimer("g");
    s.Tick("g", 5000);
  }
}
