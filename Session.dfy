/**
 * The mole game's session as a value: the state cells of the game screen
 * (app/App.tsx:11-16), the three ways they change (countdown timeout, game
 * timer, mole press), which screen they select, and what any run of events
 * does to them.
 *
 * Each step is the SETTLED state: where the source lets a render pass
 * between a timer callback and the effect that reacts to its new value
 * (the countdown reaching 0, the time reaching 0), both happen in one step.
 */
module MoleSession {
  import opened MolePlacement

  /** Seconds of countdown before play (app/App.tsx:14). */
  const COUNTDOWN_START: int := 3

  /** Seconds of play (app/App.tsx:13). */
  const GAME_SECONDS: int := 30

  /** The game screen's state cells, with the window size they are drawn in. */
  datatype Session = Session(
    width: real,
    height: real,
    molePosition: Position,
    score: int,
    timeLeft: int,
    startCountdown: int,
    gameOver: bool,
    gameStarted: bool)
  {
    /** What every session reachable from `Init` satisfies. */
    predicate Valid() {
      && 0 <= startCountdown <= COUNTDOWN_START
      && 0 <= timeLeft <= GAME_SECONDS
      && 0 <= score
      && (gameStarted <==> startCountdown == 0)
      && (gameOver <==> timeLeft == 0)
      && (gameOver ==> gameStarted)
      && (!gameStarted ==> timeLeft == GAME_SECONDS && score == 0 && molePosition == ORIGIN)
      && (height > TOP_MARGIN ==> 0.0 <= molePosition.top < height - TOP_MARGIN)
      && (width > LEFT_MARGIN ==> 0.0 <= molePosition.left < width - LEFT_MARGIN)
    }

    /** Play has begun and not ended: the mole is shown and presses count. */
    predicate Playing() {
      gameStarted && !gameOver
    }
  }

  /** The state when the game screen mounts (app/App.tsx:11-16). */
  function Init(width: real, height: real): (s: Session)
    ensures s.Valid() && !s.gameStarted && !s.gameOver
    ensures s.score == 0 && s.startCountdown == COUNTDOWN_START && s.timeLeft == GAME_SECONDS
  {
    Session(width, height, ORIGIN, 0, GAME_SECONDS, COUNTDOWN_START, false, false)
  }

  /**
   * What no step may undo: the flags only go from false to true, the score
   * never falls, the two counters never rise, the window never changes.
   */
  predicate Progress(s: Session, t: Session) {
    && t.width == s.width && t.height == s.height
    && (s.gameStarted ==> t.gameStarted)
    && (s.gameOver ==> t.gameOver)
    && s.score <= t.score
    && t.timeLeft <= s.timeLeft
    && t.startCountdown <= s.startCountdown
  }

  /**
   * The one-second countdown timeout fires; it is armed only while the
   * count is positive. When the count reaches 0 the effect starts the game.
   */
  function AfterCountdownTick(s: Session): (t: Session)
    ensures Progress(s, t)
    ensures s.Valid() ==> t.Valid()
  {
    if s.startCountdown > 0 then
      var count := s.startCountdown - 1;
      s.(startCountdown := count, gameStarted := if count == 0 then true else s.gameStarted)
    else
      s
  }

  /**
   * The one-second game timer fires; it is armed only while the game has
   * started and time is left. It takes a second off and moves the mole;
   * when the time reaches 0 the effect ends the game.
   */
  function AfterGameTick(s: Session, topDraw: Draw, leftDraw: Draw): (t: Session)
    ensures Progress(s, t)
    ensures s.Valid() ==> t.Valid()
  {
    if s.gameStarted && s.timeLeft > 0 then
      var left := s.timeLeft - 1;
      s.(timeLeft := left,
         molePosition := MoveMole(topDraw, leftDraw, s.width, s.height),
         gameOver := if left == 0 then true else s.gameOver)
    else
      s
  }

  /** The player presses the mole: a point and a new position, only during play. */
  function AfterPress(s: Session, topDraw: Draw, leftDraw: Draw): (t: Session)
    ensures Progress(s, t)
    ensures s.Valid() ==> t.Valid()
  {
    if s.gameStarted && !s.gameOver then
      s.(score := s.score + 1, molePosition := MoveMole(topDraw, leftDraw, s.width, s.height))
    else
      s
  }

  /** The screens of the game. */
  datatype Screen = CountdownScreen | PlayScreen | GameOverScreen

  /** The panels the render shows, in the order they are laid out. */
  function Shown(s: Session): seq<Screen> {
    (if !s.gameStarted then [CountdownScreen] else [])
    + (if s.gameStarted && !s.gameOver then [PlayScreen] else [])
    + (if s.gameOver then [GameOverScreen] else [])
  }

  /**
   * The screen of a session whose game is not over before it started:
   * exactly one panel is shown, and it is this one.
   */
  function Phase(s: Session): (sc: Screen)
    requires s.gameOver ==> s.gameStarted
    ensures Shown(s) == [sc]
  {
    if !s.gameStarted then CountdownScreen
    else if !s.gameOver then PlayScreen
    else GameOverScreen
  }

  /** Position of a screen in the order countdown, play, game over. */
  function Rank(sc: Screen): nat {
    match sc
    case CountdownScreen => 0
    case PlayScreen => 1
    case GameOverScreen => 2
  }

  /** The inputs the session reacts to, each draw already taken. */
  datatype Event =
    | CountdownTimer
    | GameTimer(topDraw: Draw, leftDraw: Draw)
    | MolePress(topDraw: Draw, leftDraw: Draw)

  function Step(s: Session, e: Event): Session {
    match e
    case CountdownTimer => AfterCountdownTick(s)
    case GameTimer(top, left) => AfterGameTick(s, top, left)
    case MolePress(top, left) => AfterPress(s, top, left)
  }

  /** The session after the events, in order. */
  function Run(s: Session, events: seq<Event>): Session
    decreases |events|
  {
    if events == [] then s else Run(Step(s, events[0]), events[1..])
  }

  function CountdownTicks(events: seq<Event>): nat {
    if events == [] then 0
    else (if events[0].CountdownTimer? then 1 else 0) + CountdownTicks(events[1..])
  }

  function GameTicks(events: seq<Event>): nat {
    if events == [] then 0
    else (if events[0].GameTimer? then 1 else 0) + GameTicks(events[1..])
  }

  function Presses(events: seq<Event>): nat {
    if events == [] then 0
    else (if events[0].MolePress? then 1 else 0) + Presses(events[1..])
  }

  // ---------------------------------------------------------------------
  // One step at a time

  /**
   * A countdown tick lowers a positive count by one and starts the game
   * exactly when that makes it 0; nothing else changes. At 0 it does nothing.
   */
  lemma CountdownTickSteps(s: Session)
    requires s.Valid()
    ensures s.startCountdown > 0 ==>
              AfterCountdownTick(s) == s.(startCountdown := s.startCountdown - 1,
                                          gameStarted := s.startCountdown == 1)
    ensures s.startCountdown == 0 ==> AfterCountdownTick(s) == s && s.gameStarted
  {
  }

  /**
   * During play a game tick takes one second off, moves the mole with the
   * two draws and keeps the score; the game is over exactly when that
   * leaves no time. Outside play it does nothing.
   */
  lemma GameTickSteps(s: Session, topDraw: Draw, leftDraw: Draw)
    requires s.Valid()
    ensures s.Playing() ==>
              AfterGameTick(s, topDraw, leftDraw)
              == s.(timeLeft := s.timeLeft - 1,
                    molePosition := MoveMole(topDraw, leftDraw, s.width, s.height),
                    gameOver := s.timeLeft == 1)
    ensures !s.Playing() ==> AfterGameTick(s, topDraw, leftDraw) == s
  {
  }

  /**
   * A press during play adds exactly one point and moves the mole with the
   * two draws; nothing else changes. During the countdown or after the
   * game it changes nothing.
   */
  lemma PressSteps(s: Session, topDraw: Draw, leftDraw: Draw)
    ensures s.Playing() ==>
              AfterPress(s, topDraw, leftDraw)
              == s.(score := s.score + 1, molePosition := MoveMole(topDraw, leftDraw, s.width, s.height))
    ensures !s.Playing() ==> AfterPress(s, topDraw, leftDraw) == s
  {
  }

  /** The score changes only by a press accepted during play, and then by one. */
  lemma ScoreOnlyByAcceptedPress(s: Session, e: Event)
    ensures Step(s, e).score == s.score + (if e.MolePress? && s.Playing() then 1 else 0)
  {
  }

  /** Once the game is over, no event changes anything. */
  lemma GameOverIsFinal(s: Session, e: Event)
    requires s.Valid() && s.gameOver
    ensures Step(s, e) == s
  {
  }

  // ---------------------------------------------------------------------
  // Runs of events

  lemma {:induction false} RunAppend(s: Session, first: seq<Event>, second: seq<Event>)
    ensures Run(s, first + second) == Run(Run(s, first), second)
    decreases |first|
  {
    if first == [] {
      assert first + second == second;
    } else {
      assert (first + second)[1..] == first[1..] + second;
      RunAppend(Step(s, first[0]), first[1..], second);
    }
  }

  /** Every run keeps a reachable session reachable. */
  lemma {:induction false} RunPreservesValid(s: Session, events: seq<Event>)
    requires s.Valid()
    ensures Run(s, events).Valid()
    decreases |events|
  {
    if events != [] {
      RunPreservesValid(Step(s, events[0]), events[1..]);
    }
  }

  /**
   * Over any run the flags only go from false to true, the score never
   * falls and the counters never rise.
   */
  lemma {:induction false} RunProgresses(s: Session, events: seq<Event>)
    ensures Progress(s, Run(s, events))
    decreases |events|
  {
    if events != [] {
      RunProgresses(Step(s, events[0]), events[1..]);
    }
  }

  /** Screens only move forward: countdown, then play, then game over. */
  lemma PhaseNeverGoesBack(s: Session, events: seq<Event>)
    requires s.Valid()
    ensures Run(s, events).Valid()
    ensures Rank(Phase(s)) <= Rank(Phase(Run(s, events)))
  {
    RunPreservesValid(s, events);
    RunProgresses(s, events);
  }

  /**
   * One event moves the screen forward by at most one: the countdown never
   * jumps straight to game over, since the countdown always has the full time.
   */
  lemma PhaseAdvancesByAtMostOne(s: Session, e: Event)
    requires s.Valid()
    ensures Step(s, e).Valid()
    ensures Rank(Phase(s)) <= Rank(Phase(Step(s, e))) <= Rank(Phase(s)) + 1
  {
  }

  /** After the game is over, no run of events changes the session. */
  lemma {:induction false} IdleAfterGameOver(s: Session, events: seq<Event>)
    requires s.Valid() && s.gameOver
    ensures Run(s, events) == s
    decreases |events|
  {
    if events != [] {
      GameOverIsFinal(s, events[0]);
      IdleAfterGameOver(s, events[1..]);
    }
  }

  /**
   * The countdown: whatever presses and game-timer events arrive meanwhile,
   * the tick that brings the count to 0 starts play with the full time, no
   * score, and the mole still where it started.
   */
  lemma {:induction false} CountdownToStart(s: Session, before: seq<Event>)
    requires s.Valid() && !s.gameStarted
    requires CountdownTicks(before) == s.startCountdown - 1
    ensures var t := Run(s, before + [CountdownTimer]);
            && t.Valid() && t.Playing()
            && t.startCountdown == 0 && t.timeLeft == GAME_SECONDS
            && t.score == 0 && t.molePosition == ORIGIN
            && t.width == s.width && t.height == s.height
    decreases |before|
  {
    if before == [] {
      assert Run(s, [CountdownTimer]) == Run(AfterCountdownTick(s), []);
    } else {
      var next := Step(s, before[0]);
      assert (before + [CountdownTimer])[1..] == before[1..] + [CountdownTimer];
      assert Run(s, before + [CountdownTimer]) == Run(next, before[1..] + [CountdownTimer]);
      CountdownToStart(next, before[1..]);
    }
  }

  /**
   * Play: with the presses and ticks in `during`, the game tick that takes
   * the last second ends the game and still moves the mole; the score has
   * grown by the number of presses before it.
   */
  lemma {:induction false} PlayToEnd(s: Session, during: seq<Event>, topDraw: Draw, leftDraw: Draw)
    requires s.Valid() && s.Playing()
    requires GameTicks(during) == s.timeLeft - 1
    ensures var t := Run(s, during + [GameTimer(topDraw, leftDraw)]);
            && t.Valid() && t.gameOver && t.timeLeft == 0
            && t.score == s.score + Presses(during)
            && t.molePosition == MoveMole(topDraw, leftDraw, s.width, s.height)
    decreases |during|
  {
    var last := GameTimer(topDraw, leftDraw);
    if during == [] {
      assert Run(s, [last]) == Run(Step(s, last), []);
    } else {
      var next := Step(s, during[0]);
      assert (during + [last])[1..] == during[1..] + [last];
      assert Run(s, during + [last]) == Run(next, during[1..] + [last]);
      PlayToEnd(next, during[1..], topDraw, leftDraw);
    }
  }

  /**
   * A whole game: after the countdown's ticks (the last of them closing
   * it) and play's game ticks (the last of them closing it), the game is
   * over, its score is the number of presses made during play, and
   * nothing that comes after changes that.
   */
  lemma EndToEnd(width: real, height: real, countdown: seq<Event>, play: seq<Event>,
                 topDraw: Draw, leftDraw: Draw, after: seq<Event>)
    requires CountdownTicks(countdown) == COUNTDOWN_START - 1
    requires GameTicks(play) == GAME_SECONDS - 1
    ensures var t := Run(Init(width, height),
                         countdown + [CountdownTimer] + play + [GameTimer(topDraw, leftDraw)] + after);
            && t.Valid() && t.gameOver && t.timeLeft == 0 && t.score == Presses(play)
            && Phase(t) == GameOverScreen
  {
    var s := Init(width, height);
    var opening := countdown + [CountdownTimer];
    var closing := play + [GameTimer(topDraw, leftDraw)];
    assert countdown + [CountdownTimer] + play + [GameTimer(topDraw, leftDraw)] + after
        == opening + closing + after;
    RunAppend(s, opening + closing, after);
    RunAppend(s, opening, closing);
    CountdownToStart(s, countdown);
    var started := Run(s, opening);
    PlayToEnd(started, play, topDraw, leftDraw);
    IdleAfterGameOver(Run(started, closing), after);
  }
}
