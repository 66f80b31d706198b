/**
 * The game screen's mutable state (the `useState` cells of app/App.tsx:11-16)
 * and the three callbacks that update it in place. Each method is proved
 * against its step function in `MoleSession` (`AfterCountdownTick`,
 * `AfterGameTick`, `AfterPress`); the lemmas proved there about runs of
 * events carry over to a sequence of method calls by composing these
 * `State() == After...(old(State()))` postconditions.
 *
 * The audio effects are reduced to the cue each update triggers: the
 * background loop starts when the game starts and stops when it ends, and
 * the hit sound plays on an accepted press.
 */
module MoleGame {
  import opened MolePlacement
  import opened MoleSession

  class Game {
    /** The window size, read once at start-up. */
    const width: real
    const height: real

    var molePosition: Position
    var score: int
    var timeLeft: int
    var startCountdown: int
    var gameOver: bool
    var gameStarted: bool

    /** The object's state as a `Session` value. */
    function State(): Session
      reads this
    {
      Session(width, height, molePosition, score, timeLeft, startCountdown, gameOver, gameStarted)
    }

    ghost predicate Valid()
      reads this
    {
      State().Valid()
    }

    constructor (width: real, height: real)
      ensures Valid()
      ensures State() == Init(width, height)
    {
      this.width, this.height := width, height;
      molePosition := ORIGIN;
      score := 0;
      timeLeft := GAME_SECONDS;
      startCountdown := COUNTDOWN_START;
      gameOver := false;
      gameStarted := false;
    }

    /** The countdown timeout fires; `startLoop` says that it started the game. */
    method CountdownTick() returns (startLoop: bool)
      requires Valid()
      modifies this
      ensures Valid()
      ensures State() == AfterCountdownTick(old(State()))
      ensures startLoop <==> !old(gameStarted) && gameStarted
      ensures old(startCountdown) > 0 ==> startCountdown == old(startCountdown) - 1
      ensures score == old(score) && timeLeft == old(timeLeft) && molePosition == old(molePosition)
    {
      startLoop := false;
      if startCountdown > 0 {
        startCountdown := startCountdown - 1;
        if startCountdown == 0 {
          gameStarted := true;
          startLoop := true;
        }
      }
    }

    /** The game timer fires; `stopLoop` says that it ended the game. */
    method GameTick(topDraw: Draw, leftDraw: Draw) returns (stopLoop: bool)
      requires Valid()
      modifies this
      ensures Valid()
      ensures State() == AfterGameTick(old(State()), topDraw, leftDraw)
      ensures stopLoop <==> !old(gameOver) && gameOver
      ensures old(State()).Playing() ==> timeLeft == old(timeLeft) - 1
                                         && molePosition == MoveMole(topDraw, leftDraw, width, height)
      ensures score == old(score)
    {
      stopLoop := false;
      if gameStarted && timeLeft > 0 {
        timeLeft := timeLeft - 1;
        molePosition := MoveMole(topDraw, leftDraw, width, height);
        if timeLeft == 0 {
          gameOver := true;
          stopLoop := true;
        }
      }
    }

    /** The player presses the mole; `hit` says that it scored (and the hit sound plays). */
    method Press(topDraw: Draw, leftDraw: Draw) returns (hit: bool)
      requires Valid()
      modifies this
      ensures Valid()
      ensures State() == AfterPress(old(State()), topDraw, leftDraw)
      ensures hit <==> old(State()).Playing()
      ensures score == old(score) + (if hit then 1 else 0)
    {
      hit := gameStarted && !gameOver;
      if hit {
        score := score + 1;
        molePosition := MoveMole(topDraw, leftDraw, width, height);
      }
    }
  }
}
