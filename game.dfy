/**
 * One juggling session: the countdown, the running phase in which the balls
 * move and the score counts whole seconds, and the end of the game, which
 * records the score on the leaderboard. Time is in integer milliseconds, as
 * `Date.now()` gives it, and is passed in by the caller.
 */
module JugglerGame {
  import opened Optional
  import opened Geometry
  import opened Physics
  import opened Leaderboard

  /** Seconds of countdown before the balls start to move. */
  const CountdownTime: real := 3.0
  /** What one tick takes off the countdown: `1 / 60`. */
  const FrameTime: real := 1.0 / 60.0

  /** The values in `gameState` that the game logic reads and writes. */
  datatype GameState = GameState(
    balls: seq<BallState>,
    hands: seq<Point>,
    score: int,
    gameOver: bool,
    startTime: Option<int>,
    countdown: real,
    isCountingDown: bool)

  /** The JavaScript truthiness of `startTime`: it is set and it is not zero. */
  predicate Started(startTime: Option<int>) {
    startTime.Some? && startTime.value != 0
  }

  /** `Math.floor((now - start) / 1000)`: the whole seconds elapsed. */
  function ElapsedSeconds(now: int, start: int): (r: int)
    ensures r * 1000 <= now - start < r * 1000 + 1000
  {
    (now - start) / 1000
  }

  /** The state after `updateScore` at time `now`. */
  function WithScore(s: GameState, now: int): (r: GameState)
    ensures r.(score := s.score) == s
    ensures r.score != s.score ==> Started(s.startTime) && !s.gameOver
  {
    if Started(s.startTime) && !s.gameOver then s.(score := ElapsedSeconds(now, s.startTime.value)) else s
  }

  /** A ball has dropped below the bottom edge of a canvas `height` tall. */
  predicate Fallen(b: BallState, height: real) {
    b.y - b.size / 2.0 > height
  }

  /** `checkGameOver`: some ball has fallen. */
  function AnyFallen(balls: seq<BallState>, height: real): (r: bool)
    ensures r <==> exists i :: 0 <= i < |balls| && Fallen(balls[i], height)
  {
    if balls == [] then false
    else
      assert forall i :: 1 <= i < |balls| ==> balls[i] == balls[1..][i - 1];
      Fallen(balls[0], height) || AnyFallen(balls[1..], height)
  }

  /** The balls `initBalls` creates: `BallCount` of them, all alike. */
  function Spawn(width: real): (r: seq<BallState>)
    ensures |r| == BallCount && forall i :: 0 <= i < |r| ==> r[i] == Spawned(width)
  {
    seq(BallCount, _ => Spawned(width))
  }

  /** The state `startGame` sets up before the first tick. */
  function Restarted(s: GameState, width: real): GameState {
    GameState(Spawn(width), [], 0, false, None, CountdownTime, true)
  }

  /**
   * One `gameLoop` tick at time `now`. A finished game is left alone. During
   * the countdown only the countdown moves, and the first tick that takes it
   * to zero or below starts the clock. Otherwise the balls fall and bounce,
   * meet the paddles, the score is updated, and the game ends if a ball fell.
   */
  function Tick(s: GameState, now: int, m: MathLib, width: real, height: real): (r: GameState)
    ensures s.gameOver ==> r == s
    ensures r.hands == s.hands && |r.balls| == |s.balls|
    ensures s.isCountingDown ==> r.balls == s.balls && r.score == s.score && r.gameOver == s.gameOver
    ensures !s.isCountingDown ==> !r.isCountingDown && r.countdown == s.countdown
  {
    if s.gameOver then s
    else if s.isCountingDown then
      var countdown := s.countdown - FrameTime;
      if countdown <= 0.0 then s.(countdown := countdown, isCountingDown := false, startTime := Some(now))
      else s.(countdown := countdown)
    else
      var moved := s.(balls := CollideEach(AdvanceAll(s.balls, width), s.hands, m));
      var scored := WithScore(moved, now);
      if AnyFallen(scored.balls, height) then scored.(gameOver := true) else scored
  }

  /** The ticks at the times `clocks`, in order. */
  function Run(s: GameState, clocks: seq<int>, m: MathLib, width: real, height: real): GameState {
    if clocks == [] then s
    else Tick(Run(s, clocks[..|clocks| - 1], m, width, height), clocks[|clocks| - 1], m, width, height)
  }

  /** The overlay's verdict on a final score. */
  function Message(score: int): (r: string)
    ensures r == "Amazing!" || r == "Great Job!" || r == "Game Over!"
  {
    if score > 30 then "Amazing!" else if score > 15 then "Great Job!" else "Game Over!"
  }

  // ---------------------------------------------------------------------------
  // What a tick does

  /** A finished game stays exactly as it is, whatever ticks follow. */
  lemma {:induction false} OverIsFinal(s: GameState, clocks: seq<int>, m: MathLib, width: real, height: real)
    requires s.gameOver
    ensures Run(s, clocks, m, width, height) == s
  {
    if clocks != [] {
      OverIsFinal(s, clocks[..|clocks| - 1], m, width, height);
    }
  }

  /**
   * A countdown tick touches nothing but the countdown fields: no physics,
   * no score; it ends the countdown, starting the clock at `now`, exactly
   * when the countdown reaches zero.
   */
  lemma CountdownTick(s: GameState, now: int, m: MathLib, width: real, height: real)
    requires !s.gameOver && s.isCountingDown
    ensures var r := Tick(s, now, m, width, height);
      r.balls == s.balls && r.hands == s.hands && r.score == s.score && !r.gameOver &&
      r.countdown == s.countdown - FrameTime &&
      (r.isCountingDown <==> 0.0 < r.countdown) &&
      r.startTime == (if r.isCountingDown then s.startTime else Some(now))
  {
  }

  /** The tick right after `startGame` only takes `1/60` off the countdown. */
  lemma FirstTick(s: GameState, now: int, m: MathLib, width: real, height: real)
    ensures Tick(Restarted(s, width), now, m, width, height) ==
      Restarted(s, width).(countdown := CountdownTime - FrameTime)
  {
  }

  /** A running tick ends the game exactly when a ball has fallen after this tick's physics. */
  lemma RunningTick(s: GameState, now: int, m: MathLib, width: real, height: real)
    requires !s.gameOver && !s.isCountingDown
    ensures var r := Tick(s, now, m, width, height);
      r.balls == CollideEach(AdvanceAll(s.balls, width), s.hands, m) &&
      r.hands == s.hands && !r.isCountingDown &&
      (r.gameOver <==> exists i :: 0 <= i < |r.balls| && Fallen(r.balls[i], height)) &&
      r.score == (if Started(s.startTime) then ElapsedSeconds(now, s.startTime.value) else s.score)
  {
  }

  /**
   * From a fresh start, tick `k` (counting from one) leaves `3 - k/60` on the
   * countdown; the countdown ends at tick 180 exactly, starting the clock at
   * that tick's time, and until then the balls do not move.
   */
  lemma {:induction false} CountdownRuns(s: GameState, clocks: seq<int>, m: MathLib, width: real, height: real)
    requires |clocks| <= 180
    ensures var r := Run(Restarted(s, width), clocks, m, width, height);
      r.countdown == CountdownTime - (|clocks| as real) * FrameTime &&
      (r.isCountingDown <==> |clocks| < 180) &&
      r.startTime == (if |clocks| < 180 then None else Some(clocks[179])) &&
      r.balls == Spawn(width) && r.score == 0 && !r.gameOver
  {
    if clocks != [] {
      var init := clocks[..|clocks| - 1];
      CountdownRuns(s, init, m, width, height);
      assert init[..] == init;
      if |clocks| == 180 {
        assert clocks[179] == clocks[|clocks| - 1];
      }
    }
  }

  // ---------------------------------------------------------------------------
  // The score

  /** Later clocks never show fewer elapsed seconds. */
  lemma ElapsedMonotone(now: int, later: int, start: int)
    requires now <= later
    ensures ElapsedSeconds(now, start) <= ElapsedSeconds(later, start)
  {
  }

  /**
   * What holds of the score at time `now`: it is never negative, it is zero
   * during the countdown, and once the clock has started it never runs ahead
   * of the seconds elapsed.
   */
  predicate Coherent(s: GameState, now: int) {
    0 <= s.score &&
    (s.isCountingDown && !s.gameOver ==> s.score == 0) &&
    (Started(s.startTime) ==>
      s.startTime.value <= now && s.score <= ElapsedSeconds(now, s.startTime.value))
  }

  lemma RestartCoherent(s: GameState, width: real, now: int)
    ensures Coherent(Restarted(s, width), now)
  {
  }

  /** With a clock that does not run backwards, a tick never lowers the score and keeps it coherent. */
  lemma ScoreNeverDecreases(s: GameState, now: int, later: int, m: MathLib, width: real, height: real)
    requires Coherent(s, now) && now <= later
    ensures s.score <= Tick(s, later, m, width, height).score
    ensures Coherent(Tick(s, later, m, width, height), later)
  {
    if Started(s.startTime) {
      ElapsedMonotone(now, later, s.startTime.value);
    }
  }

  predicate Ascending(clocks: seq<int>) {
    forall i, j :: 0 <= i < j < |clocks| ==> clocks[i] <= clocks[j]
  }

  /** Over a whole run with an ascending clock the score only grows and never goes negative. */
  lemma {:induction false} RunScoreNeverDecreases(s: GameState, clocks: seq<int>, m: MathLib, width: real, height: real)
    requires 0 < |clocks| && Ascending(clocks) && Coherent(s, clocks[0])
    ensures s.score <= Run(s, clocks, m, width, height).score
    ensures Coherent(Run(s, clocks, m, width, height), clocks[|clocks| - 1])
    ensures 0 <= Run(s, clocks, m, width, height).score
  {
    var init, last := clocks[..|clocks| - 1], clocks[|clocks| - 1];
    if init == [] {
      ScoreNeverDecreases(s, clocks[0], last, m, width, height);
    } else {
      RunScoreNeverDecreases(s, init, m, width, height);
      ScoreNeverDecreases(Run(s, init, m, width, height), init[|init| - 1], last, m, width, height);
    }
  }

  /** The verdict by score band: above 30, above 15, and the rest. */
  lemma MessageTiers(score: int)
    ensures Message(score) == "Amazing!" <==> 30 < score
    ensures Message(score) == "Great Job!" <==> 15 < score <= 30
    ensures Message(score) == "Game Over!" <==> score <= 15
  {
    assert "Amazing!" != "Great Job!" && "Amazing!" != "Game Over!" && "Great Job!" != "Game Over!" by {
      assert "Amazing!"[0] != "Great Job!"[0] && "Amazing!"[0] != "Game Over!"[0];
      assert "Great Job!"[1] != "Game Over!"[1];
    }
  }

  // ---------------------------------------------------------------------------
  // The game object

  /** `gameState` and the canvas it plays on, updated in place. */
  class Game {
    const width: real
    const height: real
    const store: Store
    var balls: seq<Ball>
    var hands: seq<Point>
    var score: int
    var gameOver: bool
    var startTime: Option<int>
    var countdown: real
    var isCountingDown: bool

    /** Each ball record is a separate object. */
    ghost predicate Valid()
      reads this
    {
      forall i, j :: 0 <= i < j < |balls| ==> balls[i] != balls[j]
    }

    function State(): GameState
      reads this, balls
    {
      GameState(States(balls), hands, score, gameOver, startTime, countdown, isCountingDown)
    }

    /** The initial `gameState`, with no balls and the clock unset. */
    constructor (width: real, height: real, store: Store)
      ensures this.width == width && this.height == height && this.store == store
      ensures State() == GameState([], [], 0, false, None, 0.0, false)
      ensures Valid()
    {
      this.width, this.height, this.store := width, height, store;
      balls, hands, score, gameOver := [], [], 0, false;
      startTime, countdown, isCountingDown := None, 0.0, false;
    }

    /** `initBalls`: a fresh list of new balls, spawned alike. */
    method InitBalls()
      modifies this
      ensures Valid() && forall i :: 0 <= i < |balls| ==> fresh(balls[i])
      ensures State() == old(State()).(balls := Spawn(width))
    {
      balls := [];
      for i := 0 to BallCount
        invariant |balls| == i && Valid()
        invariant forall k :: 0 <= k < i ==> fresh(balls[k])
        invariant forall k :: 0 <= k < i ==> balls[k].State() == Spawned(width)
        invariant hands == old(hands) && score == old(score) && gameOver == old(gameOver)
        invariant startTime == old(startTime) && countdown == old(countdown)
        invariant isCountingDown == old(isCountingDown)
      {
        var b := new Ball(width);
        balls := balls + [b];
      }
      assert States(balls) == Spawn(width);
    }

    /** `updateBalls`: every ball takes one gravity step and bounces off the walls. */
    method UpdateBalls()
      requires Valid()
      modifies balls
      ensures State() == old(State()).(balls := AdvanceAll(old(States(balls)), width))
    {
      ghost var before := States(balls);
      for i := 0 to |balls|
        invariant forall k :: 0 <= k < i ==> balls[k].State() == Advance(old(balls[k].State()), width)
        invariant forall k :: i <= k < |balls| ==> balls[k].State() == old(balls[k].State())
      {
        balls[i].Update(width);
      }
      assert States(balls) == AdvanceAll(before, width);
    }

    /** `checkCollisions`: every ball meets every paddle, in list order. */
    method CheckCollisions(m: MathLib)
      requires Valid()
      modifies balls
      ensures State() == old(State()).(balls := CollideEach(old(States(balls)), hands, m))
    {
      ghost var before := States(balls);
      for i := 0 to |balls|
        invariant forall k :: 0 <= k < i ==> balls[k].State() == CollideAll(old(balls[k].State()), hands, m)
        invariant forall k :: i <= k < |balls| ==> balls[k].State() == old(balls[k].State())
      {
        balls[i].CollideHands(hands, m);
      }
      assert States(balls) == CollideEach(before, hands, m);
    }

    /** `checkGameOver`. */
    predicate CheckGameOver()
      reads this, balls
      ensures CheckGameOver() <==> exists i :: 0 <= i < |balls| && Fallen(balls[i].State(), height)
    {
      AnyFallen(States(balls), height)
    }

    /** `updateScore` at time `now`. */
    method UpdateScore(now: int)
      modifies this
      ensures State() == WithScore(old(State()), now)
      ensures balls == old(balls)
    {
      if Started(startTime) && !gameOver {
        score := ElapsedSeconds(now, startTime.value);
      }
    }

    /**
     * `endGame`: the game is over, the score is saved (stamped `date`), and
     * the verdict for the score is returned for the overlay.
     */
    method EndGame(date: string) returns (message: string)
      modifies this, store
      ensures State() == old(State()).(gameOver := true)
      ensures balls == old(balls)
      ensures store.saved == Some(SaveList(old(store.Entries()), Entry(score, date)))
      ensures message == Message(score)
    {
      gameOver := true;
      store.SaveScore(score, date);
      message := Message(score);
    }

    /**
     * One `gameLoop` tick at time `now`, proved to be `Tick`. The score is
     * saved, and the verdict returned, exactly when this tick ended the game.
     */
    method GameLoop(now: int, m: MathLib, date: string) returns (message: Option<string>)
      requires Valid()
      modifies this, balls, store
      ensures State() == Tick(old(State()), now, m, width, height)
      ensures balls == old(balls)
      ensures message.Some? <==> !old(gameOver) && gameOver
      ensures message.Some? ==> message.value == Message(score)
      ensures message.Some? ==> store.saved == Some(SaveList(old(store.Entries()), Entry(score, date)))
      ensures message.None? ==> store.saved == old(store.saved)
    {
      message := None;
      if gameOver {
        return;
      }
      if isCountingDown {
        countdown := countdown - FrameTime;
        if countdown <= 0.0 {
          isCountingDown := false;
          startTime := Some(now);
        }
      } else {
        message := RunFrame(now, m, date);
      }
    }

    /**
     * The running branch of `gameLoop`: physics, paddles, score, and the end
     * of the game when a ball has fallen.
     */
    method RunFrame(now: int, m: MathLib, date: string) returns (message: Option<string>)
      requires Valid() && !gameOver && !isCountingDown
      modifies this, balls, store
      ensures State() == Tick(old(State()), now, m, width, height)
      ensures balls == old(balls)
      ensures message.Some? <==> gameOver
      ensures message.Some? ==> message.value == Message(score)
      ensures message.Some? ==> store.saved == Some(SaveList(old(store.Entries()), Entry(score, date)))
      ensures message.None? ==> store.saved == old(store.saved)
    {
      message := None;
      ghost var s0 := State();
      UpdateBalls();
      CheckCollisions(m);
      ghost var moved := s0.(balls := CollideEach(AdvanceAll(s0.balls, width), s0.hands, m));
      assert State() == moved;
      UpdateScore(now);
      assert State() == WithScore(moved, now);
      if CheckGameOver() {
        var verdict := EndGame(date);
        message := Some(verdict);
      }
    }

    /** The reset at the top of `startGame`, with `initBalls`. */
    method Reset()
      modifies this
      ensures State() == Restarted(old(State()), width)
      ensures Valid() && forall i :: 0 <= i < |balls| ==> fresh(balls[i])
    {
      gameOver := false;
      startTime := None;
      score := 0;
      hands := [];
      countdown := CountdownTime;
      isCountingDown := true;
      InitBalls();
    }

    /** The game's `receiveHands` callback: the paddle list is replaced, never merged. */
    method ReceiveHands(positions: seq<Point>)
      modifies this
      ensures State() == old(State()).(hands := positions)
      ensures balls == old(balls)
    {
      hands := positions;
    }
  }
}
