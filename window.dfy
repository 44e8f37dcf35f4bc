/**
 * The game window (examples/birdScape/openglwindow.cpp without its GL and UI
 * work): the key-to-bit mapping of the input, the bird-cloud collision check,
 * and the round controller that runs one frame, ends the round on a collision
 * and restarts it two seconds later.
 *
 * The clock is injected: a timer is the instant it was last restarted, and
 * its elapsed time is `now` minus that mark, with one `now` per frame.
 */
module GameWindow {

  import opened Vectors
  import opened RandomStream
  import opened GameState
  import opened BirdEntity
  import opened CloudField

  // ----- Input -----------------------------------------------------------

  datatype EventType = KeyDown | KeyUp | OtherEvent

  datatype Key = KeyW | KeyS | OtherKey

  datatype Event = Event(kind: EventType, key: Key)

  /** The input bits after the event `e` is handled. */
  function InputAfter(input: set<Input>, e: Event): (next: set<Input>)
    ensures Up in next <==>
              if e == Event(KeyDown, KeyW) then true
              else if e == Event(KeyUp, KeyW) then false
              else Up in input
    ensures Down in next <==>
              if e == Event(KeyDown, KeyS) then true
              else if e == Event(KeyUp, KeyS) then false
              else Down in input
  {
    var bits := match e.key
      case KeyW => {Up}
      case KeyS => {Down}
      case OtherKey => {};
    match e.kind
    case KeyDown => input + bits
    case KeyUp => input - bits
    case OtherEvent => input
  }

  /** Releasing a key undoes pressing it, whatever the bit was before. */
  lemma ReleaseUndoesPress(input: set<Input>, key: Key)
    ensures InputAfter(InputAfter(input, Event(KeyDown, key)), Event(KeyUp, key))
            == InputAfter(input, Event(KeyUp, key))
  {
  }

  // ----- Collisions ------------------------------------------------------

  /** The bird's share of the collision radius, per unit of its scale. */
  const BirdRadiusFactor: real := 0.25

  /** The cloud's share of the collision radius, per unit of its scale. */
  const CloudRadiusFactor: real := 1.0

  /** The bird at `birdTranslation` touches the cloud `c`. */
  predicate Collides(birdTranslation: Vec2, birdScale: real, c: Cloud) {
    ShorterThan(DistanceSquared(birdTranslation, c.translation),
                birdScale * BirdRadiusFactor + c.scale * CloudRadiusFactor)
  }

  /** `Collides` is the test `distance < birdScale * 0.25 + cloudScale * 1.0`. */
  lemma CollidesIffCloser(birdTranslation: Vec2, birdScale: real, c: Cloud, distance: real)
    requires 0.0 <= distance && distance * distance == DistanceSquared(birdTranslation, c.translation)
    ensures Collides(birdTranslation, birdScale, c) <==> distance < birdScale * 0.25 + c.scale * 1.0
  {
    ShorterThanIsLengthTest(distance, DistanceSquared(birdTranslation, c.translation),
                            birdScale * BirdRadiusFactor + c.scale * CloudRadiusFactor);
  }

  predicate AnyCollision(birdTranslation: Vec2, birdScale: real, clouds: seq<Cloud>) {
    exists i :: 0 <= i < |clouds| && Collides(birdTranslation, birdScale, clouds[i])
  }

  /**
   * Placement keeps clouds 0.5 away from the origin, not from the bird: the
   * loop accepts a cloud right on the bird's start position, and that cloud
   * touches the bird.
   */
  lemma SpawnMayTouchBird(birdScale: real)
    requires birdScale >= 0.0
    ensures !TooClose(StartTranslation)
    ensures Collides(StartTranslation, birdScale, BlankCloud.(scale := DefaultScale, translation := StartTranslation))
  {
  }

  // ----- Round controller ------------------------------------------------

  /** Seconds of GameOver before the round restarts (strictly more are needed). */
  const RestartDelay: real := 2.0

  /** The number of clouds of a round. */
  const CloudQuantity: nat := 3

  /** The window's round state, its two timer marks and the displayed score. */
  datatype Round = Round(state: State, restartWaitMark: real, timeMark: real, pointTime: real)

  /** The frame at `now` restarts the round. */
  predicate RestartDue(r: Round, now: real) {
    r.state != Playing && now - r.restartWaitMark > RestartDelay
  }

  /** The round after `restart()`: Playing, with the score clock marked `now`. */
  function Restarted(r: Round, now: real): (next: Round)
    ensures next.state == Playing && next.timeMark == now
    ensures next.restartWaitMark == r.restartWaitMark && next.pointTime == r.pointTime
  {
    r.(state := Playing, timeMark := now)
  }

  /**
   * The round after a frame that does not restart, given whether the moved bird
   * touches a moved cloud. Collisions are looked for, and the score refreshed,
   * only if the round was Playing when the frame began.
   */
  function Settled(r: Round, now: real, hit: bool): (next: Round)
    ensures next.state == GameOver <==> r.state == GameOver || hit
    ensures next.state == Playing ==> r.state == Playing
    ensures next.restartWaitMark == if r.state == Playing && hit then now else r.restartWaitMark
    ensures r.state == Playing ==> next.pointTime == now - r.timeMark
    ensures r.state != Playing ==> next == r
    ensures next.timeMark == r.timeMark
  {
    match r.state
    case GameOver => r
    case Playing =>
      var checked := if hit then r.(state := GameOver, restartWaitMark := now) else r;
      checked.(pointTime := now - checked.timeMark)
  }

  /** The round after one frame of `OpenGLWindow.Update`. */
  function FrameRound(r: Round, now: real, hit: bool): Round {
    if RestartDue(r, now) then Restarted(r, now) else Settled(r, now, hit)
  }

  /** One frame, as the round controller sees it. */
  datatype Tick = Tick(now: real, hit: bool)

  function RunRounds(r: Round, ticks: seq<Tick>): Round
    decreases |ticks|
  {
    if ticks == [] then r
    else RunRounds(FrameRound(r, ticks[0].now, ticks[0].hit), ticks[1..])
  }

  lemma {:induction false} RunRoundsAppend(r: Round, a: seq<Tick>, b: seq<Tick>)
    ensures RunRounds(r, a + b) == RunRounds(RunRounds(r, a), b)
    decreases |a|
  {
    if a != [] {
      var first := FrameRound(r, a[0].now, a[0].hit);
      assert a + b != [] && (a + b)[0] == a[0] && (a + b)[1..] == a[1..] + b;
      assert RunRounds(r, a + b) == RunRounds(first, a[1..] + b);
      assert RunRounds(r, a) == RunRounds(first, a[1..]);
      RunRoundsAppend(first, a[1..], b);
    } else {
      assert a + b == b;
    }
  }

  /**
   * After GameOver, frames whose wait has not run out change nothing: the state
   * stays GameOver and the score stays frozen, whatever the bird touches.
   */
  lemma {:induction false} FrozenUntilWaitElapses(r: Round, ticks: seq<Tick>)
    requires r.state == GameOver
    requires forall i :: 0 <= i < |ticks| ==> ticks[i].now - r.restartWaitMark <= RestartDelay
    ensures RunRounds(r, ticks) == r
    decreases |ticks|
  {
    if ticks != [] {
      assert FrameRound(r, ticks[0].now, ticks[0].hit) == r;
      FrozenUntilWaitElapses(r, ticks[1..]);
    }
  }

  /**
   * A collision while Playing records the score of that very frame, and that
   * score is still shown on every later frame until the round restarts.
   */
  lemma ScoreKeptAfterCollision(r: Round, now: real, later: seq<Tick>)
    requires r.state == Playing
    requires forall i :: 0 <= i < |later| ==> later[i].now - now <= RestartDelay
    ensures RunRounds(r, [Tick(now, true)] + later).state == GameOver
    ensures RunRounds(r, [Tick(now, true)] + later).pointTime == now - r.timeMark
  {
    var over := FrameRound(r, now, true);
    assert over.state == GameOver && over.restartWaitMark == now;
    RunRoundsAppend(r, [Tick(now, true)], later);
    FrozenUntilWaitElapses(over, later);
  }

  /**
   * Liveness: from GameOver, the first frame that finds more than two seconds
   * of waiting restarts the round, and the frames before it change nothing.
   */
  lemma RestartsAfterWait(r: Round, ticks: seq<Tick>, k: nat)
    requires r.state == GameOver
    requires k < |ticks|
    requires forall i :: 0 <= i < k ==> ticks[i].now - r.restartWaitMark <= RestartDelay
    requires ticks[k].now - r.restartWaitMark > RestartDelay
    ensures RunRounds(r, ticks[..k + 1]) == Restarted(r, ticks[k].now)
  {
    assert ticks[..k + 1] == ticks[..k] + [ticks[k]];
    RunRoundsAppend(r, ticks[..k], [ticks[k]]);
    FrozenUntilWaitElapses(r, ticks[..k]);
  }

  // ----- The window ------------------------------------------------------

  class OpenGLWindow {
    var gameData: GameData
    const bird: Bird
    const clouds: Clouds
    /** The mark of m_restartWaitTimer. */
    var restartWaitMark: real
    /** The mark of m_time, the score clock. */
    var timeMark: real
    /** m_point_time, the score shown. */
    var pointTime: real

    function RoundOf(): Round
      reads this
    {
      Round(gameData.state, restartWaitMark, timeMark, pointTime)
    }

    /** A window before initialisation: both timers started at `now`. */
    constructor (birdScale: real, normalize: Vec2 -> Vec2, now: real, engine: Stream)
      ensures fresh(bird) && fresh(clouds)
      ensures gameData == GameData(Playing, {})
      ensures bird.scale == birdScale && clouds.normalize == normalize && clouds.clouds == []
      ensures restartWaitMark == now && timeMark == now && pointTime == 0.0
    {
      gameData := GameData(Playing, {});
      bird := new Bird(birdScale);
      clouds := new Clouds(normalize, engine);
      restartWaitMark := now;
      timeMark := now;
      pointTime := 0.0;
    }

    /** OpenGLWindow::initializeGL without the font, shader and GL set-up. */
    method InitializeGL(now: real, seed: Stream)
      requires Fair(seed)
      modifies this, bird, clouds
      ensures RoundOf() == Restarted(old(RoundOf()), now) && gameData.input == old(gameData.input)
      ensures bird.translation == StartTranslation && bird.velocity == Vec2(0.0, 0.0) && bird.rotation == 0.0
      ensures clouds.stream == seed && |clouds.clouds| == CloudQuantity
      ensures forall i :: 0 <= i < CloudQuantity ==> Spawned(clouds.clouds[i], seed, clouds.normalize)
      ensures exists starts: seq<nat> ::
                && SpawnedField(clouds.clouds, seed, clouds.normalize, starts)
                && starts[0] == 0 && starts[CloudQuantity] == clouds.drawn
    {
      Restart(now, seed);
    }

    /** OpenGLWindow::handleEvent: w and s press and release the Up and Down bits. */
    method HandleEvent(e: Event)
      modifies this`gameData
      ensures gameData == old(gameData).(input := InputAfter(old(gameData.input), e))
    {
      if e.kind == KeyDown {
        if e.key == KeyW {
          gameData := gameData.(input := gameData.input + {Up});
        }
        if e.key == KeyS {
          gameData := gameData.(input := gameData.input + {Down});
        }
      }
      if e.kind == KeyUp {
        if e.key == KeyW {
          gameData := gameData.(input := gameData.input - {Up});
        }
        if e.key == KeyS {
          gameData := gameData.(input := gameData.input - {Down});
        }
      }
    }

    /** OpenGLWindow::restart: a new round with a reset bird and three fresh clouds. */
    method Restart(now: real, seed: Stream)
      requires Fair(seed)
      modifies this, bird, clouds
      ensures RoundOf() == Restarted(old(RoundOf()), now) && gameData.input == old(gameData.input)
      ensures bird.translation == StartTranslation && bird.velocity == Vec2(0.0, 0.0) && bird.rotation == 0.0
      ensures clouds.stream == seed && |clouds.clouds| == CloudQuantity
      ensures forall i :: 0 <= i < CloudQuantity ==> Spawned(clouds.clouds[i], seed, clouds.normalize)
      ensures exists starts: seq<nat> ::
                && SpawnedField(clouds.clouds, seed, clouds.normalize, starts)
                && starts[0] == 0 && starts[CloudQuantity] == clouds.drawn
    {
      gameData := gameData.(state := Playing);
      bird.InitializeGL();
      clouds.InitializeGL(CloudQuantity, seed);
      timeMark := now;
    }

    /** OpenGLWindow::checkCollisions: GameOver, and the wait restarted, on any touching cloud. */
    method CheckCollisions(now: real)
      modifies this`gameData, this`restartWaitMark
      ensures AnyCollision(bird.translation, bird.scale, clouds.clouds) ==>
                gameData == old(gameData).(state := GameOver) && restartWaitMark == now
      ensures !AnyCollision(bird.translation, bird.scale, clouds.clouds) ==>
                gameData == old(gameData) && restartWaitMark == old(restartWaitMark)
    {
      var cs := clouds.clouds;
      for i := 0 to |cs|
        invariant AnyCollision(bird.translation, bird.scale, cs[..i]) ==>
                    gameData == old(gameData).(state := GameOver) && restartWaitMark == now
        invariant !AnyCollision(bird.translation, bird.scale, cs[..i]) ==>
                    gameData == old(gameData) && restartWaitMark == old(restartWaitMark)
      {
        var cloudTranslation := cs[i].translation;
        var distanceSquared := DistanceSquared(bird.translation, cloudTranslation);
        if ShorterThan(distanceSquared, bird.scale * BirdRadiusFactor + cs[i].scale * CloudRadiusFactor) {
          gameData := gameData.(state := GameOver);
          restartWaitMark := now;
        }
        assert cs[..i + 1] == cs[..i] + [cs[i]];
      }
      assert cs[..|cs|] == cs;
    }

    /**
     * OpenGLWindow::update, one frame at `now` lasting `dt`; `seed` is the
     * stream the engine is reseeded with if the frame restarts the round.
     */
    method Update(now: real, dt: real, seed: Stream)
      requires Fair(seed)
      modifies this, bird, clouds
      ensures gameData.input == old(gameData.input)
      ensures RestartDue(old(RoundOf()), now) ==>
                && RoundOf() == Restarted(old(RoundOf()), now)
                && bird.translation == StartTranslation && bird.velocity == Vec2(0.0, 0.0) && bird.rotation == 0.0
                && clouds.stream == seed && |clouds.clouds| == CloudQuantity
                && (forall i :: 0 <= i < CloudQuantity ==> Spawned(clouds.clouds[i], seed, clouds.normalize))
                && (exists starts: seq<nat> ::
                      && SpawnedField(clouds.clouds, seed, clouds.normalize, starts)
                      && starts[0] == 0 && starts[CloudQuantity] == clouds.drawn)
      ensures !RestartDue(old(RoundOf()), now) ==>
                && bird.velocity == Vec2(Speed, 0.0) && bird.rotation == old(bird.rotation)
                && clouds.stream == old(clouds.stream) && clouds.drawn == old(clouds.drawn)
                && bird.translation == Vec2(old(bird.translation).x, NextY(old(bird.translation).y, old(gameData), dt))
                && clouds.clouds == AdvancedAll(old(clouds.clouds), bird.velocity, dt)
                && RoundOf() == Settled(old(RoundOf()), now, AnyCollision(bird.translation, bird.scale, clouds.clouds))
    {
      if gameData.state != Playing && now - restartWaitMark > RestartDelay {
        Restart(now, seed);
        return;
      }

      bird.Update(gameData, dt);
      clouds.Update(bird, dt);
      if gameData.state == Playing {
        CheckCollisions(now);
        pointTime := now - timeMark;
      }
    }
  }
}
