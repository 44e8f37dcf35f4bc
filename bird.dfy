/**
 * The bird (examples/birdScape/bird.cpp without its GL work): its position,
 * velocity and rotation, the reset at the start of a round and the per-frame
 * update driven by the Up/Down keys.
 */
module BirdEntity {

  import opened Vectors
  import opened GameState

  /** The horizontal speed set every frame; it is also the vertical speed. */
  const Speed: real := 1.5

  /** The bird moves up only from below this height. */
  const UpperBound: real := 0.85

  /** The bird moves down only from above this height. */
  const LowerBound: real := -0.75

  /** Where the bird starts a round. */
  const StartTranslation: Vec2 := Vec2(-0.5, 0.0)

  /**
   * The bird's height after one frame of `Bird.Update`. The Up step is tested
   * and taken first; the Down test then sees the height the Up step left.
   */
  function NextY(y: real, gameData: GameData, dt: real): (next: real)
    ensures gameData.state != Playing ==> next == y
    ensures gameData.input == {} ==> next == y
    ensures gameData.state == Playing && gameData.input == {Up} ==>
              next == if y < UpperBound then y + Speed * dt else y
    ensures gameData.state == Playing && gameData.input == {Down} ==>
              next == if y > LowerBound then y - Speed * dt else y
    ensures gameData.state == Playing && gameData.input == {Up, Down} ==>
              next == if y < UpperBound && y + Speed * dt > LowerBound then y
                      else if y < UpperBound then y + Speed * dt
                      else if y > LowerBound then y - Speed * dt
                      else y
    // The bounds are tested before the step: a move overshoots a bound by less than one step.
    ensures dt >= 0.0 && next > y ==> y < UpperBound && next < UpperBound + Speed * dt
    ensures dt >= 0.0 && next < y ==> y > LowerBound && next > LowerBound - Speed * dt
  {
    var moving := gameData.state == Playing;
    var afterUp := if Up in gameData.input && moving && y < UpperBound then y + dt * Speed else y;
    if Down in gameData.input && moving && afterUp > LowerBound then afterUp - dt * Speed else afterUp
  }

  /** There is no hard clamp: one frame of Up from 0.8 ends above the upper bound. */
  lemma OvershootsUpperBound()
    ensures NextY(0.8, GameData(Playing, {Up}), 0.1) > UpperBound
  {
  }

  /** One frame of input, as `Bird.Update` receives it. */
  datatype Frame = Frame(gameData: GameData, dt: real)

  /** The bird's height after a sequence of frames. */
  function RunY(y: real, frames: seq<Frame>): real
    decreases |frames|
  {
    if frames == [] then y
    else RunY(NextY(y, frames[0].gameData, frames[0].dt), frames[1..])
  }

  /** The bounds widened by the largest step a frame of at most `maxDt` seconds can take. */
  predicate InBand(y: real, maxDt: real) {
    LowerBound - Speed * maxDt <= y <= UpperBound + Speed * maxDt
  }

  lemma StepStaysInBand(y: real, gameData: GameData, dt: real, maxDt: real)
    requires InBand(y, maxDt) && 0.0 <= dt <= maxDt
    ensures InBand(NextY(y, gameData, dt), maxDt)
  {
  }

  /**
   * The soft bound that does hold: when no frame is longer than `maxDt`, a bird
   * that starts within one step of the bounds stays there, whatever the input.
   */
  lemma {:induction false} BandInvariant(y: real, frames: seq<Frame>, maxDt: real)
    requires InBand(y, maxDt)
    requires forall i :: 0 <= i < |frames| ==> 0.0 <= frames[i].dt <= maxDt
    ensures InBand(RunY(y, frames), maxDt)
    decreases |frames|
  {
    if frames != [] {
      StepStaysInBand(y, frames[0].gameData, frames[0].dt, maxDt);
      BandInvariant(NextY(y, frames[0].gameData, frames[0].dt), frames[1..], maxDt);
    }
  }

  class Bird {
    var rotation: real
    var translation: Vec2
    var velocity: Vec2
    /** The bird's size, a fixed positive constant of the game. */
    const scale: real

    constructor (scale: real)
      ensures this.scale == scale
      ensures rotation == 0.0 && translation == Vec2(0.0, 0.0) && velocity == Vec2(0.0, 0.0)
    {
      this.scale := scale;
      rotation := 0.0;
      translation := Vec2(0.0, 0.0);
      velocity := Vec2(0.0, 0.0);
    }

    /** The state reset of Bird::initializeGL. */
    method InitializeGL()
      modifies this
      ensures rotation == 0.0 && translation == StartTranslation && velocity == Vec2(0.0, 0.0)
    {
      rotation := 0.0;
      translation := Vec2(0.0, 0.0);
      velocity := Vec2(0.0, 0.0);
      translation := StartTranslation;
    }

    /** Bird::update: fixes the velocity and moves the bird vertically while Playing. */
    method Update(gameData: GameData, dt: real)
      modifies this
      ensures velocity == Vec2(Speed, 0.0)
      ensures translation == Vec2(old(translation).x, NextY(old(translation).y, gameData, dt))
      ensures rotation == old(rotation)
    {
      velocity := velocity.(x := 1.5);
      velocity := velocity.(y := 0.0);

      if Up in gameData.input && gameData.state == Playing && translation.y < UpperBound {
        translation := translation.(y := translation.y + dt * velocity.x);
      }

      if Down in gameData.input && gameData.state == Playing && translation.y > LowerBound {
        translation := translation.(y := translation.y - dt * velocity.x);
      }
    }
  }
}
