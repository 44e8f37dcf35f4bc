# birdScape core in Dafny

birdScape is a small 2D game: a bird on the left of the screen is steered up
and down with the W and S keys while clouds drift past it; touching a cloud
ends the round, the time survived is the score, and a new round starts two
seconds after the collision. This project models the game's simulation:

- `BirdEntity` — the bird (`bird.cpp`): its reset at the start of a round and
  its per-frame vertical motion inside a soft band.
- `CloudField` — the cloud field (`clouds.cpp`): creation of a cloud from the
  random engine, the rejection loop that places each new cloud at least 0.5
  from the origin, and the per-frame motion relative to the bird with
  wrap-around into [-1, 1] on each axis and rotation wrapped into [0, 2π).
- `GameWindow` — the window (`openglwindow.cpp`): the key-to-input mapping,
  the bird–cloud collision test, and the round controller (Playing/GameOver,
  the restart wait, the score clock) that drives one frame.
- `Vectors`, `RandomStream`, `GameState`, `RealArith` — glm's `vec2` over the
  reals, the random engine seen as a stream of unit draws, the game's state
  and input types, and small facts about real products.

The bird, the cloud field and the window are classes whose methods update
their fields in place, as in the source; each method is specified by a pure
function (`NextY`, `Advanced`, `CloudFromDraws`, `InputAfter`, `Settled`,
`Restarted`), and the multi-frame properties are lemmas about those functions.

Time and randomness are inputs. A timer is the instant it was last restarted,
and each frame receives one `now`; the random engine is an infinite stream of
draws in [0, 1), and every distribution call consumes one draw. Reseeding the
engine from the clock is passing a new stream.

Where the game's stated design and the code differ, the model follows the code:

- The bird's height is not clamped to [-0.75, 0.85]: the bounds are tested
  before a step is taken, so a step can overshoot a bound by up to one step
  (`OvershootsUpperBound`); what does hold is a band one step wider
  (`BandInvariant`).
- New clouds are kept 0.5 away from the origin, not from the bird, which
  starts at (-0.5, 0); a cloud placed right on the bird is accepted and
  touches it (`SpawnMayTouchBird`).
- `restart()` does not reset the displayed score: it keeps the last round's
  value until the first Playing frame refreshes it.
- Clouds keep moving during GameOver; only the bird and the score stop.

## Model

| member | source | states |
|---|---|---|
| Vectors.DistanceSquared | examples/birdScape/openglwindow.cpp:143 | the squared distance is non-negative and symmetric in its two points |
| Vectors.ShorterThanIsLengthTest | examples/birdScape/openglwindow.cpp:146 | comparing the squared length with the squared bound decides `length < bound` exactly |
| RandomStream.Uniform | examples/birdScape/clouds.hpp:47 | a uniform real distribution over [lo, hi] yields a value in [lo, hi], below hi when the range is not empty |
| RandomStream.UniformInt | examples/birdScape/clouds.cpp:88-89 | a uniform integer distribution over [lo, hi] yields an integer in [lo, hi] |
| BirdEntity.NextY | examples/birdScape/bird.cpp:144-154 | no motion outside Playing or without input; Up alone rises one step below 0.85, Down alone falls one step above -0.75, both keys as the two tests in order; a move starts inside its bound and ends less than one step past it |
| BirdEntity.OvershootsUpperBound | examples/birdScape/bird.cpp:144-148 | the upper bound is soft: one Up frame from 0.8 with dt 0.1 ends above 0.85 |
| BirdEntity.StepStaysInBand | examples/birdScape/bird.cpp:140-155 | one frame keeps the bird within the bounds widened by one step of the longest frame |
| BirdEntity.BandInvariant | examples/birdScape/bird.cpp:140-155 | over any sequence of frames no longer than maxDt and any input, the bird stays within [-0.75 - 1.5·maxDt, 0.85 + 1.5·maxDt] |
| BirdEntity.Bird.InitializeGL | examples/birdScape/bird.cpp:15-93 | the reset leaves rotation 0, velocity 0 and the bird at (-0.5, 0) |
| BirdEntity.Bird.Update | examples/birdScape/bird.cpp:140-155 | the velocity becomes (1.5, 0), the height follows `NextY`, x and rotation are unchanged |
| CloudField.WrapAngle | examples/birdScape/clouds.cpp:69-70 | the wrapped angle is in [0, 2π), equals the angle already in range, and differs from the angle by whole turns |
| CloudField.WrapAxis | examples/birdScape/clouds.cpp:74-77 | a coordinate in [-1, 1] is unchanged, one in [-3, 3] lands in [-1, 1], and the shift is exactly +2 below -1, -2 above 1 and 0 otherwise |
| CloudField.DriftIsRelativeMotion | examples/birdScape/clouds.cpp:68-71 | before wrap-around a cloud moves by its velocity minus the bird's, times dt |
| CloudField.Advanced | examples/birdScape/clouds.cpp:67-78 | one frame changes only a cloud's translation and rotation; the rotation lands in [0, 2π) and each coordinate differs from the drifted one by 0 or ±2 |
| CloudField.StaysInView | examples/birdScape/clouds.cpp:73-77 | a cloud on screen whose relative step is under 2 per axis is on screen after the frame |
| CloudField.CloudsStayInView | examples/birdScape/clouds.cpp:66-79 | over any number of frames the list keeps its length and each cloud its velocity, and on-screen clouds stay on screen while steps are small |
| CloudField.Candidate | examples/birdScape/clouds.cpp:28-29 | a placement candidate lies in [-1, 1] on both axes |
| CloudField.CloudFromDraws | examples/birdScape/clouds.cpp:83-105 | a created cloud has 20 sides, rotation 0, the given scale and translation, is not hit, is an opaque grey of intensity in [0.5, 1], spins at a rate in [-1, 1], and moves along the normalised heading of the fourth and fifth draws (stream positions p + 3 and p + 4) at 1/7 of its length |
| CloudField.MoveCloud | examples/birdScape/clouds.cpp:67-78 | the in-place steps of the update loop produce exactly `Advanced` |
| CloudField.Clouds.CreateCloud | examples/birdScape/clouds.cpp:81-105 | creating a cloud takes the next five draws of the engine and builds `CloudFromDraws` from them |
| CloudField.Clouds.PlaceCloud | examples/birdScape/clouds.cpp:27-30 | the loop ends on a fair stream and returns the first candidate at least 0.5 from the origin, every earlier candidate being rejected, after two draws per round |
| CloudField.Clouds.InitializeGL | examples/birdScape/clouds.cpp:6-32 | after reseeding, the list holds exactly `quantity` clouds; the first is built from the first five draws of the new stream and placed by the loop that follows them, and each later cloud starts where the previous cloud's placement loop stopped; the engine's draw count ends where the last loop stopped. Each cloud is `CloudFromDraws` with default scale 0.25 (velocity the normalised heading / 7), moved to the first candidate at least 0.5 from the origin |
| CloudField.SpawnedCloudShape | examples/birdScape/clouds.cpp:23-31 | a cloud of a fresh field has 20 sides, no rotation, scale 0.25, an opaque grey in [0.5, 1], a spin in [-1, 1], is not hit, lies on screen at least 0.5 from the origin and moves at 1/7 of a normalised heading drawn from [-1, 1]² |
| CloudField.SpawnedFieldInView | examples/birdScape/clouds.cpp:19-31 | every cloud of a freshly created field is on screen, in [-1, 1]² |
| CloudField.PlacementRunUnique | examples/birdScape/clouds.cpp:27-30 | a placement loop started at a given stream position has one outcome: the same accepted position and the same stopping position |
| CloudField.SpawnedFieldUnique | examples/birdScape/clouds.cpp:19-31 | the same seed gives the same field: two fields of the same size created from the same stream and start are equal and use the same draws |
| CloudField.Clouds.Update | examples/birdScape/clouds.cpp:66-79 | every cloud of the list is advanced by one frame against the bird's velocity |
| GameWindow.InputAfter | examples/birdScape/openglwindow.cpp:8-23 | pressing W or S sets the Up or Down bit, releasing clears it, every other event leaves the bits alone |
| GameWindow.ReleaseUndoesPress | examples/birdScape/openglwindow.cpp:10-21 | releasing a key after pressing it leaves the input as releasing it alone would |
| GameWindow.CollidesIffCloser | examples/birdScape/openglwindow.cpp:143-146 | the collision test is `distance < birdScale·0.25 + cloudScale·1.0` |
| GameWindow.SpawnMayTouchBird | examples/birdScape/clouds.cpp:26-30 | the placement test accepts the bird's start position (-0.5, 0), and a cloud there touches the bird |
| GameWindow.Restarted | examples/birdScape/openglwindow.cpp:47-55 | a restart sets Playing and restarts the score clock, leaving the restart wait and the shown score |
| GameWindow.Settled | examples/birdScape/openglwindow.cpp:67-73 | a frame that does not restart never enters Playing; from Playing a collision gives GameOver and restarts the wait at `now`, and the score becomes the time since the round began, on the collision frame too; from GameOver nothing changes |
| GameWindow.RunRoundsAppend | examples/birdScape/openglwindow.cpp:57-74 | running frames a then b is running a + b |
| GameWindow.FrozenUntilWaitElapses | examples/birdScape/openglwindow.cpp:61-73 | in GameOver, frames within two seconds of the collision change neither the state nor the score, whatever the bird touches |
| GameWindow.ScoreKeptAfterCollision | examples/birdScape/openglwindow.cpp:69-73 | a collision frame ends the round with the score of that frame, and later frames before the restart keep it |
| GameWindow.RestartsAfterWait | examples/birdScape/openglwindow.cpp:60-65 | from GameOver the first frame more than two seconds after the collision restarts the round, the earlier ones changing nothing |
| GameWindow.OpenGLWindow.InitializeGL | examples/birdScape/openglwindow.cpp:25-45 | initialisation starts a round: Playing, bird at its start, the engine reseeded, and the three clouds the seed determines from its first draw on |
| GameWindow.OpenGLWindow.HandleEvent | examples/birdScape/openglwindow.cpp:8-23 | the input becomes `InputAfter` of the event; the state is untouched |
| GameWindow.OpenGLWindow.Restart | examples/birdScape/openglwindow.cpp:47-55 | the round becomes `Restarted`, the bird is reset, the engine reseeded, and the field is the three clouds the seed determines from its first draw on |
| GameWindow.OpenGLWindow.CheckCollisions | examples/birdScape/openglwindow.cpp:139-152 | if some cloud touches the bird the state is GameOver and the wait restarted at `now`, otherwise nothing changes |
| GameWindow.OpenGLWindow.Update | examples/birdScape/openglwindow.cpp:57-74 | a due restart restarts and returns (bird reset with rotation 0, engine reseeded, the three clouds the seed determines); otherwise the bird moves by `NextY` on the old input keeping x and rotation, the clouds advance against velocity (1.5, 0) without touching the engine, and the round becomes `Settled` with the collision of the moved bird and clouds |

## Left out

- All OpenGL, ImGui and font work (`paintGL`, `paintUI`, `resizeGL`, `terminateGL`, shader and buffer set-up): it draws the state and does not change it.
- The cloud polygon geometry: its 20 radius draws in `createCloud` are not taken from the stream, so a cloud's creation consumes five draws here; the order of the modelled draws is kept.
- Floating point: all arithmetic is on the reals, without single-precision rounding.
- CloudField.WrapAngle: modelled as the angle modulo the single-precision constant 2π; glm's own rounding of the reduction is not modelled.
- glm::normalize is a parameter of the cloud field (`normalize`), supplied by the host's vector library; a zero heading is whatever that function returns for it.
- The random engine's algorithm and clock seeding: each seeding is a stream passed in by the caller, and a uniform distribution turns one draw into a value by scaling, not by the library's own bit-level method.
- CloudField.Clouds.PlaceCloud: requires a fair stream, one on which every rejection loop finds a far candidate; a uniform random stream has this property with probability one, but an adversarial one could make the source loop forever.
- The window's own random engine, seeded in `initializeGL` and never read, is not modelled.
- CloudField.Clouds.InitializeGL: takes `quantity` as a `nat`; the source takes an `int`, and a negative count would fail in the list's resize, but the only caller passes 3.
- `abcg::ElapsedTimer` is a mark plus the injected `now`, and a frame's `dt` is a parameter, not derived from the clock.
- `checkWinCondition` is declared in openglwindow.hpp but defined in none of the modelled files, and nothing calls it, so it has no model.
- Input and state types beyond `Up`, `Down`, `Playing` and `GameOver` are not part of this model; gamedata.hpp and bird.hpp are not part of this model, and the bird's scale is a constant passed to its constructor.
