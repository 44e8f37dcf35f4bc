/**
 * The cloud field (examples/birdScape/clouds.cpp without its GL work): the
 * list of clouds, their creation with random colour, spin and heading, the
 * rejection-sampled placement away from the origin, and the per-frame motion
 * relative to the bird with wrap-around into [-1, 1] on each axis.
 */
module CloudField {

  import opened Vectors
  import opened RandomStream
  import opened BirdEntity

  datatype Color = Rgba(r: real, g: real, b: real, a: real)

  /** Clouds::Cloud without its vertex array and buffer handles. */
  datatype Cloud = Cloud(
    angularVelocity: real,
    color: Color,
    hit: bool,
    polygonSides: int,
    rotation: real,
    scale: real,
    translation: Vec2,
    velocity: Vec2)

  /** A value-initialised cloud, as the list's `resize` creates it. */
  const BlankCloud: Cloud :=
    Cloud(0.0, Rgba(1.0, 1.0, 1.0, 1.0), false, 0, 0.0, 0.0, Vec2(0.0, 0.0), Vec2(0.0, 0.0))

  /** The default `scale` argument of `createCloud`. */
  const DefaultScale: real := 0.25

  /** Both bounds of the side-count distribution of `createCloud`. */
  const PolygonSides: int := 20

  /** A cloud's velocity is its unit heading divided by this. */
  const SpeedDivisor: real := 7.0

  /** 2π as the single-precision constant glm::two_pi<float>(). */
  const TwoPi: real := 6.283185482025146484375

  /** A placed cloud is at least this far from the origin. */
  const MinSpawnDistance: real := 0.5

  /** A cloud's position is on screen. */
  predicate InView(t: Vec2) {
    -1.0 <= t.x <= 1.0 && -1.0 <= t.y <= 1.0
  }

  /** `d` is a whole number of turns. */
  predicate WholeTurns(d: real) {
    (d / TwoPi).Floor as real * TwoPi == d
  }

  /**
   * glm::wrapAngle: the angle taken modulo 2π into [0, 2π). glm computes it as
   * `abs(mod(angle, two_pi))`; over the reals the remainder is never negative,
   * so the `abs` branch below is never taken and only mirrors that form.
   */
  function WrapAngle(angle: real): (r: real)
    ensures 0.0 <= r < TwoPi
    ensures 0.0 <= angle < TwoPi ==> r == angle
    ensures WholeTurns(angle - r)
  {
    var turns := (angle / TwoPi).Floor;
    var m := angle - TwoPi * turns as real;
    assert (angle - m) / TwoPi == turns as real;
    if m < 0.0 then -m else m
  }

  /** A rotation advanced by `dt` seconds of spin and wrapped into [0, 2π). */
  function Spin(rotation: real, angularVelocity: real, dt: real): real {
    WrapAngle(rotation + angularVelocity * dt)
  }

  /** The wrap-around of one coordinate in Clouds::update. */
  function WrapAxis(v: real): (r: real)
    ensures -1.0 <= v <= 1.0 ==> r == v
    ensures -3.0 <= v <= 3.0 ==> -1.0 <= r <= 1.0
    ensures r == if v < -1.0 then v + 2.0 else if v > 1.0 then v - 2.0 else v
  {
    var lifted := if v < -1.0 then v + 2.0 else v;
    if lifted > 1.0 then lifted - 2.0 else lifted
  }

  /** A cloud's translation after the motion of one frame, before wrap-around. */
  function Drifted(c: Cloud, birdVelocity: Vec2, dt: real): Vec2 {
    Add(Sub(c.translation, Scale(birdVelocity, dt)), Scale(c.velocity, dt))
  }

  /** Before wrap-around a cloud moves by its velocity relative to the bird's. */
  lemma DriftIsRelativeMotion(c: Cloud, birdVelocity: Vec2, dt: real)
    ensures Drifted(c, birdVelocity, dt) == Add(c.translation, Scale(Sub(c.velocity, birdVelocity), dt))
  {
  }

  /** One cloud after one frame of `Clouds.Update`. */
  function Advanced(c: Cloud, birdVelocity: Vec2, dt: real): (next: Cloud)
    ensures next == c.(translation := next.translation, rotation := next.rotation)
    ensures 0.0 <= next.rotation < TwoPi
    ensures next.translation.x - Drifted(c, birdVelocity, dt).x in {0.0, 2.0, -2.0}
    ensures next.translation.y - Drifted(c, birdVelocity, dt).y in {0.0, 2.0, -2.0}
  {
    var drifted := Drifted(c, birdVelocity, dt);
    c.(translation := Vec2(WrapAxis(drifted.x), WrapAxis(drifted.y)),
       rotation := Spin(c.rotation, c.angularVelocity, dt))
  }

  /** The displacement of a cloud in one frame is under 2 on each axis. */
  predicate SmallStep(c: Cloud, birdVelocity: Vec2, dt: real) {
    var d := Scale(Sub(c.velocity, birdVelocity), dt);
    -2.0 < d.x < 2.0 && -2.0 < d.y < 2.0
  }

  /** A cloud on screen whose step is small is on screen after the frame. */
  lemma StaysInView(c: Cloud, birdVelocity: Vec2, dt: real)
    requires InView(c.translation) && SmallStep(c, birdVelocity, dt)
    ensures InView(Advanced(c, birdVelocity, dt).translation)
  {
    DriftIsRelativeMotion(c, birdVelocity, dt);
  }

  /** The cloud list after one frame of `Clouds.Update`. */
  function AdvancedAll(clouds: seq<Cloud>, birdVelocity: Vec2, dt: real): seq<Cloud> {
    seq(|clouds|, i requires 0 <= i < |clouds| => Advanced(clouds[i], birdVelocity, dt))
  }

  predicate AllInView(clouds: seq<Cloud>) {
    forall i :: 0 <= i < |clouds| ==> InView(clouds[i].translation)
  }

  /** The cloud list after one frame per entry of `dts`, the bird's velocity fixed. */
  function RunClouds(clouds: seq<Cloud>, birdVelocity: Vec2, dts: seq<real>): seq<Cloud>
    decreases |dts|
  {
    if dts == [] then clouds
    else RunClouds(AdvancedAll(clouds, birdVelocity, dts[0]), birdVelocity, dts[1..])
  }

  /**
   * Over any number of frames the list keeps its length and its clouds their
   * velocities, and clouds on screen stay on screen while every frame's step is
   * small.
   */
  lemma {:induction false} CloudsStayInView(clouds: seq<Cloud>, birdVelocity: Vec2, dts: seq<real>)
    requires AllInView(clouds)
    requires forall i, k :: 0 <= i < |clouds| && 0 <= k < |dts| ==> SmallStep(clouds[i], birdVelocity, dts[k])
    ensures |RunClouds(clouds, birdVelocity, dts)| == |clouds|
    ensures forall i :: 0 <= i < |clouds| ==> RunClouds(clouds, birdVelocity, dts)[i].velocity == clouds[i].velocity
    ensures AllInView(RunClouds(clouds, birdVelocity, dts))
    decreases |dts|
  {
    if dts != [] {
      var next := AdvancedAll(clouds, birdVelocity, dts[0]);
      forall i | 0 <= i < |clouds|
        ensures InView(next[i].translation) && next[i].velocity == clouds[i].velocity
      {
        StaysInView(clouds[i], birdVelocity, dts[0]);
      }
      forall i, k | 0 <= i < |next| && 0 <= k < |dts[1..]|
        ensures SmallStep(next[i], birdVelocity, dts[1..][k])
      {
        assert SmallStep(clouds[i], birdVelocity, dts[k + 1]);
      }
      CloudsStayInView(next, birdVelocity, dts[1..]);
    }
  }

  /** `glm::length(t) < 0.5`: a placement candidate the rejection loop throws away. */
  predicate TooClose(t: Vec2) {
    ShorterThan(LengthSquared(t), MinSpawnDistance)
  }

  /** The candidate translation drawn from stream positions `p` and `p + 1`. */
  function Candidate(s: Stream, p: nat): (t: Vec2)
    requires UnitValued(s)
    ensures -1.0 <= t.x <= 1.0 && -1.0 <= t.y <= 1.0
  {
    Vec2(Uniform(-1.0, 1.0, s(p)), Uniform(-1.0, 1.0, s(p + 1)))
  }

  /** The candidate of the `k`-th round of a rejection loop that starts at stream position `p`. */
  function Attempt(s: Stream, p: nat, k: nat): Vec2
    requires UnitValued(s)
  {
    Candidate(s, p + 2 * k)
  }

  /** A rejection loop that starts at stream position `p` ends: some round draws a far candidate. */
  ghost predicate FarCandidateFrom(s: Stream, p: nat)
    requires UnitValued(s)
  {
    exists k: nat :: !TooClose(Attempt(s, p, k))
  }

  /**
   * A stream on which every rejection loop ends. A uniform random stream has
   * this property with probability one.
   */
  ghost predicate Fair(s: Stream) {
    UnitValued(s) && forall p: nat :: FarCandidateFrom(s, p)
  }

  /** The cloud `createCloud` builds from the five draws at stream positions p .. p + 4. */
  function CloudFromDraws(s: Stream, p: nat, translation: Vec2, scale: real, normalize: Vec2 -> Vec2): (c: Cloud)
    requires UnitValued(s)
    ensures c.polygonSides == PolygonSides
    ensures c.rotation == 0.0 && c.scale == scale && c.translation == translation && !c.hit
    ensures c.color.a == 1.0 && c.color.r == c.color.g == c.color.b && 0.5 <= c.color.r <= 1.0
    ensures -1.0 <= c.angularVelocity <= 1.0
    ensures c.velocity == Scale(normalize(Candidate(s, p + 3)), 1.0 / SpeedDivisor)
  {
    var intensity := Uniform(0.5, 1.0, s(p + 1));
    Cloud(
      angularVelocity := Uniform(-1.0, 1.0, s(p + 2)),
      color := Rgba(intensity, intensity, intensity, 1.0),
      hit := false,
      polygonSides := UniformInt(PolygonSides, PolygonSides, s(p)),
      rotation := 0.0,
      scale := scale,
      translation := translation,
      velocity := Scale(normalize(Vec2(Uniform(-1.0, 1.0, s(p + 3)), Uniform(-1.0, 1.0, s(p + 4)))),
                        1.0 / SpeedDivisor))
  }

  /**
   * A placement loop that starts at stream position `q` returns `t` and stops
   * at position `end`: `t` is the first of its candidates that is not too close
   * to the origin, and every round took two draws.
   */
  ghost predicate PlacementRun(t: Vec2, s: Stream, q: nat, end: nat)
    requires UnitValued(s)
  {
    && !TooClose(t)
    && exists k: nat ::
         && end == q + 2 * (k + 1)
         && t == Attempt(s, q, k)
         && forall j :: 0 <= j < k ==> TooClose(Attempt(s, q, j))
  }

  /**
   * The cloud one pass of the loop of `Clouds.InitializeGL` creates from the
   * draws at stream positions p .. q - 1: `createCloud` with the default scale
   * takes the first five, and the placement loop the rest.
   */
  ghost predicate SpawnedAt(c: Cloud, s: Stream, normalize: Vec2 -> Vec2, p: nat, q: nat)
    requires UnitValued(s)
  {
    && c == CloudFromDraws(s, p, c.translation, DefaultScale, normalize)
    && PlacementRun(c.translation, s, p + 5, q)
  }

  /** `c` is a cloud of some pass of the loop of `Clouds.InitializeGL` over `s`. */
  ghost predicate Spawned(c: Cloud, s: Stream, normalize: Vec2 -> Vec2)
    requires UnitValued(s)
  {
    exists p: nat, q: nat :: SpawnedAt(c, s, normalize, p, q)
  }

  /**
   * `clouds` is what the loop of `Clouds.InitializeGL` creates from `s` when its
   * passes start at the positions `starts`, each where the previous one ended.
   */
  ghost predicate SpawnedField(clouds: seq<Cloud>, s: Stream, normalize: Vec2 -> Vec2, starts: seq<nat>)
    requires UnitValued(s)
  {
    && |starts| == |clouds| + 1
    && forall i :: 0 <= i < |clouds| ==> SpawnedAt(clouds[i], s, normalize, starts[i], starts[i + 1])
  }

  /** A placement loop is determined by where it starts: the same cloud position, the same end. */
  lemma PlacementRunUnique(t1: Vec2, end1: nat, t2: Vec2, end2: nat, s: Stream, q: nat)
    requires UnitValued(s)
    requires PlacementRun(t1, s, q, end1) && PlacementRun(t2, s, q, end2)
    ensures t1 == t2 && end1 == end2
  {
    var k1: nat :| && end1 == q + 2 * (k1 + 1) && t1 == Attempt(s, q, k1)
                   && forall j :: 0 <= j < k1 ==> TooClose(Attempt(s, q, j));
    var k2: nat :| && end2 == q + 2 * (k2 + 1) && t2 == Attempt(s, q, k2)
                   && forall j :: 0 <= j < k2 ==> TooClose(Attempt(s, q, j));
    assert !TooClose(Attempt(s, q, k1)) && !TooClose(Attempt(s, q, k2));
    if k1 < k2 {
      assert false;
    } else if k2 < k1 {
      assert false;
    }
  }

  /**
   * Same-seed determinism: two fields created from the same stream, starting
   * at the same position, with the same number of clouds, are equal and use
   * the same draws.
   */
  lemma SpawnedFieldUnique(a: seq<Cloud>, startsA: seq<nat>, b: seq<Cloud>, startsB: seq<nat>,
                           s: Stream, normalize: Vec2 -> Vec2)
    requires UnitValued(s)
    requires SpawnedField(a, s, normalize, startsA) && SpawnedField(b, s, normalize, startsB)
    requires |a| == |b| && startsA[0] == startsB[0]
    ensures a == b && startsA == startsB
  {
    SameStartsUpTo(a, startsA, b, startsB, s, normalize, |a|);
  }

  lemma {:induction false} SameStartsUpTo(a: seq<Cloud>, startsA: seq<nat>, b: seq<Cloud>, startsB: seq<nat>,
                                          s: Stream, normalize: Vec2 -> Vec2, n: nat)
    requires UnitValued(s)
    requires SpawnedField(a, s, normalize, startsA) && SpawnedField(b, s, normalize, startsB)
    requires |a| == |b| && startsA[0] == startsB[0] && n <= |a|
    ensures forall i :: 0 <= i <= n ==> startsA[i] == startsB[i]
    ensures forall i :: 0 <= i < n ==> a[i] == b[i]
    decreases n
  {
    if n > 0 {
      SameStartsUpTo(a, startsA, b, startsB, s, normalize, n - 1);
      var i := n - 1;
      assert SpawnedAt(a[i], s, normalize, startsA[i], startsA[i + 1]);
      assert SpawnedAt(b[i], s, normalize, startsA[i], startsB[i + 1]);
      PlacementRunUnique(a[i].translation, startsA[i + 1], b[i].translation, startsB[i + 1], s, startsA[i] + 5);
    }
  }

  /** A created cloud moved to the outcome of the placement loop after its draws is a spawned one. */
  lemma PlacedCloudIsSpawned(created: Cloud, s: Stream, normalize: Vec2 -> Vec2, p: nat, q: nat, k: nat)
    requires UnitValued(s) && q == p + 5
    requires created == CloudFromDraws(s, p, Vec2(0.0, 0.0), DefaultScale, normalize)
    requires !TooClose(Attempt(s, q, k))
    requires forall j :: 0 <= j < k ==> TooClose(Attempt(s, q, j))
    ensures SpawnedAt(created.(translation := Attempt(s, q, k)), s, normalize, p, q + 2 * (k + 1))
  {
  }

  lemma SpawnedFieldExtend(clouds: seq<Cloud>, s: Stream, normalize: Vec2 -> Vec2, starts: seq<nat>,
                           c: Cloud, end: nat)
    requires UnitValued(s)
    requires SpawnedField(clouds, s, normalize, starts)
    requires SpawnedAt(c, s, normalize, starts[|clouds|], end)
    ensures SpawnedField(clouds + [c], s, normalize, starts + [end])
  {
    var next, nextStarts := clouds + [c], starts + [end];
    forall i | 0 <= i < |next|
      ensures SpawnedAt(next[i], s, normalize, nextStarts[i], nextStarts[i + 1])
    {
      if i < |clouds| {
        assert next[i] == clouds[i] && nextStarts[i] == starts[i] && nextStarts[i + 1] == starts[i + 1];
      }
    }
  }

  lemma SpawnedFieldMembers(clouds: seq<Cloud>, s: Stream, normalize: Vec2 -> Vec2, starts: seq<nat>)
    requires UnitValued(s)
    requires SpawnedField(clouds, s, normalize, starts)
    ensures forall i :: 0 <= i < |clouds| ==> Spawned(clouds[i], s, normalize)
  {
    forall i | 0 <= i < |clouds|
      ensures Spawned(clouds[i], s, normalize)
    {
      assert SpawnedAt(clouds[i], s, normalize, starts[i], starts[i + 1]);
    }
  }

  /**
   * A spawned cloud has 20 sides, no rotation, the default scale, an opaque
   * grey colour and a spin in [-1, 1], is not hit, lies on screen at least 0.5
   * from the origin, and moves at 1/7 of the normalised form of a heading in [-1, 1]².
   */
  lemma SpawnedCloudShape(c: Cloud, s: Stream, normalize: Vec2 -> Vec2)
    requires UnitValued(s) && Spawned(c, s, normalize)
    ensures c.polygonSides == PolygonSides && c.rotation == 0.0 && c.scale == DefaultScale && !c.hit
    ensures c.color.a == 1.0 && c.color.r == c.color.g == c.color.b && 0.5 <= c.color.r <= 1.0
    ensures -1.0 <= c.angularVelocity <= 1.0
    ensures !TooClose(c.translation) && InView(c.translation)
    ensures exists p: nat :: c.velocity == Scale(normalize(Candidate(s, p)), 1.0 / SpeedDivisor)
  {
    var p: nat, q: nat :| SpawnedAt(c, s, normalize, p, q);
    var k: nat :| c.translation == Attempt(s, p + 5, k);
    assert c.velocity == Scale(normalize(Candidate(s, p + 3)), 1.0 / SpeedDivisor);
  }

  /** A freshly spawned field is on screen, so `CloudsStayInView` applies from its first frame. */
  lemma SpawnedFieldInView(clouds: seq<Cloud>, s: Stream, normalize: Vec2 -> Vec2)
    requires UnitValued(s)
    requires forall i :: 0 <= i < |clouds| ==> Spawned(clouds[i], s, normalize)
    ensures AllInView(clouds)
  {
    forall i | 0 <= i < |clouds|
      ensures InView(clouds[i].translation)
    {
      SpawnedCloudShape(clouds[i], s, normalize);
    }
  }

  /** The body of the loop of Clouds::update, applied to one cloud. */
  method MoveCloud(c: Cloud, birdVelocity: Vec2, dt: real) returns (cloud: Cloud)
    ensures cloud == Advanced(c, birdVelocity, dt)
  {
    cloud := c;
    cloud := cloud.(translation := Sub(cloud.translation, Scale(birdVelocity, dt)));
    cloud := cloud.(rotation := Spin(cloud.rotation, cloud.angularVelocity, dt));
    cloud := cloud.(translation := Add(cloud.translation, Scale(cloud.velocity, dt)));
    assert cloud.translation == Drifted(c, birdVelocity, dt);

    if cloud.translation.x < -1.0 {
      cloud := cloud.(translation := cloud.translation.(x := cloud.translation.x + 2.0));
    }
    if cloud.translation.x > 1.0 {
      cloud := cloud.(translation := cloud.translation.(x := cloud.translation.x - 2.0));
    }
    assert cloud.translation.x == WrapAxis(Drifted(c, birdVelocity, dt).x);
    if cloud.translation.y < -1.0 {
      cloud := cloud.(translation := cloud.translation.(y := cloud.translation.y + 2.0));
    }
    if cloud.translation.y > 1.0 {
      cloud := cloud.(translation := cloud.translation.(y := cloud.translation.y - 2.0));
    }
    assert cloud.translation.y == WrapAxis(Drifted(c, birdVelocity, dt).y);
  }

  class Clouds {
    var clouds: seq<Cloud>
    /** The draws of the random engine since it was last seeded ... */
    var stream: Stream
    /** ... and how many of them have been taken. */
    var drawn: nat
    /** glm::normalize, supplied by the host's vector library. */
    const normalize: Vec2 -> Vec2

    constructor (normalize: Vec2 -> Vec2, stream: Stream)
      ensures this.normalize == normalize && this.stream == stream && drawn == 0 && clouds == []
    {
      this.normalize := normalize;
      this.stream := stream;
      drawn := 0;
      clouds := [];
    }

    /** Takes the engine's next draw. */
    method NextDraw() returns (u: real)
      modifies this`drawn
      ensures u == stream(old(drawn)) && drawn == old(drawn) + 1
    {
      u := stream(drawn);
      drawn := drawn + 1;
    }

    /** Clouds::createCloud, without the polygon geometry. */
    method CreateCloud(translation: Vec2, scale: real) returns (cloud: Cloud)
      requires UnitValued(stream)
      modifies this`drawn
      ensures drawn == old(drawn) + 5
      ensures cloud == CloudFromDraws(stream, old(drawn), translation, scale, normalize)
    {
      cloud := BlankCloud;

      var u := NextDraw();
      cloud := cloud.(polygonSides := UniformInt(PolygonSides, PolygonSides, u));

      u := NextDraw();
      var intensity := Uniform(0.5, 1.0, u);
      cloud := cloud.(color := Rgba(intensity, intensity, intensity, intensity));

      cloud := cloud.(color := cloud.color.(a := 1.0));
      cloud := cloud.(rotation := 0.0);
      cloud := cloud.(scale := scale);
      cloud := cloud.(translation := translation);

      u := NextDraw();
      cloud := cloud.(angularVelocity := Uniform(-1.0, 1.0, u));

      var dx := NextDraw();
      var dy := NextDraw();
      var direction := Vec2(Uniform(-1.0, 1.0, dx), Uniform(-1.0, 1.0, dy));
      cloud := cloud.(velocity := Scale(normalize(direction), 1.0 / SpeedDivisor));
    }

    /** One round of the placement loop: `{m_randomDist(re), m_randomDist(re)}`. */
    method DrawCandidate() returns (translation: Vec2)
      requires UnitValued(stream)
      modifies this`drawn
      ensures drawn == old(drawn) + 2 && translation == Candidate(stream, old(drawn))
    {
      var x := NextDraw();
      var y := NextDraw();
      translation := Vec2(Uniform(-1.0, 1.0, x), Uniform(-1.0, 1.0, y));
    }

    /**
     * The placement loop of Clouds::initializeGL: draws candidates until one is
     * at least `MinSpawnDistance` from the origin, and returns that first one.
     */
    method PlaceCloud() returns (translation: Vec2)
      requires Fair(stream)
      modifies this`drawn
      ensures !TooClose(translation)
      ensures exists rounds: nat ::
                && drawn == old(drawn) + 2 * (rounds + 1)
                && translation == Attempt(stream, old(drawn), rounds)
                && forall k :: 0 <= k < rounds ==> TooClose(Attempt(stream, old(drawn), k))
    {
      ghost var start := drawn;
      assert FarCandidateFrom(stream, start);
      ghost var last: nat :| !TooClose(Attempt(stream, start, last));
      ghost var rounds: nat := 0;

      translation := DrawCandidate();
      while TooClose(translation)
        invariant rounds <= last && drawn == start + 2 * (rounds + 1)
        invariant translation == Attempt(stream, start, rounds)
        invariant forall k :: 0 <= k < rounds ==> TooClose(Attempt(stream, start, k))
        decreases last - rounds
      {
        translation := DrawCandidate();
        rounds := rounds + 1;
      }
    }

    /** Clouds::initializeGL: reseeds the engine and creates `quantity` placed clouds. */
    method InitializeGL(quantity: nat, seed: Stream)
      requires Fair(seed)
      modifies this
      ensures stream == seed
      ensures |clouds| == quantity
      ensures exists starts: seq<nat> ::
                && SpawnedField(clouds, seed, normalize, starts)
                && starts[0] == 0 && starts[quantity] == drawn
      ensures forall i :: 0 <= i < quantity ==> Spawned(clouds[i], seed, normalize)
    {
      stream := seed;
      drawn := 0;

      clouds := [];
      clouds := seq(quantity, _ => BlankCloud);

      ghost var starts: seq<nat> := [0];
      for i := 0 to quantity
        invariant stream == seed
        invariant |clouds| == quantity
        invariant |starts| == i + 1 && starts[0] == 0 && starts[i] == drawn
        invariant SpawnedField(clouds[..i], seed, normalize, starts)
      {
        ghost var p := drawn;
        var cloud := CreateCloud(Vec2(0.0, 0.0), DefaultScale);
        ghost var q := drawn;
        var translation := PlaceCloud();
        ghost var k: nat :| && drawn == q + 2 * (k + 1)
                            && translation == Attempt(seed, q, k)
                            && forall j :: 0 <= j < k ==> TooClose(Attempt(seed, q, j));
        PlacedCloudIsSpawned(cloud, seed, normalize, p, q, k);
        cloud := cloud.(translation := translation);
        SpawnedFieldExtend(clouds[..i], seed, normalize, starts, cloud, drawn);
        assert clouds[i := cloud][..i + 1] == clouds[..i] + [cloud];
        clouds := clouds[i := cloud];
        starts := starts + [drawn];
      }
      assert clouds[..quantity] == clouds;
      SpawnedFieldMembers(clouds, seed, normalize, starts);
    }

    /** Clouds::update: moves every cloud against the bird and wraps it back into view. */
    method Update(bird: Bird, dt: real)
      modifies this`clouds
      ensures clouds == AdvancedAll(old(clouds), bird.velocity, dt)
    {
      for i := 0 to |clouds|
        invariant |clouds| == |old(clouds)|
        invariant forall j :: 0 <= j < i ==> clouds[j] == Advanced(old(clouds)[j], bird.velocity, dt)
        invariant forall j :: i <= j < |clouds| ==> clouds[j] == old(clouds)[j]
      {
        var cloud := MoveCloud(clouds[i], bird.velocity, dt);
        clouds := clouds[i := cloud];
      }
    }
  }
}
