/** The bodies of the solar system: the Planet class with its per-frame
    update (integrator plus trail), the construction of the planets and the
    moon, and the frame loop that updates every body in array order. */
module SolarSystem {
  import opened Vectors
  import opened Gravity
  import opened Trail

  datatype Option<T> = None | Some(value: T)

  /** One simulation unit per 1/20 AU: Earth's orbit has radius 20. */
  const ScaleAU: real := 20.0
  /** The central mass at start-up, before any change from the control panel. */
  const InitialSunMass: real := 3161.4
  /** The sun mesh is never moved, so it attracts from the origin. */
  const SunPosition: Vec3 := Zero
  /** Seconds a trail point is kept. */
  const TrailDuration: real := 5.0
  /** The moon starts this far from Earth along the x axis. */
  const MoonDistance: real := 3.0

  /** What a body falls towards: the sun, whose mass is the live value of the
      control panel, or the body at an index of the planet array, whose
      current position and mass are read at update time. */
  datatype Attractor = Sun | Body(index: nat)

  /** One row of the static planet table (distance in AU). */
  datatype PlanetData = PlanetData(name: string, distanceAU: real, color: int,
                                   size: real, mass: real, rotationPeriod: real)

  class Planet {
    const name: string
    const color: int
    const mass: real
    const size: real
    const rotationPeriod: real
    const attractor: Attractor
    const trailDuration: real
    /** mesh.position, the velocity, and mesh.rotation.y */
    var position: Vec3
    var velocity: Vec3
    var rotationY: real
    /** The retained trail points, oldest first. */
    var trailPoints: seq<TrailPoint>
    /** The trail geometry: `position` and `aAlpha` attributes and draw count. */
    var trailPositions: seq<real>
    var trailAlphas: seq<real>
    var drawCount: nat

    ghost predicate Valid()
      reads this
    {
      rotationPeriod != 0.0 && trailDuration == TrailDuration &&
      |trailPositions| == 3 * |trailPoints| && |trailAlphas| == |trailPoints| &&
      drawCount == |trailPoints|
    }

    function State(): Motion
      reads this
    {
      Motion(position, velocity, rotationY)
    }

    constructor (name: string, color: int, mass: real, size: real, rotationPeriod: real,
                 initialPosition: Vec3, initialVelocity: Vec3, attractor: Attractor)
      requires rotationPeriod != 0.0
      ensures Valid()
      ensures this.name == name && this.color == color && this.mass == mass &&
              this.size == size && this.rotationPeriod == rotationPeriod &&
              this.attractor == attractor
      ensures position == initialPosition && velocity == initialVelocity && rotationY == 0.0
      ensures trailPoints == [] && trailPositions == [] && trailAlphas == [] && drawCount == 0
    {
      this.name := name;
      this.color := color;
      this.mass := mass;
      this.size := size;
      this.rotationPeriod := rotationPeriod;
      this.attractor := attractor;
      trailDuration := TrailDuration;
      position := initialPosition;
      velocity := initialVelocity;
      rotationY := 0.0;
      trailPoints := [];
      trailPositions := [];
      trailAlphas := [];
      drawCount := 0;
    }

    /** One frame, `update(delta, speed)`: the integrator step towards the
        attractor (whose current position and mass the caller reads), then
        the trail update with the clock reading `currentTime`. */
    method Update(delta: real, speed: real, attractorPos: Vec3, attractorMass: real,
                  length: Vec3 -> real, currentTime: real)
      requires Valid()
      modifies this
      ensures Valid()
      ensures State() == Advance(old(State()), attractorPos, attractorMass,
                                  length(Sub(attractorPos, old(position))),
                                  rotationPeriod, delta * speed)
      ensures TrailAfter(old(trailPoints), currentTime)
      // a paused frame freezes the body but still records a trail point
      ensures delta * speed == 0.0 ==>
        State() == old(State()) && trailPoints[|trailPoints| - 1] == TrailPoint(old(position), currentTime)
      // with a clock that never runs backwards the trail stays oldest first
      // and every opacity lies in [0, 1]
      ensures History(old(trailPoints), currentTime) ==> FadingHistory(currentTime)
    {
      Integrate(delta, speed, attractorPos, attractorMass, length);
      RecordTrail(currentTime);
    }

    /** What one trail update leaves behind, given the points before it:
        the old points that are still fresh followed by the current
        position, and a geometry of three coordinates and one opacity per
        point. */
    ghost predicate TrailAfter(before: seq<TrailPoint>, currentTime: real)
      reads this
      requires Valid()
    {
      trailPoints == Retain(before + [TrailPoint(position, currentTime)], currentTime, trailDuration) &&
      trailPoints == Retain(before, currentTime, trailDuration) + [TrailPoint(position, currentTime)] &&
      drawCount == |trailPoints| > 0 &&
      (forall i :: 0 <= i < |trailPoints| ==>
        trailPositions[3 * i] == trailPoints[i].pos.x &&
        trailPositions[3 * i + 1] == trailPoints[i].pos.y &&
        trailPositions[3 * i + 2] == trailPoints[i].pos.z) &&
      (forall i :: 0 <= i < |trailPoints| ==>
        trailAlphas[i] == Alpha(trailPoints[i], currentTime, trailDuration))
    }

    /** The trail is a history at `currentTime` and its opacities lie in
        [0, 1]. */
    ghost predicate FadingHistory(currentTime: real)
      reads this
    {
      History(trailPoints, currentTime) &&
      forall i :: 0 <= i < |trailAlphas| ==> 0.0 <= trailAlphas[i] <= 1.0
    }

    /** The motion half of `update`: velocity, then position with the new
        velocity, then the spin. */
    method Integrate(delta: real, speed: real, attractorPos: Vec3, attractorMass: real,
                     length: Vec3 -> real)
      requires Valid()
      modifies this`position, this`velocity, this`rotationY
      ensures State() == Advance(old(State()), attractorPos, attractorMass,
                                  length(Sub(attractorPos, old(position))),
                                  rotationPeriod, delta * speed)
    {
      var dt := delta * speed;
      var rVec := Sub(attractorPos, position);
      var r := length(rVec);
      Accelerate(rVec, r, attractorMass, dt);
      position := Add(position, Scale(velocity, dt));
      rotationY := rotationY + (2.0 * Pi / rotationPeriod) * dt;
    }

    /** The velocity update of `update`, skipped when the attractor is at
        most Epsilon away; `r` is the length of `rVec`. */
    method Accelerate(rVec: Vec3, r: real, attractorMass: real, dt: real)
      modifies this`velocity
      ensures velocity == Kick(old(velocity), rVec, r, attractorMass, dt)
    {
      if r > Epsilon {
        var direction := Scale(rVec, 1.0 / r);
        var aMag := G * attractorMass / (r * r);
        var acceleration := Scale(direction, aMag);
        velocity := Add(velocity, Scale(acceleration, dt));
      }
    }

    /** The trail half of `update`: push the current position, drop the
        points older than the trail duration, rebuild the geometry. */
    method RecordTrail(currentTime: real)
      requires Valid()
      modifies this`trailPoints, this`trailPositions, this`trailAlphas, this`drawCount
      ensures Valid() && TrailAfter(old(trailPoints), currentTime)
      ensures History(old(trailPoints), currentTime) ==> FadingHistory(currentTime)
    {
      ghost var before := trailPoints;
      trailPoints := trailPoints + [TrailPoint(position, currentTime)];
      PushedPointSurvives(before, position, currentTime, trailDuration);
      if History(before, currentTime) {
        PushPruneKeepsHistory(before, position, currentTime, trailDuration);
      }
      trailPoints := Retain(trailPoints, currentTime, trailDuration);
      var positions, alphas := BuildAttributes(trailPoints, currentTime, trailDuration);
      trailPositions := positions;
      trailAlphas := alphas;
      drawCount := |trailPoints|;
    }
  }

  /** `planets.find(p => p.name === name)`: the first index with that name. */
  function Find(planets: seq<Planet>, name: string): (r: Option<nat>)
    ensures r.Some? ==> r.value < |planets| && planets[r.value].name == name &&
                        forall k :: 0 <= k < r.value ==> planets[k].name != name
    ensures r.None? <==> forall k :: 0 <= k < |planets| ==> planets[k].name != name
  {
    if planets == [] then None
    else if planets[0].name == name then Some(0)
    else match Find(planets[1..], name)
      case None => None
      case Some(k) => Some(k + 1)
  }

  /** The planet array holds distinct objects. */
  predicate Distinct(planets: seq<Planet>) {
    forall i, j :: 0 <= i < j < |planets| ==> planets[i] != planets[j]
  }

  /** Every attractor index names an element of the array. */
  predicate AttractorsExist(planets: seq<Planet>) {
    forall i :: 0 <= i < |planets| && planets[i].attractor.Body? ==>
      planets[i].attractor.index < |planets|
  }

  /** Every body is attracted by the sun or by a body earlier in the array,
      so updating in array order updates an attractor before its satellites. */
  predicate WellOrdered(planets: seq<Planet>) {
    forall i :: 0 <= i < |planets| && planets[i].attractor.Body? ==>
      planets[i].attractor.index < i
  }

  /** Every body has a non-zero rotation period (as every constructed
      Planet has). */
  predicate Spinning(planets: seq<Planet>) {
    forall i :: 0 <= i < |planets| ==> planets[i].rotationPeriod != 0.0
  }

  ghost predicate AllValid(planets: seq<Planet>)
    reads set p | p in planets
  {
    Spinning(planets) && forall i :: 0 <= i < |planets| ==> planets[i].Valid()
  }

  /** The motion states of all bodies. */
  function States(planets: seq<Planet>): (ms: seq<Motion>)
    reads set p | p in planets
    ensures |ms| == |planets| && forall i :: 0 <= i < |planets| ==> ms[i] == planets[i].State()
  {
    if planets == [] then [] else [planets[0].State()] + States(planets[1..])
  }

  /** The trails of all bodies. */
  function Trails(planets: seq<Planet>): (ts: seq<seq<TrailPoint>>)
    reads set p | p in planets
    ensures |ts| == |planets| && forall i :: 0 <= i < |planets| ==> ts[i] == planets[i].trailPoints
  {
    if planets == [] then [] else [planets[0].trailPoints] + Trails(planets[1..])
  }

  /** Where an attractor is when the bodies are in states `ms`: the sun at
      its fixed position, a body at its current position. */
  function AttractorPosition(a: Attractor, ms: seq<Motion>): Vec3
    requires a.Body? ==> a.index < |ms|
  {
    match a
    case Sun => SunPosition
    case Body(j) => ms[j].position
  }

  /** The mass that pulls body `i`: the live sun mass or the attracting
      body's mass. */
  function AttractorMass(planets: seq<Planet>, i: nat, sunMass: real): real
    requires i < |planets| && AttractorsExist(planets)
  {
    match planets[i].attractor
    case Sun => sunMass
    case Body(j) => planets[j].mass
  }

  /** `planets[i].update` when the bodies are in states `ms`: one
      integrator step towards where the attractor is right now. */
  function StepBody(planets: seq<Planet>, ms: seq<Motion>, i: nat, sunMass: real, dt: real,
                    length: Vec3 -> real): Motion
    requires i < |planets| == |ms| && AttractorsExist(planets) && Spinning(planets)
  {
    var apos := AttractorPosition(planets[i].attractor, ms);
    Advance(ms[i], apos, AttractorMass(planets, i, sunMass), length(Sub(apos, ms[i].position)),
            planets[i].rotationPeriod, dt)
  }

  /** The states after the first `n` calls of
      `planets.forEach(p => p.update(delta, speed))`, starting from `ms`. */
  function Sweep(planets: seq<Planet>, ms: seq<Motion>, n: nat, sunMass: real, dt: real,
                 length: Vec3 -> real): (r: seq<Motion>)
    requires n <= |ms| == |planets| && AttractorsExist(planets) && Spinning(planets)
    ensures |r| == |ms|
    ensures forall k :: n <= k < |ms| ==> r[k] == ms[k]
  {
    if n == 0 then ms
    else
      var c := Sweep(planets, ms, n - 1, sunMass, dt, length);
      c[n - 1 := StepBody(planets, c, n - 1, sunMass, dt, length)]
  }

  /** The states at the end of one animation frame. */
  function Frame(planets: seq<Planet>, ms: seq<Motion>, sunMass: real, dt: real,
                 length: Vec3 -> real): seq<Motion>
    requires |ms| == |planets| && AttractorsExist(planets) && Spinning(planets)
  {
    Sweep(planets, ms, |ms|, sunMass, dt, length)
  }

  /** Once body `k` has been updated, later updates in the frame leave it
      alone. */
  lemma {:induction false} SweepSettled(planets: seq<Planet>, ms: seq<Motion>, k: nat, n: nat, m: nat,
                                        sunMass: real, dt: real, length: Vec3 -> real)
    requires k < n <= m <= |ms| == |planets| && AttractorsExist(planets) && Spinning(planets)
    ensures Sweep(planets, ms, m, sunMass, dt, length)[k] == Sweep(planets, ms, n, sunMass, dt, length)[k]
    decreases m
  {
    if m > n {
      SweepSettled(planets, ms, k, n, m - 1, sunMass, dt, length);
    }
  }

  /** The position body `i`'s attractor has when body `i` is updated in a
      frame that started in states `ms` and ended in states `after`: an
      earlier body has already moved, a later one has not. */
  function SeenPosition(a: Attractor, i: nat, ms: seq<Motion>, after: seq<Motion>): Vec3
    requires a.Body? ==> a.index < |ms| && a.index < |after|
  {
    match a
    case Sun => SunPosition
    case Body(j) => if j < i then after[j].position else ms[j].position
  }

  /** In one frame every body takes one integrator step from its own state
      at the start of the frame, pulled by its attractor as it is at that
      moment of the sweep: where it ended up if it comes earlier in the
      array, where it started if it comes later (or is the body itself). */
  lemma FrameSteps(planets: seq<Planet>, ms: seq<Motion>, sunMass: real, dt: real,
                   length: Vec3 -> real)
    requires |ms| == |planets| && AttractorsExist(planets) && Spinning(planets)
    ensures var after := Frame(planets, ms, sunMass, dt, length);
      forall i :: 0 <= i < |ms| ==>
        var apos := SeenPosition(planets[i].attractor, i, ms, after);
        after[i] == Advance(ms[i], apos, AttractorMass(planets, i, sunMass),
                            length(Sub(apos, ms[i].position)), planets[i].rotationPeriod, dt)
  {
    forall i | 0 <= i < |ms| {
      FrameStepAt(planets, ms, i, sunMass, dt, length);
    }
  }

  lemma FrameStepAt(planets: seq<Planet>, ms: seq<Motion>, i: nat, sunMass: real, dt: real,
                    length: Vec3 -> real)
    requires i < |ms| == |planets| && AttractorsExist(planets) && Spinning(planets)
    ensures var after := Frame(planets, ms, sunMass, dt, length);
      var apos := SeenPosition(planets[i].attractor, i, ms, after);
      after[i] == Advance(ms[i], apos, AttractorMass(planets, i, sunMass),
                          length(Sub(apos, ms[i].position)), planets[i].rotationPeriod, dt)
  {
    var c := Sweep(planets, ms, i, sunMass, dt, length);
    SweepSettled(planets, ms, i, i + 1, |ms|, sunMass, dt, length);
    match planets[i].attractor
    case Sun =>
    case Body(j) =>
      if j < i {
        SweepSettled(planets, ms, j, j + 1, i, sunMass, dt, length);
        SweepSettled(planets, ms, j, j + 1, |ms|, sunMass, dt, length);
      }
  }

  /** With every attractor earlier in the array (the sun or a body
      before), every body is pulled towards where its attractor is at the
      end of the same frame. */
  lemma FrameUsesUpdatedAttractors(planets: seq<Planet>, ms: seq<Motion>, sunMass: real, dt: real,
                                   length: Vec3 -> real)
    requires |ms| == |planets| && AttractorsExist(planets) && Spinning(planets) && WellOrdered(planets)
    ensures var after := Frame(planets, ms, sunMass, dt, length);
      forall i :: 0 <= i < |ms| ==>
        var apos := AttractorPosition(planets[i].attractor, after);
        after[i] == Advance(ms[i], apos, AttractorMass(planets, i, sunMass),
                            length(Sub(apos, ms[i].position)), planets[i].rotationPeriod, dt)
  {
    FrameSteps(planets, ms, sunMass, dt, length);
  }

  /** A paused frame (delta * speed == 0) moves nothing. */
  lemma {:induction false} SweepPaused(planets: seq<Planet>, ms: seq<Motion>, n: nat, sunMass: real,
                                       length: Vec3 -> real)
    requires n <= |ms| == |planets| && AttractorsExist(planets) && Spinning(planets)
    ensures Sweep(planets, ms, n, sunMass, 0.0, length) == ms
    decreases n
  {
    if n > 0 {
      SweepPaused(planets, ms, n - 1, sunMass, length);
    }
  }

  /** One animation frame, `planets.forEach(p => p.update(delta, speed))`:
      every body in array order. `clock[i]` is the clock reading taken by
      body i's own update. */
  method Animate(planets: seq<Planet>, delta: real, speed: real, sunMass: real,
                 clock: seq<real>, length: Vec3 -> real)
    requires |clock| == |planets|
    requires Distinct(planets) && AttractorsExist(planets) && AllValid(planets)
    modifies set p | p in planets
    ensures AllValid(planets)
    ensures forall i :: 0 <= i < |planets| ==>
      planets[i].State() == Frame(planets, old(States(planets)), sunMass, delta * speed, length)[i]
    ensures forall i :: 0 <= i < |planets| ==>
      planets[i].trailPoints ==
        Retain(old(planets[i].trailPoints), clock[i], TrailDuration) +
        [TrailPoint(planets[i].position, clock[i])]
    // every body's trail geometry is rebuilt from its new trail
    ensures forall i :: 0 <= i < |planets| ==>
      planets[i].TrailAfter(old(planets[i].trailPoints), clock[i])
    // with clocks that never run backwards every opacity lies in [0, 1]
    ensures forall i :: 0 <= i < |planets| ==>
      History(old(planets[i].trailPoints), clock[i]) ==> planets[i].FadingHistory(clock[i])
  {
    ghost var ms := old(States(planets));
    ghost var ts := old(Trails(planets));
    var i := 0;
    while i < |planets|
      invariant 0 <= i <= |planets|
      invariant AllValid(planets)
      invariant SweptTo(planets, ms, ts, clock, i, sunMass, delta * speed, length)
    {
      UpdateBody(planets, i, delta, speed, sunMass, clock, length, ms, ts);
      i := i + 1;
    }
    SweptAll(planets, ms, ts, clock, sunMass, delta * speed, length);
  }

  /** At the end of the sweep every body has taken its step of the frame and
      every trail has been extended once. */
  lemma SweptAll(planets: seq<Planet>, ms: seq<Motion>, ts: seq<seq<TrailPoint>>,
                 clock: seq<real>, sunMass: real, dt: real, length: Vec3 -> real)
    requires |ms| == |ts| == |clock| == |planets|
    requires AttractorsExist(planets) && Spinning(planets)
    requires SweptTo(planets, ms, ts, clock, |planets|, sunMass, dt, length)
    ensures forall k :: 0 <= k < |planets| ==>
      planets[k].State() == Frame(planets, ms, sunMass, dt, length)[k]
    ensures forall k :: 0 <= k < |planets| ==>
      planets[k].trailPoints ==
        Retain(ts[k], clock[k], TrailDuration) + [TrailPoint(planets[k].position, clock[k])]
    ensures forall k :: 0 <= k < |planets| ==>
      planets[k].Valid() && planets[k].TrailAfter(ts[k], clock[k]) &&
      (History(ts[k], clock[k]) ==> planets[k].FadingHistory(clock[k]))
  {
  }

  /** The bodies after the first `i` updates of a frame that started in
      motion states `ms` with trails `ts`: the motion is that of the sweep
      so far, an updated body has its filtered trail plus the new point and
      the geometry rebuilt from it, a body not yet updated keeps its trail. */
  ghost predicate SweptTo(planets: seq<Planet>, ms: seq<Motion>, ts: seq<seq<TrailPoint>>,
                          clock: seq<real>, i: nat, sunMass: real, dt: real, length: Vec3 -> real)
    reads set p | p in planets
    requires i <= |planets| && |ms| == |ts| == |clock| == |planets|
    requires AttractorsExist(planets) && Spinning(planets)
  {
    forall k :: 0 <= k < |planets| ==>
      planets[k].State() == Sweep(planets, ms, i, sunMass, dt, length)[k] &&
      if k < i then
        planets[k].Valid() && planets[k].TrailAfter(ts[k], clock[k]) &&
        (History(ts[k], clock[k]) ==> planets[k].FadingHistory(clock[k]))
      else planets[k].trailPoints == ts[k]
  }

  /** The call `p.update(delta, speed)` for `p = planets[i]`, reading the
      attractor's current position and mass and the clock reading
      `clock[i]`. */
  method UpdateBody(planets: seq<Planet>, i: nat, delta: real, speed: real, sunMass: real,
                    clock: seq<real>, length: Vec3 -> real,
                    ghost ms: seq<Motion>, ghost ts: seq<seq<TrailPoint>>)
    requires i < |planets| && |ms| == |ts| == |clock| == |planets|
    requires Distinct(planets) && AttractorsExist(planets) && AllValid(planets)
    requires SweptTo(planets, ms, ts, clock, i, sunMass, delta * speed, length)
    modifies planets[i]
    ensures AllValid(planets)
    ensures SweptTo(planets, ms, ts, clock, i + 1, sunMass, delta * speed, length)
  {
    ghost var c := Sweep(planets, ms, i, sunMass, delta * speed, length);
    var p := planets[i];
    var apos, amass;
    match p.attractor {
      case Sun =>
        apos, amass := SunPosition, sunMass;
      case Body(j) =>
        apos, amass := planets[j].position, planets[j].mass;
    }
    assert apos == AttractorPosition(p.attractor, c);
    p.Update(delta, speed, apos, amass, length, clock[i]);
    assert p.State() == StepBody(planets, c, i, sunMass, delta * speed, length);
  }

  /** A body placed at distance `r` on the x axis with speed `v` along +z
      starts perpendicular to its radius. The second clause only restates
      the supplied square root (v * v * r == mass) for the velocity vector:
      its squared length times r is G * mass, the circular-orbit speed
      condition; no orbit is simulated. */
  lemma CircularStart(r: real, v: real, mass: real)
    requires v * v * r == mass
    ensures Dot(Vec3(r, 0.0, 0.0), Vec3(0.0, 0.0, v)) == 0.0
    ensures Dot(Vec3(0.0, 0.0, v), Vec3(0.0, 0.0, v)) * r == G * mass
  {
    assert Dot(Vec3(0.0, 0.0, v), Vec3(0.0, 0.0, v)) == v * v;
  }

  /** The `planetData.forEach` loop: one planet per table row on the
      positive x axis at r = distanceAU * ScaleAU, with velocity
      (0, 0, speeds[i]) where speeds[i] is Math.sqrt(sunMass / r), attracted
      by the sun. */
  method PlanetsFromTable(data: seq<PlanetData>, speeds: seq<real>) returns (planets: seq<Planet>)
    requires |speeds| == |data|
    requires forall i :: 0 <= i < |data| ==> data[i].rotationPeriod != 0.0
    ensures |planets| == |data|
    ensures Distinct(planets) && AllValid(planets)
    ensures forall i :: 0 <= i < |planets| ==> fresh(planets[i])
    ensures forall i :: 0 <= i < |data| ==> FromRow(planets[i], data[i], speeds[i])
    ensures forall i :: (0 <= i < |data| &&
      speeds[i] * speeds[i] * (data[i].distanceAU * ScaleAU) == InitialSunMass) ==>
      CircularOrbitStart(planets[i], Zero, Zero, data[i].distanceAU * ScaleAU, InitialSunMass)
  {
    planets := [];
    var i := 0;
    while i < |data|
      invariant 0 <= i <= |data| && |planets| == i
      invariant Distinct(planets)
      invariant forall k :: 0 <= k < i ==> fresh(planets[k])
      invariant forall k :: 0 <= k < i ==> TableBody(planets[k], data[k], speeds[k])
    {
      var planet := PlanetFromRow(data[i], speeds[i]);
      planets := planets + [planet];
      i := i + 1;
    }
  }

  /** The planet built from row `row` with speed `speed`, starting on a
      circular orbit about the sun when the speed is the circular-orbit
      speed. */
  ghost predicate TableBody(p: Planet, row: PlanetData, speed: real)
    reads p
  {
    FromRow(p, row, speed) && p.Valid() &&
    (speed * speed * (row.distanceAU * ScaleAU) == InitialSunMass ==>
      CircularOrbitStart(p, Zero, Zero, row.distanceAU * ScaleAU, InitialSunMass))
  }

  /** The body of the `planetData.forEach` loop for one row. */
  method PlanetFromRow(row: PlanetData, speed: real) returns (planet: Planet)
    requires row.rotationPeriod != 0.0
    ensures fresh(planet) && TableBody(planet, row, speed)
  {
    var r := row.distanceAU * ScaleAU;
    var position := Vec3(r, 0.0, 0.0);
    var velocity := Vec3(0.0, 0.0, speed);
    planet := new Planet(row.name, row.color, row.mass, row.size,
                         row.rotationPeriod, position, velocity, Sun);
    if speed * speed * r == InitialSunMass {
      CircularStart(r, speed, InitialSunMass);
      assert Sub(position, Zero) == position && Sub(velocity, Zero) == velocity;
    }
  }

  /** Planet `p` is the initial state built from table row `row`. */
  ghost predicate FromRow(p: Planet, row: PlanetData, speed: real)
    reads p
  {
    p.name == row.name && p.color == row.color && p.mass == row.mass &&
    p.size == row.size && p.rotationPeriod == row.rotationPeriod &&
    p.attractor == Sun && p.position == Vec3(row.distanceAU * ScaleAU, 0.0, 0.0) &&
    p.velocity == Vec3(0.0, 0.0, speed) && p.rotationY == 0.0 && p.trailPoints == []
  }

  /** The moon `moon` orbits `earth`, the planet at index `e`: placed
      MoonDistance further along x, with Earth's velocity plus `moonSpeed`
      along z. */
  ghost predicate IsMoonOf(moon: Planet, earth: Planet, e: nat, moonSpeed: real)
    reads moon, earth
  {
    moon.name == "Moon" && moon.color == 0x888888 && moon.mass == 0.073 &&
    moon.size == 0.27 && moon.rotationPeriod == 27.0 && moon.attractor == Body(e) &&
    moon.position == Add(earth.position, Vec3(MoonDistance, 0.0, 0.0)) &&
    moon.velocity == Add(earth.velocity, Vec3(0.0, 0.0, moonSpeed)) &&
    moon.rotationY == 0.0 && moon.trailPoints == []
  }

  /** Relative to an attractor at `center` moving with `centerVelocity`,
      body `p` starts perpendicular to its radius at the circular-orbit
      speed for distance `r` and attractor mass `mass`. */
  ghost predicate CircularOrbitStart(p: Planet, center: Vec3, centerVelocity: Vec3, r: real, mass: real)
    reads p
  {
    var radius := Sub(p.position, center);
    var relative := Sub(p.velocity, centerVelocity);
    Dot(radius, relative) == 0.0 && Dot(relative, relative) * r == G * mass
  }

  /** The moon, created beside `earth` (the planet at index `e`) with
      speed `moonSpeed` = Math.sqrt(earth.mass / MoonDistance) relative to
      it. */
  method CreateMoon(earth: Planet, e: nat, moonSpeed: real) returns (moon: Planet)
    requires moonSpeed >= 0.0 && moonSpeed * moonSpeed * MoonDistance == earth.mass
    ensures fresh(moon) && moon.Valid()
    ensures IsMoonOf(moon, earth, e, moonSpeed)
    ensures CircularOrbitStart(moon, earth.position, earth.velocity, MoonDistance, earth.mass)
  {
    var moonPosition := Add(earth.position, Vec3(MoonDistance, 0.0, 0.0));
    var moonVelocity := Add(earth.velocity, Vec3(0.0, 0.0, moonSpeed));
    moon := new Planet("Moon", 0x888888, 0.073, 0.27, 27.0, moonPosition, moonVelocity, Body(e));
    SubAdd(earth.position, Vec3(MoonDistance, 0.0, 0.0));
    SubAdd(earth.velocity, Vec3(0.0, 0.0, moonSpeed));
    CircularStart(MoonDistance, moonSpeed, earth.mass);
  }

  /** The moon block: if the array has an Earth, a moon beside the first
      one is pushed at the end; otherwise the array is left as it is.
      `moonSpeed` is Math.sqrt(earth.mass / MoonDistance). */
  method AddMoon(planets: seq<Planet>, moonSpeed: real) returns (all: seq<Planet>)
    requires Distinct(planets) && AllValid(planets)
    requires AttractorsExist(planets) && WellOrdered(planets)
    requires moonSpeed >= 0.0
    requires Find(planets, "Earth").Some? ==>
      moonSpeed * moonSpeed * MoonDistance == planets[Find(planets, "Earth").value].mass
    ensures Distinct(all) && AllValid(all) && AttractorsExist(all) && WellOrdered(all)
    ensures Find(planets, "Earth").None? ==> all == planets
    ensures Find(planets, "Earth").Some? ==> |all| == |planets| + 1 && all == planets + [all[|planets|]]
    ensures |all| == |planets| + 1 ==>
      var e := Find(planets, "Earth").value;
      fresh(all[|planets|]) && IsMoonOf(all[|planets|], planets[e], e, moonSpeed) &&
      CircularOrbitStart(all[|planets|], planets[e].position, planets[e].velocity,
                         MoonDistance, planets[e].mass)
  {
    var earthIndex := Find(planets, "Earth");
    match earthIndex
    case None =>
      all := planets;
    case Some(e) =>
      var moon := CreateMoon(planets[e], e, moonSpeed);
      all := planets + [moon];
  }

  /** The construction of all bodies: the planets of the table, then, if
      the table has an Earth, the moon beside the first one. `speeds[i]` is
      Math.sqrt(sunMass / r) for row i and `moonSpeed` is
      Math.sqrt(earth.mass / MoonDistance). */
  method CreatePlanets(data: seq<PlanetData>, speeds: seq<real>, moonSpeed: real)
      returns (planets: seq<Planet>)
    requires |speeds| == |data|
    requires forall i :: 0 <= i < |data| ==> data[i].rotationPeriod != 0.0
    requires forall i :: 0 <= i < |data| ==>
      speeds[i] >= 0.0 && speeds[i] * speeds[i] * (data[i].distanceAU * ScaleAU) == InitialSunMass
    requires moonSpeed >= 0.0
    requires forall i :: (0 <= i < |data| && data[i].name == "Earth" &&
                          forall k :: 0 <= k < i ==> data[k].name != "Earth") ==>
      moonSpeed * moonSpeed * MoonDistance == data[i].mass
    ensures |data| <= |planets| <= |data| + 1
    ensures Distinct(planets) && AllValid(planets)
    ensures AttractorsExist(planets) && WellOrdered(planets)
    ensures forall i :: 0 <= i < |planets| ==> fresh(planets[i])
    ensures forall i :: 0 <= i < |data| ==> FromRow(planets[i], data[i], speeds[i])
    // every planet starts perpendicular to its radius at the circular-orbit speed
    ensures forall i :: 0 <= i < |data| ==>
      CircularOrbitStart(planets[i], Zero, Zero, data[i].distanceAU * ScaleAU, InitialSunMass)
    ensures |planets| == |data| + 1 <==> exists i :: 0 <= i < |data| && data[i].name == "Earth"
    ensures |planets| == |data| + 1 ==>
      planets[|data|].attractor.Body? &&
      var e := planets[|data|].attractor.index;
      e < |data| && data[e].name == "Earth" &&
      (forall k :: 0 <= k < e ==> data[k].name != "Earth") &&
      IsMoonOf(planets[|data|], planets[e], e, moonSpeed)
    // relative to Earth the moon starts perpendicular at the circular-orbit speed
    ensures |planets| == |data| + 1 && planets[|data|].attractor.Body? &&
            planets[|data|].attractor.index < |planets| ==>
      var earth := planets[planets[|data|].attractor.index];
      CircularOrbitStart(planets[|data|], earth.position, earth.velocity, MoonDistance, earth.mass)
  {
    var table := PlanetsFromTable(data, speeds);
    planets := AddMoon(table, moonSpeed);
    match Find(table, "Earth")
    case None =>
      assert forall i :: 0 <= i < |data| ==> data[i].name == table[i].name;
    case Some(e) =>
      assert forall k :: 0 <= k <= e ==> data[k].name == table[k].name;
      assert forall i :: 0 <= i < |table| ==> planets[i] == table[i];
  }
}
