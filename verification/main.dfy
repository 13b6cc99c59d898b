/**
 * The scene of js/main.js: the per-frame updater (sun glow pulse, planet
 * orbits and spins, the asteroid belt, nebula clouds), the frame clock, the
 * rebuilding of the asteroid belt and of the black hole, and the click
 * handler with its info panel.
 *
 * Objects of the scene are known by an identity `id`; `scene` maps the id of
 * every top-level object to its point-cloud data when it is a `THREE.Points`.
 */
module Main {
  import opened Base
  import opened Trig
  import opened Clocks
  import CelestialBodies
  import Interactions

  /** `sun.userData.glow`: the pulse phase and rate and, when both glow layers exist, their scale and opacity. */
  datatype Glow = Glow(pulseFactor: real, pulseSpeed: real, layered: bool,
                       outerScale: real, innerScale: real, outerOpacity: real, innerOpacity: real)

  /** The glow's pulse at phase `phase`. */
  function Pulse(t: Trig, phase: real): real {
    0.7 + 0.3 * t.sin(phase)
  }

  function StepGlow(t: Trig, g: Glow, delta: real): Glow {
    var f := g.pulseFactor + g.pulseSpeed * delta;
    var p := Pulse(t, f);
    if g.layered then g.(pulseFactor := f, outerScale := p, innerScale := p * 0.95, outerOpacity := 0.3 * p, innerOpacity := 0.5 * p)
    else g.(pulseFactor := f)
  }

  /** A child of a planet mesh; only a `THREE.Group` (the moon system) spins. */
  datatype Child = Child(isGroup: bool, spin: real)

  /** An entry of `planets` with its `userData`; `spin` is `rotation.y`. */
  datatype Body = Body(id: nat, name: Option<string>, x: real, y: real, z: real, spin: real,
                       distance: Option<real>, orbitalSpeed: Option<real>, rotationSpeed: Option<real>,
                       glow: Option<Glow>, children: seq<Child>)

  /** The sun: its glow pulses and, only then, it spins by 0.003 per unit of time. */
  function StepSun(t: Trig, b: Body, delta: real): Body {
    if b.glow.Some? then b.(glow := Some(StepGlow(t, b.glow.value, delta)), spin := b.spin + 0.003 * delta) else b
  }

  /** A planet's (x, z) turned by `orbitalSpeed * delta` when the speed is truthy. */
  function Orbit(t: Trig, b: Body, delta: real): Point {
    if Truthy(b.orbitalSpeed) then Rotate(t, Point(b.x, b.z), Angle(b.orbitalSpeed.value, delta))
    else Point(b.x, b.z)
  }

  lemma OrbitWhenMoving(t: Trig, b: Body, delta: real)
    requires Truthy(b.orbitalSpeed)
    ensures Orbit(t, b, delta) == Rotate(t, Point(b.x, b.z), Angle(b.orbitalSpeed.value, delta))
  {
  }

  function SpinChild(c: Child, delta: real): Child {
    if c.isGroup then c.(spin := c.spin + 0.02 * delta) else c
  }

  /** One frame of a planet: the orbit step, its own spin when `rotationSpeed` is truthy, and its groups' spin. */
  function StepPlanet(t: Trig, b: Body, delta: real): Body {
    var p := Orbit(t, b, delta);
    b.(x := p.x, z := p.z,
       spin := if Truthy(b.rotationSpeed) then b.spin + b.rotationSpeed.value * delta else b.spin,
       children := seq(|b.children|, i requires 0 <= i < |b.children| => SpinChild(b.children[i], delta)))
  }

  /** One frame of every entry of `planets`. */
  function StepPlanets(t: Trig, ps: map<string, Body>, delta: real): map<string, Body> {
    map name | name in ps :: if name == "sun" then StepSun(t, ps[name], delta) else StepPlanet(t, ps[name], delta)
  }

  /** An asteroid mesh with its `userData` and transform. */
  datatype Asteroid = Asteroid(id: nat, orbitRadius: real, orbitAngle: real, orbitSpeed: Option<real>, rotationSpeed: real,
                               x: real, y: real, z: real, rx: real, ry: real, rz: real)

  /** An asteroid with a truthy `orbitSpeed` advances its angle, is placed on its circle and tumbles; others stay put. */
  function StepAsteroid(t: Trig, a: Asteroid, delta: real): Asteroid {
    if Truthy(a.orbitSpeed) then
      var angle := a.orbitAngle + a.orbitSpeed.value * delta;
      a.(orbitAngle := angle, x := t.cos(angle) * a.orbitRadius, z := t.sin(angle) * a.orbitRadius,
         rx := a.rx + a.rotationSpeed * delta * 0.2, ry := a.ry + a.rotationSpeed * delta,
         rz := a.rz + a.rotationSpeed * delta * 0.3)
    else a
  }

  function StepAsteroids(t: Trig, asteroids: seq<Asteroid>, delta: real): (r: seq<Asteroid>)
    ensures |r| == |asteroids|
  {
    seq(|asteroids|, i requires 0 <= i < |asteroids| => StepAsteroid(t, asteroids[i], delta))
  }

  /** The asteroid sits on its circle at its angle: x = cos·r, z = sin·r. */
  predicate OnCircle(t: Trig, a: Asteroid) {
    a.x == t.cos(a.orbitAngle) * a.orbitRadius && a.z == t.sin(a.orbitAngle) * a.orbitRadius
  }

  /** The `userData` and transform of a `THREE.Points` child of the scene (a nebula or the star field). */
  datatype Cloud = Cloud(rotationSpeed: Option<real>, pulseSpeed: Option<real>, pulsePhase: real, spin: real, scale: real)

  /** One frame of a scene child: a point cloud with a truthy `rotationSpeed` spins and, with a truthy `pulseSpeed`, pulses. */
  function StepCloud(t: Trig, c: Option<Cloud>, delta: real): Option<Cloud> {
    if c.Some? && Truthy(c.value.rotationSpeed) then
      var k := c.value;
      var spun := k.(spin := k.spin + k.rotationSpeed.value * delta);
      if Truthy(k.pulseSpeed) then
        var phase := k.pulsePhase + k.pulseSpeed.value * delta;
        Some(spun.(pulsePhase := phase, scale := 0.8 + 0.2 * t.sin(phase)))
      else Some(spun)
    else c
  }

  function StepScene(t: Trig, scene: map<nat, Option<Cloud>>, delta: real): map<nat, Option<Cloud>> {
    map id | id in scene :: StepCloud(t, scene[id], delta)
  }

  /**
   * The random draws behind one new asteroid of `createAsteroidBelt`: its
   * orbit radius and angle, height, speeds and initial tumble.
   */
  datatype Placement = Placement(radius: real, angle: real, height: real, orbitSpeed: real, rotationSpeed: real,
                                 rx: real, ry: real, rz: real)

  /**
   * What `createAsteroidBelt(count, minRadius, maxRadius)` draws: a radius in
   * the given range, a height in [-1, 1], an orbit speed derived as
   * 0.02 / sqrt(radius) (stated without a square root, as speed² × radius
   * = 0.0004 with a positive speed) and a rotation speed 0.01 + 0.05 × draw.
   */
  ghost predicate Drawn(p: Placement, minRadius: real, maxRadius: real) {
    && minRadius <= p.radius <= maxRadius
    && -1.0 <= p.height <= 1.0
    && p.orbitSpeed > 0.0 && p.orbitSpeed * p.orbitSpeed * p.radius == 0.0004
    && 0.01 <= p.rotationSpeed <= 0.06
  }

  /** The asteroid `createAsteroidBelt` makes from one placement. */
  function Placed(t: Trig, p: Placement, id: nat): Asteroid {
    Asteroid(id, p.radius, p.angle, Some(p.orbitSpeed), p.rotationSpeed,
             t.cos(p.angle) * p.radius, p.height, t.sin(p.angle) * p.radius, p.rx, p.ry, p.rz)
  }

  function AsteroidIds(asteroids: seq<Asteroid>): set<nat> {
    set j | 0 <= j < |asteroids| :: asteroids[j].id
  }

  /** `scene` after `count` new meshes with the ids from `first` on have been added. */
  function AddMeshes(scene: map<nat, Option<Cloud>>, first: nat, count: nat): (r: map<nat, Option<Cloud>>)
    ensures forall id :: id in r <==> id in scene || first <= id < first + count
    ensures forall id | id in r :: r[id] == if first <= id < first + count then None else scene[id]
  {
    if count == 0 then scene else AddMeshes(scene, first, count - 1)[first + count - 1 := None]
  }

  /** The entry `createBlackHole` adds: named, spinning at 0.01, at (-150, 10, -200), with its disk and glow meshes. */
  function BlackHole(id: nat): Body {
    Body(id, Some("blackhole"), -150.0, 10.0, -200.0, 0.0, None, None, Some(0.01), None, [Child(false, 0.0), Child(false, 0.0)])
  }

  // The info panel.

  const SunText: string := "<p>太阳系的中心恒星</p>"
  const BlackholeText: string := "<p>一个巨大的黑洞，极端的引力使得光线无法逃逸</p><p>周围环绕着由被撕裂的恒星物质组成的吸积盘</p>"
  const DistanceTag := CelestialBodies.Tag("<p>距太阳: ", " 单位</p>")
  const OrbitalSpeedTag := CelestialBodies.Tag("<p>公转速度: ", "</p>")
  const RotationSpeedTag := CelestialBodies.Tag("<p>自转速度: ", "</p>")

  /** A `userData` number in a template string: `undefined` when unset. */
  function ShowNumber(display: real -> string, x: Option<real>): string {
    if x.Some? then display(x.value) else "undefined"
  }

  /** `(x * 1000).toFixed(2)`: `NaN` when unset. */
  function ShowSpeed(toFixed2: real -> string, x: Option<real>): string {
    if x.Some? then toFixed2(x.value * 1000.0) else "NaN"
  }

  /** A truthy `userData.name`. */
  predicate Named(b: Body) {
    b.name.Some? && b.name.value != ""
  }

  /** The panel text of `showPlanetInfo` for a named body. */
  function PlanetInfoHtml(b: Body, display: real -> string, toFixed2: real -> string): string
    requires Named(b)
  {
    var name := b.name.value;
    CelestialBodies.Wrap(CelestialBodies.HeadingTag, Interactions.DisplayName(name))
    + (if name == "sun" then SunText
       else if name == "blackhole" then BlackholeText
       else CelestialBodies.Wrap(DistanceTag, ShowNumber(display, b.distance))
            + CelestialBodies.Wrap(OrbitalSpeedTag, ShowSpeed(toFixed2, b.orbitalSpeed))
            + CelestialBodies.Wrap(RotationSpeedTag, ShowSpeed(toFixed2, b.rotationSpeed)))
  }

  /** Appending three pieces one by one is appending their concatenation. */
  lemma AppendThree(a: string, b: string, c: string, d: string)
    ensures a + b + c + d == a + (b + c + d)
  {
  }

  /**
   * The body a click lands on: the first crossed object that is a value of
   * `planets` (no descendants are tested). The source tests object identity,
   * `planets[key] === object`; here bodies are records compared by value,
   * which is the same test because every object gets its own `id` from
   * `nextId` when it is created.
   */
  function ClickTarget(ps: map<string, Body>, crossed: seq<Body>): (r: Option<Body>)
    ensures r.Some? ==> r.value in ps.Values && r.value in crossed
    decreases |crossed|
  {
    if crossed == [] then None
    else if crossed[0] in ps.Values then Some(crossed[0])
    else ClickTarget(ps, crossed[1..])
  }

  /** The module globals of js/main.js. */
  /** A point of the scene, as `THREE.Vector3`. */
  datatype Vec3 = Vec3(x: real, y: real, z: real)

  /** The camera position and, when `OrbitControls` exist, their target. */
  class View {
    var camera: Vec3
    var target: Vec3
    /** Whether the `controls` global is set. */
    const hasControls: bool

    constructor (camera: Vec3, target: Vec3, hasControls: bool)
      ensures this.camera == camera && this.target == target && this.hasControls == hasControls
    {
      this.camera := camera;
      this.target := target;
      this.hasControls := hasControls;
    }
  }

  class Universe {
    var planets: map<string, Body>
    var asteroids: seq<Asteroid>
    var scene: map<nat, Option<Cloud>>
    /** The identity the next new object receives. */
    var nextId: nat
    var clock: Option<Clock>
    const math: Trig
    const panel: CelestialBodies.InfoPanel
    /** Number-to-string conversion of a template string. */
    const display: real -> string
    /** `Number.prototype.toFixed(2)`. */
    const toFixed2: real -> string
    /** The `camera` and `controls` globals. */
    const view: View

    /** Every identity in use was handed out before `nextId`. */
    ghost predicate Valid()
      reads this
    {
      && (forall name | name in planets :: planets[name].id < nextId)
      && (forall j | 0 <= j < |asteroids| :: asteroids[j].id < nextId)
      && (forall id | id in scene :: id < nextId)
    }

    constructor (math: Trig, panel: CelestialBodies.InfoPanel, display: real -> string, toFixed2: real -> string, view: View)
      ensures Valid()
      ensures planets == map[] && asteroids == [] && scene == map[] && clock == None
      ensures this.math == math && this.panel == panel && this.display == display && this.toFixed2 == toFixed2
      ensures this.view == view
    {
      planets := map[];
      asteroids := [];
      scene := map[];
      nextId := 0;
      clock := None;
      this.math := math;
      this.panel := panel;
      this.display := display;
      this.toFixed2 := toFixed2;
      this.view := view;
    }

    /** `updateScene(delta)`: the sun glow and spin, the planets, the asteroids, then the point clouds. */
    method UpdateScene(delta: real)
      requires Valid()
      modifies this
      ensures Valid()
      ensures planets == StepPlanets(math, old(planets), delta)
      ensures asteroids == StepAsteroids(math, old(asteroids), delta)
      ensures scene == StepScene(math, old(scene), delta)
      ensures nextId == old(nextId) && clock == old(clock)
    {
      if "sun" in planets && planets["sun"].glow.Some? {
        var sun := planets["sun"];
        var glow := PulseGlow(math, sun.glow.value, delta);
        planets := planets["sun" := sun.(glow := Some(glow), spin := sun.spin + 0.003 * delta)];
      }
      ghost var mid := planets;
      assert forall k | k in mid && k != "sun" :: mid[k] == old(planets)[k];
      assert "sun" in mid ==> mid["sun"] == StepSun(math, old(planets)["sun"], delta);
      UpdatePlanets(delta);
      SunThenPlanets(math, old(planets), mid, planets, delta);
      UpdateAsteroids(delta);
      UpdateClouds(delta);
    }

    /** The sun's step followed by every other planet's step is `StepPlanets`. */
    static lemma SunThenPlanets(t: Trig, ps: map<string, Body>, mid: map<string, Body>, after: map<string, Body>, delta: real)
      requires mid.Keys == ps.Keys
      requires forall k | k in mid && k != "sun" :: mid[k] == ps[k]
      requires "sun" in mid ==> mid["sun"] == StepSun(t, ps["sun"], delta)
      requires after.Keys == mid.Keys
      requires forall k | k in after :: after[k] == if k == "sun" then mid[k] else StepPlanet(t, mid[k], delta)
      ensures after == StepPlanets(t, ps, delta)
    {
    }

    /** The glow block of `updateScene`: advance the phase, then size and fade both layers by the pulse. */
    static method PulseGlow(math: Trig, glow: Glow, delta: real) returns (next: Glow)
      ensures next == StepGlow(math, glow, delta)
    {
      next := glow.(pulseFactor := glow.pulseFactor + glow.pulseSpeed * delta);
      var pulse := 0.7 + 0.3 * math.sin(next.pulseFactor);
      if next.layered {
        next := next.(outerScale := pulse, innerScale := pulse * 0.95, outerOpacity := 0.3 * pulse, innerOpacity := 0.5 * pulse);
      }
    }

    /** The `forEach` over the planets other than the sun. */
    method UpdatePlanets(delta: real)
      modifies this
      ensures planets.Keys == old(planets).Keys
      ensures forall k | k in planets ::
        planets[k] == if k == "sun" then old(planets)[k] else StepPlanet(math, old(planets)[k], delta)
      ensures asteroids == old(asteroids) && scene == old(scene) && nextId == old(nextId) && clock == old(clock)
    {
      var names := planets.Keys;
      while names != {}
        invariant names <= planets.Keys && planets.Keys == old(planets).Keys
        invariant asteroids == old(asteroids) && scene == old(scene) && nextId == old(nextId) && clock == old(clock)
        invariant forall k | k in planets ::
          planets[k] == (if k == "sun" || k in names then old(planets)[k] else StepPlanet(math, old(planets)[k], delta))
        decreases names
      {
        var name :| name in names;
        if name != "sun" {
          var planet := AdvancePlanet(math, planets[name], delta);
          planets := planets[name := planet];
        }
        names := names - {name};
      }
    }

    /** The body of the planet `forEach` for one planet. */
    static method AdvancePlanet(math: Trig, planet: Body, delta: real) returns (next: Body)
      ensures next == StepPlanet(math, planet, delta)
    {
      next := planet;
      if Truthy(planet.orbitalSpeed) {
        var angle := planet.orbitalSpeed.value * delta;
        var x, z := planet.x, planet.z;
        next := next.(x := x * math.cos(angle) - z * math.sin(angle), z := x * math.sin(angle) + z * math.cos(angle));
        OrbitWhenMoving(math, planet, delta);
      }
      assert Point(next.x, next.z) == Orbit(math, planet, delta);
      if Truthy(planet.rotationSpeed) {
        next := next.(spin := next.spin + planet.rotationSpeed.value * delta);
      }
      var children := planet.children;
      for i := 0 to |children|
        invariant |children| == |planet.children|
        invariant forall j | 0 <= j < i :: children[j] == SpinChild(planet.children[j], delta)
        invariant forall j | i <= j < |children| :: children[j] == planet.children[j]
      {
        if children[i].isGroup {
          children := children[i := children[i].(spin := children[i].spin + 0.02 * delta)];
        }
      }
      next := next.(children := children);
      assert children == StepPlanet(math, planet, delta).children;
    }

    /** The `forEach` over `asteroids`. */
    method UpdateAsteroids(delta: real)
      modifies this
      ensures asteroids == StepAsteroids(math, old(asteroids), delta)
      ensures planets == old(planets) && scene == old(scene) && nextId == old(nextId) && clock == old(clock)
    {
      for i := 0 to |asteroids|
        invariant |asteroids| == |old(asteroids)|
        invariant forall j | 0 <= j < i :: asteroids[j] == StepAsteroid(math, old(asteroids)[j], delta)
        invariant forall j | i <= j < |asteroids| :: asteroids[j] == old(asteroids)[j]
        invariant planets == old(planets) && scene == old(scene) && nextId == old(nextId) && clock == old(clock)
      {
        var a := AdvanceAsteroid(math, asteroids[i], delta);
        ghost var prev := asteroids;
        asteroids := asteroids[i := a];
        forall j | 0 <= j < i + 1
          ensures asteroids[j] == StepAsteroid(math, old(asteroids)[j], delta)
        {
          if j < i {
            assert asteroids[j] == prev[j];
          }
        }
      }
    }

    /** The body of the asteroid `forEach` for one asteroid. */
    static method AdvanceAsteroid(math: Trig, asteroid: Asteroid, delta: real) returns (next: Asteroid)
      ensures next == StepAsteroid(math, asteroid, delta)
    {
      next := asteroid;
      if Truthy(asteroid.orbitSpeed) {
        var angle := asteroid.orbitAngle + asteroid.orbitSpeed.value * delta;
        next := next.(orbitAngle := angle, x := math.cos(angle) * asteroid.orbitRadius, z := math.sin(angle) * asteroid.orbitRadius);
        next := next.(rx := asteroid.rx + asteroid.rotationSpeed * delta * 0.2, ry := asteroid.ry + asteroid.rotationSpeed * delta,
                      rz := asteroid.rz + asteroid.rotationSpeed * delta * 0.3);
      }
    }

    /** The `forEach` over `scene.children`, which touches only the point clouds. */
    method UpdateClouds(delta: real)
      modifies this
      ensures scene == StepScene(math, old(scene), delta)
      ensures planets == old(planets) && asteroids == old(asteroids) && nextId == old(nextId) && clock == old(clock)
    {
      var ids := scene.Keys;
      while ids != {}
        invariant ids <= scene.Keys && scene.Keys == old(scene).Keys
        invariant planets == old(planets) && asteroids == old(asteroids) && nextId == old(nextId) && clock == old(clock)
        invariant forall id | id in scene ::
          scene[id] == (if id in ids then old(scene)[id] else StepCloud(math, old(scene)[id], delta))
        decreases ids
      {
        var id :| id in ids;
        var child := scene[id];
        if child.Some? && Truthy(child.value.rotationSpeed) {
          var c := child.value;
          c := c.(spin := c.spin + c.rotationSpeed.value * delta);
          if Truthy(c.pulseSpeed) {
            c := c.(pulsePhase := c.pulsePhase + c.pulseSpeed.value * delta);
            c := c.(scale := 0.8 + 0.2 * math.sin(c.pulsePhase));
          }
          scene := scene[id := Some(c)];
        }
        ids := ids - {id};
      }
    }

    /** One tick of `animate` at time `now` (ms): the frame delta, then `updateScene`. */
    method Animate(now: real)
      requires Valid()
      modifies this
      ensures Valid()
      ensures clock == (if old(clock).Some? then Some(Clock(true, now)) else None)
      ensures planets == StepPlanets(math, old(planets), FrameDelta(old(clock), now))
      ensures asteroids == StepAsteroids(math, old(asteroids), FrameDelta(old(clock), now))
      ensures scene == StepScene(math, old(scene), FrameDelta(old(clock), now))
      ensures nextId == old(nextId)
    {
      var delta := 0.1;
      if clock.Some? {
        var reading := GetDelta(clock.value, now);
        clock := Some(reading.0);
        delta := reading.1 * 10.0;
      }
      UpdateScene(delta);
    }

    /**
     * `createAsteroidBelt`: every earlier asteroid leaves the scene and the
     * list, and one new asteroid per placement joins both.
     */
    method CreateAsteroidBelt(placements: seq<Placement>, minRadius: real, maxRadius: real)
      requires Valid()
      requires forall p | p in placements :: Drawn(p, minRadius, maxRadius)
      modifies this
      ensures Valid()
      ensures |asteroids| == |placements|
      ensures forall i | 0 <= i < |asteroids| :: Truthy(asteroids[i].orbitSpeed) && minRadius <= asteroids[i].orbitRadius <= maxRadius
      ensures forall i | 0 <= i < |placements| :: asteroids[i] == Placed(math, placements[i], old(nextId) + i)
      ensures scene == AddMeshes(old(scene) - AsteroidIds(old(asteroids)), old(nextId), |placements|)
      ensures forall a | a in old(asteroids) :: a.id !in scene
      ensures nextId == old(nextId) + |placements|
      ensures planets == old(planets) && clock == old(clock)
    {
      var i := |asteroids|;
      while i > 0
        invariant 0 <= i <= |asteroids|
        invariant scene == old(scene) - (set j | i <= j < |asteroids| :: asteroids[j].id)
        invariant asteroids == old(asteroids) && nextId == old(nextId) && planets == old(planets) && clock == old(clock)
        decreases i
      {
        i := i - 1;
        assert (set j | i <= j < |asteroids| :: asteroids[j].id) == {asteroids[i].id} + (set j | i + 1 <= j < |asteroids| :: asteroids[j].id);
        scene := scene - {asteroids[i].id};
      }
      ghost var cleared := scene;
      assert cleared == old(scene) - AsteroidIds(old(asteroids));
      asteroids := [];
      for k := 0 to |placements|
        invariant |asteroids| == k && nextId == old(nextId) + k
        invariant forall m | 0 <= m < k :: asteroids[m] == Placed(math, placements[m], old(nextId) + m)
        invariant scene == AddMeshes(cleared, old(nextId), k)
        invariant planets == old(planets) && clock == old(clock)
      {
        var p := placements[k];
        var asteroid := Asteroid(nextId, p.radius, p.angle, Some(p.orbitSpeed), p.rotationSpeed,
                                 math.cos(p.angle) * p.radius, p.height, math.sin(p.angle) * p.radius, p.rx, p.ry, p.rz);
        assert asteroid == Placed(math, p, old(nextId) + k);
        assert AddMeshes(cleared, old(nextId), k + 1) == scene[nextId := None];
        scene := scene[nextId := None];
        ghost var prev := asteroids;
        asteroids := asteroids + [asteroid];
        forall m | 0 <= m < k + 1
          ensures asteroids[m] == Placed(math, placements[m], old(nextId) + m)
        {
          if m < k {
            assert asteroids[m] == prev[m];
          }
        }
        nextId := nextId + 1;
      }
      forall m | 0 <= m < |asteroids|
        ensures Truthy(asteroids[m].orbitSpeed) && minRadius <= asteroids[m].orbitRadius <= maxRadius
      {
        DrawnMoves(math, placements[m], old(nextId) + m, minRadius, maxRadius);
      }
    }

    /**
     * `createBlackHole`: an existing black hole leaves the scene and
     * `planets`, and a new one takes its place in both.
     */
    method CreateBlackHole()
      requires Valid()
      modifies this
      ensures Valid()
      ensures planets == old(planets)["blackhole" := BlackHole(old(nextId))]
      ensures scene == (if "blackhole" in old(planets) then old(scene) - {old(planets)["blackhole"].id} else old(scene))[old(nextId) := None]
      ensures "blackhole" in old(planets) ==> old(planets)["blackhole"].id !in scene
      ensures nextId == old(nextId) + 1 && asteroids == old(asteroids) && clock == old(clock)
    {
      if "blackhole" in planets {
        scene := scene - {planets["blackhole"].id};
        planets := planets - {"blackhole"};
      }
      var blackhole := BlackHole(nextId);
      scene := scene[nextId := None];
      planets := planets["blackhole" := blackhole];
      nextId := nextId + 1;
    }

    /**
     * The black-hole preset button: a black hole is created only when there
     * is none; then the camera moves to 5 above and 30 in front of it, and
     * the controls, when present, aim at it.
     */
    method PresetBlackhole()
      requires Valid()
      modifies this, view
      ensures Valid()
      ensures "blackhole" in planets
      ensures "blackhole" in old(planets) ==> planets == old(planets) && scene == old(scene) && nextId == old(nextId)
      ensures "blackhole" !in old(planets) ==>
        && planets == old(planets)["blackhole" := BlackHole(old(nextId))]
        && scene == old(scene)[old(nextId) := None]
        && nextId == old(nextId) + 1
      ensures asteroids == old(asteroids) && clock == old(clock)
      ensures var b := planets["blackhole"];
        && view.camera == Vec3(b.x, b.y + 5.0, b.z + 30.0)
        && view.target == if view.hasControls then Vec3(b.x, b.y, b.z) else old(view.target)
    {
      if "blackhole" !in planets {
        CreateBlackHole();
      }
      if "blackhole" in planets {
        var pos := planets["blackhole"];
        view.camera := Vec3(pos.x, pos.y + 5.0, pos.z + 30.0);
        if view.hasControls {
          view.target := Vec3(pos.x, pos.y, pos.z);
        }
      }
    }

    /** `showPlanetInfo`: nothing for an unnamed object; otherwise the body's heading and lines. */
    method ShowPlanetInfo(b: Body)
      modifies panel
      ensures panel.innerHTML == if Named(b) then PlanetInfoHtml(b, display, toFixed2) else old(panel.innerHTML)
    {
      if !Named(b) {
        return;
      }
      var name := b.name.value;
      var html := CelestialBodies.Wrap(CelestialBodies.HeadingTag, Interactions.DisplayName(name));
      if name == "sun" {
        html := html + SunText;
      } else if name == "blackhole" {
        html := html + BlackholeText;
      } else {
        html := html + CelestialBodies.Wrap(DistanceTag, ShowNumber(display, b.distance));
        html := html + CelestialBodies.Wrap(OrbitalSpeedTag, ShowSpeed(toFixed2, b.orbitalSpeed));
        html := html + CelestialBodies.Wrap(RotationSpeedTag, ShowSpeed(toFixed2, b.rotationSpeed));
        AppendThree(CelestialBodies.Wrap(CelestialBodies.HeadingTag, Interactions.DisplayName(name)),
          CelestialBodies.Wrap(DistanceTag, ShowNumber(display, b.distance)),
          CelestialBodies.Wrap(OrbitalSpeedTag, ShowSpeed(toFixed2, b.orbitalSpeed)),
          CelestialBodies.Wrap(RotationSpeedTag, ShowSpeed(toFixed2, b.rotationSpeed)));
      }
      panel.innerHTML := html;
    }

    /** The window click handler: the info of the first crossed entry of `planets`, if any. */
    method OnClick(crossed: seq<Body>)
      modifies panel
      ensures match ClickTarget(planets, crossed)
        case Some(b) => panel.innerHTML == (if Named(b) then PlanetInfoHtml(b, display, toFixed2) else old(panel.innerHTML))
        case None => panel.innerHTML == old(panel.innerHTML)
    {
      var planetObjects := planets.Values;
      var i := 0;
      while i < |crossed| && crossed[i] !in planetObjects
        invariant 0 <= i <= |crossed|
        invariant ClickTarget(planets, crossed) == ClickTarget(planets, crossed[i..])
        decreases |crossed| - i
      {
        assert crossed[i..][1..] == crossed[i + 1..];
        i := i + 1;
      }
      if i < |crossed| {
        ShowPlanetInfo(crossed[i]);
      }
    }
  }

  // Properties of a frame.

  /** The sun never orbits; it spins by 0.003 per unit of time exactly when it has a glow, and the glow pulses. */
  lemma SunOnlySpins(t: Trig, ps: map<string, Body>, delta: real)
    requires "sun" in ps
    ensures var s := StepPlanets(t, ps, delta)["sun"];
      && s.x == ps["sun"].x && s.y == ps["sun"].y && s.z == ps["sun"].z
      && s.spin == (if ps["sun"].glow.Some? then ps["sun"].spin + 0.003 * delta else ps["sun"].spin)
      && (ps["sun"].glow.Some? ==> s.glow.Some? && s.glow.value.pulseFactor == ps["sun"].glow.value.pulseFactor + ps["sun"].glow.value.pulseSpeed * delta)
  {
  }

  /**
   * A planet's step keeps it on its circle around the sun and at its height;
   * with a falsy speed it stays where it is; its spin grows by
   * `rotationSpeed * delta` when that is truthy; only group children spin, by 0.02.
   */
  lemma PlanetStep(t: Trig, b: Body, delta: real)
    requires Lawful(t)
    ensures var n := StepPlanet(t, b, delta);
      && Norm2(Point(n.x, n.z)) == Norm2(Point(b.x, b.z)) && n.y == b.y
      && (!Truthy(b.orbitalSpeed) ==> n.x == b.x && n.z == b.z)
      && n.spin == (if Truthy(b.rotationSpeed) then b.spin + b.rotationSpeed.value * delta else b.spin)
      && |n.children| == |b.children|
      && forall i | 0 <= i < |b.children| ::
           n.children[i].spin == b.children[i].spin + (if b.children[i].isGroup then 0.02 * delta else 0.0)
  {
    if Truthy(b.orbitalSpeed) {
      OrbitWhenMoving(t, b, delta);
      RotateKeepsNorm(t, Point(b.x, b.z), Angle(b.orbitalSpeed.value, delta));
    }
  }

  /** Only the sun is exempt from the planet step; every other entry takes it. */
  lemma StepPlanetsByName(t: Trig, ps: map<string, Body>, delta: real)
    ensures StepPlanets(t, ps, delta).Keys == ps.Keys
    ensures forall name | name in ps && name != "sun" :: StepPlanets(t, ps, delta)[name] == StepPlanet(t, ps[name], delta)
  {
  }

  /** An asteroid on its circle stays on it, at its height and radius. */
  lemma AsteroidStaysOnCircle(t: Trig, a: Asteroid, delta: real)
    requires Lawful(t) && OnCircle(t, a)
    ensures var n := StepAsteroid(t, a, delta);
      && OnCircle(t, n) && n.y == a.y && n.orbitRadius == a.orbitRadius
      && Norm2(Point(n.x, n.z)) == a.orbitRadius * a.orbitRadius
      && (Truthy(a.orbitSpeed) ==> n.orbitAngle == a.orbitAngle + a.orbitSpeed.value * delta)
  {
    var n := StepAsteroid(t, a, delta);
    var c, s, r := t.cos(n.orbitAngle), t.sin(n.orbitAngle), a.orbitRadius;
    assert s * s + c * c == 1.0;
    calc {
      Norm2(Point(n.x, n.z));
      (c * r) * (c * r) + (s * r) * (s * r);
      (c * c + s * s) * (r * r);
      r * r;
    }
  }

  /** A new asteroid starts on its circle. */
  lemma PlacedOnCircle(t: Trig, p: Placement, id: nat)
    ensures OnCircle(t, Placed(t, p, id)) && Placed(t, p, id).y == p.height && Truthy(Placed(t, p, id).orbitSpeed) == (p.orbitSpeed != 0.0)
  {
  }

  /** A drawn asteroid starts in the radius range with a truthy orbit speed, so every frame moves it. */
  lemma DrawnMoves(t: Trig, p: Placement, id: nat, minRadius: real, maxRadius: real)
    requires Drawn(p, minRadius, maxRadius)
    ensures var a := Placed(t, p, id);
      && Truthy(a.orbitSpeed) && minRadius <= a.orbitRadius <= maxRadius
      && -1.0 <= a.y <= 1.0 && 0.01 <= a.rotationSpeed <= 0.06
  {
  }

  /** The asteroid after the frames `deltas`. */
  function RunAsteroid(t: Trig, a: Asteroid, deltas: seq<real>): Asteroid
    decreases |deltas|
  {
    if deltas == [] then a else RunAsteroid(t, StepAsteroid(t, a, deltas[0]), deltas[1..])
  }

  /** Over any frames, a moving asteroid's angle grows by its speed times the total time; its speed never changes. */
  lemma {:induction false} AsteroidAngleAccumulates(t: Trig, a: Asteroid, deltas: seq<real>)
    requires Truthy(a.orbitSpeed)
    ensures RunAsteroid(t, a, deltas).orbitSpeed == a.orbitSpeed
    ensures RunAsteroid(t, a, deltas).orbitAngle == Accumulate(a.orbitAngle, a.orbitSpeed.value, deltas)
    ensures RunAsteroid(t, a, deltas).orbitAngle == a.orbitAngle + a.orbitSpeed.value * Total(deltas)
    decreases |deltas|
  {
    if deltas != [] {
      AsteroidAngleAccumulates(t, StepAsteroid(t, a, deltas[0]), deltas[1..]);
    }
    AccumulateIsLinear(a.orbitAngle, a.orbitSpeed.value, deltas);
  }

  /** The glow pulse stays in [0.4, 1], so the layers' opacities stay in [0.12, 0.3] and [0.2, 0.5]. */
  lemma GlowBounds(t: Trig, g: Glow, delta: real)
    requires Lawful(t) && g.layered
    ensures var n := StepGlow(t, g, delta);
      && 0.4 <= n.outerScale <= 1.0 && n.innerScale == n.outerScale * 0.95
      && 0.12 <= n.outerOpacity <= 0.3 && 0.2 <= n.innerOpacity <= 0.5
  {
    SinBounded(t, g.pulseFactor + g.pulseSpeed * delta);
  }

  /** A pulsing cloud's scale stays in [0.6, 1]. */
  lemma CloudScaleBounds(t: Trig, c: Cloud, delta: real)
    requires Lawful(t) && Truthy(c.rotationSpeed) && Truthy(c.pulseSpeed)
    ensures var n := StepCloud(t, Some(c), delta);
      n.Some? && 0.6 <= n.value.scale <= 1.0 && n.value.spin == c.spin + c.rotationSpeed.value * delta
  {
    SinBounded(t, c.pulsePhase + c.pulseSpeed.value * delta);
  }

  /** The click lands on the first crossed entry of `planets`: all before it are not entries; with none, no crossed object is. */
  lemma {:induction false} ClickTargetIsFirst(ps: map<string, Body>, crossed: seq<Body>)
    ensures ClickTarget(ps, crossed).Some? ==>
      exists k | 0 <= k < |crossed| :: crossed[k] == ClickTarget(ps, crossed).value && forall j | 0 <= j < k :: crossed[j] !in ps.Values
    ensures ClickTarget(ps, crossed).None? ==> forall j | 0 <= j < |crossed| :: crossed[j] !in ps.Values
    decreases |crossed|
  {
    if crossed != [] && crossed[0] !in ps.Values {
      ClickTargetIsFirst(ps, crossed[1..]);
      if ClickTarget(ps, crossed).Some? {
        var k :| 0 <= k < |crossed[1..]| && crossed[1..][k] == ClickTarget(ps, crossed).value
          && forall j | 0 <= j < k :: crossed[1..][j] !in ps.Values;
        assert crossed[k + 1] == ClickTarget(ps, crossed).value;
        forall j | 0 <= j < k + 1 ensures crossed[j] !in ps.Values {
          if j > 0 {
            assert crossed[j] == crossed[1..][j - 1];
          }
        }
      } else {
        forall j | 0 <= j < |crossed| ensures crossed[j] !in ps.Values {
          if j > 0 {
            assert crossed[j] == crossed[1..][j - 1];
          }
        }
      }
    } else if crossed != [] {
      assert crossed[0] == ClickTarget(ps, crossed).value;
    }
  }

  /**
   * The panel lines by body: the sun and the black hole have their own
   * text; any other named body shows its distance and both speeds, under its
   * Chinese name when it has one and under its raw name otherwise.
   */
  lemma PlanetInfoByName(b: Body, display: real -> string, toFixed2: real -> string)
    requires Named(b)
    ensures b.name.value == "sun" ==> PlanetInfoHtml(b, display, toFixed2) == "<h3>太阳</h3>" + SunText
    ensures b.name.value == "blackhole" ==> PlanetInfoHtml(b, display, toFixed2) == "<h3>黑洞</h3>" + BlackholeText
    ensures b.name.value !in Interactions.CelestialNames() ==>
      PlanetInfoHtml(b, display, toFixed2) ==
        "<h3>" + b.name.value + "</h3>"
        + CelestialBodies.Wrap(DistanceTag, ShowNumber(display, b.distance))
        + CelestialBodies.Wrap(OrbitalSpeedTag, ShowSpeed(toFixed2, b.orbitalSpeed))
        + CelestialBodies.Wrap(RotationSpeedTag, ShowSpeed(toFixed2, b.rotationSpeed))
  {
    var name := b.name.value;
    if name !in Interactions.CelestialNames() {
      assert "sun" in Interactions.CelestialNames() && "blackhole" in Interactions.CelestialNames();
      assert name != "sun" && name != "blackhole";
      AppendThree(CelestialBodies.Wrap(CelestialBodies.HeadingTag, name),
        CelestialBodies.Wrap(DistanceTag, ShowNumber(display, b.distance)),
        CelestialBodies.Wrap(OrbitalSpeedTag, ShowSpeed(toFixed2, b.orbitalSpeed)),
        CelestialBodies.Wrap(RotationSpeedTag, ShowSpeed(toFixed2, b.rotationSpeed)));
    }
  }
}
