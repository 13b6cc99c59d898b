/**
 * The improved scene of js/main-improved.js: the per-frame updater with its
 * pause gate and time scale, the frame clock, the pause toggle, and the click
 * handler that walks from a hit mesh up to the nearest named ancestor.
 */
module MainImproved {
  import opened Base
  import opened Trig
  import opened SceneGraph
  import opened Clocks
  import CelestialBodies

  /** How `updateScene` treats a child of a planet group, by its class. */
  datatype ChildKind = MeshChild | GroupChild | OtherChild

  /** A child of a planet group; `spin` is its `rotation.y`. */
  datatype Child = Child(kind: ChildKind, spin: real)

  /**
   * An entry of `planets`: the sun mesh or a planet group. `spin` is the
   * entry's own `rotation.y`, `orbitalSpeed` its `userData.orbitalSpeed`.
   */
  datatype Body = Body(x: real, y: real, z: real, spin: real, orbitalSpeed: Option<real>, children: seq<Child>)

  /** The rate at which each kind of child spins, per unit of scaled time. */
  function ChildRate(kind: ChildKind): real {
    match kind
    case MeshChild => 0.01
    case GroupChild => 0.02
    case OtherChild => 0.0
  }

  function SpinChild(c: Child, sd: real): Child {
    c.(spin := c.spin + ChildRate(c.kind) * sd)
  }

  /** The sun only spins, by 0.003 per unit of scaled time. */
  function StepSun(b: Body, sd: real): Body {
    b.(spin := b.spin + 0.003 * sd)
  }

  /** A planet's (x, z) turned by `orbitalSpeed * sd` when the speed is truthy. */
  function Orbit(t: Trig, b: Body, sd: real): Point {
    if Truthy(b.orbitalSpeed) then Rotate(t, Point(b.x, b.z), Angle(b.orbitalSpeed.value, sd))
    else Point(b.x, b.z)
  }

  lemma OrbitWhenMoving(t: Trig, b: Body, sd: real)
    requires Truthy(b.orbitalSpeed)
    ensures Orbit(t, b, sd) == Rotate(t, Point(b.x, b.z), Angle(b.orbitalSpeed.value, sd))
  {
  }

  /** One frame of a planet: the orbit step, then every child spun by its rate. */
  function StepPlanet(t: Trig, b: Body, sd: real): Body {
    var p := Orbit(t, b, sd);
    b.(x := p.x, z := p.z, children := seq(|b.children|, i requires 0 <= i < |b.children| => SpinChild(b.children[i], sd)))
  }

  /** One frame of every entry of `planets`, with scaled time `sd`. */
  function StepAll(t: Trig, ps: map<string, Body>, sd: real): map<string, Body> {
    map name | name in ps :: if name == "sun" then StepSun(ps[name], sd) else StepPlanet(t, ps[name], sd)
  }

  /** What `updateScene(delta)` makes of `planets`. */
  function Frame(t: Trig, ps: map<string, Body>, paused: bool, timeScale: real, delta: real): map<string, Body> {
    if paused then ps else StepAll(t, ps, delta * timeScale)
  }

  /** The module globals of js/main-improved.js that the handlers and the frame loop share. */
  class SolarSystem {
    var planets: map<string, Body>
    var isPaused: bool
    var timeScale: real
    var clock: Option<Clock>
    const math: Trig
    const panel: CelestialBodies.InfoPanel
    const fmt: real -> string
    /** The `celestialData` table the info panel reads. */
    const data: map<string, CelestialBodies.BodyRecord>

    constructor (planets: map<string, Body>, math: Trig, panel: CelestialBodies.InfoPanel, fmt: real -> string)
      ensures this.planets == planets && !isPaused && timeScale == 1.0 && clock == Some(Clock(false, 0.0))
      ensures this.math == math && this.panel == panel && this.fmt == fmt
      ensures data == CelestialBodies.CelestialData()
    {
      this.planets := planets;
      isPaused := false;
      timeScale := 1.0;
      clock := Some(Clock(false, 0.0));
      this.math := math;
      this.panel := panel;
      this.fmt := fmt;
      data := CelestialBodies.CelestialData();
    }

    /** `updateScene(delta)`: nothing while paused; otherwise every entry advanced by `delta * timeScale`. */
    method UpdateScene(delta: real)
      modifies this
      ensures planets == Frame(math, old(planets), old(isPaused), old(timeScale), delta)
      ensures isPaused == old(isPaused) && timeScale == old(timeScale) && clock == old(clock)
    {
      if isPaused {
        return;
      }
      var sd := delta * timeScale;
      if "sun" in planets {
        planets := planets["sun" := StepSun(planets["sun"], sd)];
      }
      var names := planets.Keys;
      while names != {}
        invariant names <= planets.Keys && planets.Keys == old(planets).Keys
        invariant isPaused == old(isPaused) && timeScale == old(timeScale) && clock == old(clock)
        invariant forall k | k in planets ::
          planets[k] == (if k == "sun" then StepSun(old(planets)[k], sd)
                         else if k in names then old(planets)[k]
                         else StepPlanet(math, old(planets)[k], sd))
        decreases names
      {
        var name :| name in names;
        if name != "sun" {
          var planet := AdvancePlanet(math, planets[name], sd);
          planets := planets[name := planet];
        }
        names := names - {name};
      }
      assert planets == StepAll(math, old(planets), sd);
    }

    /** The body of the `forEach` in `updateScene` for one planet. */
    static method AdvancePlanet(math: Trig, planet: Body, sd: real) returns (next: Body)
      ensures next == StepPlanet(math, planet, sd)
    {
      next := planet;
      if Truthy(planet.orbitalSpeed) {
        var angle := planet.orbitalSpeed.value * sd;
        var x, z := planet.x, planet.z;
        next := next.(x := x * math.cos(angle) - z * math.sin(angle), z := x * math.sin(angle) + z * math.cos(angle));
        OrbitWhenMoving(math, planet, sd);
      }
      assert Point(next.x, next.z) == Orbit(math, planet, sd);
      var children := planet.children;
      for i := 0 to |children|
        invariant |children| == |planet.children|
        invariant forall j | 0 <= j < i :: children[j] == SpinChild(planet.children[j], sd)
        invariant forall j | i <= j < |children| :: children[j] == planet.children[j]
      {
        children := children[i := SpinChild(children[i], sd)];
      }
      next := next.(children := children);
      assert children == StepPlanet(math, planet, sd).children;
    }

    /** One tick of `animate` at time `now` (ms): read the clock, then `updateScene`. */
    method Animate(now: real)
      modifies this
      ensures clock == (if old(clock).Some? then Some(Clock(true, now)) else None)
      ensures planets == Frame(math, old(planets), old(isPaused), old(timeScale), FrameDelta(old(clock), now))
      ensures isPaused == old(isPaused) && timeScale == old(timeScale)
    {
      var delta := 0.1;
      if clock.Some? {
        var reading := GetDelta(clock.value, now);
        clock := Some(reading.0);
        delta := reading.1 * 10.0;
      }
      UpdateScene(delta);
    }

    /** The time-speed slider's input handler. */
    method SetTimeScale(value: real)
      modifies this
      ensures timeScale == value
      ensures planets == old(planets) && isPaused == old(isPaused) && clock == old(clock)
    {
      timeScale := value;
    }

    /**
     * The pause button: flips `isPaused`; on resume the clock is read and the
     * reading thrown away, so the paused interval never reaches a frame.
     */
    method TogglePause(now: real)
      modifies this
      ensures isPaused == !old(isPaused)
      ensures clock == (if isPaused || old(clock).None? then old(clock) else Some(Clock(true, now)))
      ensures planets == old(planets) && timeScale == old(timeScale)
    {
      isPaused := !isPaused;
      if !isPaused && clock.Some? {
        var reading := GetDelta(clock.value, now);
        clock := Some(reading.0);
      }
    }

    /** The window click handler: shows the body the first resolvable hit belongs to. */
    method OnClick(f: Forest, hits: seq<NodeId>)
      requires WellFormed(f) && forall i | 0 <= i < |hits| :: hits[i] in f
      modifies panel
      ensures FirstPick(f, hits).Some? ==> panel.innerHTML == CelestialBodies.PanelHtml(data, f[FirstPick(f, hits).value].name.value, fmt)
      ensures FirstPick(f, hits).None? ==> panel.innerHTML == old(panel.innerHTML)
    {
      var selected := ResolvePick(f, hits);
      if selected.Some? {
        CelestialBodies.UpdateInfoPanel(panel, data, f[selected.value].name.value, fmt);
      }
    }
  }

  // Properties of a frame.

  /** The orbit step keeps a planet at its distance from the sun and at its height. */
  lemma StepPlanetKeepsOrbit(t: Trig, b: Body, sd: real)
    requires Lawful(t)
    ensures Norm2(Point(StepPlanet(t, b, sd).x, StepPlanet(t, b, sd).z)) == Norm2(Point(b.x, b.z))
    ensures StepPlanet(t, b, sd).y == b.y
  {
    if Truthy(b.orbitalSpeed) {
      RotateKeepsNorm(t, Point(b.x, b.z), Angle(b.orbitalSpeed.value, sd));
    }
  }

  /** A planet whose `orbitalSpeed` is 0 or absent keeps its position; only its children turn. */
  lemma StationaryWithoutSpeed(t: Trig, b: Body, sd: real)
    requires !Truthy(b.orbitalSpeed)
    ensures StepPlanet(t, b, sd).x == b.x && StepPlanet(t, b, sd).y == b.y && StepPlanet(t, b, sd).z == b.z
    ensures StepPlanet(t, b, sd).spin == b.spin
  {
  }

  /** The sun is never orbited: its position is unchanged by a frame, and its spin grows by 0.003 per unit of scaled time. */
  lemma SunNeverOrbits(t: Trig, ps: map<string, Body>, sd: real)
    requires "sun" in ps
    ensures "sun" in StepAll(t, ps, sd)
    ensures StepAll(t, ps, sd)["sun"].x == ps["sun"].x && StepAll(t, ps, sd)["sun"].z == ps["sun"].z
    ensures StepAll(t, ps, sd)["sun"].spin == ps["sun"].spin + 0.003 * sd
  {
  }

  /** Mesh children turn by 0.01 and Group children by 0.02 per unit of scaled time; other children stay. */
  lemma ChildrenSpinRates(t: Trig, b: Body, sd: real)
    ensures |StepPlanet(t, b, sd).children| == |b.children|
    ensures forall i | 0 <= i < |b.children| ::
      StepPlanet(t, b, sd).children[i].kind == b.children[i].kind
      && (b.children[i].kind == MeshChild ==> StepPlanet(t, b, sd).children[i].spin == b.children[i].spin + 0.01 * sd)
      && (b.children[i].kind == GroupChild ==> StepPlanet(t, b, sd).children[i].spin == b.children[i].spin + 0.02 * sd)
      && (b.children[i].kind == OtherChild ==> StepPlanet(t, b, sd).children[i] == b.children[i])
  {
  }

  /** A planet frame of d1 followed by one of d2 is a frame of d1 + d2. */
  lemma StepPlanetChunks(t: Trig, b: Body, d1: real, d2: real)
    requires Lawful(t)
    ensures StepPlanet(t, StepPlanet(t, b, d1), d2) == StepPlanet(t, b, d1 + d2)
  {
    var b1 := StepPlanet(t, b, d1);
    if Truthy(b.orbitalSpeed) {
      OrbitChunks(t, b, b1, d1, d2);
    }
    assert Orbit(t, b1, d2) == Orbit(t, b, d1 + d2);
    var lhs := StepPlanet(t, b1, d2);
    var rhs := StepPlanet(t, b, d1 + d2);
    forall i | 0 <= i < |b.children|
      ensures lhs.children[i] == rhs.children[i]
    {
      var rate := ChildRate(b.children[i].kind);
      assert rate * d1 + rate * d2 == rate * (d1 + d2);
    }
    assert lhs.children == rhs.children;
  }

  /** The orbit step of d2 applied to a planet already turned by d1 turns it by d1 + d2. */
  lemma OrbitChunks(t: Trig, b: Body, b1: Body, d1: real, d2: real)
    requires Lawful(t) && Truthy(b.orbitalSpeed)
    requires b1.orbitalSpeed == b.orbitalSpeed && Point(b1.x, b1.z) == Orbit(t, b, d1)
    ensures Orbit(t, b1, d2) == Orbit(t, b, d1 + d2)
  {
    var v := b.orbitalSpeed.value;
    calc {
      Orbit(t, b1, d2);
      { OrbitWhenMoving(t, b1, d2); }
      Rotate(t, Point(b1.x, b1.z), Angle(v, d2));
      { OrbitWhenMoving(t, b, d1); }
      Rotate(t, Rotate(t, Point(b.x, b.z), Angle(v, d1)), Angle(v, d2));
      { RotateCompose(t, Point(b.x, b.z), Angle(v, d1), Angle(v, d2)); }
      Rotate(t, Point(b.x, b.z), Sum(Angle(v, d1), Angle(v, d2)));
      { AngleAdds(v, d1, d2); }
      Rotate(t, Point(b.x, b.z), Angle(v, d1 + d2));
      { OrbitWhenMoving(t, b, d1 + d2); }
      Orbit(t, b, d1 + d2);
    }
  }

  /** A frame of d1 followed by one of d2 is a frame of d1 + d2, for every entry. */
  lemma StepAllChunks(t: Trig, ps: map<string, Body>, d1: real, d2: real)
    requires Lawful(t)
    ensures StepAll(t, StepAll(t, ps, d1), d2) == StepAll(t, ps, d1 + d2)
  {
    forall name | name in ps
      ensures StepAll(t, StepAll(t, ps, d1), d2)[name] == StepAll(t, ps, d1 + d2)[name]
    {
      if name != "sun" {
        StepPlanetChunks(t, ps[name], d1, d2);
      }
    }
  }

  /** With the time scale fixed, two unpaused frames of d1 and d2 come to one frame of d1 + d2. */
  lemma FramesChunk(t: Trig, ps: map<string, Body>, timeScale: real, d1: real, d2: real)
    requires Lawful(t)
    ensures Frame(t, Frame(t, ps, false, timeScale, d1), false, timeScale, d2) == Frame(t, ps, false, timeScale, d1 + d2)
  {
    StepAllChunks(t, ps, d1 * timeScale, d2 * timeScale);
    assert d1 * timeScale + d2 * timeScale == (d1 + d2) * timeScale;
  }

  /**
   * After a resume at `resumeAt`, the next frame's delta counts only the time
   * since the resume: ten times the seconds from `resumeAt` to `frameAt`.
   */
  lemma ResumeDiscardsPausedTime(c: Clock, resumeAt: real, frameAt: real)
    ensures FrameDelta(Some(GetDelta(c, resumeAt).0), frameAt) * 100.0 == frameAt - resumeAt
  {
  }

  // Pick resolution.

  /** The `while (parent && !parent.userData.name)` walk: the nearest named ancestor-or-self, if any. */
  function NamedAncestor(f: Forest, id: NodeId): (r: Option<NodeId>)
    requires WellFormed(f) && id in f
    ensures r.Some? ==> r.value in f && Named(f[r.value])
    decreases f[id].depth
  {
    if Named(f[id]) then Some(id)
    else if f[id].parent.None? then None
    else NamedAncestor(f, f[id].parent.value)
  }

  /** The body selected by a click: the named ancestor of the first hit that has one. */
  function FirstPick(f: Forest, hits: seq<NodeId>): (r: Option<NodeId>)
    requires WellFormed(f) && forall i | 0 <= i < |hits| :: hits[i] in f
    ensures r.Some? ==> r.value in f && Named(f[r.value])
    decreases |hits|
  {
    if hits == [] then None
    else if NamedAncestor(f, hits[0]).Some? then NamedAncestor(f, hits[0])
    else FirstPick(f, hits[1..])
  }

  /** The pick loop of the click handler, with its inner walk up the parents. */
  method ResolvePick(f: Forest, hits: seq<NodeId>) returns (selected: Option<NodeId>)
    requires WellFormed(f) && forall i | 0 <= i < |hits| :: hits[i] in f
    ensures selected == FirstPick(f, hits)
  {
    selected := None;
    var i := 0;
    while i < |hits|
      invariant 0 <= i <= |hits|
      invariant FirstPick(f, hits) == FirstPick(f, hits[i..])
      decreases |hits| - i
    {
      assert hits[i..][1..] == hits[i + 1..];
      var node: Option<NodeId> := Some(hits[i]);
      while node.Some? && !Named(f[node.value])
        invariant node.Some? ==> node.value in f && NamedAncestor(f, node.value) == NamedAncestor(f, hits[i])
        invariant node.None? ==> NamedAncestor(f, hits[i]).None?
        decreases if node.Some? then f[node.value].depth + 1 else 0
      {
        node := f[node.value].parent;
      }
      if node.Some? && Named(f[node.value]) {
        selected := node;
        return;
      }
      i := i + 1;
    }
  }

  /**
   * The walk finds the nearest named ancestor-or-self: it is named, it is an
   * ancestor-or-self of the hit, and every node on the way below it is unnamed;
   * when it finds nothing, no ancestor-or-self is named.
   */
  lemma {:induction false} NamedAncestorIsNearest(f: Forest, id: NodeId)
    requires WellFormed(f) && id in f
    ensures NamedAncestor(f, id).Some? ==>
      var a := NamedAncestor(f, id).value;
      a in f && Named(f[a]) && AncestorOrSelf(f, a, id)
      && forall b | b in f && AncestorOrSelf(f, b, id) && b != a && AncestorOrSelf(f, a, b) :: !Named(f[b])
    ensures NamedAncestor(f, id).None? ==> forall b | b in f && AncestorOrSelf(f, b, id) :: !Named(f[b])
    decreases f[id].depth
  {
    if Named(f[id]) {
      forall b | b in f && AncestorOrSelf(f, b, id) && b != id
        ensures f[b].depth < f[id].depth
      {
        StrictAncestorIsShallower(f, b, id);
      }
      forall b | b in f && AncestorOrSelf(f, id, b)
        ensures f[id].depth <= f[b].depth
      {
        AncestorIsInForest(f, id, b);
      }
    } else if f[id].parent.Some? {
      var p := f[id].parent.value;
      NamedAncestorIsNearest(f, p);
      forall b | b in f && AncestorOrSelf(f, b, id) && b != id
        ensures AncestorOrSelf(f, b, p)
      {
      }
      if NamedAncestor(f, id).Some? {
        var a := NamedAncestor(f, id).value;
        forall b | b in f && AncestorOrSelf(f, b, id) && b != a && AncestorOrSelf(f, a, b)
          ensures !Named(f[b])
        {
          if b != id {
            assert AncestorOrSelf(f, b, p);
          }
        }
      }
    }
  }

  /**
   * The click selects the named ancestor of some hit, and every earlier hit
   * has none; it selects nothing exactly when no hit has one.
   */
  lemma {:induction false} FirstPickIsFirst(f: Forest, hits: seq<NodeId>)
    requires WellFormed(f) && forall i | 0 <= i < |hits| :: hits[i] in f
    ensures FirstPick(f, hits).Some? ==>
      exists k | 0 <= k < |hits| ::
        FirstPick(f, hits) == NamedAncestor(f, hits[k])
        && forall j | 0 <= j < k :: NamedAncestor(f, hits[j]).None?
    ensures FirstPick(f, hits).None? <==> forall j | 0 <= j < |hits| :: NamedAncestor(f, hits[j]).None?
    decreases |hits|
  {
    if hits != [] && NamedAncestor(f, hits[0]).None? {
      FirstPickIsFirst(f, hits[1..]);
      if FirstPick(f, hits).Some? {
        var k :| 0 <= k < |hits[1..]| && FirstPick(f, hits[1..]) == NamedAncestor(f, hits[1..][k])
          && forall j | 0 <= j < k :: NamedAncestor(f, hits[1..][j]).None?;
        assert FirstPick(f, hits) == NamedAncestor(f, hits[k + 1]);
        assert forall j | 0 <= j < k + 1 :: NamedAncestor(f, hits[j]).None? by {
          forall j | 0 <= j < k + 1 ensures NamedAncestor(f, hits[j]).None? {
            if j > 0 {
              assert hits[j] == hits[1..][j - 1];
            }
          }
        }
      }
      if forall j | 0 <= j < |hits[1..]| :: NamedAncestor(f, hits[1..][j]).None? {
        forall j | 0 <= j < |hits| ensures NamedAncestor(f, hits[j]).None? {
          if j > 0 {
            assert hits[j] == hits[1..][j - 1];
          }
        }
      }
    }
  }

  // The scene as js/main-improved.js builds it, reduced to names and parents.

  const SceneRoot: NodeId := 0
  const SunMesh: NodeId := 1
  const EarthGroup: NodeId := 2
  const EarthMesh: NodeId := 3
  const EarthAtmosphere: NodeId := 4
  const MoonSystem: NodeId := 5
  const MoonMesh: NodeId := 6
  const SaturnGroup: NodeId := 7
  const SaturnMesh: NodeId := 8
  const SaturnRing: NodeId := 9
  const OrbitLine: NodeId := 10

  /**
   * The sun is a bare mesh with no name; a planet is a named group holding
   * its mesh and, for the earth, its atmosphere (added to the mesh's parent);
   * the moon system hangs under the earth group and its mesh is named
   * "earth-moon"; the ring hangs under the saturn group.
   */
  function ImprovedScene(): Forest {
    map[
      SceneRoot := Node(None, None, 0),
      SunMesh := Node(None, Some(SceneRoot), 1),
      EarthGroup := Node(Some("earth"), Some(SceneRoot), 1),
      EarthMesh := Node(None, Some(EarthGroup), 2),
      EarthAtmosphere := Node(None, Some(EarthGroup), 2),
      MoonSystem := Node(None, Some(EarthGroup), 2),
      MoonMesh := Node(Some("earth-moon"), Some(MoonSystem), 3),
      SaturnGroup := Node(Some("saturn"), Some(SceneRoot), 1),
      SaturnMesh := Node(None, Some(SaturnGroup), 2),
      SaturnRing := Node(None, Some(SaturnGroup), 2),
      OrbitLine := Node(None, Some(SceneRoot), 1)
    ]
  }

  lemma ImprovedSceneWellFormed()
    ensures WellFormed(ImprovedScene())
  {
  }

  /** A click on the earth's mesh or atmosphere selects the earth group; on the moon, the moon itself. */
  lemma EarthPicks()
    ensures WellFormed(ImprovedScene())
    ensures NamedAncestor(ImprovedScene(), EarthMesh) == Some(EarthGroup)
    ensures NamedAncestor(ImprovedScene(), EarthAtmosphere) == Some(EarthGroup)
    ensures NamedAncestor(ImprovedScene(), MoonMesh) == Some(MoonMesh)
  {
    ImprovedSceneWellFormed();
  }

  /** A click on saturn's ring selects the saturn group; the unnamed sun and an orbit line select nothing. */
  lemma OtherPicks()
    ensures WellFormed(ImprovedScene())
    ensures NamedAncestor(ImprovedScene(), SaturnRing) == Some(SaturnGroup)
    ensures NamedAncestor(ImprovedScene(), SunMesh) == None
    ensures NamedAncestor(ImprovedScene(), OrbitLine) == None
  {
    ImprovedSceneWellFormed();
    var f := ImprovedScene();
    assert NamedAncestor(f, SunMesh) == NamedAncestor(f, SceneRoot);
    assert NamedAncestor(f, OrbitLine) == NamedAncestor(f, SceneRoot);
  }

  /** Hits on the sun and an orbit line are passed over, and the saturn mesh behind them is selected. */
  lemma SunIsSkipped()
    ensures WellFormed(ImprovedScene())
    ensures FirstPick(ImprovedScene(), [SunMesh, OrbitLine, SaturnMesh]) == Some(SaturnGroup)
  {
    ImprovedSceneWellFormed();
    OtherPicks();
    var f := ImprovedScene();
    var hits := [SunMesh, OrbitLine, SaturnMesh];
    assert hits[1..] == [OrbitLine, SaturnMesh];
    assert hits[1..][1..] == [SaturnMesh];
    assert NamedAncestor(f, SaturnMesh) == Some(SaturnGroup);
    assert FirstPick(f, [SaturnMesh]) == Some(SaturnGroup);
    assert FirstPick(f, [OrbitLine, SaturnMesh]) == FirstPick(f, [SaturnMesh]);
    assert FirstPick(f, hits) == FirstPick(f, [OrbitLine, SaturnMesh]);
  }
}
