/**
 * The minimal scene of js/minimal.js: the `animate` frame (the sun's spin and
 * glow pulse, the planets on tilted orbits driven by absolute time, their
 * spin and their orbit groups, the asteroid step), the click handler that
 * resolves a hit to a planet name, and `showPlanetInfo` with its camera focus.
 *
 * All bodies except the scene's direct children live in `solarSystemGroup`;
 * positions are in that group's frame.
 */
module Minimal {
  import opened Base
  import opened Trig
  import opened SceneGraph
  import CelestialBodies

  datatype Position = Position(x: real, y: real, z: real)

  function Dist2(p: Position): real { p.x * p.x + p.y * p.y + p.z * p.z }

  const Origin := Position(0.0, 0.0, 0.0)

  /**
   * The tilted-orbit formula of `animate`: the point at `angle` on the circle
   * of radius `distance` whose plane is the xz plane turned by `tilt` about x.
   */
  function TiltedOrbit(t: Trig, angle: real, distance: real, tilt: real): Position {
    Position(distance * t.cos(angle),
             distance * t.sin(angle) * t.sin(tilt),
             distance * t.sin(angle) * t.cos(tilt))
  }

  /** A planet always stays at its orbital distance from the sun. */
  lemma TiltedOrbitKeepsDistance(t: Trig, angle: real, distance: real, tilt: real)
    requires Lawful(t)
    ensures Dist2(TiltedOrbit(t, angle, distance, tilt)) == distance * distance
  {
    var c, s, ct, st := t.cos(angle), t.sin(angle), t.cos(tilt), t.sin(tilt);
    assert s * s + c * c == 1.0;
    assert st * st + ct * ct == 1.0;
    var p := TiltedOrbit(t, angle, distance, tilt);
    calc {
      Dist2(p);
      (distance * c) * (distance * c) + (distance * s * st) * (distance * s * st) + (distance * s * ct) * (distance * s * ct);
      distance * distance * (c * c + s * s * (st * st + ct * ct));
      distance * distance * (c * c + s * s);
      distance * distance;
    }
  }

  /** The orbit lies in its tilted plane: y cos(tilt) = z sin(tilt). */
  lemma TiltedOrbitInPlane(t: Trig, angle: real, distance: real, tilt: real)
    ensures var p := TiltedOrbit(t, angle, distance, tilt);
      p.y * t.cos(tilt) == p.z * t.sin(tilt)
  {
    var s, ct, st := t.sin(angle), t.cos(tilt), t.sin(tilt);
    assert (distance * s * st) * ct == (distance * s * ct) * st;
  }

  /** With no tilt the orbit is the circle (d cos a, 0, d sin a) in the group's plane. */
  lemma UntiltedOrbitIsFlat(t: Trig, angle: real, distance: real)
    requires Lawful(t)
    ensures TiltedOrbit(t, angle, distance, 0.0) == Position(distance * t.cos(angle), 0.0, distance * t.sin(angle))
  {
  }

  /** At time 0 every planet stands on the x axis at its distance. */
  lemma OrbitStartsOnXAxis(t: Trig, distance: real, tilt: real)
    requires Lawful(t)
    ensures TiltedOrbit(t, 0.0, distance, tilt) == Position(distance, 0.0, 0.0)
  {
  }

  // The sun.

  /** The three glow layers of `createSunGlow`: the pulse phase, each layer's scale and opacity. */
  datatype SunGlow = SunGlow(glowPulse: real,
                             outerScale: real, outerOpacity: real,
                             middleScale: real, middleOpacity: real,
                             innerScale: real, innerOpacity: real)

  /** The sun's `userData`: `currentRotation` (undefined until the first frame), `rotation.y`, and the glow. */
  datatype Sun = Sun(currentRotation: Option<real>, spinY: real, glow: Option<SunGlow>)

  /** An accumulator that is undefined before the first frame starts from 0. */
  function StartAt(r: Option<real>): real {
    if r.Some? then r.value else 0.0
  }

  function StepGlow(t: Trig, g: SunGlow): SunGlow {
    var phase := g.glowPulse + 0.01;
    var pulse := 0.9 + 0.1 * t.sin(phase);
    SunGlow(phase, pulse, 0.3 * pulse, pulse * 0.95, 0.4 * pulse, pulse * 0.9, 0.5 * pulse)
  }

  /** One frame of the sun: it turns by 0.005, and its glow, when present, pulses. */
  function StepSun(t: Trig, s: Sun): Sun {
    var r := StartAt(s.currentRotation) + 0.005;
    Sun(Some(r), r, if s.glow.Some? then Some(StepGlow(t, s.glow.value)) else None)
  }

  function SunAfter(t: Trig, s: Sun, frames: nat): Sun {
    if frames == 0 then s else StepSun(t, SunAfter(t, s, frames - 1))
  }

  /** After n frames the sun has turned by 0.005 per frame from where it started. */
  lemma {:induction false} SunTurnsPerFrame(t: Trig, s: Sun, frames: nat)
    requires frames >= 1
    ensures SunAfter(t, s, frames).currentRotation == Some(StartAt(s.currentRotation) + 0.005 * frames as real)
    ensures SunAfter(t, s, frames).spinY == StartAt(s.currentRotation) + 0.005 * frames as real
  {
    if frames > 1 {
      SunTurnsPerFrame(t, s, frames - 1);
    }
  }

  /** The glow pulse stays within [0.8, 1.0]; each layer is scaled and faded by it. */
  lemma GlowBounds(t: Trig, g: SunGlow)
    requires Lawful(t)
    ensures var n := StepGlow(t, g);
      && n.glowPulse == g.glowPulse + 0.01
      && 0.8 <= n.outerScale <= 1.0
      && n.middleScale == 0.95 * n.outerScale && n.innerScale == 0.9 * n.outerScale
      && 0.24 <= n.outerOpacity <= 0.3 && 0.32 <= n.middleOpacity <= 0.4 && 0.4 <= n.innerOpacity <= 0.5
  {
    SinBounded(t, g.glowPulse + 0.01);
  }

  // The planets.

  /** A child of a planet mesh; only a group flagged `isOrbit` (the moon's orbit) spins, by its own `rotationSpeed`. */
  datatype Satellite = Satellite(isOrbit: bool, rotationSpeed: real, spinY: real)

  /** An entry of `planets` with its `userData` and transform. */
  datatype Planet = Planet(node: NodeId, distance: real, orbitalSpeed: real, rotationSpeed: real, tilt: real,
                           pos: Position, currentRotation: Option<real>, spinY: real, children: seq<Satellite>)

  function SpinSatellite(c: Satellite): Satellite {
    if c.isOrbit then c.(spinY := c.spinY + c.rotationSpeed) else c
  }

  /**
   * One frame of a planet at absolute time `now` (seconds): placed on its
   * tilted orbit at angle now * orbitalSpeed, turned by rotationSpeed * 0.1.
   */
  function StepPlanet(t: Trig, p: Planet, now: real): Planet {
    var r := StartAt(p.currentRotation) + p.rotationSpeed * 0.1;
    p.(pos := TiltedOrbit(t, Angle(p.orbitalSpeed, now), p.distance, p.tilt),
       currentRotation := Some(r), spinY := r,
       children := SpinAll(p.children))
  }

  function SpinAll(cs: seq<Satellite>): seq<Satellite> {
    seq(|cs|, i requires 0 <= i < |cs| => SpinSatellite(cs[i]))
  }

  /** The children after n frames: each orbit group turned n times by its own speed, the rest as they were. */
  function Spun(cs: seq<Satellite>, n: nat): seq<Satellite> {
    seq(|cs|, i requires 0 <= i < |cs| =>
      if cs[i].isOrbit then cs[i].(spinY := cs[i].spinY + cs[i].rotationSpeed * n as real) else cs[i])
  }

  function StepPlanets(t: Trig, ps: map<string, Planet>, now: real): map<string, Planet> {
    map name | name in ps :: StepPlanet(t, ps[name], now)
  }

  /** A planet after one frame at each of the times in `nows`. */
  function PlanetAfter(t: Trig, p: Planet, nows: seq<real>): Planet
    decreases |nows|
  {
    if nows == [] then p else StepPlanet(t, PlanetAfter(t, p, nows[..|nows| - 1]), nows[|nows| - 1])
  }

  /** Over any run of frames a planet keeps its orbit data, and its position is that of the last frame's time alone. */
  lemma {:induction false} PlanetRunPosition(t: Trig, p: Planet, nows: seq<real>)
    requires |nows| >= 1
    ensures var q := PlanetAfter(t, p, nows);
      && q.pos == TiltedOrbit(t, Angle(p.orbitalSpeed, nows[|nows| - 1]), p.distance, p.tilt)
      && q.node == p.node && q.distance == p.distance && q.orbitalSpeed == p.orbitalSpeed
      && q.rotationSpeed == p.rotationSpeed && q.tilt == p.tilt && |q.children| == |p.children|
    decreases |nows|
  {
    if |nows| > 1 {
      PlanetRunPosition(t, p, nows[..|nows| - 1]);
    } else {
      assert nows[..|nows| - 1] == [];
    }
  }

  /** Over a run of n frames a planet has turned by rotationSpeed * 0.1 per frame. */
  lemma {:induction false} PlanetRunTurns(t: Trig, p: Planet, nows: seq<real>)
    requires |nows| >= 1
    ensures PlanetAfter(t, p, nows).currentRotation == Some(StartAt(p.currentRotation) + p.rotationSpeed * 0.1 * |nows| as real)
    ensures PlanetAfter(t, p, nows).spinY == StartAt(p.currentRotation) + p.rotationSpeed * 0.1 * |nows| as real
    decreases |nows|
  {
    var init := nows[..|nows| - 1];
    if |nows| > 1 {
      PlanetRunTurns(t, p, init);
      PlanetRunPosition(t, p, init);
      var q := PlanetAfter(t, p, init);
      assert PlanetAfter(t, p, nows) == StepPlanet(t, q, nows[|nows| - 1]);
      assert q.rotationSpeed == p.rotationSpeed;
      assert StartAt(q.currentRotation) == StartAt(p.currentRotation) + p.rotationSpeed * 0.1 * |init| as real;
      assert PlanetAfter(t, p, nows).currentRotation == Some(StartAt(q.currentRotation) + p.rotationSpeed * 0.1);
      TurnStep(StartAt(p.currentRotation), p.rotationSpeed * 0.1, StartAt(q.currentRotation), |init|, |nows|);
      assert StartAt(q.currentRotation) + p.rotationSpeed * 0.1 == StartAt(p.currentRotation) + p.rotationSpeed * 0.1 * |nows| as real;
    } else {
      assert init == [];
      assert PlanetAfter(t, p, nows) == StepPlanet(t, p, nows[0]);
      OneTurn(p.rotationSpeed * 0.1, |nows|);
      assert StartAt(p.currentRotation) + p.rotationSpeed * 0.1 == StartAt(p.currentRotation) + p.rotationSpeed * 0.1 * |nows| as real;
    }
  }

  /** Over a run of n frames each orbit group of a planet has turned by its own speed n times; other children are untouched. */
  lemma {:induction false} PlanetRunSpinsGroups(t: Trig, p: Planet, nows: seq<real>)
    ensures PlanetAfter(t, p, nows).children == Spun(p.children, |nows|)
    decreases |nows|
  {
    if nows != [] {
      var init := nows[..|nows| - 1];
      PlanetRunSpinsGroups(t, p, init);
      assert PlanetAfter(t, p, nows).children == SpinAll(PlanetAfter(t, p, init).children);
      SpinAllSpun(p.children, |init|);
    } else {
      assert Spun(p.children, 0) == p.children;
    }
  }

  /** One more frame turns each orbit group once more. */
  lemma SpinAllSpun(cs: seq<Satellite>, n: nat)
    ensures SpinAll(Spun(cs, n)) == Spun(cs, n + 1)
  {
    forall i | 0 <= i < |cs|
      ensures SpinAll(Spun(cs, n))[i] == Spun(cs, n + 1)[i]
    {
      SpinStep(cs[i], Spun(cs, n)[i], n);
    }
  }

  /** A child spun n times and then once more is spun n + 1 times. */
  lemma SpinStep(c0: Satellite, c: Satellite, n: nat)
    requires c == if c0.isOrbit then c0.(spinY := c0.spinY + c0.rotationSpeed * n as real) else c0
    ensures SpinSatellite(c) == if c0.isOrbit then c0.(spinY := c0.spinY + c0.rotationSpeed * (n + 1) as real) else c0
  {
    ScaleStep(c0.rotationSpeed, n);
  }

  /** One more step of a constant size adds one more multiple. */
  lemma ScaleStep(a: real, n: nat)
    ensures a * n as real + a == a * (n + 1) as real
  {
  }

  /** One turn of `a` is `a`. */
  lemma OneTurn(a: real, m: nat)
    requires m == 1
    ensures a * m as real == a
  {
  }

  /** A turn of `a` after n earlier turns of `a` from `s0` makes n + 1 turns. */
  lemma TurnStep(s0: real, a: real, r: real, n: nat, m: nat)
    requires r == s0 + a * n as real && m == n + 1
    ensures r + a == s0 + a * m as real
  {
    ScaleStep(a, n);
  }

  // The asteroid step.

  /**
   * A direct child of the group being scanned, with the `userData` the
   * asteroid step reads; only asteroids have an `orbitRadius`, and none has
   * a `height` when it is created.
   */
  datatype Thing = Thing(orbitRadius: Option<real>, orbitAngle: real, orbitSpeed: real, rotationSpeed: real,
                         height: Option<real>, pos: Position, rx: real, ry: real)

  /**
   * One frame of a scanned object: an asteroid tumbles, advances its angle by
   * its speed and is placed on its circle at its height, which is drawn once,
   * as (r - 0.5) * 2 from the random value `r`, when it is still undefined.
   */
  function StepThing(t: Trig, o: Thing, r: real): Thing {
    if o.orbitRadius.None? then o
    else
      var angle := o.orbitAngle + o.orbitSpeed;
      var h := if o.height.Some? then o.height.value else (r - 0.5) * 2.0;
      var radius := o.orbitRadius.value;
      o.(rx := o.rx + o.rotationSpeed, ry := o.ry + o.rotationSpeed, orbitAngle := angle, height := Some(h),
         pos := Position(radius * t.cos(angle), h, radius * t.sin(angle)))
  }

  /** One frame of every object of a child list; `draws(i)` is the random value object i may use. */
  function StepThings(t: Trig, objs: seq<Thing>, draws: nat -> real): seq<Thing> {
    seq(|objs|, i requires 0 <= i < |objs| => StepThing(t, objs[i], draws(i)))
  }

  /** An object without an `orbitRadius` is left exactly as it was, so a list of them never changes. */
  lemma ScanSkipsNonAsteroids(t: Trig, objs: seq<Thing>, draws: nat -> real)
    requires forall i | 0 <= i < |objs| :: objs[i].orbitRadius.None?
    ensures StepThings(t, objs, draws) == objs
  {
    forall i | 0 <= i < |objs| ensures StepThings(t, objs, draws)[i] == objs[i] {
      assert StepThings(t, objs, draws)[i] == StepThing(t, objs[i], draws(i));
    }
  }

  /**
   * A stepped asteroid sits on its orbit circle at its kept height, its angle
   * has advanced by its speed, and its height is fixed after the first frame.
   */
  lemma AsteroidStepOnCircle(t: Trig, o: Thing, r: real)
    requires Lawful(t) && o.orbitRadius.Some?
    ensures var n := StepThing(t, o, r);
      && n.orbitAngle == o.orbitAngle + o.orbitSpeed
      && n.pos.x * n.pos.x + n.pos.z * n.pos.z == o.orbitRadius.value * o.orbitRadius.value
      && n.height.Some? && n.pos.y == n.height.value
      && (o.height.Some? ==> n.height == o.height)
      && forall r2 :: StepThing(t, n, r2).height == n.height
  {
    var n := StepThing(t, o, r);
    var a := o.orbitAngle + o.orbitSpeed;
    var c, s, radius := t.cos(a), t.sin(a), o.orbitRadius.value;
    assert s * s + c * c == 1.0;
    calc {
      n.pos.x * n.pos.x + n.pos.z * n.pos.z;
      (radius * c) * (radius * c) + (radius * s) * (radius * s);
      radius * radius * (s * s + c * c);
      radius * radius;
    }
  }

  // The info panel of the minimal page.

  /** One entry of the `planetInfo` table of `showPlanetInfo`; an absent field is `None`. */
  datatype PlanetInfo = PlanetInfo(name: string, description: string, distance: Option<string>,
                                   diameter: Option<string>, rotation: Option<string>, info: string)

  /** The `planetInfo` table (js/minimal.js:710-781). */
  function PlanetInfoTable(): map<string, PlanetInfo> {
    map[
      "sun" := PlanetInfo("太阳", "太阳系的中心恒星，一颗G型主序星。", None, Some("1,392,700 km"), Some("25.05 天"),
        "太阳占据了太阳系总质量的99.86%，主要由氢（约73%）和氦（约25%）组成。"),
      "mercury" := PlanetInfo("水星", "太阳系中最小的行星，也是最接近太阳的行星。", Some("5770万 km"), Some("4,879 km"), None,
        "水星几乎没有大气层，表面满是陨石坑。"),
      "venus" := PlanetInfo("金星", "太阳系中第二颗行星，有时被称为地球的\"姊妹星\"。", Some("1.082亿 km"), Some("12,104 km"), None,
        "金星被厚厚的二氧化碳大气层包围，导致温室效应，表面温度高达465°C。"),
      "earth" := PlanetInfo("地球", "太阳系中第三颗行星，是目前已知唯一孕育生命的天体。", Some("1.496亿 km"), Some("12,742 km"), None,
        "地球表面有大约71%的面积被水覆盖，有一颗较大的卫星：月球。"),
      "earthMoon" := PlanetInfo("月球", "地球的唯一天然卫星。", Some("地球平均384,400 km"), Some("3,474 km"), None,
        "月球是唯一人类已经踏足的地外天体。"),
      "mars" := PlanetInfo("火星", "太阳系中第四颗行星，被称为\"红色星球\"。", Some("2.279亿 km"), Some("6,779 km"), None,
        "火星表面的铁氧化物使其呈现红色，有证据表明火星上曾经有液态水。"),
      "jupiter" := PlanetInfo("木星", "太阳系中最大的行星，一颗气态巨行星。", Some("7.785亿 km"), Some("139,820 km"), None,
        "木星主要由氢和氦组成，有一个著名的大红斑（一个巨大的风暴）。"),
      "saturn" := PlanetInfo("土星", "太阳系中第二大行星，以其壮观的环系闻名。", Some("14.34亿 km"), Some("116,460 km"), None,
        "土星的环系主要由冰粒和岩石碎片组成。"),
      "uranus" := PlanetInfo("天王星", "太阳系中第七颗行星，一颗冰巨行星。", Some("28.71亿 km"), Some("50,724 km"), None,
        "天王星是唯一一个\"侧卧\"旋转的行星，其自转轴几乎与轨道平面平行。"),
      "neptune" := PlanetInfo("海王星", "太阳系中最远的行星，也是另一颗冰巨行星。", Some("44.95亿 km"), Some("49,244 km"), None,
        "海王星是太阳系中风速最高的行星，最高风速可达2,100 km/h。")
    ]
  }

  /** JavaScript truthiness of an optional text field: present and not empty. */
  predicate Present(s: Option<string>) {
    s.Some? && s.value != ""
  }

  /** The kinds of line `showPlanetInfo` appends, in the order it appends them. */
  datatype Kind = Heading | Description | Distance | Diameter | Rotation | Info

  datatype Line = Line(kind: Kind, text: string)

  function Rank(k: Kind): nat {
    match k
    case Heading => 0
    case Description => 1
    case Distance => 2
    case Diameter => 3
    case Rotation => 4
    case Info => 5
  }

  const ParagraphTag := CelestialBodies.Tag("<p>", "</p>")
  const DistanceTag := CelestialBodies.Tag("<p>距太阳：", "</p>")
  const DiameterTag := CelestialBodies.Tag("<p>直径：", "</p>")
  const RotationTag := CelestialBodies.Tag("<p>自转周期：", "</p>")

  function Render(l: Line): string {
    var tag := match l.kind
      case Heading => CelestialBodies.HeadingTag
      case Distance => DistanceTag
      case Diameter => DiameterTag
      case Rotation => RotationTag
      case _ => ParagraphTag;
    CelestialBodies.Wrap(tag, l.text)
  }

  /** The line a field contributes: the field when truthy, nothing otherwise. */
  function FieldLines(k: Kind, s: Option<string>): seq<Line> {
    if Present(s) then [Line(k, s.value)] else []
  }

  /** The lines of the panel, in the order `showPlanetInfo` appends them. */
  function InfoLines(i: PlanetInfo): seq<Line> {
    [Line(Heading, i.name), Line(Description, i.description)]
    + FieldLines(Distance, i.distance) + FieldLines(Diameter, i.diameter) + FieldLines(Rotation, i.rotation)
    + [Line(Info, i.info)]
  }

  /** The HTML of a sequence of lines, in order. */
  function Html(lines: seq<Line>): string
    decreases |lines|
  {
    if lines == [] then "" else Html(lines[..|lines| - 1]) + Render(lines[|lines| - 1])
  }

  lemma HtmlAppend(lines: seq<Line>, l: Line)
    ensures Html(lines + [l]) == Html(lines) + Render(l)
  {
    assert (lines + [l])[..|lines|] == lines;
  }

  /** The heading and description come first, the info paragraph last, and one line per truthy field between. */
  lemma InfoLinesShape(i: PlanetInfo)
    ensures |InfoLines(i)| == 3 + (if Present(i.distance) then 1 else 0) + (if Present(i.diameter) then 1 else 0)
                                + (if Present(i.rotation) then 1 else 0)
    ensures InfoLines(i)[0] == Line(Heading, i.name) && InfoLines(i)[1] == Line(Description, i.description)
    ensures InfoLines(i)[|InfoLines(i)| - 1] == Line(Info, i.info)
  {
  }

  /** Lines come out strictly in append order, so no kind of line appears twice. */
  lemma InfoLinesOrdered(i: PlanetInfo)
    ensures forall a, b | 0 <= a < b < |InfoLines(i)| :: Rank(InfoLines(i)[a].kind) < Rank(InfoLines(i)[b].kind)
  {
  }

  /** Each optional line appears exactly when its field is truthy, and shows that field. */
  lemma FieldLinesPresence(i: PlanetInfo)
    ensures Present(i.distance) ==> Line(Distance, i.distance.value) in InfoLines(i)
    ensures Present(i.diameter) ==> Line(Diameter, i.diameter.value) in InfoLines(i)
    ensures Present(i.rotation) ==> Line(Rotation, i.rotation.value) in InfoLines(i)
    ensures forall l | l in InfoLines(i) && l.kind == Distance :: Present(i.distance) && l.text == i.distance.value
    ensures forall l | l in InfoLines(i) && l.kind == Diameter :: Present(i.diameter) && l.text == i.diameter.value
    ensures forall l | l in InfoLines(i) && l.kind == Rotation :: Present(i.rotation) && l.text == i.rotation.value
  {
  }

  /** The sun shows a rotation line and no distance line; every other entry the reverse, with a diameter line. */
  lemma TableLineKinds()
    ensures forall n | n in PlanetInfoTable() ::
      && Present(PlanetInfoTable()[n].diameter)
      && (Present(PlanetInfoTable()[n].rotation) <==> n == "sun")
      && (Present(PlanetInfoTable()[n].distance) <==> n != "sun")
  {
  }

  /** Where `focusCameraOnPlanet` points the controls: the sun at the origin, the moon at earth, a planet at itself. */
  function FocusPoint(planets: map<string, Planet>, name: string): (r: Option<Position>)
    ensures name == "sun" ==> r == Some(Origin)
    ensures name != "sun" && name != "earthMoon" ==> (r.Some? <==> name in planets)
  {
    if name == "sun" then Some(Origin)
    else if name == "earthMoon" then (if "earth" in planets then Some(planets["earth"].pos) else None)
    else if name in planets then Some(planets[name].pos)
    else None
  }

  /** The moon has no mesh of its own in `planets`; its panel focuses the camera on earth. */
  lemma MoonFocusesOnEarth(planets: map<string, Planet>)
    ensures FocusPoint(planets, "earthMoon") == FocusPoint(planets, "earth")
  {
  }

  /** The eight planet names of the minimal page. */
  const PlanetNames: set<string> := {"mercury", "venus", "earth", "mars", "jupiter", "saturn", "uranus", "neptune"}

  /** With the eight planets in place, every entry of the table has a focus point. */
  lemma EveryEntryHasFocus(planets: map<string, Planet>)
    requires PlanetNames <= planets.Keys
    ensures forall n | n in PlanetInfoTable() :: FocusPoint(planets, n).Some?
  {
    assert "earth" in PlanetNames;
    forall n | n in PlanetInfoTable() ensures FocusPoint(planets, n).Some? {
      if n != "sun" && n != "earthMoon" {
        assert n in PlanetNames;
      }
    }
  }

  // Click-name resolution.

  /** `planets[name]` is truthy: the name is set and is a key of `planets`. */
  predicate IsPlanet(keys: set<string>, name: Option<string>) {
    name.Some? && name.value in keys
  }

  /** `a`'s parent exists and carries a planet name. */
  ghost predicate UnderPlanet(f: Forest, keys: set<string>, a: NodeId) {
    a in f && f[a].parent.Some? && f[a].parent.value in f && IsPlanet(keys, f[f[a].parent.value].name)
  }

  /**
   * The moon walk starting at `p`: the first node on the chain p, p.parent, …
   * whose parent carries a planet name gives that name + "Moon"; none gives ''.
   */
  function MoonName(f: Forest, keys: set<string>, p: Option<NodeId>): string
    requires WellFormed(f) && (p.Some? ==> p.value in f)
    decreases if p.Some? then f[p.value].depth + 1 else 0
  {
    if p.None? then ""
    else
      var q := f[p.value].parent;
      if q.Some? && IsPlanet(keys, f[q.value].name) then f[q.value].name.value + "Moon"
      else MoonName(f, keys, q)
  }

  /** The name the click handler resolves a hit to; '' when it finds none. */
  function ClickName(f: Forest, keys: set<string>, sun: NodeId, id: NodeId): string
    requires WellFormed(f) && id in f
  {
    var n := f[id];
    if id == sun then "sun"
    else if n.parent.Some? && IsPlanet(keys, f[n.parent.value].name) then f[n.parent.value].name.value
    else if IsPlanet(keys, n.name) then n.name.value
    else MoonName(f, keys, n.parent)
  }

  /**
   * The moon walk finds the nearest node on the chain from `p` whose parent
   * carries a planet name, and gives '' exactly when there is none.
   */
  lemma {:induction false} MoonNameIsNearest(f: Forest, keys: set<string>, p: NodeId)
    requires WellFormed(f) && p in f
    ensures MoonName(f, keys, Some(p)) == "" <==> forall a | a in f && AncestorOrSelf(f, a, p) :: !UnderPlanet(f, keys, a)
    ensures MoonName(f, keys, Some(p)) != "" ==>
      exists a | a in f && AncestorOrSelf(f, a, p) ::
        && UnderPlanet(f, keys, a)
        && MoonName(f, keys, Some(p)) == f[f[a].parent.value].name.value + "Moon"
        && forall b | b in f && AncestorOrSelf(f, b, p) && b != a && AncestorOrSelf(f, a, b) :: !UnderPlanet(f, keys, b)
    decreases f[p].depth
  {
    var q := f[p].parent;
    if q.Some? && IsPlanet(keys, f[q.value].name) {
      assert UnderPlanet(f, keys, p) && AncestorOrSelf(f, p, p);
      forall b | b in f && AncestorOrSelf(f, b, p) && b != p && AncestorOrSelf(f, p, b)
        ensures false
      {
        StrictAncestorIsShallower(f, b, p);
        AncestorIsInForest(f, p, b);
      }
    } else {
      assert !UnderPlanet(f, keys, p);
      if q.Some? {
        MoonNameIsNearest(f, keys, q.value);
        forall b | b in f && AncestorOrSelf(f, b, p) && b != p
          ensures AncestorOrSelf(f, b, q.value)
        {
        }
        if MoonName(f, keys, Some(p)) != "" {
          var a :| a in f && AncestorOrSelf(f, a, q.value) && UnderPlanet(f, keys, a)
            && MoonName(f, keys, q) == f[f[a].parent.value].name.value + "Moon"
            && forall b | b in f && AncestorOrSelf(f, b, q.value) && b != a && AncestorOrSelf(f, a, b) :: !UnderPlanet(f, keys, b);
          assert AncestorOrSelf(f, a, p);
          forall b | b in f && AncestorOrSelf(f, b, p) && b != a && AncestorOrSelf(f, a, b)
            ensures !UnderPlanet(f, keys, b)
          {
            if b != p {
              assert AncestorOrSelf(f, b, q.value);
            }
          }
        }
      } else {
        forall a | a in f && AncestorOrSelf(f, a, p) ensures a == p {
        }
      }
    }
  }

  /**
   * What a click can resolve to: 'sun', a planet name, a planet name + "Moon",
   * or '' (and then no node on the hit's parent chain lies under a planet).
   */
  lemma ClickNameCases(f: Forest, keys: set<string>, sun: NodeId, id: NodeId)
    requires WellFormed(f) && id in f
    ensures var r := ClickName(f, keys, sun, id);
      || r == "sun"
      || r in keys
      || (exists k | k in keys :: r == k + "Moon")
      || (r == "" && f[id].parent.Some? && forall a | a in f && AncestorOrSelf(f, a, f[id].parent.value) :: !UnderPlanet(f, keys, a))
      || (r == "" && f[id].parent.None?)
  {
    var n := f[id];
    if id != sun && !(n.parent.Some? && IsPlanet(keys, f[n.parent.value].name)) && !IsPlanet(keys, n.name) && n.parent.Some? {
      MoonNameIsNearest(f, keys, n.parent.value);
      var r := ClickName(f, keys, sun, id);
      if r != "" {
        var a :| a in f && AncestorOrSelf(f, a, n.parent.value) && UnderPlanet(f, keys, a)
          && r == f[f[a].parent.value].name.value + "Moon";
        assert f[f[a].parent.value].name.value in keys;
      }
    }
  }

  // The scene of the minimal page, as the click handler sees it.

  const SceneRoot: NodeId := 0
  const SystemGroup: NodeId := 1
  const SunMesh: NodeId := 2
  const SunOuterGlow: NodeId := 3
  const EarthMesh: NodeId := 4
  const EarthAtmosphere: NodeId := 5
  const MoonOrbit: NodeId := 6
  const MoonMesh: NodeId := 7
  const SaturnMesh: NodeId := 8
  const SaturnRings: NodeId := 9
  const AsteroidMesh: NodeId := 10
  const MoonOrbitLine: NodeId := 11
  const PlanetOrbit: NodeId := 12

  /** The nodes `init` builds (one of each kind): only planet meshes carry a name; the sun has none. */
  function MinimalScene(): Forest {
    map[
      SceneRoot := Node(None, None, 0),
      SystemGroup := Node(None, Some(SceneRoot), 1),
      SunMesh := Node(None, Some(SystemGroup), 2),
      SunOuterGlow := Node(None, Some(SunMesh), 3),
      EarthMesh := Node(Some("earth"), Some(SystemGroup), 2),
      EarthAtmosphere := Node(None, Some(EarthMesh), 3),
      MoonOrbit := Node(None, Some(EarthMesh), 3),
      MoonMesh := Node(None, Some(MoonOrbit), 4),
      SaturnMesh := Node(Some("saturn"), Some(SystemGroup), 2),
      SaturnRings := Node(None, Some(SaturnMesh), 3),
      AsteroidMesh := Node(None, Some(SystemGroup), 2),
      MoonOrbitLine := Node(None, Some(MoonOrbit), 4),
      PlanetOrbit := Node(None, Some(SystemGroup), 2)
    ]
  }

  /** Every id of `f` is below `bound`. */
  ghost predicate AllBelow(f: Forest, bound: int) {
    forall k | k in f :: k < bound
  }

  /** Adding the nodes in increasing order keeps the forest well formed and every id below the next one. */
  lemma AddNodeAbove(f: Forest, id: NodeId, n: Node)
    requires WellFormed(f) && AllBelow(f, id)
    requires n.parent.Some? ==> n.parent.value in f && f[n.parent.value].depth < n.depth
    ensures WellFormed(f[id := n]) && AllBelow(f[id := n], id + 1)
  {
    AddNodeWellFormed(f, id, n);
  }

  lemma MinimalSceneWellFormed()
    ensures WellFormed(MinimalScene())
  {
    var f: Forest := map[];
    AddNodeAbove(f, SceneRoot, Node(None, None, 0));
    f := f[SceneRoot := Node(None, None, 0)];
    AddNodeAbove(f, SystemGroup, Node(None, Some(SceneRoot), 1));
    f := f[SystemGroup := Node(None, Some(SceneRoot), 1)];
    AddNodeAbove(f, SunMesh, Node(None, Some(SystemGroup), 2));
    f := f[SunMesh := Node(None, Some(SystemGroup), 2)];
    AddNodeAbove(f, SunOuterGlow, Node(None, Some(SunMesh), 3));
    f := f[SunOuterGlow := Node(None, Some(SunMesh), 3)];
    AddNodeAbove(f, EarthMesh, Node(Some("earth"), Some(SystemGroup), 2));
    f := f[EarthMesh := Node(Some("earth"), Some(SystemGroup), 2)];
    AddNodeAbove(f, EarthAtmosphere, Node(None, Some(EarthMesh), 3));
    f := f[EarthAtmosphere := Node(None, Some(EarthMesh), 3)];
    AddNodeAbove(f, MoonOrbit, Node(None, Some(EarthMesh), 3));
    f := f[MoonOrbit := Node(None, Some(EarthMesh), 3)];
    AddNodeAbove(f, MoonMesh, Node(None, Some(MoonOrbit), 4));
    f := f[MoonMesh := Node(None, Some(MoonOrbit), 4)];
    AddNodeAbove(f, SaturnMesh, Node(Some("saturn"), Some(SystemGroup), 2));
    f := f[SaturnMesh := Node(Some("saturn"), Some(SystemGroup), 2)];
    AddNodeAbove(f, SaturnRings, Node(None, Some(SaturnMesh), 3));
    f := f[SaturnRings := Node(None, Some(SaturnMesh), 3)];
    AddNodeAbove(f, AsteroidMesh, Node(None, Some(SystemGroup), 2));
    f := f[AsteroidMesh := Node(None, Some(SystemGroup), 2)];
    AddNodeAbove(f, MoonOrbitLine, Node(None, Some(MoonOrbit), 4));
    f := f[MoonOrbitLine := Node(None, Some(MoonOrbit), 4)];
    AddNodeAbove(f, PlanetOrbit, Node(None, Some(SystemGroup), 2));
    f := f[PlanetOrbit := Node(None, Some(SystemGroup), 2)];
    assert f == MinimalScene();
  }

  /**
   * In that scene the moon and its orbit line resolve to 'earthMoon', the
   * atmosphere to 'earth', the rings to 'saturn', the sun to 'sun'; the sun's
   * glow, an asteroid and a planet's orbit line resolve to '' and show nothing.
   */
  lemma MinimalPicks()
    ensures WellFormed(MinimalScene())
    ensures ClickName(MinimalScene(), PlanetNames, SunMesh, MoonMesh) == "earthMoon"
    ensures ClickName(MinimalScene(), PlanetNames, SunMesh, MoonOrbitLine) == "earthMoon"
    ensures ClickName(MinimalScene(), PlanetNames, SunMesh, EarthAtmosphere) == "earth"
    ensures ClickName(MinimalScene(), PlanetNames, SunMesh, EarthMesh) == "earth"
    ensures ClickName(MinimalScene(), PlanetNames, SunMesh, SaturnRings) == "saturn"
    ensures ClickName(MinimalScene(), PlanetNames, SunMesh, SunMesh) == "sun"
    ensures ClickName(MinimalScene(), PlanetNames, SunMesh, SunOuterGlow) == ""
    ensures ClickName(MinimalScene(), PlanetNames, SunMesh, AsteroidMesh) == ""
    ensures ClickName(MinimalScene(), PlanetNames, SunMesh, PlanetOrbit) == ""
  {
    MoonPicks();
    PlanetPicks();
    BlankPicks();
  }

  lemma MoonPicks()
    ensures WellFormed(MinimalScene())
    ensures ClickName(MinimalScene(), PlanetNames, SunMesh, MoonMesh) == "earthMoon"
    ensures ClickName(MinimalScene(), PlanetNames, SunMesh, MoonOrbitLine) == "earthMoon"
  {
    MinimalSceneWellFormed();
    var f := MinimalScene();
    assert "earth" in PlanetNames;
    assert f[MoonOrbit].parent == Some(EarthMesh) && f[EarthMesh].name == Some("earth");
    assert MoonName(f, PlanetNames, Some(MoonOrbit)) == "earth" + "Moon";
  }

  lemma PlanetPicks()
    ensures WellFormed(MinimalScene())
    ensures ClickName(MinimalScene(), PlanetNames, SunMesh, EarthAtmosphere) == "earth"
    ensures ClickName(MinimalScene(), PlanetNames, SunMesh, EarthMesh) == "earth"
    ensures ClickName(MinimalScene(), PlanetNames, SunMesh, SaturnRings) == "saturn"
    ensures ClickName(MinimalScene(), PlanetNames, SunMesh, SunMesh) == "sun"
  {
    MinimalSceneWellFormed();
    var f := MinimalScene();
    assert "earth" in PlanetNames && "saturn" in PlanetNames;
    assert f[SystemGroup].name == None;
  }

  lemma BlankPicks()
    ensures WellFormed(MinimalScene())
    ensures ClickName(MinimalScene(), PlanetNames, SunMesh, SunOuterGlow) == ""
    ensures ClickName(MinimalScene(), PlanetNames, SunMesh, AsteroidMesh) == ""
    ensures ClickName(MinimalScene(), PlanetNames, SunMesh, PlanetOrbit) == ""
  {
    MinimalSceneWellFormed();
    var f := MinimalScene();
    assert f[SceneRoot].parent == None && f[SystemGroup].name == None && f[SunMesh].name == None;
    assert MoonName(f, PlanetNames, Some(SystemGroup)) == "";
    assert MoonName(f, PlanetNames, Some(SunMesh)) == "";
  }

  /** The nodes a click does not hit directly: the scene root, the group, the moon's orbit group and saturn's mesh. */
  lemma GroupPicks()
    ensures WellFormed(MinimalScene())
    ensures ClickName(MinimalScene(), PlanetNames, SunMesh, SceneRoot) == ""
    ensures ClickName(MinimalScene(), PlanetNames, SunMesh, SystemGroup) == ""
    ensures ClickName(MinimalScene(), PlanetNames, SunMesh, MoonOrbit) == "earth"
    ensures ClickName(MinimalScene(), PlanetNames, SunMesh, SaturnMesh) == "saturn"
  {
    MinimalSceneWellFormed();
    var f := MinimalScene();
    assert "earth" in PlanetNames && "saturn" in PlanetNames;
    assert f[SceneRoot].parent == None && f[SystemGroup].name == None;
    assert MoonName(f, PlanetNames, Some(SceneRoot)) == "";
  }

  /** The names the picks above resolve to all have an entry in the table. */
  lemma PickedNamesInTable()
    ensures "sun" in PlanetInfoTable() && "earth" in PlanetInfoTable()
    ensures "earthMoon" in PlanetInfoTable() && "saturn" in PlanetInfoTable()
  {
  }

  /** Every name a click in that scene resolves to is '' or has an entry in the table. */
  lemma MinimalPicksHaveInfo()
    ensures WellFormed(MinimalScene())
    ensures forall id | id in MinimalScene() ::
      var r := ClickName(MinimalScene(), PlanetNames, SunMesh, id);
      r == "" || r in PlanetInfoTable()
  {
    MinimalPicks();
    GroupPicks();
    PickedNamesInTable();
    var f := MinimalScene();
    forall id | id in f
      ensures var r := ClickName(f, PlanetNames, SunMesh, id); r == "" || r in PlanetInfoTable()
    {
      SceneKeys(id);
    }
  }

  /** The scene's nodes are numbered from 0 to 12. */
  lemma SceneKeys(id: NodeId)
    requires id in MinimalScene()
    ensures id in {SceneRoot, SystemGroup, SunMesh, SunOuterGlow, EarthMesh, EarthAtmosphere, MoonOrbit,
                   MoonMesh, SaturnMesh, SaturnRings, AsteroidMesh, MoonOrbitLine, PlanetOrbit}
  {
  }

  /** The module state of js/minimal.js that `animate` and the click handler use. */
  class SolarSystem {
    const math: Trig
    const forest: Forest
    const sunNode: NodeId
    const panel: CelestialBodies.InfoPanel
    /** Whether `THREE.OrbitControls` was available at `init`. */
    const hasControls: bool
    var sun: Sun
    var planets: map<string, Planet>
    /** The `userData` of the direct children of `scene`. */
    var sceneChildren: seq<Thing>
    /** The `userData` of the children of `solarSystemGroup`, where `createAsteroidBelt` puts the asteroids. */
    var groupChildren: seq<Thing>
    /** `controls.target`. */
    var controlsTarget: Position

    constructor (math: Trig, forest: Forest, sunNode: NodeId, panel: CelestialBodies.InfoPanel, hasControls: bool,
                 sun: Sun, planets: map<string, Planet>, sceneChildren: seq<Thing>, groupChildren: seq<Thing>)
      ensures this.math == math && this.forest == forest && this.sunNode == sunNode && this.panel == panel
      ensures this.hasControls == hasControls && this.sun == sun && this.planets == planets
      ensures this.sceneChildren == sceneChildren && this.groupChildren == groupChildren
      ensures controlsTarget == Position(0.0, 20.0, 0.0)
    {
      this.math := math;
      this.forest := forest;
      this.sunNode := sunNode;
      this.panel := panel;
      this.hasControls := hasControls;
      this.sun := sun;
      this.planets := planets;
      this.sceneChildren := sceneChildren;
      this.groupChildren := groupChildren;
      controlsTarget := Position(0.0, 20.0, 0.0);
    }

    /**
     * `animate` as written: the sun, the planets at time `now`, and the
     * asteroid step over the direct children of `scene`, which leaves the
     * asteroids in `solarSystemGroup` untouched.
     */
    method Animate(now: real, draws: nat -> real)
      modifies this
      ensures sun == StepSun(math, old(sun)) && planets == StepPlanets(math, old(planets), now)
      ensures sceneChildren == StepThings(math, old(sceneChildren), draws)
      ensures groupChildren == old(groupChildren) && controlsTarget == old(controlsTarget)
    {
      StepBodies(now);
      sceneChildren := StepAll(math, sceneChildren, draws);
    }

    /** `animate` with the asteroid step over the children of `solarSystemGroup`, where the asteroids are. */
    method AnimateFixed(now: real, draws: nat -> real)
      modifies this
      ensures sun == StepSun(math, old(sun)) && planets == StepPlanets(math, old(planets), now)
      ensures groupChildren == StepThings(math, old(groupChildren), draws)
      ensures sceneChildren == old(sceneChildren) && controlsTarget == old(controlsTarget)
    {
      StepBodies(now);
      groupChildren := StepAll(math, groupChildren, draws);
    }

    /** The sun block and the planet `forEach` of `animate`. */
    method StepBodies(now: real)
      modifies this
      ensures sun == StepSun(math, old(sun)) && planets == StepPlanets(math, old(planets), now)
      ensures sceneChildren == old(sceneChildren) && groupChildren == old(groupChildren)
      ensures controlsTarget == old(controlsTarget)
    {
      var rotation := if sun.currentRotation.None? then 0.0 else sun.currentRotation.value;
      rotation := rotation + 0.005;
      var glow := sun.glow;
      if glow.Some? {
        var phase := glow.value.glowPulse + 0.01;
        var pulse := 0.9 + 0.1 * math.sin(phase);
        glow := Some(SunGlow(phase, pulse, 0.3 * pulse, pulse * 0.95, 0.4 * pulse, pulse * 0.9, 0.5 * pulse));
      }
      sun := Sun(Some(rotation), rotation, glow);
      var names := planets.Keys;
      ghost var start := planets;
      while names != {}
        invariant names <= planets.Keys && planets.Keys == start.Keys
        invariant sun == StepSun(math, old(sun)) && start == old(planets)
        invariant sceneChildren == old(sceneChildren) && groupChildren == old(groupChildren)
        invariant controlsTarget == old(controlsTarget)
        invariant forall k | k in planets :: planets[k] == if k in names then start[k] else StepPlanet(math, start[k], now)
        decreases names
      {
        var name :| name in names;
        var planet := AdvancePlanet(math, planets[name], now);
        planets := planets[name := planet];
        names := names - {name};
      }
    }

    /** The body of the planet `forEach` for one planet. */
    static method AdvancePlanet(math: Trig, planet: Planet, now: real) returns (next: Planet)
      ensures next == StepPlanet(math, planet, now)
    {
      var angle := Angle(planet.orbitalSpeed, now);
      var d, tilt := planet.distance, planet.tilt;
      var pos := Position(d * math.cos(angle), d * math.sin(angle) * math.sin(tilt), d * math.sin(angle) * math.cos(tilt));
      var rotation := if planet.currentRotation.None? then 0.0 else planet.currentRotation.value;
      rotation := rotation + planet.rotationSpeed * 0.1;
      var children := planet.children;
      var i := 0;
      while i < |children|
        invariant 0 <= i <= |children| && |children| == |planet.children|
        invariant forall j | 0 <= j < |children| :: children[j] == if j < i then SpinSatellite(planet.children[j]) else planet.children[j]
      {
        if children[i].isOrbit {
          children := children[i := children[i].(spinY := children[i].spinY + children[i].rotationSpeed)];
        }
        i := i + 1;
      }
      next := planet.(pos := pos, currentRotation := Some(rotation), spinY := rotation, children := children);
    }

    /** The asteroid `forEach` over one child list. */
    static method StepAll(math: Trig, objs: seq<Thing>, draws: nat -> real) returns (next: seq<Thing>)
      ensures next == StepThings(math, objs, draws)
    {
      next := objs;
      for i := 0 to |objs|
        invariant |next| == |objs|
        invariant forall j | 0 <= j < |objs| :: next[j] == if j < i then StepThing(math, objs[j], draws(j)) else objs[j]
      {
        var o := objs[i];
        if o.orbitRadius.Some? {
          var angle := o.orbitAngle + o.orbitSpeed;
          var radius := o.orbitRadius.value;
          var h := if o.height.None? then (draws(i) - 0.5) * 2.0 else o.height.value;
          o := o.(rx := o.rx + o.rotationSpeed, ry := o.ry + o.rotationSpeed, orbitAngle := angle, height := Some(h),
                  pos := Position(radius * math.cos(angle), h, radius * math.sin(angle)));
        }
        next := next[i := o];
      }
    }

    /** The name-resolution part of the click handler, with its walk up the parents. */
    method ResolveName(hit: NodeId) returns (planetName: string)
      requires WellFormed(forest) && hit in forest
      ensures planetName == ClickName(forest, planets.Keys, sunNode, hit)
    {
      var node := forest[hit];
      planetName := "";
      if hit == sunNode {
        planetName := "sun";
      } else if node.parent.Some? && IsPlanet(planets.Keys, forest[node.parent.value].name) {
        planetName := forest[node.parent.value].name.value;
      } else if IsPlanet(planets.Keys, node.name) {
        planetName := node.name.value;
      } else {
        var parent := node.parent;
        while parent.Some?
          invariant parent.Some? ==> parent.value in forest
          invariant MoonName(forest, planets.Keys, parent) == MoonName(forest, planets.Keys, node.parent)
          invariant planetName == ""
          decreases if parent.Some? then forest[parent.value].depth + 1 else 0
        {
          var grand := forest[parent.value].parent;
          if grand.Some? && IsPlanet(planets.Keys, forest[grand.value].name) {
            planetName := forest[grand.value].name.value + "Moon";
            break;
          }
          parent := grand;
        }
      }
    }

    /**
     * The click handler given the raycaster's hits, nearest first: only the
     * first hit counts, and a name resolved to '' shows nothing.
     */
    method OnClick(hits: seq<NodeId>)
      requires WellFormed(forest) && forall i | 0 <= i < |hits| :: hits[i] in forest
      modifies this, panel
      ensures var shown := if |hits| > 0 then ClickName(forest, old(planets).Keys, sunNode, hits[0]) else "";
        if shown != "" && shown in PlanetInfoTable() then
          && panel.innerHTML == Html(InfoLines(PlanetInfoTable()[shown]))
          && controlsTarget == (if hasControls && FocusPoint(planets, shown).Some? then FocusPoint(planets, shown).value else old(controlsTarget))
        else
          panel.innerHTML == old(panel.innerHTML) && controlsTarget == old(controlsTarget)
      ensures sun == old(sun) && planets == old(planets)
      ensures sceneChildren == old(sceneChildren) && groupChildren == old(groupChildren)
    {
      if |hits| > 0 {
        var planetName := ResolveName(hits[0]);
        if planetName != "" {
          ShowPlanetInfo(planetName);
        }
      }
    }

    /** `showPlanetInfo`: an unknown name changes nothing; a known one fills the panel and focuses the camera. */
    method ShowPlanetInfo(planetName: string)
      modifies this, panel
      ensures planetName in PlanetInfoTable() ==>
        && panel.innerHTML == Html(InfoLines(PlanetInfoTable()[planetName]))
        && controlsTarget == (if hasControls && FocusPoint(planets, planetName).Some?
                              then FocusPoint(planets, planetName).value else old(controlsTarget))
      ensures planetName !in PlanetInfoTable() ==> panel.innerHTML == old(panel.innerHTML) && controlsTarget == old(controlsTarget)
      ensures sun == old(sun) && planets == old(planets)
      ensures sceneChildren == old(sceneChildren) && groupChildren == old(groupChildren)
    {
      if planetName !in PlanetInfoTable() {
        return;
      }
      WriteInfo(panel, PlanetInfoTable()[planetName]);
      FocusCameraOnPlanet(planetName);
    }

    /** `focusCameraOnPlanet`: without controls or without a target it does nothing. */
    method FocusCameraOnPlanet(planetName: string)
      modifies this
      ensures controlsTarget == if hasControls && FocusPoint(planets, planetName).Some?
                                then FocusPoint(planets, planetName).value else old(controlsTarget)
      ensures sun == old(sun) && planets == old(planets)
      ensures sceneChildren == old(sceneChildren) && groupChildren == old(groupChildren)
    {
      if !hasControls {
        return;
      }
      var target: Option<Position>;
      if planetName == "sun" {
        target := Some(Origin);
      } else if planetName == "earthMoon" {
        target := if "earth" in planets then Some(planets["earth"].pos) else None;
      } else {
        target := if planetName in planets then Some(planets[planetName].pos) else None;
      }
      if target.None? {
        return;
      }
      controlsTarget := target.value;
    }
  }

  /** The `html +=` accumulation of `showPlanetInfo`, written to the panel. */
  method WriteInfo(panel: CelestialBodies.InfoPanel, i: PlanetInfo)
    modifies panel
    ensures panel.innerHTML == Html(InfoLines(i))
  {
    var html := Render(Line(Heading, i.name));
    ghost var lines := [Line(Heading, i.name)];
    assert html == Html(lines) by {
      HtmlAppend([], Line(Heading, i.name));
    }
    html := html + Render(Line(Description, i.description));
    HtmlAppend(lines, Line(Description, i.description));
    lines := lines + [Line(Description, i.description)];
    if Present(i.distance) {
      html := html + Render(Line(Distance, i.distance.value));
      HtmlAppend(lines, Line(Distance, i.distance.value));
      lines := lines + [Line(Distance, i.distance.value)];
    }
    assert lines == [Line(Heading, i.name), Line(Description, i.description)] + FieldLines(Distance, i.distance);
    if Present(i.diameter) {
      html := html + Render(Line(Diameter, i.diameter.value));
      HtmlAppend(lines, Line(Diameter, i.diameter.value));
      lines := lines + [Line(Diameter, i.diameter.value)];
    }
    assert lines == [Line(Heading, i.name), Line(Description, i.description)] + FieldLines(Distance, i.distance)
      + FieldLines(Diameter, i.diameter);
    if Present(i.rotation) {
      html := html + Render(Line(Rotation, i.rotation.value));
      HtmlAppend(lines, Line(Rotation, i.rotation.value));
      lines := lines + [Line(Rotation, i.rotation.value)];
    }
    assert lines == [Line(Heading, i.name), Line(Description, i.description)] + FieldLines(Distance, i.distance)
      + FieldLines(Diameter, i.diameter) + FieldLines(Rotation, i.rotation);
    html := html + Render(Line(Info, i.info));
    HtmlAppend(lines, Line(Info, i.info));
    lines := lines + [Line(Info, i.info)];
    assert lines == InfoLines(i);
    panel.innerHTML := html;
  }
}
