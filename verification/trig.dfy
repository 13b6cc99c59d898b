/**
 * The trigonometry the scene updaters use. `Math.sin` and `Math.cos` are not
 * definable here, so they are passed around as a pair of functions, and the
 * facts the proofs need about them are collected in `Lawful`.
 */
module Trig {

  datatype Trig = Trig(sin: real -> real, cos: real -> real)

  /** Real addition, named so that the addition laws have a trigger. */
  function Sum(a: real, b: real): real { a + b }

  /** Pythagoras and the angle-addition laws, which the real sine and cosine satisfy. */
  ghost predicate Lawful(t: Trig) {
    && t.sin(0.0) == 0.0
    && t.cos(0.0) == 1.0
    && (forall a {:trigger t.sin(a)} :: t.sin(a) * t.sin(a) + t.cos(a) * t.cos(a) == 1.0)
    && (forall a, b {:trigger t.sin(Sum(a, b))} :: t.sin(Sum(a, b)) == t.sin(a) * t.cos(b) + t.cos(a) * t.sin(b))
    && (forall a, b {:trigger t.cos(Sum(a, b))} :: t.cos(Sum(a, b)) == t.cos(a) * t.cos(b) - t.sin(a) * t.sin(b))
  }

  /**
   * The angle turned at `speed` over `time`. Named, so that angles built from
   * equal speeds and times are recognised as equal without arithmetic.
   */
  function Angle(speed: real, time: real): real { speed * time }

  /** Turning for d1 and then for d2 at one speed is turning for d1 + d2. */
  lemma AngleAdds(speed: real, d1: real, d2: real)
    ensures Sum(Angle(speed, d1), Angle(speed, d2)) == Angle(speed, d1 + d2)
  {
  }

  /** A point (x, z) in the orbital plane. */
  datatype Point = Point(x: real, z: real)

  function Norm2(p: Point): real { p.x * p.x + p.z * p.z }

  /**
   * The orbit step of `updateScene`: the point (x, z) turned by `angle`,
   * x' = x cos a - z sin a, z' = x sin a + z cos a.
   */
  function Rotate(t: Trig, p: Point, angle: real): Point {
    Point(p.x * t.cos(angle) - p.z * t.sin(angle), p.x * t.sin(angle) + p.z * t.cos(angle))
  }

  /** A rotation keeps the distance from the origin. */
  lemma RotateKeepsNorm(t: Trig, p: Point, angle: real)
    requires Lawful(t)
    ensures Norm2(Rotate(t, p, angle)) == Norm2(p)
  {
    var c, s := t.cos(angle), t.sin(angle);
    var q := Rotate(t, p, angle);
    calc {
      Norm2(q);
      (p.x * c - p.z * s) * (p.x * c - p.z * s) + (p.x * s + p.z * c) * (p.x * s + p.z * c);
      p.x * p.x * (c * c + s * s) + p.z * p.z * (s * s + c * c);
      { assert s * s + c * c == 1.0; }
      Norm2(p);
    }
  }

  /** Turning by a and then by b is turning by a + b. */
  lemma RotateCompose(t: Trig, p: Point, a: real, b: real)
    requires Lawful(t)
    ensures Rotate(t, Rotate(t, p, a), b) == Rotate(t, p, Sum(a, b))
  {
    RotateTwiceBy(t, p, a, b);
  }

  /** `RotateCompose` from the two addition laws at a and b alone. */
  lemma RotateTwiceBy(t: Trig, p: Point, a: real, b: real)
    requires t.cos(Sum(a, b)) == t.cos(a) * t.cos(b) - t.sin(a) * t.sin(b)
    requires t.sin(Sum(a, b)) == t.sin(a) * t.cos(b) + t.cos(a) * t.sin(b)
    ensures Rotate(t, Rotate(t, p, a), b) == Rotate(t, p, Sum(a, b))
  {
    RotateTwice(p.x, p.z, t.cos(a), t.sin(a), t.cos(b), t.sin(b), t.cos(Sum(a, b)), t.sin(Sum(a, b)));
  }

  /** The polynomial identity behind `RotateCompose`, free of the trigonometric laws. */
  lemma RotateTwice(x: real, z: real, ca: real, sa: real, cb: real, sb: real, cs: real, ss: real)
    requires cs == ca * cb - sa * sb && ss == sa * cb + ca * sb
    ensures Point((x * ca - z * sa) * cb - (x * sa + z * ca) * sb, (x * ca - z * sa) * sb + (x * sa + z * ca) * cb)
         == Point(x * cs - z * ss, x * ss + z * cs)
  {
  }

  /** The sine stays within [-1, 1]. */
  lemma SinBounded(t: Trig, a: real)
    requires Lawful(t)
    ensures -1.0 <= t.sin(a) <= 1.0
  {
    var s, c := t.sin(a), t.cos(a);
    assert s * s + c * c == 1.0;
    assert c * c >= 0.0;
  }

  /** Turning by 0 changes nothing. */
  lemma RotateZero(t: Trig, p: Point)
    requires Lawful(t)
    ensures Rotate(t, p, 0.0) == p
  {
  }

  /** The angle an accumulator `angle += speed * delta` reaches after the frames `deltas`. */
  function Accumulate(angle: real, speed: real, deltas: seq<real>): real
    decreases |deltas|
  {
    if deltas == [] then angle else Accumulate(angle + speed * deltas[0], speed, deltas[1..])
  }

  /** The total of a sequence of frame times. */
  function Total(deltas: seq<real>): real
    decreases |deltas|
  {
    if deltas == [] then 0.0 else deltas[0] + Total(deltas[1..])
  }

  /**
   * The angular accumulation law: however the time is cut into frames, the
   * accumulated angle is the start angle plus speed times the total time.
   */
  lemma {:induction false} AccumulateIsLinear(angle: real, speed: real, deltas: seq<real>)
    ensures Accumulate(angle, speed, deltas) == angle + speed * Total(deltas)
    decreases |deltas|
  {
    if deltas != [] {
      AccumulateIsLinear(angle + speed * deltas[0], speed, deltas[1..]);
    }
  }
}
