/**
 * The table logic of `noise.simplex3` in js/utils.js: the random
 * permutation table `perm` and the gradient table `gradP` built once at
 * load time, the choice of the simplex corners, and the hashing of lattice
 * coordinates into the tables.
 */
module Noise {

  /** One of the twelve gradient directions. */
  datatype Grad = Grad(x: int, y: int, z: int)

  /** `grad3`: the midpoints of the twelve edges of a cube. */
  function Grad3(): (g: seq<Grad>)
    ensures |g| == 12
  {
    [Grad(1, 1, 0), Grad(-1, 1, 0), Grad(1, -1, 0), Grad(-1, -1, 0),
     Grad(1, 0, 1), Grad(-1, 0, 1), Grad(1, 0, -1), Grad(-1, 0, -1),
     Grad(0, 1, 1), Grad(0, -1, 1), Grad(0, 1, -1), Grad(0, -1, -1)]
  }

  /** The tables as the load-time loops leave them. */
  ghost predicate Tables(perm: seq<int>, gradP: seq<Grad>) {
    && |perm| == 512 && |gradP| == 512
    && (forall i | 0 <= i < 512 :: 0 <= perm[i] < 256 && perm[i] == perm[i % 256])
    && (forall i | 0 <= i < 512 :: gradP[i] == Grad3()[perm[i] % 12])
  }

  /**
   * The load-time loops: `p[i] = Math.floor(random[i] * 256)` for 256 draws
   * of `Math.random()`, then `perm[i] = p[i & 255]` and
   * `gradP[i] = grad3[perm[i] % 12]` for 512 entries. For the non-negative
   * `i` of the loop, `i & 255` is `i % 256`.
   */
  method Seed(random: seq<real>) returns (perm: array<int>, gradP: array<Grad>)
    requires |random| == 256
    requires forall r | r in random :: 0.0 <= r < 1.0
    ensures perm.Length == 512 && gradP.Length == 512
    ensures forall i | 0 <= i < 512 :: perm[i] == (random[i % 256] * 256.0).Floor
    ensures Tables(perm[..], gradP[..])
  {
    var p := new int[256];
    for i := 0 to 256
      invariant forall m | 0 <= m < i :: p[m] == (random[m] * 256.0).Floor && 0 <= p[m] < 256
    {
      assert random[i] in random;
      p[i] := (random[i] * 256.0).Floor;
    }
    perm, gradP := BuildTables(p);
  }

  /** The second load-time loop, over the 256 draws `p`. */
  method BuildTables(p: array<int>) returns (perm: array<int>, gradP: array<Grad>)
    requires p.Length == 256 && forall m | 0 <= m < 256 :: 0 <= p[m] < 256
    ensures perm.Length == 512 && gradP.Length == 512
    ensures forall i | 0 <= i < 512 :: perm[i] == p[i % 256]
    ensures Tables(perm[..], gradP[..])
  {
    perm := new int[512];
    gradP := new Grad[512](_ => Grad(0, 0, 0));
    for i := 0 to 512
      invariant forall m | 0 <= m < i :: perm[m] == p[m % 256]
      invariant forall m | 0 <= m < i :: gradP[m] == Grad3()[perm[m] % 12]
    {
      perm[i] := p[i % 256];
      gradP[i] := Grad3()[perm[i] % 12];
    }
  }

  /** A corner offset of the simplex, relative to its base lattice point. */
  datatype Offset = Offset(i: int, j: int, k: int)

  /** How many of the three components are 1. */
  function Ones(o: Offset): nat {
    (if o.i == 1 then 1 else 0) + (if o.j == 1 then 1 else 0) + (if o.k == 1 then 1 else 0)
  }

  /**
   * The second and third corners of the simplex holding the point with
   * offsets `(x0, y0, z0)` from its base: the two branches of comparisons.
   */
  function Corners(x0: real, y0: real, z0: real): (c: (Offset, Offset))
    ensures c.0.i in {0, 1} && c.0.j in {0, 1} && c.0.k in {0, 1}
    ensures c.1.i in {0, 1} && c.1.j in {0, 1} && c.1.k in {0, 1}
    ensures Ones(c.0) == 1 && Ones(c.1) == 2
    ensures c.0.i <= c.1.i && c.0.j <= c.1.j && c.0.k <= c.1.k
  {
    if x0 >= y0 then
      if y0 >= z0 then (Offset(1, 0, 0), Offset(1, 1, 0))
      else if x0 >= z0 then (Offset(1, 0, 0), Offset(1, 0, 1))
      else (Offset(0, 0, 1), Offset(1, 0, 1))
    else
      if y0 < z0 then (Offset(0, 0, 1), Offset(0, 1, 1))
      else if x0 < z0 then (Offset(0, 1, 0), Offset(0, 1, 1))
      else (Offset(0, 1, 0), Offset(1, 1, 0))
  }

  /**
   * The corners follow the order of the offsets: the first steps along an
   * axis of largest offset, and the second leaves out an axis of smallest
   * offset, so the four corners walk the simplex that holds the point.
   */
  lemma CornersFollowOrder(x0: real, y0: real, z0: real)
    ensures var c := Corners(x0, y0, z0);
      && (c.0.i == 1 ==> x0 >= y0 && x0 >= z0)
      && (c.0.j == 1 ==> y0 >= x0 && y0 >= z0)
      && (c.0.k == 1 ==> z0 >= x0 && z0 >= y0)
      && (c.1.i == 0 ==> x0 <= y0 && x0 <= z0)
      && (c.1.j == 0 ==> y0 <= x0 && y0 <= z0)
      && (c.1.k == 0 ==> z0 <= x0 && z0 <= y0)
  {
  }

  /**
   * The four `gradP` indices of `simplex3`, for base coordinates already
   * reduced by `& 255` and the two middle corners.
   */
  function GradientIndices(perm: seq<int>, i: int, j: int, k: int, c1: Offset, c2: Offset): (g: seq<int>)
    requires |perm| == 512 && forall m | 0 <= m < 512 :: 0 <= perm[m] < 256
    requires 0 <= i < 256 && 0 <= j < 256 && 0 <= k < 256
    requires c1.i in {0, 1} && c1.j in {0, 1} && c1.k in {0, 1}
    requires c2.i in {0, 1} && c2.j in {0, 1} && c2.k in {0, 1}
    ensures |g| == 4 && forall n | 0 <= n < 4 :: 0 <= g[n] < 512
  {
    [(i + perm[j + perm[k]]) % 512,
     (i + c1.i + perm[j + c1.j + perm[k + c1.k]]) % 512,
     (i + c2.i + perm[j + c2.j + perm[k + c2.k]]) % 512,
     (i + 1 + perm[j + 1 + perm[k + 1]]) % 512]
  }

  /** Every inner index of the hash stays below 512 without wrapping: `j + 1 + perm[…]` is at most 511. */
  lemma InnerIndicesInRange(perm: seq<int>, j: int, k: int, dj: int, dk: int)
    requires |perm| == 512 && forall m | 0 <= m < 512 :: 0 <= perm[m] < 256
    requires 0 <= j < 256 && 0 <= k < 256 && dj in {0, 1} && dk in {0, 1}
    ensures 0 <= k + dk < 512 && 0 <= j + dj + perm[k + dk] < 512
  {
  }

  /** Each table entry is one of the twelve gradients, and the table repeats with period 256. */
  lemma TablesDrawFromGrad3(perm: seq<int>, gradP: seq<Grad>)
    requires Tables(perm, gradP)
    ensures forall n | 0 <= n < 512 :: gradP[n] in Grad3() && gradP[n] == gradP[n % 256]
  {
    forall n | 0 <= n < 512
      ensures gradP[n] in Grad3() && gradP[n] == gradP[n % 256]
    {
      assert gradP[n] == Grad3()[perm[n] % 12];
      assert gradP[n % 256] == Grad3()[perm[n % 256] % 12];
    }
  }

  /** `dot(g, x, y, z)`. */
  function Dot(g: Grad, x: real, y: real, z: real): real {
    g.x as real * x + g.y as real * y + g.z as real * z
  }

  /** The contribution of one corner: zero outside the radius, else `t⁴ · dot`. */
  function Contribution(g: Grad, x: real, y: real, z: real): real {
    var t := 0.6 - x * x - y * y - z * z;
    if t < 0.0 then 0.0 else var t2 := t * t; t2 * t2 * Dot(g, x, y, z)
  }

  const F3: real := 1.0 / 3.0
  const G3: real := 1.0 / 6.0

  /** `noise.simplex3(xin, yin, zin)` over the tables, with real arithmetic for the floating-point one. */
  function Simplex3(perm: seq<int>, gradP: seq<Grad>, xin: real, yin: real, zin: real): real
    requires Tables(perm, gradP)
  {
    var s := (xin + yin + zin) * F3;
    var i := (xin + s).Floor;
    var j := (yin + s).Floor;
    var k := (zin + s).Floor;
    var t := (i + j + k) as real * G3;
    var x0 := xin - i as real + t;
    var y0 := yin - j as real + t;
    var z0 := zin - k as real + t;
    var c := Corners(x0, y0, z0);
    var c1 := c.0;
    var c2 := c.1;
    var g := GradientIndices(perm, i % 256, j % 256, k % 256, c1, c2);
    var n0 := Contribution(gradP[g[0]], x0, y0, z0);
    var n1 := Contribution(gradP[g[1]], x0 - c1.i as real + G3, y0 - c1.j as real + G3, z0 - c1.k as real + G3);
    var n2 := Contribution(gradP[g[2]], x0 - c2.i as real + 2.0 * G3, y0 - c2.j as real + 2.0 * G3, z0 - c2.k as real + 2.0 * G3);
    var n3 := Contribution(gradP[g[3]], x0 - 1.0 + 3.0 * G3, y0 - 1.0 + 3.0 * G3, z0 - 1.0 + 3.0 * G3);
    32.0 * (n0 + n1 + n2 + n3)
  }
}
