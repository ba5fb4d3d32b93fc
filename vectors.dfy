/**
 * The plain vector arithmetic the builder borrows from THREE.js (`add`, `sub`,
 * `cross`, `multiplyScalar`) and the flat stride-3 / stride-2 number arrays the
 * builder packs vectors into (`positions.push(P.x, P.y, P.z)`,
 * `_N.fromArray(normals, i)`).
 */
module Vectors {

  datatype Vec3 = Vec3(x: real, y: real, z: real)
  datatype Vec2 = Vec2(u: real, v: real)

  function Add(a: Vec3, b: Vec3): Vec3 { Vec3(a.x + b.x, a.y + b.y, a.z + b.z) }
  function Sub(a: Vec3, b: Vec3): Vec3 { Vec3(a.x - b.x, a.y - b.y, a.z - b.z) }
  function Scale(a: Vec3, s: real): Vec3 { Vec3(a.x * s, a.y * s, a.z * s) }
  const Zero := Vec3(0.0, 0.0, 0.0)

  /** `a.cross(b)` as THREE.js computes it. */
  function Cross(a: Vec3, b: Vec3): Vec3 {
    Vec3(a.y * b.z - a.z * b.y, a.z * b.x - a.x * b.z, a.x * b.y - a.y * b.x)
  }

  /** The cross product is perpendicular to both of its arguments. */
  lemma CrossPerpendicular(a: Vec3, b: Vec3)
    ensures Dot(Cross(a, b), a) == 0.0 && Dot(Cross(a, b), b) == 0.0
  {
    var c := Cross(a, b);
    assert c.x * a.x + c.y * a.y + c.z * a.z == 0.0;
    assert c.x * b.x + c.y * b.y + c.z * b.z == 0.0;
  }

  function Dot(a: Vec3, b: Vec3): real { a.x * b.x + a.y * b.y + a.z * b.z }

  /** Component `c` (0, 1 or 2) of a vector, the slot it occupies in a flat array. */
  function Comp(a: Vec3, c: int): real
    requires 0 <= c < 3
  {
    if c == 0 then a.x else if c == 1 then a.y else a.z
  }

  function Comp2(a: Vec2, c: int): real
    requires 0 <= c < 2
  {
    if c == 0 then a.u else a.v
  }

  /** `_N.fromArray(s, 3 * v)`: the vector stored at slot `v` of a stride-3 array. */
  function At3(s: seq<real>, v: int): Vec3
    requires 0 <= v && 3 * v + 2 < |s|
  {
    Vec3(s[3 * v], s[3 * v + 1], s[3 * v + 2])
  }

  /** The pair stored at slot `v` of a stride-2 array. */
  function At2(s: seq<real>, v: int): Vec2
    requires 0 <= v && 2 * v + 1 < |s|
  {
    Vec2(s[2 * v], s[2 * v + 1])
  }

  /** Pack vectors into a flat stride-3 array, as repeated `push(x, y, z)` does. */
  function Flatten3(vs: seq<Vec3>): (r: seq<real>)
    ensures |r| == 3 * |vs|
  {
    seq(3 * |vs|, k requires 0 <= k < 3 * |vs| => Comp(vs[k / 3], k % 3))
  }

  /** Pack pairs into a flat stride-2 array, as repeated `push(u, v)` does. */
  function Flatten2(vs: seq<Vec2>): (r: seq<real>)
    ensures |r| == 2 * |vs|
  {
    seq(2 * |vs|, k requires 0 <= k < 2 * |vs| => Comp2(vs[k / 2], k % 2))
  }

  /** Slot `3 * v + c` of a packed array holds component `c` of vector `v`. */
  lemma Flatten3At(vs: seq<Vec3>, v: int, c: int)
    requires 0 <= v < |vs| && 0 <= c < 3
    ensures Flatten3(vs)[3 * v + c] == Comp(vs[v], c)
  {
    assert (3 * v + c) / 3 == v && (3 * v + c) % 3 == c;
  }

  lemma Flatten2At(vs: seq<Vec2>, v: int, c: int)
    requires 0 <= v < |vs| && 0 <= c < 2
    ensures Flatten2(vs)[2 * v + c] == Comp2(vs[v], c)
  {
    assert (2 * v + c) / 2 == v && (2 * v + c) % 2 == c;
  }

  /** Reading a packed array back gives the vectors that were packed. */
  lemma At3Flatten3(vs: seq<Vec3>, v: int)
    requires 0 <= v < |vs|
    ensures At3(Flatten3(vs), v) == vs[v]
  {
    Flatten3At(vs, v, 0);
    Flatten3At(vs, v, 1);
    Flatten3At(vs, v, 2);
  }

  /** A flat array is the packing of the vectors read back from it. */
  lemma Flatten3OfAt3(s: seq<real>, vs: seq<Vec3>)
    requires |s| == 3 * |vs|
    requires forall v :: 0 <= v < |vs| ==> At3(s, v) == vs[v]
    ensures s == Flatten3(vs)
  {
    forall k | 0 <= k < |s| ensures s[k] == Flatten3(vs)[k] {
      var v, c := k / 3, k % 3;
      assert k == 3 * v + c;
      Flatten3At(vs, v, c);
      assert At3(s, v) == vs[v];
    }
  }

  lemma Flatten2OfAt2(s: seq<real>, vs: seq<Vec2>)
    requires |s| == 2 * |vs|
    requires forall v :: 0 <= v < |vs| ==> At2(s, v) == vs[v]
    ensures s == Flatten2(vs)
  {
    forall k | 0 <= k < |s| ensures s[k] == Flatten2(vs)[k] {
      var v, c := k / 2, k % 2;
      assert k == 2 * v + c;
      Flatten2At(vs, v, c);
      assert At2(s, v) == vs[v];
    }
  }
}
