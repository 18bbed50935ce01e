/**
 * `Cube::new`: a batch of axis-aligned cubes centred on the origin, one per
 * size, each read from a fixed template of 36 corners (12 triangles, two per
 * face) and drawn as a triangle list without indices.
 */
module Cube {
  import opened Errors
  import opened Shapes

  /** The template, three coordinates per corner, every three corners a triangle. */
  const Template: seq<real> := [
      -1.0, -1.0, -1.0, -1.0, -1.0, 1.0, -1.0, 1.0, 1.0,
      1.0, 1.0, -1.0, -1.0, -1.0, -1.0, -1.0, 1.0, -1.0,
      1.0, -1.0, 1.0, -1.0, -1.0, -1.0, 1.0, -1.0, -1.0,
      1.0, 1.0, -1.0, 1.0, -1.0, -1.0, -1.0, -1.0, -1.0,
      -1.0, -1.0, -1.0, -1.0, 1.0, 1.0, -1.0, 1.0, -1.0,
      1.0, -1.0, 1.0, -1.0, -1.0, 1.0, -1.0, -1.0, -1.0,
      -1.0, 1.0, 1.0, -1.0, -1.0, 1.0, 1.0, -1.0, 1.0,
      1.0, 1.0, 1.0, 1.0, -1.0, -1.0, 1.0, 1.0, -1.0,
      1.0, -1.0, -1.0, 1.0, 1.0, 1.0, 1.0, -1.0, 1.0,
      1.0, 1.0, 1.0, 1.0, 1.0, -1.0, -1.0, 1.0, -1.0,
      1.0, 1.0, 1.0, -1.0, 1.0, -1.0, -1.0, 1.0, 1.0,
      1.0, 1.0, 1.0, -1.0, 1.0, 1.0, 1.0, -1.0, 1.0 ]

  /** Corners in the template. */
  const Corners: nat := 36

  /** Corners the constructor's inner loop pushes per cube (`for _ in 0..35`). */
  const Pushed: nat := 35

  /** Template corner `k` of `tpl` scaled by `size`: uncoloured, texcoord (0,0). */
  function CubeVertex(tpl: seq<real>, size: real, k: nat): Vertex
    requires |tpl| == 3 * Corners && k < Corners
  {
    Vertex(tpl[3 * k] * size, tpl[3 * k + 1] * size, tpl[3 * k + 2] * size, Transparent, 0.0, 0.0)
  }

  /** The first `m` corners of `tpl` scaled by `size`. */
  function Block(tpl: seq<real>, size: real, m: nat): (r: seq<Vertex>)
    requires |tpl| == 3 * Corners && m <= Corners
    ensures |r| == m
  {
    if m == 0 then [] else Block(tpl, size, m - 1) + [CubeVertex(tpl, size, m - 1)]
  }

  /** The uncoloured vertices of the first `n` cubes, `per` corners each. */
  function Cubes(tpl: seq<real>, s: seq<real>, n: nat, per: nat): (r: seq<Vertex>)
    requires |tpl| == 3 * Corners && n <= |s| && per <= Corners
    ensures |r| == per * n
  {
    if n == 0 then [] else Cubes(tpl, s, n - 1, per) + Block(tpl, s[n - 1], per)
  }

  /** The shape built from `per` corners per cube, fill then stroke stamped. */
  function Build(view: View, s: seq<real>, per: nat): Shape
    requires per <= Corners
  {
    var fill := Stamped(Cubes(Template, s, |s|, per), view.fillCol);
    Shape(fill, Stamped(fill, view.strokeCol), NoBuffer(TrianglesList), NoBuffer(LineLoop), None)
  }

  /** What `Cube::new` returns as written: 35 corners per cube. */
  function Spec(view: View, s: seq<real>): Shape
  {
    Build(view, s, Pushed)
  }

  /** What the constructor evidently means: the whole template, 36 corners per cube. */
  function CorrectedSpec(view: View, s: seq<real>): Shape
  {
    Build(view, s, Corners)
  }

  /**
   * `Cube::new`. Both uploads are unwrapped in the source, so a refused
   * upload is a panic the caller must rule out.
   */
  method New(view: View, vbOk: seq<Vertex> -> bool, s: seq<real>) returns (r: Shape)
    requires vbOk(Spec(view, s).fill) && vbOk(Spec(view, s).stroke)
    ensures r == Spec(view, s)
  {
    var shape := [];
    for c := 0 to |s|
      invariant shape == Cubes(Template, s, c, Pushed)
    {
      shape := PushCube(shape, Template, s[c]);
    }
    var fill, stroke := StampFillThenStroke(shape, view);
    r := Shape(fill, stroke, NoBuffer(TrianglesList), NoBuffer(LineLoop), None);
  }

  /** The inner loop: walk the template three coordinates at a time, 35 times. */
  method PushCube(shape: seq<Vertex>, tpl: seq<real>, size: real) returns (out: seq<Vertex>)
    requires |tpl| == 3 * Corners
    ensures out == shape + Block(tpl, size, Pushed)
  {
    out := shape;
    var x := 0;
    for k := 0 to Pushed
      invariant x == 3 * k
      invariant out == shape + Block(tpl, size, k)
    {
      var v := Vertex(tpl[x] * size, tpl[x + 1] * size, tpl[x + 2] * size, Transparent, 0.0, 0.0);
      assert v == CubeVertex(tpl, size, k);
      out := out + [v];
      assert out == shape + (Block(tpl, size, k) + [v]);
      x := x + 3;
    }
  }

  /** Corner `k` of cube `c` sits at offset per*c + k. */
  lemma {:induction false} CubesAt(tpl: seq<real>, s: seq<real>, n: nat, per: nat, c: nat, k: nat)
    requires |tpl| == 3 * Corners && n <= |s| && per <= Corners && c < n && k < per
    ensures per * c + k < per * n
    ensures Cubes(tpl, s, n, per)[per * c + k] == CubeVertex(tpl, s[c], k)
  {
    if c < n - 1 {
      CubesAt(tpl, s, n - 1, per, c, k);
      MulMonotone(per, c + 1, n - 1);
    } else {
      BlockAt(tpl, s[c], per, k);
    }
  }

  lemma MulMonotone(p: nat, a: nat, b: nat)
    requires a <= b
    ensures p * a <= p * b
  {
  }

  /** Corner `k` of `Block(m)` is template corner `k`. */
  lemma {:induction false} BlockAt(tpl: seq<real>, size: real, m: nat, k: nat)
    requires |tpl| == 3 * Corners && m <= Corners && k < m
    ensures Block(tpl, size, m)[k] == CubeVertex(tpl, size, k)
  {
    if k < m - 1 {
      BlockAt(tpl, size, m - 1, k);
    }
  }

  /** Template triangle `t` lies in the face where coordinate `axis` is `side`. */
  predicate OnFace(t: nat, axis: nat, side: real)
    requires t < Corners / 3 && axis < 3
  {
    Template[9 * t + axis] == side && Template[9 * t + 3 + axis] == side && Template[9 * t + 6 + axis] == side
  }

  /**
   * Template triangle 11, the one the constructor leaves incomplete, lies in
   * the face z = +1; its last corner, never read, is (1, -1, 1).
   */
  lemma TopFaceTriangle()
    ensures OnFace(11, 2, 1.0)
    ensures Template[3 * Pushed .. 3 * Corners] == [1.0, -1.0, 1.0]
  {
    assert Template[101] == 1.0 && Template[104] == 1.0 && Template[107] == 1.0;
    assert Template[105..108] == [1.0, -1.0, 1.0];
  }

  /**
   * As written, a cube gets 35 corners: eleven whole triangles and two
   * corners left over, and template corner 35 is never read. In a batch of
   * two the leftover corners of the first cube form a triangle with the
   * first corner of the second.
   */
  lemma {:induction false} AsWrittenLosesTriangle(tpl: seq<real>, s: seq<real>)
    requires |tpl| == 3 * Corners && |s| >= 2
    ensures Pushed % 3 == 2 && Pushed / 3 == 11
    ensures var g := Cubes(tpl, s, |s|, Pushed);
      |g| == 35 * |s| &&
      g[33] == CubeVertex(tpl, s[0], 33) && g[34] == CubeVertex(tpl, s[0], 34) &&
      g[35] == CubeVertex(tpl, s[1], 0)
  {
    CubesAt(tpl, s, |s|, Pushed, 0, 33);
    CubesAt(tpl, s, |s|, Pushed, 0, 34);
    CubesAt(tpl, s, |s|, Pushed, 1, 0);
  }

  /**
   * With the whole template every cube is 36 corners, twelve whole
   * triangles, and triangle `t` of cube `c` is template triangle `t` scaled
   * by `s[c]`.
   */
  lemma {:induction false} CorrectedKeepsTriangles(tpl: seq<real>, s: seq<real>, c: nat, t: nat)
    requires |tpl| == 3 * Corners && c < |s| && t < Corners / 3
    ensures Corners % 3 == 0
    ensures var g := Cubes(tpl, s, |s|, Corners);
      |g| == 36 * |s| &&
      g[36 * c + 3 * t] == CubeVertex(tpl, s[c], 3 * t) &&
      g[36 * c + 3 * t + 1] == CubeVertex(tpl, s[c], 3 * t + 1) &&
      g[36 * c + 3 * t + 2] == CubeVertex(tpl, s[c], 3 * t + 2)
  {
    CubesAt(tpl, s, |s|, Corners, c, 3 * t);
    CubesAt(tpl, s, |s|, Corners, c, 3 * t + 1);
    CubesAt(tpl, s, |s|, Corners, c, 3 * t + 2);
  }

  /**
   * The fill carries the fill colour and the stroke the stroke colour (or
   * the fill's when the stroke vector is not 4-long), over the same
   * uncoloured geometry.
   */
  lemma CubeColors(view: View, s: seq<real>)
    ensures var r := Spec(view, s);
      var g := Cubes(Template, s, |s|, Pushed);
      |r.fill| == |g| && |r.stroke| == |g| &&
      (forall k :: 0 <= k < |g| ==> (r.fill[k].x, r.fill[k].y, r.fill[k].z) == (g[k].x, g[k].y, g[k].z)) &&
      (|view.fillCol| == 4 ==> forall k :: 0 <= k < |g| ==> r.fill[k].color == ColorOf(view.fillCol)) &&
      (|view.strokeCol| == 4 ==> forall k :: 0 <= k < |g| ==> r.stroke[k].color == ColorOf(view.strokeCol)) &&
      (|view.strokeCol| != 4 ==> r.stroke == r.fill)
  {
    var g := Cubes(Template, s, |s|, Pushed);
    StampedKeepsGeometry(g, view.fillCol);
    StampedKeepsGeometry(Stamped(g, view.fillCol), view.strokeCol);
  }
}
