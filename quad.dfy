/**
 * `Quad::new`: a batch of arbitrary quadrilaterals given by their four
 * corners, drawn as two indexed triangles each.
 */
module Quad {
  import opened Errors
  import opened Shapes

  /** Corner vectors p1..p4 of a batch: every loop runs over `x1`, so the others need at least its length. */
  predicate Parallel(x1: seq<real>, y1: seq<real>, x2: seq<real>, y2: seq<real>,
                     x3: seq<real>, y3: seq<real>, x4: seq<real>, y4: seq<real>)
  {
    |y1| >= |x1| && |x2| >= |x1| && |y2| >= |x1| && |x3| >= |x1| &&
    |y3| >= |x1| && |x4| >= |x1| && |y4| >= |x1|
  }

  /** The four corners of quad `c` in input order, still uncoloured. */
  function Corners(view: View, x1: real, y1: real, x2: real, y2: real,
                   x3: real, y3: real, x4: real, y4: real, c: nat): seq<Vertex>
  {
    [ Vertex(FixX(view, false, x1), FixY(view, false, y1), Bias(c), Transparent, 0.0, 0.0),
      Vertex(FixX(view, false, x2), FixY(view, false, y2), Bias(c), Transparent, 1.0, 0.0),
      Vertex(FixX(view, false, x3), FixY(view, false, y3), Bias(c), Transparent, 1.0, 1.0),
      Vertex(FixX(view, false, x4), FixY(view, false, y4), Bias(c), Transparent, 0.0, 1.0) ]
  }

  /** The uncoloured vertices of the first `n` quads. */
  function Vertices(view: View, x1: seq<real>, y1: seq<real>, x2: seq<real>, y2: seq<real>,
                    x3: seq<real>, y3: seq<real>, x4: seq<real>, y4: seq<real>, n: nat): (r: seq<Vertex>)
    requires Parallel(x1, y1, x2, y2, x3, y3, x4, y4) && n <= |x1|
    ensures |r| == 4 * n
  {
    if n == 0 then []
    else
      var c := n - 1;
      Vertices(view, x1, y1, x2, y2, x3, y3, x4, y4, c) +
      Corners(view, x1[c], y1[c], x2[c], y2[c], x3[c], y3[c], x4[c], y4[c], c)
  }

  /** What `Quad::new` returns. */
  function Spec(view: View, x1: seq<real>, y1: seq<real>, x2: seq<real>, y2: seq<real>,
                x3: seq<real>, y3: seq<real>, x4: seq<real>, y4: seq<real>): Shape
    requires Parallel(x1, y1, x2, y2, x3, y3, x4, y4)
  {
    var fill := Stamped(Vertices(view, x1, y1, x2, y2, x3, y3, x4, y4, |x1|), view.fillCol);
    Shape(fill, Stamped(fill, view.strokeCol), Buffer(TrianglesList, QuadIndices(|x1|)), NoBuffer(LineLoop), None)
  }

  /**
   * `Quad::new`. The z inputs are accepted and ignored. As for rects, the
   * first index block is written unconditionally, so at least one quad is needed.
   * The index upload and both vertex uploads are unwrapped in the source, so
   * a refused upload is a panic the caller must rule out.
   */
  method New(view: View, vbOk: seq<Vertex> -> bool, ibOk: seq<nat> -> bool,
             x1i: seq<real>, y1i: seq<real>, z1i: seq<real>,
             x2i: seq<real>, y2i: seq<real>, z2i: seq<real>,
             x3i: seq<real>, y3i: seq<real>, z3i: seq<real>,
             x4i: seq<real>, y4i: seq<real>, z4i: seq<real>) returns (r: Shape)
    requires |x1i| >= 1 && Parallel(x1i, y1i, x2i, y2i, x3i, y3i, x4i, y4i)
    requires ibOk(QuadIndices(|x1i|))
    requires vbOk(Spec(view, x1i, y1i, x2i, y2i, x3i, y3i, x4i, y4i).fill)
    requires vbOk(Spec(view, x1i, y1i, x2i, y2i, x3i, y3i, x4i, y4i).stroke)
    ensures r == Spec(view, x1i, y1i, x2i, y2i, x3i, y3i, x4i, y4i)
  {
    var x1, y1, x2, y2, x3, y3, x4, y4 := Correct(view, x1i, y1i, x2i, y2i, x3i, y3i, x4i, y4i);
    var shape := Tessellate(view, x1i, y1i, x2i, y2i, x3i, y3i, x4i, y4i, x1, y1, x2, y2, x3, y3, x4, y4);
    var elements := BuildQuadIndices(|x1i|);
    var fill, stroke := StampFillThenStroke(shape, view);
    r := Shape(fill, stroke, Buffer(TrianglesList, elements), NoBuffer(LineLoop), None);
  }

  /** The aspect correction of the corner vectors, in place. */
  method Correct(view: View, x1i: seq<real>, y1i: seq<real>, x2i: seq<real>, y2i: seq<real>,
                 x3i: seq<real>, y3i: seq<real>, x4i: seq<real>, y4i: seq<real>)
    returns (x1: seq<real>, y1: seq<real>, x2: seq<real>, y2: seq<real>,
             x3: seq<real>, y3: seq<real>, x4: seq<real>, y4: seq<real>)
    ensures FixedX(view, false, x1i, x1) && FixedX(view, false, x2i, x2) && FixedX(view, false, x3i, x3) && FixedX(view, false, x4i, x4)
    ensures FixedY(view, false, y1i, y1) && FixedY(view, false, y2i, y2) && FixedY(view, false, y3i, y3) && FixedY(view, false, y4i, y4)
  {
    x1, x2, x3, x4 := x1i, x2i, x3i, x4i;
    y1, y2, y3, y4 := y1i, y2i, y3i, y4i;
    if view.preserveAspect {
      if view.aspect > 1.0 {
        x1 := DivideAll(x1, view.aspect);
        x2 := DivideAll(x2, view.aspect);
        x3 := DivideAll(x3, view.aspect);
        x4 := DivideAll(x4, view.aspect);
      } else {
        y1 := MultiplyAll(y1, view.aspect);
        y2 := MultiplyAll(y2, view.aspect);
        y3 := MultiplyAll(y3, view.aspect);
        y4 := MultiplyAll(y4, view.aspect);
      }
    }
  }

  /** The vertex push loop over the corrected corner vectors. */
  method Tessellate(view: View, x1i: seq<real>, y1i: seq<real>, x2i: seq<real>, y2i: seq<real>,
                    x3i: seq<real>, y3i: seq<real>, x4i: seq<real>, y4i: seq<real>,
                    x1: seq<real>, y1: seq<real>, x2: seq<real>, y2: seq<real>,
                    x3: seq<real>, y3: seq<real>, x4: seq<real>, y4: seq<real>) returns (shape: seq<Vertex>)
    requires Parallel(x1i, y1i, x2i, y2i, x3i, y3i, x4i, y4i)
    requires FixedX(view, false, x1i, x1) && FixedX(view, false, x2i, x2) && FixedX(view, false, x3i, x3) && FixedX(view, false, x4i, x4)
    requires FixedY(view, false, y1i, y1) && FixedY(view, false, y2i, y2) && FixedY(view, false, y3i, y3) && FixedY(view, false, y4i, y4)
    ensures shape == Vertices(view, x1i, y1i, x2i, y2i, x3i, y3i, x4i, y4i, |x1i|)
  {
    shape := [];
    for c := 0 to |x1i|
      invariant shape == Vertices(view, x1i, y1i, x2i, y2i, x3i, y3i, x4i, y4i, c)
    {
      assert Corners(view, x1i[c], y1i[c], x2i[c], y2i[c], x3i[c], y3i[c], x4i[c], y4i[c], c) ==
        [ Vertex(x1[c], y1[c], Bias(c), Transparent, 0.0, 0.0),
          Vertex(x2[c], y2[c], Bias(c), Transparent, 1.0, 0.0),
          Vertex(x3[c], y3[c], Bias(c), Transparent, 1.0, 1.0),
          Vertex(x4[c], y4[c], Bias(c), Transparent, 0.0, 1.0) ];
      shape := shape + [Vertex(x1[c], y1[c], Bias(c), Transparent, 0.0, 0.0)];
      shape := shape + [Vertex(x2[c], y2[c], Bias(c), Transparent, 1.0, 0.0)];
      shape := shape + [Vertex(x3[c], y3[c], Bias(c), Transparent, 1.0, 1.0)];
      shape := shape + [Vertex(x4[c], y4[c], Bias(c), Transparent, 0.0, 1.0)];
    }
  }

  /** The four vertices of quad `c` sit at offset 4c. */
  lemma {:induction false} VerticesAt(view: View, x1: seq<real>, y1: seq<real>, x2: seq<real>, y2: seq<real>,
                                      x3: seq<real>, y3: seq<real>, x4: seq<real>, y4: seq<real>, n: nat, c: nat)
    requires Parallel(x1, y1, x2, y2, x3, y3, x4, y4) && n <= |x1| && c < n
    ensures Vertices(view, x1, y1, x2, y2, x3, y3, x4, y4, n)[4 * c .. 4 * c + 4] ==
      Corners(view, x1[c], y1[c], x2[c], y2[c], x3[c], y3[c], x4[c], y4[c], c)
  {
    var v := Vertices(view, x1, y1, x2, y2, x3, y3, x4, y4, n);
    if c < n - 1 {
      VerticesAt(view, x1, y1, x2, y2, x3, y3, x4, y4, n - 1, c);
      assert v[4 * c .. 4 * c + 4] == Vertices(view, x1, y1, x2, y2, x3, y3, x4, y4, n - 1)[4 * c .. 4 * c + 4];
    } else {
      assert v[4 * c ..] == Corners(view, x1[c], y1[c], x2[c], y2[c], x3[c], y3[c], x4[c], y4[c], c);
    }
  }

  /**
   * Quad `c` of the fill buffer: p1..p4 in input order, each corrected for the
   * aspect ratio whenever preservation is on, all at z = eps*c, with texcoords
   * (0,0), (1,0), (1,1), (0,1).
   */
  lemma QuadCorners(view: View, x1: seq<real>, y1: seq<real>, x2: seq<real>, y2: seq<real>,
                    x3: seq<real>, y3: seq<real>, x4: seq<real>, y4: seq<real>, c: nat)
    requires Parallel(x1, y1, x2, y2, x3, y3, x4, y4) && c < |x1|
    ensures var s := Spec(view, x1, y1, x2, y2, x3, y3, x4, y4);
      |s.fill| == 4 * |x1| &&
      (s.fill[4 * c].x, s.fill[4 * c].y, s.fill[4 * c].z) == (FixX(view, false, x1[c]), FixY(view, false, y1[c]), Eps * c as real) &&
      (s.fill[4 * c + 1].x, s.fill[4 * c + 1].y, s.fill[4 * c + 1].z) == (FixX(view, false, x2[c]), FixY(view, false, y2[c]), Eps * c as real) &&
      (s.fill[4 * c + 2].x, s.fill[4 * c + 2].y, s.fill[4 * c + 2].z) == (FixX(view, false, x3[c]), FixY(view, false, y3[c]), Eps * c as real) &&
      (s.fill[4 * c + 3].x, s.fill[4 * c + 3].y, s.fill[4 * c + 3].z) == (FixX(view, false, x4[c]), FixY(view, false, y4[c]), Eps * c as real) &&
      (s.fill[4 * c].u, s.fill[4 * c].v) == (0.0, 0.0) &&
      (s.fill[4 * c + 1].u, s.fill[4 * c + 1].v) == (1.0, 0.0) &&
      (s.fill[4 * c + 2].u, s.fill[4 * c + 2].v) == (1.0, 1.0) &&
      (s.fill[4 * c + 3].u, s.fill[4 * c + 3].v) == (0.0, 1.0)
  {
    var g := Vertices(view, x1, y1, x2, y2, x3, y3, x4, y4, |x1|);
    var q := Corners(view, x1[c], y1[c], x2[c], y2[c], x3[c], y3[c], x4[c], y4[c], c);
    VerticesAt(view, x1, y1, x2, y2, x3, y3, x4, y4, |x1|, c);
    StampedKeepsGeometry(g, view.fillCol);
    assert g[4 * c] == q[0] && g[4 * c + 1] == q[1] && g[4 * c + 2] == q[2] && g[4 * c + 3] == q[3];
  }

  /**
   * Buffer layout: 4n vertices, the +4-shifted TrianglesList index list of 6n
   * entries (each below 4n), a LineLoop stroke, no texture; the stroke buffer
   * carries the stroke colour when it is 4-long and the fill stamping otherwise.
   */
  lemma QuadLayout(view: View, x1: seq<real>, y1: seq<real>, x2: seq<real>, y2: seq<real>,
                   x3: seq<real>, y3: seq<real>, x4: seq<real>, y4: seq<real>)
    requires Parallel(x1, y1, x2, y2, x3, y3, x4, y4)
    ensures var s := Spec(view, x1, y1, x2, y2, x3, y3, x4, y4);
      var g := Vertices(view, x1, y1, x2, y2, x3, y3, x4, y4, |x1|);
      |s.fill| == 4 * |x1| && |s.stroke| == 4 * |x1| &&
      s.fillIndices == Buffer(TrianglesList, QuadIndices(|x1|)) && |QuadIndices(|x1|)| == 6 * |x1| &&
      (forall k :: 0 <= k < 6 * |x1| ==> QuadIndices(|x1|)[k] < 4 * |x1|) &&
      s.strokeIndices == NoBuffer(LineLoop) && s.texture == None &&
      s.fill == Stamped(g, view.fillCol) &&
      s.stroke == (if |view.strokeCol| == 4 then Stamped(g, view.strokeCol) else s.fill)
  {
    var g := Vertices(view, x1, y1, x2, y2, x3, y3, x4, y4, |x1|);
    StampedKeepsGeometry(g, view.fillCol);
    StampedKeepsGeometry(Stamped(g, view.fillCol), view.strokeCol);
    StampedTwice(g, view.fillCol, view.strokeCol);
    QuadIndicesInRange(|x1|);
  }
}
