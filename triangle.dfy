/**
 * `Triangle::new`: a batch of triangles, three vertices each, drawn in order
 * with no index buffer.
 */
module Triangle {
  import opened Errors
  import opened Shapes

  /** Corner vectors p1..p3 of a batch: every loop runs over `x1`, so the others need at least its length. */
  predicate Parallel(x1: seq<real>, y1: seq<real>, x2: seq<real>, y2: seq<real>, x3: seq<real>, y3: seq<real>)
  {
    |y1| >= |x1| && |x2| >= |x1| && |y2| >= |x1| && |x3| >= |x1| && |y3| >= |x1|
  }

  /** The three corners of triangle `c`, still uncoloured. */
  function Corners(view: View, x1: real, y1: real, x2: real, y2: real, x3: real, y3: real, c: nat): seq<Vertex>
  {
    [ Vertex(FixX(view, false, x1), FixY(view, false, y1), Bias(c), Transparent, 0.0, 0.0),
      Vertex(FixX(view, false, x2), FixY(view, false, y2), Bias(c), Transparent, 1.0, 0.0),
      Vertex(FixX(view, false, x3), FixY(view, false, y3), Bias(c), Transparent, 1.0, 1.0) ]
  }

  /** The uncoloured vertices of the first `n` triangles. */
  function Vertices(view: View, x1: seq<real>, y1: seq<real>, x2: seq<real>, y2: seq<real>,
                    x3: seq<real>, y3: seq<real>, n: nat): (r: seq<Vertex>)
    requires Parallel(x1, y1, x2, y2, x3, y3) && n <= |x1|
    ensures |r| == 3 * n
  {
    if n == 0 then []
    else
      var c := n - 1;
      Vertices(view, x1, y1, x2, y2, x3, y3, c) + Corners(view, x1[c], y1[c], x2[c], y2[c], x3[c], y3[c], c)
  }

  /** What `Triangle::new` returns. */
  function Spec(view: View, x1: seq<real>, y1: seq<real>, x2: seq<real>, y2: seq<real>,
                x3: seq<real>, y3: seq<real>): Shape
    requires Parallel(x1, y1, x2, y2, x3, y3)
  {
    var fill := Stamped(Vertices(view, x1, y1, x2, y2, x3, y3, |x1|), view.fillCol);
    Shape(fill, Stamped(fill, view.strokeCol), NoBuffer(TrianglesList), NoBuffer(LineLoop), None)
  }

  /**
   * `Triangle::new`. The z inputs are accepted and ignored. Both vertex
   * uploads are unwrapped in the source, so a refused upload is a panic the
   * caller must rule out.
   */
  method New(view: View, vbOk: seq<Vertex> -> bool,
             x1i: seq<real>, y1i: seq<real>, z1i: seq<real>,
             x2i: seq<real>, y2i: seq<real>, z2i: seq<real>,
             x3i: seq<real>, y3i: seq<real>, z3i: seq<real>) returns (r: Shape)
    requires Parallel(x1i, y1i, x2i, y2i, x3i, y3i)
    requires vbOk(Spec(view, x1i, y1i, x2i, y2i, x3i, y3i).fill)
    requires vbOk(Spec(view, x1i, y1i, x2i, y2i, x3i, y3i).stroke)
    ensures r == Spec(view, x1i, y1i, x2i, y2i, x3i, y3i)
  {
    var x1, x2, x3 := x1i, x2i, x3i;
    var y1, y2, y3 := y1i, y2i, y3i;
    if view.preserveAspect {
      if view.aspect > 1.0 {
        x1 := DivideAll(x1, view.aspect);
        x2 := DivideAll(x2, view.aspect);
        x3 := DivideAll(x3, view.aspect);
      } else {
        y1 := MultiplyAll(y1, view.aspect);
        y2 := MultiplyAll(y2, view.aspect);
        y3 := MultiplyAll(y3, view.aspect);
      }
    }
    var shape := Tessellate(view, x1i, y1i, x2i, y2i, x3i, y3i, x1, y1, x2, y2, x3, y3);
    var fill, stroke := StampFillThenStroke(shape, view);
    r := Shape(fill, stroke, NoBuffer(TrianglesList), NoBuffer(LineLoop), None);
  }

  /** The vertex push loop over the corrected corner vectors. */
  method Tessellate(view: View, x1i: seq<real>, y1i: seq<real>, x2i: seq<real>, y2i: seq<real>,
                    x3i: seq<real>, y3i: seq<real>,
                    x1: seq<real>, y1: seq<real>, x2: seq<real>, y2: seq<real>,
                    x3: seq<real>, y3: seq<real>) returns (shape: seq<Vertex>)
    requires Parallel(x1i, y1i, x2i, y2i, x3i, y3i)
    requires FixedX(view, false, x1i, x1) && FixedX(view, false, x2i, x2) && FixedX(view, false, x3i, x3)
    requires FixedY(view, false, y1i, y1) && FixedY(view, false, y2i, y2) && FixedY(view, false, y3i, y3)
    ensures shape == Vertices(view, x1i, y1i, x2i, y2i, x3i, y3i, |x1i|)
  {
    shape := [];
    for c := 0 to |x1i|
      invariant shape == Vertices(view, x1i, y1i, x2i, y2i, x3i, y3i, c)
    {
      assert Corners(view, x1i[c], y1i[c], x2i[c], y2i[c], x3i[c], y3i[c], c) ==
        [ Vertex(x1[c], y1[c], Bias(c), Transparent, 0.0, 0.0),
          Vertex(x2[c], y2[c], Bias(c), Transparent, 1.0, 0.0),
          Vertex(x3[c], y3[c], Bias(c), Transparent, 1.0, 1.0) ];
      shape := shape + [Vertex(x1[c], y1[c], Bias(c), Transparent, 0.0, 0.0)];
      shape := shape + [Vertex(x2[c], y2[c], Bias(c), Transparent, 1.0, 0.0)];
      shape := shape + [Vertex(x3[c], y3[c], Bias(c), Transparent, 1.0, 1.0)];
    }
  }

  /** The three vertices of triangle `c` sit at offset 3c. */
  lemma {:induction false} VerticesAt(view: View, x1: seq<real>, y1: seq<real>, x2: seq<real>, y2: seq<real>,
                                      x3: seq<real>, y3: seq<real>, n: nat, c: nat)
    requires Parallel(x1, y1, x2, y2, x3, y3) && n <= |x1| && c < n
    ensures Vertices(view, x1, y1, x2, y2, x3, y3, n)[3 * c .. 3 * c + 3] ==
      Corners(view, x1[c], y1[c], x2[c], y2[c], x3[c], y3[c], c)
  {
    var v := Vertices(view, x1, y1, x2, y2, x3, y3, n);
    if c < n - 1 {
      VerticesAt(view, x1, y1, x2, y2, x3, y3, n - 1, c);
      assert v[3 * c .. 3 * c + 3] == Vertices(view, x1, y1, x2, y2, x3, y3, n - 1)[3 * c .. 3 * c + 3];
    } else {
      assert v[3 * c ..] == Corners(view, x1[c], y1[c], x2[c], y2[c], x3[c], y3[c], c);
    }
  }

  /**
   * Triangle `c` of the fill buffer: p1, p2, p3 corrected for the aspect ratio
   * whenever preservation is on, all at z = eps*c, texcoords (0,0), (1,0), (1,1).
   */
  lemma TriangleCorners(view: View, x1: seq<real>, y1: seq<real>, x2: seq<real>, y2: seq<real>,
                        x3: seq<real>, y3: seq<real>, c: nat)
    requires Parallel(x1, y1, x2, y2, x3, y3) && c < |x1|
    ensures var s := Spec(view, x1, y1, x2, y2, x3, y3);
      |s.fill| == 3 * |x1| &&
      (s.fill[3 * c].x, s.fill[3 * c].y, s.fill[3 * c].z) == (FixX(view, false, x1[c]), FixY(view, false, y1[c]), Eps * c as real) &&
      (s.fill[3 * c + 1].x, s.fill[3 * c + 1].y, s.fill[3 * c + 1].z) == (FixX(view, false, x2[c]), FixY(view, false, y2[c]), Eps * c as real) &&
      (s.fill[3 * c + 2].x, s.fill[3 * c + 2].y, s.fill[3 * c + 2].z) == (FixX(view, false, x3[c]), FixY(view, false, y3[c]), Eps * c as real) &&
      (s.fill[3 * c].u, s.fill[3 * c].v) == (0.0, 0.0) &&
      (s.fill[3 * c + 1].u, s.fill[3 * c + 1].v) == (1.0, 0.0) &&
      (s.fill[3 * c + 2].u, s.fill[3 * c + 2].v) == (1.0, 1.0)
  {
    var g := Vertices(view, x1, y1, x2, y2, x3, y3, |x1|);
    var q := Corners(view, x1[c], y1[c], x2[c], y2[c], x3[c], y3[c], c);
    VerticesAt(view, x1, y1, x2, y2, x3, y3, |x1|, c);
    StampedKeepsGeometry(g, view.fillCol);
    assert g[3 * c] == q[0] && g[3 * c + 1] == q[1] && g[3 * c + 2] == q[2];
  }

  /**
   * The fill buffer carries the fill colour; the stroke buffer the stroke
   * colour, or the fill stamping when the stroke vector is not 4-long; both
   * drawn without indices, as TrianglesList and LineLoop.
   */
  lemma TriangleColors(view: View, x1: seq<real>, y1: seq<real>, x2: seq<real>, y2: seq<real>,
                       x3: seq<real>, y3: seq<real>)
    requires Parallel(x1, y1, x2, y2, x3, y3)
    ensures var s := Spec(view, x1, y1, x2, y2, x3, y3);
      (|view.fillCol| == 4 ==> forall k :: 0 <= k < |s.fill| ==> s.fill[k].color == ColorOf(view.fillCol)) &&
      (|view.strokeCol| == 4 ==> forall k :: 0 <= k < |s.stroke| ==> s.stroke[k].color == ColorOf(view.strokeCol)) &&
      (|view.strokeCol| != 4 ==> s.stroke == s.fill) &&
      |s.stroke| == |s.fill| == 3 * |x1| &&
      s.fillIndices == NoBuffer(TrianglesList) && s.strokeIndices == NoBuffer(LineLoop)
  {
    var g := Vertices(view, x1, y1, x2, y2, x3, y3, |x1|);
    StampedKeepsGeometry(g, view.fillCol);
    StampedKeepsGeometry(Stamped(g, view.fillCol), view.strokeCol);
  }
}
