/**
 * `Point::new`: a batch of points, one vertex each, coloured with the stroke
 * colour and drawn as points.
 */
module Point {
  import opened Errors
  import opened Shapes

  /** The uncoloured vertices of the first `n` points. */
  function Dots(view: View, x: seq<real>, y: seq<real>, n: nat): (r: seq<Vertex>)
    requires |y| >= |x| && n <= |x|
    ensures |r| == n
  {
    if n == 0 then []
    else Dots(view, x, y, n - 1) + [Vertex(FixX(view, false, x[n - 1]), FixY(view, false, y[n - 1]), Bias(n - 1), Transparent, 0.0, 0.0)]
  }

  /**
   * What `Point::new` returns: with the stroke on, one stroke-coloured buffer
   * serves as both fill and stroke; with it off, both are empty.
   */
  function Spec(view: View, x: seq<real>, y: seq<real>): Shape
    requires |y| >= |x|
  {
    var shape := if view.strokeOn then Stamped(Dots(view, x, y, |x|), view.strokeCol) else [];
    Shape(shape, shape, NoBuffer(Points), NoBuffer(Points), None)
  }

  /**
   * `Point::new`. The z inputs are accepted and ignored. The uploads are
   * unwrapped in the source, so a refused upload is a panic the caller must
   * rule out.
   */
  method New(view: View, vbOk: seq<Vertex> -> bool, xi: seq<real>, yi: seq<real>, zi: seq<real>) returns (r: Shape)
    requires |yi| >= |xi|
    requires vbOk(Spec(view, xi, yi).fill)
    ensures r == Spec(view, xi, yi)
  {
    var x, y := xi, yi;
    if view.preserveAspect {
      if view.aspect > 1.0 {
        x := DivideAll(x, view.aspect);
      } else {
        y := MultiplyAll(y, view.aspect);
      }
    }
    assert FixedX(view, false, xi, x) && FixedY(view, false, yi, y);
    if view.strokeOn {
      var shape := [];
      for i := 0 to |xi|
        invariant shape == Dots(view, xi, yi, i)
      {
        shape := shape + [Vertex(x[i], y[i], Bias(i), Transparent, 0.0, 0.0)];
      }
      var buf := ToArray(shape);
      LoadColors(buf, view.strokeCol);
      var stamped := buf[..];
      return Shape(stamped, stamped, NoBuffer(Points), NoBuffer(Points), None);
    }
    r := Shape([], [], NoBuffer(Points), NoBuffer(Points), None);
  }

  /** Vertex `i` of `Dots(n)` is point `i`. */
  lemma {:induction false} DotsAt(view: View, x: seq<real>, y: seq<real>, n: nat, i: nat)
    requires |y| >= |x| && n <= |x| && i < n
    ensures Dots(view, x, y, n)[i] == Vertex(FixX(view, false, x[i]), FixY(view, false, y[i]), Bias(i), Transparent, 0.0, 0.0)
  {
    if i < n - 1 {
      DotsAt(view, x, y, n - 1, i);
    }
  }

  /**
   * Fill and stroke of a batch are one buffer of one vertex per point, drawn
   * as points, and empty with the stroke off.
   */
  lemma PointShape(view: View, x: seq<real>, y: seq<real>)
    requires |y| >= |x|
    ensures var s := Spec(view, x, y);
      s.fill == s.stroke && |s.fill| == (if view.strokeOn then |x| else 0) &&
      s.fillIndices == NoBuffer(Points) && s.strokeIndices == NoBuffer(Points)
  {
    StampedKeepsGeometry(Dots(view, x, y, |x|), view.strokeCol);
  }

  /**
   * Point `i` of a stroked batch is the corrected position at depth eps*i,
   * in the stroke colour when that has four components.
   */
  lemma {:induction false} PointLayout(view: View, x: seq<real>, y: seq<real>, i: nat)
    requires |y| >= |x| && i < |x| && view.strokeOn
    ensures var s := Spec(view, x, y);
      (s.fill[i].x, s.fill[i].y, s.fill[i].z) == (FixX(view, false, x[i]), FixY(view, false, y[i]), Eps * i as real) &&
      (|view.strokeCol| == 4 ==> s.fill[i].color == ColorOf(view.strokeCol))
  {
    var g := Dots(view, x, y, |x|);
    DotsAt(view, x, y, |x|, i);
    StampedKeepsGeometry(g, view.strokeCol);
    if |view.strokeCol| == 4 {
      StampedSetsColor(g, view.strokeCol);
    }
  }
}
