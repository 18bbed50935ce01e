/**
 * `Ellipse::new`: a batch of filled ellipses, each a triangle fan around its
 * centre over one shared table of a full turn.
 */
module Ellipse {
  import opened Errors
  import opened Shapes
  import opened Fan

  /** The full turn the ellipse table covers. */
  const Pi: real := 3.141592653589793

  /**
   * The shared table of `f` over a full turn: 201 loop entries plus the
   * closing one. With `f` the cosine it is the cosine table, with the sine
   * the sine table.
   */
  function TurnTable(f: real -> real): seq<real> { Table(f, 0.0, 2.0 * Pi, NumSlices - 1) }

  /** The uncoloured vertices: every instance reads the same tables. */
  function Geometry(view: View, cos: real -> real, sin: real -> real,
                    xc: seq<real>, yc: seq<real>, w: seq<real>, h: seq<real>): (r: seq<Vertex>)
    requires |yc| == |xc| && |w| == |xc| && |h| == |xc|
    ensures |r| == NumSlices * |xc|
  {
    var n := |xc|;
    Fans(view, xc, yc, w, h, seq(n, _ => TurnTable(cos)), seq(n, _ => TurnTable(sin)), n)
  }

  /** What `Ellipse::new` returns; the stroke is drawn as a closed loop. */
  function Spec(view: View, cos: real -> real, sin: real -> real, vbOk: seq<Vertex> -> bool,
                xc: seq<real>, yc: seq<real>, w: seq<real>, h: seq<real>): Result<Shape>
    requires |yc| == |xc| && |w| == |xc| && |h| == |xc|
    requires |xc| >= 1 || !vbOk([])
  {
    Finish(Geometry(view, cos, sin, xc, yc, w, h), view, vbOk, LineLoop)
  }

  /**
   * `Ellipse::new`. The trigonometric functions and the vertex-buffer upload
   * are parameters; the z inputs are accepted and ignored. An empty batch
   * panics at the stroke slice unless the fill upload already failed.
   */
  method New(view: View, cos: real -> real, sin: real -> real, vbOk: seq<Vertex> -> bool,
             xci: seq<real>, yci: seq<real>, zci: seq<real>, wi: seq<real>, hi: seq<real>)
    returns (r: Result<Shape>)
    requires |yci| == |xci| && |wi| == |xci| && |hi| == |xci|
    requires |xci| >= 1 || !vbOk([])
    ensures r == Spec(view, cos, sin, vbOk, xci, yci, wi, hi)
  {
    var xc, yc, w, h := Correct(view, xci, yci, wi, hi);
    var c, s := Tables(cos, sin, 0.0, 2.0 * Pi, NumSlices - 1);
    var n := |xci|;
    var shape := Tessellate(view, xci, yci, wi, hi, xc, yc, w, h, seq(n, _ => c), seq(n, _ => s));
    r := Upload(shape, view, vbOk, LineLoop);
  }

  /**
   * Vertex `j` of ellipse `i` in the fill buffer: the corrected centre for
   * `j == 0`, else the centre displaced by `(cos a * W, sin a * H)` at table
   * angle `a = 2*pi*(j-1)/201`.
   */
  lemma {:induction false} EllipseVertex(view: View, cos: real -> real, sin: real -> real, vbOk: seq<Vertex> -> bool,
                      xc: seq<real>, yc: seq<real>, w: seq<real>, h: seq<real>, i: nat, j: nat)
    requires |yc| == |xc| && |w| == |xc| && |h| == |xc| && i < |xc| && j < NumSlices
    requires Spec(view, cos, sin, vbOk, xc, yc, w, h).Ok?
    ensures var v := Spec(view, cos, sin, vbOk, xc, yc, w, h).value.fill[NumSlices * i + j];
      var x0 := FixX(view, true, xc[i]);
      var y0 := FixY(view, true, yc[i]);
      v.z == Eps * i as real && (v.u, v.v) == (0.0, 0.0) &&
      (j == 0 ==> (v.x, v.y) == (x0, y0)) &&
      (j > 0 ==> var a := Angle(0.0, 2.0 * Pi, j - 1);
                 v.x == RimX(view, cos(a), xc[i], w[i]) && v.y == RimY(view, sin(a), yc[i], h[i])) &&
      (|view.fillCol| == 4 ==> v.color == ColorOf(view.fillCol))
  {
    var n := |xc|;
    var cs, ss := seq(n, _ => TurnTable(cos)), seq(n, _ => TurnTable(sin));
    var g := Geometry(view, cos, sin, xc, yc, w, h);
    FanGeometry(view, xc, yc, w, h, cs, ss, i, j);
    StampedKeepsGeometry(g, view.fillCol);
    assert cs[i] == TurnTable(cos) && ss[i] == TurnTable(sin);
  }

  /**
   * The outcome of `Ellipse::new`: a fan of 202 vertices per ellipse, a
   * stroke loop of two fewer, and `VBNoCreate` exactly when an upload fails.
   */
  lemma EllipseLayout(view: View, cos: real -> real, sin: real -> real, vbOk: seq<Vertex> -> bool,
                      xc: seq<real>, yc: seq<real>, w: seq<real>, h: seq<real>)
    requires |yc| == |xc| && |w| == |xc| && |h| == |xc|
    requires |xc| >= 1 || !vbOk([])
    ensures var r := Spec(view, cos, sin, vbOk, xc, yc, w, h);
      var fill := Stamped(Geometry(view, cos, sin, xc, yc, w, h), view.fillCol);
      (r.Err? <==> !vbOk(fill) || !vbOk(Stamped(fill, view.strokeCol)[1 .. |fill| - 1])) &&
      (r.Err? ==> r.error == VBNoCreate) &&
      (r.Ok? ==> |r.value.fill| == 202 * |xc| && |r.value.stroke| == 202 * |xc| - 2 &&
                 r.value.fillIndices == NoBuffer(TriangleFan) && r.value.strokeIndices == NoBuffer(LineLoop))
  {
    var g := Geometry(view, cos, sin, xc, yc, w, h);
    StampedKeepsGeometry(g, view.fillCol);
    FinishOutcome(g, view, vbOk, LineLoop);
  }
}
