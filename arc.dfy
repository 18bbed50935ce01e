/**
 * `Arc::new`: a batch of filled arcs, each a triangle fan around its centre
 * sweeping from its own start angle to its own stop angle.
 */
module Arc {
  import opened Errors
  import opened Shapes
  import opened Fan

  /**
   * One table of `f` per arc, over that arc's own sweep: 202 loop entries
   * plus the closing one. With `f` the cosine these are the cosine tables,
   * with the sine the sine tables.
   */
  function BatchTables(f: real -> real, start: seq<real>, stop: seq<real>): (r: seq<seq<real>>)
    requires |stop| == |start|
    ensures |r| == |start|
  {
    seq(|start|, j requires 0 <= j < |start| => Table(f, start[j], stop[j] - start[j], NumSlices))
  }

  /** The arc vectors of a batch all have the batch's length. */
  predicate Parallel(xc: seq<real>, yc: seq<real>, w: seq<real>, h: seq<real>, start: seq<real>, stop: seq<real>)
  {
    |yc| == |xc| && |w| == |xc| && |h| == |xc| && |start| == |xc| && |stop| == |xc|
  }

  /** The uncoloured vertices: arc `i` reads its own tables. */
  function Geometry(view: View, cos: real -> real, sin: real -> real,
                    xc: seq<real>, yc: seq<real>, w: seq<real>, h: seq<real>,
                    start: seq<real>, stop: seq<real>): (r: seq<Vertex>)
    requires Parallel(xc, yc, w, h, start, stop)
    ensures |r| == NumSlices * |xc|
  {
    Fans(view, xc, yc, w, h, BatchTables(cos, start, stop), BatchTables(sin, start, stop), |xc|)
  }

  /** What `Arc::new` returns; the stroke is drawn as an open strip. */
  function Spec(view: View, cos: real -> real, sin: real -> real, vbOk: seq<Vertex> -> bool,
                xc: seq<real>, yc: seq<real>, w: seq<real>, h: seq<real>,
                start: seq<real>, stop: seq<real>): Result<Shape>
    requires Parallel(xc, yc, w, h, start, stop)
    requires |xc| >= 1 || !vbOk([])
  {
    Finish(Geometry(view, cos, sin, xc, yc, w, h, start, stop), view, vbOk, LineStrip)
  }

  /** The loop that builds one cosine and one sine table per arc. */
  method ArcTables(cos: real -> real, sin: real -> real, start: seq<real>, stop: seq<real>)
    returns (cs: seq<seq<real>>, ss: seq<seq<real>>)
    requires |stop| == |start|
    ensures cs == BatchTables(cos, start, stop) && ss == BatchTables(sin, start, stop)
  {
    cs, ss := [], [];
    for j := 0 to |start|
      invariant cs == BatchTables(cos, start[..j], stop[..j])
      invariant ss == BatchTables(sin, start[..j], stop[..j])
    {
      var c, s := Tables(cos, sin, start[j], stop[j] - start[j], NumSlices);
      BatchTablesStep(cos, start, stop, j);
      BatchTablesStep(sin, start, stop, j);
      cs := cs + [c];
      ss := ss + [s];
    }
    assert start[..|start|] == start && stop[..|start|] == stop;
  }

  /**
   * `Arc::new`. The trigonometric functions and the vertex-buffer upload
   * are parameters; the z inputs are accepted and ignored. An empty batch
   * panics at the stroke slice unless the fill upload already failed.
   */
  method New(view: View, cos: real -> real, sin: real -> real, vbOk: seq<Vertex> -> bool,
             xci: seq<real>, yci: seq<real>, zci: seq<real>, wi: seq<real>, hi: seq<real>,
             starti: seq<real>, stopi: seq<real>)
    returns (r: Result<Shape>)
    requires Parallel(xci, yci, wi, hi, starti, stopi)
    requires |xci| >= 1 || !vbOk([])
    ensures r == Spec(view, cos, sin, vbOk, xci, yci, wi, hi, starti, stopi)
  {
    var xc, yc, w, h := Correct(view, xci, yci, wi, hi);
    var cs, ss := ArcTables(cos, sin, starti, stopi);
    var shape := Tessellate(view, xci, yci, wi, hi, xc, yc, w, h, cs, ss);
    r := Upload(shape, view, vbOk, LineStrip);
  }

  /** Vertex `j` of arc `i` before colouring, read from that arc's own tables. */
  lemma {:induction false} ArcGeometry(view: View, cos: real -> real, sin: real -> real,
                                       xc: seq<real>, yc: seq<real>, w: seq<real>, h: seq<real>,
                                       start: seq<real>, stop: seq<real>, i: nat, j: nat)
    requires Parallel(xc, yc, w, h, start, stop) && i < |xc| && j < NumSlices
    ensures var v := Geometry(view, cos, sin, xc, yc, w, h, start, stop)[NumSlices * i + j];
      var x0 := FixX(view, true, xc[i]);
      var y0 := FixY(view, true, yc[i]);
      v.z == Eps * i as real && (v.u, v.v) == (0.0, 0.0) &&
      (j == 0 ==> (v.x, v.y) == (x0, y0)) &&
      (j > 0 ==> var a := Angle(start[i], stop[i] - start[i], j - 1);
                 v.x == RimX(view, cos(a), xc[i], w[i]) && v.y == RimY(view, sin(a), yc[i], h[i]))
  {
    var cs, ss := BatchTables(cos, start, stop), BatchTables(sin, start, stop);
    FanGeometry(view, xc, yc, w, h, cs, ss, i, j);
    if j > 0 {
      TablesEntry(cos, start, stop, i, j - 1);
      TablesEntry(sin, start, stop, i, j - 1);
    }
  }

  /** One more arc adds its own table at the end. */
  lemma BatchTablesStep(f: real -> real, start: seq<real>, stop: seq<real>, j: nat)
    requires |stop| == |start| && j < |start|
    ensures BatchTables(f, start[..j + 1], stop[..j + 1]) ==
      BatchTables(f, start[..j], stop[..j]) + [Table(f, start[j], stop[j] - start[j], NumSlices)]
  {
    var a, b := BatchTables(f, start[..j + 1], stop[..j + 1]), BatchTables(f, start[..j], stop[..j]);
    assert forall k :: 0 <= k < j ==> a[k] == b[k];
  }

  /** Entry `k` of arc `i`'s table is `f` of that arc's angle `k`. */
  lemma TablesEntry(f: real -> real, start: seq<real>, stop: seq<real>, i: nat, k: nat)
    requires |stop| == |start| && i < |start| && k < NumSlices
    ensures BatchTables(f, start, stop)[i][k] == f(Angle(start[i], stop[i] - start[i], k))
  {
    assert BatchTables(f, start, stop)[i] == Table(f, start[i], stop[i] - start[i], NumSlices);
  }

  /**
   * Vertex `j` of arc `i` in the fill buffer: the corrected centre for
   * `j == 0`, else the centre displaced by `(cos a * W, sin a * H)` at
   * `a = start + (stop - start)*(j-1)/201`, in the fill colour.
   */
  lemma {:induction false} ArcVertex(view: View, cos: real -> real, sin: real -> real, vbOk: seq<Vertex> -> bool,
                                     xc: seq<real>, yc: seq<real>, w: seq<real>, h: seq<real>,
                                     start: seq<real>, stop: seq<real>, i: nat, j: nat)
    requires Parallel(xc, yc, w, h, start, stop) && i < |xc| && j < NumSlices
    requires Spec(view, cos, sin, vbOk, xc, yc, w, h, start, stop).Ok?
    ensures var v := Spec(view, cos, sin, vbOk, xc, yc, w, h, start, stop).value.fill[NumSlices * i + j];
      var g := Geometry(view, cos, sin, xc, yc, w, h, start, stop)[NumSlices * i + j];
      (v.x, v.y, v.z, v.u, v.v) == (g.x, g.y, g.z, g.u, g.v) &&
      (|view.fillCol| == 4 ==> v.color == ColorOf(view.fillCol))
  {
    var g := Geometry(view, cos, sin, xc, yc, w, h, start, stop);
    StampedKeepsGeometry(g, view.fillCol);
    assert Spec(view, cos, sin, vbOk, xc, yc, w, h, start, stop).value.fill == Stamped(g, view.fillCol);
  }

  /**
   * The outcome of `Arc::new`: a fan of 202 vertices per arc, a stroke strip
   * of two fewer, and `VBNoCreate` exactly when an upload fails.
   */
  lemma ArcLayout(view: View, cos: real -> real, sin: real -> real, vbOk: seq<Vertex> -> bool,
                  xc: seq<real>, yc: seq<real>, w: seq<real>, h: seq<real>, start: seq<real>, stop: seq<real>)
    requires Parallel(xc, yc, w, h, start, stop)
    requires |xc| >= 1 || !vbOk([])
    ensures var r := Spec(view, cos, sin, vbOk, xc, yc, w, h, start, stop);
      var fill := Stamped(Geometry(view, cos, sin, xc, yc, w, h, start, stop), view.fillCol);
      (r.Err? <==> !vbOk(fill) || !vbOk(Stamped(fill, view.strokeCol)[1 .. |fill| - 1])) &&
      (r.Err? ==> r.error == VBNoCreate) &&
      (r.Ok? ==> |r.value.fill| == 202 * |xc| && |r.value.stroke| == 202 * |xc| - 2 &&
                 r.value.fillIndices == NoBuffer(TriangleFan) && r.value.strokeIndices == NoBuffer(LineStrip))
  {
    var g := Geometry(view, cos, sin, xc, yc, w, h, start, stop);
    FinishOutcome(g, view, vbOk, LineStrip);
  }

  // ---------------------------------------------------------------- corrected step

  /** The tables with the corrected step `1 / (numSlices - 2)`, one per arc. */
  function ClosedBatchTables(f: real -> real, start: seq<real>, stop: seq<real>): (r: seq<seq<real>>)
    requires |stop| == |start|
    ensures |r| == |start|
  {
    seq(|start|, j requires 0 <= j < |start| => ClosedTable(f, start[j], stop[j] - start[j], NumSlices))
  }

  /** The uncoloured vertices the arcs should have: the same fans over the corrected tables. */
  function CorrectedGeometry(view: View, cos: real -> real, sin: real -> real,
                             xc: seq<real>, yc: seq<real>, w: seq<real>, h: seq<real>,
                             start: seq<real>, stop: seq<real>): (r: seq<Vertex>)
    requires Parallel(xc, yc, w, h, start, stop)
    ensures |r| == NumSlices * |xc|
  {
    Fans(view, xc, yc, w, h, ClosedBatchTables(cos, start, stop), ClosedBatchTables(sin, start, stop), |xc|)
  }

  /**
   * With the corrected tables the rim of arc `i` opens at its start angle
   * and closes at its stop angle.
   */
  lemma CorrectedArcSpansSweep(view: View, cos: real -> real, sin: real -> real,
                               xc: seq<real>, yc: seq<real>, w: seq<real>, h: seq<real>,
                               start: seq<real>, stop: seq<real>, i: nat)
    requires Parallel(xc, yc, w, h, start, stop) && i < |xc|
    ensures var g := CorrectedGeometry(view, cos, sin, xc, yc, w, h, start, stop);
      var first, last := g[NumSlices * i + 1], g[NumSlices * i + NumSlices - 1];
      first.x == RimX(view, cos(start[i]), xc[i], w[i]) && first.y == RimY(view, sin(start[i]), yc[i], h[i]) &&
      last.x == RimX(view, cos(stop[i]), xc[i], w[i]) && last.y == RimY(view, sin(stop[i]), yc[i], h[i])
  {
    var cs, ss := ClosedBatchTables(cos, start, stop), ClosedBatchTables(sin, start, stop);
    ClosedEnds(cos, start[i], stop[i], cs[i]);
    ClosedEnds(sin, start[i], stop[i], ss[i]);
    RimPoint(view, xc, yc, w, h, cs, ss, i, 1);
    RimPoint(view, xc, yc, w, h, cs, ss, i, NumSlices - 1);
  }

  /** Rim vertex `j` of arc `i` over tables `cs` and `ss`, position only. */
  lemma RimPoint(view: View, xc: seq<real>, yc: seq<real>, w: seq<real>, h: seq<real>,
                          cs: seq<seq<real>>, ss: seq<seq<real>>, i: nat, j: nat)
    requires |yc| == |xc| && |w| == |xc| && |h| == |xc| && Covers(cs, ss, |xc|) && i < |xc| && 0 < j < NumSlices
    ensures var v := Fans(view, xc, yc, w, h, cs, ss, |xc|)[NumSlices * i + j];
      v.x == RimX(view, cs[i][j - 1], xc[i], w[i]) && v.y == RimY(view, ss[i][j - 1], yc[i], h[i])
  {
    FanGeometry(view, xc, yc, w, h, cs, ss, i, j);
  }

  /** The first and the last rim entry of a corrected table are `f` of the start and the stop angle. */
  lemma ClosedEnds(f: real -> real, start: real, stop: real, t: seq<real>)
    requires t == ClosedTable(f, start, stop - start, NumSlices)
    ensures t[0] == f(start) && t[NumSlices - 2] == f(stop)
  {
    ClosedRimSpansSweep(start, stop - start, 0);
    assert start + (stop - start) == stop;
  }
}
