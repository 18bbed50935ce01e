/**
 * The triangle fan shared by `Ellipse::new` and `Arc::new`: per instance a
 * centre vertex followed by a rim of 201 points read from cosine and sine
 * tables, every instance at its own depth.
 */
module Fan {
  import opened Errors
  import opened Shapes

  /** Vertices pushed per instance (`numSlices = 200 + 2`). */
  const NumSlices: nat := 202

  /** The angular step as a share of the sweep, `1 / (numSlices - 1)`. */
  const Step: real := 1.0 / 201.0

  /** Table angle `k` of a sweep of `diff` radians starting at `start`. */
  function Angle(start: real, diff: real, k: nat): real
  {
    start + diff * (k as real) * Step
  }

  /**
   * A table as the source fills it: `loops` entries for angles 0, 1, ...,
   * then one more entry for angle `numSlices - 1`.
   */
  function Table(f: real -> real, start: real, diff: real, loops: nat): (t: seq<real>)
    ensures |t| == loops + 1
    ensures forall k :: 0 <= k < loops ==> t[k] == f(Angle(start, diff, k))
    ensures t[loops] == f(Angle(start, diff, NumSlices - 1))
  {
    seq(loops, k requires 0 <= k < loops => f(Angle(start, diff, k))) + [f(Angle(start, diff, NumSlices - 1))]
  }

  /** The loop that fills the cosine and sine tables side by side. */
  method Tables(cos: real -> real, sin: real -> real, start: real, diff: real, loops: nat)
    returns (c: seq<real>, s: seq<real>)
    ensures c == Table(cos, start, diff, loops)
    ensures s == Table(sin, start, diff, loops)
  {
    c, s := [], [];
    for k := 0 to loops
      invariant |c| == k && |s| == k
      invariant forall i :: 0 <= i < k ==> c[i] == cos(Angle(start, diff, i)) && s[i] == sin(Angle(start, diff, i))
    {
      var p := start + diff * (k as real) * Step;
      assert p == Angle(start, diff, k);
      c := c + [cos(p)];
      s := s + [sin(p)];
    }
    var p := start + diff * ((NumSlices - 1) as real) * Step;
    c := c + [cos(p)];
    s := s + [sin(p)];
  }

  /** The half-axis actually used: halved in CENTER mode. */
  function Radius(view: View, v: real): real
  {
    if view.ellipseMode == "CENTER" then v / 2.0 else v
  }

  /** Rim abscissa for table value `c`: the corrected centre plus `c` times the half-axis. */
  function RimX(view: View, c: real, x: real, w: real): real
  {
    c * Radius(view, FixX(view, true, w)) + FixX(view, true, x)
  }

  /** Rim ordinate for table value `s`. */
  function RimY(view: View, s: real, y: real, h: real): real
  {
    s * Radius(view, FixY(view, true, h)) + FixY(view, true, y)
  }

  /** The rim point computed from already corrected centre and half-axes. */
  lemma RimFromCorrected(view: View, c: real, s: real, x: real, y: real, w: real, h: real,
                         xc: real, yc: real, wc: real, hc: real)
    requires xc == FixX(view, true, x) && wc == Radius(view, FixX(view, true, w))
    requires yc == FixY(view, true, y) && hc == Radius(view, FixY(view, true, h))
    ensures c * wc + xc == RimX(view, c, x, w) && s * hc + yc == RimY(view, s, y, h)
  {
  }

  /** `v` holds the corrected horizontal half-axes of `raw`. */
  predicate FixedW(view: View, raw: seq<real>, v: seq<real>)
  {
    |v| == |raw| && forall i :: 0 <= i < |raw| ==> v[i] == Radius(view, FixX(view, true, raw[i]))
  }

  /** `v` holds the corrected vertical half-axes of `raw`. */
  predicate FixedH(view: View, raw: seq<real>, v: seq<real>)
  {
    |v| == |raw| && forall i :: 0 <= i < |raw| ==> v[i] == Radius(view, FixY(view, true, raw[i]))
  }

  /**
   * The aspect-ratio correction (skipped when the ratio is 1) followed by the
   * ellipse-mode correction of the half-axes.
   */
  method Correct(view: View, xci: seq<real>, yci: seq<real>, wi: seq<real>, hi: seq<real>)
    returns (xc: seq<real>, yc: seq<real>, w: seq<real>, h: seq<real>)
    requires |yci| == |xci| && |wi| == |xci| && |hi| == |xci|
    ensures FixedX(view, true, xci, xc) && FixedY(view, true, yci, yc)
    ensures FixedW(view, wi, w) && FixedH(view, hi, h)
  {
    xc, yc, w, h := xci, yci, wi, hi;
    if view.preserveAspect && view.aspect != 1.0 {
      if view.aspect > 1.0 {
        xc := DivideAll(xc, view.aspect);
        w := DivideAll(w, view.aspect);
      } else {
        yc := MultiplyAll(yc, view.aspect);
        h := MultiplyAll(h, view.aspect);
      }
    }
    if view.ellipseMode == "CENTER" {
      w := DivideAll(w, 2.0);
      h := DivideAll(h, 2.0);
    }
  }

  /** Every instance has a cosine and a sine table that the rim can read. */
  predicate Covers(cs: seq<seq<real>>, ss: seq<seq<real>>, n: nat)
  {
    |cs| == n && |ss| == n &&
    forall i :: 0 <= i < n ==> |cs[i]| >= NumSlices - 1 && |ss[i]| >= NumSlices - 1
  }

  /**
   * Vertex `j` of instance `i`: the centre for `j == 0`, otherwise the rim
   * point read from table entry `j - 1`.
   */
  function FanVertex(view: View, x: real, y: real, w: real, h: real, c: seq<real>, s: seq<real>, i: nat, j: nat): Vertex
    requires j < NumSlices && |c| >= NumSlices - 1 && |s| >= NumSlices - 1
  {
    var xc := FixX(view, true, x);
    var yc := FixY(view, true, y);
    if j == 0 then Vertex(xc, yc, Bias(i), Transparent, 0.0, 0.0)
    else
      Vertex(RimX(view, c[j - 1], x, w), RimY(view, s[j - 1], y, h), Bias(i), Transparent, 0.0, 0.0)
  }

  /** The first `m` vertices of instance `i`. */
  function Rim(view: View, x: real, y: real, w: real, h: real, c: seq<real>, s: seq<real>, i: nat, m: nat): (r: seq<Vertex>)
    requires m <= NumSlices && |c| >= NumSlices - 1 && |s| >= NumSlices - 1
    ensures |r| == m
  {
    if m == 0 then [] else Rim(view, x, y, w, h, c, s, i, m - 1) + [FanVertex(view, x, y, w, h, c, s, i, m - 1)]
  }

  /** The uncoloured vertices of the first `n` instances. */
  function Fans(view: View, x: seq<real>, y: seq<real>, w: seq<real>, h: seq<real>,
                cs: seq<seq<real>>, ss: seq<seq<real>>, n: nat): (r: seq<Vertex>)
    requires |y| == |x| && |w| == |x| && |h| == |x| && Covers(cs, ss, |x|) && n <= |x|
    ensures |r| == NumSlices * n
  {
    if n == 0 then []
    else
      var i := n - 1;
      Fans(view, x, y, w, h, cs, ss, i) + Rim(view, x[i], y[i], w[i], h[i], cs[i], ss[i], i, NumSlices)
  }

  /** The nested vertex loop over the corrected vectors. */
  method Tessellate(view: View, x: seq<real>, y: seq<real>, w: seq<real>, h: seq<real>,
                    xc: seq<real>, yc: seq<real>, wc: seq<real>, hc: seq<real>,
                    cs: seq<seq<real>>, ss: seq<seq<real>>) returns (shape: seq<Vertex>)
    requires |y| == |x| && |w| == |x| && |h| == |x| && Covers(cs, ss, |x|)
    requires FixedX(view, true, x, xc) && FixedY(view, true, y, yc)
    requires FixedW(view, w, wc) && FixedH(view, h, hc)
    ensures shape == Fans(view, x, y, w, h, cs, ss, |x|)
  {
    shape := [];
    for i := 0 to |x|
      invariant shape == Fans(view, x, y, w, h, cs, ss, i)
    {
      shape := PushFan(shape, view, x[i], y[i], w[i], h[i], xc[i], yc[i], wc[i], hc[i], cs[i], ss[i], i);
    }
  }

  /** The inner loop: push the 202 vertices of instance `i`. */
  method PushFan(shape: seq<Vertex>, view: View, x: real, y: real, w: real, h: real,
                 xc: real, yc: real, wc: real, hc: real, c: seq<real>, s: seq<real>, i: nat)
    returns (out: seq<Vertex>)
    requires xc == FixX(view, true, x) && wc == Radius(view, FixX(view, true, w))
    requires yc == FixY(view, true, y) && hc == Radius(view, FixY(view, true, h))
    requires |c| >= NumSlices - 1 && |s| >= NumSlices - 1
    ensures out == shape + Rim(view, x, y, w, h, c, s, i, NumSlices)
  {
    out := shape;
    for j := 0 to NumSlices
      invariant out == shape + Rim(view, x, y, w, h, c, s, i, j)
    {
      var vertex;
      if j == 0 {
        vertex := Vertex(xc, yc, Bias(i), Transparent, 0.0, 0.0);
      } else {
        vertex := Vertex(c[j - 1] * wc + xc, s[j - 1] * hc + yc, Bias(i), Transparent, 0.0, 0.0);
        RimFromCorrected(view, c[j - 1], s[j - 1], x, y, w, h, xc, yc, wc, hc);
      }
      assert vertex == FanVertex(view, x, y, w, h, c, s, i, j);
      out := out + [vertex];
    }
  }

  /**
   * The two uploads: the fill stamping of the whole buffer, then the stroke
   * stamping with the first and last vertex cut off; either upload can fail.
   */
  function Finish(g: seq<Vertex>, view: View, vbOk: seq<Vertex> -> bool, strokeRule: Primitive): Result<Shape>
    requires |g| >= 2 || !vbOk(Stamped(g, view.fillCol))
  {
    var fill := Stamped(g, view.fillCol);
    if !vbOk(fill) then Err(VBNoCreate)
    else
      var full := Stamped(fill, view.strokeCol);
      var stroke := full[1 .. |full| - 1];
      if !vbOk(stroke) then Err(VBNoCreate)
      else Ok(Shape(fill, stroke, NoBuffer(TriangleFan), NoBuffer(strokeRule), None))
  }

  /** The colouring and upload steps that end both constructors. */
  method Upload(g: seq<Vertex>, view: View, vbOk: seq<Vertex> -> bool, strokeRule: Primitive) returns (r: Result<Shape>)
    requires |g| >= 2 || !vbOk(Stamped(g, view.fillCol))
    ensures r == Finish(g, view, vbOk, strokeRule)
  {
    var fill, full := StampFillThenStroke(g, view);
    if !vbOk(fill) {
      return Err(VBNoCreate);
    }
    var stroke := full[1 .. |full| - 1];
    if !vbOk(stroke) {
      return Err(VBNoCreate);
    }
    r := Ok(Shape(fill, stroke, NoBuffer(TriangleFan), NoBuffer(strokeRule), None));
  }

  /**
   * `Finish` fails exactly when one of the two uploads is refused; on success
   * the stroke buffer is the stroke-stamped fill with one vertex cut from each
   * end, and the fill is drawn as a fan.
   */
  lemma FinishOutcome(g: seq<Vertex>, view: View, vbOk: seq<Vertex> -> bool, strokeRule: Primitive)
    requires |g| >= 2 || !vbOk(Stamped(g, view.fillCol))
    ensures var fill := Stamped(g, view.fillCol);
      var r := Finish(g, view, vbOk, strokeRule);
      (r.Err? <==> (!vbOk(fill) || !vbOk(Stamped(fill, view.strokeCol)[1 .. |g| - 1]))) &&
      (r.Err? ==> r.error == VBNoCreate) &&
      (r.Ok? ==>
        r.value.fill == fill && |r.value.stroke| == |g| - 2 &&
        (forall k :: 0 <= k < |g| - 2 ==> r.value.stroke[k] == Stamped(fill, view.strokeCol)[k + 1]) &&
        r.value.fillIndices == NoBuffer(TriangleFan) && r.value.strokeIndices == NoBuffer(strokeRule) &&
        r.value.texture == None)
  {
    StampedKeepsGeometry(g, view.fillCol);
    StampedKeepsGeometry(Stamped(g, view.fillCol), view.strokeCol);
  }

  /** Vertex `j` of `Rim(m)` is `FanVertex(j)`. */
  lemma {:induction false} RimAt(view: View, x: real, y: real, w: real, h: real, c: seq<real>, s: seq<real>, i: nat, m: nat, j: nat)
    requires m <= NumSlices && |c| >= NumSlices - 1 && |s| >= NumSlices - 1 && j < m
    ensures Rim(view, x, y, w, h, c, s, i, m)[j] == FanVertex(view, x, y, w, h, c, s, i, j)
  {
    if j < m - 1 {
      RimAt(view, x, y, w, h, c, s, i, m - 1, j);
    }
  }

  /** Instance `i` occupies the 202 vertices from offset 202*i on. */
  lemma {:induction false} FansAt(view: View, x: seq<real>, y: seq<real>, w: seq<real>, h: seq<real>,
                                  cs: seq<seq<real>>, ss: seq<seq<real>>, n: nat, i: nat)
    requires |y| == |x| && |w| == |x| && |h| == |x| && Covers(cs, ss, |x|) && n <= |x| && i < n
    ensures Fans(view, x, y, w, h, cs, ss, n)[NumSlices * i .. NumSlices * i + NumSlices] ==
      Rim(view, x[i], y[i], w[i], h[i], cs[i], ss[i], i, NumSlices)
  {
    var f := Fans(view, x, y, w, h, cs, ss, n);
    var prev := Fans(view, x, y, w, h, cs, ss, n - 1);
    if i < n - 1 {
      FansAt(view, x, y, w, h, cs, ss, n - 1, i);
      assert f[NumSlices * i .. NumSlices * i + NumSlices] == prev[NumSlices * i .. NumSlices * i + NumSlices];
    } else {
      assert f[NumSlices * i ..] == Rim(view, x[i], y[i], w[i], h[i], cs[i], ss[i], i, NumSlices);
    }
  }

  /** Vertex `j` of instance `i` in the whole buffer is `FanVertex(j)` of that instance. */
  lemma FansVertex(view: View, x: seq<real>, y: seq<real>, w: seq<real>, h: seq<real>,
                   cs: seq<seq<real>>, ss: seq<seq<real>>, i: nat, j: nat)
    requires |y| == |x| && |w| == |x| && |h| == |x| && Covers(cs, ss, |x|) && i < |x| && j < NumSlices
    ensures NumSlices * i + j < |Fans(view, x, y, w, h, cs, ss, |x|)|
    ensures Fans(view, x, y, w, h, cs, ss, |x|)[NumSlices * i + j] ==
      FanVertex(view, x[i], y[i], w[i], h[i], cs[i], ss[i], i, j)
  {
    var f := Fans(view, x, y, w, h, cs, ss, |x|);
    FansAt(view, x, y, w, h, cs, ss, |x|, i);
    RimAt(view, x[i], y[i], w[i], h[i], cs[i], ss[i], i, NumSlices, j);
    assert f[NumSlices * i + j] == f[NumSlices * i .. NumSlices * i + NumSlices][j];
  }

  /**
   * Vertex `j` of instance `i` in the whole buffer: the corrected centre at
   * `j == 0`, else the rim point `(c[j-1]*W + X, s[j-1]*H + Y)` with the
   * corrected half-axes; depth eps*i and texcoord (0,0) throughout.
   */
  lemma {:induction false} FanGeometry(view: View, x: seq<real>, y: seq<real>, w: seq<real>, h: seq<real>,
                    cs: seq<seq<real>>, ss: seq<seq<real>>, i: nat, j: nat)
    requires |y| == |x| && |w| == |x| && |h| == |x| && Covers(cs, ss, |x|) && i < |x| && j < NumSlices
    ensures NumSlices * i + j < |Fans(view, x, y, w, h, cs, ss, |x|)|
    ensures var v := Fans(view, x, y, w, h, cs, ss, |x|)[NumSlices * i + j];
      var xc := FixX(view, true, x[i]);
      var yc := FixY(view, true, y[i]);
      v.z == Eps * i as real && v.u == 0.0 && v.v == 0.0 &&
      (j == 0 ==> v.x == xc && v.y == yc) &&
      (j > 0 ==> v.x == RimX(view, cs[i][j - 1], x[i], w[i]) && v.y == RimY(view, ss[i][j - 1], y[i], h[i]))
  {
    FansVertex(view, x, y, w, h, cs, ss, i, j);
    VertexParts(view, x[i], y[i], w[i], h[i], cs[i], ss[i], i, j);
  }

  /** The coordinates of one fan vertex, field by field. */
  lemma VertexParts(view: View, x: real, y: real, w: real, h: real, c: seq<real>, s: seq<real>, i: nat, j: nat)
    requires j < NumSlices && |c| >= NumSlices - 1 && |s| >= NumSlices - 1
    ensures var v := FanVertex(view, x, y, w, h, c, s, i, j);
      v.z == Eps * i as real && v.u == 0.0 && v.v == 0.0 &&
      (j == 0 ==> v.x == FixX(view, true, x) && v.y == FixY(view, true, y)) &&
      (j > 0 ==> v.x == RimX(view, c[j - 1], x, w) && v.y == RimY(view, s[j - 1], y, h))
  {
  }

  /**
   * The rim of every instance reads table entries 0 to 200 only: its last
   * point lies at 200/201 of the sweep, one step short of the stop angle,
   * while the entry for the stop angle itself is never read.
   */
  lemma RimStopsShort(start: real, diff: real)
    requires diff != 0.0
    ensures Angle(start, diff, 0) == start
    ensures Angle(start, diff, NumSlices - 2) != start + diff
    ensures Angle(start, diff, NumSlices - 1) == start + diff
  {
  }

  /** The rim angle with the step `1 / (numSlices - 2)` the fan needs. */
  function ClosedAngle(start: real, diff: real, k: nat): real
  {
    start + diff * (k as real) / (NumSlices - 2) as real
  }

  /** A table laid out as `Table`, with every angle taken at the corrected step. */
  function ClosedTable(f: real -> real, start: real, diff: real, loops: nat): (t: seq<real>)
    ensures |t| == loops + 1
    ensures forall k :: 0 <= k < loops ==> t[k] == f(ClosedAngle(start, diff, k))
  {
    seq(loops, k requires 0 <= k < loops => f(ClosedAngle(start, diff, k))) + [f(ClosedAngle(start, diff, NumSlices - 2))]
  }

  /**
   * With that step the 201 rim points run from the start angle to the stop
   * angle in equal steps, so the fan is closed.
   */
  lemma ClosedRimSpansSweep(start: real, diff: real, k: nat)
    requires k < NumSlices - 2
    ensures ClosedAngle(start, diff, 0) == start
    ensures ClosedAngle(start, diff, NumSlices - 2) == start + diff
    ensures ClosedAngle(start, diff, k + 1) - ClosedAngle(start, diff, k) == diff / 200.0
  {
  }
}
