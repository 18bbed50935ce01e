/**
 * `Rect::new`: a batch of axis-aligned rectangles, four corners each, drawn as
 * two indexed triangles per rectangle.
 */
module Rect {
  import opened Errors
  import opened Shapes

  /** Left edge of one rectangle after aspect and anchor correction. */
  function Left(view: View, x: real, w: real): real
  {
    if view.rectMode == "CENTER" then FixX(view, true, x) - FixX(view, true, w) / 2.0
    else FixX(view, true, x)
  }

  /** Top edge of one rectangle after aspect and anchor correction. */
  function Top(view: View, y: real, h: real): real
  {
    if view.rectMode == "CENTER" then FixY(view, true, y) - FixY(view, true, h) / 2.0
    else FixY(view, true, y)
  }

  /** The four corners of rectangle `c`, still uncoloured. */
  function Corners(view: View, x: real, y: real, w: real, h: real, c: nat): seq<Vertex>
  {
    var l, t := Left(view, x, w), Top(view, y, h);
    var r, b := l + FixX(view, true, w), t - FixY(view, true, h);
    [ Vertex(l, t, Bias(c), Transparent, 0.0, 1.0),
      Vertex(r, t, Bias(c), Transparent, 1.0, 1.0),
      Vertex(r, b, Bias(c), Transparent, 1.0, 0.0),
      Vertex(l, b, Bias(c), Transparent, 0.0, 0.0) ]
  }

  /** The uncoloured vertices of the first `n` rectangles. */
  function Vertices(view: View, x: seq<real>, y: seq<real>, w: seq<real>, h: seq<real>, n: nat): (r: seq<Vertex>)
    requires n <= |x| && |y| == |x| && |w| == |x| && |h| == |x|
    ensures |r| == 4 * n
  {
    if n == 0 then []
    else Vertices(view, x, y, w, h, n - 1) + Corners(view, x[n - 1], y[n - 1], w[n - 1], h[n - 1], n - 1)
  }

  /** What `Rect::new` returns. */
  function Spec(view: View, x: seq<real>, y: seq<real>, w: seq<real>, h: seq<real>): Shape
    requires |y| == |x| && |w| == |x| && |h| == |x|
  {
    var fill := Stamped(Vertices(view, x, y, w, h, |x|), view.fillCol);
    Shape(fill, Stamped(fill, view.strokeCol), Buffer(TrianglesList, QuadIndices(|x|)), NoBuffer(LineLoop), None)
  }

  /**
   * `Rect::new`. The z inputs are accepted and ignored. The first index block
   * is written whatever the batch size, so at least one rectangle is needed.
   * The index upload and both vertex uploads are unwrapped in the source, so
   * a refused upload is a panic the caller must rule out.
   */
  method New(view: View, vbOk: seq<Vertex> -> bool, ibOk: seq<nat> -> bool,
             xtopleft: seq<real>, ytopleft: seq<real>, ztopleft: seq<real>,
             width: seq<real>, height: seq<real>) returns (r: Shape)
    requires |xtopleft| >= 1
    requires |ytopleft| == |xtopleft| && |width| == |xtopleft| && |height| == |xtopleft|
    requires ibOk(QuadIndices(|xtopleft|))
    requires vbOk(Spec(view, xtopleft, ytopleft, width, height).fill)
    requires vbOk(Spec(view, xtopleft, ytopleft, width, height).stroke)
    ensures r == Spec(view, xtopleft, ytopleft, width, height)
  {
    var x, y, w, h := Correct(view, xtopleft, ytopleft, width, height);
    var shape := Tessellate(view, xtopleft, ytopleft, width, height, x, y, w, h);
    var elements := BuildQuadIndices(|xtopleft|);
    var fill, stroke := StampFillThenStroke(shape, view);
    r := Shape(fill, stroke, Buffer(TrianglesList, elements), NoBuffer(LineLoop), None);
  }

  /** The in-place aspect and anchor correction of the anchor and size vectors. */
  method Correct(view: View, xtopleft: seq<real>, ytopleft: seq<real>, width: seq<real>, height: seq<real>)
    returns (x: seq<real>, y: seq<real>, w: seq<real>, h: seq<real>)
    requires |ytopleft| == |xtopleft| && |width| == |xtopleft| && |height| == |xtopleft|
    ensures |x| == |y| == |w| == |h| == |xtopleft|
    ensures forall i :: 0 <= i < |xtopleft| ==>
      x[i] == Left(view, xtopleft[i], width[i]) && y[i] == Top(view, ytopleft[i], height[i]) &&
      w[i] == FixX(view, true, width[i]) && h[i] == FixY(view, true, height[i])
  {
    var n := |xtopleft|;
    x, y, w, h := xtopleft, ytopleft, width, height;
    if view.preserveAspect && view.aspect != 1.0 {
      if view.aspect > 1.0 {
        x := DivideAll(x, view.aspect);
        w := DivideAll(w, view.aspect);
      } else {
        y := MultiplyAll(y, view.aspect);
        h := MultiplyAll(h, view.aspect);
      }
    }
    if view.rectMode == "CENTER" {
      for i := 0 to n
        invariant |x| == n && |y| == n
        invariant forall k :: 0 <= k < i ==>
          x[k] == Left(view, xtopleft[k], width[k]) && y[k] == Top(view, ytopleft[k], height[k])
        invariant forall k :: i <= k < n ==>
          x[k] == FixX(view, true, xtopleft[k]) && y[k] == FixY(view, true, ytopleft[k])
      {
        x := x[i := x[i] - w[i] / 2.0];
        y := y[i := y[i] - h[i] / 2.0];
      }
    }
  }

  /** The corner vectors and the vertex push loop over the corrected vectors. */
  method Tessellate(view: View, xtopleft: seq<real>, ytopleft: seq<real>, width: seq<real>, height: seq<real>,
                    x: seq<real>, y: seq<real>, w: seq<real>, h: seq<real>) returns (shape: seq<Vertex>)
    requires |ytopleft| == |xtopleft| && |width| == |xtopleft| && |height| == |xtopleft|
    requires |x| == |y| == |w| == |h| == |xtopleft|
    requires forall i :: 0 <= i < |xtopleft| ==>
      x[i] == Left(view, xtopleft[i], width[i]) && y[i] == Top(view, ytopleft[i], height[i]) &&
      w[i] == FixX(view, true, width[i]) && h[i] == FixY(view, true, height[i])
    ensures shape == Vertices(view, xtopleft, ytopleft, width, height, |xtopleft|)
  {
    var n := |xtopleft|;
    var x1, y1, y2, x4 := x, y, y, x;
    var x2, x3, y3, y4 := [], [], [], [];
    for i := 0 to n
      invariant |x2| == i && |x3| == i && |y3| == i && |y4| == i
      invariant forall k :: 0 <= k < i ==>
        x2[k] == x[k] + w[k] && x3[k] == x[k] + w[k] && y3[k] == y[k] - h[k] && y4[k] == y[k] - h[k]
    {
      x2 := x2 + [x[i] + w[i]];
      x3 := x3 + [x[i] + w[i]];
      y3 := y3 + [y[i] - h[i]];
      y4 := y4 + [y[i] - h[i]];
    }
    shape := [];
    for c := 0 to n
      invariant shape == Vertices(view, xtopleft, ytopleft, width, height, c)
    {
      assert Corners(view, xtopleft[c], ytopleft[c], width[c], height[c], c) ==
        [ Vertex(x1[c], y1[c], Bias(c), Transparent, 0.0, 1.0),
          Vertex(x2[c], y2[c], Bias(c), Transparent, 1.0, 1.0),
          Vertex(x3[c], y3[c], Bias(c), Transparent, 1.0, 0.0),
          Vertex(x4[c], y4[c], Bias(c), Transparent, 0.0, 0.0) ];
      shape := shape + [Vertex(x1[c], y1[c], Bias(c), Transparent, 0.0, 1.0)];
      shape := shape + [Vertex(x2[c], y2[c], Bias(c), Transparent, 1.0, 1.0)];
      shape := shape + [Vertex(x3[c], y3[c], Bias(c), Transparent, 1.0, 0.0)];
      shape := shape + [Vertex(x4[c], y4[c], Bias(c), Transparent, 0.0, 0.0)];
    }
  }

  /** The four vertices of rectangle `c` sit at offset 4c. */
  lemma {:induction false} VerticesAt(view: View, x: seq<real>, y: seq<real>, w: seq<real>, h: seq<real>, n: nat, c: nat)
    requires n <= |x| && |y| == |x| && |w| == |x| && |h| == |x| && c < n
    ensures Vertices(view, x, y, w, h, n)[4 * c .. 4 * c + 4] == Corners(view, x[c], y[c], w[c], h[c], c)
  {
    var v := Vertices(view, x, y, w, h, n);
    if c < n - 1 {
      VerticesAt(view, x, y, w, h, n - 1, c);
      assert v[4 * c .. 4 * c + 4] == Vertices(view, x, y, w, h, n - 1)[4 * c .. 4 * c + 4];
    } else {
      assert v[4 * c ..] == Corners(view, x[c], y[c], w[c], h[c], c);
    }
  }

  /**
   * Rectangle `c` of the fill buffer: corners (x,y), (x+w,y), (x+w,y-h),
   * (x,y-h) of the corrected anchor and size, all at z = eps*c, with texcoords
   * (0,1), (1,1), (1,0), (0,0). The anchor moves by (-w/2, -h/2) in CENTER mode
   * only.
   */
  lemma RectCorners(view: View, x: seq<real>, y: seq<real>, w: seq<real>, h: seq<real>, c: nat)
    requires |y| == |x| && |w| == |x| && |h| == |x| && c < |x|
    ensures var s := Spec(view, x, y, w, h);
      var ax, ay := FixX(view, true, x[c]), FixY(view, true, y[c]);
      var cw, ch := FixX(view, true, w[c]), FixY(view, true, h[c]);
      var l := if view.rectMode == "CENTER" then ax - cw / 2.0 else ax;
      var t := if view.rectMode == "CENTER" then ay - ch / 2.0 else ay;
      |s.fill| == 4 * |x| &&
      (s.fill[4 * c].x, s.fill[4 * c].y, s.fill[4 * c].z) == (l, t, Eps * c as real) &&
      (s.fill[4 * c + 1].x, s.fill[4 * c + 1].y, s.fill[4 * c + 1].z) == (l + cw, t, Eps * c as real) &&
      (s.fill[4 * c + 2].x, s.fill[4 * c + 2].y, s.fill[4 * c + 2].z) == (l + cw, t - ch, Eps * c as real) &&
      (s.fill[4 * c + 3].x, s.fill[4 * c + 3].y, s.fill[4 * c + 3].z) == (l, t - ch, Eps * c as real) &&
      (s.fill[4 * c].u, s.fill[4 * c].v) == (0.0, 1.0) &&
      (s.fill[4 * c + 1].u, s.fill[4 * c + 1].v) == (1.0, 1.0) &&
      (s.fill[4 * c + 2].u, s.fill[4 * c + 2].v) == (1.0, 0.0) &&
      (s.fill[4 * c + 3].u, s.fill[4 * c + 3].v) == (0.0, 0.0)
  {
    var g := Vertices(view, x, y, w, h, |x|);
    VerticesAt(view, x, y, w, h, |x|, c);
    StampedKeepsGeometry(g, view.fillCol);
    assert g[4 * c] == Corners(view, x[c], y[c], w[c], h[c], c)[0];
    assert g[4 * c + 1] == Corners(view, x[c], y[c], w[c], h[c], c)[1];
    assert g[4 * c + 2] == Corners(view, x[c], y[c], w[c], h[c], c)[2];
    assert g[4 * c + 3] == Corners(view, x[c], y[c], w[c], h[c], c)[3];
  }

  /**
   * Buffer layout: 4n vertices in each vertex buffer, 6n indices in the
   * TrianglesList index buffer, every one below 4n, block c being
   * [4c, 4c+1, 4c+2, 4c+2, 4c+3, 4c]; a LineLoop stroke and no texture.
   */
  lemma RectLayout(view: View, x: seq<real>, y: seq<real>, w: seq<real>, h: seq<real>)
    requires |y| == |x| && |w| == |x| && |h| == |x|
    ensures var s := Spec(view, x, y, w, h);
      |s.fill| == 4 * |x| && |s.stroke| == 4 * |x| &&
      s.fillIndices.Buffer? && s.fillIndices.prim == TrianglesList && |s.fillIndices.ind| == 6 * |x| &&
      (forall k :: 0 <= k < 6 * |x| ==> s.fillIndices.ind[k] < 4 * |x|) &&
      (forall c :: 0 <= c < |x| ==> s.fillIndices.ind[6 * c .. 6 * c + 6] == [4 * c, 4 * c + 1, 4 * c + 2, 4 * c + 2, 4 * c + 3, 4 * c]) &&
      s.strokeIndices == NoBuffer(LineLoop) && s.texture == None
  {
    var g := Vertices(view, x, y, w, h, |x|);
    StampedKeepsGeometry(g, view.fillCol);
    StampedKeepsGeometry(Stamped(g, view.fillCol), view.strokeCol);
    QuadIndicesInRange(|x|);
    forall c | 0 <= c < |x|
      ensures QuadIndices(|x|)[6 * c .. 6 * c + 6] == [4 * c, 4 * c + 1, 4 * c + 2, 4 * c + 2, 4 * c + 3, 4 * c]
    {
      QuadIndicesBlock(|x|, c);
    }
  }

  /**
   * Colours: the fill buffer carries the fill colour when it is 4-long; the
   * stroke buffer carries the stroke colour when that is 4-long and otherwise
   * whatever the fill stamping left.
   */
  lemma RectColors(view: View, x: seq<real>, y: seq<real>, w: seq<real>, h: seq<real>)
    requires |y| == |x| && |w| == |x| && |h| == |x|
    ensures var s := Spec(view, x, y, w, h);
      var g := Vertices(view, x, y, w, h, |x|);
      s.fill == Stamped(g, view.fillCol) &&
      s.stroke == (if |view.strokeCol| == 4 then Stamped(g, view.strokeCol) else s.fill)
  {
    StampedTwice(Vertices(view, x, y, w, h, |x|), view.fillCol, view.strokeCol);
  }
}
