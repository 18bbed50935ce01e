/**
 * `Line::new`: a batch of line segments, two vertices each, coloured with the
 * stroke colour only and drawn as a list of lines.
 */
module Line {
  import opened Errors
  import opened Shapes

  /** The two endpoints of segment `c`, still uncoloured. */
  function Ends(view: View, x1: real, y1: real, x2: real, y2: real, c: nat): seq<Vertex>
  {
    [ Vertex(FixX(view, false, x1), FixY(view, false, y1), Bias(c), Transparent, 0.0, 0.0),
      Vertex(FixX(view, false, x2), FixY(view, false, y2), Bias(c), Transparent, 0.0, 0.0) ]
  }

  /** Endpoint vectors of a batch: every loop runs over `x1`, so the others need at least its length. */
  predicate Parallel(x1: seq<real>, y1: seq<real>, x2: seq<real>, y2: seq<real>)
  {
    |y1| >= |x1| && |x2| >= |x1| && |y2| >= |x1|
  }

  /** The uncoloured vertices of the first `n` segments. */
  function Segments(view: View, x1: seq<real>, y1: seq<real>, x2: seq<real>, y2: seq<real>, n: nat): (r: seq<Vertex>)
    requires Parallel(x1, y1, x2, y2) && n <= |x1|
    ensures |r| == 2 * n
  {
    if n == 0 then []
    else Segments(view, x1, y1, x2, y2, n - 1) + Ends(view, x1[n - 1], y1[n - 1], x2[n - 1], y2[n - 1], n - 1)
  }

  /**
   * What `Line::new` returns: with the stroke on, one buffer serves as both
   * fill and stroke; with it off, both are empty. Both are drawn as
   * LinesList and each upload can fail.
   */
  function Spec(view: View, vbOk: seq<Vertex> -> bool,
                x1: seq<real>, y1: seq<real>, x2: seq<real>, y2: seq<real>): Result<Shape>
    requires Parallel(x1, y1, x2, y2)
  {
    var shape := if view.strokeOn then Stamped(Segments(view, x1, y1, x2, y2, |x1|), view.strokeCol) else [];
    if !vbOk(shape) then Err(VBNoCreate)
    else Ok(Shape(shape, shape, NoBuffer(LinesList), NoBuffer(LinesList), None))
  }

  /**
   * The colouring loop written for lines: the even positions of the buffer,
   * each with its successor. Only defined on 4-long colours, as the loop only
   * runs for those.
   */
  method ColorPairs(buffer: array<Vertex>, col: seq<real>)
    requires |col| == 4 && buffer.Length % 2 == 0
    modifies buffer
    ensures buffer[..] == Stamped(old(buffer[..]), col)
  {
    var x := 0;
    while x < buffer.Length
      invariant 0 <= x <= buffer.Length && x % 2 == 0
      invariant forall k :: 0 <= k < x ==> buffer[k] == old(buffer[k]).(color := ColorOf(col))
      invariant forall k :: x <= k < buffer.Length ==> buffer[k] == old(buffer[k])
    {
      buffer[x] := buffer[x].(color := ColorOf(col));
      buffer[x + 1] := buffer[x + 1].(color := ColorOf(col));
      x := x + 2;
    }
  }

  /** The endpoint push loop over the corrected vectors. */
  method Tessellate(view: View, x1i: seq<real>, y1i: seq<real>, x2i: seq<real>, y2i: seq<real>,
                    x1: seq<real>, y1: seq<real>, x2: seq<real>, y2: seq<real>) returns (shape: seq<Vertex>)
    requires Parallel(x1i, y1i, x2i, y2i)
    requires FixedX(view, false, x1i, x1) && FixedX(view, false, x2i, x2)
    requires FixedY(view, false, y1i, y1) && FixedY(view, false, y2i, y2)
    ensures shape == Segments(view, x1i, y1i, x2i, y2i, |x1i|)
  {
    shape := [];
    for i := 0 to |x1i|
      invariant shape == Segments(view, x1i, y1i, x2i, y2i, i)
    {
      shape := shape + [Vertex(x1[i], y1[i], Bias(i), Transparent, 0.0, 0.0)];
      shape := shape + [Vertex(x2[i], y2[i], Bias(i), Transparent, 0.0, 0.0)];
    }
  }

  /** `Line::new`. The z inputs are accepted and ignored. */
  method New(view: View, vbOk: seq<Vertex> -> bool,
             x1i: seq<real>, y1i: seq<real>, z1i: seq<real>,
             x2i: seq<real>, y2i: seq<real>, z2i: seq<real>) returns (r: Result<Shape>)
    requires Parallel(x1i, y1i, x2i, y2i)
    ensures r == Spec(view, vbOk, x1i, y1i, x2i, y2i)
  {
    var x1, x2, y1, y2 := x1i, x2i, y1i, y2i;
    if view.preserveAspect {
      if view.aspect > 1.0 {
        x1 := DivideAll(x1, view.aspect);
        x2 := DivideAll(x2, view.aspect);
      } else {
        y1 := MultiplyAll(y1, view.aspect);
        y2 := MultiplyAll(y2, view.aspect);
      }
    }
    if view.strokeOn {
      var pushed := Tessellate(view, x1i, y1i, x2i, y2i, x1, y1, x2, y2);
      var buf := ToArray(pushed);
      if |view.strokeCol| == 4 {
        ColorPairs(buf, view.strokeCol);
      } else {
        StampedOtherLength(pushed, view.strokeCol);
      }
      var shape := buf[..];
      if !vbOk(shape) {
        return Err(VBNoCreate);
      }
      return Ok(Shape(shape, shape, NoBuffer(LinesList), NoBuffer(LinesList), None));
    }
    if !vbOk([]) {
      return Err(VBNoCreate);
    }
    r := Ok(Shape([], [], NoBuffer(LinesList), NoBuffer(LinesList), None));
  }

  /**
   * Segment `c` of a stroked batch: its two corrected endpoints at depth
   * eps*c, both in the stroke colour when that has four components.
   */
  lemma {:induction false} LineEnds(view: View, vbOk: seq<Vertex> -> bool,
                                    x1: seq<real>, y1: seq<real>, x2: seq<real>, y2: seq<real>, c: nat)
    requires Parallel(x1, y1, x2, y2) && c < |x1| && view.strokeOn
    requires Spec(view, vbOk, x1, y1, x2, y2).Ok?
    ensures var s := Spec(view, vbOk, x1, y1, x2, y2).value;
      |s.fill| == 2 * |x1| &&
      (s.fill[2 * c].x, s.fill[2 * c].y, s.fill[2 * c].z) == (FixX(view, false, x1[c]), FixY(view, false, y1[c]), Eps * c as real) &&
      (s.fill[2 * c + 1].x, s.fill[2 * c + 1].y, s.fill[2 * c + 1].z) == (FixX(view, false, x2[c]), FixY(view, false, y2[c]), Eps * c as real) &&
      (|view.strokeCol| == 4 ==> s.fill[2 * c].color == ColorOf(view.strokeCol) && s.fill[2 * c + 1].color == ColorOf(view.strokeCol))
  {
    var g := Segments(view, x1, y1, x2, y2, |x1|);
    SegmentsAt(view, x1, y1, x2, y2, |x1|, c);
    StampedKeepsGeometry(g, view.strokeCol);
    if |view.strokeCol| == 4 {
      StampedSetsColor(g, view.strokeCol);
    }
  }

  /** The endpoints of segment `c` sit at offset 2c. */
  lemma {:induction false} SegmentsAt(view: View, x1: seq<real>, y1: seq<real>, x2: seq<real>, y2: seq<real>, n: nat, c: nat)
    requires Parallel(x1, y1, x2, y2) && n <= |x1| && c < n
    ensures Segments(view, x1, y1, x2, y2, n)[2 * c] == Ends(view, x1[c], y1[c], x2[c], y2[c], c)[0]
    ensures Segments(view, x1, y1, x2, y2, n)[2 * c + 1] == Ends(view, x1[c], y1[c], x2[c], y2[c], c)[1]
  {
    if c < n - 1 {
      SegmentsAt(view, x1, y1, x2, y2, n - 1, c);
    }
  }

  /**
   * The outcome of `Line::new`: fill and stroke are the same buffer, empty
   * exactly when the stroke is off, and `VBNoCreate` exactly when its upload
   * is refused; the fill colour is never applied.
   */
  lemma LineLayout(view: View, vbOk: seq<Vertex> -> bool, x1: seq<real>, y1: seq<real>, x2: seq<real>, y2: seq<real>)
    requires Parallel(x1, y1, x2, y2)
    ensures var r := Spec(view, vbOk, x1, y1, x2, y2);
      var shape := if view.strokeOn then Stamped(Segments(view, x1, y1, x2, y2, |x1|), view.strokeCol) else [];
      (r.Err? <==> !vbOk(shape)) && (r.Err? ==> r.error == VBNoCreate) &&
      (r.Ok? ==> r.value.fill == r.value.stroke &&
                 |r.value.fill| == (if view.strokeOn then 2 * |x1| else 0) &&
                 r.value.fillIndices == NoBuffer(LinesList) && r.value.strokeIndices == NoBuffer(LinesList) &&
                 r.value.texture == None)
  {
  }
}
