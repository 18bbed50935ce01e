/**
 * The fill and stroke state of a Screen and the methods of color.rs that
 * change it: two enable flags, two colour vectors and the colour mode.
 */
module Color {
  import opened Shapes

  /** The colour state as a value. */
  datatype Paint = Paint(fillOn: bool, fillCol: seq<real>, strokeOn: bool, strokeCol: seq<real>, cMode: string)

  /** A Screen starts with fill and stroke on, white fill, black stroke, in "RGB" mode. */
  function Initial(): Paint
  {
    Paint(true, [1.0, 1.0, 1.0, 1.0], true, [0.0, 0.0, 0.0, 1.0], "RGB")
  }

  /** The first `n` entries of the four channels, interleaved r, g, b, a. */
  function Interleaved(r: seq<real>, g: seq<real>, b: seq<real>, a: seq<real>, n: nat): (c: seq<real>)
    requires n <= |r| && n <= |g| && n <= |b| && n <= |a|
    ensures |c| == 4 * n
  {
    if n == 0 then [] else Interleaved(r, g, b, a, n - 1) + [r[n - 1], g[n - 1], b[n - 1], a[n - 1]]
  }

  /**
   * In "RGB" mode the channels are indexed up to the length of `r`, so a
   * shorter g, b or a panics; any other mode reads no channel.
   */
  predicate Channels(r: seq<real>, g: seq<real>, b: seq<real>, a: seq<real>)
  {
    |r| <= |g| && |r| <= |b| && |r| <= |a|
  }

  /** `fill`: enables the fill, and rebuilds its colour only in "RGB" mode. */
  function AfterFill(p: Paint, r: seq<real>, g: seq<real>, b: seq<real>, a: seq<real>): Paint
    requires p.cMode == "RGB" ==> Channels(r, g, b, a)
  {
    p.(fillOn := true, fillCol := if p.cMode == "RGB" then Interleaved(r, g, b, a, |r|) else p.fillCol)
  }

  /** `stroke`: the same for the stroke. */
  function AfterStroke(p: Paint, r: seq<real>, g: seq<real>, b: seq<real>, a: seq<real>): Paint
    requires p.cMode == "RGB" ==> Channels(r, g, b, a)
  {
    p.(strokeOn := true, strokeCol := if p.cMode == "RGB" then Interleaved(r, g, b, a, |r|) else p.strokeCol)
  }

  /** The Screen fields color.rs writes. */
  class ColorState {
    var fillOn: bool
    var fillCol: seq<real>
    var strokeOn: bool
    var strokeCol: seq<real>
    var cMode: string

    function State(): Paint
      reads this
    {
      Paint(fillOn, fillCol, strokeOn, strokeCol, cMode)
    }

    constructor ()
      ensures State() == Initial()
    {
      fillOn, fillCol := true, [1.0, 1.0, 1.0, 1.0];
      strokeOn, strokeCol := true, [0.0, 0.0, 0.0, 1.0];
      cMode := "RGB";
    }

    /** `color_mode`: the mode string is stored as given. */
    method ColorMode(mode: string)
      modifies this
      ensures State() == old(State()).(cMode := mode)
    {
      cMode := mode;
    }

    method Fill(r: seq<real>, g: seq<real>, b: seq<real>, a: seq<real>)
      requires cMode == "RGB" ==> Channels(r, g, b, a)
      modifies this
      ensures State() == AfterFill(old(State()), r, g, b, a)
    {
      if !fillOn {
        fillOn := true;
      }
      if cMode == "RGB" {
        var col := [];
        for x := 0 to |r|
          invariant col == Interleaved(r, g, b, a, x)
        {
          col := col + [r[x]];
          col := col + [g[x]];
          col := col + [b[x]];
          col := col + [a[x]];
        }
        fillCol := col;
      }
    }

    method FillOff()
      modifies this
      ensures State() == old(State()).(fillOn := false)
    {
      fillOn := false;
    }

    method StrokeOff()
      modifies this
      ensures State() == old(State()).(strokeOn := false)
    {
      strokeOn := false;
    }

    method FillOn()
      modifies this
      ensures State() == old(State()).(fillOn := true)
    {
      fillOn := true;
    }

    method StrokeOn()
      modifies this
      ensures State() == old(State()).(strokeOn := true)
    {
      strokeOn := true;
    }

    method Stroke(r: seq<real>, g: seq<real>, b: seq<real>, a: seq<real>)
      requires cMode == "RGB" ==> Channels(r, g, b, a)
      modifies this
      ensures State() == AfterStroke(old(State()), r, g, b, a)
    {
      if !strokeOn {
        strokeOn := true;
      }
      if cMode == "RGB" {
        var col := [];
        for x := 0 to |r|
          invariant col == Interleaved(r, g, b, a, x)
        {
          col := col + [r[x]];
          col := col + [g[x]];
          col := col + [b[x]];
          col := col + [a[x]];
        }
        strokeCol := col;
      }
    }
  }

  // ---------------------------------------------------------------- properties

  /** Entry `4i + c` of the interleaving is channel `c` of entry `i`. */
  lemma {:induction false} InterleavedAt(r: seq<real>, g: seq<real>, b: seq<real>, a: seq<real>, n: nat, i: nat)
    requires n <= |r| && n <= |g| && n <= |b| && n <= |a| && i < n
    ensures var c := Interleaved(r, g, b, a, n);
      c[4 * i] == r[i] && c[4 * i + 1] == g[i] && c[4 * i + 2] == b[i] && c[4 * i + 3] == a[i]
  {
    if i < n - 1 {
      InterleavedAt(r, g, b, a, n - 1, i);
    }
  }

  /**
   * `fill` always leaves the fill enabled; in "RGB" mode its colour becomes
   * the interleaved channels, 4 entries per entry of `r`, and in any other
   * mode the colour is kept. The stroke and the mode are never touched.
   */
  lemma FillEffect(p: Paint, r: seq<real>, g: seq<real>, b: seq<real>, a: seq<real>)
    requires p.cMode == "RGB" ==> Channels(r, g, b, a)
    ensures var q := AfterFill(p, r, g, b, a);
      q.fillOn &&
      (p.cMode == "RGB" ==>
        |q.fillCol| == 4 * |r| &&
        forall i :: 0 <= i < |r| ==> q.fillCol[4 * i .. 4 * i + 4] == [r[i], g[i], b[i], a[i]]) &&
      (p.cMode != "RGB" ==> q.fillCol == p.fillCol) &&
      (q.strokeOn, q.strokeCol, q.cMode) == (p.strokeOn, p.strokeCol, p.cMode)
  {
    if p.cMode == "RGB" {
      var c := Interleaved(r, g, b, a, |r|);
      forall i | 0 <= i < |r|
        ensures c[4 * i .. 4 * i + 4] == [r[i], g[i], b[i], a[i]]
      {
        InterleavedAt(r, g, b, a, |r|, i);
      }
    }
  }

  /** `stroke` is the mirror image of `fill`. */
  lemma StrokeEffect(p: Paint, r: seq<real>, g: seq<real>, b: seq<real>, a: seq<real>)
    requires p.cMode == "RGB" ==> Channels(r, g, b, a)
    ensures var q := AfterStroke(p, r, g, b, a);
      q.strokeOn &&
      (p.cMode == "RGB" ==>
        |q.strokeCol| == 4 * |r| &&
        forall i :: 0 <= i < |r| ==> q.strokeCol[4 * i .. 4 * i + 4] == [r[i], g[i], b[i], a[i]]) &&
      (p.cMode != "RGB" ==> q.strokeCol == p.strokeCol) &&
      (q.fillOn, q.fillCol, q.cMode) == (p.fillOn, p.fillCol, p.cMode)
  {
    if p.cMode == "RGB" {
      var c := Interleaved(r, g, b, a, |r|);
      forall i | 0 <= i < |r|
        ensures c[4 * i .. 4 * i + 4] == [r[i], g[i], b[i], a[i]]
      {
        InterleavedAt(r, g, b, a, |r|, i);
      }
    }
  }

  /** `fill` undoes `fill_off`: switching off first makes no difference. */
  lemma FillUndoesFillOff(p: Paint, r: seq<real>, g: seq<real>, b: seq<real>, a: seq<real>)
    requires p.cMode == "RGB" ==> Channels(r, g, b, a)
    ensures AfterFill(p.(fillOn := false), r, g, b, a) == AfterFill(p, r, g, b, a)
    ensures AfterStroke(p.(strokeOn := false), r, g, b, a) == AfterStroke(p, r, g, b, a)
  {
  }

  /**
   * A one-entry colour in "RGB" mode is what the shape constructors stamp:
   * every vertex gets exactly that colour.
   */
  lemma SingleFillStamps(p: Paint, r: real, g: real, b: real, a: real, buffer: seq<Vertex>)
    requires p.cMode == "RGB"
    ensures var col := AfterFill(p, [r], [g], [b], [a]).fillCol;
      |col| == 4 && forall k :: 0 <= k < |buffer| ==> Stamped(buffer, col)[k].color == Rgba(r, g, b, a)
  {
    InterleavedAt([r], [g], [b], [a], 1, 0);
  }

  /**
   * A batch colour of any other length than one in "RGB" mode gives a colour
   * vector that is not 4 long, which the constructors ignore: the vertices
   * keep the colour they were built with.
   */
  lemma BatchFillNotStamped(p: Paint, r: seq<real>, g: seq<real>, b: seq<real>, a: seq<real>, buffer: seq<Vertex>)
    requires Channels(r, g, b, a) && p.cMode == "RGB" && |r| != 1
    ensures Stamped(buffer, AfterFill(p, r, g, b, a).fillCol) == buffer
  {
  }
}
