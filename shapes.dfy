/**
 * The vertex record, the two index rules and colour stamping shared by every
 * shape constructor, plus the pieces of the constructors that several shapes
 * share: the aspect-ratio correction of coordinate vectors and the batched
 * rect/quad index list.
 */
module Shapes {
  import opened Errors

  datatype Rgba = Rgba(r: real, g: real, b: real, a: real)

  /** The colour every freshly built vertex starts with, `[0.0, 0.0, 0.0, 0.0]`. */
  const Transparent := Rgba(0.0, 0.0, 0.0, 0.0)

  /** `ShapeVertex`: position (x, y, z), colour, texture coordinate (u, v). */
  datatype Vertex = Vertex(x: real, y: real, z: real, color: Rgba, u: real, v: real)

  datatype Primitive = Points | LinesList | LineStrip | LineLoop | TrianglesList | TriangleFan

  /**
   * `IndexType`: an explicit index buffer (which carries its primitive type)
   * or a rule that draws the vertices in order with no index buffer at all.
   */
  datatype IndexType = Buffer(prim: Primitive, ind: seq<nat>) | NoBuffer(rule: Primitive)

  /** A texture handle; textures themselves live on the GPU. */
  datatype Texture = Texture(id: nat)

  /** What a shape constructor hands to the draw calls. */
  datatype Shape = Shape(
    fill: seq<Vertex>,
    stroke: seq<Vertex>,
    fillIndices: IndexType,
    strokeIndices: IndexType,
    texture: Option<Texture>)

  /** The part of the Screen that the shape constructors read. */
  datatype View = View(
    preserveAspect: bool,
    aspect: real,
    rectMode: string,
    ellipseMode: string,
    fillCol: seq<real>,
    strokeCol: seq<real>,
    strokeOn: bool)

  /** `f32::EPSILON` = 2^-23, the z step between consecutive instances of a batch. */
  const Eps: real := 0.00000011920928955078125

  /** The z coordinate of every vertex of instance `c`. */
  function Bias(c: nat): real { Eps * c as real }

  // ---------------------------------------------------------------- load_colors

  /** The colour a 4-element colour vector denotes. */
  function ColorOf(col: seq<real>): Rgba
    requires |col| == 4
  {
    Rgba(col[0], col[1], col[2], col[3])
  }

  /** The buffer `load_colors` leaves behind. */
  function Stamped(buffer: seq<Vertex>, col: seq<real>): (r: seq<Vertex>)
    ensures |r| == |buffer|
  {
    if |col| == 4 then
      seq(|buffer|, i requires 0 <= i < |buffer| => buffer[i].(color := ColorOf(col)))
    else
      buffer
  }

  /** `load_colors`: overwrite the colour of every vertex, in place. */
  method LoadColors(buffer: array<Vertex>, col: seq<real>)
    modifies buffer
    ensures buffer[..] == Stamped(old(buffer[..]), col)
  {
    if |col| == 4 {
      for x := 0 to buffer.Length
        invariant forall k :: 0 <= k < x ==> buffer[k] == old(buffer[k]).(color := ColorOf(col))
        invariant forall k :: x <= k < buffer.Length ==> buffer[k] == old(buffer[k])
      {
        buffer[x] := buffer[x].(color := ColorOf(col));
      }
    }
  }

  /** Copies a vertex sequence into a fresh array, as `shape` is a mutable `Vec`. */
  method ToArray(s: seq<Vertex>) returns (a: array<Vertex>)
    ensures fresh(a) && a[..] == s
  {
    a := new Vertex[|s|](i requires 0 <= i < |s| => s[i]);
  }

  /** Stamps the fill colour and then the stroke colour over the same buffer, as
    * the constructors that call `load_colors` twice do; returns both snapshots. */
  method StampFillThenStroke(shape: seq<Vertex>, view: View) returns (fill: seq<Vertex>, stroke: seq<Vertex>)
    ensures fill == Stamped(shape, view.fillCol)
    ensures stroke == Stamped(fill, view.strokeCol)
  {
    var buf := ToArray(shape);
    LoadColors(buf, view.fillCol);
    fill := buf[..];
    LoadColors(buf, view.strokeCol);
    stroke := buf[..];
  }

  lemma StampedSetsColor(buffer: seq<Vertex>, col: seq<real>)
    requires |col| == 4
    ensures |Stamped(buffer, col)| == |buffer|
    ensures forall i :: 0 <= i < |buffer| ==>
      Stamped(buffer, col)[i].color == Rgba(col[0], col[1], col[2], col[3])
  {
  }

  lemma StampedOtherLength(buffer: seq<Vertex>, col: seq<real>)
    requires |col| != 4
    ensures Stamped(buffer, col) == buffer
  {
  }

  /** Colour stamping never moves a vertex, changes its texcoord or the buffer length. */
  lemma StampedKeepsGeometry(buffer: seq<Vertex>, col: seq<real>)
    ensures |Stamped(buffer, col)| == |buffer|
    ensures forall i :: 0 <= i < |buffer| ==>
      var w := Stamped(buffer, col)[i];
      w.x == buffer[i].x && w.y == buffer[i].y && w.z == buffer[i].z &&
      w.u == buffer[i].u && w.v == buffer[i].v
  {
  }

  lemma StampedIdempotent(buffer: seq<Vertex>, col: seq<real>)
    ensures Stamped(Stamped(buffer, col), col) == Stamped(buffer, col)
  {
  }

  /** The second of two stampings wins when it is 4-long; otherwise the first stays. */
  lemma StampedTwice(buffer: seq<Vertex>, first: seq<real>, second: seq<real>)
    ensures Stamped(Stamped(buffer, first), second) ==
      if |second| == 4 then Stamped(buffer, second) else Stamped(buffer, first)
  {
  }

  // ---------------------------------------------------------------- aspect correction

  datatype Axis = Unscaled | Horizontal | Vertical

  /**
   * Which coordinates the aspect correction rescales. Rects, ellipses and arcs
   * skip a square aspect (`skipSquare`); the other shapes correct whenever
   * aspect preservation is on.
   */
  function AspectAxis(view: View, skipSquare: bool): Axis
  {
    if view.preserveAspect && !(skipSquare && view.aspect == 1.0) then
      (if view.aspect > 1.0 then Horizontal else Vertical)
    else
      Unscaled
  }

  /** An x coordinate or a width after the correction. */
  function FixX(view: View, skipSquare: bool, value: real): real
  {
    if AspectAxis(view, skipSquare) == Horizontal then value / view.aspect else value
  }

  /** A y coordinate or a height after the correction. */
  function FixY(view: View, skipSquare: bool, value: real): real
  {
    if AspectAxis(view, skipSquare) == Vertical then value * view.aspect else value
  }

  /** `v` is `raw` after the x correction. */
  predicate FixedX(view: View, skipSquare: bool, raw: seq<real>, v: seq<real>)
  {
    |v| == |raw| && forall i :: 0 <= i < |raw| ==> v[i] == FixX(view, skipSquare, raw[i])
  }

  /** `v` is `raw` after the y correction. */
  predicate FixedY(view: View, skipSquare: bool, raw: seq<real>, v: seq<real>)
  {
    |v| == |raw| && forall i :: 0 <= i < |raw| ==> v[i] == FixY(view, skipSquare, raw[i])
  }

  /** One `for i in .. { v[i] = v[i] / a }` loop. */
  method DivideAll(v: seq<real>, a: real) returns (r: seq<real>)
    requires a != 0.0
    ensures |r| == |v| && forall i :: 0 <= i < |v| ==> r[i] == v[i] / a
  {
    r := v;
    for i := 0 to |r|
      invariant |r| == |v|
      invariant forall k :: 0 <= k < i ==> r[k] == v[k] / a
      invariant forall k :: i <= k < |r| ==> r[k] == v[k]
    {
      r := r[i := r[i] / a];
    }
  }

  /** One `for i in .. { v[i] = v[i] * a }` loop. */
  method MultiplyAll(v: seq<real>, a: real) returns (r: seq<real>)
    ensures |r| == |v| && forall i :: 0 <= i < |v| ==> r[i] == v[i] * a
  {
    r := v;
    for i := 0 to |r|
      invariant |r| == |v|
      invariant forall k :: 0 <= k < i ==> r[k] == v[k] * a
      invariant forall k :: i <= k < |r| ==> r[k] == v[k]
    {
      r := r[i := r[i] * a];
    }
  }

  /** Without aspect preservation the correction is the identity. */
  lemma NoPreserveNoCorrection(view: View, skipSquare: bool, value: real)
    requires !view.preserveAspect
    ensures FixX(view, skipSquare, value) == value && FixY(view, skipSquare, value) == value
  {
  }

  /** A wide screen divides x's and leaves y's; a tall one multiplies y's and leaves x's. */
  lemma CorrectionDirections(view: View, skipSquare: bool, value: real)
    ensures view.preserveAspect && view.aspect > 1.0 ==>
      FixX(view, skipSquare, value) == value / view.aspect && FixY(view, skipSquare, value) == value
    ensures view.preserveAspect && view.aspect < 1.0 ==>
      FixX(view, skipSquare, value) == value && FixY(view, skipSquare, value) == value * view.aspect
    ensures view.aspect == 1.0 ==> FixX(view, skipSquare, value) == value
    ensures view.aspect == 1.0 && skipSquare ==> FixY(view, skipSquare, value) == value
  {
  }

  // ---------------------------------------------------------------- rect/quad index list

  /** Index block of instance `c`: two triangles over its four corners. */
  function Block(c: nat): seq<nat>
  {
    [4 * c, 4 * c + 1, 4 * c + 2, 4 * c + 2, 4 * c + 3, 4 * c]
  }

  /** The `elements` vector of a batch of `n` rects or quads. */
  function QuadIndices(n: nat): (r: seq<nat>)
    ensures |r| == 6 * n
  {
    if n == 0 then [] else QuadIndices(n - 1) + Block(n - 1)
  }

  /**
   * Fills `elements`: the first block is written out, every further block is
   * the one before it shifted by four. The first block is written whatever
   * the batch size, so `n` must be at least one.
   */
  method BuildQuadIndices(n: nat) returns (elements: seq<nat>)
    requires n >= 1
    ensures elements == QuadIndices(n)
  {
    var e := new nat[6 * n];
    FirstBlock(e);
    var index := 6;
    for x := 1 to n
      invariant index == 6 * x
      invariant e[..index] == QuadIndices(x)
    {
      ShiftBlock(e, index, x);
      index := index + 6;
    }
    assert e[..] == e[..index];
    elements := e[..];
  }
  /** The six writes of the first block. */
  method FirstBlock(e: array<nat>)
    requires 6 <= e.Length
    modifies e
    ensures e[..6] == QuadIndices(1)
  {
    e[0], e[1], e[2], e[3], e[4], e[5] := 0, 1, 2, 2, 3, 0;
    assert e[..6] == [0, 1, 2, 2, 3, 0];
  }
  /** The body of the index loop: block `x` is the one before it plus four. */
  method ShiftBlock(e: array<nat>, index: nat, x: nat)
    requires x >= 1 && index == 6 * x && index + 6 <= e.Length
    requires e[..index] == QuadIndices(x)
    modifies e
    ensures e[..index + 6] == QuadIndices(x + 1)
  {
    e[index] := e[index - 6] + 4;
    e[index + 1] := e[(index - 6) + 1] + 4;
    e[index + 2] := e[(index - 6) + 2] + 4;
    e[index + 3] := e[(index - 6) + 3] + 4;
    e[index + 4] := e[(index - 6) + 4] + 4;
    e[index + 5] := e[(index - 6) + 5] + 4;
    NextBlock(old(e[..]), e[..], index, x);
  }
  /** One step of the index loop, on the contents before and after it. */
  lemma NextBlock(before: seq<nat>, after: seq<nat>, i: nat, x: nat)
    requires x >= 1 && i == 6 * x && |before| == |after| >= i + 6
    requires before[..i] == QuadIndices(x)
    requires after[..i] == before[..i]
    requires after[i] == before[i - 6] + 4 && after[i + 1] == before[i - 5] + 4
    requires after[i + 2] == before[i - 4] + 4 && after[i + 3] == before[i - 3] + 4
    requires after[i + 4] == before[i - 2] + 4 && after[i + 5] == before[i - 1] + 4
    ensures after[..i + 6] == QuadIndices(x + 1)
  {
    LastBlock(x);
    var prev := before[i - 6 .. i];
    assert prev == QuadIndices(x)[i - 6 .. i];
    var blk := after[i .. i + 6];
    assert blk == Block(x);
    assert after[..i + 6] == after[..i] + blk;
  }

  /** Block `c` of the index list is `[4c, 4c+1, 4c+2, 4c+2, 4c+3, 4c]`. */
  lemma {:induction false} QuadIndicesBlock(n: nat, c: nat)
    requires c < n
    ensures QuadIndices(n)[6 * c .. 6 * c + 6] == [4 * c, 4 * c + 1, 4 * c + 2, 4 * c + 2, 4 * c + 3, 4 * c]
  {
    if c < n - 1 {
      QuadIndicesBlock(n - 1, c);
      EarlierBlockKept(n, c);
    } else {
      LastBlock(n);
    }
  }

  /** The block the last step of `QuadIndices` appends. */
  lemma LastBlock(n: nat)
    requires n > 0
    ensures QuadIndices(n)[6 * (n - 1) .. 6 * n] == Block(n - 1)
  {
    SliceOfSuffix(QuadIndices(n - 1), Block(n - 1));
  }

  /** Appending a block keeps the earlier ones. */
  lemma EarlierBlockKept(n: nat, c: nat)
    requires c < n - 1
    ensures QuadIndices(n)[6 * c .. 6 * c + 6] == QuadIndices(n - 1)[6 * c .. 6 * c + 6]
  {
    SliceOfPrefix(QuadIndices(n - 1), Block(n - 1), 6 * c, 6 * c + 6);
  }

  /** A slice inside the first part of a concatenation is a slice of that part. */
  lemma SliceOfPrefix(a: seq<nat>, b: seq<nat>, lo: nat, hi: nat)
    requires lo <= hi <= |a|
    ensures (a + b)[lo .. hi] == a[lo .. hi]
  {
  }

  /** The slice after the first part of a concatenation is the second part. */
  lemma SliceOfSuffix(a: seq<nat>, b: seq<nat>)
    ensures (a + b)[|a| .. |a| + |b|] == b
  {
  }

  /** Every index names one of the batch's 4n vertices. */
  lemma {:induction false} QuadIndicesInRange(n: nat)
    ensures forall k :: 0 <= k < |QuadIndices(n)| ==> QuadIndices(n)[k] < 4 * n
  {
    if n > 0 {
      QuadIndicesInRange(n - 1);
      var q := QuadIndices(n);
      forall k | 0 <= k < |q|
        ensures q[k] < 4 * n
      {
        if k < 6 * (n - 1) {
          assert q[k] == QuadIndices(n - 1)[k];
        } else {
          assert q[k] == Block(n - 1)[k - 6 * (n - 1)];
        }
      }
    }
  }

  // ---------------------------------------------------------------- attach_texture

  /** `attach_texture` of rects and quads. */
  function AttachTexture(s: Shape, tex: Texture): (r: Shape)
    ensures r.texture == Some(tex)
    ensures r.fill == s.fill && r.stroke == s.stroke
    ensures r.fillIndices == s.fillIndices && r.strokeIndices == s.strokeIndices
  {
    s.(texture := Some(tex))
  }
}
