/**
 * The draw dispatch of draw.rs and framebuffers.rs: which program and which
 * uniforms a shape is drawn with, which of its two buffers are drawn and in
 * what order, with which draw parameters, and how a failing GPU draw ends
 * the sequence. A GPU draw is an abstract `Call`; whether the GPU accepts it
 * is a parameter `ok`.
 */
module Draw {
  import opened Errors
  import opened Shapes
  import opened Transform
  import opened Rendering
  import opened Shaders

  /** One GPU draw: the vertices, how they are indexed, the program, its uniforms, the parameters. */
  datatype Call = Call(vertices: seq<Vertex>, indices: IndexType, program: Program,
                       uniforms: seq<Uniform>, params: DrawParams)

  /** A Mould: a shape paired with the shader (and uniforms) it is drawn with. */
  datatype Mould = Mould(shape: Shape, shader: ShaderInfo<seq<Uniform>>)

  /**
   * The calls a shape turns into: the fill buffer when the fill is on,
   * whatever its index type, then the stroke buffer when the stroke is on
   * and the stroke has no index buffer (a stroke with one is skipped).
   */
  function Plan(fillOn: bool, strokeOn: bool, shape: Shape, prog: Program, u: seq<Uniform>, params: DrawParams): seq<Call>
  {
    (if fillOn then [Call(shape.fill, shape.fillIndices, prog, u, params)] else []) +
    (if strokeOn && shape.strokeIndices.NoBuffer? then [Call(shape.stroke, shape.strokeIndices, prog, u, params)] else [])
  }

  /** The bank slot `draw` picks: 1 (textured) when the shape has a texture, else 0 (basic). */
  function ShapeProgram(shape: Shape): nat
  {
    if shape.texture.Some? then 1 else 0
  }

  /** `create_uniforms!{self, tex: *tex}` for a textured shape, `create_uniforms!{self}` otherwise. */
  function ShapeUniforms(shape: Shape, curr: Mat4): seq<Uniform>
  {
    if shape.texture.Some? then CreateUniforms(curr, [("tex", Sampler(shape.texture.value))])
    else CreateUniforms(curr, [])
  }

  /** What `draw` sends for a shape (the bank must hold the two slots it indexes). */
  function DrawPlan(fillOn: bool, strokeOn: bool, curr: Mat4, bank: seq<Program>, params: DrawParams, shape: Shape): seq<Call>
    requires |bank| >= 2
  {
    Plan(fillOn, strokeOn, shape, bank[ShapeProgram(shape)], ShapeUniforms(shape, curr), params)
  }

  /** What `draw_mould` sends: the mould's own program and uniforms (unwrapped), no MVP added. */
  function MouldPlan(fillOn: bool, strokeOn: bool, bank: seq<Program>, params: DrawParams, mould: Mould): seq<Call>
    requires GetIdx(mould.shader) < |bank| && mould.shader.uniforms.Some?
  {
    Plan(fillOn, strokeOn, mould.shape, bank[GetIdx(mould.shader)], GetUniforms(mould.shader), params)
  }

  /**
   * The parameters `draw_onto_framebuffer` builds: no depth write, the
   * Overwrite test, no multisampling, no smoothing, the rest default.
   */
  function FramebufferParams(): DrawParams
  {
    DefaultParams().(depthWrite := false, depthTest := Overwrite, multisampling := false, smooth := None)
  }

  /** What `draw_onto_framebuffer` sends, whatever the Screen's own parameters are. */
  function FramebufferPlan(fillOn: bool, strokeOn: bool, curr: Mat4, bank: seq<Program>, shape: Shape): seq<Call>
    requires |bank| >= 2
  {
    DrawPlan(fillOn, strokeOn, curr, bank, FramebufferParams(), shape)
  }

  /** What `draw_mould_onto_framebuffer` sends: both calls use the default parameters. */
  function MouldFramebufferPlan(fillOn: bool, strokeOn: bool, bank: seq<Program>, mould: Mould): seq<Call>
    requires GetIdx(mould.shader) < |bank| && mould.shader.uniforms.Some?
  {
    MouldPlan(fillOn, strokeOn, bank, DefaultParams(), mould)
  }

  /**
   * Issuing calls in order, each with `?`: the calls the GPU accepted, and
   * `FBDrawFailed` at the first one it refuses, after which nothing more is
   * attempted.
   */
  function Issue(plan: seq<Call>, ok: Call -> bool): (seq<Call>, Result<()>)
  {
    if |plan| == 0 then ([], Ok(()))
    else if !ok(plan[0]) then ([], Err(FBDrawFailed))
    else
      var rest := Issue(plan[1..], ok);
      ([plan[0]] + rest.0, rest.1)
  }

  /** `stroke_weight(w)`: point size and line width both become `w`, nothing else changes. */
  function WithStrokeWeight(p: DrawParams, w: real): (q: DrawParams)
    ensures q.pointSize == Some(w) && q.lineWidth == Some(w)
    ensures q.(pointSize := p.pointSize, lineWidth := p.lineWidth) == p
  {
    p.(pointSize := Some(w), lineWidth := Some(w))
  }

  // ---------------------------------------------------------------- properties

  /**
   * A fill call is issued exactly when the fill is on, and it comes first;
   * a stroke call exactly when the stroke is on and has no index buffer.
   * Each call draws its own buffer with its own index rule.
   */
  lemma PlanShape(fillOn: bool, strokeOn: bool, shape: Shape, prog: Program, u: seq<Uniform>, params: DrawParams)
    ensures var p := Plan(fillOn, strokeOn, shape, prog, u, params);
      var strokes := strokeOn && shape.strokeIndices.NoBuffer?;
      |p| == (if fillOn then 1 else 0) + (if strokes then 1 else 0) &&
      (fillOn ==> p[0].vertices == shape.fill && p[0].indices == shape.fillIndices) &&
      (strokes ==> p[|p| - 1].vertices == shape.stroke && p[|p| - 1].indices == shape.strokeIndices) &&
      (forall i :: 0 <= i < |p| ==> p[i].program == prog && p[i].uniforms == u && p[i].params == params)
  {
  }

  /**
   * `draw` uses slot 1 with the texture sampler and then MVP when the shape
   * has a texture, and slot 0 with MVP alone otherwise; MVP is the current
   * matrix. The Screen's current shader plays no part.
   */
  lemma DrawProgram(fillOn: bool, strokeOn: bool, curr: Mat4, bank: seq<Program>, params: DrawParams, shape: Shape)
    requires |bank| >= 2
    ensures forall c :: c in DrawPlan(fillOn, strokeOn, curr, bank, params, shape) ==>
      c.params == params &&
      (shape.texture.Some? ==> c.program == bank[1] &&
                               c.uniforms == [("tex", Sampler(shape.texture.value)), ("MVP", Matrix(curr))]) &&
      (shape.texture.None? ==> c.program == bank[0] && c.uniforms == [("MVP", Matrix(curr))])
  {
    var u := ShapeUniforms(shape, curr);
    if shape.texture.Some? {
      assert u == [("tex", Sampler(shape.texture.value)), ("MVP", Matrix(curr))];
    } else {
      assert u == [("MVP", Matrix(curr))];
    }
    PlanShape(fillOn, strokeOn, shape, bank[ShapeProgram(shape)], u, params);
  }

  /** With the built-in bank, a textured shape is drawn by the textured program, any other by the basic one. */
  lemma DrawBuiltIn(fillOn: bool, strokeOn: bool, curr: Mat4, bank: seq<Program>, params: DrawParams, shape: Shape)
    requires |bank| >= 4 && bank[..4] == BuiltIn
    ensures forall c :: c in DrawPlan(fillOn, strokeOn, curr, bank, params, shape) ==>
      c.program == (if shape.texture.Some? then Textured else Basic)
  {
    assert bank[0] == BuiltIn[0] && bank[1] == BuiltIn[1];
    DrawProgram(fillOn, strokeOn, curr, bank, params, shape);
  }

  /**
   * `draw_mould` draws with the program at the mould's index and exactly the
   * mould's uniforms: no MVP is bound unless the mould brought one.
   */
  lemma MouldProgram(fillOn: bool, strokeOn: bool, bank: seq<Program>, params: DrawParams, mould: Mould)
    requires GetIdx(mould.shader) < |bank| && mould.shader.uniforms.Some?
    ensures forall c :: c in MouldPlan(fillOn, strokeOn, bank, params, mould) ==>
      c.program == bank[mould.shader.idx] && c.uniforms == mould.shader.uniforms.value && c.params == params
    ensures (forall k :: 0 <= k < |mould.shader.uniforms.value| ==> mould.shader.uniforms.value[k].0 != "MVP") ==>
      forall c :: c in MouldPlan(fillOn, strokeOn, bank, params, mould) ==>
        forall k :: 0 <= k < |c.uniforms| ==> c.uniforms[k].0 != "MVP"
  {
    PlanShape(fillOn, strokeOn, mould.shape, bank[GetIdx(mould.shader)], GetUniforms(mould.shader), params);
  }

  /**
   * `Issue` draws a prefix of the plan, every call of which was accepted; it
   * succeeds exactly when every call is accepted, and then draws them all;
   * otherwise it stops with `FBDrawFailed` right at the first refused call.
   */
  lemma {:induction false} IssueSpec(plan: seq<Call>, ok: Call -> bool)
    ensures var r := Issue(plan, ok);
      |r.0| <= |plan| && r.0 == plan[..|r.0|] &&
      (forall i :: 0 <= i < |r.0| ==> ok(plan[i])) &&
      (r.1.Ok? <==> forall i :: 0 <= i < |plan| ==> ok(plan[i])) &&
      (r.1.Ok? ==> r.0 == plan) &&
      (r.1.Err? ==> r.1.error == FBDrawFailed && |r.0| < |plan| && !ok(plan[|r.0|]))
  {
    if |plan| > 0 && ok(plan[0]) {
      IssueSpec(plan[1..], ok);
      assert forall i :: 1 <= i < |plan| ==> plan[i] == plan[1..][i - 1];
    }
  }

  /**
   * A refused fill call ends `draw` with `FBDrawFailed` before the stroke is
   * attempted: nothing is drawn. When every call is accepted, both are drawn.
   */
  lemma FailedFillStops(fillOn: bool, strokeOn: bool, shape: Shape, prog: Program, u: seq<Uniform>,
                        params: DrawParams, ok: Call -> bool)
    requires fillOn && !ok(Call(shape.fill, shape.fillIndices, prog, u, params))
    ensures Issue(Plan(fillOn, strokeOn, shape, prog, u, params), ok) == ([], Err(FBDrawFailed))
  {
  }

  /**
   * Shape draws onto a framebuffer never write depth and always overwrite;
   * these parameters differ from the library default only in multisampling.
   */
  lemma FramebufferParamsShape()
    ensures FramebufferParams().depthWrite == false && FramebufferParams().depthTest == Overwrite
    ensures FramebufferParams().multisampling == false && FramebufferParams().smooth == None
    ensures FramebufferParams().(multisampling := true) == DefaultParams()
    ensures FramebufferParams() != ScreenParams()
  {
  }

  /**
   * `draw_onto_framebuffer` picks programs and buffers like `draw`, with the
   * framebuffer parameters in place of the Screen's.
   */
  lemma FramebufferLikeDraw(fillOn: bool, strokeOn: bool, curr: Mat4, bank: seq<Program>, params: DrawParams, shape: Shape)
    requires |bank| >= 2
    ensures var p := FramebufferPlan(fillOn, strokeOn, curr, bank, shape);
      var d := DrawPlan(fillOn, strokeOn, curr, bank, params, shape);
      |p| == |d| &&
      forall i :: 0 <= i < |p| ==> p[i] == d[i].(params := FramebufferParams())
  {
  }

  /** `draw_mould_onto_framebuffer` is `draw_mould` with the default parameters. */
  lemma MouldFramebufferDefault(fillOn: bool, strokeOn: bool, bank: seq<Program>, mould: Mould)
    requires GetIdx(mould.shader) < |bank| && mould.shader.uniforms.Some?
    ensures forall c :: c in MouldFramebufferPlan(fillOn, strokeOn, bank, mould) ==>
      c.params == DefaultParams() && c.params.depthWrite == false && c.params.multisampling
  {
    MouldProgram(fillOn, strokeOn, bank, DefaultParams(), mould);
  }

  /** A second stroke weight replaces the first. */
  lemma StrokeWeightLastWins(p: DrawParams, v: real, w: real)
    ensures WithStrokeWeight(WithStrokeWeight(p, v), w) == WithStrokeWeight(p, w)
  {
  }
}
