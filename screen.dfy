/**
 * The glutin `Screen`: the state every other part of the crate reads and
 * writes, its two constructors, `reveal` (blit, swap, poll, count the frame)
 * and the Screen methods of shaders.rs, draw.rs, framebuffers.rs,
 * rendering.rs, input.rs and environment.rs. The transform and colour state
 * are the objects `matrices` and `paint`, whose own methods model
 * transform.rs and color.rs.
 */
module GlutinScreen {
  import opened Errors
  import opened Shapes
  import opened Transform
  import opened Color
  import opened Rendering
  import opened Input
  import opened Environment
  import opened Shaders
  import opened Draw

  /** What a call that may panic comes to: the value it returns, or a panic that ends the program. */
  datatype Outcome<T> = Returned(result: Result<T>) | Panicked

  /** A vertex of the quad the framebuffer texture is shown with: clip-space position, texcoord. */
  datatype BlitVertex = BlitVertex(x: real, y: real, u: real, v: real)

  /** The glutin blit quad, counter-clockwise from the bottom left. */
  const BlitQuad: seq<BlitVertex> :=
    [BlitVertex(-1.0, -1.0, 0.0, 0.0), BlitVertex(1.0, -1.0, 1.0, 0.0),
     BlitVertex(1.0, 1.0, 1.0, 1.0), BlitVertex(-1.0, 1.0, 0.0, 1.0)]

  /** Two triangles sharing the diagonal from vertex 0 to vertex 2. */
  const BlitIndices: seq<nat> := [0, 1, 2, 0, 2, 3]

  /** The first setup stage that fails; `ok(e)` says whether the stage reporting `e` succeeds. */
  function FirstFailure(stages: seq<ProcessingErr>, ok: ProcessingErr -> bool): (r: Option<ProcessingErr>)
    ensures r.None? <==> forall i :: 0 <= i < |stages| ==> ok(stages[i])
    ensures r.Some? ==> exists i :: 0 <= i < |stages| && stages[i] == r.value && !ok(stages[i]) &&
                                   (forall j :: 0 <= j < i ==> ok(stages[j]))
  {
    if |stages| == 0 then None
    else if !ok(stages[0]) then Some(stages[0])
    else
      var rest := FirstFailure(stages[1..], ok);
      assert forall i :: 1 <= i < |stages| ==> stages[i] == stages[1..][i - 1];
      if rest.Some? then
        var k :| 0 <= k < |stages| - 1 && stages[1..][k] == rest.value && !ok(stages[1..][k]) &&
                 (forall j :: 0 <= j < k ==> ok(stages[1..][j]));
        assert stages[k + 1] == rest.value && forall j :: 0 <= j < k + 1 ==> ok(stages[j]);
        rest
      else rest
  }

  /** The window constructor's stages before the shaders: the display, then the framebuffer textures. */
  const WindowStages: seq<ProcessingErr> := [DisplayNoCreate, TextureNoCreate]

  /** The headless constructor's: renderer, context, display, then the framebuffer textures. */
  const HeadlessStages: seq<ProcessingErr> :=
    [HeadlessRendererNoBuild, HeadlessContextError, HeadlessNoCreate, TextureNoCreate]

  /**
   * The error a constructor returns: the first failed stage before the
   * shaders, else a shader that does not compile, else a failed upload of
   * the blit vertices, then of its indices.
   */
  function SetupError(before: seq<ProcessingErr>, compiles: Program -> bool, ok: ProcessingErr -> bool): Option<ProcessingErr>
  {
    match FirstFailure(before, ok)
    case Some(e) => Some(e)
    case None =>
      if InitBank(compiles).Err? then Some(ShaderCompileFail)
      else FirstFailure([VBNoCreate, IBNoCreate], ok)
  }

  /**
   * What `reveal` comes to: a failed blit, then a failed swap, are returned
   * before any event is looked at; a `Closed` event panics; otherwise it
   * succeeds.
   */
  function RevealOutcome(blitted: bool, swapped: bool, events: seq<Event>): Outcome<()>
  {
    if !blitted then Returned(Err(DrawFailed))
    else if !swapped then Returned(Err(SwapFailed))
    else if Poll(events).None? then Panicked
    else Returned(Ok(()))
  }

  class Screen {
    const matrices: Matrices
    const paint: ColorState
    var drawParams: DrawParams
    var bank: seq<Program>
    var currShader: nat
    var alternateShader: nat
    var usingAlternate: bool
    var ellipseMode: string
    var rectMode: string
    var shapeMode: string
    var imageMode: string
    var frameRate: int
    var frameCount: int
    var cursor: CursorIcon
    var keyPressed: Option<KeyCode>
    var mousePressed: Option<MouseButton>
    var mouseReleased: Option<MouseButton>
    var mousePos: (real, real)
    var headless: bool
    var bgCol: seq<real>
    var tintOn: bool
    var tintCol: seq<real>
    var preserveAspect: bool
    var aspect: real
    var width: nat
    var height: nat
    /** The calls drawn onto the Screen's own framebuffer so far. */
    var fbo: seq<Call>

    /** The bank starts with the four built-in programs, which `draw` and `reveal` index. */
    predicate Valid()
      reads this
    {
      |bank| >= 4 && bank[..4] == BuiltIn
    }

    /** The four input latches as one value. */
    function Latched(): Latches
      reads this
    {
      Latches(keyPressed, mousePressed, mouseReleased, mousePos)
    }

    /** The Screen state the shape constructors read. */
    function View(): Shapes.View
      reads this, paint
    {
      Shapes.View(preserveAspect, aspect, rectMode, ellipseMode, paint.fillCol, paint.strokeCol, paint.strokeOn)
    }

    /** Everything a new Screen holds, whichever constructor made it. */
    predicate Initial(w: nat, h: nat, preserve: bool, aspectRatio: real, isHeadless: bool)
      reads this, matrices, paint
    {
      matrices.State() == Transform.Initial() && paint.State() == Color.Initial() &&
      drawParams == ScreenParams() && bank == BuiltIn &&
      currShader == 0 && alternateShader == 1048576 && !usingAlternate &&
      ellipseMode == "CENTER" && rectMode == "CORNER" && shapeMode == "CORNER" && imageMode == "CORNER" &&
      frameRate == 60 && frameCount == 0 && cursor == Default &&
      Latched() == Cleared && headless == isHeadless &&
      bgCol == [0.8, 0.8, 0.8, 0.8] && !tintOn && tintCol == [1.0, 1.0, 1.0, 1.0] &&
      preserveAspect == preserve && aspect == aspectRatio && width == w && height == h && fbo == []
    }

    /** The struct literal both constructors end with. */
    constructor Make(w: nat, h: nat, preserve: bool, aspectRatio: real, isHeadless: bool, programs: seq<Program>)
      requires programs == BuiltIn
      ensures Valid() && Initial(w, h, preserve, aspectRatio, isHeadless)
      ensures fresh(matrices) && fresh(paint)
    {
      matrices := new Matrices();
      paint := new ColorState();
      drawParams := ScreenParams();
      bank := programs;
      currShader, alternateShader, usingAlternate := 0, 1048576, false;
      ellipseMode, rectMode, shapeMode, imageMode := "CENTER", "CORNER", "CORNER", "CORNER";
      frameRate, frameCount := 60, 0;
      cursor := Default;
      keyPressed, mousePressed, mouseReleased, mousePos := None, None, None, (-100.0, -100.0);
      headless := isHeadless;
      bgCol, tintOn, tintCol := [0.8, 0.8, 0.8, 0.8], false, [1.0, 1.0, 1.0, 1.0];
      preserveAspect, aspect := preserve, aspectRatio;
      width, height := w, h;
      fbo := [];
    }

    /**
     * `Screen::new`: each stage's failure is returned with `?`, in order;
     * the window's aspect ratio comes from its framebuffer size. The
     * framebuffer over the two textures is built with `expect`, so its
     * failure is a panic the caller must rule out (`framebufferOk`).
     */
    static method New(w: nat, h: nat, preserve: bool, aspectRatio: real,
                      ok: ProcessingErr -> bool, compiles: Program -> bool, framebufferOk: bool) returns (r: Result<Screen>)
      requires framebufferOk
      ensures r.Err? <==> SetupError(WindowStages, compiles, ok).Some?
      ensures r.Err? ==> r.error == SetupError(WindowStages, compiles, ok).value
      ensures r.Ok? ==> fresh(r.value) && r.value.Valid() && r.value.Initial(w, h, preserve, aspectRatio, false)
    {
      if !ok(DisplayNoCreate) { return Err(DisplayNoCreate); }
      if !ok(TextureNoCreate) { return Err(TextureNoCreate); }
      var programs := InitShaders(compiles);
      if programs.Err? { return Err(programs.error); }
      if !ok(VBNoCreate) { return Err(VBNoCreate); }
      if !ok(IBNoCreate) { return Err(IBNoCreate); }
      var s := new Screen.Make(w, h, preserve, aspectRatio, false, programs.value);
      r := Ok(s);
    }

    /**
     * `Screen::new_headless`: the same, with the headless renderer's stages
     * first and the same `expect` on the framebuffer.
     */
    static method NewHeadless(w: nat, h: nat, preserve: bool, aspectRatio: real,
                              ok: ProcessingErr -> bool, compiles: Program -> bool, framebufferOk: bool) returns (r: Result<Screen>)
      requires framebufferOk
      ensures r.Err? <==> SetupError(HeadlessStages, compiles, ok).Some?
      ensures r.Err? ==> r.error == SetupError(HeadlessStages, compiles, ok).value
      ensures r.Ok? ==> fresh(r.value) && r.value.Valid() && r.value.Initial(w, h, preserve, aspectRatio, true)
    {
      if !ok(HeadlessRendererNoBuild) { return Err(HeadlessRendererNoBuild); }
      if !ok(HeadlessContextError) { return Err(HeadlessContextError); }
      if !ok(HeadlessNoCreate) { return Err(HeadlessNoCreate); }
      if !ok(TextureNoCreate) { return Err(TextureNoCreate); }
      var programs := InitShaders(compiles);
      if programs.Err? { return Err(programs.error); }
      if !ok(VBNoCreate) { return Err(VBNoCreate); }
      if !ok(IBNoCreate) { return Err(IBNoCreate); }
      var s := new Screen.Make(w, h, preserve, aspectRatio, true, programs.value);
      r := Ok(s);
    }

    // ------------------------------------------------------------ reveal and input

    /**
     * `reveal`: blit the framebuffer with program 3, swap, then poll. Only a
     * poll that did not panic latches the input and counts the frame.
     */
    method Reveal(events: seq<Event>, blitOk: (Program, seq<BlitVertex>, seq<nat>) -> bool, swapOk: bool)
      returns (r: Outcome<()>)
      requires Valid()
      modifies this`keyPressed, this`mousePressed, this`mouseReleased, this`mousePos, this`frameCount
      ensures r == RevealOutcome(blitOk(bank[BlitProgram], BlitQuad, BlitIndices), swapOk, events)
      ensures r.Returned? && r.result.Ok? ==> Latched() == Poll(events).value && frameCount == old(frameCount) + 1
      ensures !(r.Returned? && r.result.Ok?) ==> Latched() == old(Latched()) && frameCount == old(frameCount)
    {
      if !blitOk(bank[BlitProgram], BlitQuad, BlitIndices) {
        return Returned(Err(DrawFailed));
      }
      if !swapOk {
        return Returned(Err(SwapFailed));
      }
      var polled := PollLoop(events);
      if polled.None? {
        return Panicked;
      }
      keyPressed, mousePressed, mouseReleased, mousePos := polled.value.key, polled.value.pressed, polled.value.released, polled.value.pos;
      frameCount := frameCount + 1;
      r := Returned(Ok(()));
    }

    /** `reveal_with_events`: `reveal` that also hands back every polled event, in order. */
    method RevealWithEvents(events: seq<Event>, blitOk: (Program, seq<BlitVertex>, seq<nat>) -> bool, swapOk: bool)
      returns (r: Outcome<seq<Event>>)
      requires Valid()
      modifies this`keyPressed, this`mousePressed, this`mouseReleased, this`mousePos, this`frameCount
      ensures !blitOk(bank[BlitProgram], BlitQuad, BlitIndices) ==> r == Returned(Err(DrawFailed))
      ensures blitOk(bank[BlitProgram], BlitQuad, BlitIndices) && !swapOk ==> r == Returned(Err(SwapFailed))
      ensures blitOk(bank[BlitProgram], BlitQuad, BlitIndices) && swapOk ==>
        (r == Panicked <==> Poll(events).None?) && (r != Panicked ==> r == Returned(Ok(events)))
      ensures r.Returned? && r.result.Ok? ==> Latched() == Poll(events).value && frameCount == old(frameCount) + 1
      ensures !(r.Returned? && r.result.Ok?) ==> Latched() == old(Latched()) && frameCount == old(frameCount)
    {
      if !blitOk(bank[BlitProgram], BlitQuad, BlitIndices) {
        return Returned(Err(DrawFailed));
      }
      if !swapOk {
        return Returned(Err(SwapFailed));
      }
      var l := Cleared;
      var collected: seq<Event> := [];
      for i := 0 to |events|
        invariant Fold(events, i) == Some(l) && collected == events[..i]
      {
        collected := collected + [events[i]];
        if events[i].Closed? {
          PanicSticks(events, i + 1, |events|);
          return Panicked;
        }
        l := Step(l, events[i]);
      }
      assert collected == events;
      keyPressed, mousePressed, mouseReleased, mousePos := l.key, l.pressed, l.released, l.pos;
      frameCount := frameCount + 1;
      r := Returned(Ok(collected));
    }

    /** `poll_events`: the same latching without a frame; the frame count is untouched. */
    method PollEvents(events: seq<Event>) returns (r: Outcome<()>)
      modifies this`keyPressed, this`mousePressed, this`mouseReleased, this`mousePos
      ensures r == Panicked <==> Poll(events).None?
      ensures r != Panicked ==> r == Returned(Ok(())) && Latched() == Poll(events).value
      ensures r == Panicked ==> Latched() == old(Latched())
    {
      var polled := PollLoop(events);
      if polled.None? {
        return Panicked;
      }
      keyPressed, mousePressed, mouseReleased, mousePos := polled.value.key, polled.value.pressed, polled.value.released, polled.value.pos;
      r := Returned(Ok(()));
    }

    function KeyPress(b: KeyCode): (r: bool)
      reads this
      ensures r <==> keyPressed == Some(b)
    {
      Input.KeyPress(Latched(), b)
    }

    function MousePress(b: MouseButton): (r: bool)
      reads this
      ensures r <==> mousePressed == Some(b)
    {
      Input.MousePress(Latched(), b)
    }

    function MouseRelease(b: MouseButton): (r: bool)
      reads this
      ensures r <==> mouseReleased == Some(b)
    {
      Input.MouseRelease(Latched(), b)
    }

    function MouseX(): real reads this { Input.MouseX(Latched()) }

    function MouseY(): real reads this { Input.MouseY(Latched()) }

    // ------------------------------------------------------------ environment

    /** `cursor`: the six known names select an icon; any other string keeps the current one. */
    method Cursor(name: string) returns (r: Result<()>)
      modifies this`cursor
      ensures cursor == CursorAfter(old(cursor), name) && r == Ok(())
    {
      if name == "HAND" {
        cursor := Hand;
      } else if name == "ARROW" {
        cursor := Arrow;
      } else if name == "CROSS" {
        cursor := Crosshair;
      } else if name == "MOVE" {
        cursor := Move;
      } else if name == "TEXT" {
        cursor := Text;
      } else if name == "WAIT" {
        cursor := Wait;
      }
      r := Ok(());
    }

    method ResetCursor() returns (r: Result<()>)
      modifies this`cursor
      ensures cursor == Default && r == Ok(())
    {
      cursor := Default;
      r := Ok(());
    }

    function FrameCount(): int reads this { frameCount }

    function GetFrameRate(): int reads this { frameRate }

    method SetFrameRate(f: int)
      modifies this`frameRate
      ensures GetFrameRate() == f
    {
      frameRate := f;
    }

    method Smooth()
      modifies this`drawParams
      ensures drawParams == Smoothed(old(drawParams), true)
    {
      drawParams := drawParams.(smooth := Some(Nicest));
    }

    method NoSmooth()
      modifies this`drawParams
      ensures drawParams == Smoothed(old(drawParams), false)
    {
      drawParams := drawParams.(smooth := None);
    }

    /** `blend_mode`: a known name replaces the blend of the parameters. */
    method BlendMode(mode: string)
      modifies this`drawParams
      ensures drawParams == WithBlend(old(drawParams), mode)
    {
      match BlendFor(mode)
      case Some(b) =>
        drawParams := drawParams.(blend := b);
      case None =>
    }

    // ------------------------------------------------------------ shaders

    /**
     * `load_frag_shader`: the spliced fragment shader (whose compilation is
     * unwrapped) joins the bank, and the info points at it.
     */
    method LoadFragShader(fs: FileSystem, filename: string, uniforms: seq<Uniform>, compiles: Program -> bool)
      returns (info: ShaderInfo<seq<Uniform>>)
      requires filename in fs && AllResolve(Lines(fs[filename]), fs)
      requires compiles(Loaded(ParseIncludes(fs, filename)))
      modifies this`bank
      ensures bank == old(bank) + [Loaded(ParseIncludes(fs, filename))]
      ensures info == ShaderInfo(|old(bank)|, Some(uniforms)) && bank[GetIdx(info)] == Loaded(ParseIncludes(fs, filename))
      ensures old(Valid()) ==> Valid()
    {
      var fsh := ParseIncludesLoop(fs, filename);
      bank := bank + [Loaded(fsh)];
      info := ShaderInfo(|bank| - 1, Some(uniforms));
      assert old(Valid()) ==> bank[..4] == old(bank)[..4];
    }

    /** `shader`: the info's program becomes both the current and the alternate shader. */
    method Shader(info: ShaderInfo<seq<Uniform>>)
      modifies this`alternateShader, this`usingAlternate, this`currShader
      ensures alternateShader == GetIdx(info) && usingAlternate && currShader == GetIdx(info)
    {
      alternateShader := info.idx;
      usingAlternate := true;
      currShader := info.idx;
    }

    /** `reset_shader`: back to program 0; the alternate shader is remembered. */
    method ResetShader()
      modifies this`currShader, this`usingAlternate
      ensures currShader == 0 && !usingAlternate
    {
      currShader := 0;
      usingAlternate := false;
    }

    // ------------------------------------------------------------ drawing

    /** `draw`: the shape's calls go to the Screen's framebuffer until one is refused. */
    method Draw(shape: Shape, ok: Call -> bool) returns (r: Result<()>)
      requires Valid()
      modifies this`fbo
      ensures var issued := Issue(DrawPlan(paint.fillOn, paint.strokeOn, matrices.curr, bank, drawParams, shape), ok);
        fbo == old(fbo) + issued.0 && r == issued.1
    {
      var prog: Program;
      var u: seq<Uniform>;
      if shape.texture.Some? {
        prog := bank[1];
        u := CreateUniforms(matrices.curr, [("tex", Sampler(shape.texture.value))]);
      } else {
        prog := bank[0];
        u := CreateUniforms(matrices.curr, []);
      }
      r := Dispatch(shape, prog, u, drawParams, ok);
    }

    /** `draw_mould`: the same with the mould's program and uniforms. */
    method DrawMould(mould: Mould, ok: Call -> bool) returns (r: Result<()>)
      requires GetIdx(mould.shader) < |bank| && mould.shader.uniforms.Some?
      modifies this`fbo
      ensures var issued := Issue(MouldPlan(paint.fillOn, paint.strokeOn, bank, drawParams, mould), ok);
        fbo == old(fbo) + issued.0 && r == issued.1
    {
      var prog := bank[GetIdx(mould.shader)];
      var u := GetUniforms(mould.shader);
      r := Dispatch(mould.shape, prog, u, drawParams, ok);
    }

    /** The fill draw, then the stroke draw, the way both `draw` and `draw_mould` spell them out. */
    method Dispatch(shape: Shape, prog: Program, u: seq<Uniform>, params: DrawParams, ok: Call -> bool)
      returns (r: Result<()>)
      modifies this`fbo
      ensures var issued := Issue(Plan(paint.fillOn, paint.strokeOn, shape, prog, u, params), ok);
        fbo == old(fbo) + issued.0 && r == issued.1
    {
      var fillOn, strokeOn := paint.fillOn, paint.strokeOn;
      var fills := if fillOn then [Call(shape.fill, shape.fillIndices, prog, u, params)] else [];
      var strokes := if strokeOn && shape.strokeIndices.NoBuffer?
                     then [Call(shape.stroke, shape.strokeIndices, prog, u, params)] else [];
      assert Plan(fillOn, strokeOn, shape, prog, u, params) == fills + strokes;
      IssueTwo(fills, strokes, ok);
      if fillOn {
        if !ok(fills[0]) {
          return Err(FBDrawFailed);
        }
        fbo := fbo + fills;
      }
      if strokeOn && shape.strokeIndices.NoBuffer? {
        if !ok(strokes[0]) {
          return Err(FBDrawFailed);
        }
        fbo := fbo + strokes;
      }
      assert fbo == old(fbo) + (fills + strokes);
      r := Ok(());
    }

    /** `draw_onto_framebuffer`: the calls go to the given framebuffer; the Screen is left alone. */
    method DrawOntoFramebuffer(shape: Shape, framebuffer: seq<Call>) returns (fb: seq<Call>)
      requires Valid()
      ensures fb == framebuffer + FramebufferPlan(paint.fillOn, paint.strokeOn, matrices.curr, bank, shape)
    {
      var t := DefaultParams().(depthWrite := false, depthTest := Overwrite, multisampling := false, smooth := None);
      var prog := if shape.texture.Some? then bank[1] else bank[0];
      var u := if shape.texture.Some? then CreateUniforms(matrices.curr, [("tex", Sampler(shape.texture.value))])
               else CreateUniforms(matrices.curr, []);
      fb := framebuffer;
      if paint.fillOn {
        fb := fb + [Call(shape.fill, shape.fillIndices, prog, u, t)];
      }
      if paint.strokeOn && shape.strokeIndices.NoBuffer? {
        fb := fb + [Call(shape.stroke, shape.strokeIndices, prog, u, t)];
      }
    }

    /** `draw_mould_onto_framebuffer`: the mould's program and uniforms, the default parameters. */
    method DrawMouldOntoFramebuffer(mould: Mould, framebuffer: seq<Call>) returns (fb: seq<Call>)
      requires GetIdx(mould.shader) < |bank| && mould.shader.uniforms.Some?
      ensures fb == framebuffer + MouldFramebufferPlan(paint.fillOn, paint.strokeOn, bank, mould)
    {
      var prog := bank[GetIdx(mould.shader)];
      var u := GetUniforms(mould.shader);
      fb := framebuffer;
      if paint.fillOn {
        fb := fb + [Call(mould.shape.fill, mould.shape.fillIndices, prog, u, DefaultParams())];
      }
      if paint.strokeOn && mould.shape.strokeIndices.NoBuffer? {
        fb := fb + [Call(mould.shape.stroke, mould.shape.strokeIndices, prog, u, DefaultParams())];
      }
    }

    method StrokeWeight(w: real)
      modifies this`drawParams
      ensures drawParams == WithStrokeWeight(old(drawParams), w)
    {
      drawParams := drawParams.(pointSize := Some(w), lineWidth := Some(w));
    }

    method EllipseMode(mode: string)
      modifies this`ellipseMode
      ensures ellipseMode == mode
    {
      ellipseMode := mode;
    }

    method RectMode(mode: string)
      modifies this`rectMode
      ensures rectMode == mode
    {
      rectMode := mode;
    }

    method ShapeMode(mode: string)
      modifies this`shapeMode
      ensures shapeMode == mode
    {
      shapeMode := mode;
    }
  }

  // ---------------------------------------------------------------- properties

  /** Issuing at most one fill call and then at most one stroke call. */
  lemma IssueTwo(a: seq<Call>, b: seq<Call>, ok: Call -> bool)
    requires |a| <= 1 && |b| <= 1
    ensures Issue(a + b, ok) ==
      if |a| == 1 && !ok(a[0]) then ([], Err(FBDrawFailed))
      else if |b| == 1 && !ok(b[0]) then (a, Err(FBDrawFailed))
      else (a + b, Ok(()))
  {
    if |b| == 1 {
      IssueOne(b, ok);
    } else {
      assert Issue(b, ok) == ([], Ok(()));
    }
    if |a| == 1 {
      assert (a + b)[0] == a[0] && (a + b)[1..] == b;
      assert Issue(a + b, ok) ==
        if ok(a[0]) then ([a[0]] + Issue(b, ok).0, Issue(b, ok).1) else ([], Err(FBDrawFailed));
      assert [a[0]] + b == a + b && [a[0]] + [] == a;
    } else {
      assert a + b == b;
    }
  }

  lemma IssueOne(b: seq<Call>, ok: Call -> bool)
    requires |b| == 1
    ensures Issue(b, ok) == if ok(b[0]) then (b, Ok(())) else ([], Err(FBDrawFailed))
  {
    assert b[1..] == [];
    assert Issue(b[1..], ok) == ([], Ok(()));
    assert [b[0]] + [] == b;
  }

  /**
   * The blit quad covers clip space with two triangles on its four corners,
   * and each corner's texcoord is its position mapped from [-1, 1] to [0, 1].
   */
  lemma BlitQuadShape()
    ensures |BlitQuad| == 4 && |BlitIndices| == 6
    ensures forall k :: 0 <= k < |BlitIndices| ==> BlitIndices[k] < |BlitQuad|
    ensures forall k :: 0 <= k < |BlitQuad| ==>
      BlitQuad[k].u == (BlitQuad[k].x + 1.0) / 2.0 && BlitQuad[k].v == (BlitQuad[k].y + 1.0) / 2.0
    ensures forall k :: 0 <= k < |BlitQuad| ==> (BlitQuad[k].x == 1.0 || BlitQuad[k].x == -1.0) &&
                                                (BlitQuad[k].y == 1.0 || BlitQuad[k].y == -1.0)
    ensures BlitIndices[0] == BlitIndices[3] && BlitIndices[2] == BlitIndices[4]
  {
  }

  /**
   * Setup reports the first failed stage in order, whatever fails later; it
   * fails only with a stage's own error or `ShaderCompileFail`, and
   * succeeds exactly when every stage succeeds and every shader compiles.
   */
  lemma SetupErrorOrder(before: seq<ProcessingErr>, compiles: Program -> bool, ok: ProcessingErr -> bool)
    ensures var e := SetupError(before, compiles, ok);
      (e.None? <==> (forall i :: 0 <= i < |before| ==> ok(before[i])) &&
                    (forall i :: 0 <= i < |BuiltIn| ==> compiles(BuiltIn[i])) && ok(VBNoCreate) && ok(IBNoCreate)) &&
      (e.Some? ==> e.value in before + [ShaderCompileFail, VBNoCreate, IBNoCreate]) &&
      (|before| > 0 && !ok(before[0]) ==> e == Some(before[0]))
  {
    var tail := [VBNoCreate, IBNoCreate];
    assert tail[0] == VBNoCreate && tail[1] == IBNoCreate;
  }

  /** A window whose display cannot be created reports that, whatever else would fail. */
  lemma DisplayFirst(compiles: Program -> bool, ok: ProcessingErr -> bool)
    requires !ok(DisplayNoCreate)
    ensures SetupError(WindowStages, compiles, ok) == Some(DisplayNoCreate)
  {
    SetupErrorOrder(WindowStages, compiles, ok);
  }

  /**
   * A failed blit or swap is reported whatever the events are, so a `Closed`
   * event waiting in the queue does not panic that frame; only a frame that
   * got through both can panic.
   */
  lemma RevealErrorsFirst(blitted: bool, swapped: bool, events: seq<Event>)
    ensures !blitted ==> RevealOutcome(blitted, swapped, events) == Returned(Err(DrawFailed))
    ensures blitted && !swapped ==> RevealOutcome(blitted, swapped, events) == Returned(Err(SwapFailed))
    ensures RevealOutcome(blitted, swapped, events) == Panicked <==>
      blitted && swapped && exists i :: 0 <= i < |events| && events[i].Closed?
  {
    FoldIsLastWins(events, |events|);
    assert events[..|events|] == events;
  }
}
