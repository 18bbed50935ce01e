/**
 * The glfw `Screen`: the same state as the glutin one, built without error
 * returns (every setup failure is unwrapped), with its own blit quad, its
 * own `reveal` (no error path, any key message latches) and its own cursor.
 * The shape, colour, transform, shader and draw methods are shared with the
 * glutin backend and are modelled once, on `GlutinScreen.Screen`.
 */
module GlfwScreen {
  import opened Errors
  import opened Transform
  import opened Color
  import opened Rendering
  import opened Input
  import Environment
  import opened Shaders
  import opened GlfwInput
  import opened GlfwEnvironment
  import opened GlutinScreen

  /** The glfw blit quad: the same corners as glutin's, with the texture upside down. */
  const GlfwBlitQuad: seq<BlitVertex> :=
    [BlitVertex(-1.0, 1.0, 0.0, 0.0), BlitVertex(1.0, 1.0, 1.0, 0.0),
     BlitVertex(1.0, -1.0, 1.0, 1.0), BlitVertex(-1.0, -1.0, 0.0, 1.0)]

  /** The glfw `init_shaders`: the four pushes, each compilation unwrapped. */
  method GlfwInitShaders(compiles: Program -> bool) returns (bank: seq<Program>)
    requires forall i :: 0 <= i < |BuiltIn| ==> compiles(BuiltIn[i])
    ensures bank == BuiltIn && InitBank(compiles) == Ok(bank)
  {
    bank := [];
    bank := bank + [Basic];
    bank := bank + [Textured];
    bank := bank + [FontDrawing];
    bank := bank + [DrawFramebuffer];
  }

  class Screen {
    const matrices: Matrices
    const paint: ColorState
    var drawParams: DrawParams
    var bank: seq<Program>
    var currShader: nat
    var alternateShader: nat
    var usingAlternate: bool
    var ellipseMode: string
    var rectMode: string
    var shapeMode: string
    var imageMode: string
    var frameRate: int
    var frameCount: int
    var cursor: StandardCursor
    var keyPressed: Option<GlfwKey>
    var mousePressed: Option<GlfwButton>
    var mouseReleased: Option<GlfwButton>
    var mousePos: (real, real)
    var bgCol: seq<real>
    var tintOn: bool
    var tintCol: seq<real>
    var preserveAspect: bool
    var aspect: real
    var width: nat
    var height: nat

    predicate Valid()
      reads this
    {
      |bank| >= 4 && bank[..4] == BuiltIn
    }

    function Latched(): GlfwLatches
      reads this
    {
      GlfwLatches(keyPressed, mousePressed, mouseReleased, mousePos)
    }

    /** What a new glfw Screen holds: as under glutin, but with the arrow cursor. */
    predicate Initial(w: nat, h: nat, preserve: bool, aspectRatio: real)
      reads this, matrices, paint
    {
      matrices.State() == Transform.Initial() && paint.State() == Color.Initial() &&
      drawParams == ScreenParams() && bank == BuiltIn &&
      currShader == 0 && alternateShader == 1048576 && !usingAlternate &&
      ellipseMode == "CENTER" && rectMode == "CORNER" && shapeMode == "CORNER" && imageMode == "CORNER" &&
      frameRate == 60 && frameCount == 0 && cursor == Arrow &&
      Latched() == GlfwCleared &&
      bgCol == [0.8, 0.8, 0.8, 0.8] && !tintOn && tintCol == [1.0, 1.0, 1.0, 1.0] &&
      preserveAspect == preserve && aspect == aspectRatio && width == w && height == h
    }

    /** The glfw `Screen::new`: the window, buffers and shaders must all come up (they are unwrapped). */
    constructor (w: nat, h: nat, preserve: bool, aspectRatio: real, compiles: Program -> bool)
      requires forall i :: 0 <= i < |BuiltIn| ==> compiles(BuiltIn[i])
      ensures Valid() && Initial(w, h, preserve, aspectRatio)
      ensures fresh(matrices) && fresh(paint)
    {
      var programs := GlfwInitShaders(compiles);
      matrices := new Matrices();
      paint := new ColorState();
      drawParams := ScreenParams();
      bank := programs;
      currShader, alternateShader, usingAlternate := 0, 1048576, false;
      ellipseMode, rectMode, shapeMode, imageMode := "CENTER", "CORNER", "CORNER", "CORNER";
      frameRate, frameCount := 60, 0;
      cursor := Arrow;
      keyPressed, mousePressed, mouseReleased, mousePos := None, None, None, (-100.0, -100.0);
      bgCol, tintOn, tintCol := [0.8, 0.8, 0.8, 0.8], false, [1.0, 1.0, 1.0, 1.0];
      preserveAspect, aspect := preserve, aspectRatio;
      width, height := w, h;
    }

    /**
     * The glfw `reveal`: the blit and the swap are unwrapped, a `Close`
     * message panics (`panicked`), and every frame that gets through is counted.
     */
    method Reveal(events: seq<GlfwEvent>, blitOk: (Program, seq<BlitVertex>, seq<nat>) -> bool, swapOk: bool)
      returns (panicked: bool)
      requires Valid() && blitOk(bank[BlitProgram], GlfwBlitQuad, BlitIndices) && swapOk
      modifies this`keyPressed, this`mousePressed, this`mouseReleased, this`mousePos, this`frameCount
      ensures panicked <==> GlfwPoll(events).None?
      ensures !panicked ==> Latched() == GlfwPoll(events).value && frameCount == old(frameCount) + 1
      ensures panicked ==> Latched() == old(Latched()) && frameCount == old(frameCount)
    {
      var polled := GlfwPollLoop(events);
      if polled.None? {
        return true;
      }
      keyPressed, mousePressed, mouseReleased, mousePos := polled.value.key, polled.value.pressed, polled.value.released, polled.value.pos;
      frameCount := frameCount + 1;
      panicked := false;
    }

    function KeyPress(k: GlfwKey): (r: bool)
      reads this
      ensures r <==> keyPressed == Some(k)
    {
      GlfwKeyPress(Latched(), k)
    }

    function MousePress(b: GlfwButton): (r: bool)
      reads this
      ensures r <==> mousePressed == Some(b)
    {
      GlfwMousePress(Latched(), b)
    }

    function MouseRelease(b: GlfwButton): (r: bool)
      reads this
      ensures r <==> mouseReleased == Some(b)
    {
      GlfwMouseRelease(Latched(), b)
    }

    function MouseX(): real reads this { GlfwMouseX(Latched()) }

    function MouseY(): real reads this { GlfwMouseY(Latched()) }

    /** The glfw `cursor`: its if-chain, where WAIT selects nothing. */
    method Cursor(name: string)
      modifies this`cursor
      ensures cursor == GlfwCursorAfter(old(cursor), name)
    {
      if name == "HAND" {
        cursor := Hand;
      } else if name == "ARROW" {
        cursor := Arrow;
      } else if name == "CROSS" {
        cursor := Crosshair;
      } else if name == "MOVE" {
        cursor := Crosshair;
      } else if name == "TEXT" {
        cursor := IBeam;
      }
    }

    method ResetCursor()
      modifies this`cursor
      ensures cursor == Arrow
    {
      cursor := Arrow;
    }

    function FrameCount(): int reads this { frameCount }

    function GetFrameRate(): int reads this { frameRate }

    method SetFrameRate(f: int)
      modifies this`frameRate
      ensures GetFrameRate() == f
    {
      frameRate := f;
    }

    method Smooth()
      modifies this`drawParams
      ensures drawParams == Environment.Smoothed(old(drawParams), true)
    {
      drawParams := drawParams.(smooth := Some(Nicest));
    }

    method NoSmooth()
      modifies this`drawParams
      ensures drawParams == Environment.Smoothed(old(drawParams), false)
    {
      drawParams := drawParams.(smooth := None);
    }
  }

  // ---------------------------------------------------------------- properties

  /**
   * The glfw quad has glutin's corners, each with the texcoord of the corner
   * mirrored top to bottom: the texture is shown upside down relative to glutin.
   */
  lemma GlfwBlitQuadFlipped()
    ensures |GlfwBlitQuad| == |BlitQuad| == 4
    ensures forall k :: 0 <= k < |GlfwBlitQuad| ==>
      GlfwBlitQuad[k].u == (GlfwBlitQuad[k].x + 1.0) / 2.0 && GlfwBlitQuad[k].v == (1.0 - GlfwBlitQuad[k].y) / 2.0
    ensures forall k :: 0 <= k < |GlfwBlitQuad| ==>
      (exists j :: 0 <= j < |BlitQuad| && BlitQuad[j].x == GlfwBlitQuad[k].x &&
                   BlitQuad[j].y == GlfwBlitQuad[k].y && BlitQuad[j].v == 1.0 - GlfwBlitQuad[k].v)
  {
    assert BlitQuad[3].x == GlfwBlitQuad[0].x && BlitQuad[3].y == GlfwBlitQuad[0].y;
    assert BlitQuad[2].x == GlfwBlitQuad[1].x && BlitQuad[2].y == GlfwBlitQuad[1].y;
    assert BlitQuad[1].x == GlfwBlitQuad[2].x && BlitQuad[1].y == GlfwBlitQuad[2].y;
    assert BlitQuad[0].x == GlfwBlitQuad[3].x && BlitQuad[0].y == GlfwBlitQuad[3].y;
  }
}
