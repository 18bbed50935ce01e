/**
 * The draw parameters a Screen hands to every draw call, and `blend_mode`'s
 * table from Processing's blend mode names to blending configurations.
 */
module Rendering {
  import opened Errors

  datatype Factor = Zero | One | SourceColor | SourceAlpha | OneMinusSourceAlpha | OneMinusDestinationColor

  /** `BlendingFunction`: how source and destination are combined. */
  datatype BlendFn =
    | AlwaysReplace
    | Min
    | Max
    | Addition(source: Factor, destination: Factor)
    | ReverseSubtraction(source: Factor, destination: Factor)

  datatype Blend = Blend(color: BlendFn, alpha: BlendFn, constant: (real, real, real, real))

  datatype DepthTest = Overwrite | IfLess

  datatype Smooth = Fastest | Nicest | DontCare

  /** The fields of `DrawParameters` the crate sets. */
  datatype DrawParams = DrawParams(
    pointSize: Option<real>,
    lineWidth: Option<real>,
    depthWrite: bool,
    depthTest: DepthTest,
    blend: Blend,
    multisampling: bool,
    smooth: Option<Smooth>)

  /** Every blend the crate builds has the constant colour (1, 1, 1, 1). */
  const White: (real, real, real, real) := (1.0, 1.0, 1.0, 1.0)

  /** The alpha function of every mode but REPLACE. */
  const AddAlpha: BlendFn := Addition(One, One)

  /** The library's default parameters (`Default::default()`). */
  function DefaultParams(): DrawParams
  {
    DrawParams(None, None, false, Overwrite, Blend(AlwaysReplace, AlwaysReplace, White), true, None)
  }

  /** The parameters a new Screen draws with: sizes 2, depth written, BLEND, no smoothing. */
  function ScreenParams(): DrawParams
  {
    DrawParams(Some(2.0), Some(2.0), true, Overwrite,
               Blend(Addition(SourceAlpha, OneMinusSourceAlpha), AddAlpha, White), false, None)
  }

  /** The nine names `blend_mode` knows. */
  predicate KnownMode(mode: string)
  {
    mode in ["REPLACE", "BLEND", "ADD", "SUBTRACT", "LIGHTEST", "DARKEST", "EXCLUSION", "MULTIPLY", "SCREEN"]
  }

  /** The blend each known name selects; `None` for any other string. */
  function BlendFor(mode: string): (r: Option<Blend>)
    ensures r.Some? <==> KnownMode(mode)
  {
    if mode == "REPLACE" then Some(Blend(AlwaysReplace, AlwaysReplace, White))
    else if mode == "BLEND" then Some(Blend(Addition(SourceAlpha, OneMinusSourceAlpha), AddAlpha, White))
    else if mode == "ADD" then Some(Blend(Addition(SourceAlpha, One), AddAlpha, White))
    else if mode == "SUBTRACT" then Some(Blend(ReverseSubtraction(SourceAlpha, One), AddAlpha, White))
    else if mode == "LIGHTEST" then Some(Blend(Max, AddAlpha, White))
    else if mode == "DARKEST" then Some(Blend(Min, AddAlpha, White))
    else if mode == "EXCLUSION" then Some(Blend(Addition(OneMinusDestinationColor, OneMinusSourceAlpha), AddAlpha, White))
    else if mode == "MULTIPLY" then Some(Blend(Addition(Zero, SourceColor), AddAlpha, White))
    else if mode == "SCREEN" then Some(Blend(Addition(OneMinusDestinationColor, One), AddAlpha, White))
    else None
  }

  /** `blend_mode` on the parameters: a known name replaces the blend, any other string is ignored. */
  function WithBlend(p: DrawParams, mode: string): DrawParams
  {
    match BlendFor(mode)
    case Some(b) => p.(blend := b)
    case None => p
  }

  // ---------------------------------------------------------------- properties

  /**
   * `blend_mode` writes only the blend: an unknown name changes nothing, and
   * a known one changes no other field.
   */
  lemma BlendModeOnlyBlend(p: DrawParams, mode: string)
    ensures var q := WithBlend(p, mode);
      q.(blend := p.blend) == p &&
      (!KnownMode(mode) ==> q == p) &&
      (KnownMode(mode) ==> q.blend == BlendFor(mode).value)
  {
  }

  /** Every known mode keeps the constant white, and all but REPLACE add alpha one to one. */
  lemma BlendAlpha(mode: string)
    requires KnownMode(mode)
    ensures BlendFor(mode).value.constant == White
    ensures mode == "REPLACE" <==> BlendFor(mode).value.alpha == AlwaysReplace
    ensures mode != "REPLACE" ==> BlendFor(mode).value.alpha == AddAlpha
  {
  }

  /** No two of the nine names select the same blend. */
  lemma BlendTableInjective(m1: string, m2: string)
    requires KnownMode(m1) && KnownMode(m2) && m1 != m2
    ensures BlendFor(m1) != BlendFor(m2)
  {
  }

  /** "BLEND" puts back the blend a Screen starts with. */
  lemma BlendIsInitial(p: DrawParams)
    ensures WithBlend(p, "BLEND").blend == ScreenParams().blend
    ensures WithBlend(ScreenParams(), "BLEND") == ScreenParams()
  {
  }

  /** Selecting a mode twice is selecting it once; the last of two modes wins. */
  lemma BlendLastWins(p: DrawParams, m1: string, m2: string)
    requires KnownMode(m2)
    ensures WithBlend(WithBlend(p, m1), m2) == WithBlend(p, m2)
    ensures WithBlend(WithBlend(p, m2), m2) == WithBlend(p, m2)
  {
  }
}
