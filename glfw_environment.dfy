/**
 * The window environment of the glfw backend: its own cursor table (CROSS
 * and MOVE coincide, TEXT is the I-beam, WAIT has no cursor), and the focus
 * test over one flushed batch, which only counts a gained focus.
 */
module GlfwEnvironment {
  import opened Errors
  import opened GlfwInput
  import Environment

  /** The glfw standard cursors the crate selects. */
  datatype StandardCursor = Arrow | IBeam | Crosshair | Hand

  /** The cursor each name selects under glfw; WAIT and every unknown string select none. */
  function GlfwCursorFor(name: string): (r: Option<StandardCursor>)
    ensures r.Some? <==> name in ["HAND", "ARROW", "CROSS", "MOVE", "TEXT"]
  {
    if name == "HAND" then Some(Hand)
    else if name == "ARROW" then Some(Arrow)
    else if name == "CROSS" then Some(Crosshair)
    else if name == "MOVE" then Some(Crosshair)
    else if name == "TEXT" then Some(IBeam)
    else None
  }

  function GlfwCursorAfter(curr: StandardCursor, name: string): StandardCursor
  {
    match GlfwCursorFor(name)
    case Some(c) => c
    case None => curr
  }

  /** The glfw `focused`: a loop over the flushed messages that only a gained focus raises. */
  method GlfwFocusedLoop(events: seq<GlfwEvent>) returns (focused: bool)
    ensures focused <==> exists i :: 0 <= i < |events| && events[i] == Focus(true)
  {
    focused := false;
    for i := 0 to |events|
      invariant focused <==> exists k :: 0 <= k < i && events[k] == Focus(true)
    {
      if events[i] == Focus(true) {
        focused := true;
      }
    }
  }

  // ---------------------------------------------------------------- properties

  /**
   * CROSS and MOVE both give the crosshair, TEXT the I-beam; WAIT, like any
   * other unknown string, keeps the current cursor.
   */
  lemma GlfwCursorTable(curr: StandardCursor, name: string)
    ensures GlfwCursorAfter(curr, "CROSS") == Crosshair && GlfwCursorAfter(curr, "MOVE") == Crosshair
    ensures GlfwCursorAfter(curr, "TEXT") == IBeam && GlfwCursorAfter(curr, "HAND") == Hand
    ensures GlfwCursorAfter(curr, "ARROW") == Arrow && GlfwCursorAfter(curr, "WAIT") == curr
    ensures GlfwCursorFor(name).None? ==> GlfwCursorAfter(curr, name) == curr
  {
  }

  /**
   * The two backends read the same names differently: glutin tells MOVE from
   * CROSS and has a WAIT cursor; glfw does neither.
   */
  lemma CursorTablesDiffer()
    ensures Environment.CursorFor("MOVE") != Environment.CursorFor("CROSS")
    ensures GlfwCursorFor("MOVE") == GlfwCursorFor("CROSS")
    ensures Environment.CursorFor("WAIT").Some? && GlfwCursorFor("WAIT").None?
  {
  }
}
