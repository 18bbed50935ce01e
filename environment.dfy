/**
 * The window environment of the glutin backend: the cursor name table, the
 * focus query over a poll, and the smoothing switch of the draw parameters.
 */
module Environment {
  import opened Errors
  import opened Input
  import opened Rendering

  /** The glutin cursor icons the crate selects. */
  datatype CursorIcon = Default | Arrow | Hand | Crosshair | Move | Text | Wait

  /** The icon each Processing cursor name selects; `None` for any other string. */
  function CursorFor(name: string): (r: Option<CursorIcon>)
    ensures r.Some? <==> name in ["HAND", "ARROW", "CROSS", "MOVE", "TEXT", "WAIT"]
  {
    if name == "HAND" then Some(Hand)
    else if name == "ARROW" then Some(Arrow)
    else if name == "CROSS" then Some(Crosshair)
    else if name == "MOVE" then Some(Move)
    else if name == "TEXT" then Some(Text)
    else if name == "WAIT" then Some(Wait)
    else None
  }

  /** `cursor(name)` on the current icon: an unknown name keeps it. */
  function CursorAfter(curr: CursorIcon, name: string): CursorIcon
  {
    OrElse(CursorFor(name), curr)
  }

  /** `focused`: the loop over one poll, with a local flag the callback raises. */
  method FocusedLoop(events: seq<Event>) returns (focused: bool)
    ensures focused <==> exists i :: 0 <= i < |events| && events[i].Focused?
  {
    focused := false;
    for i := 0 to |events|
      invariant focused <==> exists k :: 0 <= k < i && events[k].Focused?
    {
      if events[i].Focused? {
        focused := true;
      }
    }
  }

  /** `smooth` and `no_smooth`: only the `smooth` field changes. */
  function Smoothed(p: DrawParams, on: bool): (q: DrawParams)
    ensures q.(smooth := p.smooth) == p
    ensures q.smooth == (if on then Some(Nicest) else None)
  {
    p.(smooth := if on then Some(Nicest) else None)
  }

  // ---------------------------------------------------------------- properties

  /**
   * The six names select six different icons, none of them the default one,
   * and every other name leaves the cursor as it was.
   */
  lemma CursorTable(curr: CursorIcon, name: string)
    ensures CursorFor(name).Some? ==> CursorAfter(curr, name) == CursorFor(name).value != Default
    ensures CursorFor(name).None? ==> CursorAfter(curr, name) == curr
    ensures CursorAfter(curr, "CROSS") == Crosshair && CursorAfter(curr, "MOVE") == Move
    ensures CursorAfter(curr, "TEXT") == Text && CursorAfter(curr, "WAIT") == Wait
  {
  }

  /** Two different known names never select the same icon. */
  lemma CursorTableInjective(a: string, b: string)
    requires CursorFor(a).Some? && CursorFor(b).Some? && a != b
    ensures CursorFor(a) != CursorFor(b)
  {
  }

  /** Smoothing is idempotent and the last switch wins. */
  lemma SmoothLastWins(p: DrawParams, first: bool, second: bool)
    ensures Smoothed(Smoothed(p, first), second) == Smoothed(p, second)
  {
  }
}
