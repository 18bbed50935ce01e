/**
 * Input for the glfw backend: the flushed window messages, the latching loop
 * of its `reveal` (any key event, whatever its action, latches the key), the
 * latch queries, and `space_wait`'s scan for a space-bar press.
 */
module GlfwInput {
  import opened Errors
  import opened Input

  datatype Action = Press | Release | Repeat

  /** A glfw key: the space bar, or any other key by its code. */
  datatype GlfwKey = Space | Named(code: nat)

  /** A glfw mouse button by its number. */
  type GlfwButton = nat

  /** The flushed messages the crate looks at; `Ignored` stands for every other one. */
  datatype GlfwEvent =
    | KeyEvent(key: GlfwKey, action: Action)
    | MouseButton(button: GlfwButton, action: Action)
    | CursorPos(x: real, y: real)
    | Focus(gained: bool)
    | Close
    | Ignored

  datatype GlfwLatches = GlfwLatches(key: Option<GlfwKey>, pressed: Option<GlfwButton>,
                                     released: Option<GlfwButton>, pos: (real, real))

  const GlfwCleared: GlfwLatches := GlfwLatches(None, None, None, Offscreen)

  /** One message of the loop; `Close` never gets here (it panics). */
  function GlfwStep(l: GlfwLatches, e: GlfwEvent): GlfwLatches
  {
    match e
    case KeyEvent(k, _) => l.(key := Some(k))
    case MouseButton(b, a) =>
      if a == Press then l.(pressed := Some(b))
      else if a == Release then l.(released := Some(b))
      else l
    case CursorPos(x, y) => l.(pos := (x, y))
    case _ => l
  }

  /** The latches after the first `n` messages, `None` once a `Close` arrived. */
  function GlfwFold(events: seq<GlfwEvent>, n: nat): Option<GlfwLatches>
    requires n <= |events|
  {
    if n == 0 then Some(GlfwCleared)
    else match GlfwFold(events, n - 1)
      case None => None
      case Some(l) => if events[n - 1].Close? then None else Some(GlfwStep(l, events[n - 1]))
  }

  function GlfwPoll(events: seq<GlfwEvent>): Option<GlfwLatches>
  {
    GlfwFold(events, |events|)
  }

  /** The `for` loop of the glfw `reveal` over the flushed messages, with four locals. */
  method GlfwPollLoop(events: seq<GlfwEvent>) returns (r: Option<GlfwLatches>)
    ensures r == GlfwPoll(events)
  {
    var kp: Option<GlfwKey> := None;
    var mp: Option<GlfwButton> := None;
    var mr: Option<GlfwButton> := None;
    var mpos := Offscreen;
    for i := 0 to |events|
      invariant GlfwFold(events, i) == Some(GlfwLatches(kp, mp, mr, mpos))
    {
      match events[i]
      case Close =>
        GlfwPanicSticks(events, i + 1, |events|);
        return None;
      case MouseButton(b, a) =>
        if a == Press {
          mp := Some(b);
        } else if a == Release {
          mr := Some(b);
        }
      case CursorPos(x, y) =>
        mpos := (x, y);
      case KeyEvent(k, _) =>
        kp := Some(k);
      case _ =>
    }
    r := Some(GlfwLatches(kp, mp, mr, mpos));
  }

  lemma {:induction false} GlfwPanicSticks(events: seq<GlfwEvent>, k: nat, n: nat)
    requires k <= n <= |events| && GlfwFold(events, k).None?
    ensures GlfwFold(events, n).None?
  {
    if k < n {
      GlfwPanicSticks(events, k, n - 1);
    }
  }

  /** The glfw latch queries: is the latch exactly the argument? */
  function GlfwKeyPress(l: GlfwLatches, k: GlfwKey): bool { Matches(l.key, k) }
  function GlfwMousePress(l: GlfwLatches, b: GlfwButton): bool { Matches(l.pressed, b) }
  function GlfwMouseRelease(l: GlfwLatches, b: GlfwButton): bool { Matches(l.released, b) }
  function GlfwMouseX(l: GlfwLatches): real { l.pos.0 }
  function GlfwMouseY(l: GlfwLatches): real { l.pos.1 }

  /**
   * `space_wait`'s scan of one flushed batch: it stops at the first space-bar
   * press, or runs off the end. It reads the messages and changes nothing.
   */
  method SpaceWait(events: seq<GlfwEvent>) returns (stop: nat)
    ensures stop <= |events|
    ensures stop < |events| ==> events[stop] == KeyEvent(Space, Press)
    ensures forall j :: 0 <= j < stop ==> events[j] != KeyEvent(Space, Press)
  {
    stop := 0;
    while stop < |events|
      invariant stop <= |events|
      invariant forall j :: 0 <= j < stop ==> events[j] != KeyEvent(Space, Press)
    {
      if events[stop].KeyEvent? && events[stop].key == Space && events[stop].action == Press {
        break;
      }
      stop := stop + 1;
    }
  }

  // ---------------------------------------------------------------- last message wins

  function GlfwKeyOf(e: GlfwEvent): Option<GlfwKey>
  {
    if e.KeyEvent? then Some(e.key) else None
  }

  function GlfwPressOf(e: GlfwEvent): Option<GlfwButton>
  {
    if e.MouseButton? && e.action == Press then Some(e.button) else None
  }

  function GlfwReleaseOf(e: GlfwEvent): Option<GlfwButton>
  {
    if e.MouseButton? && e.action == Release then Some(e.button) else None
  }

  function GlfwPosOf(e: GlfwEvent): Option<(real, real)>
  {
    if e.CursorPos? then Some((e.x, e.y)) else None
  }

  predicate NoClose(events: seq<GlfwEvent>)
  {
    forall i :: 0 <= i < |events| ==> !events[i].Close?
  }

  /**
   * A glfw poll panics exactly when a `Close` message arrives. Otherwise the
   * key latch is the key of the last key message of any action, the press
   * and release latches the buttons of the last press and the last release
   * (repeats count for neither), and the position the last cursor message's.
   */
  lemma {:induction false} GlfwFoldIsLastWins(events: seq<GlfwEvent>, n: nat)
    requires n <= |events|
    ensures GlfwFold(events, n).Some? <==> NoClose(events[..n])
    ensures GlfwFold(events, n).Some? ==>
      GlfwFold(events, n).value ==
        GlfwLatches(LastOf(events, GlfwKeyOf, n), LastOf(events, GlfwPressOf, n),
                    LastOf(events, GlfwReleaseOf, n), OrElse(LastOf(events, GlfwPosOf, n), Offscreen))
  {
    if n > 0 {
      GlfwFoldIsLastWins(events, n - 1);
      assert events[..n] == events[..n - 1] + [events[n - 1]];
    }
  }

  /**
   * A released key is latched by glfw but not by glutin, and a repeated
   * mouse button is latched by neither of the glfw press and release latches.
   */
  lemma BackendsDifferOnRelease(k: GlfwKey, c: KeyCode, b: GlfwButton)
    ensures GlfwPoll([KeyEvent(k, Release)]) == Some(GlfwCleared.(key := Some(k)))
    ensures Poll([KeyboardInput(Released, Some(c))]) == Some(Cleared)
    ensures GlfwPoll([MouseButton(b, Repeat)]) == Some(GlfwCleared)
  {
    var ke := [KeyEvent(k, Release)];
    assert GlfwFold(ke, 0) == Some(GlfwCleared);
    var we := [KeyboardInput(Released, Some(c))];
    assert Fold(we, 0) == Some(Cleared);
    var me := [MouseButton(b, Repeat)];
    assert GlfwFold(me, 0) == Some(GlfwCleared);
  }

  /** After a poll that did not panic, `key_press(k)` holds exactly when the last key message was `k`'s. */
  lemma GlfwPollKey(events: seq<GlfwEvent>, k: GlfwKey)
    requires GlfwPoll(events).Some?
    ensures GlfwKeyPress(GlfwPoll(events).value, k) <==>
      exists i :: 0 <= i < |events| && events[i].KeyEvent? && events[i].key == k &&
                  forall j :: i < j < |events| ==> !events[j].KeyEvent?
  {
    GlfwFoldIsLastWins(events, |events|);
    LastOfIsLast(events, GlfwKeyOf, |events|, k);
  }
}
