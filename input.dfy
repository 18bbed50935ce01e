/**
 * Input latching for the glutin backend: the window events a poll delivers,
 * the four latches a Screen keeps (last key, last mouse press, last mouse
 * release, last cursor position) and the queries on them.
 */
module Input {
  import opened Errors

  datatype ElementState = Pressed | Released

  datatype MouseButton = Left | Right | Middle | OtherButton(code: nat)

  /** A virtual key code; the codes themselves are opaque to the model. */
  type KeyCode = nat

  /** The window events the crate looks at; `Other` stands for every one it ignores. */
  datatype Event =
    | KeyboardInput(state: ElementState, keycode: Option<KeyCode>)
    | MouseInput(state: ElementState, button: MouseButton)
    | CursorMoved(x: real, y: real)
    | Focused(gained: bool)
    | Closed
    | Other

  datatype Latches = Latches(key: Option<KeyCode>, pressed: Option<MouseButton>,
                             released: Option<MouseButton>, pos: (real, real))

  /** The cursor position a poll starts from and keeps when the cursor did not move. */
  const Offscreen: (real, real) := (-100.0, -100.0)

  /** What every poll starts from, and what a new Screen holds. */
  const Cleared: Latches := Latches(None, None, None, Offscreen)

  /** The poll callback on one event; `Closed` never reaches it (it panics). */
  function Step(l: Latches, e: Event): Latches
  {
    match e
    case KeyboardInput(s, k) => if s == Pressed && k.Some? then l.(key := k) else l
    case MouseInput(s, b) => if s == Pressed then l.(pressed := Some(b)) else l.(released := Some(b))
    case CursorMoved(x, y) => l.(pos := (x, y))
    case _ => l
  }

  /** The latches after the first `n` events, or `None` when one of them is `Closed`. */
  function Fold(events: seq<Event>, n: nat): Option<Latches>
    requires n <= |events|
  {
    if n == 0 then Some(Cleared)
    else match Fold(events, n - 1)
      case None => None
      case Some(l) => if events[n - 1].Closed? then None else Some(Step(l, events[n - 1]))
  }

  /** The latches a whole poll leaves, `None` meaning the poll panicked. */
  function Poll(events: seq<Event>): Option<Latches>
  {
    Fold(events, |events|)
  }

  /** The loop the callback runs, over four locals; `None` is the panic on `Closed`. */
  method PollLoop(events: seq<Event>) returns (r: Option<Latches>)
    ensures r == Poll(events)
  {
    var kp: Option<KeyCode> := None;
    var mp: Option<MouseButton> := None;
    var mr: Option<MouseButton> := None;
    var mpos := Offscreen;
    for i := 0 to |events|
      invariant Fold(events, i) == Some(Latches(kp, mp, mr, mpos))
    {
      match events[i]
      case Closed =>
        PanicSticks(events, i + 1, |events|);
        return None;
      case KeyboardInput(s, k) =>
        if s == Pressed {
          if k.Some? {
            kp := k;
          }
        }
      case MouseInput(s, b) =>
        if s == Pressed {
          mp := Some(b);
        } else {
          mr := Some(b);
        }
      case CursorMoved(x, y) =>
        mpos := (x, y);
      case _ =>
    }
    r := Some(Latches(kp, mp, mr, mpos));
  }

  /** Once a `Closed` event panicked the poll, no later event undoes it. */
  lemma {:induction false} PanicSticks(events: seq<Event>, k: nat, n: nat)
    requires k <= n <= |events| && Fold(events, k).None?
    ensures Fold(events, n).None?
  {
    if k < n {
      PanicSticks(events, k, n - 1);
    }
  }

  // ---------------------------------------------------------------- queries

  /** `key_press`, `mouse_press`, `mouse_release`: does the latch hold exactly `b`? */
  function Matches<T(==)>(latch: Option<T>, b: T): (r: bool)
    ensures r <==> latch == Some(b)
  {
    match latch
    case Some(k) => k == b
    case None => false
  }

  function KeyPress(l: Latches, b: KeyCode): bool { Matches(l.key, b) }
  function MousePress(l: Latches, b: MouseButton): bool { Matches(l.pressed, b) }
  function MouseRelease(l: Latches, b: MouseButton): bool { Matches(l.released, b) }
  function MouseX(l: Latches): real { l.pos.0 }
  function MouseY(l: Latches): real { l.pos.1 }

  // ---------------------------------------------------------------- last event wins

  /** What each latch listens to in one event. */
  function KeyOf(e: Event): Option<KeyCode>
  {
    if e.KeyboardInput? && e.state == Pressed then e.keycode else None
  }

  function PressOf(e: Event): Option<MouseButton>
  {
    if e.MouseInput? && e.state == Pressed then Some(e.button) else None
  }

  function ReleaseOf(e: Event): Option<MouseButton>
  {
    if e.MouseInput? && e.state == Released then Some(e.button) else None
  }

  function PosOf(e: Event): Option<(real, real)>
  {
    if e.CursorMoved? then Some((e.x, e.y)) else None
  }

  /** The value `f` picks from the last of the first `n` events it picks one from (either backend's events). */
  function LastOf<E, T>(events: seq<E>, f: E -> Option<T>, n: nat): Option<T>
    requires n <= |events|
  {
    if n == 0 then None
    else if f(events[n - 1]).Some? then f(events[n - 1])
    else LastOf(events, f, n - 1)
  }

  function OrElse<T>(o: Option<T>, d: T): T
  {
    if o.Some? then o.value else d
  }

  predicate NoClosed(events: seq<Event>)
  {
    forall i :: 0 <= i < |events| ==> !events[i].Closed?
  }

  /**
   * A poll panics exactly when a `Closed` event arrives; otherwise each latch
   * holds what its own events last said, the cursor defaulting to (-100, -100).
   */
  lemma {:induction false} FoldIsLastWins(events: seq<Event>, n: nat)
    requires n <= |events|
    ensures Fold(events, n).Some? <==> NoClosed(events[..n])
    ensures Fold(events, n).Some? ==>
      Fold(events, n).value ==
        Latches(LastOf(events, KeyOf, n), LastOf(events, PressOf, n), LastOf(events, ReleaseOf, n),
                OrElse(LastOf(events, PosOf, n), Offscreen))
  {
    if n > 0 {
      FoldIsLastWins(events, n - 1);
      assert events[..n] == events[..n - 1] + [events[n - 1]];
    }
  }

  /**
   * `LastOf` is the last event that speaks: it yields `v` exactly when some
   * event yields `v` and no later one yields anything, and nothing exactly
   * when no event yields anything.
   */
  lemma {:induction false} LastOfIsLast<E, T>(events: seq<E>, f: E -> Option<T>, n: nat, v: T)
    requires n <= |events|
    ensures LastOf(events, f, n) == Some(v) <==>
      exists i :: 0 <= i < n && f(events[i]) == Some(v) && forall j :: i < j < n ==> f(events[j]).None?
    ensures LastOf(events, f, n).None? <==> forall i :: 0 <= i < n ==> f(events[i]).None?
  {
    if n > 0 {
      LastOfIsLast(events, f, n - 1, v);
      if f(events[n - 1]).Some? && f(events[n - 1]) != Some(v) {
        forall i | 0 <= i < n - 1 && f(events[i]) == Some(v)
          ensures !(forall j :: i < j < n ==> f(events[j]).None?)
        {
          assert f(events[n - 1]).Some?;
        }
      }
    }
  }

  /**
   * After a poll that did not panic, `key_press(b)` holds exactly when the
   * last pressed key with a key code was `b`; the mouse queries likewise.
   */
  lemma PollQueries(events: seq<Event>, b: KeyCode, m: MouseButton)
    requires Poll(events).Some?
    ensures var l := Poll(events).value;
      (KeyPress(l, b) <==> exists i :: 0 <= i < |events| && KeyOf(events[i]) == Some(b) &&
                                      forall j :: i < j < |events| ==> KeyOf(events[j]).None?) &&
      (MousePress(l, m) <==> exists i :: 0 <= i < |events| && PressOf(events[i]) == Some(m) &&
                                        forall j :: i < j < |events| ==> PressOf(events[j]).None?) &&
      (MouseRelease(l, m) <==> exists i :: 0 <= i < |events| && ReleaseOf(events[i]) == Some(m) &&
                                          forall j :: i < j < |events| ==> ReleaseOf(events[j]).None?)
  {
    FoldIsLastWins(events, |events|);
    LastOfIsLast(events, KeyOf, |events|, b);
    LastOfIsLast(events, PressOf, |events|, m);
    LastOfIsLast(events, ReleaseOf, |events|, m);
  }

  /** With no cursor event the position latch is (-100, -100); with one, it is the last one's. */
  lemma PollCursor(events: seq<Event>)
    requires Poll(events).Some?
    ensures var l := Poll(events).value;
      ((forall i :: 0 <= i < |events| ==> !events[i].CursorMoved?) ==> (MouseX(l), MouseY(l)) == Offscreen) &&
      (forall i :: 0 <= i < |events| && events[i].CursorMoved? &&
                   (forall j :: i < j < |events| ==> !events[j].CursorMoved?) ==>
         (MouseX(l), MouseY(l)) == (events[i].x, events[i].y))
  {
    FoldIsLastWins(events, |events|);
    LastOfIsLast(events, PosOf, |events|, Offscreen);
    forall i | 0 <= i < |events| && events[i].CursorMoved? && (forall j :: i < j < |events| ==> !events[j].CursorMoved?)
      ensures LastOf(events, PosOf, |events|) == Some((events[i].x, events[i].y))
    {
      LastOfIsLast(events, PosOf, |events|, (events[i].x, events[i].y));
    }
  }
}
