/**
 * `src/windows_defer_pos_handle.rs`: a batch of window moves. Each deferred window is
 * queued by its target state and, when its position changes, a `DeferWindowPos` call
 * is issued; dropping the batch restores the queued show states and ends the batch.
 *
 * The Win32 calls the handle makes are recorded, in order, in `effects`; what the OS
 * reports about a window (its rectangle, its frame bounds, whether it is minimized or
 * maximized) is an argument.
 */
module DeferPos {

  import opened Geometry
  import opened Locations
  import opened NativeWindow
  import opened TrackedWindow

  const SWP_NOSIZE: bv32 := 0x1
  const SWP_NOMOVE: bv32 := 0x2
  const SWP_NOZORDER: bv32 := 0x4
  const SWP_NOACTIVATE: bv32 := 0x10
  const SWP_FRAMECHANGED: bv32 := 0x20
  const SWP_NOCOPYBITS: bv32 := 0x100
  const SWP_NOOWNERZORDER: bv32 := 0x200

  /** The flags every deferred move carries. */
  const BASE_FLAGS: bv32 := SWP_FRAMECHANGED | SWP_NOACTIVATE | SWP_NOCOPYBITS | SWP_NOZORDER | SWP_NOOWNERZORDER

  const SW_SHOWMAXIMIZED: int := 3
  const SW_SHOWNOACTIVATE: int := 4
  const SW_MINIMIZE: int := 6

  /** What `GetWindowRect`, `DwmGetWindowAttribute(DWMWA_EXTENDED_FRAME_BOUNDS)`, `IsIconic` and `IsZoomed` report. */
  datatype WindowObservation = WindowObservation(windowRect: Rect, frameBounds: Rect, iconic: bool, zoomed: bool)

  /** A Win32 call the handle makes. */
  datatype Effect =
    | DeferWindowPos(handle: int, x: int, y: int, width: int, height: int, flags: bv32)
    | ShowWindow(handle: int, command: int)
    | EndDeferWindowPos

  /** Minimized and maximized targets keep their position and size; a normal target is moved. */
  function FlagsFor(st: WindowState): (f: bv32)
    ensures f & BASE_FLAGS == BASE_FLAGS
    ensures st == Normal <==> f & (SWP_NOMOVE | SWP_NOSIZE) == 0
    ensures st != Normal ==> f & (SWP_NOMOVE | SWP_NOSIZE) == SWP_NOMOVE | SWP_NOSIZE
  {
    match st
    case Normal => BASE_FLAGS
    case _ => BASE_FLAGS | SWP_NOMOVE | SWP_NOSIZE
  }

  /** The requested location widened by the window's invisible border. */
  function Target(location: WindowLocation, offset: Rectangle): (t: Rectangle)
    ensures t.x - offset.x == location.x && t.y - offset.y == location.y
    ensures t.width - offset.width == location.width && t.height - offset.height == location.height
  {
    Rectangle(location.x + offset.x, location.y + offset.y, location.width + offset.width, location.height + offset.height)
  }

  /** The window is not already where the target puts it. */
  predicate Differs(current: WindowLocation, t: Rectangle)
  {
    current.x != t.x || current.y != t.y || current.width != t.width || current.height != t.height
  }

  /** The calls `defer_window_pos` makes, given how the window reads the current location. */
  function DeferEffectsWith(handle: int, location: WindowLocation, obs: WindowObservation, current: WindowLocation): (es: seq<Effect>)
    ensures |es| <= 1
    ensures es != [] <==> Differs(current, Target(location, Offset(obs.windowRect, obs.frameBounds)))
    ensures es != [] ==> es[0].DeferWindowPos? && es[0].handle == handle && es[0].flags == FlagsFor(location.state)
  {
    var t := Target(location, Offset(obs.windowRect, obs.frameBounds));
    if Differs(current, t) then [DeferWindowPos(handle, t.x, t.y, t.width, t.height, FlagsFor(location.state))] else []
  }

  /** `defer_window_pos` as written: the current location comes from `location()`. */
  function DeferEffects(handle: int, location: WindowLocation, obs: WindowObservation): seq<Effect>
  {
    DeferEffectsWith(handle, location, obs, Location(obs.windowRect, obs.iconic, obs.zoomed))
  }

  /** `defer_window_pos` reading the current location with `LocationCorrected`. */
  function DeferEffectsCorrected(handle: int, location: WindowLocation, obs: WindowObservation): seq<Effect>
  {
    DeferEffectsWith(handle, location, obs, LocationCorrected(obs.windowRect, obs.iconic, obs.zoomed))
  }

  /** The queue a window joins for a target state. */
  function Queued(ws: seq<WindowsWindow>, w: WindowsWindow, joins: bool): seq<WindowsWindow>
  {
    if joins then ws + [w] else ws
  }

  /**
   * What `IsIconic` and `IsZoomed` report for each handle while `drop` runs. The OS
   * answers afresh for every window `drop` reaches, so the calls `drop` has already
   * made count: after `SW_MINIMIZE` a window is minimized and not maximized, after
   * `SW_SHOWMAXIMIZED` it is maximized and not minimized.
   */
  datatype ShowState = ShowState(minimized: set<int>, maximized: set<int>)

  function AfterMinimize(s: ShowState, h: int): ShowState
  {
    ShowState(s.minimized + {h}, s.maximized - {h})
  }

  function AfterMaximize(s: ShowState, h: int): ShowState
  {
    ShowState(s.minimized - {h}, s.maximized + {h})
  }

  /** The handles of the queued windows. */
  function Handles(ws: seq<WindowsWindow>): set<int>
  {
    set k | 0 <= k < |ws| :: ws[k].handle
  }

  lemma HandlesOfSnoc(ws: seq<WindowsWindow>)
    requires ws != []
    ensures Handles(ws) == Handles(ws[..|ws| - 1]) + {ws[|ws| - 1].handle}
  {
    var init := ws[..|ws| - 1];
    forall h | h in Handles(ws)
      ensures h in Handles(init) + {ws[|ws| - 1].handle}
    {
      var k :| 0 <= k < |ws| && ws[k].handle == h;
      if k < |ws| - 1 {
        assert init[k] == ws[k];
      }
    }
    forall h | h in Handles(init)
      ensures h in Handles(ws)
    {
      var k :| 0 <= k < |init| && init[k].handle == h;
      assert ws[k] == init[k];
    }
  }

  /**
   * The first loop of `drop`: each queued window that the OS does not report minimized
   * when the loop reaches it gets `SW_MINIMIZE`. Returns the calls and what the OS
   * reports afterwards: every queued window minimized, and no longer maximized unless it
   * was minimized already.
   */
  function MinimizePass(ws: seq<WindowsWindow>, s: ShowState): (r: (seq<Effect>, ShowState))
    ensures |r.0| <= |ws|
    ensures r.1.minimized == s.minimized + Handles(ws)
    ensures r.1.maximized == s.maximized - (Handles(ws) - s.minimized)
  {
    if ws == [] then ([], s)
    else
      var (calls, s1) := MinimizePass(ws[..|ws| - 1], s);
      var h := ws[|ws| - 1].handle;
      HandlesOfSnoc(ws);
      if h in s1.minimized then (calls, s1) else (calls + [ShowWindow(h, SW_MINIMIZE)], AfterMinimize(s1, h))
  }

  /**
   * The second loop of `drop`: each queued window that the OS does not report maximized
   * when the loop reaches it gets `SW_SHOWMAXIMIZED`. Afterwards every queued window is
   * maximized, and no longer minimized unless it was maximized already.
   */
  function MaximizePass(ws: seq<WindowsWindow>, s: ShowState): (r: (seq<Effect>, ShowState))
    ensures |r.0| <= |ws|
    ensures r.1.maximized == s.maximized + Handles(ws)
    ensures r.1.minimized == s.minimized - (Handles(ws) - s.maximized)
  {
    if ws == [] then ([], s)
    else
      var (calls, s1) := MaximizePass(ws[..|ws| - 1], s);
      var h := ws[|ws| - 1].handle;
      HandlesOfSnoc(ws);
      if h in s1.maximized then (calls, s1) else (calls + [ShowWindow(h, SW_SHOWMAXIMIZED)], AfterMaximize(s1, h))
  }

  /** The `SW_SHOWNOACTIVATE` calls of `drop`: one per queued window. */
  function NormalEffects(ws: seq<WindowsWindow>): (es: seq<Effect>)
    ensures |es| == |ws|
  {
    if ws == [] then []
    else NormalEffects(ws[..|ws| - 1]) + [ShowWindow(ws[|ws| - 1].handle, SW_SHOWNOACTIVATE)]
  }

  /** Every call `drop` makes, given what the OS reports when it starts. */
  function DropEffects(toMinimize: seq<WindowsWindow>, toMaximize: seq<WindowsWindow>, toNormal: seq<WindowsWindow>,
                       reported: ShowState): seq<Effect>
  {
    var (minimizeCalls, afterMinimize) := MinimizePass(toMinimize, reported);
    minimizeCalls + MaximizePass(toMaximize, afterMinimize).0 + NormalEffects(toNormal) + [EndDeferWindowPos]
  }

  class WindowsDeferPosHandle {
    var toMinimize: seq<WindowsWindow>
    var toMaximize: seq<WindowsWindow>
    var toNormal: seq<WindowsWindow>
    /** The Win32 calls made so far, oldest first. */
    var effects: seq<Effect>

    constructor()
      ensures toMinimize == [] && toMaximize == [] && toNormal == [] && effects == []
    {
      toMinimize := [];
      toMaximize := [];
      toNormal := [];
      effects := [];
    }

    /** `defer_window_pos`: queue the window by its target state, then move it if it is not there yet. */
    method DeferWindowPosition(window: WindowsWindow, location: WindowLocation, obs: WindowObservation)
      modifies this
      ensures toMaximize == Queued(old(toMaximize), window, location.state == Maximized)
      ensures toMinimize == Queued(old(toMinimize), window, location.state == Minimized)
      ensures toNormal == Queued(old(toNormal), window, location.state == Normal)
      ensures effects == old(effects) + DeferEffects(window.handle, location, obs)
    {
      var flags := BASE_FLAGS;
      match location.state {
        case Maximized =>
          toMaximize := toMaximize + [window];
          flags := flags | SWP_NOMOVE | SWP_NOSIZE;
        case Minimized =>
          toMinimize := toMinimize + [window];
          flags := flags | SWP_NOMOVE | SWP_NOSIZE;
        case Normal =>
          toNormal := toNormal + [window];
      }
      var offset := Offset(obs.windowRect, obs.frameBounds);
      var x := location.x + offset.x;
      var y := location.y + offset.y;
      var width := location.width + offset.width;
      var height := location.height + offset.height;
      var oldLocation := Location(obs.windowRect, obs.iconic, obs.zoomed);
      if oldLocation.x != x || oldLocation.y != y || oldLocation.width != width || oldLocation.height != height {
        effects := effects + [DeferWindowPos(window.handle, x, y, width, height, flags)];
      }
    }

    /**
     * `drop`: minimize, then maximize, then show normally the queued windows, each queue
     * in order, skipping a window the OS reports already in its state when it is reached;
     * then end the batch. What the OS reports when `drop` starts is an argument.
     */
    method Drop(reported: ShowState)
      modifies this
      ensures effects == old(effects) + DropEffects(toMinimize, toMaximize, toNormal, reported)
      ensures toMinimize == old(toMinimize) && toMaximize == old(toMaximize) && toNormal == old(toNormal)
    {
      var minimizeCalls, afterMinimize := MinimizeCalls(toMinimize, reported);
      var maximizeCalls, _ := MaximizeCalls(toMaximize, afterMinimize);
      var normalCalls := NormalCalls(toNormal);
      effects := effects + minimizeCalls + maximizeCalls + normalCalls + [EndDeferWindowPos];
    }
  }

  /** The first loop of `drop`, asking the OS about each window as it is reached. */
  method MinimizeCalls(ws: seq<WindowsWindow>, reported: ShowState) returns (calls: seq<Effect>, after: ShowState)
    ensures (calls, after) == MinimizePass(ws, reported)
  {
    calls := [];
    after := reported;
    var i := 0;
    while i < |ws|
      invariant 0 <= i <= |ws|
      invariant (calls, after) == MinimizePass(ws[..i], reported)
    {
      assert ws[..i + 1][..i] == ws[..i];
      if ws[i].handle !in after.minimized {
        calls := calls + [ShowWindow(ws[i].handle, SW_MINIMIZE)];
        after := AfterMinimize(after, ws[i].handle);
      }
      i := i + 1;
    }
    assert ws[..i] == ws;
  }

  /** The second loop of `drop`, asking the OS about each window as it is reached. */
  method MaximizeCalls(ws: seq<WindowsWindow>, reported: ShowState) returns (calls: seq<Effect>, after: ShowState)
    ensures (calls, after) == MaximizePass(ws, reported)
  {
    calls := [];
    after := reported;
    var i := 0;
    while i < |ws|
      invariant 0 <= i <= |ws|
      invariant (calls, after) == MaximizePass(ws[..i], reported)
    {
      assert ws[..i + 1][..i] == ws[..i];
      if ws[i].handle !in after.maximized {
        calls := calls + [ShowWindow(ws[i].handle, SW_SHOWMAXIMIZED)];
        after := AfterMaximize(after, ws[i].handle);
      }
      i := i + 1;
    }
    assert ws[..i] == ws;
  }

  /** The third loop of `drop`: show each queued window normally, without activating it. */
  method NormalCalls(ws: seq<WindowsWindow>) returns (calls: seq<Effect>)
    ensures calls == NormalEffects(ws)
  {
    calls := [];
    var i := 0;
    while i < |ws|
      invariant 0 <= i <= |ws|
      invariant calls == NormalEffects(ws[..i])
    {
      calls := calls + [ShowWindow(ws[i].handle, SW_SHOWNOACTIVATE)];
      assert ws[..i + 1][..i] == ws[..i];
      i := i + 1;
    }
    assert ws[..i] == ws;
  }

  /** A deferred window joins exactly one queue, the one of its target state. */
  lemma JoinsExactlyOneQueue(mi: seq<WindowsWindow>, ma: seq<WindowsWindow>, no: seq<WindowsWindow>, w: WindowsWindow, st: WindowState)
    ensures |Queued(mi, w, st == Minimized)| + |Queued(ma, w, st == Maximized)| + |Queued(no, w, st == Normal)|
            == |mi| + |ma| + |no| + 1
  {
  }

  /**
   * The minimize calls are exactly: `SW_MINIMIZE` for each queued window that was not
   * minimized when `drop` began, and each such window gets only one, however often it
   * is queued.
   */
  lemma {:induction false} MinimizePassExact(ws: seq<WindowsWindow>, s: ShowState, e: Effect)
    ensures e in MinimizePass(ws, s).0 <==>
              e.ShowWindow? && e.command == SW_MINIMIZE && e.handle in Handles(ws) - s.minimized
  {
    if ws != [] {
      var init := ws[..|ws| - 1];
      MinimizePassExact(init, s, e);
      HandlesOfSnoc(ws);
    }
  }

  lemma {:induction false} MinimizePassOncePerWindow(ws: seq<WindowsWindow>, s: ShowState, i: int, j: int)
    requires 0 <= i < j < |MinimizePass(ws, s).0|
    ensures MinimizePass(ws, s).0[i] != MinimizePass(ws, s).0[j]
  {
    var init := ws[..|ws| - 1];
    var (calls, s1) := MinimizePass(init, s);
    if j < |calls| {
      MinimizePassOncePerWindow(init, s, i, j);
    } else {
      MinimizePassExact(init, s, calls[i]);
    }
  }

  /**
   * The maximize calls are exactly: `SW_SHOWMAXIMIZED` for each queued window not
   * maximized when the loop began, once each.
   */
  lemma {:induction false} MaximizePassExact(ws: seq<WindowsWindow>, s: ShowState, e: Effect)
    ensures e in MaximizePass(ws, s).0 <==>
              e.ShowWindow? && e.command == SW_SHOWMAXIMIZED && e.handle in Handles(ws) - s.maximized
  {
    if ws != [] {
      var init := ws[..|ws| - 1];
      MaximizePassExact(init, s, e);
      HandlesOfSnoc(ws);
    }
  }

  lemma {:induction false} MaximizePassOncePerWindow(ws: seq<WindowsWindow>, s: ShowState, i: int, j: int)
    requires 0 <= i < j < |MaximizePass(ws, s).0|
    ensures MaximizePass(ws, s).0[i] != MaximizePass(ws, s).0[j]
  {
    var init := ws[..|ws| - 1];
    var (calls, s1) := MaximizePass(init, s);
    if j < |calls| {
      MaximizePassOncePerWindow(init, s, i, j);
    } else {
      MaximizePassExact(init, s, calls[i]);
    }
  }

  /** A window queued twice for minimizing is minimized once: the second time the OS reports it minimized. */
  lemma QueuedTwiceMinimizedOnce(w: WindowsWindow, s: ShowState)
    requires w.handle !in s.minimized
    ensures MinimizePass([w, w], s).0 == [ShowWindow(w.handle, SW_MINIMIZE)]
  {
    assert [w, w][..1] == [w];
    assert [w][..0] == [];
  }

  /**
   * A maximized window queued both to be minimized and to be maximized is minimized and
   * then maximized again, since minimizing it ends its maximized state.
   */
  lemma MinimizedThenMaximized(w: WindowsWindow)
    ensures DropEffects([w], [w], [], ShowState({}, {w.handle}))
            == [ShowWindow(w.handle, SW_MINIMIZE), ShowWindow(w.handle, SW_SHOWMAXIMIZED), EndDeferWindowPos]
  {
    assert [w][..0] == [];
  }

  /** Every window queued for the normal state is shown without activation, in queue order. */
  lemma {:induction false} NormalEffectsInOrder(ws: seq<WindowsWindow>, k: int)
    requires 0 <= k < |ws|
    ensures NormalEffects(ws)[k] == ShowWindow(ws[k].handle, SW_SHOWNOACTIVATE)
  {
    if k < |ws| - 1 {
      NormalEffectsInOrder(ws[..|ws| - 1], k);
    }
  }

  /** A window with no invisible border that is already exactly at its target, read correctly, is not moved again. */
  lemma NoRedundantMoveCorrected(handle: int, obs: WindowObservation)
    requires obs.windowRect == obs.frameBounds
    ensures DeferEffectsCorrected(handle, LocationCorrected(obs.windowRect, obs.iconic, obs.zoomed), obs) == []
  {
  }

  /**
   * As written, the same window is moved again whenever its right edge differs from its
   * top edge, because the current y is read from the right edge: a window at
   * (0, 0)-(800, 600) gets a `DeferWindowPos` to where it already is.
   */
  lemma RedundantMoveAsWritten(handle: int, obs: WindowObservation)
    requires obs.windowRect == obs.frameBounds
    ensures DeferEffects(handle, LocationCorrected(obs.windowRect, obs.iconic, obs.zoomed), obs) != []
            <==> obs.windowRect.right != obs.windowRect.top
  {
  }

  /** A window at (0, 0)-(800, 600), asked to stay there, is moved anyway. */
  lemma RedundantMoveExample(obs: WindowObservation)
    requires obs == WindowObservation(Rect(0, 0, 800, 600), Rect(0, 0, 800, 600), false, false)
    ensures DeferEffects(7, WindowLocation(0, 0, 800, 600, Normal), obs) != []
  {
    RedundantMoveAsWritten(7, obs);
  }
}
