/**
 * `src/layout_engines/full_layout_engine.rs`: every window fills the space; the
 * focused one is shown normally and the others minimized. When no window is
 * focused, the last one shown stays shown. `is_focused` compares with the foreground
 * window, which is a parameter here.
 */
module FullLayout {

  import opened Wrappers
  import opened Locations
  import opened TrackedWindow

  /** No window of the list is the foreground window. */
  predicate NoFocus(windows: seq<WindowsWindow>, foreground: int)
  {
    forall k :: 0 <= k < |windows| ==> !windows[k].IsFocused(foreground)
  }

  /** `force_normal`: the remembered window while nothing is focused, or the focused window. */
  predicate ForceNormal(w: WindowsWindow, noFocus: bool, lastFull: Option<int>, foreground: int)
  {
    (noFocus && Some(w.handle) == lastFull) || w.IsFocused(foreground)
  }

  /** `get_desired_state`. */
  function DesiredState(w: WindowsWindow, forceNormal: bool, foreground: int): (st: WindowState)
    ensures st == Normal <==> w.IsFocused(foreground) || forceNormal
    ensures st != Maximized
  {
    if w.IsFocused(foreground) || forceNormal then Normal else Minimized
  }

  /** The layout `calc_layout` returns, given `last_full` before the call. */
  function FullLayout(windows: seq<WindowsWindow>, foreground: int, lastFull: Option<int>, spaceWidth: int, spaceHeight: int)
    : (r: seq<WindowLocation>)
    ensures |r| == |windows|
  {
    var noFocus := NoFocus(windows, foreground);
    seq(|windows|, k requires 0 <= k < |windows| =>
      WindowLocation(0, 0, spaceWidth, spaceHeight,
        DesiredState(windows[k], ForceNormal(windows[k], noFocus, lastFull, foreground), foreground)))
  }

  /** `last_full` after the call: the foreground window when one of the list is focused, else unchanged. */
  function LastFullAfter(windows: seq<WindowsWindow>, foreground: int, lastFull: Option<int>): Option<int>
  {
    if NoFocus(windows, foreground) then lastFull else Some(foreground)
  }

  class FullLayoutEngine {
    var lastFull: Option<int>
    const name: string := "full"

    constructor()
      ensures lastFull == None && name == "full"
    {
      lastFull := None;
    }

    /** `name`: the engine reports `full` throughout its life. */
    function Name(): (n: string)
      reads this
      ensures n == "full"
    {
      name
    }

    /** The primary-area mutators of the trait have nothing to change in this engine. */
    method ShrinkPrimaryArea() {}
    method ExpandPrimaryArea() {}
    method ResetPrimaryArea() {}
    method IncrementNumInPrimary() {}
    method DecrementNumInPrimary() {}

    /** `calc_layout`: records the window it keeps shown in `last_full`. */
    method CalcLayout(windows: seq<WindowsWindow>, foreground: int, spaceWidth: int, spaceHeight: int)
      returns (list: seq<WindowLocation>)
      modifies this
      ensures list == FullLayout(windows, foreground, old(lastFull), spaceWidth, spaceHeight)
      ensures lastFull == LastFullAfter(windows, foreground, old(lastFull))
    {
      list := [];
      if |windows| == 0 {
        return;
      }
      var noFocus := true;
      var j := 0;
      while j < |windows|
        invariant 0 <= j <= |windows|
        invariant noFocus <==> forall k :: 0 <= k < j ==> !windows[k].IsFocused(foreground)
      {
        if windows[j].IsFocused(foreground) {
          noFocus := false;
        }
        j := j + 1;
      }

      var i := 0;
      while i < |windows|
        invariant 0 <= i <= |windows|
        invariant |list| == i
        invariant forall k :: 0 <= k < i ==> list[k] == FullLayout(windows, foreground, old(lastFull), spaceWidth, spaceHeight)[k]
        invariant lastFull == (if forall k :: 0 <= k < i ==> !windows[k].IsFocused(foreground) then old(lastFull) else Some(foreground))
      {
        var window := windows[i];
        var forceNormal := (noFocus && Some(window.handle) == lastFull) || window.IsFocused(foreground);
        if forceNormal {
          lastFull := Some(window.handle);
        }
        list := list + [WindowLocation(0, 0, spaceWidth, spaceHeight, DesiredState(window, forceNormal, foreground))];
        i := i + 1;
      }
    }
  }

  /** Every window fills the whole space. */
  lemma FillsSpace(windows: seq<WindowsWindow>, foreground: int, lastFull: Option<int>, spaceWidth: int, spaceHeight: int, k: int)
    requires 0 <= k < |windows|
    ensures var l := FullLayout(windows, foreground, lastFull, spaceWidth, spaceHeight)[k];
            l.x == 0 && l.y == 0 && l.width == spaceWidth && l.height == spaceHeight
  {
  }

  /**
   * A window is shown normally exactly when it is focused, or when nothing in the list
   * is focused and it is the one shown last time; every other window is minimized.
   */
  lemma ShownIff(windows: seq<WindowsWindow>, foreground: int, lastFull: Option<int>, spaceWidth: int, spaceHeight: int, k: int)
    requires 0 <= k < |windows|
    ensures var st := FullLayout(windows, foreground, lastFull, spaceWidth, spaceHeight)[k].state;
            && (st == Normal <==>
                  windows[k].handle == foreground
                  || (NoFocus(windows, foreground) && lastFull == Some(windows[k].handle)))
            && (st != Normal ==> st == Minimized)
  {
  }

  /** With distinct handles, at most one window is shown. */
  lemma AtMostOneShown(windows: seq<WindowsWindow>, foreground: int, lastFull: Option<int>, spaceWidth: int, spaceHeight: int, i: int, j: int)
    requires forall a, b :: 0 <= a < b < |windows| ==> windows[a].handle != windows[b].handle
    requires 0 <= i < |windows| && 0 <= j < |windows|
    requires FullLayout(windows, foreground, lastFull, spaceWidth, spaceHeight)[i].state == Normal
    requires FullLayout(windows, foreground, lastFull, spaceWidth, spaceHeight)[j].state == Normal
    ensures i == j
  {
    ShownIff(windows, foreground, lastFull, spaceWidth, spaceHeight, i);
    ShownIff(windows, foreground, lastFull, spaceWidth, spaceHeight, j);
  }

  /** Laying out the same windows again with the same foreground gives the same result and keeps `last_full`. */
  lemma LayoutIsStable(windows: seq<WindowsWindow>, foreground: int, lastFull: Option<int>, spaceWidth: int, spaceHeight: int)
    ensures var lf := LastFullAfter(windows, foreground, lastFull);
            && FullLayout(windows, foreground, lf, spaceWidth, spaceHeight) == FullLayout(windows, foreground, lastFull, spaceWidth, spaceHeight)
            && LastFullAfter(windows, foreground, lf) == lf
  {
  }

  /**
   * When focus leaves the list (for the taskbar, say), the window that was focused
   * stays shown on the next layout.
   */
  lemma LastFocusedStaysShown(windows: seq<WindowsWindow>, focused: int, elsewhere: int, lastFull: Option<int>, spaceWidth: int, spaceHeight: int, k: int)
    requires 0 <= k < |windows| && windows[k].handle == focused
    requires NoFocus(windows, elsewhere)
    ensures var lf := LastFullAfter(windows, focused, lastFull);
            FullLayout(windows, elsewhere, lf, spaceWidth, spaceHeight)[k].state == Normal
  {
    assert !NoFocus(windows, focused);
  }

  /**
   * With nothing focused and no remembered window among the list (after a restart, say),
   * every window is minimized.
   */
  lemma NothingShownWithoutFocusOrMemory(windows: seq<WindowsWindow>, foreground: int, lastFull: Option<int>, spaceWidth: int, spaceHeight: int, k: int)
    requires NoFocus(windows, foreground)
    requires forall j :: 0 <= j < |windows| ==> lastFull != Some(windows[j].handle)
    requires 0 <= k < |windows|
    ensures FullLayout(windows, foreground, lastFull, spaceWidth, spaceHeight)[k].state == Minimized
  {
  }
}
