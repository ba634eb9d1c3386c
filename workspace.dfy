/**
 * `Workspace` of `src/workspace.rs`: the ordered list of windows on a workspace, the
 * window focused last, and one layout engine per engine type. `is_focused` compares a
 * window with the OS foreground window, which is a parameter here. `do_layout` has no
 * effect in the source, so the `layout` flags that request it are not modelled.
 */
module Workspaces {

  import opened Wrappers
  import opened WorkspaceWindow
  import opened LayoutEngines
  import opened DwindleLayout
  import opened FocusLayout
  import opened FullLayout
  import opened GridLayout
  import opened Manager

  /** `WindowOrder` of `src/classes/window_order.rs`. */
  datatype WindowOrder = NewWindowsLast | NewWindowsFirst

  const DEFAULT_WINDOW_ORDER: WindowOrder := NewWindowsLast

  /** `iter().position(|w| w == x)`: the first index holding `x`. */
  function IndexOf(s: seq<Window>, x: Window): (r: Option<nat>)
    ensures r.None? <==> x !in s
    ensures r.Some? ==> r.value < |s| && s[r.value] == x
    ensures r.Some? ==> forall k :: 0 <= k < r.value ==> s[k] != x
  {
    if s == [] then None
    else if s[0] == x then Some(0)
    else match IndexOf(s[1..], x)
      case None => None
      case Some(k) => Some(k + 1)
  }

  /** `retain(|w| w != x)`: every element but `x`, in their order. */
  function Without(s: seq<Window>, x: Window): (r: seq<Window>)
    ensures x !in r
    ensures |r| <= |s|
    ensures forall y :: y in r ==> y in s
  {
    if s == [] then []
    else if s[0] == x then Without(s[1..], x)
    else [s[0]] + Without(s[1..], x)
  }

  /** Only `x` goes: every other window keeps its count. */
  lemma {:induction false} WithoutKeepsOthers(s: seq<Window>, x: Window, y: Window)
    requires y != x
    ensures multiset(Without(s, x))[y] == multiset(s)[y]
  {
    if s != [] {
      WithoutKeepsOthers(s[1..], x, y);
      assert s == [s[0]] + s[1..];
    }
  }

  /** Removal works piecewise, so the kept windows stay in their relative order. */
  lemma {:induction false} WithoutAppend(a: seq<Window>, b: seq<Window>, x: Window)
    ensures Without(a + b, x) == Without(a, x) + Without(b, x)
  {
    if a == [] {
      assert a + b == b;
    } else {
      assert (a + b)[1..] == a[1..] + b;
      WithoutAppend(a[1..], b, x);
    }
  }

  /** Removing an absent window leaves the list as it was. */
  lemma {:induction false} WithoutAbsent(s: seq<Window>, x: Window)
    requires x !in s
    ensures Without(s, x) == s
  {
    if s != [] {
      WithoutAbsent(s[1..], x);
    }
  }

  /**
   * The window that inherits the focus memory when `window` is removed: the one after it
   * in `managed`, wrapping round, when there are at least two; otherwise none.
   */
  function NextLastFocused(managed: seq<Window>, window: Window): (r: Option<Window>)
    ensures r.Some? ==> r.value in managed
    ensures r.None? <==> window !in managed || |managed| <= 1
  {
    match IndexOf(managed, window)
    case None => None
    case Some(i) => if |managed| > 1 then Some(managed[(i + 1) % |managed|]) else None
  }

  /** With distinct managed windows, the focus memory passes to another window. */
  lemma NextLastFocusedIsAnotherWindow(managed: seq<Window>, window: Window)
    requires forall a, b :: 0 <= a < b < |managed| ==> managed[a] != managed[b]
    requires NextLastFocused(managed, window).Some?
    ensures NextLastFocused(managed, window).value != window
  {
    var i := IndexOf(managed, window).value;
    var j := (i + 1) % |managed|;
    assert j != i;
  }

  /** The first focused window of a list. */
  function FirstFocused(windows: seq<Window>, foreground: int): (r: Option<Window>)
    ensures r.Some? ==> r.value in windows && r.value.IsFocused(foreground)
    ensures r.None? <==> forall k :: 0 <= k < |windows| ==> !windows[k].IsFocused(foreground)
  {
    if windows == [] then None
    else if windows[0].IsFocused(foreground) then Some(windows[0])
    else FirstFocused(windows[1..], foreground)
  }

  /** The derived `Debug` name of an engine type, as `layout_name` formats it. */
  function TypeName(t: LayoutEngineType): (s: string)
    ensures t == Dwindle <==> s == "Dwindle"
    ensures t == Focus <==> s == "Focus"
    ensures t == Full <==> s == "Full"
    ensures t == Grid <==> s == "Grid"
  {
    match t
    case Dwindle => "Dwindle"
    case Focus => "Focus"
    case Full => "Full"
    case Grid => "Grid"
  }

  /** Different engine types have different names. */
  lemma TypeNamesDistinct(a: LayoutEngineType, b: LayoutEngineType)
    requires a != b
    ensures TypeName(a) != TypeName(b)
  {
  }

  class Workspace {
    const name: string
    var windows: seq<Window>
    var managedWindows: seq<Window>
    var layoutEngine: LayoutEngineType
    var lastFocused: Option<Window>
    /** The `layout_engines` map holds exactly one engine per type: one field each. */
    const dwindle: DwindleLayoutEngine
    const focus: FocusLayoutEngine
    const full: FullLayoutEngine
    const grid: GridLayoutEngine

    /** `new`: empty lists, no window remembered, the default engine, a fresh engine of each type. */
    constructor(name: string)
      ensures this.name == name
      ensures windows == [] && managedWindows == [] && lastFocused == None
      ensures layoutEngine == DEFAULT_LAYOUT_ENGINE_TYPE
      ensures fresh(dwindle) && fresh(focus) && fresh(full) && fresh(grid)
      ensures dwindle.Valid() && dwindle.primaryPercentOffset == 0 && dwindle.numInPrimaryOffset == 0
      ensures focus.primaryPercentOffset == 0 && focus.numInPrimaryOffset == 0
      ensures full.lastFull == None
    {
      this.name := name;
      windows := [];
      managedWindows := [];
      layoutEngine := DEFAULT_LAYOUT_ENGINE_TYPE;
      lastFocused := None;
      dwindle := new DwindleLayoutEngine();
      focus := new FocusLayoutEngine();
      full := new FullLayoutEngine();
      grid := new GridLayoutEngine();
    }

    /** `layout_name`. */
    function LayoutName(): string
      reads this
    {
      TypeName(layoutEngine)
    }

    /** `focused_window`: the first window of the list that has the foreground. */
    function FocusedWindow(foreground: int): (r: Option<Window>)
      reads this
      ensures r.Some? ==> r.value in windows && r.value.handle == foreground
      ensures r.None? <==> forall k :: 0 <= k < |windows| ==> windows[k].handle != foreground
    {
      FirstFocused(windows, foreground)
    }

    /** `close_focus_window`: the handle the close request is sent to, if any. */
    method CloseFocusWindow(foreground: int) returns (closed: Option<int>)
      ensures closed.Some? <==> exists k :: 0 <= k < |windows| && windows[k].handle == foreground
      ensures closed.Some? ==> closed.value == foreground
    {
      var w := FocusedWindow(foreground);
      closed := if w.Some? then Some(w.value.handle) else None;
    }

    /**
     * `add_window`: puts the window at the end or at the front, and remembers it when
     * nothing was remembered or it is focused.
     */
    method AddWindow(window: Window, windowOrder: WindowOrder, foreground: int)
      modifies this
      ensures windowOrder == NewWindowsLast ==> windows == old(windows) + [window]
      ensures windowOrder == NewWindowsFirst ==> windows == [window] + old(windows)
      ensures lastFocused == if old(lastFocused).None? || window.IsFocused(foreground) then Some(window) else old(lastFocused)
      ensures managedWindows == old(managedWindows) && layoutEngine == old(layoutEngine)
    {
      if lastFocused.None? || window.IsFocused(foreground) {
        lastFocused := Some(window);
      }
      match windowOrder
      case NewWindowsLast => windows := windows + [window];
      case NewWindowsFirst => windows := [window] + windows;
    }

    /**
     * `remove_window`: drops every copy of the window; when it was the remembered one,
     * the memory passes on along `managed_windows`.
     */
    method RemoveWindow(window: Window)
      modifies this
      ensures windows == Without(old(windows), window)
      ensures old(lastFocused) == Some(window) ==> lastFocused == NextLastFocused(managedWindows, window)
      ensures old(lastFocused) != Some(window) ==> lastFocused == old(lastFocused)
      ensures managedWindows == old(managedWindows) && layoutEngine == old(layoutEngine)
    {
      var length := |managedWindows|;
      if lastFocused == Some(window) {
        var nextIndex: Option<nat> := match IndexOf(managedWindows, window)
          case None => None
          case Some(i) => if length > 1 then Some((i + 1) % length) else None;
        lastFocused := if nextIndex.Some? && nextIndex.value < |managedWindows| then Some(managedWindows[nextIndex.value]) else None;
      }
      windows := Without(windows, window);
    }

    /** `update_window`: only a foreground change moves the focus memory. */
    method UpdateWindow(window: Window, updateType: WindowUpdateType)
      modifies this
      ensures updateType == Foreground ==> lastFocused == Some(window)
      ensures updateType != Foreground ==> lastFocused == old(lastFocused)
      ensures windows == old(windows) && managedWindows == old(managedWindows) && layoutEngine == old(layoutEngine)
    {
      if updateType == Foreground {
        lastFocused := Some(window);
      }
    }

    /** `swap_windows`: exchanges the first occurrences of both windows when both are present. */
    method SwapWindows(left: Window, right: Window)
      modifies this
      ensures left in old(windows) && right in old(windows) ==>
                var l, r := IndexOf(old(windows), left).value, IndexOf(old(windows), right).value;
                windows == old(windows)[l := old(windows)[r]][r := old(windows)[l]]
      ensures left !in old(windows) || right !in old(windows) ==> windows == old(windows)
      ensures multiset(windows) == multiset(old(windows))
      ensures lastFocused == old(lastFocused) && managedWindows == old(managedWindows) && layoutEngine == old(layoutEngine)
    {
      var leftIdx := IndexOf(windows, left);
      var rightIdx := IndexOf(windows, right);
      if leftIdx.Some? && rightIdx.Some? {
        SwapIsPermutation(windows, leftIdx.value, rightIdx.value);
        windows := windows[leftIdx.value := windows[rightIdx.value]][rightIdx.value := windows[leftIdx.value]];
      }
    }

    /** `reset_layout`: resets the primary area of the current engine only. */
    method ResetLayout()
      modifies dwindle, focus
      ensures layoutEngine == Dwindle ==> dwindle.primaryPercentOffset == 0
      ensures layoutEngine != Dwindle ==> dwindle.primaryPercentOffset == old(dwindle.primaryPercentOffset)
      ensures layoutEngine == Focus ==> focus.primaryPercentOffset == 0
      ensures layoutEngine != Focus ==> focus.primaryPercentOffset == old(focus.primaryPercentOffset)
      ensures dwindle.numInPrimaryOffset == old(dwindle.numInPrimaryOffset)
      ensures focus.numInPrimaryOffset == old(focus.numInPrimaryOffset)
    {
      match layoutEngine
      case Dwindle => dwindle.ResetPrimaryArea();
      case Focus => focus.ResetPrimaryArea();
      case Full => full.ResetPrimaryArea();
      case Grid => grid.ResetPrimaryArea();
    }
  }

  /** Exchanging two positions keeps the same windows. */
  lemma SwapIsPermutation(s: seq<Window>, i: nat, j: nat)
    requires i < |s| && j < |s|
    ensures multiset(s[i := s[j]][j := s[i]]) == multiset(s)
  {
  }
}
