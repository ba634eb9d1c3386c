/**
 * `WindowsManager` of `src/windows_manager.rs`: the registry of tracked windows keyed by
 * handle, the floating set, and the window being dragged. The OS hooks feed three
 * channels (window events, key chords, mouse releases); here they are FIFO queues held
 * by the manager, each handler consuming at most one item. What the OS reports about a
 * handle (its process, its styles, the foreground window) is passed in, and the calls
 * the manager makes into the OS are appended to an effect log.
 */
module Manager {

  import opened Wrappers
  import opened Win32Helpers
  import opened NativeWindow
  import opened TrackedWindow
  import opened LayoutEngines
  import K = Keys

  // Window event codes the hooks subscribe to.
  const EVENT_SYSTEM_FOREGROUND: int := 0x0003
  const EVENT_SYSTEM_MOVESIZESTART: int := 0x000A
  const EVENT_SYSTEM_MOVESIZEEND: int := 0x000B
  const EVENT_SYSTEM_MINIMIZESTART: int := 0x0016
  const EVENT_SYSTEM_MINIMIZEEND: int := 0x0017
  const EVENT_OBJECT_DESTROY: int := 0x8001
  const EVENT_OBJECT_SHOW: int := 0x8002
  const EVENT_OBJECT_LOCATIONCHANGE: int := 0x800B
  const EVENT_OBJECT_CLOAKED: int := 0x8017
  const EVENT_OBJECT_UNCLOAKED: int := 0x8018

  const WM_LBUTTONUP: int := 0x0202

  /** `WindowUpdateType`. */
  datatype WindowUpdateType = Show | Hide | MinimizeStart | MinimizeEnd | Foreground | MoveStart | MoveEnd | Move

  /** `Action` of `src/action.rs`, the actions `handle_keys` dispatches on. */
  datatype Action = Stop | Start

  /** `Action` of `src/classes/action.rs`, the actions key bindings name. */
  datatype BindingAction = ToggleFocusedWindowTiling

  /** The `Display` text of a binding action. */
  function BindingActionText(a: BindingAction): (s: string)
    ensures a == ToggleFocusedWindowTiling <==> s == "Toggle Focused Window Tiling"
  {
    match a
    case ToggleFocusedWindowTiling => "Toggle Focused Window Tiling"
  }

  /** `default_key_bindings`: Alt+T toggles tiling of the focused window. */
  function DefaultKeyBindings(): (m: map<BindingAction, K.Keys>)
    ensures m.Keys == {ToggleFocusedWindowTiling}
    ensures m[ToggleFocusedWindowTiling].alt && !m[ToggleFocusedWindowTiling].ctrl
    ensures !m[ToggleFocusedWindowTiling].shift && !m[ToggleFocusedWindowTiling].win
    ensures m[ToggleFocusedWindowTiling].key == K.T
  {
    map[ToggleFocusedWindowTiling := K.DEFAULT_TOGGLE_KEYS]
  }

  /** A call the manager makes into the OS. */
  datatype ManagerEffect = BringToTop(handle: int)

  /** The registry part of the manager's state. */
  datatype Registry = Registry(
    windows: map<int, WindowsWindow>,
    floating: map<int, bool>,
    mouseMoveWindow: Option<int>,
    layoutEngineType: LayoutEngineType)

  /** Every window is stored under its own handle. */
  predicate KeysMatchHandles(r: Registry)
  {
    forall h :: h in r.windows ==> r.windows[h].handle == h
  }

  /** Only the window recorded as being dragged may carry the drag flag. */
  predicate MoveConsistent(r: Registry)
  {
    forall h :: h in r.windows && r.windows[h].isMouseMoving ==> r.mouseMoveWindow == Some(h)
  }

  predicate Valid(r: Registry)
  {
    KeysMatchHandles(r) && MoveConsistent(r)
  }

  /** At most one tracked window is being dragged. */
  lemma AtMostOneMoving(r: Registry, a: int, b: int)
    requires MoveConsistent(r)
    requires a in r.windows && r.windows[a].isMouseMoving
    requires b in r.windows && r.windows[b].isMouseMoving
    ensures a == b
  {
  }

  // ---------------------------------------------------------------- registration

  /** `register_window`, given what the OS reports about the handle's process. */
  function Register(r: Registry, hwnd: int, q: ProcessQuery): Registry
  {
    if hwnd in r.windows then r
    else
      var created := New(hwnd, q);
      if created.Ok? then r.(windows := r.windows[hwnd := created.value]) else r
  }

  /** `unregister_window`. */
  function Unregister(r: Registry, hwnd: int): Registry
  {
    if hwnd !in r.windows then r else r.(windows := r.windows - {hwnd})
  }

  /** `update_window`: shows register unknown windows, hides drop windows not hidden by the manager. */
  function Update(r: Registry, hwnd: int, updateType: WindowUpdateType, q: ProcessQuery): Registry
  {
    if updateType == Show && hwnd in r.windows then r
    else if updateType == Show then Register(r, hwnd, q)
    else if updateType == Hide && hwnd in r.windows then
      if !r.windows[hwnd].didManualHide then Unregister(r, hwnd) else r
    else r
  }

  /** Registering a tracked handle, or one whose process cannot be opened, changes nothing. */
  lemma RegisterIgnoresTrackedOrFailed(r: Registry, hwnd: int, q: ProcessQuery)
    ensures hwnd in r.windows || New(hwnd, q).Err? ==> Register(r, hwnd, q) == r
  {
  }

  /**
   * Otherwise registering adds exactly that handle, with a fresh window, and leaves every
   * tracked window and the rest of the state as it was.
   */
  lemma RegisterAddsOnlyThatHandle(r: Registry, hwnd: int, q: ProcessQuery)
    ensures var r' := Register(r, hwnd, q);
            && (hwnd !in r.windows && New(hwnd, q).Ok? ==>
                  r'.windows.Keys == r.windows.Keys + {hwnd} && r'.windows[hwnd] == New(hwnd, q).value)
            && (forall h :: h in r.windows ==> h in r'.windows && r'.windows[h] == r.windows[h])
            && r'.floating == r.floating && r'.mouseMoveWindow == r.mouseMoveWindow
  {
  }

  /** A registered window is stored under its handle and is not being dragged. */
  lemma RegisterKeepsValid(r: Registry, hwnd: int, q: ProcessQuery)
    requires Valid(r)
    ensures Valid(Register(r, hwnd, q))
  {
  }

  /** Unregistering removes that handle only; an unknown handle changes nothing. */
  lemma UnregisterRemovesOnlyThatHandle(r: Registry, hwnd: int)
    ensures var r' := Unregister(r, hwnd);
            && r'.windows.Keys == r.windows.Keys - {hwnd}
            && (forall h :: h in r'.windows ==> r'.windows[h] == r.windows[h])
            && (hwnd !in r.windows ==> r' == r)
            && r'.floating == r.floating && r'.mouseMoveWindow == r.mouseMoveWindow
  {
  }

  /** What each kind of update does to the registry. */
  lemma UpdateByKind(r: Registry, hwnd: int, updateType: WindowUpdateType, q: ProcessQuery)
    ensures updateType == Show && hwnd !in r.windows ==> Update(r, hwnd, updateType, q) == Register(r, hwnd, q)
    ensures updateType == Hide && hwnd in r.windows ==>
              (hwnd in Update(r, hwnd, updateType, q).windows <==> r.windows[hwnd].didManualHide)
    ensures updateType == Hide ==> Update(r, hwnd, updateType, q).windows.Keys <= r.windows.Keys
    ensures updateType != Show && updateType != Hide ==> Update(r, hwnd, updateType, q) == r
    ensures updateType == Show && hwnd in r.windows ==> Update(r, hwnd, updateType, q) == r
  {
  }

  // ---------------------------------------------------------------- dragging

  /** `handle_window_move_start`: the drag flag moves from the recorded window to `handle`. */
  function HandleWindowMoveStart(r: Registry, handle: int): Registry
  {
    var cleared :=
      if r.mouseMoveWindow.Some? && r.mouseMoveWindow.value in r.windows then
        r.windows[r.mouseMoveWindow.value := r.windows[r.mouseMoveWindow.value].(isMouseMoving := false)]
      else r.windows;
    var marked :=
      if handle in cleared then cleared[handle := cleared[handle].(isMouseMoving := true)] else cleared;
    r.(windows := marked, mouseMoveWindow := Some(handle))
  }

  /** `handle_window_move_end`: clears the recorded window's flag and forgets it. */
  function HandleWindowMoveEnd(r: Registry): Registry
  {
    match r.mouseMoveWindow
    case None => r
    case Some(handle) =>
      var cleared :=
        if handle in r.windows then r.windows[handle := r.windows[handle].(isMouseMoving := false)] else r.windows;
      r.(windows := cleared, mouseMoveWindow := None)
  }

  /** `start_move_window`: only for tracked handles. */
  function StartMove(r: Registry, hwnd: int): Registry
  {
    if hwnd in r.windows then HandleWindowMoveStart(r, hwnd) else r
  }

  /** `end_move_window`: only for tracked handles, but it ends whichever drag was recorded. */
  function EndMove(r: Registry, hwnd: int): Registry
  {
    if hwnd in r.windows then HandleWindowMoveEnd(r) else r
  }

  /**
   * Starting to drag a tracked window records it and makes it the only window with the
   * drag flag; the set of tracked windows stays the same.
   */
  lemma StartMoveMarksOnlyThatWindow(r: Registry, hwnd: int)
    requires MoveConsistent(r) && hwnd in r.windows
    ensures var r' := StartMove(r, hwnd);
            && r'.mouseMoveWindow == Some(hwnd)
            && r'.windows.Keys == r.windows.Keys
            && r'.windows[hwnd] == r.windows[hwnd].(isMouseMoving := true)
            && (forall h :: h in r'.windows && h != hwnd ==> !r'.windows[h].isMouseMoving)
  {
  }

  /** Ending a drag on any tracked window clears every drag flag and the record. */
  lemma EndMoveClearsAll(r: Registry, hwnd: int)
    requires MoveConsistent(r) && hwnd in r.windows
    ensures var r' := EndMove(r, hwnd);
            && r'.mouseMoveWindow == None
            && r'.windows.Keys == r.windows.Keys
            && (forall h :: h in r'.windows ==> !r'.windows[h].isMouseMoving)
  {
  }

  /** Drag events for untracked handles change nothing. */
  lemma UntrackedMoveEventsIgnored(r: Registry, hwnd: int)
    requires hwnd !in r.windows
    ensures StartMove(r, hwnd) == r && EndMove(r, hwnd) == r
  {
  }

  // ---------------------------------------------------------------- floating

  /** The handle of a tracked window that has the foreground, if any. */
  function FocusedHandle(r: Registry, foreground: int): (h: Option<int>)
    ensures h.Some? <==> exists k :: k in r.windows && r.windows[k].IsFocused(foreground)
    ensures h.Some? ==> h.value == foreground
  {
    if exists k :: k in r.windows && r.windows[k].IsFocused(foreground) then Some(foreground) else None
  }

  /**
   * `toggle_focused_window_tiling` as written: a floating focused window is put back
   * into tiling; otherwise `get_mut` finds no entry to set, so the window is not marked
   * floating, and it is only brought to the top.
   */
  function Toggle(r: Registry, foreground: int): (Registry, seq<ManagerEffect>)
  {
    match FocusedHandle(r, foreground)
    case None => (r, [])
    case Some(hwnd) =>
      if hwnd in r.floating then (r.(floating := r.floating - {hwnd}), [])
      else
        var updated := if hwnd in r.floating then r.floating[hwnd := true] else r.floating;
        (r.(floating := updated), [BringToTop(hwnd)])
  }

  /** The toggle as evidently intended: a tiled focused window becomes floating. */
  function ToggleCorrected(r: Registry, foreground: int): (Registry, seq<ManagerEffect>)
  {
    match FocusedHandle(r, foreground)
    case None => (r, [])
    case Some(hwnd) =>
      if hwnd in r.floating then (r.(floating := r.floating - {hwnd}), [])
      else (r.(floating := r.floating[hwnd := true]), [BringToTop(hwnd)])
  }

  /** What the toggle does in each case, as written. */
  lemma ToggleCases(r: Registry, foreground: int)
    ensures var (r', effects) := Toggle(r, foreground);
            && r'.windows == r.windows && r'.mouseMoveWindow == r.mouseMoveWindow
            && (FocusedHandle(r, foreground).None? ==> r' == r && effects == [])
            && (FocusedHandle(r, foreground).Some? && foreground in r.floating ==>
                  r'.floating == r.floating - {foreground} && effects == [])
            && (FocusedHandle(r, foreground).Some? && foreground !in r.floating ==>
                  r'.floating == r.floating && effects == [BringToTop(foreground)])
  {
  }

  /** As written, no window ever becomes floating: the toggle can only shrink `floating`. */
  lemma ToggleNeverFloats(r: Registry, foreground: int)
    ensures Toggle(r, foreground).0.floating.Keys <= r.floating.Keys
    ensures foreground !in r.floating ==> foreground !in Toggle(r, foreground).0.floating
  {
  }

  /** Corrected, toggling a tracked focused window flips it between floating and tiled, and twice restores it. */
  lemma ToggleCorrectedFlipsAndRestores(r: Registry, foreground: int)
    requires foreground in r.windows && r.windows[foreground].handle == foreground
    ensures var r1 := ToggleCorrected(r, foreground).0;
            && (foreground in r1.floating <==> foreground !in r.floating)
            && r1.windows == r.windows
            && ToggleCorrected(r1, foreground).0.floating.Keys == r.floating.Keys
  {
    assert r.windows[foreground].IsFocused(foreground);
  }

  // ---------------------------------------------------------------- events

  /** `handle_window`'s dispatch of one window event; unknown codes change nothing. */
  function Dispatch(r: Registry, event: int, hwnd: int, q: ProcessQuery): Registry
  {
    if event == EVENT_OBJECT_SHOW then Register(r, hwnd, q)
    else if event == EVENT_OBJECT_DESTROY then Unregister(r, hwnd)
    else if event == EVENT_OBJECT_CLOAKED then Update(r, hwnd, Hide, q)
    else if event == EVENT_OBJECT_UNCLOAKED then Update(r, hwnd, Show, q)
    else if event == EVENT_SYSTEM_MINIMIZESTART then Update(r, hwnd, MinimizeStart, q)
    else if event == EVENT_SYSTEM_MINIMIZEEND then Update(r, hwnd, MinimizeEnd, q)
    else if event == EVENT_SYSTEM_FOREGROUND then Update(r, hwnd, Foreground, q)
    else if event == EVENT_SYSTEM_MOVESIZESTART then StartMove(r, hwnd)
    else if event == EVENT_SYSTEM_MOVESIZEEND then EndMove(r, hwnd)
    // `window_move` only reads the window
    else r
  }

  /** Every dispatched event keeps windows under their own handles and the drag flag consistent. */
  lemma DispatchPreservesValid(r: Registry, event: int, hwnd: int, q: ProcessQuery)
    requires Valid(r)
    ensures Valid(Dispatch(r, event, hwnd, q))
  {
    var r' := Dispatch(r, event, hwnd, q);
    if event == EVENT_OBJECT_SHOW {
      RegisterKeepsValid(r, hwnd, q);
    } else if event == EVENT_OBJECT_DESTROY {
      assert r' == Unregister(r, hwnd);
    } else if event == EVENT_OBJECT_CLOAKED {
      UpdateKeepsValid(r, hwnd, Hide, q);
    } else if event == EVENT_OBJECT_UNCLOAKED {
      UpdateKeepsValid(r, hwnd, Show, q);
    } else if event == EVENT_SYSTEM_MINIMIZESTART {
      UpdateKeepsValid(r, hwnd, MinimizeStart, q);
    } else if event == EVENT_SYSTEM_MINIMIZEEND {
      UpdateKeepsValid(r, hwnd, MinimizeEnd, q);
    } else if event == EVENT_SYSTEM_FOREGROUND {
      UpdateKeepsValid(r, hwnd, Foreground, q);
    } else if event == EVENT_SYSTEM_MOVESIZESTART {
      if hwnd in r.windows {
        StartMoveMarksOnlyThatWindow(r, hwnd);
      }
    } else if event == EVENT_SYSTEM_MOVESIZEEND {
      if hwnd in r.windows {
        EndMoveClearsAll(r, hwnd);
      }
    } else {
      assert r' == r;
    }
  }

  lemma UpdateKeepsValid(r: Registry, hwnd: int, updateType: WindowUpdateType, q: ProcessQuery)
    requires Valid(r)
    ensures Valid(Update(r, hwnd, updateType, q))
  {
    if updateType == Show && hwnd !in r.windows {
      RegisterKeepsValid(r, hwnd, q);
    }
  }

  /** Events other than show, destroy and cloak never change which windows are tracked. */
  lemma OnlyLifecycleEventsChangeMembership(r: Registry, event: int, hwnd: int, q: ProcessQuery)
    requires event != EVENT_OBJECT_SHOW && event != EVENT_OBJECT_DESTROY
    requires event != EVENT_OBJECT_CLOAKED && event != EVENT_OBJECT_UNCLOAKED
    ensures Dispatch(r, event, hwnd, q).windows.Keys == r.windows.Keys
    ensures Dispatch(r, event, hwnd, q).floating == r.floating
  {
  }

  /** `window_callback`'s filter: only whole-window events for a real handle are queued. */
  function WindowCallbackFilter(eventType: int, hwnd: int, idObject: int, idChild: int): (e: Option<(int, int)>)
    ensures e.Some? <==> idChild == 0 && idObject == 0 && hwnd != 0
    ensures e.Some? ==> e.value == (eventType, hwnd)
  {
    if !(idChild == 0 && idObject == 0 && hwnd != 0) then None else Some((eventType, hwnd))
  }

  /** The actions bound to exactly this chord, in mapping order. */
  function MatchingActions(mappings: seq<(Action, K.Keys)>, keys: K.Keys): (actions: seq<Action>)
    ensures |actions| <= |mappings|
  {
    if mappings == [] then []
    else (if mappings[0].1 == keys then [mappings[0].0] else []) + MatchingActions(mappings[1..], keys)
  }

  /** Every action returned is bound to the chord, and every action bound to the chord is returned. */
  lemma {:induction false} MatchingActionsExact(mappings: seq<(Action, K.Keys)>, keys: K.Keys)
    ensures forall a :: a in MatchingActions(mappings, keys) ==> (a, keys) in mappings
    ensures forall k :: 0 <= k < |mappings| && mappings[k].1 == keys ==> mappings[k].0 in MatchingActions(mappings, keys)
  {
    if mappings != [] {
      MatchingActionsExact(mappings[1..], keys);
      forall k | 0 <= k < |mappings| && mappings[k].1 == keys
        ensures mappings[k].0 in MatchingActions(mappings, keys)
      {
        if k > 0 {
          assert mappings[1..][k - 1] == mappings[k];
        }
      }
    }
  }

  /** Unfolding `MatchingActions` at position `i` of the mappings. */
  lemma MatchingActionsStep(mappings: seq<(Action, K.Keys)>, i: int, keys: K.Keys)
    requires 0 <= i < |mappings|
    ensures MatchingActions(mappings[i..], keys)
            == (if mappings[i].1 == keys then [mappings[i].0] else []) + MatchingActions(mappings[i + 1..], keys)
  {
    assert mappings[i..][1..] == mappings[i + 1..];
  }

  /** The loop of `handle_keys`: the actions whose binding equals the chord, in mapping order. */
  method CollectMatching(mappings: seq<(Action, K.Keys)>, chord: K.Keys) returns (fired: seq<Action>)
    ensures fired == MatchingActions(mappings, chord)
  {
    fired := [];
    var i := 0;
    while i < |mappings|
      invariant 0 <= i <= |mappings|
      invariant fired + MatchingActions(mappings[i..], chord) == MatchingActions(mappings, chord)
    {
      MatchingActionsStep(mappings, i, chord);
      var (action, key) := mappings[i];
      if key == chord {
        assert fired + ([action] + MatchingActions(mappings[i + 1..], chord))
            == (fired + [action]) + MatchingActions(mappings[i + 1..], chord);
        fired := fired + [action];
      }
      i := i + 1;
    }
    assert mappings[|mappings|..] == [];
  }

  /** One window reported by the startup enumeration: its handle, styles and process. */
  datatype FoundWindow = FoundWindow(hwnd: int, styles: WindowStyles, query: ProcessQuery)

  /** The registrations `init` makes for the windows the OS enumerates, in order. */
  function RegisterAll(r: Registry, found: seq<FoundWindow>): Registry
    decreases |found|
  {
    if found == [] then r
    else
      var next := if IsAppWindow(found[0].styles) then Register(r, found[0].hwnd, found[0].query) else r;
      RegisterAll(next, found[1..])
  }

  /**
   * After the startup enumeration every app window whose process can be opened is
   * tracked, and no window tracked before was dropped.
   */
  lemma {:induction false} RegisterAllTracksAppWindows(r: Registry, found: seq<FoundWindow>)
    ensures r.windows.Keys <= RegisterAll(r, found).windows.Keys
    ensures forall k :: 0 <= k < |found| && IsAppWindow(found[k].styles) && New(found[k].hwnd, found[k].query).Ok?
              ==> found[k].hwnd in RegisterAll(r, found).windows
    decreases |found|
  {
    if found != [] {
      var next := if IsAppWindow(found[0].styles) then Register(r, found[0].hwnd, found[0].query) else r;
      RegisterAddsOnlyThatHandle(r, found[0].hwnd, found[0].query);
      RegisterAllTracksAppWindows(next, found[1..]);
      var after := RegisterAll(r, found);
      assert after == RegisterAll(next, found[1..]);
      assert r.windows.Keys <= next.windows.Keys;
      forall k | 0 <= k < |found| && IsAppWindow(found[k].styles) && New(found[k].hwnd, found[k].query).Ok?
        ensures found[k].hwnd in after.windows
      {
        if k == 0 {
          assert found[0].hwnd in next.windows;
        } else {
          assert found[1..][k - 1] == found[k];
        }
      }
    }
  }

  /** The startup enumeration only adds handles it enumerated. */
  lemma {:induction false} RegisterAllAddsOnlyFound(r: Registry, found: seq<FoundWindow>)
    ensures forall h :: h in RegisterAll(r, found).windows && h !in r.windows ==>
              exists k :: 0 <= k < |found| && found[k].hwnd == h
    decreases |found|
  {
    if found != [] {
      var next := if IsAppWindow(found[0].styles) then Register(r, found[0].hwnd, found[0].query) else r;
      RegisterAddsOnlyThatHandle(r, found[0].hwnd, found[0].query);
      RegisterIgnoresTrackedOrFailed(r, found[0].hwnd, found[0].query);
      RegisterAllAddsOnlyFound(next, found[1..]);
      forall h | h in RegisterAll(r, found).windows && h !in r.windows
        ensures exists k :: 0 <= k < |found| && found[k].hwnd == h
      {
        if h in next.windows {
          assert found[0].hwnd == h;
        } else {
          var k :| 0 <= k < |found[1..]| && found[1..][k].hwnd == h;
          assert found[k + 1].hwnd == h;
        }
      }
    }
  }

  /** The startup registrations keep the registry valid. */
  lemma {:induction false} RegisterAllKeepsValid(r: Registry, found: seq<FoundWindow>)
    requires Valid(r)
    ensures Valid(RegisterAll(r, found))
    decreases |found|
  {
    if found != [] {
      RegisterKeepsValid(r, found[0].hwnd, found[0].query);
      var next := if IsAppWindow(found[0].styles) then Register(r, found[0].hwnd, found[0].query) else r;
      RegisterAllKeepsValid(next, found[1..]);
    }
  }

  class WindowsManager {
    var windows: map<int, WindowsWindow>
    var floating: map<int, bool>
    var mouseMoveWindow: Option<int>
    var layoutEngineType: LayoutEngineType
    /** The window-event channel: `(event, hwnd)` pairs. */
    var events: seq<(int, int)>
    /** The key-chord channel. */
    var keys: seq<K.Keys>
    /** The mouse channel carries no data: only the number of releases queued. */
    var mouseReleases: nat
    /** Calls into the OS, in order. */
    var effects: seq<ManagerEffect>

    function State(): Registry
      reads this
    {
      Registry(windows, floating, mouseMoveWindow, layoutEngineType)
    }

    method SetState(r: Registry)
      modifies this
      ensures State() == r
      ensures events == old(events) && keys == old(keys) && mouseReleases == old(mouseReleases) && effects == old(effects)
    {
      windows := r.windows;
      floating := r.floating;
      mouseMoveWindow := r.mouseMoveWindow;
      layoutEngineType := r.layoutEngineType;
    }

    /** `Default`: nothing tracked, nothing queued, the default engine type. */
    constructor()
      ensures State() == Registry(map[], map[], None, DEFAULT_LAYOUT_ENGINE_TYPE) && Valid(State())
      ensures events == [] && keys == [] && mouseReleases == 0 && effects == []
    {
      windows := map[];
      floating := map[];
      mouseMoveWindow := None;
      layoutEngineType := DEFAULT_LAYOUT_ENGINE_TYPE;
      events := [];
      keys := [];
      mouseReleases := 0;
      effects := [];
    }

    /** `change_layout`. */
    method ChangeLayout(layoutEngineType: LayoutEngineType)
      modifies this
      ensures State() == old(State()).(layoutEngineType := layoutEngineType)
      ensures events == old(events) && keys == old(keys) && effects == old(effects) && mouseReleases == old(mouseReleases)
    {
      this.layoutEngineType := layoutEngineType;
    }

    /**
     * The part of `init` that is not hook plumbing: set the engine type, then register
     * every enumerated app window in enumeration order.
     */
    method Init(layoutEngineType: LayoutEngineType, found: seq<FoundWindow>)
      modifies this
      ensures State() == RegisterAll(old(State()).(layoutEngineType := layoutEngineType), found)
      ensures events == old(events) && keys == old(keys) && effects == old(effects) && mouseReleases == old(mouseReleases)
    {
      ChangeLayout(layoutEngineType);
      ghost var target := RegisterAll(State(), found);
      var i := 0;
      while i < |found|
        invariant 0 <= i <= |found|
        invariant RegisterAll(State(), found[i..]) == target
        invariant events == old(events) && keys == old(keys) && effects == old(effects) && mouseReleases == old(mouseReleases)
      {
        var w := found[i];
        assert found[i..][0] == w && found[i..][1..] == found[i + 1..];
        if IsAppWindow(w.styles) {
          RegisterWindow(w.hwnd, w.query);
        }
        i := i + 1;
      }
    }

    /** `register_window`. */
    method RegisterWindow(hwnd: int, q: ProcessQuery)
      modifies this
      ensures State() == Register(old(State()), hwnd, q)
      ensures events == old(events) && keys == old(keys) && effects == old(effects) && mouseReleases == old(mouseReleases)
    {
      if hwnd in windows {
        return;
      }
      var created := New(hwnd, q);
      if created.Ok? {
        windows := windows[hwnd := created.value];
        assert State() == old(State()).(windows := old(windows)[hwnd := created.value]);
      } else {
        assert State() == old(State());
      }
    }

    /** `toggle_focused_window_tiling`, given the foreground window. */
    method ToggleFocusedWindowTiling(foreground: int)
      modifies this
      ensures State() == Toggle(old(State()), foreground).0
      ensures effects == old(effects) + Toggle(old(State()), foreground).1
      ensures events == old(events) && keys == old(keys) && mouseReleases == old(mouseReleases)
    {
      var hwndOption := FocusedHandle(State(), foreground);
      if hwndOption.Some? {
        var hwnd := hwndOption.value;
        if hwnd in floating {
          floating := floating - {hwnd};
        } else {
          // `get_mut` on a key just found absent: there is nothing to set
          effects := effects + [BringToTop(hwnd)];
        }
      }
    }

    /**
     * `handle_window`: takes at most one event off the queue and applies it; `q` is what
     * the OS reports about that event's handle.
     */
    method HandleWindow(q: ProcessQuery)
      modifies this
      ensures old(events) == [] ==> State() == old(State()) && events == []
      ensures old(events) != [] ==>
                events == old(events)[1..]
                && State() == Dispatch(old(State()), old(events)[0].0, old(events)[0].1, q)
      ensures keys == old(keys) && effects == old(effects) && mouseReleases == old(mouseReleases)
    {
      if events != [] {
        var (event, hwnd) := events[0];
        events := events[1..];
        SetState(Dispatch(State(), event, hwnd, q));
      }
    }

    /** `handle_keys`: takes at most one chord and returns the actions bound to it. */
    method HandleKeys(mappings: seq<(Action, K.Keys)>) returns (fired: seq<Action>)
      modifies this
      ensures old(keys) == [] ==> fired == [] && keys == []
      ensures old(keys) != [] ==> keys == old(keys)[1..] && fired == MatchingActions(mappings, old(keys)[0])
      ensures State() == old(State()) && events == old(events) && effects == old(effects) && mouseReleases == old(mouseReleases)
    {
      fired := [];
      if keys != [] {
        var chord := keys[0];
        keys := keys[1..];
        fired := CollectMatching(mappings, chord);
      }
    }

    /** `handle_mouse`: takes at most one release and otherwise does nothing. */
    method HandleMouse()
      modifies this
      ensures mouseReleases == if old(mouseReleases) > 0 then old(mouseReleases) - 1 else 0
      ensures State() == old(State()) && events == old(events) && keys == old(keys) && effects == old(effects)
    {
      if mouseReleases > 0 {
        mouseReleases := mouseReleases - 1;
      }
    }

    /** `window_callback`: queues the event when it passes the filter. */
    method WindowCallback(eventType: int, hwnd: int, idObject: int, idChild: int)
      modifies this
      ensures events == old(events) + (match WindowCallbackFilter(eventType, hwnd, idObject, idChild)
                                         case Some(e) => [e]
                                         case None => [])
      ensures State() == old(State()) && keys == old(keys) && mouseReleases == old(mouseReleases) && effects == old(effects)
    {
      if !(idChild == 0 && idObject == 0 && hwnd != 0) {
        return;
      }
      events := events + [(eventType, hwnd)];
    }

    /** `keyboard_callback`: queues the chord when the hook call decodes to one. */
    method KeyboardCallback(input: K.HookInput)
      modifies this
      ensures keys == old(keys) + (if K.New(input).Some? then [K.New(input).value] else [])
      ensures State() == old(State()) && events == old(events) && mouseReleases == old(mouseReleases) && effects == old(effects)
    {
      var chord := K.New(input);
      if chord.Some? {
        keys := keys + [chord.value];
      }
    }

    /** `mouse_callback`: queues a release for a left-button-up message. */
    method MouseCallback(wParam: int)
      modifies this
      ensures mouseReleases == old(mouseReleases) + (if wParam == WM_LBUTTONUP then 1 else 0)
      ensures State() == old(State()) && events == old(events) && keys == old(keys) && effects == old(effects)
    {
      if wParam == WM_LBUTTONUP {
        mouseReleases := mouseReleases + 1;
      }
    }
  }
}
