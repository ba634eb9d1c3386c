/**
 * `NativeMonitorContainer` of `src/native_monitor_container.rs`: the monitors in the
 * order the manager cycles through them, primary screens first, and the index of the
 * focused one. The screen list and the screen a point or rectangle falls on are OS
 * answers, so they are parameters here.
 */
module Monitors {

  import opened Wrappers
  import opened RustArith
  import opened Geometry

  /** The part of a screen the container looks at. */
  datatype Screen = Screen(bounds: Rectangle, primary: bool, deviceName: string)

  datatype Monitor = Monitor(index: nat, screen: Screen)

  /** The screens of one kind (primary or not), in their original order. */
  function OfKind(screens: seq<Screen>, primary: bool): (r: seq<Screen>)
    ensures |r| <= |screens|
    ensures forall k :: 0 <= k < |r| ==> r[k].primary == primary
    ensures forall s :: s in r ==> s in screens
  {
    if screens == [] then []
    else if screens[0].primary == primary then [screens[0]] + OfKind(screens[1..], primary)
    else OfKind(screens[1..], primary)
  }

  /** `sort_by_key(|s| !s.primary)`: a stable sort on a key where `false` (primary) comes first. */
  function PrimaryFirst(screens: seq<Screen>): (r: seq<Screen>)
    ensures |r| == |screens|
  {
    OfKindSplits(screens);
    assert |OfKind(screens, true) + OfKind(screens, false)| == |multiset(screens)|;
    OfKind(screens, true) + OfKind(screens, false)
  }

  lemma {:induction false} OfKindAppend(a: seq<Screen>, b: seq<Screen>, primary: bool)
    ensures OfKind(a + b, primary) == OfKind(a, primary) + OfKind(b, primary)
  {
    if a == [] {
      assert a + b == b;
    } else {
      assert (a + b)[1..] == a[1..] + b;
      OfKindAppend(a[1..], b, primary);
    }
  }

  lemma {:induction false} OfKindSplits(screens: seq<Screen>)
    ensures multiset(OfKind(screens, true)) + multiset(OfKind(screens, false)) == multiset(screens)
  {
    if screens != [] {
      var first, rest := screens[0], screens[1..];
      OfKindSplits(rest);
      assert screens == [first] + rest;
      assert multiset(screens) == multiset{first} + multiset(rest);
      if first.primary {
        assert OfKind(screens, true) == [first] + OfKind(rest, true);
        assert OfKind(screens, false) == OfKind(rest, false);
        assert multiset(OfKind(screens, true)) == multiset{first} + multiset(OfKind(rest, true));
      } else {
        assert OfKind(screens, true) == OfKind(rest, true);
        assert OfKind(screens, false) == [first] + OfKind(rest, false);
        assert multiset(OfKind(screens, false)) == multiset{first} + multiset(OfKind(rest, false));
      }
    }
  }

  lemma {:induction false} OfKindIdempotent(screens: seq<Screen>, primary: bool)
    ensures OfKind(OfKind(screens, primary), primary) == OfKind(screens, primary)
    ensures OfKind(OfKind(screens, !primary), primary) == []
  {
    if screens != [] {
      OfKindIdempotent(screens[1..], primary);
    }
  }

  /** The sort only reorders: the same screens, each as often. */
  lemma PrimaryFirstIsPermutation(screens: seq<Screen>)
    ensures |PrimaryFirst(screens)| == |screens|
    ensures multiset(PrimaryFirst(screens)) == multiset(screens)
  {
    OfKindSplits(screens);
  }

  /** No non-primary screen comes before a primary one. */
  lemma PrimaryFirstPutsPrimariesFirst(screens: seq<Screen>, i: int, j: int)
    requires 0 <= i < j < |PrimaryFirst(screens)| && PrimaryFirst(screens)[j].primary
    ensures PrimaryFirst(screens)[i].primary
  {
    var p := OfKind(screens, true);
    if j >= |p| {
      assert false;
    }
    assert PrimaryFirst(screens)[i] == p[i];
  }

  /** The sort is stable: within each kind the screens keep their original order. */
  lemma PrimaryFirstIsStable(screens: seq<Screen>, primary: bool)
    ensures OfKind(PrimaryFirst(screens), primary) == OfKind(screens, primary)
  {
    OfKindAppend(OfKind(screens, true), OfKind(screens, false), primary);
    OfKindIdempotent(screens, primary);
    if primary {
      OfKindIdempotent(screens, false);
      assert OfKind(screens, primary) + [] == OfKind(screens, primary);
    } else {
      OfKindIdempotent(screens, true);
    }
  }

  /** Index of the first monitor on the screen called `deviceName`. */
  function FindByName(monitors: seq<Monitor>, deviceName: string): (r: Option<nat>)
    ensures r.Some? ==> r.value < |monitors| && monitors[r.value].screen.deviceName == deviceName
    ensures r.Some? ==> forall k :: 0 <= k < r.value ==> monitors[k].screen.deviceName != deviceName
    ensures r.None? <==> forall k :: 0 <= k < |monitors| ==> monitors[k].screen.deviceName != deviceName
  {
    if monitors == [] then None
    else if monitors[0].screen.deviceName == deviceName then Some(0)
    else match FindByName(monitors[1..], deviceName)
      case None => None
      case Some(k) => Some(k + 1)
  }

  datatype NativeMonitorContainer = NativeMonitorContainer(monitors: seq<Monitor>, focusedMonitor: nat)
  {
    /** `num_monitors`: the length, cast to `i32`. */
    function NumMonitors(): (n: int)
      ensures |monitors| <= I32_MAX ==> n == |monitors|
      ensures I32_MIN <= n <= I32_MAX
    {
      AsI32(|monitors|)
    }

    /** `get_monitor_at_index`: the monitor at `index`, if there is one. */
    function GetMonitorAtIndex(index: nat): (r: Option<Monitor>)
      ensures r.Some? <==> index < |monitors|
      ensures r.Some? ==> r.value == monitors[index]
    {
      if index < |monitors| then Some(monitors[index]) else None
    }

    /** `focused_monitor`: unwraps the lookup, so the focused index must be in range. */
    function FocusedMonitor(): (m: Monitor)
      requires focusedMonitor < |monitors|
      ensures m in monitors && m == monitors[focusedMonitor]
    {
      GetMonitorAtIndex(focusedMonitor).value
    }

    /**
     * `get_monitor_at_point` / `get_monitor_at_rect`, given the device name of the screen
     * the OS resolves the point or rectangle to: the first monitor on that screen, or the
     * first monitor (unwrapped, so the list must not be empty).
     */
    function MonitorOnScreen(deviceName: string): (m: Monitor)
      requires |monitors| > 0
      ensures m in monitors
      ensures (exists k :: 0 <= k < |monitors| && monitors[k].screen.deviceName == deviceName)
                ==> m.screen.deviceName == deviceName
      ensures (forall k :: 0 <= k < |monitors| ==> monitors[k].screen.deviceName != deviceName)
                ==> m == monitors[0]
      ensures FindByName(monitors, deviceName).Some? ==> m == monitors[FindByName(monitors, deviceName).value]
    {
      match FindByName(monitors, deviceName)
      case Some(k) => monitors[k]
      case None => monitors[0]
    }

    /** The index `get_next_monitor` lands on. */
    function NextIndex(): (i: nat)
      requires |monitors| > 0
      ensures i < |monitors|
      ensures i == 0 || i == focusedMonitor + 1
    {
      if focusedMonitor + 1 < |monitors| then focusedMonitor + 1 else 0
    }

    /** `get_next_monitor`: the monitor after the focused one, or the first. */
    function GetNextMonitor(): (m: Monitor)
      requires |monitors| > 0
      ensures focusedMonitor + 1 < |monitors| ==> m == monitors[focusedMonitor + 1]
      ensures focusedMonitor + 1 >= |monitors| ==> m == monitors[0]
    {
      match GetMonitorAtIndex(focusedMonitor + 1)
      case Some(x) => x
      case None => monitors[0]
    }

    /**
     * `focused_monitor - 1` on a `usize`: at 0 a release build wraps to the largest
     * `usize`, which is no index of the list.
     */
    function PreviousIndexRaw(): (i: nat)
      ensures focusedMonitor > 0 ==> i == focusedMonitor - 1
      ensures focusedMonitor == 0 ==> i == USIZE_MAX
    {
      if focusedMonitor == 0 then USIZE_MAX else focusedMonitor - 1
    }

    /** `get_previous_monitor`: the monitor before the focused one, or the last. */
    function GetPreviousMonitor(): (m: Monitor)
      requires |monitors| > 0
      ensures 0 < focusedMonitor <= |monitors| ==> m == monitors[focusedMonitor - 1]
      ensures focusedMonitor == 0 && |monitors| <= USIZE_MAX ==> m == monitors[|monitors| - 1]
      ensures focusedMonitor == 0 && |monitors| > USIZE_MAX ==> m == monitors[USIZE_MAX]
      ensures focusedMonitor > |monitors| ==> m == monitors[|monitors| - 1]
    {
      match GetMonitorAtIndex(PreviousIndexRaw())
      case Some(x) => x
      case None => monitors[|monitors| - 1]
    }
  }

  /** `new`, given the screens the OS reports: primaries first, monitor `i` has index `i`, focus on 0. */
  function New(screens: seq<Screen>): (c: NativeMonitorContainer)
    ensures c.focusedMonitor == 0
    ensures |c.monitors| == |screens|
    ensures forall i :: 0 <= i < |c.monitors| ==> c.monitors[i].index == i
    ensures forall i :: 0 <= i < |c.monitors| ==> c.monitors[i].screen == PrimaryFirst(screens)[i]
  {
    var sorted := PrimaryFirst(screens);
    NativeMonitorContainer(seq(|sorted|, i requires 0 <= i < |sorted| => Monitor(i, sorted[i])), 0)
  }

  /** Moving focus to the next monitor and asking for the previous one gives back the focused monitor. */
  lemma NextThenPrevious(c: NativeMonitorContainer)
    requires 0 < |c.monitors| <= USIZE_MAX && c.focusedMonitor < |c.monitors|
    ensures c.(focusedMonitor := c.NextIndex()).GetPreviousMonitor() == c.FocusedMonitor()
  {
  }

  /** Moving focus back one monitor (wrapping to the last) and asking for the next gives back the focused monitor. */
  lemma PreviousThenNext(c: NativeMonitorContainer)
    requires 0 < |c.monitors| <= USIZE_MAX && c.focusedMonitor < |c.monitors|
    ensures var p := if c.focusedMonitor > 0 then c.focusedMonitor - 1 else |c.monitors| - 1;
            c.(focusedMonitor := p).GetNextMonitor() == c.FocusedMonitor()
  {
  }

  /** A fresh container on a non-empty screen list starts on a primary screen when there is one. */
  lemma NewFocusesPrimary(screens: seq<Screen>, k: int)
    requires 0 <= k < |screens| && screens[k].primary
    ensures New(screens).FocusedMonitor().screen.primary
  {
    assert screens[k] in OfKind(screens, true) by {
      OfKindContains(screens, k);
    }
  }

  lemma {:induction false} OfKindContains(screens: seq<Screen>, k: int)
    requires 0 <= k < |screens|
    ensures screens[k] in OfKind(screens, screens[k].primary)
  {
    if k > 0 {
      OfKindContains(screens[1..], k - 1);
    }
  }
}
