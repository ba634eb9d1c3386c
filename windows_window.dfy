/**
 * `WindowsWindow` of `src/windows_window.rs`, the value the window registry stores per
 * handle. It is an owned value (stored by value in the registry map and changed
 * through `get_mut`), so its `&mut self` transitions are functions returning the
 * updated window together with the `ShowWindow` command they issue.
 */
module TrackedWindow {

  import opened Wrappers
  import opened Win32Helpers
  import opened NativeWindow

  datatype WindowsWindow = WindowsWindow(
    handle: int,
    processId: nat,
    processName: string,
    processFileName: string,
    didManualHide: bool,
    isMouseMoving: bool)
  {
    /** `is_focused`: the handle is the foreground window. */
    predicate IsFocused(foreground: int): (b: bool)
      ensures b <==> handle == foreground
    {
      handle == foreground
    }

    /** `hide`: sets the manual-hide flag only when the window can be laid out. */
    function Hide(s: WindowStyles): (r: (WindowsWindow, ShowCommand))
      ensures r.0 == this.(didManualHide := r.0.didManualHide)
      ensures r.0.didManualHide <==> didManualHide || CanLayout(didManualHide, s)
      ensures r.1 == SwHide
    {
      (this.(didManualHide := HiddenFlag(didManualHide, s)), SwHide)
    }

    function ShowNormal(): (r: (WindowsWindow, ShowCommand))
      ensures r.0 == this.(didManualHide := false) && r.1 == SwShowNoActivate
    {
      (this.(didManualHide := false), SwShowNoActivate)
    }

    function ShowMaximized(): (r: (WindowsWindow, ShowCommand))
      ensures r.0 == this.(didManualHide := false) && r.1 == SwShowMaximized
    {
      (this.(didManualHide := false), SwShowMaximized)
    }

    function ShowMinimized(): (r: (WindowsWindow, ShowCommand))
      ensures r.0 == this.(didManualHide := false) && r.1 == SwShowMinimized
    {
      (this.(didManualHide := false), SwShowMinimized)
    }

    /** Minimized first, then maximized, otherwise normal. */
    function ShowInCurrentState(iconic: bool, zoomed: bool): (r: (WindowsWindow, ShowCommand))
      ensures r.0 == this.(didManualHide := false)
      ensures r.1 == StateCommand(ObservedState(iconic, zoomed))
    {
      if iconic then ShowMinimized() else if zoomed then ShowMaximized() else ShowNormal()
    }
  }

  /**
   * `WindowsWindow::new`: fails on a zero process id or a failing `OpenProcess`;
   * otherwise records the process and starts with both flags clear.
   */
  function New(handle: int, q: ProcessQuery): (r: Result<WindowsWindow, ProcessError>)
    ensures r.Ok? <==> q.processId != 0 && q.openSucceeds
    ensures r.Err? ==> CheckProcess(q) == Some(r.error)
    ensures r.Ok? ==> r.value.handle == handle && r.value.processId == q.processId
    ensures r.Ok? ==> r.value.processName == q.imagePath && r.value.processFileName == ProcessFileName(q.imagePath)
    ensures r.Ok? ==> !r.value.didManualHide && !r.value.isMouseMoving
  {
    match CheckProcess(q)
    case Some(e) => Err(e)
    case None => Ok(WindowsWindow(handle, q.processId, q.imagePath, ProcessFileName(q.imagePath), false, false))
  }

  /** Any show after a hide clears the flag again; a window that was not hidden is restored exactly. */
  lemma HideThenShowRestores(w: WindowsWindow, s: WindowStyles)
    ensures w.Hide(s).0.ShowNormal().0 == w.(didManualHide := false)
    ensures !w.didManualHide ==> w.Hide(s).0.ShowNormal().0 == w
  {
  }

  /** A window the manager hid stays layoutable whatever the OS reports. */
  lemma HiddenWindowCanLayout(w: WindowsWindow, s: WindowStyles, t: WindowStyles)
    requires CanLayout(w.didManualHide, s)
    ensures CanLayout(w.Hide(s).0.didManualHide, t)
  {
  }
}
