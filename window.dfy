/**
 * `Window` of `src/window.rs`: the workspace-level window value. Its constructor is a
 * chain of filters over what the OS reports about a handle (class, title, process);
 * its `&mut self` transitions are functions returning the updated value and the
 * `ShowWindow` command, as for `WindowsWindow`.
 */
module WorkspaceWindow {

  import opened Wrappers
  import opened Win32Helpers
  import opened NativeWindow

  const IGNORE_WINDOW_CLASSES: seq<string> := [
    "TaskManagerWindow",
    "MSCTFIME UI",
    "SHELLDLL_DefView",
    "LockScreenBackstopFrame",
    "Progman",
    "Shell_TrayWnd",
    "WorkerW",
    "Shell_SecondaryTrayWnd",
    "Windows.UI.Composition.DesktopWindowContentBridge",
    "IME"
  ]

  const IGNORE_PROGRAMS: seq<string> := [
    "StartMenuExperienceHost.exe",
    "SearchHost.exe",
    "ApplicationFrameHost.exe"
  ]

  const IGNORE_WINDOW_TITLES: seq<string> := ["Windows Input Experience"]

  /** What the OS reports about a handle: the raw class-name buffer, the title and the process. */
  datatype WindowQuery = WindowQuery(classBuffer: string, title: string, process: ProcessQuery)

  datatype RejectReason =
    | FilteredClass(className: string)
    | EmptyTitle
    | FilteredTitle(title: string)
    | ProcessFailed(error: ProcessError)
    | FilteredProgram(program: string)

  datatype Window = Window(
    processId: nat,
    processName: string,
    processFileName: string,
    didManualHide: bool,
    handle: int,
    isMouseMoving: bool)
  {
    /** `is_focused`: the handle is the foreground window, given as a parameter. */
    predicate IsFocused(foreground: int): (b: bool)
      ensures b <==> handle == foreground
    {
      handle == foreground
    }

    /** `hide`: sets the manual-hide flag only when the window can be laid out. */
    function Hide(s: WindowStyles): (r: (Window, ShowCommand))
      ensures r.0 == this.(didManualHide := r.0.didManualHide)
      ensures r.0.didManualHide <==> didManualHide || CanLayout(didManualHide, s)
      ensures r.1 == SwHide
    {
      (this.(didManualHide := HiddenFlag(didManualHide, s)), SwHide)
    }

    function ShowNormal(): (r: (Window, ShowCommand))
      ensures r.0 == this.(didManualHide := false) && r.1 == SwShowNoActivate
    {
      (this.(didManualHide := false), SwShowNoActivate)
    }

    function ShowMaximized(): (r: (Window, ShowCommand))
      ensures r.0 == this.(didManualHide := false) && r.1 == SwShowMaximized
    {
      (this.(didManualHide := false), SwShowMaximized)
    }

    function ShowMinimized(): (r: (Window, ShowCommand))
      ensures r.0 == this.(didManualHide := false) && r.1 == SwShowMinimized
    {
      (this.(didManualHide := false), SwShowMinimized)
    }

    /** Minimized first, then maximized, otherwise normal. */
    function ShowInCurrentState(iconic: bool, zoomed: bool): (r: (Window, ShowCommand))
      ensures r.0 == this.(didManualHide := false)
      ensures r.1 == StateCommand(ObservedState(iconic, zoomed))
    {
      if iconic then ShowMinimized() else if zoomed then ShowMaximized() else ShowNormal()
    }
  }

  /** Index of the first NUL in `buf`, or `|buf|` when there is none. */
  function NulPosition(buf: string): (k: nat)
    ensures k <= |buf|
    ensures forall i :: 0 <= i < k ==> buf[i] != '\0'
    ensures k < |buf| ==> buf[k] == '\0'
  {
    if buf == [] then 0 else if buf[0] == '\0' then 0 else 1 + NulPosition(buf[1..])
  }

  /** `class_from_hwnd`: the buffer up to its first NUL. */
  function ClassFromBuffer(buf: string): (name: string)
    ensures name <= buf
    ensures forall i :: 0 <= i < |name| ==> name[i] != '\0'
    ensures |name| < |buf| ==> buf[|name|] == '\0'
  {
    buf[..NulPosition(buf)]
  }

  /** A name written into a zero-filled buffer is read back unchanged. */
  lemma {:induction false} ClassFromPaddedBuffer(name: string, padding: nat)
    requires forall i :: 0 <= i < |name| ==> name[i] != '\0'
    ensures ClassFromBuffer(name + seq(padding, _ => '\0')) == name
  {
    var buf := name + seq(padding, _ => '\0');
    assert forall i :: 0 <= i < |name| ==> buf[i] == name[i];
    assert |name| < |buf| ==> buf[|name|] == '\0';
    assert buf[..|name|] == name;
  }

  /**
   * `Window::new`: the class, empty-title and title filters come before any process
   * lookup; then the process checks; then the program filter on the file name.
   */
  function New(handle: int, q: WindowQuery): (r: Result<Window, RejectReason>)
    ensures ClassFromBuffer(q.classBuffer) in IGNORE_WINDOW_CLASSES ==> r == Err(FilteredClass(ClassFromBuffer(q.classBuffer)))
    ensures ClassFromBuffer(q.classBuffer) !in IGNORE_WINDOW_CLASSES && q.title == "" ==> r == Err(EmptyTitle)
    ensures r.Ok? <==>
              && ClassFromBuffer(q.classBuffer) !in IGNORE_WINDOW_CLASSES
              && q.title != "" && q.title !in IGNORE_WINDOW_TITLES
              && CheckProcess(q.process) == None
              && ProcessFileName(q.process.imagePath) !in IGNORE_PROGRAMS
    ensures r.Ok? ==> r.value.handle == handle && r.value.processId == q.process.processId
    ensures r.Ok? ==> r.value.processName == q.process.imagePath
    ensures r.Ok? ==> r.value.processFileName == ProcessFileName(q.process.imagePath)
    ensures r.Ok? ==> !r.value.didManualHide && !r.value.isMouseMoving
  {
    var className := ClassFromBuffer(q.classBuffer);
    if className in IGNORE_WINDOW_CLASSES then Err(FilteredClass(className))
    else if q.title == "" then Err(EmptyTitle)
    else if q.title in IGNORE_WINDOW_TITLES then Err(FilteredTitle(q.title))
    else match CheckProcess(q.process)
      case Some(e) => Err(ProcessFailed(e))
      case None =>
        var fileName := ProcessFileName(q.process.imagePath);
        if fileName in IGNORE_PROGRAMS then Err(FilteredProgram(fileName))
        else Ok(Window(q.process.processId, q.process.imagePath, fileName, false, handle, false))
  }

  /** The class and title filters decide before the process is looked at. */
  lemma FiltersPrecedeProcessLookup(handle: int, q: WindowQuery, p: ProcessQuery)
    requires ClassFromBuffer(q.classBuffer) in IGNORE_WINDOW_CLASSES || q.title == "" || q.title in IGNORE_WINDOW_TITLES
    ensures New(handle, q) == New(handle, q.(process := p))
    ensures New(handle, q).Err? && !New(handle, q).error.ProcessFailed?
  {
  }

  /** The shell's program images are never admitted, wherever they live. */
  lemma IgnoredProgramRejected(handle: int, q: WindowQuery, dir: string, program: string)
    requires program in IGNORE_PROGRAMS
    requires q.process.imagePath == dir + "\\" + program
    ensures New(handle, q).Err?
  {
    assert NoSeparator(program) && program != "" && program != "." && program != "..";
    FileNameOfJoin(dir, '\\', program);
  }

  /** Any show after a hide clears the flag again; a window that was not hidden is restored exactly. */
  lemma HideThenShowRestores(w: Window, s: WindowStyles)
    ensures w.Hide(s).0.ShowNormal().0 == w.(didManualHide := false)
    ensures !w.didManualHide ==> w.Hide(s).0.ShowNormal().0 == w
  {
  }
}
