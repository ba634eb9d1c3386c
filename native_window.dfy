/**
 * What `src/window.rs` (`Window`) and `src/windows_window.rs` (`WindowsWindow`) share:
 * the process lookup at construction, the file name of the process image,
 * `can_layout`, `location`, `offset` and the `ShowWindow` commands their flag
 * transitions issue. Both files spell these out separately, identically; they are
 * defined once here over the values the OS reads return.
 */
module NativeWindow {

  import opened Wrappers
  import opened Geometry
  import opened Locations
  import opened Win32Helpers

  /**
   * The process lookup: `GetWindowThreadProcessId` (0 when it fails), whether
   * `OpenProcess` succeeds, and the image path `K32GetModuleFileNameExW` writes.
   */
  datatype ProcessQuery = ProcessQuery(processId: nat, openSucceeds: bool, imagePath: string)

  /** The file name stored when the image path has none. */
  const NO_FILE_NAME: string := "--NA--"

  /** The reason a construction fails before any window-specific filter. */
  datatype ProcessError = NoProcessId | OpenProcessFailed

  /** The process checks, in source order: a zero process id, then a failing `OpenProcess`. */
  function CheckProcess(q: ProcessQuery): (r: Option<ProcessError>)
    ensures r == None <==> q.processId != 0 && q.openSucceeds
    ensures r == Some(NoProcessId) <==> q.processId == 0
  {
    if q.processId == 0 then Some(NoProcessId)
    else if !q.openSucceeds then Some(OpenProcessFailed)
    else None
  }

  predicate IsSeparator(c: char)
  {
    c == '\\' || c == '/'
  }

  predicate NoSeparator(s: string)
  {
    forall i :: 0 <= i < |s| ==> !IsSeparator(s[i])
  }

  /** `p` without its trailing separators. */
  function TrimTrailingSeparators(p: string): (r: string)
    ensures |r| <= |p| && r == p[..|r|]
    ensures r == [] || !IsSeparator(r[|r| - 1])
    ensures forall i :: |r| <= i < |p| ==> IsSeparator(p[i])
  {
    if p != [] && IsSeparator(p[|p| - 1]) then TrimTrailingSeparators(p[..|p| - 1]) else p
  }

  /** The text after the last separator of `p` (all of `p` when it has none). */
  function LastComponent(p: string): (r: string)
    ensures |r| <= |p| && r == p[|p| - |r|..]
    ensures NoSeparator(r)
    ensures |r| < |p| ==> IsSeparator(p[|p| - |r| - 1])
  {
    if p == [] || IsSeparator(p[|p| - 1]) then [] else LastComponent(p[..|p| - 1]) + [p[|p| - 1]]
  }

  /**
   * `p` without what `Path::components` skips at its end: trailing separators and `.`
   * components that follow a separator. A `.` that is the whole path stays.
   */
  function TrimTrailing(p: string): (r: string)
    ensures |r| <= |p| && r == p[..|r|]
    ensures r == [] || !IsSeparator(r[|r| - 1])
    ensures !(|r| >= 2 && r[|r| - 1] == '.' && IsSeparator(r[|r| - 2]))
    decreases |p|
  {
    var t := TrimTrailingSeparators(p);
    if |t| >= 2 && t[|t| - 1] == '.' && IsSeparator(t[|t| - 2]) then TrimTrailing(t[..|t| - 1]) else t
  }

  /**
   * `Path::file_name`: the final component, ignoring trailing separators and trailing
   * `.` components; none for an empty path, for a path that ends in `..` and for `.`.
   */
  function FileName(p: string): (r: Option<string>)
    ensures r.Some? ==> r.value != [] && NoSeparator(r.value) && r.value != "." && r.value != ".."
    ensures r.Some? ==> r.value == LastComponent(TrimTrailing(p))
  {
    var c := LastComponent(TrimTrailing(p));
    if c == [] || c == "." || c == ".." then None else Some(c)
  }

  /** The stored `process_file_name`. */
  function ProcessFileName(imagePath: string): (name: string)
    ensures FileName(imagePath).None? ==> name == NO_FILE_NAME
    ensures FileName(imagePath).Some? ==> name == FileName(imagePath).value
  {
    match FileName(imagePath)
    case None => NO_FILE_NAME
    case Some(f) => f
  }

  lemma {:induction false} LastComponentOfJoin(dir: string, sep: char, name: string)
    requires IsSeparator(sep) && NoSeparator(name)
    ensures LastComponent(dir + [sep] + name) == name
    decreases |name|
  {
    var p := dir + [sep] + name;
    if name == [] {
      assert p[|p| - 1] == sep;
    } else {
      var init := name[..|name| - 1];
      assert p[..|p| - 1] == dir + [sep] + init;
      LastComponentOfJoin(dir, sep, init);
      assert name == init + [name[|name| - 1]];
    }
  }

  /** The file name of `dir\name` (or `dir/name`) is `name`, whatever the directory. */
  lemma FileNameOfJoin(dir: string, sep: char, name: string)
    requires IsSeparator(sep) && NoSeparator(name)
    requires name != [] && name != "." && name != ".."
    ensures FileName(dir + [sep] + name) == Some(name)
    ensures ProcessFileName(dir + [sep] + name) == name
  {
    TrimTrailingOfJoin(dir, sep, name);
    LastComponentOfJoin(dir, sep, name);
  }

  lemma TrimTrailingOfJoin(dir: string, sep: char, name: string)
    requires IsSeparator(sep) && NoSeparator(name)
    requires name != [] && name != "."
    ensures TrimTrailing(dir + [sep] + name) == dir + [sep] + name
  {
    var p := dir + [sep] + name;
    assert p[|p| - 1] == name[|name| - 1];
    assert TrimTrailingSeparators(p) == p;
    if |name| >= 2 {
      assert p[|p| - 2] == name[|name| - 2];
    } else {
      assert name == [p[|p| - 1]];
    }
  }

  lemma TrimTrailingSeparatorsSnoc(p: string, sep: char)
    requires IsSeparator(sep)
    ensures TrimTrailingSeparators(p + [sep]) == TrimTrailingSeparators(p)
  {
    assert (p + [sep])[..|p|] == p;
  }

  lemma TrimTrailingIgnoresSeparator(p: string, sep: char)
    requires IsSeparator(sep)
    ensures TrimTrailing(p + [sep]) == TrimTrailing(p)
  {
    TrimTrailingSeparatorsSnoc(p, sep);
  }

  /** Trailing separators do not change the file name. */
  lemma FileNameIgnoresTrailingSeparator(p: string, sep: char)
    requires IsSeparator(sep)
    ensures FileName(p + [sep]) == FileName(p)
  {
    TrimTrailingIgnoresSeparator(p, sep);
  }

  /** Neither does a trailing `.` component: `dir\app.exe\.` names `app.exe`. */
  lemma FileNameIgnoresTrailingCurrentDir(p: string, sep: char)
    requires IsSeparator(sep)
    ensures FileName(p + [sep, '.']) == FileName(p)
  {
    var q := p + [sep, '.'];
    assert TrimTrailingSeparators(q) == q;
    assert q[..|q| - 1] == p + [sep];
    assert TrimTrailing(q) == TrimTrailing(p + [sep]);
    TrimTrailingIgnoresSeparator(p, sep);
  }

  /** A path ending in a `..` component has no file name. */
  lemma ParentDirHasNoFileName(p: string, sep: char)
    requires IsSeparator(sep)
    ensures FileName(p + [sep, '.', '.']).None?
  {
    var q := p + [sep, '.', '.'];
    assert TrimTrailingSeparators(q) == q;
    assert TrimTrailing(q) == q;
    LastComponentOfJoin(p, sep, "..");
    assert q == p + [sep] + "..";
  }

  /** The empty path, as returned when the image path cannot be read, has no file name. */
  lemma EmptyPathHasNoFileName()
    ensures ProcessFileName("") == NO_FILE_NAME
  {
  }

  /**
   * `can_layout`: a manually hidden window always counts; any other window must be
   * cloaked, an app window and an alt-tab window, as written.
   */
  predicate CanLayout(didManualHide: bool, s: WindowStyles)
  {
    didManualHide || (IsCloaked(s) && IsAppWindow(s) && IsAltTabWindow(s))
  }

  /** The value `hide` leaves in `did_manual_hide`: set only when `can_layout` holds. */
  function HiddenFlag(didManualHide: bool, s: WindowStyles): (r: bool)
    ensures CanLayout(didManualHide, s) ==> r
    ensures !CanLayout(didManualHide, s) ==> r == didManualHide
  {
    if CanLayout(didManualHide, s) then true else didManualHide
  }

  /** Hiding keeps a window's layout eligibility, and hiding twice is hiding once. */
  lemma HiddenFlagKeepsCanLayout(didManualHide: bool, s: WindowStyles)
    ensures CanLayout(HiddenFlag(didManualHide, s), s) == CanLayout(didManualHide, s)
    ensures HiddenFlag(HiddenFlag(didManualHide, s), s) == HiddenFlag(didManualHide, s)
  {
  }

  /** As written, an ordinary visible, uncloaked, unowned top-level window cannot be laid out. */
  lemma VisibleWindowNotLayoutable(s: WindowStyles)
    requires s == WindowStyles(true, 0, 0, 0, Some(0))
    ensures IsAppWindow(s) && IsAltTabWindow(s) && !IsCloaked(s)
    ensures !CanLayout(false, s)
  {
  }

  /** `can_layout` as evidently intended: a window the OS cloaks is not laid out. */
  predicate CanLayoutCorrected(didManualHide: bool, s: WindowStyles)
  {
    didManualHide || (!IsCloaked(s) && IsAppWindow(s) && IsAltTabWindow(s))
  }

  /**
   * Corrected, every visible uncloaked app and alt-tab window can be laid out, and a
   * cloaked window only when the manager hid it itself.
   */
  lemma CanLayoutCorrectedExcludesCloaked(didManualHide: bool, s: WindowStyles)
    ensures !IsCloaked(s) && IsAppWindow(s) && IsAltTabWindow(s) ==> CanLayoutCorrected(didManualHide, s)
    ensures IsCloaked(s) ==> (CanLayoutCorrected(didManualHide, s) <==> didManualHide)
    ensures !IsCloaked(s) ==> (CanLayoutCorrected(didManualHide, s) <==> didManualHide || CanLayout(didManualHide, s.(cloaked := Some(1))))
  {
  }

  /** The `ShowWindow` command each transition issues. */
  datatype ShowCommand = SwHide | SwShowNoActivate | SwShowMaximized | SwShowMinimized

  /** The numeric `SW_*` value of a command. */
  function ShowCommandValue(c: ShowCommand): (v: int)
    ensures c == SwHide <==> v == 0
    ensures c == SwShowMinimized <==> v == 2
    ensures c == SwShowMaximized <==> v == 3
    ensures c == SwShowNoActivate <==> v == 4
  {
    match c
    case SwHide => 0
    case SwShowMinimized => 2
    case SwShowMaximized => 3
    case SwShowNoActivate => 4
  }

  /** The command `show_in_current_state` picks from `IsIconic` and `IsZoomed`. */
  function CurrentStateCommand(iconic: bool, zoomed: bool): (c: ShowCommand)
    ensures iconic ==> c == SwShowMinimized
    ensures !iconic && zoomed ==> c == SwShowMaximized
    ensures !iconic && !zoomed ==> c == SwShowNoActivate
  {
    if iconic then SwShowMinimized else if zoomed then SwShowMaximized else SwShowNoActivate
  }

  /** The show state a location reports, from `IsIconic` and `IsZoomed`. */
  function ObservedState(iconic: bool, zoomed: bool): (st: WindowState)
    ensures st == Minimized <==> iconic
    ensures st == Maximized <==> !iconic && zoomed
  {
    if iconic then Minimized else if zoomed then Maximized else Normal
  }

  /** The command that restores a state. */
  function StateCommand(st: WindowState): (c: ShowCommand)
    ensures c != SwHide
  {
    match st
    case Normal => SwShowNoActivate
    case Minimized => SwShowMinimized
    case Maximized => SwShowMaximized
  }

  /** `show_in_current_state` re-issues exactly the state the window reports. */
  lemma CurrentStateCommandMatchesState(iconic: bool, zoomed: bool)
    ensures CurrentStateCommand(iconic, zoomed) == StateCommand(ObservedState(iconic, zoomed))
  {
  }

  /**
   * `location()` as written: the state from `IsIconic`/`IsZoomed`, x from `rect.left`,
   * width and height from the edges, but y from `rect.right`.
   */
  function Location(rect: Rect, iconic: bool, zoomed: bool): (l: WindowLocation)
    ensures l.x == rect.left && l.y == rect.right
    ensures l.width == rect.right - rect.left && l.height == rect.bottom - rect.top
    ensures l.state == ObservedState(iconic, zoomed)
  {
    WindowLocation(rect.left, rect.right, rect.right - rect.left, rect.bottom - rect.top, ObservedState(iconic, zoomed))
  }

  /** `location()` with y taken from `rect.top`: the four edges of `rect` are recovered. */
  function LocationCorrected(rect: Rect, iconic: bool, zoomed: bool): (l: WindowLocation)
    ensures FromLtrb(l.x, l.y, l.x + l.width, l.y + l.height) == FromRect(rect)
    ensures l.state == ObservedState(iconic, zoomed)
  {
    WindowLocation(rect.left, rect.top, rect.right - rect.left, rect.bottom - rect.top, ObservedState(iconic, zoomed))
  }

  /** Both readings agree exactly when the rectangle's right edge equals its top edge. */
  lemma LocationDiffersFromCorrected(rect: Rect, iconic: bool, zoomed: bool)
    ensures Location(rect, iconic, zoomed) == LocationCorrected(rect, iconic, zoomed) <==> rect.right == rect.top
  {
  }

  /**
   * `offset()`: the raw window rectangle minus the extended frame bounds, field by field,
   * so that adding it to a frame rectangle gives the raw rectangle.
   */
  function Offset(raw: Rect, frame: Rect): (o: Rectangle)
    ensures var r, f := FromRect(raw), FromRect(frame);
            f.x + o.x == r.x && f.y + o.y == r.y && f.width + o.width == r.width && f.height + o.height == r.height
  {
    var r := FromRect(raw);
    var f := FromRect(frame);
    Rectangle(r.x - f.x, r.y - f.y, r.width - f.width, r.height - f.height)
  }

  /** A window without an invisible border has the zero offset. */
  lemma OffsetOfSameRect(raw: Rect)
    ensures Offset(raw, raw).IsEmpty()
  {
  }
}
