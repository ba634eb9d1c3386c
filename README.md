# tile-rs core, modelled in Dafny

tile-rs is a tiling window manager for Windows. This project models its core, module
by module, one module per source file:

- the window manager's registry of tracked windows, with its event, key and mouse channels (`Manager`);
- workspaces (`Workspaces`) and the four layout engines: dwindle, focus, full and grid;
- the two window wrappers (`WorkspaceWindow` for `window.rs`, `TrackedWindow` for `windows_window.rs`) and
  what they read from the OS (`NativeWindow`, `Win32Helpers`);
- the batch mover (`DeferPos`), the monitor list (`Monitors`) and the callback registry (`Events`);
- the keyboard-hook decoding (`Keys`) and the geometry types (`Geometry`, `Locations`).

What the OS reports is passed to the model as an argument:

- a window's process, styles, cloaking and rectangles;
- the foreground window;
- the screen a point falls on;
- whether each window is minimized or maximized when the deferred-move handle is dropped.
  While the drop runs, the OS answers afresh for every window, so the model carries the
  effect of the drop's own earlier `ShowWindow` calls forward (`DeferPos.ShowState`).

What the manager asks the OS to do is appended to an effect log (`ShowWindow`,
`DeferWindowPos`, `BringWindowToTop`).

Rust's truncating `/` and its `as i32` cast are written out in `RustArith`. Floating-point
percentages are whole hundredths.

Objects whose fields the source updates in place are classes:

- the manager, the workspace and the three stateful layout engines;
- the deferred-move handle and the event registry.

Windows are plain values, stored by value in the source, so they are datatypes here. Their
`&mut self` flag updates are functions that return the updated window together with the
`ShowWindow` command issued.

`VirtualKey` is a fieldless enum whose discriminants are the virtual-key codes. A variant
is represented by its discriminant: `Keys.VirtualKey` is the set of codes the enum lists,
and each variant is a named constant.

The model follows the code as written. Where the code evidently does not do what was meant,
the written behaviour is the one used. A corrected definition sits beside it, with the
intended property proved about it (see "## Findings").

## Model

| member | source | states |
|---|---|---|
| RustArith.TDiv | src/layout_engines/focus_layout_engine.rs:113-115 | Rust's signed `/`: equals Euclidean division for non-negative operands, and the quotient brackets the dividend from the side of zero |
| RustArith.AsI32 | src/native_monitor_container.rs:33-35 | `as i32`: the result is in the i32 range, is congruent to the input modulo 2^32, and is the input itself when that fits |
| LayoutEngines.Variants | src/layout_engines/mod.rs:24-33 | the variant list has four entries |
| LayoutEngines.VariantsEnumerateAllTypes | src/layout_engines/mod.rs:12-33 | every engine type is listed exactly once, and the default (`Full`) is the third |
| LayoutEngines.PrimaryWidthWithinSpace | src/layout_engines/dwindle_layout_engine.rs:56-57 | a 0..100 percentage of a non-negative width lies between 0 and that width |
| LayoutEngines.PrimaryWidthMonotone | src/layout_engines/dwindle_layout_engine.rs:56-57 | a larger percentage never gives a narrower primary area |
| LayoutEngines.StackedRowsFit | src/layout_engines/focus_layout_engine.rs:113-115 | `count` rows of height `space / count`, stacked from the top, stay within the space |
| Geometry.Rectangle.Location | src/structs.rs:51-56 | the location is the left-top corner |
| Geometry.Rectangle.Left | src/structs.rs:65-67 | the left edge, `x` |
| Geometry.Rectangle.Top | src/structs.rs:69-71 | the top edge, `y` |
| Geometry.Rectangle.Right | src/structs.rs:73-75 | the right edge, `x + width` |
| Geometry.Rectangle.Bottom | src/structs.rs:77-79 | the bottom edge, `y + height` |
| Geometry.Rectangle.IsEmpty | src/structs.rs:81-83 | all four fields zero; `IsEmptyIffZero` proves it |
| Geometry.Rectangle.Contains | src/structs.rs:85-87 | half-open containment of a point; `ContainsRectNeverReflexive` proves its consequence |
| Geometry.Rectangle.ContainsPoint | src/structs.rs:89-91 | `Contains` on the point's coordinates |
| Geometry.Rectangle.ContainsRect | src/structs.rs:93-95 | both corners contained, half-open, so never the rectangle itself |
| Geometry.Rectangle.IntersectWith | src/structs.rs:117-121 | `Intersect` on a copy; `IntersectWithCommutes` and `IntersectWithInsideBoth` prove its properties |
| Geometry.Rectangle.IntersectsWith | src/structs.rs:123-128 | strict overlap on both axes; `IntersectsWithSymmetric` and `IntersectsWithMatchesIntersect` prove its properties |
| Geometry.Rectangle.GetSize | src/structs.rs:33-63 | rebuilding a rectangle from its location and size gives it back |
| Geometry.Rectangle.Inflate | src/structs.rs:97-102 | every edge moves outward by the given amounts |
| Geometry.Rectangle.Intersect | src/structs.rs:104-115 | the overlap of the clipped edges when they do not cross, otherwise the empty rectangle |
| Geometry.Rectangle.UnionWith | src/structs.rs:130-137 | the result spans both rectangles, and each of its edges is an edge of one of them |
| Geometry.Rectangle.Offset | src/structs.rs:139-143 | moves by (dx, dy) and keeps the size |
| Geometry.FromPoints | src/structs.rs:33-40 | the rectangle has that location and size |
| Geometry.FromLtrb | src/structs.rs:42-49 | the rectangle has those four edges |
| Geometry.FromRect | src/structs.rs:145-154 | a `RECT` converts to the rectangle with the same four edges |
| Geometry.ContainsRectNeverReflexive | src/structs.rs:85-95 | with half-open containment no rectangle contains itself |
| Geometry.IntersectsWithSymmetric | src/structs.rs:123-128 | `intersects_with` is symmetric |
| Geometry.IntersectsWithMatchesIntersect | src/structs.rs:104-128 | for rectangles of positive size, `intersects_with` holds exactly when `intersect_with` gives a rectangle of positive size |
| Geometry.IntersectWithCommutes | src/structs.rs:117-121 | `intersect_with` is commutative |
| Geometry.IntersectWithInsideBoth | src/structs.rs:117-121 | a non-empty intersection lies inside both rectangles |
| Geometry.UnionWithCommutes | src/structs.rs:130-137 | `union_with` is commutative |
| Geometry.SharedEdgeIsZeroWidthStrip | src/structs.rs:104-128 | two rectangles sharing only an edge do not intersect, yet `intersect_with` returns the zero-width strip along that edge |
| Geometry.IsEmptyIffZero | src/structs.rs:81-83 | `is_empty` holds exactly for the all-zero rectangle |
| Geometry.InflateDeflate | src/structs.rs:97-102 | inflating and then deflating by the same amounts restores the rectangle |
| Locations.StateName | src/window_location.rs:29-37 | the `{:?}` names `Normal`, `Minimized` and `Maximized`, one per state in both directions |
| Locations.NatToString | src/window_location.rs:29-37 | decimal digits with no leading zero |
| Locations.IntToString | src/window_location.rs:29-37 | `{}` on an integer: a minus sign for negatives, then the digits of the magnitude |
| Locations.NatToStringRoundTrip | src/window_location.rs:29-37 | reading the printed digits back gives the number |
| Locations.Display | src/window_location.rs:29-37 | the rendering opens with the state name and ` - ` before the coordinates |
| Locations.DisplayDistinguishesStates | src/window_location.rs:29-37 | locations in different states never render alike |
| Locations.CornersInside | src/window_location.rs:24-26 | all four corners of a location of non-negative size are inside it (closed containment) |
| Locations.BeyondEdgeIsOutside | src/window_location.rs:24-26 | a point beyond any edge is outside |
| Locations.WindowLocation.IsPointInside | src/window_location.rs:24-26 | closed containment on both axes; `CornersInside` and `BeyondEdgeIsOutside` prove it |
| Locations.DisplayExample | src/window_location.rs:29-37 | a concrete rendering, `"Minimized - 1:-2/30:4"` |
| ClassesLocations.Display | src/classes/window_location.rs:30-38 | the rendering closes with the state name in brackets after the size |
| ClassesLocations.DisplayDistinguishesStates | src/classes/window_location.rs:30-38 | locations in different states never render alike |
| ClassesLocations.DisplayExample | src/classes/window_location.rs:30-38 | a concrete rendering, `"0x5 \| 80x6 [Maximized]"` |
| Win32Helpers.CloakedValue | src/win32_helpers.rs:10-22 | the out-parameter stays 0 when the attribute query fails |
| Win32Helpers.CloakedIff | src/win32_helpers.rs:10-22 | cloaked exactly when the query succeeds with a non-zero value |
| Win32Helpers.AppWindowExcludedBits | src/win32_helpers.rs:25-31 | `WS_EX_NOACTIVATE`, `WS_CHILD` or invisibility each disqualify an app window |
| Win32Helpers.AltTabIff | src/win32_helpers.rs:34-48 | an alt-tab window is exactly one that is neither a tool window nor owned |
| Win32Helpers.AltTabIgnoresAppWindowBit | src/win32_helpers.rs:34-48 | `WS_EX_APPWINDOW` does not change the alt-tab test |
| Win32Helpers.IsCloaked | src/win32_helpers.rs:10-22 | the cloaked attribute read as non-zero; `CloakedIff` proves both directions |
| Win32Helpers.IsAppWindow | src/win32_helpers.rs:25-31 | visible, not `WS_EX_NOACTIVATE`, not `WS_CHILD`; `AppWindowExcludedBits` proves it |
| Win32Helpers.IsAltTabWindow | src/win32_helpers.rs:34-48 | the source's three branches; `AltTabIff` proves it is exactly neither tool window nor owned |
| NativeWindow.CheckProcess | src/windows_window.rs:40-61 | construction fails first on a zero process id, then on a failing `OpenProcess`, and succeeds otherwise |
| NativeWindow.TrimTrailingSeparators | src/windows_window.rs:72-76 | the longest prefix not ending in a separator; only separators are removed |
| NativeWindow.LastComponent | src/windows_window.rs:72-76 | the separator-free suffix that follows the last separator |
| NativeWindow.TrimTrailing | src/windows_window.rs:72-76 | a prefix of the path that ends neither in a separator nor in a `.` component after a separator |
| NativeWindow.FileName | src/windows_window.rs:72-76 | `Path::file_name`: when present, the non-empty last component after trailing separators and `.` components are skipped, never `.` or `..` |
| NativeWindow.ProcessFileName | src/windows_window.rs:72-76 | the file name, or `--NA--` when there is none |
| NativeWindow.LastComponentOfJoin | src/windows_window.rs:72-76 | the last component of `dir` + separator + `name` is `name` |
| NativeWindow.FileNameOfJoin | src/windows_window.rs:72-76 | the stored file name of `dir\name` is `name`, whatever the directory |
| NativeWindow.FileNameIgnoresTrailingSeparator | src/windows_window.rs:72-76 | a trailing separator does not change the file name |
| NativeWindow.TrimTrailingIgnoresSeparator | src/windows_window.rs:72-76 | a trailing separator does not change what the components end with |
| NativeWindow.FileNameIgnoresTrailingCurrentDir | src/windows_window.rs:72-76 | a trailing `.` component does not change the file name, so `dir\app.exe\.` names `app.exe` |
| NativeWindow.ParentDirHasNoFileName | src/windows_window.rs:72-76 | a path ending in a `..` component has no file name |
| NativeWindow.EmptyPathHasNoFileName | src/windows_window.rs:72-76 | an empty image path stores `--NA--` |
| NativeWindow.HiddenFlag | src/windows_window.rs:250-260 | `hide` sets the manual-hide flag when the window can be laid out, and leaves it alone otherwise |
| NativeWindow.HiddenFlagKeepsCanLayout | src/windows_window.rs:195-260 | hiding keeps layout eligibility, and hiding twice is hiding once |
| NativeWindow.VisibleWindowNotLayoutable | src/windows_window.rs:195-202 | as written, an ordinary visible, uncloaked, unowned top-level window cannot be laid out |
| NativeWindow.CanLayoutCorrectedExcludesCloaked | src/windows_window.rs:195-202 | with the cloaked test negated, a cloaked window is laid out only after a manual hide, and an uncloaked app and alt-tab window always is |
| NativeWindow.CanLayout | src/windows_window.rs:195-202 | as written: manually hidden, or cloaked, an app window and an alt-tab window |
| NativeWindow.CanLayoutCorrected | src/windows_window.rs:195-202 | the same with the cloaked test negated |
| NativeWindow.ShowCommandValue | src/windows_window.rs:250-302 | the Win32 numbers: `SW_HIDE` 0, `SW_SHOWMINIMIZED` 2, `SW_SHOWMAXIMIZED` 3, `SW_SHOWNOACTIVATE` 4, one per command in both directions |
| NativeWindow.CurrentStateCommand | src/windows_window.rs:292-302 | minimized wins over maximized, which wins over normal |
| NativeWindow.ObservedState | src/windows_window.rs:128-133 | minimized exactly when iconic, maximized exactly when zoomed and not iconic |
| NativeWindow.StateCommand | src/windows_window.rs:262-302 | restoring a state never hides the window |
| NativeWindow.CurrentStateCommandMatchesState | src/windows_window.rs:122-302 | `show_in_current_state` re-issues exactly the state `location` reports |
| NativeWindow.Location | src/windows_window.rs:122-142 | as written: x is the left edge, y is the right edge, the size is the edge differences, and the state comes from iconic and zoomed |
| NativeWindow.LocationCorrected | src/windows_window.rs:122-142 | with y from the top edge, the four edges of the rectangle are recovered |
| NativeWindow.LocationDiffersFromCorrected | src/windows_window.rs:122-142 | the written and corrected readings agree exactly when the right edge equals the top edge |
| NativeWindow.Offset | src/windows_window.rs:144-181 | the invisible border: the frame bounds subtracted edge by edge from the window rectangle |
| NativeWindow.OffsetOfSameRect | src/windows_window.rs:144-181 | a window with no invisible border has the empty offset |
| TrackedWindow.WindowsWindow.Hide | src/windows_window.rs:250-260 | only the manual-hide flag changes; it is set exactly when it was already set or the window can be laid out; the command is `SW_HIDE` |
| TrackedWindow.WindowsWindow.IsFocused | src/windows_window.rs:204-207 | focused exactly when the handle is the foreground window |
| TrackedWindow.WindowsWindow.ShowNormal | src/windows_window.rs:262-270 | clears the manual-hide flag and issues `SW_SHOWNOACTIVATE` |
| TrackedWindow.WindowsWindow.ShowMaximized | src/windows_window.rs:272-280 | clears the manual-hide flag and issues `SW_SHOWMAXIMIZED` |
| TrackedWindow.WindowsWindow.ShowMinimized | src/windows_window.rs:282-290 | clears the manual-hide flag and issues `SW_SHOWMINIMIZED` |
| TrackedWindow.WindowsWindow.ShowInCurrentState | src/windows_window.rs:292-302 | clears the flag and issues the command of the observed state |
| TrackedWindow.New | src/windows_window.rs:39-88 | succeeds exactly when the process id is non-zero and the process opens; the error is the first failing check; the window keeps the handle, process id, image path and its file name, and both flags start cleared |
| TrackedWindow.HideThenShowRestores | src/windows_window.rs:250-270 | hide then show clears the flag, and restores a window that was not hidden exactly |
| TrackedWindow.HiddenWindowCanLayout | src/windows_window.rs:195-260 | a layoutable window hidden by the manager stays layoutable whatever the OS later reports |
| WorkspaceWindow.Window.Hide | src/window.rs:317-327 | as for `WindowsWindow::hide` |
| WorkspaceWindow.Window.IsFocused | src/window.rs:269-272 | focused exactly when the handle is the foreground window |
| WorkspaceWindow.Window.ShowNormal | src/window.rs:329-337 | clears the manual-hide flag and issues `SW_SHOWNOACTIVATE` |
| WorkspaceWindow.Window.ShowMaximized | src/window.rs:339-347 | clears the manual-hide flag and issues `SW_SHOWMAXIMIZED` |
| WorkspaceWindow.Window.ShowMinimized | src/window.rs:349-357 | clears the manual-hide flag and issues `SW_SHOWMINIMIZED` |
| WorkspaceWindow.Window.ShowInCurrentState | src/window.rs:360-370 | clears the flag and issues the command of the observed state |
| WorkspaceWindow.NulPosition | src/window.rs:175-185 | the index of the first NUL, or the length when there is none |
| WorkspaceWindow.ClassFromBuffer | src/window.rs:175-185 | a NUL-free prefix of the buffer, followed in the buffer by a NUL when shorter |
| WorkspaceWindow.ClassFromPaddedBuffer | src/window.rs:175-185 | a NUL-free name written into a zero-filled buffer is read back unchanged |
| WorkspaceWindow.New | src/window.rs:60-149 | rejects an ignored class, then an empty title, then an ignored title, then process failures, then an ignored program; it succeeds exactly when no check rejects, and keeps the handle, process data and file name with both flags cleared |
| WorkspaceWindow.FiltersPrecedeProcessLookup | src/window.rs:63-92 | when the class or title filter rejects, the process is never consulted and the error is not a process error |
| WorkspaceWindow.IgnoredProgramRejected | src/window.rs:123-139 | an ignored program image is rejected from whatever directory it runs |
| WorkspaceWindow.HideThenShowRestores | src/window.rs:317-337 | hide then show clears the flag, and restores a window that was not hidden exactly |
| Keys.FromVkOfCode | src/keys.rs:55-352 | decoding the discriminant of any variant but `Unknown` gives that variant |
| Keys.CodeOfFromVk | src/keys.rs:204-352 | every code decodes either to `Unknown` or to the variant whose discriminant it is |
| Keys.FromVkInjective | src/keys.rs:204-352 | distinct listed codes decode to distinct keys |
| Keys.UnlistedCodesAreUnknown | src/keys.rs:204-352 | codes missing from the table, inside or outside its range, decode to `Unknown` |
| Keys.FromVk | src/keys.rs:204-352 | the `from_vk` table; `FromVkOfCode`, `CodeOfFromVk`, `FromVkInjective` and `UnlistedCodesAreUnknown` prove its properties |
| Keys.IsDown | src/keys.rs:33-37 | bit 15 of a `GetAsyncKeyState` reading is set |
| Keys.Message | src/keys.rs:21-22 | `w_param as u32` keeps the low 32 bits |
| Keys.New | src/keys.rs:19-52 | a chord exactly for a non-negative hook code on a key-down or system-key-down; the key decoded from the code; each modifier down exactly when bit 15 of its state is set, Win for either Windows key |
| Keys.NewIgnoresHighWParamBits | src/keys.rs:19-52 | bits of `w_param` above 32 are ignored |
| Keys.AltTDecodesToDefaultBinding | src/keys.rs:19-52 | T pressed with only Alt down decodes to the default toggle binding |
| DwindleLayout.Advance | src/layout_engines/dwindle_layout_engine.rs:96-111 | each step flips the cutting orientation |
| DwindleLayout.DwindleLayout | src/layout_engines/dwindle_layout_engine.rs:42-116 | one normal-state location per window |
| DwindleLayout.DwindleLayoutEngine.constructor | src/layout_engines/dwindle_layout_engine.rs:21-30 | one primary window, 50% primary width, 3% steps, zero offsets |
| DwindleLayout.DwindleLayoutEngine.GetNumInPrimary | src/layout_engines/dwindle_layout_engine.rs:32-34 | the configured primary count shifted by exactly the count offset; the configured count while the offset is zero |
| DwindleLayout.DwindleLayoutEngine.Name | src/layout_engines/dwindle_layout_engine.rs:38-40 | the engine always reports `dwindle` |
| DwindleLayout.DwindleLayoutEngine.CalcLayout | src/layout_engines/dwindle_layout_engine.rs:42-116 | the loop computes exactly the layout function for the window count, current primary count and primary width |
| DwindleLayout.DwindleLayoutEngine.ShrinkPrimaryArea | src/layout_engines/dwindle_layout_engine.rs:118-120 | one step less, and the primary width never grows |
| DwindleLayout.DwindleLayoutEngine.ExpandPrimaryArea | src/layout_engines/dwindle_layout_engine.rs:122-124 | one step more, and the primary width never shrinks |
| DwindleLayout.DwindleLayoutEngine.ResetPrimaryArea | src/layout_engines/dwindle_layout_engine.rs:126-128 | the width offset returns to zero and the count offset is kept |
| DwindleLayout.DwindleLayoutEngine.IncrementNumInPrimary | src/layout_engines/dwindle_layout_engine.rs:130-132 | one more primary window |
| DwindleLayout.DwindleLayoutEngine.DecrementNumInPrimary | src/layout_engines/dwindle_layout_engine.rs:134-138 | one fewer only while more than one, so the count never drops below one this way |
| DwindleLayout.PrimaryPlacement | src/layout_engines/dwindle_layout_engine.rs:55-87 | primary windows are stacked in the left column at multiples of the primary height |
| DwindleLayout.AllPrimaryWhenEnoughSlots | src/layout_engines/dwindle_layout_engine.rs:55-87 | with enough primary slots every window spans the full width |
| DwindleLayout.FirstSecondaryPlacement | src/layout_engines/dwindle_layout_engine.rs:67-95 | the first secondary window fills the secondary width from the top, at half height when more than two windows are laid out |
| DwindleLayout.CursorOrientation | src/layout_engines/dwindle_layout_engine.rs:69-111 | the cuts alternate, starting vertical |
| DwindleLayout.SecondaryStep | src/layout_engines/dwindle_layout_engine.rs:88-111 | each secondary window sits below or beside the previous one and halves its cut dimension, except the last |
| DwindleLayout.CursorStaysInside | src/layout_engines/dwindle_layout_engine.rs:67-112 | the running cursor stays inside the secondary area, with room for the next cut |
| DwindleLayout.LayoutWithinSpace | src/layout_engines/dwindle_layout_engine.rs:42-116 | every window lies inside the space |
| DwindleLayout.ThreeWindowExample | src/layout_engines/dwindle_layout_engine.rs:42-116 | the concrete layout of three windows in a 1000 x 1000 space |
| FocusLayout.ColumnWidths | src/layout_engines/focus_layout_engine.rs:58-71 | the whole width when all windows are primary; otherwise side columns of half the rest, and the centre absorbs an empty right column |
| FocusLayout.FocusLayout | src/layout_engines/focus_layout_engine.rs:41-103 | one normal-state location per window |
| FocusLayout.FocusLayoutEngine.constructor | src/layout_engines/focus_layout_engine.rs:15-24 | one primary window, 70% primary width, 3% steps, zero offsets |
| FocusLayout.FocusLayoutEngine.WithParams | src/layout_engines/focus_layout_engine.rs:26-39 | the given parameters, zero offsets |
| FocusLayout.FocusLayoutEngine.GetNumInPrimary | src/layout_engines/focus_layout_engine.rs:139-141 | the configured primary count shifted by exactly the count offset; the configured count while the offset is zero |
| FocusLayout.FocusLayoutEngine.CalcLayout | src/layout_engines/focus_layout_engine.rs:41-103 | the loop computes exactly the layout function |
| FocusLayout.FocusLayoutEngine.ShrinkPrimaryArea | src/layout_engines/focus_layout_engine.rs:117-119 | one step less; with a non-negative step the primary width never grows |
| FocusLayout.FocusLayoutEngine.ExpandPrimaryArea | src/layout_engines/focus_layout_engine.rs:121-123 | one step more; with a non-negative step the primary width never shrinks |
| FocusLayout.FocusLayoutEngine.ResetPrimaryArea | src/layout_engines/focus_layout_engine.rs:125-127 | the primary width returns to the configured percentage |
| FocusLayout.FocusLayoutEngine.IncrementNumInPrimary | src/layout_engines/focus_layout_engine.rs:129-131 | one more primary window |
| FocusLayout.FocusLayoutEngine.DecrementNumInPrimary | src/layout_engines/focus_layout_engine.rs:133-137 | one fewer only while more than one |
| FocusLayout.SideCounts | src/layout_engines/focus_layout_engine.rs:105-111 | the side counts add up to the non-primary windows, and the left side has at most one more |
| FocusLayout.LeftCount | src/layout_engines/focus_layout_engine.rs:105-107 | `(n - primary + 1) / 2` with Rust's truncating division; `SideCounts` proves the split |
| FocusLayout.RightCount | src/layout_engines/focus_layout_engine.rs:109-111 | `(n - primary) / 2` with Rust's truncating division; `SideCounts` proves the split |
| FocusLayout.SecondaryHeight | src/layout_engines/focus_layout_engine.rs:113-115 | the height divided by the window count, at least 1 |
| FocusLayout.CentreColumn | src/layout_engines/focus_layout_engine.rs:73-81 | primary windows are stacked in the centre column |
| FocusLayout.SideColumns | src/layout_engines/focus_layout_engine.rs:82-100 | the first non-primary windows fill the left column, the rest the right column, each stacked from the top |
| FocusLayout.AllPrimaryWhenEnoughSlots | src/layout_engines/focus_layout_engine.rs:66-81 | with enough primary slots every window spans the full width |
| FocusLayout.LayoutWithinSpace | src/layout_engines/focus_layout_engine.rs:41-103 | every window lies inside the space |
| FocusLayout.ColumnsFit | src/layout_engines/focus_layout_engine.rs:58-71 | the columns are non-negative and together no wider than the space |
| FocusLayout.CellWithinSpace | src/layout_engines/focus_layout_engine.rs:73-100 | each cell lies inside the space |
| FocusLayout.FourWindowExample | src/layout_engines/focus_layout_engine.rs:41-103 | the concrete layout of four windows |
| FocusLayout.TwoWindowExample | src/layout_engines/focus_layout_engine.rs:41-103 | with no right-hand window the centre column takes its share |
| FullLayout.DesiredState | src/layout_engines/full_layout_engine.rs:20-27 | normal exactly when focused or forced, otherwise minimized, never maximized |
| FullLayout.ForceNormal | src/layout_engines/full_layout_engine.rs:50-51 | the remembered window while nothing is focused, or the focused window |
| FullLayout.LastFullAfter | src/layout_engines/full_layout_engine.rs:47-55 | the focused handle when the list has one, otherwise unchanged; `CalcLayout` proves the loop leaves it |
| FullLayout.FullLayout | src/layout_engines/full_layout_engine.rs:34-66 | one location per window |
| FullLayout.FullLayoutEngine.constructor | src/layout_engines/full_layout_engine.rs:13-18 | nothing remembered |
| FullLayout.FullLayoutEngine.Name | src/layout_engines/full_layout_engine.rs:30-32 | the engine always reports `full` |
| FullLayout.FullLayoutEngine.CalcLayout | src/layout_engines/full_layout_engine.rs:34-66 | the loop computes the layout function, and remembers the foreground window when one of the list has it |
| FullLayout.FillsSpace | src/layout_engines/full_layout_engine.rs:57-63 | every window fills the space |
| FullLayout.ShownIff | src/layout_engines/full_layout_engine.rs:47-63 | a window is shown exactly when focused, or when nothing is focused and it was shown last; every other window is minimized |
| FullLayout.AtMostOneShown | src/layout_engines/full_layout_engine.rs:47-63 | with distinct handles at most one window is shown |
| FullLayout.LayoutIsStable | src/layout_engines/full_layout_engine.rs:34-66 | laying out again with the same foreground changes nothing |
| FullLayout.LastFocusedStaysShown | src/layout_engines/full_layout_engine.rs:47-63 | when focus leaves the list, the window last focused stays shown |
| FullLayout.NothingShownWithoutFocusOrMemory | src/layout_engines/full_layout_engine.rs:47-63 | with nothing focused and nothing remembered, every window is minimized |
| GridLayout.CeilSqrt | src/layout_engines/grid_layout_engine.rs:36 | the least `w` with `w * w >= n` |
| GridLayout.CeilDiv | src/layout_engines/grid_layout_engine.rs:37 | the least `q` with `q * b >= a` |
| GridLayout.GridLayout | src/layout_engines/grid_layout_engine.rs:23-58 | one normal-state location per window |
| GridLayout.GridLayoutEngine.constructor | src/layout_engines/grid_layout_engine.rs:11-15 | the engine's stored name |
| GridLayout.GridLayoutEngine.Name | src/layout_engines/grid_layout_engine.rs:19-21 | as written, the grid engine always reports `full`, the same name as the full engine (the name set at grid_layout_engine.rs:13) |
| GridLayout.GridLayoutEngine.CalcLayout | src/layout_engines/grid_layout_engine.rs:23-58 | the loop computes exactly the grid layout for the window count |
| GridLayout.GridShape | src/layout_engines/grid_layout_engine.rs:36-37 | enough cells for all windows, and no more rows than columns |
| GridLayout.GridWidth | src/layout_engines/grid_layout_engine.rs:36 | the column count, the ceiling of the square root |
| GridLayout.GridHeight | src/layout_engines/grid_layout_engine.rs:37 | the row count, the ceiling of windows over columns |
| GridLayout.GridCell | src/layout_engines/grid_layout_engine.rs:39-54 | as written, x from `i / columns` and y from `i % rows`; `GridCellsCollide` exhibits the collision |
| GridLayout.RowIndexBound | src/layout_engines/grid_layout_engine.rs:36-37 | read row-major, every window index falls in an existing row |
| GridLayout.LayoutWithinSpace | src/layout_engines/grid_layout_engine.rs:36-55 | as written, every window still lies inside the space |
| GridLayout.GridCellsCollide | src/layout_engines/grid_layout_engine.rs:45-46 | as written, two windows get the same cell |
| GridLayout.GridLayoutCorrected | src/layout_engines/grid_layout_engine.rs:23-58 | the row-major grid: one normal-state location per window |
| GridLayout.CorrectedWithinSpace | src/layout_engines/grid_layout_engine.rs:36-55 | row-major placement keeps every window inside the space |
| GridLayout.CorrectedPositionsDistinct | src/layout_engines/grid_layout_engine.rs:36-55 | distinct windows get distinct (column, row) positions |
| GridLayout.CorrectedCellsDisjoint | src/layout_engines/grid_layout_engine.rs:36-55 | with cells at least a pixel each way, distinct windows get disjoint cells |
| DeferPos.FlagsFor | src/windows_defer_pos_handle.rs:31-46 | always the base flags; no-move and no-size exactly for minimized and maximized targets |
| DeferPos.Target | src/windows_defer_pos_handle.rs:48-52 | the requested location widened by the window's invisible border |
| DeferPos.DeferEffectsWith | src/windows_defer_pos_handle.rs:48-63 | at most one `DeferWindowPos`, issued exactly when the window is not already at the target, with the state's flags |
| DeferPos.NormalEffects | src/windows_defer_pos_handle.rs:79-81 | one call per queued window |
| DeferPos.MinimizePass | src/windows_defer_pos_handle.rs:69-73 | at most one call per queued window; afterwards every queued window is minimized, and no longer maximized unless it was minimized already |
| DeferPos.MaximizePass | src/windows_defer_pos_handle.rs:74-78 | at most one call per queued window; afterwards every queued window is maximized, and no longer minimized unless it was maximized already |
| DeferPos.DropEffects | src/windows_defer_pos_handle.rs:67-89 | the minimize calls, then the maximize calls made against the state the minimize loop leaves, then one normal show per queued window, then the end of the batch |
| DeferPos.DeferEffects | src/windows_defer_pos_handle.rs:48-63 | the calls of `defer_window_pos` when the current location is read by `location()` as written |
| DeferPos.WindowsDeferPosHandle.constructor | src/windows_defer_pos_handle.rs:20-28 | empty queues and no calls yet |
| DeferPos.WindowsDeferPosHandle.DeferWindowPosition | src/windows_defer_pos_handle.rs:30-65 | the window joins the queue of its target state, and the move is logged when needed |
| DeferPos.WindowsDeferPosHandle.Drop | src/windows_defer_pos_handle.rs:67-89 | the calls are those of `DropEffects` for what the OS reports when the drop starts; the queues are untouched |
| DeferPos.MinimizeCalls | src/windows_defer_pos_handle.rs:69-73 | the loop, asking about each window as it reaches it, makes exactly the calls of `MinimizePass` and leaves its state |
| DeferPos.MaximizeCalls | src/windows_defer_pos_handle.rs:74-78 | the loop, asking about each window as it reaches it, makes exactly the calls of `MaximizePass` and leaves its state |
| DeferPos.NormalCalls | src/windows_defer_pos_handle.rs:79-81 | one `SW_SHOWNOACTIVATE` per queued window, in queue order |
| DeferPos.JoinsExactlyOneQueue | src/windows_defer_pos_handle.rs:34-46 | a deferred window joins exactly one queue |
| DeferPos.MinimizePassExact | src/windows_defer_pos_handle.rs:69-73 | `SW_MINIMIZE` goes exactly to the queued windows not minimized when the loop starts |
| DeferPos.MinimizePassOncePerWindow | src/windows_defer_pos_handle.rs:69-73 | no window is minimized twice, however often it is queued |
| DeferPos.MaximizePassExact | src/windows_defer_pos_handle.rs:74-78 | `SW_SHOWMAXIMIZED` goes exactly to the queued windows not maximized when the loop starts |
| DeferPos.MaximizePassOncePerWindow | src/windows_defer_pos_handle.rs:74-78 | no window is maximized twice, however often it is queued |
| DeferPos.QueuedTwiceMinimizedOnce | src/windows_defer_pos_handle.rs:69-73 | a window queued twice for minimizing gets one `SW_MINIMIZE` |
| DeferPos.MinimizedThenMaximized | src/windows_defer_pos_handle.rs:69-78 | a maximized window queued both ways is minimized and then maximized again |
| DeferPos.NormalEffectsInOrder | src/windows_defer_pos_handle.rs:79-81 | every normal-queued window is shown without activation, in queue order |
| DeferPos.NoRedundantMoveCorrected | src/windows_defer_pos_handle.rs:48-63 | read correctly, a window already at its target is not moved |
| DeferPos.RedundantMoveAsWritten | src/windows_defer_pos_handle.rs:48-63 | as written, a window already at its target is moved again exactly when its right edge differs from its top edge |
| DeferPos.RedundantMoveExample | src/windows_defer_pos_handle.rs:48-63 | a window at (0, 0)-(800, 600), asked to stay there, is moved |
| Monitors.OfKind | src/native_monitor_container.rs:15 | the screens of one kind, taken from the list |
| Monitors.PrimaryFirst | src/native_monitor_container.rs:15 | the sorted list is as long as the input |
| Monitors.PrimaryFirstIsPermutation | src/native_monitor_container.rs:15 | the sort only reorders |
| Monitors.PrimaryFirstPutsPrimariesFirst | src/native_monitor_container.rs:15 | no non-primary screen precedes a primary one |
| Monitors.PrimaryFirstIsStable | src/native_monitor_container.rs:15 | within each kind the original order is kept |
| Monitors.FindByName | src/native_monitor_container.rs:49-60 | the first monitor on the named screen, or none exactly when no monitor is on it |
| Monitors.NativeMonitorContainer.NumMonitors | src/native_monitor_container.rs:33-35 | the monitor count whenever it fits in an i32, and always within the i32 range |
| Monitors.NativeMonitorContainer.GetMonitorAtIndex | src/native_monitor_container.rs:45-47 | a monitor exactly for an index in range, and it is the one at that index |
| Monitors.NativeMonitorContainer.FocusedMonitor | src/native_monitor_container.rs:37-39 | the monitor at the focused index |
| Monitors.NativeMonitorContainer.MonitorOnScreen | src/native_monitor_container.rs:49-73 | the first monitor on the resolved screen, the one `FindByName` finds, otherwise the first monitor |
| Monitors.NativeMonitorContainer.NextIndex | src/native_monitor_container.rs:75-83 | the index after the focused one, or 0 |
| Monitors.NativeMonitorContainer.GetNextMonitor | src/native_monitor_container.rs:75-83 | the monitor after the focused one, wrapping to the first |
| Monitors.NativeMonitorContainer.PreviousIndexRaw | src/native_monitor_container.rs:85-93 | the focused index minus one, wrapping to the largest `usize` at 0 |
| Monitors.NativeMonitorContainer.GetPreviousMonitor | src/native_monitor_container.rs:85-93 | the monitor before the focused one; from focus 0 the last monitor, through the `usize` wrap; from a focus past the end, the last monitor |
| Monitors.New | src/native_monitor_container.rs:13-31 | focus on 0, one monitor per screen in primary-first order, each numbered by its position |
| Monitors.NextThenPrevious | src/native_monitor_container.rs:75-93 | moving to the next monitor and asking for the previous gives the focused monitor back |
| Monitors.PreviousThenNext | src/native_monitor_container.rs:75-93 | moving back one and asking for the next gives the focused monitor back |
| Monitors.NewFocusesPrimary | src/native_monitor_container.rs:13-31 | a fresh container starts on a primary screen when there is one |
| Events.Event.constructor | src/event.rs:15-20 | no subscribers, and the first id is 0 |
| Events.Event.Subscribe | src/event.rs:36-47 | returns a never-issued id, and adds exactly that callback under it |
| Events.Event.Unsubscribe | src/event.rs:49-51 | removes exactly that id; an unknown id changes nothing |
| Events.Event.Emit | src/event.rs:53-60 | one call per subscriber, each with its own callback and the payload, no subscriber twice |
| Events.IdNotReusedAfterUnsubscribe | src/event.rs:36-51 | an id given up is not handed out by the next subscribe |
| Workspaces.IndexOf | src/workspace.rs:138-139 | the first position holding the window, or none exactly when it is absent |
| Workspaces.Without | src/workspace.rs:94 | the window no longer occurs, and nothing new appears |
| Workspaces.WithoutKeepsOthers | src/workspace.rs:94 | every other window keeps its number of occurrences |
| Workspaces.WithoutAppend | src/workspace.rs:94 | removal works piecewise, so the kept windows keep their order |
| Workspaces.WithoutAbsent | src/workspace.rs:94 | removing an absent window changes nothing |
| Workspaces.NextLastFocused | src/workspace.rs:74-90 | the successor in the managed list, wrapping round; none exactly when the window is not managed or fewer than two are |
| Workspaces.NextLastFocusedIsAnotherWindow | src/workspace.rs:74-90 | with distinct managed windows the focus memory passes to another window |
| Workspaces.FirstFocused | src/workspace.rs:52-54 | the first focused window, or none exactly when none is focused |
| Workspaces.TypeName | src/workspace.rs:48-50 | the `Debug` names `Dwindle`, `Focus`, `Full` and `Grid`, one per engine type in both directions |
| Workspaces.TypeNamesDistinct | src/workspace.rs:48-50 | different engine types have different names |
| Workspaces.Workspace.LayoutName | src/workspace.rs:48-50 | the `Debug` name of the current engine type |
| Workspaces.Workspace.constructor | src/workspace.rs:26-46 | empty lists, nothing remembered, the default engine, a fresh engine of each type |
| Workspaces.Workspace.FocusedWindow | src/workspace.rs:52-54 | a window with the foreground handle, or none exactly when no window has it |
| Workspaces.Workspace.CloseFocusWindow | src/workspace.rs:117-121 | the close goes to the foreground handle exactly when a window of the list has it |
| Workspaces.Workspace.AddWindow | src/workspace.rs:56-71 | appended or prepended by the window order; remembered when nothing was remembered or it is focused |
| Workspaces.Workspace.RemoveWindow | src/workspace.rs:73-99 | every copy removed; the focus memory passes on only when it was the removed window |
| Workspaces.Workspace.UpdateWindow | src/workspace.rs:101-115 | only a foreground change moves the focus memory; the lists stay |
| Workspaces.Workspace.SwapWindows | src/workspace.rs:136-149 | exchanges the first occurrences when both are present, otherwise nothing; the same windows remain; the focus memory, managed list and engine type are unchanged |
| Workspaces.Workspace.ResetLayout | src/workspace.rs:131-134 | only the current engine's primary width offset is reset |
| Workspaces.SwapIsPermutation | src/workspace.rs:136-149 | exchanging two positions keeps the same windows |
| Manager.BindingActionText | src/classes/action.rs:9-16 | the display text `Toggle Focused Window Tiling` of the one binding action |
| Manager.DefaultKeyBindings | src/classes/key_bindings.rs:5-14 | the only default binding is Alt+T for toggling tiling |
| Manager.AtMostOneMoving | src/windows_manager.rs:329-351 | in a consistent registry at most one window is being dragged |
| Manager.RegisterIgnoresTrackedOrFailed | src/windows_manager.rs:256-271 | registering a tracked handle, or one whose window cannot be built, changes nothing |
| Manager.RegisterAddsOnlyThatHandle | src/windows_manager.rs:256-271 | otherwise exactly that handle is added, with the window built for it, and the rest is kept |
| Manager.RegisterKeepsValid | src/windows_manager.rs:256-271 | registering keeps windows under their own handles with a consistent drag record |
| Manager.UnregisterRemovesOnlyThatHandle | src/windows_manager.rs:273-283 | removes that handle only; an unknown one changes nothing |
| Manager.UpdateByKind | src/windows_manager.rs:285-303 | a show of an untracked handle registers it and a show of a tracked one changes nothing; a hide drops a tracked window unless the manager hid it itself, and never adds one; other update kinds change nothing |
| Manager.StartMoveMarksOnlyThatWindow | src/windows_manager.rs:305-341 | dragging a tracked window records it and makes it the only one flagged |
| Manager.EndMoveClearsAll | src/windows_manager.rs:313-351 | ending a drag clears every drag flag and the record |
| Manager.UntrackedMoveEventsIgnored | src/windows_manager.rs:305-319 | drag events for untracked handles change nothing |
| Manager.FocusedHandle | src/windows_manager.rs:218-222 | the foreground handle exactly when a tracked window has it |
| Manager.Register | src/windows_manager.rs:256-271 | `register_window` on the registry value; `RegisterIgnoresTrackedOrFailed` and `RegisterAddsOnlyThatHandle` prove what it does |
| Manager.Unregister | src/windows_manager.rs:273-283 | `unregister_window`; `UnregisterRemovesOnlyThatHandle` proves it |
| Manager.Update | src/windows_manager.rs:285-303 | `update_window`; `UpdateByKind` proves it case by case |
| Manager.StartMove | src/windows_manager.rs:305-311 | `start_move_window`, for tracked handles only; `StartMoveMarksOnlyThatWindow` proves it |
| Manager.EndMove | src/windows_manager.rs:313-319 | `end_move_window`, for tracked handles only; `EndMoveClearsAll` proves it |
| Manager.HandleWindowMoveStart | src/windows_manager.rs:329-341 | the drag flag moves from the recorded window to the handle |
| Manager.HandleWindowMoveEnd | src/windows_manager.rs:343-351 | the recorded window's flag is cleared and the record forgotten |
| Manager.Toggle | src/windows_manager.rs:217-240 | the toggle as written; `ToggleCases` and `ToggleNeverFloats` prove what it does |
| Manager.ToggleCorrected | src/windows_manager.rs:217-240 | the toggle with the tiled window inserted as floating; `ToggleCorrectedFlipsAndRestores` proves it |
| Manager.Dispatch | src/windows_manager.rs:161-179 | the event code's handler, unknown codes ignored; `DispatchPreservesValid` and `OnlyLifecycleEventsChangeMembership` prove its properties |
| Manager.RegisterAll | src/windows_manager.rs:109-122 | registration of each enumerated app window in order; the `RegisterAll*` lemmas prove it |
| Manager.ToggleCases | src/windows_manager.rs:217-240 | as written: a floating focused window leaves `floating` and no call is made; a tiled one is only brought to the top and stays tiled; without a focused tracked window nothing happens |
| Manager.ToggleNeverFloats | src/windows_manager.rs:217-240 | as written, the toggle never marks a window floating |
| Manager.ToggleCorrectedFlipsAndRestores | src/windows_manager.rs:217-240 | corrected, the toggle flips a tracked focused window between floating and tiled, and twice restores it |
| Manager.DispatchPreservesValid | src/windows_manager.rs:161-179 | every dispatched window event keeps the registry valid |
| Manager.OnlyLifecycleEventsChangeMembership | src/windows_manager.rs:161-179 | events other than show, destroy and cloak never change which windows are tracked |
| Manager.WindowCallbackFilter | src/windows_manager.rs:394-415 | an event is queued exactly for a whole window with a non-null handle |
| Manager.MatchingActions | src/windows_manager.rs:183-194 | the filter of `handle_keys`: at most one action per mapping; `MatchingActionsExact` proves it returns exactly the bound actions |
| Manager.MatchingActionsExact | src/windows_manager.rs:181-196 | the actions returned for a chord are exactly those bound to it |
| Manager.CollectMatching | src/windows_manager.rs:183-195 | the loop over the key mappings collects the actions bound to the chord, in mapping order |
| Manager.RegisterAllTracksAppWindows | src/windows_manager.rs:109-122 | after the startup scan every enumerated app window whose window can be built is tracked, and nothing tracked is dropped |
| Manager.RegisterAllAddsOnlyFound | src/windows_manager.rs:109-122 | the startup scan adds only enumerated handles |
| Manager.RegisterAllKeepsValid | src/windows_manager.rs:109-122 | the startup scan keeps the registry valid |
| Manager.WindowsManager.constructor | src/windows_manager.rs:38-46 | nothing tracked or queued, the default engine type |
| Manager.WindowsManager.ChangeLayout | src/windows_manager.rs:204-207 | only the engine type changes; the queues, the release count and the effect log are unchanged |
| Manager.WindowsManager.Init | src/windows_manager.rs:49-122 | the engine type is set, then every enumerated app window is registered in order; the queues, the release count and the effect log are unchanged |
| Manager.WindowsManager.RegisterWindow | src/windows_manager.rs:256-271 | the registry becomes the registration of that handle |
| Manager.WindowsManager.ToggleFocusedWindowTiling | src/windows_manager.rs:217-240 | the registry and the effect log follow the toggle as written |
| Manager.WindowsManager.HandleWindow | src/windows_manager.rs:161-179 | at most one event is consumed and dispatched; an empty queue changes nothing |
| Manager.WindowsManager.HandleKeys | src/windows_manager.rs:181-196 | at most one chord is consumed, and the fired actions are those bound to it; the state, the other queues and the effect log are unchanged |
| Manager.WindowsManager.HandleMouse | src/windows_manager.rs:198-202 | at most one release is consumed; the state, the other queues and the effect log are unchanged |
| Manager.WindowsManager.WindowCallback | src/windows_manager.rs:394-415 | queues the event exactly when it passes the filter; the state, the other queues and the effect log are unchanged |
| Manager.WindowsManager.KeyboardCallback | src/windows_manager.rs:380-392 | queues the decoded chord, if any; the state, the other queues and the effect log are unchanged |
| Manager.WindowsManager.MouseCallback | src/windows_manager.rs:368-378 | queues a release exactly for a left-button-up message; the state, the other queues and the effect log are unchanged |

## Left out

- Floating point: the primary percentages are whole hundredths, and `sqrt`/`ceil` in the grid engine are the exact integer ceilings.
- i32 overflow: every coordinate, size and offset is an unbounded integer. This covers the layout engines, `Rectangle`'s `right`, `bottom`, `inflate`, `offset` and `union_with`, the windows' `location` and `offset`, and the `DeferWindowPos` target. Only `num_monitors` wraps as `as i32` does.
- The `LayoutEngine` trait is not a Dafny trait. Each engine class has the same members, and the workspace holds one engine of each type in its own field.
- The primary-area mutators of the full and grid engines do nothing in the source. They are bodies with no contract.
- FocusLayout.FocusLayoutEngine.CalcLayout: requires a non-zero primary count when there are windows, because otherwise the source divides by zero and panics.
- Win32 calls are not modelled as calls. What they return is an argument, and what they change is an entry in an effect log. The hook registrations, the message loop and the mutex are left out.
- NativeWindow.FileName: models `Path::file_name` for the separators `\` and `/`, with trailing separators and trailing `.` components skipped. Drive prefixes, UNC prefixes and verbatim `\\?\` paths are not modelled.
- DeferPos.WindowsDeferPosHandle.Drop: while the drop runs, a window's state changes only through the drop's own calls. `SW_MINIMIZE` leaves a window minimized and not maximized, and `SW_SHOWMAXIMIZED` leaves it maximized and not minimized. A change made by another process in the meantime is not modelled.
- NativeWindow.Location: the source unwraps `GetWindowRect` and panics when it fails. The model takes the rectangle as an argument, so that panic path is not modelled.
- NativeWindow.Offset: the source unwraps both `GetWindowRect` and `DwmGetWindowAttribute(DWMWA_EXTENDED_FRAME_BOUNDS)` and panics when either fails. The model takes both rectangles as arguments, so those panic paths are not modelled.
- DeferPos.WindowsDeferPosHandle.DeferWindowPosition: the source calls `offset()` and `location()`, which panic when a rectangle read fails. The model takes the reads as arguments, so those panic paths are not modelled.
- Monitors.NativeMonitorContainer.FocusedMonitor: the source unwraps the lookup at the focused index and panics when that index is out of range. The model requires the index to be in range instead.
- Monitors.NativeMonitorContainer.MonitorOnScreen: when no monitor is on the screen, the source unwraps `first()` and panics on an empty monitor list. The model requires a non-empty list instead.
- Monitors.NativeMonitorContainer.GetNextMonitor: when the next index is out of range, the source unwraps `first()` and panics on an empty monitor list. The model requires a non-empty list instead.
- Monitors.NativeMonitorContainer.GetPreviousMonitor: when the previous index is out of range, the source unwraps `last()` and panics on an empty monitor list. The model requires a non-empty list instead. The debug-build panic on `focused_monitor - 1` at 0 is described under `PreviousIndexRaw`.
- Monitors.NativeMonitorContainer.PreviousIndexRaw: models the release-build wrap-around. A debug build panics on the subtraction at index 0 instead.
- Events.Event.Subscribe: `next_id` is unbounded, so the model has no `usize` wrap-around.
- Callbacks are opaque values. `Emit` returns the calls it would make instead of running them.
- `previous_layout_engine` and `next_layout_engine` are left out: they call `previous` and `next` on the engine type, and those are not part of this model.
- `do_layout` is left out, and so are the `layout` flags that request it: it has no effect in the source.
- `managed_windows` is never filled by the code shown. The workspace keeps it as a field all the same.
- `window_move` has no effect in the source.
- `handle_window_add` and `handle_window_remove` are also left out.
- The `Display` impls of the windows and the workspace are left out: they call the OS for the title.
- `defer_windows_pos` is left out: it is only `BeginDeferWindowPos`. The batch handle is modelled from its construction.
- `screen.rs` is not part of this model. The screens are an argument of `Monitors.New`, and the screen a point or rectangle falls on is an argument of `MonitorOnScreen`.
- The following are not part of this model:
  - `system_information.rs` and the `csharp` helpers;
  - the accessors in `monitor.rs` and `classes/monitor.rs`;
  - `helpers/event.rs`, `single.rs`, `app.rs`, `main.rs` and `context.rs`;
  - `workspace_container.rs` and `workspace_manager.rs`.
- In-place updates are functions that return the updated value: `Rectangle::inflate`, `intersect` and `offset`, and the windows' hide and show methods. The aliasing these would allow in the source is not modelled.
- `Keys` has no `PartialEq` in the source. The model compares chords structurally.
- Title reads (`title_from_hwnd`), `is_fullscreen`, `focus`, `close` and `notify_updated` are left out: they only call the OS.

## Findings

| source | as written | input that shows it | evidently intended | confidence | as-written member | corrected member |
|---|---|---|---|---|---|---|
| src/layout_engines/grid_layout_engine.rs:45-46 | x is `i / columns`, y is `i % rows` | two windows in 1000 x 800: both get (0, 0, 500, 800) | row-major cells: x from `i % columns`, y from `i / columns` | high (not executed) | GridLayout.GridCellsCollide | GridLayout.CorrectedCellsDisjoint |
| src/windows_window.rs:122-142 | `location()` takes y from `rect.right` | a window at (0, 0)-(800, 600) asked to stay put is moved | y from `rect.top` | high (not executed) | DeferPos.RedundantMoveAsWritten | DeferPos.NoRedundantMoveCorrected |
| src/windows_manager.rs:217-240 | a tiled focused window is set floating through `get_mut`, which finds no entry | toggling a tracked window that was never floating leaves it tiled | insert the window as floating | high (not executed) | Manager.ToggleNeverFloats | Manager.ToggleCorrectedFlipsAndRestores |
| src/windows_window.rs:195-202 | `can_layout` requires the window to be cloaked | a visible, uncloaked, unowned top-level app window cannot be laid out | require the window not to be cloaked | medium (not executed) | NativeWindow.VisibleWindowNotLayoutable | NativeWindow.CanLayoutCorrectedExcludesCloaked |
