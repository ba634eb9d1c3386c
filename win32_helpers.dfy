/**
 * The style-bit predicates of `src/win32_helpers.rs`. The OS reads they make
 * (`DwmGetWindowAttribute(DWMWA_CLOAKED)`, `IsWindowVisible`, `GetWindowLongPtrW` on
 * `GWL_STYLE` and `GWL_EXSTYLE`, `GetWindow(GW_OWNER)`) are the fields of `WindowStyles`.
 */
module Win32Helpers {

  import opened Wrappers

  const WS_CHILD: bv64 := 0x4000_0000
  const WS_EX_NOACTIVATE: bv64 := 0x0800_0000
  const WS_EX_TOOLWINDOW: bv64 := 0x0000_0080
  const WS_EX_APPWINDOW: bv64 := 0x0004_0000

  /**
   * What the helpers read about one window. `cloaked` is the `DWMWA_CLOAKED` value,
   * `None` when the attribute query fails; `owner` is the owner handle, 0 for none.
   */
  datatype WindowStyles = WindowStyles(
    visible: bool,
    style: bv64,
    exStyle: bv64,
    owner: int,
    cloaked: Option<bv32>)

  /** The value left in the out-parameter: it starts at 0 and a failed query does not write it. */
  function CloakedValue(q: Option<bv32>): (v: bv32)
    ensures q.None? ==> v == 0
    ensures q.Some? ==> v == q.value
  {
    match q
    case None => 0
    case Some(v) => v
  }

  predicate IsCloaked(w: WindowStyles)
  {
    CloakedValue(w.cloaked) != 0
  }

  predicate IsAppWindow(w: WindowStyles)
  {
    w.visible && w.exStyle & WS_EX_NOACTIVATE == 0 && w.style & WS_CHILD == 0
  }

  /** Early `false` for tool windows and owned windows; both remaining branches give `true`. */
  predicate IsAltTabWindow(w: WindowStyles)
  {
    if w.exStyle & WS_EX_TOOLWINDOW != 0 || w.owner != 0 then
      false
    else if w.exStyle & WS_EX_APPWINDOW != 0 then
      true
    else
      true
  }

  /** A window is cloaked exactly when the query succeeded with a non-zero value. */
  lemma CloakedIff(w: WindowStyles)
    ensures IsCloaked(w) <==> (w.cloaked.Some? && w.cloaked.value != 0)
  {
  }

  /** Setting either excluding bit, or hiding the window, makes it no app window. */
  lemma AppWindowExcludedBits(w: WindowStyles)
    ensures !IsAppWindow(w.(exStyle := w.exStyle | WS_EX_NOACTIVATE))
    ensures !IsAppWindow(w.(style := w.style | WS_CHILD))
    ensures !IsAppWindow(w.(visible := false))
  {
  }

  /** The alt-tab test reduces to: not a tool window and not owned. */
  lemma AltTabIff(w: WindowStyles)
    ensures IsAltTabWindow(w) <==> (w.exStyle & WS_EX_TOOLWINDOW == 0 && w.owner == 0)
  {
  }

  /** `WS_EX_APPWINDOW` does not influence the alt-tab test. */
  lemma AltTabIgnoresAppWindowBit(w: WindowStyles)
    ensures IsAltTabWindow(w.(exStyle := w.exStyle | WS_EX_APPWINDOW)) == IsAltTabWindow(w)
    ensures IsAltTabWindow(w.(exStyle := w.exStyle & !WS_EX_APPWINDOW)) == IsAltTabWindow(w)
  {
    ToolBitApartFromAppBit(w.exStyle);
    AltTabDependsOnToolBitAndOwner(w.(exStyle := w.exStyle | WS_EX_APPWINDOW), w);
    AltTabDependsOnToolBitAndOwner(w.(exStyle := w.exStyle & !WS_EX_APPWINDOW), w);
  }

  /** Two windows with the same tool-window bit and the same owner agree on the alt-tab test. */
  lemma AltTabDependsOnToolBitAndOwner(w: WindowStyles, v: WindowStyles)
    requires w.exStyle & WS_EX_TOOLWINDOW == v.exStyle & WS_EX_TOOLWINDOW && w.owner == v.owner
    ensures IsAltTabWindow(w) == IsAltTabWindow(v)
  {
    AltTabIff(w);
    AltTabIff(v);
  }

  /** Setting or clearing the app-window bit leaves the tool-window bit as it was. */
  lemma ToolBitApartFromAppBit(x: bv64)
    ensures (x | WS_EX_APPWINDOW) & WS_EX_TOOLWINDOW == x & WS_EX_TOOLWINDOW
    ensures (x & !WS_EX_APPWINDOW) & WS_EX_TOOLWINDOW == x & WS_EX_TOOLWINDOW
  {
  }
}
