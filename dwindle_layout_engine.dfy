/**
 * `src/layout_engines/dwindle_layout_engine.rs`: a column of primary windows on the
 * left, the remaining windows placed in the rest of the space by alternately cutting
 * it vertically and horizontally.
 *
 * Percentages are whole hundredths (0.5 is 50, the 0.03 increment is 3) and the
 * percentage offset is a signed count of increments.
 */
module DwindleLayout {

  import opened RustArith
  import opened Locations
  import opened TrackedWindow
  import opened LayoutEngines

  datatype Orientation = Horizontal | Vertical

  /** The running `cur_left`, `cur_top`, `cur_width`, `cur_height` and `cur_orientation`. */
  datatype Cursor = Cursor(left: int, top: int, width: int, height: int, orientation: Orientation)

  /** The cursor before the first secondary window: the whole secondary area, cut in half vertically when more than two windows share the space. */
  function InitialCursor(n: int, pw: int, spaceWidth: int, spaceHeight: int): Cursor
  {
    Cursor(pw, 0, spaceWidth - pw, if n > 2 then TDiv(spaceHeight, 2) else spaceHeight, Vertical)
  }

  /**
   * The cursor after placing secondary window `i` of `n`: a vertical step moves down by
   * the current height, a horizontal step right by the current width; the other
   * dimension halves except after the last two windows.
   */
  function Advance(c: Cursor, i: int, n: int): (d: Cursor)
    ensures d.orientation != c.orientation
  {
    match c.orientation
    case Vertical =>
      Cursor(c.left, c.top + c.height, if i < n - 2 then TDiv(c.width, 2) else c.width, c.height, Horizontal)
    case Horizontal =>
      Cursor(c.left + c.width, c.top, c.width, if i < n - 2 then TDiv(c.height, 2) else c.height, Vertical)
  }

  /** The cursor when window `k` is placed, starting from `c0` at window `first`. */
  function CursorAt(c0: Cursor, first: int, k: int, n: int): Cursor
    requires first <= k
    decreases k - first
  {
    if k == first then c0 else Advance(CursorAt(c0, first, k - 1, n), k - 1, n)
  }

  function Place(c: Cursor): WindowLocation
  {
    WindowLocation(c.left, c.top, c.width, c.height, Normal)
  }

  /** Window `k` of `n`, given the effective primary count `nip` and primary width `pw`. */
  function DwindleCell(k: int, n: int, nip: int, pw: int, spaceWidth: int, spaceHeight: int): WindowLocation
    requires nip >= 1
  {
    var ph := TDiv(spaceHeight, nip);
    if k < nip then WindowLocation(0, k * ph, pw, ph, Normal)
    else Place(CursorAt(InitialCursor(n, pw, spaceWidth, spaceHeight), nip, k, n))
  }

  /** The effective primary width: the whole space when every window is primary. */
  function EffectivePrimaryWidth(nip: int, n: int, primaryWidth: int, spaceWidth: int): int
  {
    if nip >= n then spaceWidth else primaryWidth
  }

  /** The layout `calc_layout` returns for `n` windows. */
  function DwindleLayout(n: nat, numInPrimary: int, primaryWidth: int, spaceWidth: int, spaceHeight: int): (r: seq<WindowLocation>)
    requires numInPrimary >= 1
    ensures |r| == n
    ensures forall k :: 0 <= k < n ==> r[k].state == Normal
  {
    if n == 0 then []
    else
      var nip := Min(numInPrimary, n);
      var pw := EffectivePrimaryWidth(nip, n, primaryWidth, spaceWidth);
      seq(n, k requires 0 <= k < n => DwindleCell(k, n, nip, pw, spaceWidth, spaceHeight))
  }

  class DwindleLayoutEngine {
    const numInPrimary: int
    const primaryPercent: int
    const primaryPercentIncrement: int
    /** `primary_percent_offset` in units of `primary_percent_increment`. */
    var primaryPercentOffset: int
    var numInPrimaryOffset: int
    const name: string := "dwindle"

    ghost predicate Valid()
      reads this
    {
      GetNumInPrimary() >= 1 && primaryPercentIncrement > 0
    }

    constructor()
      ensures Valid()
      ensures numInPrimary == 1 && numInPrimaryOffset == 0
      ensures primaryPercent == 50 && primaryPercentIncrement == 3 && primaryPercentOffset == 0
      ensures name == "dwindle"
    {
      numInPrimary := 1;
      primaryPercent := 50;
      primaryPercentIncrement := 3;
      primaryPercentOffset := 0;
      numInPrimaryOffset := 0;
    }

    /** The configured count shifted by the user's increments and decrements. */
    function GetNumInPrimary(): (n: int)
      reads this
      ensures n - numInPrimaryOffset == numInPrimary
      ensures numInPrimaryOffset == 0 ==> n == numInPrimary
    {
      numInPrimary + numInPrimaryOffset
    }

    /** The primary width before the all-primary case widens it to the whole space. */
    function PrimaryWidthFor(spaceWidth: int): int
      reads this
    {
      PrimaryWidth(spaceWidth, primaryPercent + primaryPercentIncrement * primaryPercentOffset)
    }

    /** `name`: the engine reports `dwindle` throughout its life. */
    function Name(): (n: string)
      reads this
      ensures n == "dwindle"
    {
      name
    }

    /** `calc_layout`: only the number of windows matters. */
    method CalcLayout(windows: seq<WindowsWindow>, spaceWidth: int, spaceHeight: int)
      returns (list: seq<WindowLocation>)
      requires Valid()
      ensures list == DwindleLayout(|windows|, GetNumInPrimary(), PrimaryWidthFor(spaceWidth), spaceWidth, spaceHeight)
    {
      list := [];
      var numWindows := |windows|;
      if numWindows == 0 {
        return;
      }
      var nip := Min(GetNumInPrimary(), numWindows);
      var primaryWidth := PrimaryWidthFor(spaceWidth);
      var primaryHeight := TDiv(spaceHeight, nip);
      var pw := if nip >= numWindows then spaceWidth else primaryWidth;
      var secondaryWidth := spaceWidth - pw;

      var curOrientation := Vertical;
      var curWidth := secondaryWidth;
      var curTop := 0;
      var curLeft := pw;
      var curHeight := if numWindows > 2 then TDiv(spaceHeight, 2) else spaceHeight;
      ghost var c0 := Cursor(curLeft, curTop, curWidth, curHeight, curOrientation);

      var i := 0;
      while i < numWindows
        invariant 0 <= i <= numWindows
        invariant |list| == i
        invariant forall k :: 0 <= k < i ==> list[k] == DwindleCell(k, numWindows, nip, pw, spaceWidth, spaceHeight)
        invariant Cursor(curLeft, curTop, curWidth, curHeight, curOrientation) == CursorAt(c0, nip, Max(i, nip), numWindows)
      {
        if i < nip {
          list := list + [WindowLocation(0, i * primaryHeight, pw, primaryHeight, Normal)];
        } else {
          list := list + [WindowLocation(curLeft, curTop, curWidth, curHeight, Normal)];
          match curOrientation {
            case Vertical =>
              curTop := curTop + curHeight;
              if i < numWindows - 2 {
                curWidth := TDiv(curWidth, 2);
              }
              curOrientation := Horizontal;
            case Horizontal =>
              curLeft := curLeft + curWidth;
              if i < numWindows - 2 {
                curHeight := TDiv(curHeight, 2);
              }
              curOrientation := Vertical;
          }
        }
        i := i + 1;
      }
      assert list == DwindleLayout(numWindows, GetNumInPrimary(), primaryWidth, spaceWidth, spaceHeight);
    }

    method ShrinkPrimaryArea()
      requires Valid()
      modifies this
      ensures Valid()
      ensures primaryPercentOffset == old(primaryPercentOffset) - 1
      ensures numInPrimaryOffset == old(numInPrimaryOffset)
      ensures forall sw :: sw >= 0 ==> PrimaryWidthFor(sw) <= old(PrimaryWidthFor(sw))
    {
      primaryPercentOffset := primaryPercentOffset - 1;
      forall sw | sw >= 0
        ensures PrimaryWidthFor(sw) <= old(PrimaryWidthFor(sw))
      {
        PrimaryWidthMonotone(sw, primaryPercent + primaryPercentIncrement * primaryPercentOffset,
          primaryPercent + primaryPercentIncrement * old(primaryPercentOffset));
      }
    }

    method ExpandPrimaryArea()
      requires Valid()
      modifies this
      ensures Valid()
      ensures primaryPercentOffset == old(primaryPercentOffset) + 1
      ensures numInPrimaryOffset == old(numInPrimaryOffset)
      ensures forall sw :: sw >= 0 ==> old(PrimaryWidthFor(sw)) <= PrimaryWidthFor(sw)
    {
      primaryPercentOffset := primaryPercentOffset + 1;
      forall sw | sw >= 0
        ensures old(PrimaryWidthFor(sw)) <= PrimaryWidthFor(sw)
      {
        PrimaryWidthMonotone(sw, primaryPercent + primaryPercentIncrement * old(primaryPercentOffset),
          primaryPercent + primaryPercentIncrement * primaryPercentOffset);
      }
    }

    method ResetPrimaryArea()
      modifies this
      ensures primaryPercentOffset == 0
      ensures numInPrimaryOffset == old(numInPrimaryOffset)
    {
      primaryPercentOffset := 0;
    }

    method IncrementNumInPrimary()
      modifies this
      ensures numInPrimaryOffset == old(numInPrimaryOffset) + 1
      ensures primaryPercentOffset == old(primaryPercentOffset)
      ensures old(Valid()) ==> Valid()
    {
      numInPrimaryOffset := numInPrimaryOffset + 1;
    }

    /** Lowers the count only while it is above one, so it never drops below one this way. */
    method DecrementNumInPrimary()
      modifies this
      ensures old(GetNumInPrimary()) > 1 ==> numInPrimaryOffset == old(numInPrimaryOffset) - 1
      ensures old(GetNumInPrimary()) <= 1 ==> numInPrimaryOffset == old(numInPrimaryOffset)
      ensures primaryPercentOffset == old(primaryPercentOffset)
      ensures GetNumInPrimary() >= Min(old(GetNumInPrimary()), 1)
      ensures old(Valid()) ==> Valid()
    {
      if GetNumInPrimary() > 1 {
        numInPrimaryOffset := numInPrimaryOffset - 1;
      }
    }
  }

  /** Primary window `k` sits in the left column, stacked at multiples of the primary height. */
  lemma PrimaryPlacement(n: nat, numInPrimary: int, primaryWidth: int, spaceWidth: int, spaceHeight: int, k: int)
    requires numInPrimary >= 1 && 0 <= k < Min(numInPrimary, n)
    ensures var nip := Min(numInPrimary, n);
            var ph := TDiv(spaceHeight, nip);
            DwindleLayout(n, numInPrimary, primaryWidth, spaceWidth, spaceHeight)[k]
              == WindowLocation(0, k * ph, EffectivePrimaryWidth(nip, n, primaryWidth, spaceWidth), ph, Normal)
  {
  }

  /** With at least as many primary slots as windows, every window spans the full width. */
  lemma AllPrimaryWhenEnoughSlots(n: nat, numInPrimary: int, primaryWidth: int, spaceWidth: int, spaceHeight: int, k: int)
    requires numInPrimary >= 1 && numInPrimary >= n && 0 <= k < n
    ensures DwindleLayout(n, numInPrimary, primaryWidth, spaceWidth, spaceHeight)[k].x == 0
    ensures DwindleLayout(n, numInPrimary, primaryWidth, spaceWidth, spaceHeight)[k].width == spaceWidth
  {
  }

  /** The first secondary window fills the secondary width from the top, at half height when more than two windows are laid out. */
  lemma FirstSecondaryPlacement(n: nat, numInPrimary: int, primaryWidth: int, spaceWidth: int, spaceHeight: int)
    requires 1 <= numInPrimary < n
    ensures DwindleLayout(n, numInPrimary, primaryWidth, spaceWidth, spaceHeight)[numInPrimary]
              == WindowLocation(primaryWidth, 0, spaceWidth - primaryWidth, if n > 2 then TDiv(spaceHeight, 2) else spaceHeight, Normal)
  {
  }

  /** Steps alternate, starting vertical. */
  lemma {:induction false} CursorOrientation(c0: Cursor, first: int, k: int, n: int)
    requires first <= k && c0.orientation == Vertical
    ensures CursorAt(c0, first, k, n).orientation == (if (k - first) % 2 == 0 then Vertical else Horizontal)
    decreases k - first
  {
    if k > first {
      CursorOrientation(c0, first, k - 1, n);
    }
  }

  /**
   * Consecutive secondary windows: after an even number of secondary steps the next
   * window sits directly below (same left edge, same height, width halved unless it is
   * one of the last two), after an odd number directly to the right (same top, same
   * width, height halved unless it is one of the last two).
   */
  lemma SecondaryStep(n: nat, numInPrimary: int, primaryWidth: int, spaceWidth: int, spaceHeight: int, k: int)
    requires 1 <= numInPrimary && numInPrimary <= k && k + 1 < n
    ensures var r := DwindleLayout(n, numInPrimary, primaryWidth, spaceWidth, spaceHeight);
            if (k - numInPrimary) % 2 == 0 then
              && r[k + 1].x == r[k].x && r[k + 1].y == r[k].y + r[k].height
              && r[k + 1].width == (if k < n - 2 then TDiv(r[k].width, 2) else r[k].width)
              && r[k + 1].height == r[k].height
            else
              && r[k + 1].x == r[k].x + r[k].width && r[k + 1].y == r[k].y
              && r[k + 1].width == r[k].width
              && r[k + 1].height == (if k < n - 2 then TDiv(r[k].height, 2) else r[k].height)
  {
    var c0 := InitialCursor(n, primaryWidth, spaceWidth, spaceHeight);
    CursorOrientation(c0, numInPrimary, k, n);
    assert CursorAt(c0, numInPrimary, k + 1, n) == Advance(CursorAt(c0, numInPrimary, k, n), k, n);
  }

  /**
   * What the cursor keeps while it walks the secondary area `[pw, spaceWidth] x [0, spaceHeight]`:
   * the current window is inside it, and while windows remain the space beyond the
   * current window in the direction of the next step is at least as large again.
   */
  ghost predicate CursorInside(c: Cursor, k: int, n: int, pw: int, spaceWidth: int, spaceHeight: int)
  {
    && c.left >= pw && c.top >= 0 && c.width >= 0 && c.height >= 0
    && c.left + c.width <= spaceWidth && c.top + c.height <= spaceHeight
    && (k < n - 1 && c.orientation == Vertical ==> c.top + 2 * c.height <= spaceHeight)
    && (k < n - 1 && c.orientation == Horizontal ==> c.left + 2 * c.width <= spaceWidth)
  }

  lemma {:induction false} CursorStaysInside(n: int, first: int, k: int, pw: int, spaceWidth: int, spaceHeight: int)
    requires 1 <= first <= k < n
    requires 0 <= pw <= spaceWidth && spaceHeight >= 0
    ensures CursorInside(CursorAt(InitialCursor(n, pw, spaceWidth, spaceHeight), first, k, n), k, n, pw, spaceWidth, spaceHeight)
    decreases k - first
  {
    var c0 := InitialCursor(n, pw, spaceWidth, spaceHeight);
    if k == first {
      assert n > 2 ==> 2 * TDiv(spaceHeight, 2) <= spaceHeight;
    } else {
      CursorStaysInside(n, first, k - 1, pw, spaceWidth, spaceHeight);
      var c := CursorAt(c0, first, k - 1, n);
      assert 2 * TDiv(c.width, 2) <= c.width && 2 * TDiv(c.height, 2) <= c.height;
    }
  }

  /**
   * With non-negative sizes and a primary width inside the space, every window lies
   * inside the space: primary windows in `[0, pw]`, secondary windows in `[pw, spaceWidth]`.
   */
  lemma LayoutWithinSpace(n: nat, numInPrimary: int, primaryWidth: int, spaceWidth: int, spaceHeight: int, k: int)
    requires numInPrimary >= 1 && 0 <= k < n
    requires 0 <= primaryWidth <= spaceWidth && spaceHeight >= 0
    ensures InsideSpace(DwindleLayout(n, numInPrimary, primaryWidth, spaceWidth, spaceHeight)[k], spaceWidth, spaceHeight)
  {
    var nip := Min(numInPrimary, n);
    if k < nip {
      StackedRowsFit(spaceHeight, nip, k);
    } else {
      CursorStaysInside(n, nip, k, primaryWidth, spaceWidth, spaceHeight);
    }
  }

  /** Three windows, one primary slot, primary width 500 in a 1000 x 1000 space. */
  lemma ThreeWindowExample()
    ensures DwindleLayout(3, 1, 500, 1000, 1000) == [
              WindowLocation(0, 0, 500, 1000, Normal),
              WindowLocation(500, 0, 500, 500, Normal),
              WindowLocation(500, 500, 500, 500, Normal)]
  {
    var c0 := InitialCursor(3, 500, 1000, 1000);
    assert CursorAt(c0, 1, 2, 3) == Advance(c0, 1, 3);
  }
}
