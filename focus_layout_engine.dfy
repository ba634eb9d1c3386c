/**
 * `src/layout_engines/focus_layout_engine.rs`: the primary windows in a centre column,
 * the others split between a left and a right column (the left one takes the odd
 * window). Percentages are whole hundredths (0.7 is 70, the 0.03 increment is 3) and
 * the percentage offset is a signed count of increments.
 */
module FocusLayout {

  import opened RustArith
  import opened Locations
  import opened TrackedWindow
  import opened LayoutEngines

  /** `get_nb_left_windows`: half the non-primary windows, rounded up. */
  function LeftCount(n: int, nip: int): int
  {
    TDiv(n - nip + 1, 2)
  }

  /** `get_nb_right_windows`: half the non-primary windows, rounded down. */
  function RightCount(n: int, nip: int): int
  {
    TDiv(n - nip, 2)
  }

  /** `get_secondary_height`: the space height shared by a column's windows (never a division by zero). */
  function SecondaryHeight(spaceHeight: int, count: int): int
  {
    TDiv(spaceHeight, Max(count, 1))
  }

  /** The widths of the centre column and of each side column. */
  datatype Columns = Columns(primaryWidth: int, secondaryWidth: int)

  /**
   * The column widths: each side gets half of what the primary width leaves; with every
   * window primary the centre takes the whole space, and with no right-hand window the
   * centre also takes the right column's share.
   */
  function ColumnWidths(n: int, nip: int, primaryWidth: int, spaceWidth: int): (c: Columns)
    ensures nip >= n ==> c == Columns(spaceWidth, 0)
    ensures nip < n ==> c.secondaryWidth == TDiv(spaceWidth - primaryWidth, 2)
    ensures nip < n && RightCount(n, nip) != 0 ==> c.primaryWidth == primaryWidth
    ensures nip < n && RightCount(n, nip) == 0 ==> c.primaryWidth == primaryWidth + c.secondaryWidth
  {
    var secondaryWidth := TDiv(spaceWidth - primaryWidth, 2);
    if nip >= n then Columns(spaceWidth, 0)
    else if RightCount(n, nip) == 0 then Columns(primaryWidth + secondaryWidth, secondaryWidth)
    else Columns(primaryWidth, secondaryWidth)
  }

  /** Window `k` of `n` with effective primary count `nip`. */
  function FocusCell(k: int, n: int, nip: int, primaryWidth: int, spaceWidth: int, spaceHeight: int): WindowLocation
    requires nip != 0
  {
    var c := ColumnWidths(n, nip, primaryWidth, spaceWidth);
    var nbLeft := LeftCount(n, nip);
    var ph := TDiv(spaceHeight, nip);
    var lh := SecondaryHeight(spaceHeight, nbLeft);
    var rh := SecondaryHeight(spaceHeight, RightCount(n, nip));
    if k < nip then WindowLocation(c.secondaryWidth, k * ph, c.primaryWidth, ph, Normal)
    else if k < nbLeft + nip then WindowLocation(0, (k - nip) * lh, c.secondaryWidth, lh, Normal)
    else WindowLocation(c.secondaryWidth + c.primaryWidth, (k - nip - nbLeft) * rh, c.secondaryWidth, rh, Normal)
  }

  /** The layout `calc_layout` returns for `n` windows; a zero primary count divides by zero in the source. */
  function FocusLayout(n: nat, numInPrimary: int, primaryWidth: int, spaceWidth: int, spaceHeight: int): (r: seq<WindowLocation>)
    requires n == 0 || numInPrimary != 0
    ensures |r| == n
    ensures forall k :: 0 <= k < n ==> r[k].state == Normal
  {
    if n == 0 then []
    else
      var nip := Min(numInPrimary, n);
      seq(n, k requires 0 <= k < n => FocusCell(k, n, nip, primaryWidth, spaceWidth, spaceHeight))
  }

  class FocusLayoutEngine {
    const numInPrimary: int
    const primaryPercent: int
    const primaryPercentIncrement: int
    var numInPrimaryOffset: int
    /** `primary_percent_offset` in units of `primary_percent_increment`. */
    var primaryPercentOffset: int
    const name: string

    /** `FocusLayoutEngine::new`. */
    constructor()
      ensures numInPrimary == 1 && primaryPercent == 70 && primaryPercentIncrement == 3
      ensures numInPrimaryOffset == 0 && primaryPercentOffset == 0
      ensures name == "focus"
    {
      numInPrimary := 1;
      primaryPercent := 70;
      primaryPercentIncrement := 3;
      numInPrimaryOffset := 0;
      primaryPercentOffset := 0;
      name := "focus";
    }

    /** `with_params`: any primary count and percentages; the offsets start at zero. */
    constructor WithParams(numInPrimary: int, primaryPercent: int, primaryPercentIncrement: int)
      ensures this.numInPrimary == numInPrimary && this.primaryPercent == primaryPercent
      ensures this.primaryPercentIncrement == primaryPercentIncrement
      ensures numInPrimaryOffset == 0 && primaryPercentOffset == 0
      ensures name == "focus"
    {
      this.numInPrimary := numInPrimary;
      this.primaryPercent := primaryPercent;
      this.primaryPercentIncrement := primaryPercentIncrement;
      numInPrimaryOffset := 0;
      primaryPercentOffset := 0;
      name := "focus";
    }

    /** The configured count shifted by the user's increments and decrements. */
    function GetNumInPrimary(): (n: int)
      reads this
      ensures n - numInPrimaryOffset == numInPrimary
      ensures numInPrimaryOffset == 0 ==> n == numInPrimary
    {
      numInPrimary + numInPrimaryOffset
    }

    /** The primary width before the all-primary and no-right-column cases adjust it. */
    function PrimaryWidthFor(spaceWidth: int): int
      reads this
    {
      PrimaryWidth(spaceWidth, primaryPercent + primaryPercentIncrement * primaryPercentOffset)
    }

    /** `calc_layout`; a primary count of zero with windows to place is a division by zero in the source. */
    method CalcLayout(windows: seq<WindowsWindow>, spaceWidth: int, spaceHeight: int)
      returns (list: seq<WindowLocation>)
      requires |windows| == 0 || GetNumInPrimary() != 0
      ensures list == FocusLayout(|windows|, GetNumInPrimary(), PrimaryWidthFor(spaceWidth), spaceWidth, spaceHeight)
    {
      list := [];
      var numWindows := |windows|;
      if numWindows == 0 {
        return;
      }
      var nip := Min(GetNumInPrimary(), numWindows);
      var nbLeftWindows := LeftCount(numWindows, nip);
      var nbRightWindows := RightCount(numWindows, nip);

      var primaryWidth := PrimaryWidthFor(spaceWidth);
      var secondaryWidth := TDiv(spaceWidth - primaryWidth, 2);
      ghost var pw0 := primaryWidth;

      var primaryHeight := TDiv(spaceHeight, nip);
      var leftHeight := SecondaryHeight(spaceHeight, nbLeftWindows);
      var rightHeight := SecondaryHeight(spaceHeight, nbRightWindows);

      if nip >= numWindows {
        primaryWidth := spaceWidth;
        secondaryWidth := 0;
      } else if nbRightWindows == 0 {
        primaryWidth := primaryWidth + secondaryWidth;
      }
      assert Columns(primaryWidth, secondaryWidth) == ColumnWidths(numWindows, nip, pw0, spaceWidth);

      var i := 0;
      while i < numWindows
        invariant 0 <= i <= numWindows
        invariant |list| == i
        invariant forall k :: 0 <= k < i ==> list[k] == FocusCell(k, numWindows, nip, pw0, spaceWidth, spaceHeight)
      {
        if i < nip {
          list := list + [WindowLocation(secondaryWidth, i * primaryHeight, primaryWidth, primaryHeight, Normal)];
        } else if i < nbLeftWindows + nip {
          list := list + [WindowLocation(0, (i - nip) * leftHeight, secondaryWidth, leftHeight, Normal)];
        } else {
          list := list + [WindowLocation(secondaryWidth + primaryWidth, (i - nip - nbLeftWindows) * rightHeight,
                                         secondaryWidth, rightHeight, Normal)];
        }
        i := i + 1;
      }
      assert list == FocusLayout(numWindows, GetNumInPrimary(), pw0, spaceWidth, spaceHeight);
    }

    method ShrinkPrimaryArea()
      modifies this
      ensures primaryPercentOffset == old(primaryPercentOffset) - 1
      ensures numInPrimaryOffset == old(numInPrimaryOffset)
      ensures primaryPercentIncrement >= 0 ==> forall sw :: sw >= 0 ==> PrimaryWidthFor(sw) <= old(PrimaryWidthFor(sw))
    {
      primaryPercentOffset := primaryPercentOffset - 1;
      if primaryPercentIncrement >= 0 {
        forall sw | sw >= 0
          ensures PrimaryWidthFor(sw) <= old(PrimaryWidthFor(sw))
        {
          PrimaryWidthMonotone(sw, primaryPercent + primaryPercentIncrement * primaryPercentOffset,
            primaryPercent + primaryPercentIncrement * old(primaryPercentOffset));
        }
      }
    }

    method ExpandPrimaryArea()
      modifies this
      ensures primaryPercentOffset == old(primaryPercentOffset) + 1
      ensures numInPrimaryOffset == old(numInPrimaryOffset)
      ensures primaryPercentIncrement >= 0 ==> forall sw :: sw >= 0 ==> old(PrimaryWidthFor(sw)) <= PrimaryWidthFor(sw)
    {
      primaryPercentOffset := primaryPercentOffset + 1;
      if primaryPercentIncrement >= 0 {
        forall sw | sw >= 0
          ensures old(PrimaryWidthFor(sw)) <= PrimaryWidthFor(sw)
        {
          PrimaryWidthMonotone(sw, primaryPercent + primaryPercentIncrement * old(primaryPercentOffset),
            primaryPercent + primaryPercentIncrement * primaryPercentOffset);
        }
      }
    }

    method ResetPrimaryArea()
      modifies this
      ensures primaryPercentOffset == 0
      ensures numInPrimaryOffset == old(numInPrimaryOffset)
      ensures forall sw :: PrimaryWidthFor(sw) == PrimaryWidth(sw, primaryPercent)
    {
      primaryPercentOffset := 0;
    }

    method IncrementNumInPrimary()
      modifies this
      ensures numInPrimaryOffset == old(numInPrimaryOffset) + 1
      ensures primaryPercentOffset == old(primaryPercentOffset)
    {
      numInPrimaryOffset := numInPrimaryOffset + 1;
    }

    /** Lowers the count only while it is above one. */
    method DecrementNumInPrimary()
      modifies this
      ensures old(GetNumInPrimary()) > 1 ==> numInPrimaryOffset == old(numInPrimaryOffset) - 1
      ensures old(GetNumInPrimary()) <= 1 ==> numInPrimaryOffset == old(numInPrimaryOffset)
      ensures primaryPercentOffset == old(primaryPercentOffset)
      ensures old(GetNumInPrimary()) >= 1 ==> GetNumInPrimary() >= 1
    {
      if GetNumInPrimary() > 1 {
        numInPrimaryOffset := numInPrimaryOffset - 1;
      }
    }
  }

  /** The non-primary windows split between the sides, the left side taking the odd one. */
  lemma SideCounts(n: int, nip: int)
    requires 0 <= nip <= n
    ensures LeftCount(n, nip) + RightCount(n, nip) == n - nip
    ensures 0 <= LeftCount(n, nip) - RightCount(n, nip) <= 1
    ensures RightCount(n, nip) >= 0
  {
  }

  /** Primary window `k` sits in the centre column, stacked at multiples of the primary height. */
  lemma CentreColumn(n: nat, numInPrimary: int, primaryWidth: int, spaceWidth: int, spaceHeight: int, k: int)
    requires numInPrimary >= 1 && 0 <= k < Min(numInPrimary, n)
    ensures var nip := Min(numInPrimary, n);
            var c := ColumnWidths(n, nip, primaryWidth, spaceWidth);
            FocusLayout(n, numInPrimary, primaryWidth, spaceWidth, spaceHeight)[k]
              == WindowLocation(c.secondaryWidth, k * TDiv(spaceHeight, nip), c.primaryWidth, TDiv(spaceHeight, nip), Normal)
  {
  }

  /**
   * Secondary windows fill the left column from the top, then the right column from the
   * top, both one secondary width wide.
   */
  lemma SideColumns(n: nat, numInPrimary: int, primaryWidth: int, spaceWidth: int, spaceHeight: int, k: int)
    requires numInPrimary >= 1 && Min(numInPrimary, n) <= k < n
    ensures var nip := Min(numInPrimary, n);
            var c := ColumnWidths(n, nip, primaryWidth, spaceWidth);
            var l := FocusLayout(n, numInPrimary, primaryWidth, spaceWidth, spaceHeight)[k];
            var nbLeft := LeftCount(n, nip);
            && l.width == c.secondaryWidth
            && (k < nip + nbLeft ==> l.x == 0 && l.y == (k - nip) * SecondaryHeight(spaceHeight, nbLeft))
            && (k >= nip + nbLeft ==>
                  l.x == c.secondaryWidth + c.primaryWidth
                  && l.y == (k - nip - nbLeft) * SecondaryHeight(spaceHeight, RightCount(n, nip)))
  {
  }

  /** With at least as many primary slots as windows, every window spans the full width. */
  lemma AllPrimaryWhenEnoughSlots(n: nat, numInPrimary: int, primaryWidth: int, spaceWidth: int, spaceHeight: int, k: int)
    requires numInPrimary >= n && numInPrimary >= 1 && 0 <= k < n
    ensures FocusLayout(n, numInPrimary, primaryWidth, spaceWidth, spaceHeight)[k].x == 0
    ensures FocusLayout(n, numInPrimary, primaryWidth, spaceWidth, spaceHeight)[k].width == spaceWidth
  {
  }

  /**
   * With non-negative sizes and a primary width inside the space, every window lies
   * inside the space: the centre column and the right one never run past the right edge.
   */
  lemma LayoutWithinSpace(n: nat, numInPrimary: int, primaryWidth: int, spaceWidth: int, spaceHeight: int, k: int)
    requires numInPrimary >= 1 && 0 <= k < n
    requires 0 <= primaryWidth <= spaceWidth && spaceHeight >= 0
    ensures InsideSpace(FocusLayout(n, numInPrimary, primaryWidth, spaceWidth, spaceHeight)[k], spaceWidth, spaceHeight)
  {
    var nip := Min(numInPrimary, n);
    CellWithinSpace(k, n, nip, primaryWidth, spaceWidth, spaceHeight);
  }

  /** The columns never take more than the space width, and none is negative. */
  lemma ColumnsFit(n: int, nip: int, primaryWidth: int, spaceWidth: int)
    requires 0 <= primaryWidth <= spaceWidth
    ensures var c := ColumnWidths(n, nip, primaryWidth, spaceWidth);
            && 0 <= c.secondaryWidth && 0 <= c.primaryWidth
            && c.secondaryWidth + c.primaryWidth <= spaceWidth
            && (RightCount(n, nip) != 0 ==> 2 * c.secondaryWidth + c.primaryWidth <= spaceWidth)
  {
    var sec := TDiv(spaceWidth - primaryWidth, 2);
    assert 0 <= 2 * sec <= spaceWidth - primaryWidth;
  }

  lemma CellWithinSpace(k: int, n: int, nip: int, primaryWidth: int, spaceWidth: int, spaceHeight: int)
    requires 1 <= nip <= n && 0 <= k < n
    requires 0 <= primaryWidth <= spaceWidth && spaceHeight >= 0
    ensures InsideSpace(FocusCell(k, n, nip, primaryWidth, spaceWidth, spaceHeight), spaceWidth, spaceHeight)
  {
    var nbLeft := LeftCount(n, nip);
    var nbRight := RightCount(n, nip);
    SideCounts(n, nip);
    ColumnsFit(n, nip, primaryWidth, spaceWidth);
    var c := ColumnWidths(n, nip, primaryWidth, spaceWidth);
    if k < nip {
      StackedCellInside(c.secondaryWidth, c.primaryWidth, k, nip, spaceWidth, spaceHeight);
    } else if k < nip + nbLeft {
      assert SecondaryHeight(spaceHeight, nbLeft) == TDiv(spaceHeight, nbLeft);
      StackedCellInside(0, c.secondaryWidth, k - nip, nbLeft, spaceWidth, spaceHeight);
    } else {
      assert SecondaryHeight(spaceHeight, nbRight) == TDiv(spaceHeight, nbRight);
      StackedCellInside(c.secondaryWidth + c.primaryWidth, c.secondaryWidth, k - nip - nbLeft, nbRight, spaceWidth, spaceHeight);
    }
  }

  /** Four windows, one primary slot, primary width 700 in a 1000 x 900 space. */
  lemma FourWindowExample()
    ensures FocusLayout(4, 1, 700, 1000, 900) == [
              WindowLocation(150, 0, 700, 900, Normal),
              WindowLocation(0, 0, 150, 450, Normal),
              WindowLocation(0, 450, 150, 450, Normal),
              WindowLocation(850, 0, 150, 900, Normal)]
  {
  }

  /** Two windows: no right-hand window, so the centre column takes its share too. */
  lemma TwoWindowExample()
    ensures FocusLayout(2, 1, 700, 1000, 900) == [
              WindowLocation(150, 0, 850, 900, Normal),
              WindowLocation(0, 0, 150, 900, Normal)]
  {
  }
}
