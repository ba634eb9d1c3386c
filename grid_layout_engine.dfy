/**
 * `src/layout_engines/grid_layout_engine.rs`: the windows in a grid of equal cells,
 * `ceil(sqrt n)` columns wide. The column and row counts are computed in floating
 * point in the source; here they are the exact integer ceilings.
 */
module GridLayout {

  import opened RustArith
  import opened Locations
  import opened TrackedWindow
  import opened LayoutEngines

  /** `ceil(sqrt n)`, searched upwards from `w`. */
  function CeilSqrtFrom(n: nat, w: nat): (r: nat)
    requires w == 0 || (w - 1) * (w - 1) < n
    ensures r * r >= n && (r == 0 || (r - 1) * (r - 1) < n)
    decreases n - w
  {
    if w * w >= n then w
    else
      assert w < n by {
        if w >= n {
          MulLeftMonotone(1, w, w);
        }
      }
      CeilSqrtFrom(n, w + 1)
  }

  /** The least `w` with `w * w >= n`. */
  function CeilSqrt(n: nat): (w: nat)
    ensures w * w >= n && (w == 0 || (w - 1) * (w - 1) < n)
  {
    CeilSqrtFrom(n, 0)
  }

  /** `ceil(a / b)` for a positive divisor. */
  function CeilDiv(a: nat, b: nat): (q: nat)
    requires b > 0
    ensures q * b >= a && (q == 0 || (q - 1) * b < a)
  {
    (a + b - 1) / b
  }

  /** The number of columns, `ceil(sqrt n)`. */
  function GridWidth(n: nat): nat
  {
    CeilSqrt(n)
  }

  /** The number of rows, `ceil(n / columns)`. */
  function GridHeight(n: nat): nat
    requires n > 0
  {
    CeilDiv(n, GridWidth(n))
  }

  /** Window `i` as written: x from `i / columns`, y from `i % rows`. */
  function GridCell(i: nat, n: nat, spaceWidth: int, spaceHeight: int): WindowLocation
    requires n > 0
  {
    var gw, gh := GridWidth(n), GridHeight(n);
    var width, height := TDiv(spaceWidth, gw), TDiv(spaceHeight, gh);
    WindowLocation(i / gw * width, i % gh * height, width, height, Normal)
  }

  /** The layout `calc_layout` returns for `n` windows. */
  function GridLayout(n: nat, spaceWidth: int, spaceHeight: int): (r: seq<WindowLocation>)
    ensures |r| == n
    ensures forall i :: 0 <= i < n ==> r[i].state == Normal
  {
    if n == 0 then [] else seq(n, i requires 0 <= i < n => GridCell(i, n, spaceWidth, spaceHeight))
  }

  class GridLayoutEngine {
    const name: string := "full"

    constructor()
      ensures name == "full"
    {
    }

    /** `name`: as written, the grid engine reports `full`, the same name as the full engine. */
    function Name(): (n: string)
      reads this
      ensures n == "full"
    {
      name
    }

    /** The primary-area mutators of the trait have nothing to change in this engine. */
    method ShrinkPrimaryArea() {}
    method ExpandPrimaryArea() {}
    method ResetPrimaryArea() {}
    method IncrementNumInPrimary() {}
    method DecrementNumInPrimary() {}

    /** `calc_layout`: only the number of windows matters. */
    method CalcLayout(windows: seq<WindowsWindow>, spaceWidth: int, spaceHeight: int)
      returns (list: seq<WindowLocation>)
      ensures list == GridLayout(|windows|, spaceWidth, spaceHeight)
    {
      list := [];
      var numWindows := |windows|;
      if numWindows == 0 {
        return;
      }
      var gridWidth := GridWidth(numWindows);
      var gridHeight := GridHeight(numWindows);
      var width := TDiv(spaceWidth, gridWidth);
      var height := TDiv(spaceHeight, gridHeight);
      var i := 0;
      while i < numWindows
        invariant 0 <= i <= numWindows
        invariant |list| == i
        invariant forall k :: 0 <= k < i ==> list[k] == GridCell(k, numWindows, spaceWidth, spaceHeight)
      {
        var x := i / gridWidth * width;
        var y := i % gridHeight * height;
        list := list + [WindowLocation(x, y, width, height, Normal)];
        i := i + 1;
      }
    }
  }

  /** There are at least as many cells as windows, and no more rows than columns. */
  lemma GridShape(n: nat)
    requires n > 0
    ensures GridWidth(n) >= 1 && GridHeight(n) >= 1
    ensures GridWidth(n) * GridHeight(n) >= n
    ensures GridHeight(n) <= GridWidth(n)
  {
    var gw := GridWidth(n);
    var gh := GridHeight(n);
    if gh > gw {
      MulLeftMonotone(gw + 1, gh, gw);
    }
  }

  /** Index `i < n` lies in one of the grid's rows when read row-major. */
  lemma RowIndexBound(i: nat, n: nat)
    requires n > 0 && i < n
    ensures i / GridWidth(n) < GridHeight(n)
  {
    var gw, gh := GridWidth(n), GridHeight(n);
    GridShape(n);
    if i / gw >= gh {
      MulLeftMonotone(gh, i / gw, gw);
    }
  }

  /** The cell in column `col` and row `row` of a `columns` x `rows` grid lies inside the space. */
  lemma GridCellInside(col: int, row: int, columns: int, rows: int, spaceWidth: int, spaceHeight: int)
    requires spaceWidth >= 0 && spaceHeight >= 0 && 0 <= col < columns && 0 <= row < rows
    ensures var width, height := TDiv(spaceWidth, columns), TDiv(spaceHeight, rows);
            InsideSpace(WindowLocation(col * width, row * height, width, height, Normal), spaceWidth, spaceHeight)
  {
    StackedRowsFit(spaceWidth, columns, col);
    StackedRowsFit(spaceHeight, rows, row);
  }

  /** As written, every window still lies inside the space (the column index never exceeds the row count). */
  lemma LayoutWithinSpace(n: nat, spaceWidth: int, spaceHeight: int, i: nat)
    requires i < n && spaceWidth >= 0 && spaceHeight >= 0
    ensures InsideSpace(GridLayout(n, spaceWidth, spaceHeight)[i], spaceWidth, spaceHeight)
  {
    var gw, gh := GridWidth(n), GridHeight(n);
    GridShape(n);
    RowIndexBound(i, n);
    GridCellInside(i / gw, i % gh, gw, gh, spaceWidth, spaceHeight);
    assert GridLayout(n, spaceWidth, spaceHeight)[i] == GridCell(i, n, spaceWidth, spaceHeight);
  }

  /** Two windows: both are put in the left column's only cell. */
  lemma GridCellsCollide()
    ensures GridLayout(2, 1000, 800)[0] == GridLayout(2, 1000, 800)[1] == WindowLocation(0, 0, 500, 800, Normal)
  {
    assert GridWidth(2) == 2 by {
      assert CeilSqrtFrom(2, 2) == 2;
      assert CeilSqrtFrom(2, 1) == 2;
    }
  }

  /** Window `i` read row-major: column `i % columns`, row `i / columns`. */
  function GridCellCorrected(i: nat, n: nat, spaceWidth: int, spaceHeight: int): WindowLocation
    requires n > 0
  {
    var gw, gh := GridWidth(n), GridHeight(n);
    var width, height := TDiv(spaceWidth, gw), TDiv(spaceHeight, gh);
    WindowLocation(i % gw * width, i / gw * height, width, height, Normal)
  }

  function GridLayoutCorrected(n: nat, spaceWidth: int, spaceHeight: int): (r: seq<WindowLocation>)
    ensures |r| == n
    ensures forall i :: 0 <= i < n ==> r[i].state == Normal
  {
    if n == 0 then [] else seq(n, i requires 0 <= i < n => GridCellCorrected(i, n, spaceWidth, spaceHeight))
  }

  /** Row-major placement keeps every window inside the space. */
  lemma CorrectedWithinSpace(n: nat, spaceWidth: int, spaceHeight: int, i: nat)
    requires i < n && spaceWidth >= 0 && spaceHeight >= 0
    ensures InsideSpace(GridLayoutCorrected(n, spaceWidth, spaceHeight)[i], spaceWidth, spaceHeight)
  {
    var gw, gh := GridWidth(n), GridHeight(n);
    GridShape(n);
    RowIndexBound(i, n);
    GridCellInside(i % gw, i / gw, gw, gh, spaceWidth, spaceHeight);
    assert GridLayoutCorrected(n, spaceWidth, spaceHeight)[i] == GridCellCorrected(i, n, spaceWidth, spaceHeight);
  }

  /** Distinct windows get distinct grid positions (column, row). */
  lemma CorrectedPositionsDistinct(n: nat, i: nat, j: nat)
    requires i < n && j < n && i != j
    ensures (i % GridWidth(n), i / GridWidth(n)) != (j % GridWidth(n), j / GridWidth(n))
  {
    GridShape(n);
  }

  /** Cells at different grid positions do not overlap when cells are at least one pixel in each direction. */
  lemma DistinctPositionsDisjoint(ci: int, ri: int, cj: int, rj: int, width: int, height: int)
    requires ci >= 0 && ri >= 0 && cj >= 0 && rj >= 0 && width > 0 && height > 0
    requires (ci, ri) != (cj, rj)
    ensures ci * width + width <= cj * width || cj * width + width <= ci * width
            || ri * height + height <= rj * height || rj * height + height <= ri * height
  {
    if ci < cj {
      MulLeftMonotone(ci + 1, cj, width);
    } else if cj < ci {
      MulLeftMonotone(cj + 1, ci, width);
    } else if ri < rj {
      MulLeftMonotone(ri + 1, rj, height);
    } else {
      MulLeftMonotone(rj + 1, ri, height);
    }
  }

  /** Two window locations do not overlap. */
  predicate Disjoint(a: WindowLocation, b: WindowLocation)
  {
    a.x + a.width <= b.x || b.x + b.width <= a.x || a.y + a.height <= b.y || b.y + b.height <= a.y
  }

  /** The corrected cell of window `i`, spelled out. */
  lemma CorrectedCellAt(n: nat, spaceWidth: int, spaceHeight: int, i: nat)
    requires i < n
    ensures var width, height := TDiv(spaceWidth, GridWidth(n)), TDiv(spaceHeight, GridHeight(n));
            GridLayoutCorrected(n, spaceWidth, spaceHeight)[i]
            == WindowLocation(i % GridWidth(n) * width, i / GridWidth(n) * height, width, height, Normal)
  {
  }

  /** With cells at least one pixel wide and high, distinct windows get disjoint cells. */
  lemma CorrectedCellsDisjoint(n: nat, spaceWidth: int, spaceHeight: int, i: nat, j: nat)
    requires i < n && j < n && i != j
    requires TDiv(spaceWidth, GridWidth(n)) > 0 && TDiv(spaceHeight, GridHeight(n)) > 0
    ensures Disjoint(GridLayoutCorrected(n, spaceWidth, spaceHeight)[i], GridLayoutCorrected(n, spaceWidth, spaceHeight)[j])
  {
    var gw := GridWidth(n);
    var width, height := TDiv(spaceWidth, gw), TDiv(spaceHeight, GridHeight(n));
    GridShape(n);
    CorrectedPositionsDistinct(n, i, j);
    CorrectedCellAt(n, spaceWidth, spaceHeight, i);
    CorrectedCellAt(n, spaceWidth, spaceHeight, j);
    var ci, ri, cj, rj := i % gw, i / gw, j % gw, j / gw;
    DivModOfNatural(i, gw);
    DivModOfNatural(j, gw);
    CellsAtDistinctPositionsDisjoint(GridLayoutCorrected(n, spaceWidth, spaceHeight)[i], GridLayoutCorrected(n, spaceWidth, spaceHeight)[j],
      ci, ri, cj, rj, width, height);
  }

  /** Two cells of the same size at distinct grid positions do not overlap. */
  lemma CellsAtDistinctPositionsDisjoint(a: WindowLocation, b: WindowLocation, ci: int, ri: int, cj: int, rj: int, width: int, height: int)
    requires ci >= 0 && ri >= 0 && cj >= 0 && rj >= 0 && width > 0 && height > 0
    requires (ci, ri) != (cj, rj)
    requires a == WindowLocation(ci * width, ri * height, width, height, Normal)
    requires b == WindowLocation(cj * width, rj * height, width, height, Normal)
    ensures Disjoint(a, b)
  {
    DistinctPositionsDisjoint(ci, ri, cj, rj, width, height);
  }
}
