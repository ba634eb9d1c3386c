/**
 * `src/layout_engines/mod.rs`: the closed set of layout engines. The `LayoutEngine`
 * trait is not a Dafny trait here: each engine class carries the same members
 * (`Name`, `CalcLayout` and the five primary-area mutators).
 */
module LayoutEngines {

  import opened RustArith
  import opened Locations

  datatype LayoutEngineType = Dwindle | Focus | Full | Grid

  /** `LayoutEngineType::default()`. */
  const DEFAULT_LAYOUT_ENGINE_TYPE: LayoutEngineType := Full

  /** `LayoutEngineType::variants()`, in declaration order. */
  function Variants(): (vs: seq<LayoutEngineType>)
    ensures |vs| == 4
  {
    [Dwindle, Focus, Full, Grid]
  }

  /** The list names every engine type exactly once. */
  lemma VariantsEnumerateAllTypes(t: LayoutEngineType)
    ensures t in Variants()
    ensures forall i, j :: 0 <= i < j < |Variants()| ==> Variants()[i] != Variants()[j]
    ensures Variants()[2] == DEFAULT_LAYOUT_ENGINE_TYPE
  {
  }

  /**
   * `(space_width as f64 * percent) as i32`, the width of a primary area, with the
   * percentage in hundredths: the product truncated toward zero.
   */
  function PrimaryWidth(spaceWidth: int, percent: int): int
  {
    TDiv(spaceWidth * percent, 100)
  }

  /** A percentage between 0 and 100 of a non-negative width is a width inside it. */
  lemma PrimaryWidthWithinSpace(spaceWidth: int, percent: int)
    requires spaceWidth >= 0 && 0 <= percent <= 100
    ensures 0 <= PrimaryWidth(spaceWidth, percent) <= spaceWidth
  {
    MulLeftMonotone(0, percent, spaceWidth);
    MulLeftMonotone(percent, 100, spaceWidth);
    TDivMonotone(0, spaceWidth * percent, 100);
    TDivMonotone(spaceWidth * percent, spaceWidth * 100, 100);
  }

  /** Expanding the primary area never narrows it (for a non-negative space). */
  lemma PrimaryWidthMonotone(spaceWidth: int, p: int, q: int)
    requires spaceWidth >= 0 && p <= q
    ensures PrimaryWidth(spaceWidth, p) <= PrimaryWidth(spaceWidth, q)
  {
    MulLeftMonotone(p, q, spaceWidth);
    TDivMonotone(spaceWidth * p, spaceWidth * q, 100);
  }

  /** `count` rows of height `space_height / count`, stacked from the top, fit in the space height. */
  lemma StackedRowsFit(spaceHeight: int, count: int, k: int)
    requires spaceHeight >= 0 && 0 <= k < count
    ensures 0 <= k * TDiv(spaceHeight, count) && (k + 1) * TDiv(spaceHeight, count) <= spaceHeight
  {
    var h := TDiv(spaceHeight, count);
    assert h >= 0 && h * count <= spaceHeight;
    MulLeftMonotone(0, k, h);
    MulLeftMonotone(k + 1, count, h);
  }

  /** The window has non-negative size and lies inside the space `[0, spaceWidth] x [0, spaceHeight]`. */
  predicate InsideSpace(l: WindowLocation, spaceWidth: int, spaceHeight: int)
  {
    && 0 <= l.x && l.x + l.width <= spaceWidth && 0 <= l.y && l.y + l.height <= spaceHeight
    && l.width >= 0 && l.height >= 0
  }

  /** A window in a column `width` wide at `x`, in row `j` of `count` equal rows. */
  lemma StackedCellInside(x: int, width: int, j: int, count: int, spaceWidth: int, spaceHeight: int)
    requires 0 <= x && 0 <= width && x + width <= spaceWidth && spaceHeight >= 0 && 0 <= j < count
    ensures InsideSpace(WindowLocation(x, j * TDiv(spaceHeight, count), width, TDiv(spaceHeight, count), Normal), spaceWidth, spaceHeight)
  {
    StackedRowsFit(spaceHeight, count, j);
  }
}
