/**
 * `WindowLocation` of `src/window_location.rs`: a target or observed geometry plus a
 * show state. The copy in `src/classes/window_location.rs` has the same fields and the
 * same `is_point_inside`; only its `Display` differs (module ClassesLocations).
 */
module Locations {

  datatype WindowState = Normal | Minimized | Maximized

  datatype WindowLocation = WindowLocation(x: int, y: int, width: int, height: int, state: WindowState) {

    /** Closed containment: all four edges count as inside. */
    predicate IsPointInside(px: int, py: int)
    {
      x <= px && px <= x + width && y <= py && py <= y + height
    }
  }

  /** The `{:?}` rendering of a state: its variant name. */
  function StateName(s: WindowState): (name: string)
    ensures s == Normal <==> name == "Normal"
    ensures s == Minimized <==> name == "Minimized"
    ensures s == Maximized <==> name == "Maximized"
  {
    match s
    case Normal => "Normal"
    case Minimized => "Minimized"
    case Maximized => "Maximized"
  }

  predicate IsDigit(c: char)
  {
    '0' <= c <= '9'
  }

  function DigitChar(d: nat): (c: char)
    requires d < 10
    ensures IsDigit(c) && c as int - '0' as int == d
  {
    ('0' as int + d) as char
  }

  /** The decimal digits of `n`, most significant first, with no leading zero. */
  function NatToString(n: nat): (s: string)
    ensures |s| > 0 && forall i :: 0 <= i < |s| ==> IsDigit(s[i])
    ensures |s| > 1 ==> s[0] != '0'
  {
    if n < 10 then [DigitChar(n)] else NatToString(n / 10) + [DigitChar(n % 10)]
  }

  /** `{}` on a signed integer: a minus sign for negatives, then the decimal digits. */
  function IntToString(i: int): (s: string)
    ensures |s| > 0
    ensures i >= 0 ==> s == NatToString(i)
    ensures i < 0 ==> s == "-" + NatToString(-i)
  {
    if i < 0 then "-" + NatToString(-i) else NatToString(i)
  }

  function DigitValue(c: char): (d: nat)
    requires IsDigit(c)
    ensures d < 10
  {
    c as int - '0' as int
  }

  /** The value of a string of decimal digits. */
  function DigitsValue(s: string): nat
    requires forall i :: 0 <= i < |s| ==> IsDigit(s[i])
  {
    if s == [] then 0 else 10 * DigitsValue(s[..|s| - 1]) + DigitValue(s[|s| - 1])
  }

  /** Reading back the digits written for `n` gives `n`: the rendering loses no information. */
  lemma {:induction false} NatToStringRoundTrip(n: nat)
    ensures DigitsValue(NatToString(n)) == n
  {
    var s := NatToString(n);
    if n >= 10 {
      NatToStringRoundTrip(n / 10);
      assert s[..|s| - 1] == NatToString(n / 10);
    }
  }

  /** `Display`: `"{state:?} - {x}:{y}/{width}:{height}"`. */
  function Display(l: WindowLocation): (s: string)
    ensures |s| > |StateName(l.state)| + 3
    ensures s[..|StateName(l.state)| + 3] == StateName(l.state) + " - "
  {
    StateName(l.state) + " - " + IntToString(l.x) + ":" + IntToString(l.y)
      + "/" + IntToString(l.width) + ":" + IntToString(l.height)
  }

  /** Both corners, and hence all four edges, are inside a location of non-negative size. */
  lemma CornersInside(l: WindowLocation)
    requires l.width >= 0 && l.height >= 0
    ensures l.IsPointInside(l.x, l.y) && l.IsPointInside(l.x + l.width, l.y + l.height)
    ensures l.IsPointInside(l.x + l.width, l.y) && l.IsPointInside(l.x, l.y + l.height)
  {
  }

  /** A point strictly beyond any of the four edges is outside. */
  lemma BeyondEdgeIsOutside(l: WindowLocation, px: int, py: int)
    requires px < l.x || px > l.x + l.width || py < l.y || py > l.y + l.height
    ensures !l.IsPointInside(px, py)
  {
  }

  /** The rendering tells the three states apart: their names differ in the second character. */
  lemma DisplayDistinguishesStates(a: WindowLocation, b: WindowLocation)
    requires a.state != b.state
    ensures Display(a) != Display(b)
  {
    var na, nb := StateName(a.state), StateName(b.state);
    assert Display(a)[1] == (na + " - ")[1] == na[1];
    assert Display(b)[1] == (nb + " - ")[1] == nb[1];
  }

  /** A worked rendering, negative coordinate included. */
  lemma DisplayExample()
    ensures Display(WindowLocation(1, -2, 30, 4, Minimized)) == "Minimized - 1:-2/30:4"
  {
  }
}

/** The `Display` of the `WindowLocation` copy in `src/classes/window_location.rs`. */
module ClassesLocations {

  import opened Locations

  /** `"{x}x{y} | {width}x{height} [{state:?}]"`. */
  function Display(l: WindowLocation): (s: string)
    ensures |s| >= |StateName(l.state)| + 3
    ensures s[|s| - |StateName(l.state)| - 3..] == " [" + StateName(l.state) + "]"
  {
    IntToString(l.x) + "x" + IntToString(l.y) + " | " + IntToString(l.width) + "x"
      + IntToString(l.height) + " [" + StateName(l.state) + "]"
  }

  /** The rendering tells the three states apart by the eighth character from its end. */
  lemma DisplayDistinguishesStates(a: WindowLocation, b: WindowLocation)
    requires a.state != b.state
    ensures Display(a) != Display(b)
  {
    var sa, sb := Display(a), Display(b);
    var ta, tb := " [" + StateName(a.state) + "]", " [" + StateName(b.state) + "]";
    assert sa[|sa| - 8] == ta[|ta| - 8];
    assert sb[|sb| - 8] == tb[|tb| - 8];
  }

  /** A worked rendering. */
  lemma DisplayExample()
    ensures Display(WindowLocation(0, 5, 80, 6, Maximized)) == "0x5 | 80x6 [Maximized]"
  {
  }
}
