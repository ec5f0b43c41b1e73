/**
 * Vedeu::PositionValidator: clamps a point (x, y) first into the terminal,
 * then into the interface's rectangle, then, when the interface has a
 * border, into the part of the rectangle the border leaves free.
 */
module PositionValidation {

  /** The terminal's first and last column (tx, txn) and row (ty, tyn). */
  datatype TerminalBounds = TerminalBounds(tx: int, ty: int, txn: int, tyn: int)

  /** The interface's resolved geometry: columns left..right, rows top..bottom. */
  datatype Rect = Rect(left: int, right: int, top: int, bottom: int)

  /** Which sides of the interface carry a border. */
  datatype Border = Border(left: bool, right: bool, top: bool, bottom: bool)

  /** What the validator reads from its interface: `border?`, `border` and `geometry`. */
  datatype ClampInterface = ClampInterface(hasBorder: bool, border: Border, geometry: Rect)

  datatype Point = Point(x: int, y: int)

  /**
   * The terminal stage: each bound is applied only when the point lies
   * beyond it. A coordinate before the first column or row goes to it, one
   * past the last goes to the last; when the bounds cross, the last bound,
   * applied second, wins.
   */
  function TerminalStage(t: TerminalBounds, p: Point): (r: Point)
    ensures t.tx <= t.txn ==> t.tx <= r.x <= t.txn
    ensures t.ty <= t.tyn ==> t.ty <= r.y <= t.tyn
    ensures t.tx <= p.x <= t.txn ==> r.x == p.x
    ensures t.ty <= p.y <= t.tyn ==> r.y == p.y
    ensures p.x < t.tx <= t.txn ==> r.x == t.tx
    ensures p.y < t.ty <= t.tyn ==> r.y == t.ty
    ensures p.x > t.txn || t.tx > t.txn ==> r.x == t.txn
    ensures p.y > t.tyn || t.ty > t.tyn ==> r.y == t.tyn
  {
    var x1 := if p.x < t.tx then t.tx else p.x;
    var x2 := if x1 > t.txn then t.txn else x1;
    var y1 := if p.y < t.ty then t.ty else p.y;
    var y2 := if y1 > t.tyn then t.tyn else y1;
    Point(x2, y2)
  }

  /**
   * The interface stage: the same guarded clamp against the interface's
   * rectangle, to `left` or `right` and to `top` or `bottom`.
   */
  function InterfaceStage(g: Rect, p: Point): (r: Point)
    ensures g.left <= g.right ==> g.left <= r.x <= g.right
    ensures g.top <= g.bottom ==> g.top <= r.y <= g.bottom
    ensures g.left <= p.x <= g.right ==> r.x == p.x
    ensures g.top <= p.y <= g.bottom ==> r.y == p.y
    ensures p.x < g.left <= g.right ==> r.x == g.left
    ensures p.y < g.top <= g.bottom ==> r.y == g.top
    ensures p.x > g.right || g.left > g.right ==> r.x == g.right
    ensures p.y > g.bottom || g.top > g.bottom ==> r.y == g.bottom
  {
    var x1 := if p.x < g.left then g.left else p.x;
    var x2 := if x1 > g.right then g.right else x1;
    var y1 := if p.y < g.top then g.top else p.y;
    var y2 := if y1 > g.bottom then g.bottom else y1;
    Point(x2, y2)
  }

  /**
   * The border stage. The lower limits are left + 1 and top + 1, the upper
   * ones right - 2 and bottom - 2; each applies only for a bordered side, and
   * the upper limit, applied second, wins when the two cross.
   */
  function BorderStage(i: ClampInterface, p: Point): (r: Point)
    ensures !i.hasBorder ==> r == p
    ensures i.hasBorder && i.border.right ==> r.x <= i.geometry.right - 2
    ensures i.hasBorder && i.border.bottom ==> r.y <= i.geometry.bottom - 2
    ensures (i.hasBorder && i.border.left && (!i.border.right || i.geometry.left + 1 <= i.geometry.right - 2))
              ==> r.x >= i.geometry.left + 1
    ensures (i.hasBorder && i.border.top && (!i.border.bottom || i.geometry.top + 1 <= i.geometry.bottom - 2))
              ==> r.y >= i.geometry.top + 1
    ensures !i.border.left && !i.border.right ==> r.x == p.x
    ensures !i.border.top && !i.border.bottom ==> r.y == p.y
    ensures InBorderInterior(i, p) ==> r == p
    ensures var g, b := i.geometry, i.border;
            i.hasBorder && b.left && p.x < g.left + 1 && (!b.right || g.left + 1 <= g.right - 2) ==> r.x == g.left + 1
    ensures var g, b := i.geometry, i.border;
            i.hasBorder && b.top && p.y < g.top + 1 && (!b.bottom || g.top + 1 <= g.bottom - 2) ==> r.y == g.top + 1
    ensures var g, b := i.geometry, i.border;
            i.hasBorder && b.right && (p.x > g.right - 2 || (b.left && g.left + 1 > g.right - 2)) ==> r.x == g.right - 2
    ensures var g, b := i.geometry, i.border;
            i.hasBorder && b.bottom && (p.y > g.bottom - 2 || (b.top && g.top + 1 > g.bottom - 2)) ==> r.y == g.bottom - 2
    ensures var g, b := i.geometry, i.border;
            i.hasBorder && (!b.left || p.x >= g.left + 1) && (!b.right || p.x <= g.right - 2) ==> r.x == p.x
    ensures var g, b := i.geometry, i.border;
            i.hasBorder && (!b.top || p.y >= g.top + 1) && (!b.bottom || p.y <= g.bottom - 2) ==> r.y == p.y
  {
    if !i.hasBorder then p
    else
      var g, b := i.geometry, i.border;
      var x1 := if b.left && p.x < g.left + 1 then g.left + 1 else p.x;
      var x2 := if b.right && x1 > g.right - 2 then g.right - 2 else x1;
      var y1 := if b.top && p.y < g.top + 1 then g.top + 1 else p.y;
      var y2 := if b.bottom && y1 > g.bottom - 2 then g.bottom - 2 else y1;
      Point(x2, y2)
  }

  /** A point no bound of the border stage would move. */
  predicate InBorderInterior(i: ClampInterface, p: Point) {
    var g, b := i.geometry, i.border;
    !i.hasBorder ||
    ((!b.left || p.x >= g.left + 1) && (!b.right || p.x <= g.right - 2) &&
     (!b.top || p.y >= g.top + 1) && (!b.bottom || p.y <= g.bottom - 2))
  }

  predicate InTerminal(t: TerminalBounds, p: Point) {
    t.tx <= p.x <= t.txn && t.ty <= p.y <= t.tyn
  }

  predicate InRect(g: Rect, p: Point) {
    g.left <= p.x <= g.right && g.top <= p.y <= g.bottom
  }

  function Dist(a: int, b: int): nat {
    if a <= b then b - a else a - b
  }

  /** `r` is, among `lo..hi`, a value nearest to `v`. */
  predicate NearestIn(lo: int, hi: int, v: int, r: int) {
    lo <= r <= hi && forall z :: lo <= z <= hi ==> Dist(r, v) <= Dist(z, v)
  }

  /** Within non-crossing bounds, the terminal and interface stages move each coordinate to a nearest one in range. */
  lemma StagesPickNearest(t: TerminalBounds, g: Rect, p: Point)
    ensures t.tx <= t.txn ==> NearestIn(t.tx, t.txn, p.x, TerminalStage(t, p).x)
    ensures t.ty <= t.tyn ==> NearestIn(t.ty, t.tyn, p.y, TerminalStage(t, p).y)
    ensures g.left <= g.right ==> NearestIn(g.left, g.right, p.x, InterfaceStage(g, p).x)
    ensures g.top <= g.bottom ==> NearestIn(g.top, g.bottom, p.y, InterfaceStage(g, p).y)
  {
  }

  /** The three stages in their fixed order: terminal, interface, border. */
  function Clamp(t: TerminalBounds, i: ClampInterface, p: Point): Point {
    BorderStage(i, InterfaceStage(i.geometry, TerminalStage(t, p)))
  }

  /** When the bordered interior is not empty, every result lies in it and in the rectangle, wherever the terminal is. */
  lemma ClampBounds(t: TerminalBounds, i: ClampInterface, p: Point)
    requires i.geometry.left + 1 <= i.geometry.right - 2 && i.geometry.top + 1 <= i.geometry.bottom - 2
    ensures InBorderInterior(i, Clamp(t, i, p))
    ensures InRect(i.geometry, Clamp(t, i, p))
  {
  }

  /** A point already inside the final region comes back unchanged. */
  lemma ClampKeepsInterior(t: TerminalBounds, i: ClampInterface, p: Point)
    requires InTerminal(t, p) && InRect(i.geometry, p) && InBorderInterior(i, p)
    ensures Clamp(t, i, p) == p
  {
  }

  /** Clamping a clamped point changes nothing, when the rectangle lies in the terminal and its interior is not empty. */
  lemma ClampIdempotent(t: TerminalBounds, i: ClampInterface, p: Point)
    requires t.tx <= i.geometry.left && i.geometry.right <= t.txn
    requires t.ty <= i.geometry.top && i.geometry.bottom <= t.tyn
    requires i.geometry.left + 1 <= i.geometry.right - 2 && i.geometry.top + 1 <= i.geometry.bottom - 2
    ensures Clamp(t, i, Clamp(t, i, p)) == Clamp(t, i, p)
  {
    var q := Clamp(t, i, p);
    assert InRect(i.geometry, q);
    ClampKeepsInterior(t, i, q);
  }

  /** Rectangle (5,5)-(20,20) bordered on every side in a 25-by-25 terminal. */
  lemma ClampWorkedExample()
    ensures var t := TerminalBounds(1, 1, 25, 25);
            var i := ClampInterface(true, Border(true, true, true, true), Rect(5, 20, 5, 20));
            Clamp(t, i, Point(3, 3)) == Point(6, 6) && Clamp(t, i, Point(25, 25)) == Point(18, 18)
  {
  }

  /**
   * The validator of one interface and one point. The terminal bounds and
   * the interface are only read; `x` and `y` are the state the stages update.
   */
  class PositionValidator {
    const terminal: TerminalBounds
    const interface: ClampInterface
    var x: int
    var y: int

    constructor (terminal: TerminalBounds, interface: ClampInterface, x: int, y: int)
      ensures this.terminal == terminal && this.interface == interface
      ensures this.x == x && this.y == y
    {
      this.terminal := terminal;
      this.interface := interface;
      this.x := x;
      this.y := y;
    }

    /** `PositionValidator.validate(interface, x, y)`: a new validator, validated. */
    static method ValidatePoint(terminal: TerminalBounds, interface: ClampInterface, x: int, y: int)
      returns (v: PositionValidator)
      ensures fresh(v) && v.terminal == terminal && v.interface == interface
      ensures Point(v.x, v.y) == Clamp(terminal, interface, Point(x, y))
    {
      v := new PositionValidator(terminal, interface, x, y);
      var self := v.Validate();
    }

    /** Runs the three stages in order and returns the validator itself. */
    method Validate() returns (self: PositionValidator)
      modifies this
      ensures self == this
      ensures Point(x, y) == Clamp(terminal, interface, old(Point(x, y)))
    {
      TerminalValidation();
      InterfaceValidation();
      BorderValidation();
      self := this;
    }

    method TerminalValidation()
      modifies this
      ensures Point(x, y) == TerminalStage(terminal, old(Point(x, y)))
    {
      if x < terminal.tx { x := terminal.tx; }
      if x > terminal.txn { x := terminal.txn; }
      if y < terminal.ty { y := terminal.ty; }
      if y > terminal.tyn { y := terminal.tyn; }
    }

    method InterfaceValidation()
      modifies this
      ensures Point(x, y) == InterfaceStage(interface.geometry, old(Point(x, y)))
    {
      var g := interface.geometry;
      if x < g.left { x := g.left; }
      if x > g.right { x := g.right; }
      if y < g.top { y := g.top; }
      if y > g.bottom { y := g.bottom; }
    }

    method BorderValidation()
      modifies this
      ensures Point(x, y) == BorderStage(interface, old(Point(x, y)))
    {
      if interface.hasBorder {
        var g, b := interface.geometry, interface.border;
        if b.left && x < g.left + 1 { x := g.left + 1; }
        if b.right && x > g.right - 2 { x := g.right - 2; }
        if b.top && y < g.top + 1 { y := g.top + 1; }
        if b.bottom && y > g.bottom - 2 { y := g.bottom - 2; }
      }
    }
  }
}
