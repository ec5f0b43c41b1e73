/**
 * Vedeu::Editor::VirtualCursor: a cursor inside an editor document, kept as
 * a line `y` and a column `x` relative to the document's offsets `by`, `bx` (here `baseY`, `baseX`:
 * `by` is a Dafny keyword).
 */
module Editor {
  import opened Common
  import opened RubyString

  /** ECMA-48 Control Sequence Introducer, ESC [. */
  const Csi: string := "\U{1B}["

  /**
   * The final byte of CUP (ECMA-48 section 8.3.21), followed by the DEC private
   * mode 25 set sequence (DECTCEM: show the cursor).
   */
  const CupAndShow: string := "H\U{1B}[?25h"

  /** Cursor Position to `row`, `col` in decimal, then show the cursor. */
  function Cup(row: int, col: int): string {
    Csi + IntToS(row) + ";" + IntToS(col) + CupAndShow
  }

  /** Position of the first `c` in `s`, or `|s|` when there is none. */
  function IndexOf(s: string, c: char): (k: nat)
    ensures k <= |s|
    ensures forall j :: 0 <= j < k ==> s[j] != c
    ensures k < |s| ==> s[k] == c
  {
    if s == "" then 0
    else if s[0] == c then 0
    else 1 + IndexOf(s[1..], c)
  }

  /** Reads back the row and column of a `Cup` sequence; `None` for anything else. */
  function DecodeCup(s: string): Option<(int, int)> {
    if |s| >= |Csi| + |CupAndShow| && s[..|Csi|] == Csi && s[|s| - |CupAndShow|..] == CupAndShow then
      var body := s[|Csi|..|s| - |CupAndShow|];
      var k := IndexOf(body, ';');
      if k < |body| then
        match (ParseInt(body[..k]), ParseInt(body[k + 1..]))
        case (Some(row), Some(col)) => Some((row, col))
        case _ => None
      else None
    else None
  }

  lemma IndexOfAfterNumber(a: string, rest: string)
    requires forall k :: 0 <= k < |a| ==> a[k] != ';'
    ensures IndexOf(a + ";" + rest, ';') == |a|
  {
    var s := a + ";" + rest;
    assert s[|a|] == ';';
    assert forall j :: 0 <= j < |a| ==> s[j] == a[j];
  }

  /** The sequence `Cup` writes can be read back: it names exactly its row and column. */
  lemma CupRoundTrip(row: int, col: int)
    ensures DecodeCup(Cup(row, col)) == Some((row, col))
  {
    var a, b := IntToS(row), IntToS(col);
    var s := Cup(row, col);
    var body := a + ";" + b;
    assert s == Csi + body + CupAndShow;
    assert s[..|Csi|] == Csi;
    assert s[|s| - |CupAndShow|..] == CupAndShow;
    assert s[|Csi|..|s| - |CupAndShow|] == body;
    assert forall k :: 0 <= k < |a| ==> a[k] != ';' by {
      forall k | 0 <= k < |a| ensures a[k] != ';' {
        assert IsDigit(a[k]) || a[k] == '-';
      }
    }
    IndexOfAfterNumber(a, b);
    assert body[..|a|] == a;
    assert body[|a| + 1..] == b;
    IntToSRoundTrip(row);
    IntToSRoundTrip(col);
  }

  class VirtualCursor {
    var baseX: int
    var baseY: int
    var x: int
    var y: int

    /** A nil or negative line or column starts at 0; the offsets default to 1. */
    constructor (y: Option<int> := Some(0), x: Option<int> := Some(0), baseY: int := 1, baseX: int := 1)
      ensures this.y == (if y.None? || y.value < 0 then 0 else y.value)
      ensures this.x == (if x.None? || x.value < 0 then 0 else x.value)
      ensures this.baseY == baseY && this.baseX == baseX
    {
      this.y := if y.None? || y.value < 0 then 0 else y.value;
      this.x := if x.None? || x.value < 0 then 0 else x.value;
      this.baseY := baseY;
      this.baseX := baseX;
    }

    /** Moves to the beginning of the line. */
    method Bol() returns (r: int)
      modifies this`x
      ensures x == 0 && r == x
    {
      x := 0;
      r := x;
    }

    method Down() returns (r: int)
      modifies this`y
      ensures y == old(y) + 1 && r == y
    {
      y := y + 1;
      r := y;
    }

    /** No lower bound: moving left from column 0 gives column -1. */
    method Left() returns (r: int)
      modifies this`x
      ensures x == old(x) - 1 && r == x
    {
      x := x - 1;
      r := x;
    }

    method Right() returns (r: int)
      modifies this`x
      ensures x == old(x) + 1 && r == x
    {
      x := x + 1;
      r := x;
    }

    method Up() returns (r: int)
      modifies this`y
      ensures y == old(y) - 1 && r == y
    {
      y := y - 1;
      r := y;
    }

    function RealY(): int
      reads this
    {
      baseY + y
    }

    function RealX(): int
      reads this
    {
      baseX + x
    }

    /** The escape sequence that puts the terminal cursor at the real position and shows it. */
    function ToS(): (s: string)
      reads this
      ensures DecodeCup(s) == Some((baseY + y, baseX + x))
      ensures s[..|Csi|] == Csi && s[|s| - |CupAndShow|..] == CupAndShow
    {
      CupRoundTrip(RealY(), RealX());
      Cup(RealY(), RealX())
    }
  }

  /** Moving up then down puts every field back. */
  method UpThenDown(c: VirtualCursor)
    modifies c
    ensures c.x == old(c.x) && c.y == old(c.y) && c.baseX == old(c.baseX) && c.baseY == old(c.baseY)
  {
    var _ := c.Up();
    var _ := c.Down();
  }

  /** Moving left then right puts every field back. */
  method LeftThenRight(c: VirtualCursor)
    modifies c
    ensures c.x == old(c.x) && c.y == old(c.y) && c.baseX == old(c.baseX) && c.baseY == old(c.baseY)
  {
    var _ := c.Left();
    var _ := c.Right();
  }

  /** Once built, the cursor is not clamped again: left of column 0 is column -1. */
  method LeftOfOrigin() returns (c: VirtualCursor)
    ensures c.x == -1 && c.y == 0
  {
    c := new VirtualCursor();
    var _ := c.Left();
  }
}
