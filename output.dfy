/**
 * Vedeu::Output: turns one interface's visible lines into the string sent
 * to the terminal (`view`) and into a grid of Chars (`virtual_view`) handed
 * to the output store.
 */
module Output {
  import opened Common
  import opened RubyString
  import opened Cells
  import opened Sinks

  /** An element of a visible line: a Char, or a plain string. */
  datatype Item = CharItem(c: Char) | TextItem(s: string)

  /**
   * What Output reads from its interface. The positioning and rendering
   * code behind these is not part of this model, so each is an
   * uninterpreted function:
   * `rawOrigin(i)` is `raw_origin(i)`, the (row, column) of line `i`;
   * `origin(i, block)` is the escape sequence of `origin(i) { block }`;
   * `colourText` is the `to_s` of a colour, and `charText` the `to_s` of a
   * Char (Vedeu::Presentation), read from the Char's attributes as they are
   * when the view is built, its position included.
   */
  datatype OutputInterface = OutputInterface(
    colour: Colour,
    height: nat,
    width: nat,
    rawOrigin: nat -> (int, int),
    origin: (nat, Option<string>) -> string,
    colourText: Colour -> string,
    charText: CharAttributes -> string,
    cursorText: string)

  /**
   * One entry of the virtual view: the first is the blank grid of
   * `virtual_clear`, each further one the row of Chars of a visible line.
   */
  datatype Entry = Grid(rows: seq<seq<Char>>) | Row(cells: seq<Char>)

  /** Where column `col` of line `line` sits: the line's origin, shifted right by `col`. */
  function PositionAt(o: OutputInterface, line: nat, col: nat): Position {
    Position(o.rawOrigin(line).0, o.rawOrigin(line).1 + col)
  }

  /** The pieces `clear` joins: the colour, then each row's origin followed by `width` spaces. */
  function ClearParts(o: OutputInterface): (parts: seq<string>)
    ensures |parts| == o.height + 1 && parts[0] == o.colourText(o.colour)
    ensures forall i :: 0 <= i < o.height ==> parts[i + 1] == o.origin(i, Some(Spaces(o.width)))
  {
    [o.colourText(o.colour)] + seq(o.height, i requires 0 <= i < o.height => o.origin(i, Some(Spaces(o.width))))
  }

  function ClearText(o: OutputInterface): string {
    Concat(ClearParts(o))
  }

  /** What `join` adds for one item: a Char's `to_s` as the Char is now, a String itself. */
  function ItemText(o: OutputInterface, item: Item): string
    reads if item.CharItem? then {item.c} else {}
  {
    match item
    case CharItem(c) => o.charText(c.Attributes())
    case TextItem(s) => s
  }

  /** The texts of the first `n` items of a line. */
  function ItemTexts(o: OutputInterface, line: seq<Item>, n: nat): (texts: seq<string>)
    requires n <= |line|
    reads CharsOf(line, |line|)
    ensures |texts| == n
  {
    if n == 0 then []
    else
      assert line[n - 1].CharItem? ==> line[n - 1].c in CharsOf(line, |line|);
      ItemTexts(o, line, n - 1) + [ItemText(o, line[n - 1])]
  }

  /** The text of one visible line, `line.join`: the text of each of its items, in order. */
  function LineText(o: OutputInterface, line: seq<Item>): string
    reads CharsOf(line, |line|)
  {
    Concat(ItemTexts(o, line, |line|))
  }

  /** The pieces `view` adds for the first `n` lines: each line's origin, then its text. */
  function LineParts(o: OutputInterface, lines: seq<seq<Item>>, n: nat): (parts: seq<string>)
    requires n <= |lines|
    reads CharsIn(lines)
    ensures |parts| == 2 * n
  {
    if n == 0 then []
    else
      CharsOfInCharsIn(lines, n - 1);
      LineParts(o, lines, n - 1) + [o.origin(n - 1, None), LineText(o, lines[n - 1])]
  }

  /** Line `i` contributes its origin and then its text, at places 2i and 2i + 1. */
  lemma {:induction false} LinePartsAt(o: OutputInterface, lines: seq<seq<Item>>, n: nat, i: nat)
    requires i < n <= |lines|
    ensures LineParts(o, lines, n)[2 * i] == o.origin(i, None)
    ensures LineParts(o, lines, n)[2 * i + 1] == LineText(o, lines[i])
    decreases n
  {
    if i < n - 1 {
      LinePartsAt(o, lines, n - 1, i);
    }
  }

  /** What `view` produces for the given visible lines. */
  function ViewText(o: OutputInterface, lines: seq<seq<Item>>): string
    reads CharsIn(lines)
  {
    Concat([ClearText(o)] + LineParts(o, lines, |lines|))
  }

  /** The view always starts by clearing the whole area: the clear text is its prefix. */
  lemma ViewStartsWithClear(o: OutputInterface, lines: seq<seq<Item>>)
    ensures ClearText(o) <= ViewText(o, lines)
    ensures lines == [] ==> ViewText(o, lines) == ClearText(o)
  {
    ConcatSplit([ClearText(o)], LineParts(o, lines, |lines|));
    assert Concat([ClearText(o)]) == ClearText(o) by {
      assert [ClearText(o)][..0] == [];
    }
  }

  /** Every line adds exactly its origin and its text after what the lines before it added. */
  lemma ViewOfOneMoreLine(o: OutputInterface, lines: seq<seq<Item>>, line: seq<Item>)
    ensures ViewText(o, lines + [line]) == ViewText(o, lines) + o.origin(|lines|, None) + LineText(o, line)
  {
    var all := lines + [line];
    var prefix := LineParts(o, all, |lines|);
    assert prefix == LineParts(o, lines, |lines|) by {
      LinePartsPrefix(o, all, lines, |lines|);
    }
    var front := [ClearText(o)] + prefix;
    assert [ClearText(o)] + LineParts(o, all, |all|) == front + [o.origin(|lines|, None)] + [LineText(o, line)];
    ConcatAppend(front + [o.origin(|lines|, None)], LineText(o, line));
    ConcatAppend(front, o.origin(|lines|, None));
  }

  lemma {:induction false} LinePartsPrefix(o: OutputInterface, all: seq<seq<Item>>, lines: seq<seq<Item>>, n: nat)
    requires n <= |lines| <= |all| && lines == all[..|lines|]
    ensures LineParts(o, all, n) == LineParts(o, lines, n)
    decreases n
  {
    if n > 0 {
      LinePartsPrefix(o, all, lines, n - 1);
      assert all[n - 1] == lines[n - 1];
    }
  }

  /** A Char of `virtual_clear`: a space in the interface's colour, no parent or style, at (hi, wi). */
  ghost predicate BlankAt(o: OutputInterface, c: Char, hi: nat, wi: nat)
    reads c
  {
    c.rawValue == Some(" ") && c.parent.None? && c.colour == Some(o.colour) && c.style.None?
    && c.position == Some(PositionAt(o, hi, wi))
  }

  /** A Char `virtual_view` builds for a plain string: that string in the interface's colour at (li, ci). */
  ghost predicate WrappedAt(o: OutputInterface, c: Char, s: string, li: nat, ci: nat)
    reads c
  {
    c.rawValue == Some(s) && c.parent.None? && c.colour == Some(o.colour) && c.style.None?
    && c.position == Some(PositionAt(o, li, ci))
  }

  ghost function GridCells(grid: seq<seq<Char>>): set<Char> {
    set hi, wi | 0 <= hi < |grid| && 0 <= wi < |grid[hi]| :: grid[hi][wi]
  }

  /** Every cell of the grid is blank and placed at its own row and column. */
  ghost predicate BlankGrid(o: OutputInterface, grid: seq<seq<Char>>)
    reads GridCells(grid)
  {
    |grid| == o.height &&
    forall hi :: 0 <= hi < |grid| ==>
      |grid[hi]| == o.width && forall wi :: 0 <= wi < |grid[hi]| ==> BlankAt(o, grid[hi][wi], hi, wi)
  }

  /**
   * The row `virtual_view` builds for line `li`: the line's own Chars where
   * it has Chars, a wrapping Char where it has a string.
   */
  ghost predicate RowOf(o: OutputInterface, line: seq<Item>, li: nat, cells: seq<Char>)
    reads Wrapped(line, cells)
  {
    |cells| == |line| &&
    forall ci :: 0 <= ci < |line| ==>
      (line[ci].CharItem? ==> cells[ci] == line[ci].c) &&
      (line[ci].TextItem? ==> WrappedAt(o, cells[ci], line[ci].s, li, ci))
  }

  /** The cells of a row that stand for plain strings of its line. */
  ghost function Wrapped(line: seq<Item>, cells: seq<Char>): set<Char> {
    set ci | 0 <= ci < |cells| && ci < |line| && line[ci].TextItem? :: cells[ci]
  }

  /** Every Char an entry of the virtual view holds. */
  ghost function EntryCells(out: seq<Entry>): set<Char> {
    (set i, h, w | 0 <= i < |out| && out[i].Grid? && 0 <= h < |out[i].rows| && 0 <= w < |out[i].rows[h]| :: out[i].rows[h][w])
    + (set i, k | 0 <= i < |out| && out[i].Row? && 0 <= k < |out[i].cells| :: out[i].cells[k])
  }

  /**
   * `out` is the virtual view of `lines`: the blank grid, then one row per
   * line in line order, each as long as its line.
   */
  ghost predicate VirtualViewOf(o: OutputInterface, lines: seq<seq<Item>>, out: seq<Entry>)
    reads EntryCells(out)
  {
    |out| == |lines| + 1 && out[0].Grid? && BlankGrid(o, out[0].rows) &&
    forall l :: 0 <= l < |lines| ==> out[1..][l].Row? && RowOf(o, lines[l], l, out[1..][l].cells)
  }

  /** The Chars among the first `k` items of a line. */
  ghost function CharsOf(line: seq<Item>, k: nat): set<Char>
    requires k <= |line|
  {
    set ci | 0 <= ci < k && line[ci].CharItem? :: line[ci].c
  }

  /** The Chars among all items of all lines. */
  ghost function CharsIn(lines: seq<seq<Item>>): set<Char> {
    set li, ci | 0 <= li < |lines| && 0 <= ci < |lines[li]| && lines[li][ci].CharItem? :: lines[li][ci].c
  }

  /**
   * The positions the first `k` items of line `li` give their Chars; a Char
   * that occurs twice keeps the later position, as the later assignment wins.
   */
  ghost function RowMap(o: OutputInterface, li: nat, line: seq<Item>, k: nat): (m: map<Char, Position>)
    requires k <= |line|
    ensures m.Keys == CharsOf(line, k)
  {
    if k == 0 then map[]
    else
      var m := RowMap(o, li, line, k - 1);
      if line[k - 1].CharItem? then m[line[k - 1].c := PositionAt(o, li, k - 1)] else m
  }

  /** The positions all of the first `n` lines give their Chars, later lines overriding earlier ones. */
  ghost function Placements(o: OutputInterface, lines: seq<seq<Item>>, n: nat): map<Char, Position>
    requires n <= |lines|
  {
    if n == 0 then map[] else Placements(o, lines, n - 1) + RowMap(o, n - 1, lines[n - 1], |lines[n - 1]|)
  }

  /** Every Char the map names is at the position the map gives it. */
  ghost predicate Placed(m: map<Char, Position>)
    reads m.Keys
  {
    forall c :: c in m ==> c.position == Some(m[c])
  }

  /**
   * A placed Char is shown at its placed position: what the view reads from
   * it is the Char's text with the position the map gives it.
   */
  lemma ShownAtPlacement(o: OutputInterface, m: map<Char, Position>, c: Char)
    requires Placed(m) && c in m
    ensures ItemText(o, CharItem(c)) == o.charText(c.Attributes().(position := Some(m[c])))
  {
  }

  /** Every Char of the lines gets a position from `virtual_view`, and nothing else does. */
  lemma {:induction false} PlacementsKeys(o: OutputInterface, lines: seq<seq<Item>>, n: nat)
    requires n <= |lines|
    ensures Placements(o, lines, n).Keys == CharsIn(lines[..n])
    decreases n
  {
    if n > 0 {
      PlacementsKeys(o, lines, n - 1);
      var front, whole := lines[..n - 1], lines[..n];
      forall c | c in CharsIn(whole) ensures c in Placements(o, lines, n) {
        var li, ci :| 0 <= li < |whole| && 0 <= ci < |whole[li]| && whole[li][ci].CharItem? && whole[li][ci].c == c;
        if li < n - 1 {
          assert front[li][ci] == whole[li][ci];
        } else {
          assert c in CharsOf(lines[n - 1], |lines[n - 1]|);
        }
      }
      forall c | c in Placements(o, lines, n) ensures c in CharsIn(whole) {
        if c in CharsOf(lines[n - 1], |lines[n - 1]|) {
          var ci :| 0 <= ci < |lines[n - 1]| && lines[n - 1][ci].CharItem? && lines[n - 1][ci].c == c;
          assert whole[n - 1][ci] == lines[n - 1][ci];
        } else {
          var li, ci :| 0 <= li < |front| && 0 <= ci < |front[li]| && front[li][ci].CharItem? && front[li][ci].c == c;
          assert whole[li][ci] == front[li][ci];
        }
      }
    }
  }

  /** Within a line, a Char's last occurrence decides its position. */
  lemma {:induction false} RowMapLast(o: OutputInterface, li: nat, line: seq<Item>, k: nat, ci: nat)
    requires ci < k <= |line| && line[ci].CharItem?
    requires forall j :: ci < j < k ==> line[j] != line[ci]
    ensures line[ci].c in RowMap(o, li, line, k) && RowMap(o, li, line, k)[line[ci].c] == PositionAt(o, li, ci)
    decreases k
  {
    if k - 1 > ci {
      RowMapLast(o, li, line, k - 1, ci);
      assert line[k - 1] != line[ci];
    }
  }

  /**
   * A Char that occurs in several visible lines ends at the position of its
   * last occurrence: `virtual_view` reassigns the position of the shared
   * object, so only the last assignment survives.
   */
  lemma {:induction false} LastOccurrenceWins(o: OutputInterface, lines: seq<seq<Item>>, n: nat, li: nat, ci: nat)
    requires li < n <= |lines| && ci < |lines[li]| && lines[li][ci].CharItem?
    requires forall j :: ci < j < |lines[li]| ==> lines[li][j] != lines[li][ci]
    requires forall l, j :: li < l < n && 0 <= j < |lines[l]| ==> lines[l][j] != lines[li][ci]
    ensures lines[li][ci].c in Placements(o, lines, n)
    ensures Placements(o, lines, n)[lines[li][ci].c] == PositionAt(o, li, ci)
    decreases n
  {
    var c := lines[li][ci].c;
    if n - 1 == li {
      RowMapLast(o, li, lines[li], |lines[li]|, ci);
    } else {
      LastOccurrenceWins(o, lines, n - 1, li, ci);
    }
  }

  lemma CharsOfInCharsIn(lines: seq<seq<Item>>, li: nat)
    requires li < |lines|
    ensures CharsOf(lines[li], |lines[li]|) <= CharsIn(lines)
  {
    forall c | c in CharsOf(lines[li], |lines[li]|) ensures c in CharsIn(lines) {
      var ci :| 0 <= ci < |lines[li]| && lines[li][ci].CharItem? && lines[li][ci].c == c;
    }
  }

  class Output {
    const interface: OutputInterface
    /** `@_viewport`: `nil` until the viewport is first rendered. */
    var viewportMemo: Option<seq<seq<Item>>>

    constructor (interface: OutputInterface)
      ensures this.interface == interface && viewportMemo.None?
    {
      this.interface := interface;
      viewportMemo := None;
    }

    /**
     * `viewport`. `rendered` is what `Viewport.new(interface).render` would
     * return if it were called now; it is only used the first time.
     */
    method Viewport(rendered: seq<seq<Item>>) returns (lines: seq<seq<Item>>)
      modifies this`viewportMemo
      ensures lines == Memoised(old(viewportMemo), rendered)
      ensures viewportMemo == Some(lines)
    {
      if viewportMemo.None? {
        viewportMemo := Some(rendered);
      }
      lines := viewportMemo.value;
    }

    /** `clear`: the colour, then for each row its origin followed by `width` spaces. */
    method Clear() returns (s: string)
      ensures s == ClearText(interface)
    {
      var parts := [interface.colourText(interface.colour)];
      for index := 0 to interface.height
        invariant |parts| == index + 1 && parts[0] == interface.colourText(interface.colour)
        invariant forall i :: 0 <= i < index ==> parts[i + 1] == interface.origin(i, Some(Spaces(interface.width)))
      {
        parts := parts + [interface.origin(index, Some(Spaces(interface.width)))];
      }
      assert parts == ClearParts(interface);
      s := Concat(parts);
    }

    /** The loop of `view`: each visible line's origin, then its text, in line order. */
    method LinesParts(lines: seq<seq<Item>>) returns (parts: seq<string>)
      ensures parts == LineParts(interface, lines, |lines|)
    {
      parts := [];
      for index := 0 to |lines|
        invariant parts == LineParts(interface, lines, index)
      {
        parts := parts + [interface.origin(index, None), LineText(interface, lines[index])];
      }
    }

    /** `view`: the clear text, then each visible line's origin and text. */
    method View(rendered: seq<seq<Item>>) returns (s: string)
      modifies this`viewportMemo
      ensures s == ViewText(interface, Memoised(old(viewportMemo), rendered))
      ensures viewportMemo == Some(Memoised(old(viewportMemo), rendered))
    {
      var c := Clear();
      var lines := Viewport(rendered);
      var parts := LinesParts(lines);
      s := Concat([c] + parts);
    }

    /** `virtual_clear`: a fresh grid of `height` rows of `width` blank Chars. */
    method VirtualClear() returns (grid: seq<seq<Char>>)
      ensures BlankGrid(interface, grid) && fresh(GridCells(grid))
    {
      grid := [];
      for hi := 0 to interface.height
        invariant |grid| == hi
        invariant forall h :: 0 <= h < hi ==> |grid[h]| == interface.width
        invariant forall h, w :: 0 <= h < hi && 0 <= w < interface.width ==>
                    fresh(grid[h][w]) && BlankAt(interface, grid[h][w], h, w)
      {
        var row := [];
        for wi := 0 to interface.width
          invariant |row| == wi
          invariant forall w :: 0 <= w < wi ==> fresh(row[w]) && BlankAt(interface, row[w], hi, w)
          invariant forall h, w :: 0 <= h < hi && 0 <= w < interface.width ==>
                      fresh(grid[h][w]) && BlankAt(interface, grid[h][w], h, w)
        {
          var pos := PositionAt(interface, hi, wi);
          var c := new Char(CharAttributes(Some(" "), None, Some(interface.colour), None, Some(pos)));
          row := row + [c];
        }
        grid := grid + [row];
      }
    }

    /**
     * The row of line `li` of `virtual_view`: every Char of the line is moved
     * to its column and kept, every plain string becomes a new Char there.
     */
    method BuildRow(line: seq<Item>, li: nat) returns (cells: seq<Char>)
      modifies CharsOf(line, |line|)`position
      ensures RowOf(interface, line, li, cells) && fresh(Wrapped(line, cells))
      ensures Placed(RowMap(interface, li, line, |line|))
    {
      cells := [];
      for ci := 0 to |line|
        invariant |cells| == ci
        invariant forall k :: 0 <= k < ci && line[k].CharItem? ==> cells[k] == line[k].c
        invariant forall k :: 0 <= k < ci && line[k].TextItem? ==>
                    fresh(cells[k]) && WrappedAt(interface, cells[k], line[k].s, li, k)
        invariant Placed(RowMap(interface, li, line, ci))
      {
        var pos := PositionAt(interface, li, ci);
        match line[ci]
        case CharItem(c) =>
          assert c in CharsOf(line, |line|);
          c.position := Some(pos);
          cells := cells + [c];
        case TextItem(s) =>
          var c := new Char(CharAttributes(Some(s), None, Some(interface.colour), None, Some(pos)));
          cells := cells + [c];
      }
    }

    /**
     * One row of `virtual_view` among the others: the rows built before, whose
     * new Chars are not Chars of the lines, stay as they were, and each Char
     * keeps the position of its latest occurrence so far.
     */
    method VirtualRow(lines: seq<seq<Item>>, li: nat, ghost rows: seq<seq<Char>>) returns (cells: seq<Char>)
      requires li < |lines| && |rows| == li
      requires Placed(Placements(interface, lines, li))
      requires forall l :: 0 <= l < li ==> RowOf(interface, lines[l], l, rows[l]) && Wrapped(lines[l], rows[l]) !! CharsIn(lines)
      modifies CharsOf(lines[li], |lines[li]|)`position
      ensures RowOf(interface, lines[li], li, cells) && Wrapped(lines[li], cells) !! CharsIn(lines)
      ensures fresh(Wrapped(lines[li], cells))
      ensures Placed(Placements(interface, lines, li + 1))
      ensures forall l :: 0 <= l < li ==> RowOf(interface, lines[l], l, rows[l])
    {
      CharsOfInCharsIn(lines, li);
      ghost var before := Placements(interface, lines, li);
      PlacementsKeys(interface, lines, li);
      assert before.Keys <= CharsIn(lines) by {
        forall c | c in before.Keys ensures c in CharsIn(lines) {
          var l, ci :| 0 <= l < |lines[..li]| && 0 <= ci < |lines[..li][l]| && lines[..li][l][ci].CharItem? && lines[..li][l][ci].c == c;
          assert lines[l][ci] == lines[..li][l][ci];
        }
      }
      cells := BuildRow(lines[li], li);
      ghost var rm := RowMap(interface, li, lines[li], |lines[li]|);
      assert Placements(interface, lines, li + 1) == before + rm;
    }

    /**
     * The rows of `virtual_view`, one per visible line, in order. The Chars
     * of the lines are shared objects whose position is reassigned: each
     * ends at the place of its last occurrence (`LastOccurrenceWins`).
     */
    method VirtualLines(lines: seq<seq<Item>>) returns (rows: seq<seq<Char>>)
      modifies CharsIn(lines)`position
      ensures |rows| == |lines|
      ensures forall l :: 0 <= l < |rows| ==> RowOf(interface, lines[l], l, rows[l]) && Wrapped(lines[l], rows[l]) !! CharsIn(lines)
      ensures Placed(Placements(interface, lines, |lines|))
    {
      rows := [];
      for li := 0 to |lines|
        invariant |rows| == li
        invariant forall l :: 0 <= l < li ==> RowOf(interface, lines[l], l, rows[l]) && Wrapped(lines[l], rows[l]) !! CharsIn(lines)
        invariant Placed(Placements(interface, lines, li))
      {
        CharsOfInCharsIn(lines, li);
        var cells := VirtualRow(lines, li, rows);
        ghost var before := rows;
        rows := rows + [cells];
        forall l | 0 <= l < li + 1
          ensures RowOf(interface, lines[l], l, rows[l]) && Wrapped(lines[l], rows[l]) !! CharsIn(lines)
        {
          if l < li {
            assert rows[l] == before[l];
          }
        }
      }
    }

    /** `virtual_view`: the blank grid first, then the row of each visible line. */
    method VirtualView(rendered: seq<seq<Item>>) returns (out: seq<Entry>)
      modifies this`viewportMemo, CharsIn(Memoised(viewportMemo, rendered))`position
      ensures viewportMemo == Some(Memoised(old(viewportMemo), rendered))
      ensures VirtualViewOf(interface, Memoised(old(viewportMemo), rendered), out)
      ensures out[0].Grid? && fresh(GridCells(out[0].rows))
      ensures var lines := Memoised(old(viewportMemo), rendered); Placed(Placements(interface, lines, |lines|))
    {
      var grid := VirtualClear();
      var lines := Viewport(rendered);
      assert GridCells(grid) !! CharsIn(lines);
      var rows := VirtualLines(lines);
      out := [Grid(grid)] + seq(|rows|, l requires 0 <= l < |rows| => Row(rows[l]));
    }

    /** `Vedeu.trigger(:_drb_store_output_, virtual_view)`: the virtual view goes to the output store. */
    method StoreVirtualView(rendered: seq<seq<Item>>, store: Sink<seq<Entry>>)
      modifies this`viewportMemo, CharsIn(Memoised(viewportMemo, rendered))`position, store
      ensures viewportMemo == Some(Memoised(old(viewportMemo), rendered))
      ensures |store.log| == |old(store.log)| + 1 && store.log[..|old(store.log)|] == old(store.log)
      ensures VirtualViewOf(interface, Memoised(old(viewportMemo), rendered), store.log[|old(store.log)|])
      ensures var lines := Memoised(old(viewportMemo), rendered); Placed(Placements(interface, lines, |lines|))
    {
      ghost var lines := Memoised(viewportMemo, rendered);
      var grid := VirtualView(rendered);
      ghost var placements := Placements(interface, lines, |lines|);
      assert Placed(placements);
      // No Char is the store, so writing to it moves none of them.
      assert forall c: Char | c in placements :: c as object != store;
      store.Write(grid);
    }

    /**
     * `Terminal.output(view, interface.cursor.to_s)`: the view and the
     * cursor's sequence go to the terminal, and these two are returned.
     */
    method ShowView(rendered: seq<seq<Item>>, terminal: Sink<string>) returns (written: seq<string>)
      modifies this`viewportMemo, terminal
      ensures viewportMemo == Some(Memoised(old(viewportMemo), rendered))
      ensures written == [ViewText(interface, Memoised(old(viewportMemo), rendered)), interface.cursorText]
      ensures terminal.log == old(terminal.log) + written
    {
      ghost var lines := Memoised(viewportMemo, rendered);
      var text := View(rendered);
      assert text == ViewText(interface, lines);
      // No Char is the terminal, so writing to it leaves the view's text as it was.
      assert forall c: Char | c in CharsIn(lines) :: c as object != terminal;
      terminal.Write(text);
      terminal.Write(interface.cursorText);
      written := [text, interface.cursorText];
    }

    /**
     * `render`: the virtual view goes to the output store, then the view and
     * the cursor's sequence go to the terminal, and these two are returned.
     * The view is built after the virtual view has moved the Chars, so it
     * shows each Char at the position of its last occurrence.
     */
    method Render(rendered: seq<seq<Item>>, store: Sink<seq<Entry>>, terminal: Sink<string>) returns (written: seq<string>)
      modifies this`viewportMemo, CharsIn(Memoised(viewportMemo, rendered))`position, store, terminal
      ensures |store.log| == |old(store.log)| + 1 && store.log[..|old(store.log)|] == old(store.log)
      ensures VirtualViewOf(interface, Memoised(old(viewportMemo), rendered), store.log[|old(store.log)|])
      ensures var lines := Memoised(old(viewportMemo), rendered); Placed(Placements(interface, lines, |lines|))
      ensures written == [ViewText(interface, Memoised(old(viewportMemo), rendered)), interface.cursorText]
      ensures terminal.log == old(terminal.log) + written
    {
      ghost var lines := Memoised(viewportMemo, rendered);
      ghost var placements := Placements(interface, lines, |lines|);
      StoreVirtualView(rendered, store);
      ghost var entry := store.log[|old(store.log)|];
      assert VirtualViewOf(interface, lines, entry) && Placed(placements);
      // Showing the view changes the memo and the terminal, neither of which is a Char.
      assert forall c: Char | c in EntryCells(entry) || c in placements :: c as object != terminal && c as object != this;
      written := ShowView(rendered, terminal);
    }
  }
}
