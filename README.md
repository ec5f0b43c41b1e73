# A Dafny model of the core of vedeu

vedeu is a Ruby library for terminal user interfaces. An application
declares named interfaces (views) with a geometry. vedeu renders each
interface into a grid of character cells and into the escape sequences that
draw it on the terminal.

This project models the sequential, self-contained logic of that core, one
Ruby file per Dafny module:

- **`PositionValidation`** (`position_validator.rb`): the three-stage clamp of a cursor position. It clamps to the terminal, then to the interface's rectangle, then to the interior inside the border. The asymmetric `right - 2` / `bottom - 2` limits are kept as written.
- **`Editor`** (`virtual_cursor.rb`): the editor's virtual cursor. Its Cursor Position sequence (CUP, section 8.3.21 of ECMA-48) is followed by the DEC private mode 25 set sequence that shows the cursor.
- **`Cells`** (`char.rb`): a character cell. Only the first character of its value is shown or compared. Position and parent are writable.
- **`Output`** (`output.rb`): builds the clear string, the view string, the grid of blank cells, and the virtual view. The virtual view overwrites the positions of existing cells, so the model tracks aliasing among shared cells. The view is read from those cells afterwards, so it shows each one where the virtual view left it.
- **`Composing`** (`compositor.rb`): composes lines of streams into one string per line.
- **`Colours`** (`colour.rb`): the colour escape sequence of a mask.
- **`GeometryDsl`** (`dsl.rb`): the methods of a `geometry` block, each writing specific fields of the geometry model. It also covers the documented edge diagram and the documented precedence rules.
- **`VerticalAlignments`** (`vertical_alignment.rb`): validation of a vertical alignment token.
- **`Interfaces`** (`interface.rb`): the attribute defaults, the memoised `clear` and `geometry`, and `refresh`, which chooses among queued, cleared and current content.
- **`Reading`** (`read.rb`): the fake input device.
- **`Parsing`** (`parser.rb`): parser dispatch on the kind of a command's output.
- **`Keymaps`**, **`Helpers`**, **`Sentences`**: the rules that `keymap_validator_test.rb`, `helpers_test.rb` and `sentence_test.rb` assert. The implementation files of these three are not part of this model.

Shared modules:

- `Common` holds `Option` (Ruby's `nil`), `Result` (a value or the error a method raises) and `Memoised` (`@memo ||= computed`).
- `Sinks` holds an append-only `Sink`. It stands for every output the core hands results to and never reads back: `Terminal.output`, `Renderer.write`, `Composition.enqueue` and the `_drb_store_output_` event.
- `RubyString` states the few Ruby core operations the code relies on: `String#[0]`, `chomp`, `split`, `' ' * n`, `Integer#to_s` and `Array#join`.

The model treats these collaborators as uninterpreted functions, because their code is not shown:

- `raw_origin`, `origin` and `Viewport.render`. The rendered viewport is a parameter, which the memo takes on the first call only.
- `Directive.enact` and `Position.set`.
- The colour encoders and `Esc.reset`.
- `ClearInterface`, `RenderInterface` and the three parsers.
- The alignment coercers of the DSL.
- The configuration's list of system keys.

Ruby symbols are written as strings without the colon.

Where the model departs from a comment in the code:

- **Alignment and size in the DSL.** The doc comment of `align` in `dsl.rb` (90-95) says a width (or height) is required when the horizontal (or vertical) alignment is anything other than `:none`. `horizontal_alignment` and `vertical_alignment` (107-124) never demand one: they set the width or height only when one is given. The model follows the code.
- **Vertical alignment values.** The doc comment of `vertical_alignment.rb` (12-13) lists `:bottom`, `:centre`, `:left`, `:middle`, `:right` and `:top` as values, and leaves out `:none`. The error message (19-20) and `dsl.rb` give `:bottom`, `:middle`, `:none` and `:top`. The model follows the error message.

## Model

| member | source | states |
|---|---|---|
| PositionValidation.TerminalStage | lib/vedeu/support/position_validator.rb:56-61 | a coordinate inside the terminal is kept; one before tx (ty) goes to tx (ty), one past txn (tyn) goes to txn (tyn); when the bounds cross, txn (tyn), applied second, wins; so with tx ≤ txn and ty ≤ tyn the result lies in the terminal |
| PositionValidation.InterfaceStage | lib/vedeu/support/position_validator.rb:63-68 | a coordinate inside the rectangle is kept; one left of `left` (above `top`) goes to `left` (`top`), one right of `right` (below `bottom`) goes to `right` (`bottom`); when the bounds cross, `right` (`bottom`) wins |
| PositionValidation.BorderStage | lib/vedeu/support/position_validator.rb:70-77 | without a border nothing changes; for a bordered side, a coordinate beyond it goes to left+1, right−2, top+1 or bottom−2; when left+1 > right−2 (top+1 > bottom−2) with both sides bordered, right−2 (bottom−2) wins; a coordinate no bound of its axis would move is kept |
| PositionValidation.StagesPickNearest | lib/vedeu/support/position_validator.rb:56-68 | a reference definition: with non-crossing bounds, the terminal and interface stages give each coordinate a nearest value in range |
| PositionValidation.Clamp | lib/vedeu/support/position_validator.rb:42-50 | the three stages in their order; no contract of its own: its properties are the four lemmas below |
| PositionValidation.ClampBounds | lib/vedeu/support/position_validator.rb:42-50 | with a non-empty bordered interior, the result of the three stages lies in the interior and in the rectangle, whatever the terminal |
| PositionValidation.ClampKeepsInterior | lib/vedeu/support/position_validator.rb:57-76 | a point already inside the terminal, the rectangle and the interior comes back unchanged |
| PositionValidation.ClampIdempotent | lib/vedeu/support/position_validator.rb:42-50 | clamping a clamped point changes nothing, when the rectangle lies in the terminal and its interior is not empty |
| PositionValidation.ClampWorkedExample | lib/vedeu/support/position_validator.rb:63-76 | rectangle (5,5)-(20,20), bordered on all sides, in a 25×25 terminal: (3,3) goes to (6,6) and (25,25) to (18,18) |
| PositionValidation.PositionValidator.constructor | lib/vedeu/support/position_validator.rb:36-40 | stores the interface, the terminal bounds and the point |
| PositionValidation.PositionValidator.ValidatePoint | lib/vedeu/support/position_validator.rb:32-34 | a fresh validator whose point is the clamp of the given point |
| PositionValidation.PositionValidator.Validate | lib/vedeu/support/position_validator.rb:42-50 | runs terminal, then interface, then border; returns the validator itself, with only x and y changed |
| PositionValidation.PositionValidator.TerminalValidation | lib/vedeu/support/position_validator.rb:56-61 | the new point is the terminal stage of the old one; only x and y change |
| PositionValidation.PositionValidator.InterfaceValidation | lib/vedeu/support/position_validator.rb:63-68 | the new point is the interface stage of the old one; only x and y change |
| PositionValidation.PositionValidator.BorderValidation | lib/vedeu/support/position_validator.rb:70-77 | the new point is the border stage of the old one; only x and y change |
| Editor.Cup | lib/vedeu/input/editor/virtual_cursor.rb:71-73 | CSI, the row and column in decimal separated by `;`, `H`, then ESC [?25h; no contract of its own: its properties are CupRoundTrip and VirtualCursor.ToS |
| Editor.DecodeCup | lib/vedeu/input/editor/virtual_cursor.rb:71-73 | the reading of the sequence a terminal makes: the row and column it names, nil for any other string; a reference definition for Cup, related by CupRoundTrip |
| Editor.CupRoundTrip | lib/vedeu/input/editor/virtual_cursor.rb:71-73 | the CUP-and-show sequence can be read back and names exactly its row and column |
| Editor.VirtualCursor.constructor | lib/vedeu/input/editor/virtual_cursor.rb:32-37 | a nil or negative y or x becomes 0, other values are kept; the offsets default to 1 |
| Editor.VirtualCursor.Bol | lib/vedeu/input/editor/virtual_cursor.rb:42-44 | x becomes 0 and is returned; y and the offsets are unchanged |
| Editor.VirtualCursor.Down | lib/vedeu/input/editor/virtual_cursor.rb:49-51 | y grows by one and is returned; nothing else changes |
| Editor.VirtualCursor.Left | lib/vedeu/input/editor/virtual_cursor.rb:56-58 | x shrinks by one, with no lower bound, and is returned; nothing else changes |
| Editor.VirtualCursor.Right | lib/vedeu/input/editor/virtual_cursor.rb:63-65 | x grows by one and is returned; nothing else changes |
| Editor.VirtualCursor.Up | lib/vedeu/input/editor/virtual_cursor.rb:78-80 | y shrinks by one and is returned; nothing else changes |
| Editor.VirtualCursor.RealY | lib/vedeu/input/editor/virtual_cursor.rb:87-89 | `by + y`; no contract of its own, it is read by ToS |
| Editor.VirtualCursor.RealX | lib/vedeu/input/editor/virtual_cursor.rb:94-96 | `bx + x`; no contract of its own, it is read by ToS |
| Editor.VirtualCursor.ToS | lib/vedeu/input/editor/virtual_cursor.rb:71-73 | the sequence starts with ESC [, ends with H ESC [?25h, and decodes to (by+y, bx+x), the real position |
| Editor.UpThenDown | lib/vedeu/input/editor/virtual_cursor.rb:49-51 | up then down restores every field |
| Editor.LeftThenRight | lib/vedeu/input/editor/virtual_cursor.rb:56-65 | left then right restores every field |
| Editor.LeftOfOrigin | lib/vedeu/input/editor/virtual_cursor.rb:56-58 | after construction nothing clamps: left of column 0 is column −1 |
| Cells.Char.constructor | lib/vedeu/models/view/char.rb:29-37 | every attribute is the given one, absent ones being nil as the defaults (70-78) say |
| Cells.Char.Value | lib/vedeu/models/view/char.rb:59-63 | '' when no value was given, nil for an empty value, otherwise the first character only |
| Cells.Char.Equals | lib/vedeu/models/view/char.rb:48-50 | `==` is exactly `eql?` |
| Cells.Char.SetPosition | lib/vedeu/models/view/char.rb:17-18 | the position becomes the one given; value and equality read no writable field, so they cannot change |
| Cells.Char.SetParent | lib/vedeu/models/view/char.rb:17-18 | the parent becomes the one given |
| Cells.FirstCharacterOnly | lib/vedeu/models/view/char.rb:8-9 | Chars built from "ab" and from "a" are equal in both directions and show "a" |
| Cells.MissingAndEmptyValuesDiffer | lib/vedeu/models/view/char.rb:59-63 | a Char without a value and one with value '' are not equal |
| Cells.EqlIsFirstCharacter | lib/vedeu/models/view/char.rb:54-56 | two Chars with non-empty values are equal iff their first characters are, whatever their colour, style, position and parent |
| Cells.EqlIsEquivalence | lib/vedeu/models/view/char.rb:54-56 | `eql?` is reflexive, symmetric and transitive on Chars, and false against any other class |
| Output.ClearParts | lib/vedeu/output/output.rb:45-47 | the colour comes first, then one origin segment of `width` spaces for each row index below `height` |
| Output.ItemText | lib/vedeu/output/output.rb:61 | what `line.join` adds for one item: a Char's `to_s`, read from its attributes as they are when the view is built, or a String itself; no contract of its own |
| Output.LinePartsAt | lib/vedeu/output/output.rb:59-62 | line i contributes origin(i) and then its joined text, at places 2i and 2i+1 |
| Output.ViewStartsWithClear | lib/vedeu/output/output.rb:54-55 | the clear string is a prefix of the view, and all of it when there are no lines |
| Output.ViewOfOneMoreLine | lib/vedeu/output/output.rb:59-64 | each further line appends exactly its origin and its text |
| Output.LastOccurrenceWins | lib/vedeu/output/output.rb:97-101 | a Char shared among lines ends at the position of its last occurrence |
| Output.ShownAtPlacement | lib/vedeu/output/output.rb:97-101 | a Char whose position the placements give is shown with that position |
| Output.PlacementsKeys | lib/vedeu/output/output.rb:95-101 | the Chars virtual_view moves are exactly the Chars of the visible lines |
| Output.Output.constructor | lib/vedeu/output/output.rb:20-22 | stores the interface; nothing is memoised yet |
| Output.Output.Viewport | lib/vedeu/output/output.rb:115-117 | the first rendering is kept and returned by every later call |
| Output.Output.Clear | lib/vedeu/output/output.rb:42-48 | the result is the colour followed by each row's origin of `width` spaces |
| Output.Output.LinesParts | lib/vedeu/output/output.rb:59-62 | for each line, in order, its origin and then its joined text, two pieces per line |
| Output.Output.View | lib/vedeu/output/output.rb:54-65 | the result is the clear string, then origin(i) and the joined line i for each memoised line, in order |
| Output.Output.VirtualClear | lib/vedeu/output/output.rb:71-83 | exactly `height` rows of `width` new cells; each is a space with the interface colour and nil style, at (raw_origin(hi).first, raw_origin(hi).last + wi) |
| Output.Output.BuildRow | lib/vedeu/output/output.rb:97-108 | the row has the line's length; an existing Char is kept and repositioned at raw_origin(line).last + i; a plain character becomes a new Char in the interface colour there |
| Output.Output.VirtualRow | lib/vedeu/output/output.rb:96-109 | building one more row leaves the rows before it as they were, and each shared Char keeps the position of its latest occurrence so far |
| Output.Output.VirtualLines | lib/vedeu/output/output.rb:95-110 | one row per line in line order; every shared Char ends where its last occurrence puts it |
| Output.Output.VirtualView | lib/vedeu/output/output.rb:92-112 | the blank grid followed by one row per memoised line; the memo is the same one `view` reads |
| Output.Output.StoreVirtualView | lib/vedeu/output/output.rb:28 | exactly one entry joins the output store, the virtual view of the memoised lines; earlier entries are untouched |
| Output.Output.ShowView | lib/vedeu/output/output.rb:30 | the view and then the cursor sequence go to the terminal, and these two strings are returned |
| Output.Output.Render | lib/vedeu/output/output.rb:25-31 | stores one virtual view of the memoised lines; then writes the view of the same lines, read after the Chars have been moved (each at its last occurrence), and the cursor sequence to the terminal; returns those two strings |
| Composing.ClearLine | lib/vedeu/output/compositor.rb:37-39 | the line blank of stream `index`; no contract of its own: its shape is ClearLineShape |
| Composing.ClearLineShape | lib/vedeu/output/compositor.rb:37-39 | the line blank is position(vy(i), vx(0)), exactly `width` spaces, then the same position again |
| Composing.Composed | lib/vedeu/output/compositor.rb:23-35 | one string per line |
| Composing.LineTextAppend | lib/vedeu/output/compositor.rb:27-31 | each stream adds its line blank and then its enacted text, after the streams before it |
| Composing.LineTextSingle | lib/vedeu/output/compositor.rb:27-31 | a line of one stream is that stream's line blank followed by its text |
| Composing.ComposedSplits | lib/vedeu/output/compositor.rb:31-32 | lines compose independently: no content of one line leaks into another |
| Composing.Compositor.constructor | lib/vedeu/output/compositor.rb:11-13 | stores the output and the interface's geometry and encoders |
| Composing.Compositor.Composable | lib/vedeu/output/compositor.rb:61-64 | a String output is split on whitespace; any other output is used as given |
| Composing.Compositor.Composition | lib/vedeu/output/compositor.rb:23-35 | the container is the composition of the lines: entry i is the joined blanks and texts of line i |
| Composing.Compositor.Arrange | lib/vedeu/output/compositor.rb:15-17 | lines of streams are composed and written once; a String of words raises NoMethodError and writes nothing |
| Composing.Compositor.ArrangeOutput | lib/vedeu/output/compositor.rb:4-8 | a nil or empty output gives nil and writes nothing; otherwise it is the arrangement of a new compositor |
| Colours.At | lib/vedeu/colours/colour.rb:32-38 | `mask[i]` is nil beyond the end of the mask |
| Colours.Colour.Set | lib/vedeu/colours/colour.rb:18-22 | instance `set`; no contract of its own: EmptyMaskResets and SetEncodesForegroundThenBackground state it |
| Colours.Colour.Reset | lib/vedeu/colours/colour.rb:24-26 | instance `reset`, `Esc.reset`; no contract of its own: ResetIgnoresMask states it |
| Colours.ClassSet | lib/vedeu/colours/colour.rb:5-7 | `Colour.set(mask = [])`; no contract of its own: ClassMethodsAgree states it |
| Colours.ClassReset | lib/vedeu/colours/colour.rb:9-11 | `Colour.reset(mask = [])`; no contract of its own: ClassMethodsAgree states it |
| Colours.EmptyMaskResets | lib/vedeu/colours/colour.rb:18-19 | an empty mask sets the reset sequence |
| Colours.SetEncodesForegroundThenBackground | lib/vedeu/colours/colour.rb:21 | a non-empty mask gives foreground(mask[0]) followed by background(mask[1]), which is nil for a mask of one |
| Colours.ResetIgnoresMask | lib/vedeu/colours/colour.rb:24-26 | the reset sequence does not depend on the mask |
| Colours.ClassMethodsAgree | lib/vedeu/colours/colour.rb:5-11 | the class methods equal the instance methods with the same mask, and with no mask `set` equals `reset` |
| GeometryDsl.EdgeOf | lib/vedeu/geometries/dsl/dsl.rb:62-75 | the labelled values of the diagram: north y−1, top y, west x−1, left x, right xn, east xn+1, bottom yn, south yn+1; no contract of its own |
| GeometryDsl.Resolve | lib/vedeu/geometries/dsl/dsl.rb:45-75 | a stored number stands for itself; `use(view).edge` is known exactly when the view is placed, and is then that edge of it; another block resolves to nothing known |
| GeometryDsl.DocumentedSpan | lib/vedeu/geometries/dsl/dsl.rb:30-43 | the start defaults to 1; a given end wins; otherwise a given size fixes the extent; otherwise the span reaches the terminal's edge |
| GeometryDsl.EndOverridesSize | lib/vedeu/geometries/dsl/dsl.rb:346 | once xn (or yn) is given, the width (or height) has no effect |
| GeometryDsl.DSL.HorizontalAlignment | lib/vedeu/geometries/dsl/dsl.rb:107-113 | an invalid value raises with the model untouched; otherwise the width is set only when given, the validated alignment always, and no other field changes |
| GeometryDsl.DSL.VerticalAlignment | lib/vedeu/geometries/dsl/dsl.rb:118-124 | the same, with the height and the vertical alignment |
| GeometryDsl.DSL.Align | lib/vedeu/geometries/dsl/dsl.rb:98-101 | the horizontal step first, then the vertical one, both defaulting to none; a raising horizontal step stops before the vertical one; positions never change |
| GeometryDsl.DSL.AlignBottom | lib/vedeu/geometries/dsl/dsl.rb:144-146 | vertical_alignment(:bottom, height) |
| GeometryDsl.DSL.AlignCentre | lib/vedeu/geometries/dsl/dsl.rb:167-169 | horizontal_alignment(:centre, width) |
| GeometryDsl.DSL.AlignCenter | lib/vedeu/geometries/dsl/dsl.rb:170 | the alias behaves as align_centre |
| GeometryDsl.DSL.AlignLeft | lib/vedeu/geometries/dsl/dsl.rb:189-191 | horizontal_alignment(:left, width) |
| GeometryDsl.DSL.AlignMiddle | lib/vedeu/geometries/dsl/dsl.rb:211-213 | vertical_alignment(:middle, height) |
| GeometryDsl.DSL.AlignRight | lib/vedeu/geometries/dsl/dsl.rb:232-234 | horizontal_alignment(:right, width) |
| GeometryDsl.DSL.AlignTop | lib/vedeu/geometries/dsl/dsl.rb:254-256 | vertical_alignment(:top, height) |
| GeometryDsl.DSL.Height | lib/vedeu/geometries/dsl/dsl.rb:286-288 | the height becomes a constant thunk of the value, which is returned; nothing else changes |
| GeometryDsl.DSL.Width | lib/vedeu/geometries/dsl/dsl.rb:319-321 | the width becomes a constant thunk of the value, which is returned; nothing else changes |
| GeometryDsl.DSL.X | lib/vedeu/geometries/dsl/dsl.rb:338-342 | a given block is stored as a deferred value, otherwise the literal (default 1); nothing else changes |
| GeometryDsl.DSL.XN | lib/vedeu/geometries/dsl/dsl.rb:360-364 | the same for xn |
| GeometryDsl.DSL.Y | lib/vedeu/geometries/dsl/dsl.rb:381-385 | the same for y |
| GeometryDsl.DSL.YN | lib/vedeu/geometries/dsl/dsl.rb:403-407 | the same for yn |
| GeometryDsl.PositionsDefaultToOne | lib/vedeu/geometries/dsl/dsl.rb:41-43 | x, y, xn and yn without a value store the literal 1, leaving the sizes alone |
| GeometryDsl.BlockWinsOverValue | lib/vedeu/geometries/dsl/dsl.rb:381-385 | with both a number and a block, the block is stored and the number is not |
| GeometryDsl.PlaceBesideAndBelow | lib/vedeu/geometries/dsl/dsl.rb:44-61 | `x { use(other).east }` and `y { use(other).south }`, stored through the DSL, resolve to the column just after `other` ends and the row just below it |
| VerticalAlignments.Align | lib/vedeu/geometries/vertical_alignment.rb:15-21 | accepts exactly :bottom, :middle, :none and :top and returns the value unchanged; anything else raises InvalidSyntax with the message listing them |
| VerticalAlignments.AlignIdempotent | lib/vedeu/geometries/vertical_alignment.rb:15-16 | aligning an accepted value again gives the same result |
| VerticalAlignments.AlignRefuses | lib/vedeu/geometries/vertical_alignment.rb:18-20 | the horizontal values and unknown values are refused |
| Interfaces.Interface.constructor | lib/vedeu/models/interface.rb:20-39 | attributes not given take the defaults (y = 1, x = 1, current = '', cursor on, not centred, delay 0, terminal size); the queue and memos start empty |
| Interfaces.Interface.NoContent | lib/vedeu/models/interface.rb:79-81 | `current` is nil or empty; no contract of its own, it is read by Refresh |
| Interfaces.Interface.Enqueued | lib/vedeu/models/interface.rb:58 | the queue is not empty; no contract of its own, it is read by Refresh |
| Interfaces.Interface.Clear | lib/vedeu/models/interface.rb:41-43 | the first computed clear content is kept and returned by every later call |
| Interfaces.Interface.Geometry | lib/vedeu/models/interface.rb:49-51 | the geometry is built from the attributes at the first call and kept |
| Interfaces.Interface.Enqueue | lib/vedeu/models/interface.rb:45-47 | the rendering joins the back of the queue |
| Interfaces.Interface.Refresh | lib/vedeu/models/interface.rb:57-71 | a non-empty queue gives up its oldest item as current; else nil or empty content becomes the clear content; else current stays; the final current is written once and returned |
| Interfaces.Defaults | lib/vedeu/models/interface.rb:22-31 | a new interface has every documented default, no content and an empty queue |
| Interfaces.ClearIsComputedOnce | lib/vedeu/models/interface.rb:41-43 | clear asked twice gives the first computed content both times |
| Interfaces.GeometryIsComputedOnce | lib/vedeu/models/interface.rb:49-51 | geometry keeps the attributes of its first call after they change |
| Interfaces.RefreshShowsInQueueOrder | lib/vedeu/models/interface.rb:57-71 | queued renderings are shown oldest first, and the last one stays once the queue is empty |
| Reading.Read.constructor | lib/vedeu/support/read.rb:16-19 | stores the console and the data |
| Reading.Read.Read | lib/vedeu/support/read.rb:49-57 | the data, or '' when there is none |
| Reading.Read.Getch | lib/vedeu/support/read.rb:24-28 | a given string is replaced by its first character (nil for ''); with no string the data stays; returns read |
| Reading.Read.Gets | lib/vedeu/support/read.rb:33-37 | a given string is stored without one trailing line terminator; with no string the data stays; returns read |
| Reading.Read.ReadNonblock | lib/vedeu/support/read.rb:42-46 | a given string is stored and the byte count ignored; returns read |
| Reading.Read.From | lib/vedeu/support/read.rb:9-11 | the data, or '' for nil, whatever the console |
| Reading.GetchKeepsOneCharacter | lib/vedeu/support/read.rb:24-28 | getch("abc") reads "a"; after getch("") every read gives '' |
| Reading.GetsChomps | lib/vedeu/support/read.rb:33-37 | gets("yes\n") reads "yes", and gets() reads it again |
| Reading.ReadNonblockIgnoresBytes | lib/vedeu/support/read.rb:42-46 | the byte count makes no difference to the result |
| Parsing.Blank | lib/vedeu/parsing/parser.rb:11 | nil is blank; a String, Hash or Array is blank when empty; another object is asked `empty?` and raises NoMethodError without it |
| Parsing.ParserFor | lib/vedeu/parsing/parser.rb:32-50 | a String selects JSONParser, a Hash HashParser, an Array MenuParser; anything else raises ParseError 'Cannot process output from command.' |
| Parsing.Parsed | lib/vedeu/parsing/parser.rb:28-38 | the chosen parser applied to the output; no contract of its own: ParsedDispatches states it |
| Parsing.ParsedDispatches | lib/vedeu/parsing/parser.rb:28-38 | each kind of output is parsed by its own parser with the output itself |
| Parsing.Parser.constructor | lib/vedeu/parsing/parser.rb:16-18 | stores the output (default {}); nothing parsed yet |
| Parsing.Parser.ParsedOutput | lib/vedeu/parsing/parser.rb:28-30 | parsed at the first call and kept; a raising parse keeps nothing |
| Parsing.Parser.Parse | lib/vedeu/parsing/parser.rb:20-22 | exactly the parsed output joins the composition queue, once; a raising parse queues nothing |
| Parsing.Parser.ParseOutput | lib/vedeu/parsing/parser.rb:10-14 | nil or empty output gives nil with nothing queued; otherwise the parse of a new parser |
| Parsing.OtherOutputIsRefused | lib/vedeu/parsing/parser.rb:37 | a non-empty object of another class raises ParseError and queues nothing |
| Parsing.ParseTwiceQueuesTheSame | lib/vedeu/parsing/parser.rb:28-30 | two parses by one parser queue the same result twice |
| Keymaps.KeymapValidator.constructor | test/lib/vedeu/support/keymap_validator_test.rb:53-58 | stores storage, key and interface unchanged |
| Keymaps.KeymapValidator.Check | test/lib/vedeu/support/keymap_validator_test.rb:21-51 | `check` of the validator's storage, key and interface; no contract of its own: it is CheckKey |
| Keymaps.CheckKey | test/lib/vedeu/support/keymap_validator_test.rb:21-51 | true exactly when the key is not a system key, not global, and free in the named interface's keymap (or, for interface '', in every keymap); KeyInUse otherwise |
| Keymaps.FreeGloballyIsFreeEverywhere | test/lib/vedeu/support/keymap_validator_test.rb:40-50 | a key accepted for no interface is accepted for every interface |
| Keymaps.CheckExamples | test/lib/vedeu/support/keymap_validator_test.rb:21-51 | the six outcomes the tests assert |
| Helpers.BackgroundOf | test/lib/vedeu/api/helpers_test.rb:9-19 | a non-empty value gives { background: value }; '' raises InvalidSyntax |
| Helpers.ForegroundOf | test/lib/vedeu/api/helpers_test.rb:21-31 | a non-empty value gives { foreground: value }; '' raises InvalidSyntax |
| Helpers.ColourOf | test/lib/vedeu/api/helpers_test.rb:33-47 | raises InvalidSyntax exactly when neither key is given; otherwise returns the hash unchanged |
| Helpers.StyleOf | test/lib/vedeu/api/helpers_test.rb:49-61 | no argument gives [], one style [style], a list the list unchanged |
| Helpers.ColourAcceptsEitherHelper | test/lib/vedeu/api/helpers_test.rb:9-47 | the hash background or foreground builds is returned unchanged by colour |
| Helpers.OneStyleIsAListOfOne | test/lib/vedeu/api/helpers_test.rb:49-61 | one style and the list of just it give the same list |
| Helpers.HelperExamples | test/lib/vedeu/api/helpers_test.rb:9-61 | the values the tests assert |
| Sentences.Construct | test/lib/vedeu/sentence_test.rb:14-45 | no elements give 'No <label> have been assigned.'; one element gives itself |
| Sentences.ConstructAppend | test/lib/vedeu/sentence_test.rb:24-37 | with a last element added, the elements so far are joined by ', ' and then ' and ' and the last follow |
| Sentences.ConstructFromTheFront | test/lib/vedeu/sentence_test.rb:24-37 | read from the front: the first element, then ' and ' before a last element or ', ' before more, then the phrase of the rest |
| Sentences.ConstructExamples | test/lib/vedeu/sentence_test.rb:14-45 | 'Hydrogen', 'Hydrogen and Helium', 'Hydrogen, Helium and Lithium' and 'No elements have been assigned.' |
| RubyString.First | lib/vedeu/support/read.rb:25 | `s[0]`: nil exactly for '', otherwise the first character |
| RubyString.Chomp | lib/vedeu/support/read.rb:34 | drops at most one trailing terminator ("\n", "\r" or "\r\n") and nothing else |
| RubyString.ChompDropsOneTerminator | lib/vedeu/support/read.rb:34 | a string with one terminator appended chomps back to itself |
| RubyString.Split | lib/vedeu/output/compositor.rb:62 | every word is non-empty and holds no whitespace |
| RubyString.SplitEmptyIffBlank | lib/vedeu/output/compositor.rb:62 | `split` gives no words exactly when the string is whitespace only |
| RubyString.SplitKeepsNonSpaces | lib/vedeu/output/compositor.rb:62 | the words hold exactly the string's non-whitespace characters, in order |
| RubyString.SplitJoinRoundTrip | lib/vedeu/output/compositor.rb:62 | splitting words joined by single spaces gives the words back |
| RubyString.Spaces | lib/vedeu/output/output.rb:46 | `' ' * n` is exactly n spaces |
| RubyString.IntToS | lib/vedeu/input/editor/virtual_cursor.rb:71-73 | decimal digits, with a leading minus sign exactly for a negative number, and no leading zero except in "0" itself |
| RubyString.IntToSRoundTrip | lib/vedeu/input/editor/virtual_cursor.rb:71-73 | the decimal rendering reads back to the same integer |

## Left out

- Logging (`Vedeu.log`), events (`Vedeu.trigger`, `Vedeu.events.on` at `interface.rb:36`) and terminal device I/O are left out. They are side effects outside the core. The stored virtual view and the terminal output are appended to sinks instead.
- `Renderer.write`, `Composition.enqueue` and `Terminal.output` are sinks. `Arrange` and `Parse` return what they handed over, because the collaborator's return value is not shown. `Render` returns the two strings it hands to the terminal, as `render`'s documented `@return [Array]` says. `support/terminal.rb` (42-46) has an `output` that takes a single stream, and `render` passes two; the model writes both and does not model that version's arity.
- `Interface#origin` delegates to the geometry, whose code is not shown. `Interface#to_s` (`RenderInterface`) and `ClearInterface` are passed in as values.
- Interface attributes `lines`, `colour` and `style` are left out. Their model classes and defaults (`Colour.new`) are not shown. Virtus type coercion is not modelled either.
- Vedeu::Queue is not shown. It is modelled as a FIFO sequence that starts empty.
- Parsing.Parser.ParsedOutput: a parser result that is nil or false would be recomputed by Ruby's `||=`, but the model keeps every result. The parsers are uninterpreted and deterministic, so only that case differs.
- Composing.Compositor.Arrange: a String output is split into words, and each word is a String. A String has no `each_with_index`, so the model returns NoMethodError whenever there is at least one word. It does not model which Ruby version raises it.
- `clear_line` takes the row from `vy` of the stream's index within its line, not of the line's index, and the column from `vx(0)`. This is stated as written.
- Keymaps.CheckKey: where the tests say nothing (a key bound only in another interface's keymap), the key is accepted. KeyInUse carries only the key, because its message is not asserted.
- Helpers.ColourOf: the hash keys are limited to :foreground and :background. Empty colour values inside the hash and the block forms of `style` are not modelled, because the tests do not assert them.
- GeometryDsl.DocumentedSpan states the documented precedence over plain integers. GeometryDsl.Resolve gives only the documented meaning of `use(view).edge`; the geometry code that evaluates stored blocks is not part of this model.
- The DSL's `columns` and `rows` (`dsl.rb:272-274`, `305-307`) delegate to `Geometries::Grid`, whose code is not shown. The `height=` and `width=` aliases are the same methods as `height` and `width`. The model of a geometry is a plain record, because the geometry model class is not shown.
- The alignment coercers used by the DSL are uninterpreted. `VerticalAlignments.Align` is the model of `vertical_alignment.rb` itself.
- Integers are unbounded, as Ruby's are. Float `delay` is a `real`.
- Cells: `Colour.coerce` and `Position.coerce` are identities in the model. `inspect` is left out.
- Output.ItemText: `Char#to_s` comes from Vedeu::Presentation, whose code is not shown. It is an uninterpreted function of all of the Char's attributes at the moment the view is built, its position included, so a Char may be shown differently after `virtual_view` has moved it.
- Widths are `nat`. Ruby's `' ' * width` raises ArgumentError for a negative width; the types of `Composing` and `Output` rule that case out, so the model has no error path for it.
- Interface defaults: `interface.rb` (26-27) reads `Terminal.width` and `Terminal.height` once, when the class body is loaded. The model's constructor takes the terminal size as a parameter at each construction, so it does not capture that the default is fixed at load time.
