/**
 * Vedeu::Geometries::DSL: the methods of a `geometry do … end` block. Each
 * sets some fields of the geometry model being defined and leaves the rest
 * alone. Positions are literal numbers or blocks evaluated later; sizes set
 * by `width`/`height` are thunks returning the given number.
 */
module GeometryDsl {
  import opened Common

  /** The labels of the geometry diagram. */
  datatype Edge = North | Top | West | Left | Right | East | Bottom | South

  /** A block given to `x`, `y`, `xn` or `yn`; the documented form is `use(view).edge`. */
  datatype Block = UseEdge(view: string, edge: Edge) | OtherBlock(id: nat)

  /** A field value: a literal number, a thunk `proc { n }`, or a block evaluated later. */
  datatype Value = Literal(n: int) | Constant(n: int) | Deferred(block: Block)

  /** The fields of a geometry model the DSL writes. */
  datatype GeometrySpec = GeometrySpec(
    x: Option<Value>, y: Option<Value>, xn: Option<Value>, yn: Option<Value>,
    width: Option<Value>, height: Option<Value>,
    horizontalAlignment: Option<string>, verticalAlignment: Option<string>)

  /** A resolved rectangle: columns x..xn, rows y..yn. */
  datatype Rect = Rect(x: int, y: int, xn: int, yn: int)

  /** The value of each label of the diagram for a resolved rectangle. */
  function EdgeOf(r: Rect, e: Edge): int {
    match e
    case North => r.y - 1
    case Top => r.y
    case West => r.x - 1
    case Left => r.x
    case Right => r.xn
    case East => r.xn + 1
    case Bottom => r.yn
    case South => r.yn + 1
  }

  /**
   * The documented rule for one axis: the start defaults to 1; a given end
   * wins over a given size; with neither, the view reaches the end of the
   * terminal.
   */
  function DocumentedSpan(start: Option<int>, end: Option<int>, size: Option<int>, terminalEnd: int): (r: (int, int))
    ensures r.0 == (if start.Some? then start.value else 1)
    ensures end.Some? ==> r.1 == end.value
    ensures end.None? && size.Some? ==> r.1 - r.0 + 1 == size.value
    ensures end.None? && size.None? ==> r.1 == terminalEnd
  {
    var s := if start.Some? then start.value else 1;
    if end.Some? then (s, end.value)
    else if size.Some? then (s, s + size.value - 1)
    else (s, terminalEnd)
  }

  /** Once `xn` (or `yn`) is given, the width (or height) no longer matters. */
  lemma EndOverridesSize(start: Option<int>, end: int, a: Option<int>, b: Option<int>, terminalEnd: int)
    ensures DocumentedSpan(start, Some(end), a, terminalEnd) == DocumentedSpan(start, Some(end), b, terminalEnd)
  {
  }

  /** The geometry model the DSL writes into. */
  class GeometryModel {
    var x: Option<Value>
    var y: Option<Value>
    var xn: Option<Value>
    var yn: Option<Value>
    var width: Option<Value>
    var height: Option<Value>
    var horizontalAlignment: Option<string>
    var verticalAlignment: Option<string>

    constructor (spec: GeometrySpec)
      ensures Spec() == spec
    {
      x, y, xn, yn := spec.x, spec.y, spec.xn, spec.yn;
      width, height := spec.width, spec.height;
      horizontalAlignment, verticalAlignment := spec.horizontalAlignment, spec.verticalAlignment;
    }

    function Spec(): GeometrySpec
      reads this
    {
      GeometrySpec(x, y, xn, yn, width, height, horizontalAlignment, verticalAlignment)
    }
  }

  /**
   * The DSL object of one geometry. The alignment coercers
   * (`Coercers::HorizontalAlignment.validate`,
   * `Coercers::VerticalAlignment.validate`) are not part of this model: both
   * are uninterpreted, returning the alignment or the error they raise.
   */
  class DSL {
    const model: GeometryModel
    const validateHorizontal: string -> Result<string, string>
    const validateVertical: string -> Result<string, string>

    constructor (model: GeometryModel, validateHorizontal: string -> Result<string, string>,
                 validateVertical: string -> Result<string, string>)
      ensures this.model == model
      ensures this.validateHorizontal == validateHorizontal && this.validateVertical == validateVertical
    {
      this.model := model;
      this.validateHorizontal := validateHorizontal;
      this.validateVertical := validateVertical;
    }

    /**
     * `horizontal_alignment(value = :none, width = nil)`: the value is
     * validated first, so an invalid one raises before anything is set;
     * otherwise the width is set when one is given and the alignment always.
     */
    method HorizontalAlignment(value: string := "none", width: Option<int> := None)
      returns (r: Result<GeometryModel, string>)
      modifies model
      ensures validateHorizontal(value).Err? ==>
                r == Err(validateHorizontal(value).error) && model.Spec() == old(model.Spec())
      ensures validateHorizontal(value).Ok? ==> (r == Ok(model) &&
                model.Spec() == old(model.Spec()).(
                  width := if width.Some? then Some(Literal(width.value)) else old(model.width),
                  horizontalAlignment := Some(validateHorizontal(value).value)))
    {
      var alignment := validateHorizontal(value);
      if alignment.Err? {
        return Err(alignment.error);
      }
      if width.Some? {
        model.width := Some(Literal(width.value));
      }
      model.horizontalAlignment := Some(alignment.value);
      r := Ok(model);
    }

    /** `vertical_alignment(value = :none, height = nil)`: the same, with the height. */
    method VerticalAlignment(value: string := "none", height: Option<int> := None)
      returns (r: Result<GeometryModel, string>)
      modifies model
      ensures validateVertical(value).Err? ==>
                r == Err(validateVertical(value).error) && model.Spec() == old(model.Spec())
      ensures validateVertical(value).Ok? ==> (r == Ok(model) &&
                model.Spec() == old(model.Spec()).(
                  height := if height.Some? then Some(Literal(height.value)) else old(model.height),
                  verticalAlignment := Some(validateVertical(value).value)))
    {
      var alignment := validateVertical(value);
      if alignment.Err? {
        return Err(alignment.error);
      }
      if height.Some? {
        model.height := Some(Literal(height.value));
      }
      model.verticalAlignment := Some(alignment.value);
      r := Ok(model);
    }

    /**
     * `align(vertical: :none, horizontal: :none, width: nil, height: nil)`:
     * the horizontal step, then the vertical one. A raising horizontal step
     * stops before the vertical one; a raising vertical step leaves the
     * horizontal one done.
     */
    method Align(vertical: string := "none", horizontal: string := "none",
                 width: Option<int> := None, height: Option<int> := None)
      returns (r: Result<GeometryModel, string>)
      modifies model
      ensures validateHorizontal(horizontal).Err? ==>
                r == Err(validateHorizontal(horizontal).error) && model.Spec() == old(model.Spec())
      ensures validateHorizontal(horizontal).Ok? ==> model.width == (if width.Some? then Some(Literal(width.value)) else old(model.width))
      ensures validateHorizontal(horizontal).Ok? ==> model.horizontalAlignment == Some(validateHorizontal(horizontal).value)
      ensures validateHorizontal(horizontal).Ok? && validateVertical(vertical).Err? ==>
                r == Err(validateVertical(vertical).error) &&
                model.height == old(model.height) && model.verticalAlignment == old(model.verticalAlignment)
      ensures validateHorizontal(horizontal).Ok? && validateVertical(vertical).Ok? ==> (r == Ok(model) &&
                model.height == (if height.Some? then Some(Literal(height.value)) else old(model.height)) &&
                model.verticalAlignment == Some(validateVertical(vertical).value))
      ensures model.x == old(model.x) && model.y == old(model.y) && model.xn == old(model.xn) && model.yn == old(model.yn)
    {
      r := HorizontalAlignment(horizontal, width);
      if r.Err? {
        return;
      }
      r := VerticalAlignment(vertical, height);
    }

    method AlignBottom(height: Option<int> := None) returns (r: Result<GeometryModel, string>)
      modifies model
      ensures validateVertical("bottom").Err? ==> r.Err? && model.Spec() == old(model.Spec())
      ensures validateVertical("bottom").Ok? ==> (r == Ok(model) &&
                model.Spec() == old(model.Spec()).(
                  height := if height.Some? then Some(Literal(height.value)) else old(model.height),
                  verticalAlignment := Some(validateVertical("bottom").value)))
    {
      r := VerticalAlignment("bottom", height);
    }

    method AlignMiddle(height: Option<int> := None) returns (r: Result<GeometryModel, string>)
      modifies model
      ensures validateVertical("middle").Err? ==> r.Err? && model.Spec() == old(model.Spec())
      ensures validateVertical("middle").Ok? ==> (r == Ok(model) &&
                model.Spec() == old(model.Spec()).(
                  height := if height.Some? then Some(Literal(height.value)) else old(model.height),
                  verticalAlignment := Some(validateVertical("middle").value)))
    {
      r := VerticalAlignment("middle", height);
    }

    method AlignTop(height: Option<int> := None) returns (r: Result<GeometryModel, string>)
      modifies model
      ensures validateVertical("top").Err? ==> r.Err? && model.Spec() == old(model.Spec())
      ensures validateVertical("top").Ok? ==> (r == Ok(model) &&
                model.Spec() == old(model.Spec()).(
                  height := if height.Some? then Some(Literal(height.value)) else old(model.height),
                  verticalAlignment := Some(validateVertical("top").value)))
    {
      r := VerticalAlignment("top", height);
    }

    method AlignCentre(width: Option<int> := None) returns (r: Result<GeometryModel, string>)
      modifies model
      ensures validateHorizontal("centre").Err? ==> r.Err? && model.Spec() == old(model.Spec())
      ensures validateHorizontal("centre").Ok? ==> (r == Ok(model) &&
                model.Spec() == old(model.Spec()).(
                  width := if width.Some? then Some(Literal(width.value)) else old(model.width),
                  horizontalAlignment := Some(validateHorizontal("centre").value)))
    {
      r := HorizontalAlignment("centre", width);
    }

    /** `align_center` is an alias of `align_centre`. */
    method AlignCenter(width: Option<int> := None) returns (r: Result<GeometryModel, string>)
      modifies model
      ensures validateHorizontal("centre").Err? ==> r.Err? && model.Spec() == old(model.Spec())
      ensures validateHorizontal("centre").Ok? ==> (r == Ok(model) &&
                model.Spec() == old(model.Spec()).(
                  width := if width.Some? then Some(Literal(width.value)) else old(model.width),
                  horizontalAlignment := Some(validateHorizontal("centre").value)))
    {
      r := AlignCentre(width);
    }

    method AlignLeft(width: Option<int> := None) returns (r: Result<GeometryModel, string>)
      modifies model
      ensures validateHorizontal("left").Err? ==> r.Err? && model.Spec() == old(model.Spec())
      ensures validateHorizontal("left").Ok? ==> (r == Ok(model) &&
                model.Spec() == old(model.Spec()).(
                  width := if width.Some? then Some(Literal(width.value)) else old(model.width),
                  horizontalAlignment := Some(validateHorizontal("left").value)))
    {
      r := HorizontalAlignment("left", width);
    }

    method AlignRight(width: Option<int> := None) returns (r: Result<GeometryModel, string>)
      modifies model
      ensures validateHorizontal("right").Err? ==> r.Err? && model.Spec() == old(model.Spec())
      ensures validateHorizontal("right").Ok? ==> (r == Ok(model) &&
                model.Spec() == old(model.Spec()).(
                  width := if width.Some? then Some(Literal(width.value)) else old(model.width),
                  horizontalAlignment := Some(validateHorizontal("right").value)))
    {
      r := HorizontalAlignment("right", width);
    }

    /** `height(value)`: a thunk returning `value`; nothing else changes. */
    method Height(value: int) returns (r: Value)
      modifies model`height
      ensures r == Constant(value) && model.height == Some(r)
    {
      r := Constant(value);
      model.height := Some(r);
    }

    /** `width(value)`: a thunk returning `value`; nothing else changes. */
    method Width(value: int) returns (r: Value)
      modifies model`width
      ensures r == Constant(value) && model.width == Some(r)
    {
      r := Constant(value);
      model.width := Some(r);
    }

    /** `x(value = 1, &block)`: a given block is stored instead of any number. */
    method X(value: int := 1, block: Option<Block> := None) returns (r: Value)
      modifies model`x
      ensures block.Some? ==> r == Deferred(block.value)
      ensures block.None? ==> r == Literal(value)
      ensures model.x == Some(r)
    {
      r := if block.Some? then Deferred(block.value) else Literal(value);
      model.x := Some(r);
    }

    /** `xn(value = 1, &block)`. */
    method XN(value: int := 1, block: Option<Block> := None) returns (r: Value)
      modifies model`xn
      ensures block.Some? ==> r == Deferred(block.value)
      ensures block.None? ==> r == Literal(value)
      ensures model.xn == Some(r)
    {
      r := if block.Some? then Deferred(block.value) else Literal(value);
      model.xn := Some(r);
    }

    /** `y(value = 1, &block)`. */
    method Y(value: int := 1, block: Option<Block> := None) returns (r: Value)
      modifies model`y
      ensures block.Some? ==> r == Deferred(block.value)
      ensures block.None? ==> r == Literal(value)
      ensures model.y == Some(r)
    {
      r := if block.Some? then Deferred(block.value) else Literal(value);
      model.y := Some(r);
    }

    /** `yn(value = 1, &block)`. */
    method YN(value: int := 1, block: Option<Block> := None) returns (r: Value)
      modifies model`yn
      ensures block.Some? ==> r == Deferred(block.value)
      ensures block.None? ==> r == Literal(value)
      ensures model.yn == Some(r)
    {
      r := if block.Some? then Deferred(block.value) else Literal(value);
      model.yn := Some(r);
    }
  }

  /** Without a value, each position method stores the literal 1. */
  method PositionsDefaultToOne(dsl: DSL)
    modifies dsl.model
    ensures dsl.model.x == Some(Literal(1)) && dsl.model.y == Some(Literal(1))
    ensures dsl.model.xn == Some(Literal(1)) && dsl.model.yn == Some(Literal(1))
    ensures dsl.model.width == old(dsl.model.width) && dsl.model.height == old(dsl.model.height)
  {
    var _ := dsl.X();
    var _ := dsl.Y();
    var _ := dsl.XN();
    var _ := dsl.YN();
  }

  /** `y { use(:other_panel).south }` with a number as well: the block wins and the number is not stored. */
  method BlockWinsOverValue(dsl: DSL) returns (r: Value)
    modifies dsl.model
    ensures r == Deferred(UseEdge("other_panel", South)) && dsl.model.y == Some(r)
  {
    r := dsl.Y(10, Some(UseEdge("other_panel", South)));
  }

  /**
   * What a stored position stands for once the views it names are placed
   * (`placed`): a number is itself, `use(view).edge` is that label of the
   * view's diagram, and nothing is known of any other block or of a view
   * that is not placed.
   */
  function Resolve(v: Value, placed: map<string, Rect>): (r: Option<int>)
    ensures v.Literal? || v.Constant? ==> r == Some(v.n)
    ensures v.Deferred? && v.block.UseEdge? ==> (r.Some? <==> v.block.view in placed)
    ensures v.Deferred? && v.block.OtherBlock? ==> r.None?
  {
    match v
    case Literal(n) => Some(n)
    case Constant(n) => Some(n)
    case Deferred(UseEdge(view, e)) => if view in placed then Some(EdgeOf(placed[view], e)) else None
    case Deferred(OtherBlock(_)) => None
  }

  /**
   * `x { use(other).east }` and `y { use(other).south }` through the DSL: the
   * view begins in the column just after `other` ends and in the row just
   * below it.
   */
  method PlaceBesideAndBelow(dsl: DSL, other: string, placed: map<string, Rect>) returns (x: Value, y: Value)
    requires other in placed
    modifies dsl.model
    ensures dsl.model.x == Some(x) && dsl.model.y == Some(y)
    ensures Resolve(x, placed) == Some(placed[other].xn + 1)
    ensures Resolve(y, placed) == Some(placed[other].yn + 1)
  {
    x := dsl.X(block := Some(UseEdge(other, East)));
    y := dsl.Y(block := Some(UseEdge(other, South)));
  }
}
