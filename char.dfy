/**
 * Vedeu::Char: one character of the terminal with its colour, style,
 * position and parent. Only the first character of the value is shown, and
 * two Chars are equal when their shown characters are.
 */
module Cells {
  import opened Common
  import opened RubyString

  /**
   * A colour, a style and a parent line as a Char receives them. The classes
   * that give them behaviour (Vedeu::Colour, the style and line models) are
   * not part of this model; their values are carried as uninterpreted tokens.
   */
  type Colour = string
  type Style = string
  type Parent = string

  /** Vedeu::Position: a row `y` and a column `x`. */
  datatype Position = Position(y: int, x: int)

  /**
   * The attributes hash given to `Char.new`, already merged with the
   * defaults: every key the caller leaves out is `nil` (`None`).
   */
  datatype CharAttributes = CharAttributes(
    value: Option<string>,
    parent: Option<Parent>,
    colour: Option<Colour>,
    style: Option<Style>,
    position: Option<Position>)

  /** The defaults every attribute starts from. */
  const Defaults: CharAttributes := CharAttributes(None, None, None, None, None)

  /** What a Char is compared with: another Char, or an object of any other class. */
  datatype Comparand = AChar(c: Char) | NotAChar

  class Char {
    /** The stored value, `@value`; only its first character is ever shown. */
    const rawValue: Option<string>
    const colour: Option<Colour>
    const style: Option<Style>
    var parent: Option<Parent>
    var position: Option<Position>

    /**
     * Builds a Char from merged attributes; the colour and position coercions
     * are treated as the identity.
     */
    constructor (attributes: CharAttributes)
      ensures rawValue == attributes.value && colour == attributes.colour && style == attributes.style
      ensures parent == attributes.parent && position == attributes.position
    {
      rawValue := attributes.value;
      colour := attributes.colour;
      style := attributes.style;
      parent := attributes.parent;
      position := attributes.position;
    }

    /**
     * `value`: "" when no value was given, otherwise the first character of
     * the stored string, which is `nil` for a stored "".
     */
    function Value(): (r: Option<string>)
      ensures r == Some("") <==> rawValue.None?
      ensures r.None? <==> rawValue == Some("")
      ensures r.Some? ==> |r.value| <= 1
      ensures rawValue.Some? && rawValue.value != "" ==> r == Some(rawValue.value[..1])
    {
      if rawValue.None? then Some("") else First(rawValue.value)
    }

    /** The Char's attributes as they are now, which `to_s` renders. */
    function Attributes(): CharAttributes
      reads this
    {
      CharAttributes(rawValue, parent, colour, style, position)
    }

    /** `eql?`: same class and same shown character; colour, style, position and parent do not matter. */
    predicate Eql(other: Comparand) {
      other.AChar? && Value() == other.c.Value()
    }

    /** `==` is `eql?`. */
    predicate Equals(other: Comparand)
      ensures Equals(other) == Eql(other)
    {
      Eql(other)
    }

    /** The `position=` writer. `Value` and `Eql` read no mutable field, so neither writer changes them. */
    method SetPosition(p: Option<Position>)
      modifies this`position
      ensures position == p
    {
      position := p;
    }

    /** The `parent=` writer. */
    method SetParent(p: Option<Parent>)
      modifies this`parent
      ensures parent == p
    {
      parent := p;
    }
  }

  /** Chars built from "ab" and from "a" show the same character, so they are equal. */
  method FirstCharacterOnly() returns (a: Char, b: Char)
    ensures a.Eql(AChar(b)) && b.Eql(AChar(a))
    ensures a.Value() == Some("a")
  {
    a := new Char(Defaults.(value := Some("ab")));
    b := new Char(Defaults.(value := Some("a"), colour := Some("red"), position := Some(Position(3, 4))));
  }

  /** A Char without a value and one whose value is "" differ: one shows "", the other `nil`. */
  method MissingAndEmptyValuesDiffer() returns (a: Char, b: Char)
    ensures !a.Eql(AChar(b))
  {
    a := new Char(Defaults);
    b := new Char(Defaults.(value := Some("")));
  }

  /** Equality with any Char is decided by the first characters alone. */
  lemma EqlIsFirstCharacter(a: Char, b: Char)
    requires a.rawValue.Some? && b.rawValue.Some? && a.rawValue.value != "" && b.rawValue.value != ""
    ensures a.Eql(AChar(b)) <==> a.rawValue.value[0] == b.rawValue.value[0]
  {
    assert a.Value() == Some(a.rawValue.value[..1]);
    assert b.Value() == Some(b.rawValue.value[..1]);
    if a.rawValue.value[0] == b.rawValue.value[0] {
      assert a.rawValue.value[..1] == b.rawValue.value[..1];
    } else {
      assert a.rawValue.value[..1][0] != b.rawValue.value[..1][0];
    }
  }

  /** `eql?` is an equivalence on Chars, and never holds against another class. */
  lemma EqlIsEquivalence(a: Char, b: Char, c: Char)
    ensures a.Eql(AChar(a))
    ensures a.Eql(AChar(b)) ==> b.Eql(AChar(a))
    ensures a.Eql(AChar(b)) && b.Eql(AChar(c)) ==> a.Eql(AChar(c))
    ensures !a.Eql(NotAChar)
  {
  }
}
