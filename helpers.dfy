/**
 * The non-block forms of Vedeu::API::Helpers `background`, `foreground`,
 * `colour` and `style`, as their tests state them. The implementation file
 * is not part of this model.
 */
module Helpers {
  import opened Common

  datatype InvalidSyntax = InvalidSyntax

  /** The keys of a colour attribute hash. */
  datatype ColourKey = Foreground | Background

  /** The argument of `style`: none, one style, or a list of styles. */
  datatype StyleArgument = NoStyle | OneStyle(name: string) | StyleList(names: seq<string>)

  /** `background(value)`: `{ background: value }`; an empty value raises InvalidSyntax. */
  function BackgroundOf(value: string): (r: Result<map<ColourKey, string>, InvalidSyntax>)
    ensures r.Ok? <==> value != ""
    ensures r.Ok? ==> r.value.Keys == {Background} && r.value[Background] == value
  {
    if value == "" then Err(InvalidSyntax) else Ok(map[Background := value])
  }

  /** `foreground(value)`: `{ foreground: value }`; an empty value raises InvalidSyntax. */
  function ForegroundOf(value: string): (r: Result<map<ColourKey, string>, InvalidSyntax>)
    ensures r.Ok? <==> value != ""
    ensures r.Ok? ==> r.value.Keys == {Foreground} && r.value[Foreground] == value
  {
    if value == "" then Err(InvalidSyntax) else Ok(map[Foreground := value])
  }

  /** `colour(attributes)`: raises InvalidSyntax when neither key is given, otherwise returns the hash as given. */
  function ColourOf(attributes: map<ColourKey, string>): (r: Result<map<ColourKey, string>, InvalidSyntax>)
    ensures r.Err? <==> Foreground !in attributes && Background !in attributes
    ensures r.Ok? ==> r.value == attributes
  {
    if Foreground !in attributes && Background !in attributes then Err(InvalidSyntax) else Ok(attributes)
  }

  /** `style(value = nil)`: a list of styles, in the order given. */
  function StyleOf(value: StyleArgument := NoStyle): (r: seq<string>)
    ensures value.NoStyle? ==> r == []
    ensures value.OneStyle? ==> r == [value.name]
    ensures value.StyleList? ==> r == value.names
  {
    match value
    case NoStyle => []
    case OneStyle(name) => [name]
    case StyleList(names) => names
  }

  /** The hash `background` or `foreground` builds is one `colour` accepts and gives back unchanged. */
  lemma ColourAcceptsEitherHelper(value: string)
    requires value != ""
    ensures ColourOf(BackgroundOf(value).value) == BackgroundOf(value)
    ensures ColourOf(ForegroundOf(value).value) == ForegroundOf(value)
  {
    assert Background in BackgroundOf(value).value;
    assert Foreground in ForegroundOf(value).value;
  }

  /** One style and the list holding only it are the same style. */
  lemma OneStyleIsAListOfOne(name: string)
    ensures StyleOf(OneStyle(name)) == StyleOf(StyleList([name]))
  {
  }

  /** The values of the tests. */
  lemma HelperExamples()
    ensures BackgroundOf("#00ff00") == Ok(map[Background := "#00ff00"])
    ensures ForegroundOf("#00ff00") == Ok(map[Foreground := "#00ff00"])
    ensures BackgroundOf("") == Err(InvalidSyntax) && ForegroundOf("") == Err(InvalidSyntax)
    ensures ColourOf(map[]) == Err(InvalidSyntax)
    ensures ColourOf(map[Foreground := "#ff0000"]) == Ok(map[Foreground := "#ff0000"])
    ensures ColourOf(map[Background := "#ff0000"]) == Ok(map[Background := "#ff0000"])
    ensures StyleOf() == [] && StyleOf(OneStyle("normal")) == ["normal"]
    ensures StyleOf(StyleList(["bold", "underline"])) == ["bold", "underline"]
  {
  }
}
