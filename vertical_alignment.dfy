/**
 * Vedeu::Geometries::VerticalAlignment#align: a vertical alignment token is
 * returned as given when it is valid, and raises InvalidSyntax otherwise.
 * Tokens are Ruby symbols, written here without the colon.
 */
module VerticalAlignments {
  import opened Common

  datatype InvalidSyntax = InvalidSyntax(message: string)

  /** The values the error message names as valid. */
  const Valid: set<string> := {"bottom", "middle", "none", "top"}

  const Message: string := "No vertical alignment value given. Valid values are :bottom, :middle, :none, :top."

  function Align(value: string): (r: Result<string, InvalidSyntax>)
    ensures r.Ok? <==> value in Valid
    ensures r.Ok? ==> r.value == value
    ensures r.Err? ==> r.error == InvalidSyntax(Message)
  {
    if value in Valid then Ok(value) else Err(InvalidSyntax(Message))
  }

  /** Aligning an aligned value gives it back: `align` is idempotent. */
  lemma AlignIdempotent(value: string)
    requires Align(value).Ok?
    ensures Align(Align(value).value) == Align(value)
  {
  }

  /** The horizontal tokens and an unknown token are refused, with the same message. */
  lemma AlignRefuses()
    ensures Align("centre") == Err(InvalidSyntax(Message))
    ensures Align("left") == Err(InvalidSyntax(Message))
    ensures Align("diagonal") == Err(InvalidSyntax(Message))
    ensures Align("middle") == Ok("middle")
  {
  }
}
