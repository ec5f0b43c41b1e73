/**
 * Vedeu::Colours::Colour: the escape sequence for a colour mask, a
 * foreground and a background colour. The encoders
 * (`Foreground.escape_sequence`, `Background.escape_sequence`, `Esc.reset`)
 * are not part of this model and are passed in as uninterpreted functions.
 */
module Colours {
  import opened Common
  import opened RubyString

  datatype Encoders = Encoders(
    foreground: Option<string> -> string,
    background: Option<string> -> string,
    reset: string)

  /** `mask[i]`: `nil` beyond the end of the mask. */
  function At(mask: seq<string>, i: nat): (r: Option<string>)
    ensures r.Some? <==> i < |mask|
    ensures i < |mask| ==> r.value == mask[i]
  {
    if i < |mask| then Some(mask[i]) else None
  }

  datatype Colour = Colour(mask: seq<string>) {
    /** `set`: the reset sequence for an empty mask, otherwise the foreground then the background sequence. */
    function Set(enc: Encoders): string {
      if mask == [] then Reset(enc) else Concat([enc.foreground(At(mask, 0)), enc.background(At(mask, 1))])
    }

    /** `reset`. */
    function Reset(enc: Encoders): string {
      enc.reset
    }
  }

  /** `Colour.set(mask = [])`. */
  function ClassSet(enc: Encoders, mask: seq<string> := []): string {
    Colour(mask).Set(enc)
  }

  /** `Colour.reset(mask = [])`. */
  function ClassReset(enc: Encoders, mask: seq<string> := []): string {
    Colour(mask).Reset(enc)
  }

  /** An empty mask sets nothing: it resets. */
  lemma EmptyMaskResets(enc: Encoders)
    ensures Colour([]).Set(enc) == enc.reset
  {
  }

  /** A non-empty mask gives its foreground sequence followed by its background sequence; a missing background is `nil`. */
  lemma SetEncodesForegroundThenBackground(enc: Encoders, mask: seq<string>)
    requires mask != []
    ensures Colour(mask).Set(enc) == enc.foreground(Some(mask[0])) + enc.background(At(mask, 1))
    ensures |mask| == 1 ==> Colour(mask).Set(enc) == enc.foreground(Some(mask[0])) + enc.background(None)
  {
    var parts := [enc.foreground(At(mask, 0)), enc.background(At(mask, 1))];
    assert parts[..1] == [parts[0]];
    assert [parts[0]][..0] == [];
    assert Concat([parts[0]]) == parts[0];
    assert Concat(parts) == Concat(parts[..1]) + parts[1];
  }

  /** The reset sequence does not depend on the mask. */
  lemma ResetIgnoresMask(enc: Encoders, a: seq<string>, b: seq<string>)
    ensures Colour(a).Reset(enc) == Colour(b).Reset(enc)
  {
  }

  /** The class methods agree with the instance methods, and without a mask `set` is `reset`. */
  lemma ClassMethodsAgree(enc: Encoders, mask: seq<string>)
    ensures ClassSet(enc, mask) == Colour(mask).Set(enc)
    ensures ClassReset(enc, mask) == Colour(mask).Reset(enc)
    ensures ClassSet(enc) == ClassReset(enc)
  {
  }
}
