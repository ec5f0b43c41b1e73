/**
 * Vedeu::Sentence.construct: a list of names as an English phrase, as its
 * tests state it. The implementation file is not part of this model.
 */
module Sentences {
  import opened RubyString

  /** `Sentence.construct(elements, label = 'elements')`. */
  function Construct(elements: seq<string>, noun: string := "elements"): (r: string)
    ensures elements == [] ==> r == "No " + noun + " have been assigned."
    ensures |elements| == 1 ==> r == elements[0]
  {
    if elements == [] then "No " + noun + " have been assigned."
    else if |elements| == 1 then elements[0]
    else Join(elements[..|elements| - 1], ", ") + " and " + elements[|elements| - 1]
  }

  /** One more name: the names so far separated by commas, then "and" and the new one. */
  lemma ConstructAppend(elements: seq<string>, last: string, noun: string)
    requires elements != []
    ensures Construct(elements + [last], noun) == Join(elements, ", ") + " and " + last
  {
    assert (elements + [last])[..|elements|] == elements;
  }

  /**
   * Read from the front: the first name, then " and " before a last name or
   * ", " before more, then the phrase of the rest.
   */
  lemma ConstructFromTheFront(elements: seq<string>, noun: string)
    requires |elements| >= 2
    ensures Construct(elements, noun) ==
            elements[0] + (if |elements| == 2 then " and " else ", ") + Construct(elements[1..], noun)
  {
    var n := |elements|;
    var init := elements[..n - 1];
    if n == 2 {
      assert init == [elements[0]];
      assert elements[1..] == [elements[1]];
    } else {
      JoinCons(init, ", ");
      assert init[1..] == elements[1..][..n - 2];
      assert elements[1..][n - 2] == elements[n - 1];
    }
  }

  /** The phrases of the tests. */
  lemma ConstructExamples()
    ensures Construct(["Hydrogen"]) == "Hydrogen"
    ensures Construct(["Hydrogen", "Helium"]) == "Hydrogen and Helium"
    ensures Construct(["Hydrogen", "Helium", "Lithium"]) == "Hydrogen, Helium and Lithium"
    ensures Construct([]) == "No elements have been assigned."
  {
    var three := ["Hydrogen", "Helium", "Lithium"];
    assert three[..2] == ["Hydrogen", "Helium"];
    assert ["Hydrogen", "Helium"][..1] == ["Hydrogen"];
    assert ["Hydrogen", "Helium"][..1] == ["Hydrogen"];
  }
}
