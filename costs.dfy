/**
 * The fixed unit-cost table used for the profit figure: a product whose
 * lower-cased name mentions `infinity` costs 250.00, one that mentions `fw pro`
 * costs 430.00, and every other product costs nothing. The first match wins.
 * Costs are in cents, like sale values.
 */
module Costs {
  import opened Strings

  const InfinityCost := 250_00
  const FwProCost := 430_00

  /** The lower-cased `name` contains `word`. */
  ghost predicate Mentions(name: string, word: string)
  {
    exists i :: OccursAt(Lower(name), word, i)
  }

  /** The unit cost of the product called `name`. */
  function ProductCost(name: string): (r: int)
    ensures r == 0 || r == InfinityCost || r == FwProCost
    ensures r == InfinityCost <==> Mentions(name, "infinity")
    ensures r == FwProCost <==> !Mentions(name, "infinity") && Mentions(name, "fw pro")
    ensures r == 0 <==> !Mentions(name, "infinity") && !Mentions(name, "fw pro")
  {
    var lowerName := Lower(name);
    ContainsIff(lowerName, "infinity");
    ContainsIff(lowerName, "fw pro");
    if Contains(lowerName, "infinity") then InfinityCost
    else if Contains(lowerName, "fw pro") then FwProCost
    else 0
  }

  /** The lookup ignores the case of ASCII letters. */
  lemma CostIgnoresCase(a: string, b: string)
    requires SameIgnoringCase(a, b)
    ensures ProductCost(a) == ProductCost(b)
  {
    assert Lower(a) == Lower(b);
  }

  /** The Infinity product costs 250.00 (other capitalisations follow by `CostIgnoresCase`). */
  lemma InfinityCosts250()
    ensures ProductCost("Infinity") == InfinityCost
  {
    assert Lower("Infinity") == "infinity";
    assert OccursAt(Lower("Infinity"), "infinity", 0);
  }

  /** The FW PRO product costs 430.00. */
  lemma FwProCosts430()
    ensures ProductCost("FW PRO") == FwProCost
  {
    assert Lower("FW PRO") == "fw pro";
    assert OccursAt(Lower("FW PRO"), "fw pro", 0);
  }

  /**
   * A name with `Infinity` in it costs 250.00 whatever surrounds it, even when
   * it also mentions FW PRO (`FW PRO Infinity`): the first match wins.
   */
  lemma FirstMatchWins(before: string, after: string)
    ensures ProductCost(before + "Infinity" + after) == InfinityCost
  {
    MentionsInside(before, "Infinity", after, "infinity");
  }

  /** A word whose lower-cased form is `lowerWord` is mentioned by any name it occurs in. */
  lemma MentionsInside(before: string, word: string, after: string, lowerWord: string)
    requires Lower(word) == lowerWord
    ensures Mentions(before + word + after, lowerWord)
  {
    LowerAppend(before + word, after);
    LowerAppend(before, word);
    var lowerName := Lower(before + word + after);
    assert lowerName[|before|..|before| + |word|] == lowerWord;
    assert OccursAt(lowerName, lowerWord, |before|);
  }
}
