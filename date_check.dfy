/**
 * Puzzle 4, the date: the typed date is accepted when, with all white space
 * removed, it reads "03/07" or "0307".
 */
module DateCheck {
  import Text
  import Progression

  /** The check button's test of the date input. */
  predicate AcceptsDate(input: string): (accepted: bool)
    ensures accepted ==> 4 <= |input|
  {
    var value := Text.StripSpaces(input);
    value == "03/07" || value == "0307"
  }

  /** White space typed anywhere in the date does not change the verdict. */
  lemma {:induction false} AcceptsDateIgnoresSpace(a: string, c: char, b: string)
    requires Text.IsSpace(c)
    ensures AcceptsDate(a + [c] + b) <==> AcceptsDate(a + b)
  {
    Text.StripSpacesIgnoresInsertedSpace(a, c, b);
  }

  /** The date is accepted as typed with a slash ... */
  lemma {:induction false} SlashedDateAccepted()
    ensures AcceptsDate("03/07")
  {
    Text.StripSpacesOfNoSpace("03/07");
  }

  /** ... and without one. */
  lemma {:induction false} PlainDateAccepted()
    ensures AcceptsDate("0307")
  {
    Text.StripSpacesOfNoSpace("0307");
  }

  /** White space of any kind and length around the parts of the date is accepted too. */
  lemma {:induction false} SpacedDateAccepted(p: string, q: string, r: string, t: string)
    requires Text.AllSpace(p) && Text.AllSpace(q) && Text.AllSpace(r) && Text.AllSpace(t)
    ensures AcceptsDate(p + "03" + q + "/" + r + "07" + t)
  {
    var x0 := p + "03";
    var x1 := x0 + q + "/";
    var x2 := x1 + r + "07";
    Text.StripSpacesAppendPadded([], p, "03");
    assert [] + p + "03" == x0;
    Text.StripSpacesAppendPadded(x0, q, "/");
    Text.StripSpacesAppendPadded(x1, r, "07");
    Text.StripSpacesAppend(x2, t);
    Text.StripSpacesOfAllSpace(t);
    assert Text.StripSpaces(x2 + t) == "03" + "/" + "07";
  }

  /** No other normalisation: a missing leading zero or a month name is rejected. */
  lemma {:induction false} RejectedDates()
    ensures !AcceptsDate("3/7") && !AcceptsDate("March 7")
  {
    var march := Text.StripSpaces("March 7");
    assert march == "M" + Text.StripSpaces("arch 7");
    assert march[0] == 'M';
  }

  /**
   * The check button's click handler. An accepted date unlocks ring 4 and
   * schedules the transition to "finale"; the button stays enabled, so every
   * accepted click schedules that transition again. A rejected date changes
   * nothing but the colour of the text, which is not modelled.
   */
  method CheckDate(stage: Progression.Stage, input: string) returns (accepted: bool)
    requires stage.Valid()
    modifies stage
    ensures stage.Valid()
    ensures accepted <==> AcceptsDate(input)
    ensures !accepted ==> unchanged(stage)
    ensures accepted ==> stage.unlocked == old(stage.unlocked) + {4}
                         && stage.scheduled == old(stage.scheduled) + ["finale"]
                         && stage.active == old(stage.active) && stage.showing == old(stage.showing)
  {
    var value := Text.StripSpaces(input);
    accepted := value == "03/07" || value == "0307";
    if accepted {
      stage.UnlockRing(4, "finale");
    }
  }
}
