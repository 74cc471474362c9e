/**
 * The one-card-expanded rule of the card list, on the set of expanded
 * cards (a card is named by its position in the list).
 */
module CardToggle {

  /**
   * The expanded cards after the expand button of `card` is clicked: an
   * expanded card collapses and nothing else changes; a collapsed card
   * first collapses every other card and then expands.
   */
  function Toggled(expanded: set<nat>, card: nat): (r: set<nat>)
    ensures card in r <==> card !in expanded
    ensures card in expanded ==> r <= expanded && |r| == |expanded| - 1
    ensures card !in expanded ==> |r| == 1
  {
    if card in expanded then expanded - {card} else {card}
  }

  /** Starting from at most one expanded card, a click leaves at most one expanded. */
  lemma AtMostOneExpanded(expanded: set<nat>, card: nat)
    requires |expanded| <= 1
    ensures |Toggled(expanded, card)| <= 1
    ensures forall other :: other in Toggled(expanded, card) ==> other == card
  {
  }

  /**
   * Clicking the same card twice leaves that card as the only expanded
   * one if it was expanded before, and every card collapsed otherwise.
   */
  lemma ToggleTwice(expanded: set<nat>, card: nat)
    ensures Toggled(Toggled(expanded, card), card) == if card in expanded then {card} else {}
  {
  }
}
