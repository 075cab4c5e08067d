/** Card records and the arena that holds them.

    The cards of the board live in one arena; a card refers to the cards it
    depends on by their index in the arena. Every operation on cards changes
    only the three mutable fields of a record (status, interaction and the
    reference counter); the rest of a record is the card's static setup. */
module CardTypes {

  /** Flip status of a card. Opening and Closing are the transient states
      in which a flip animation is in flight. */
  datatype CardStatus = Closed | Closing | Opened | Opening

  /** Whether a card reacts to the player. */
  datatype InteractionState = Active | Inactive | Hidden

  predicate IsTransient(s: CardStatus) {
    s == Opening || s == Closing
  }

  /** One card: its static setup and its mutable state. */
  datatype Card = Card(
    initialStatus: CardStatus,   // the status the card is turned to when the board starts
    costsPoint: bool,            // whether opening it spends the reveal budget
    relatedHide: seq<nat>,       // cards whose visibility follows this card's status
    relatedOpen: seq<nat>,       // cards this card forces open while it is opened
    activators: seq<nat>,        // cards that gate whether this card is interactable
    status: CardStatus,
    interaction: InteractionState,
    numAddictions: int)          // how many opened sources currently force this card open

  /** Every index of `ds` names a card of an arena of `n` cards. */
  predicate IndicesIn(ds: seq<nat>, n: nat) {
    forall k :: 0 <= k < |ds| ==> ds[k] < n
  }

  /** Every dependency of every card names a card of the arena. */
  predicate WellFormed(cs: seq<Card>) {
    forall i :: 0 <= i < |cs| ==>
      IndicesIn(cs[i].relatedHide, |cs|) && IndicesIn(cs[i].relatedOpen, |cs|) && IndicesIn(cs[i].activators, |cs|)
  }

  /** `b` has the same static setup as `a`. */
  predicate SameSetup(a: Card, b: Card) {
    a.initialStatus == b.initialStatus && a.costsPoint == b.costsPoint &&
    a.relatedHide == b.relatedHide && a.relatedOpen == b.relatedOpen && a.activators == b.activators
  }

  /** `cs'` is `cs` with possibly different mutable state. */
  predicate SetupKept(cs: seq<Card>, cs': seq<Card>) {
    |cs| == |cs'| && forall k :: 0 <= k < |cs| ==> SameSetup(cs[k], cs'[k])
  }

  /** `cs'` differs from `cs` at most in the interaction states of its cards. */
  predicate OnlyInteraction(cs: seq<Card>, cs': seq<Card>) {
    |cs| == |cs'| && forall k :: 0 <= k < |cs| ==> cs'[k] == cs[k].(interaction := cs'[k].interaction)
  }

  lemma SetupKeptWellFormed(cs: seq<Card>, cs': seq<Card>)
    requires WellFormed(cs) && SetupKept(cs, cs')
    ensures WellFormed(cs')
  {
    forall i | 0 <= i < |cs'|
      ensures IndicesIn(cs'[i].relatedHide, |cs'|) && IndicesIn(cs'[i].relatedOpen, |cs'|) && IndicesIn(cs'[i].activators, |cs'|)
    {
      assert SameSetup(cs[i], cs'[i]);
    }
  }

  /** Assigning the interaction state of card `d` (the setter of
      `Card.InteractionState`, whose only other effect is a redraw). */
  function SetInteraction(cs: seq<Card>, d: nat, st: InteractionState): (r: seq<Card>)
    requires d < |cs|
    ensures OnlyInteraction(cs, r)
    ensures r[d].interaction == st
    ensures forall k :: 0 <= k < |cs| && k != d ==> r[k] == cs[k]
  {
    cs[d := cs[d].(interaction := st)]
  }

  /** Number of occurrences of `x` in `s`. */
  function Count(s: seq<nat>, x: nat): (n: nat)
    ensures n <= |s|
    ensures n == 0 <==> x !in s
  {
    if s == [] then 0
    else Count(s[..|s| - 1], x) + (if s[|s| - 1] == x then 1 else 0)
  }
}
