/** The reveal budget: a bounded counter of remaining card openings, spent
    when a budgeted card finishes opening and given back when it finishes
    closing. When the last opening is spent, a fixed list of special cards is
    made active. */
module Game {
  import opened CardTypes

  /** Abstract state of the budget. `toActivate` holds the arena indices of the
      special cards. */
  datatype Budget = Budget(total: int, remaining: int, toActivate: seq<nat>)

  /** The bound the counter keeps: within [0, total] when the configured total
      is not negative. A negative total leaves every guard closed, so the counter
      then never leaves its starting value. */
  predicate InBounds(b: Budget) {
    if b.total >= 0 then 0 <= b.remaining <= b.total else b.remaining == b.total
  }

  /** The budget when the game starts: every opening is still available. */
  function InitialBudget(total: int, toActivate: seq<nat>): (b: Budget)
    ensures b.total == total && b.remaining == total && b.toActivate == toActivate
    ensures InBounds(b)
  {
    Budget(total, total, toActivate)
  }

  /** The budget after a card finished opening. */
  function OpenedBudget(b: Budget, costs: bool): (r: Budget)
    ensures r.total == b.total && r.toActivate == b.toActivate
    ensures r.remaining != b.remaining <==> costs && b.remaining > 0
    ensures b.remaining - 1 <= r.remaining <= b.remaining
    ensures InBounds(b) ==> InBounds(r)
  {
    if costs && b.remaining > 0 then b.(remaining := b.remaining - 1) else b
  }

  /** Whether a card finishing opening fires the activation of the special
      cards: a decrement that brings the counter to 0. */
  function Exhausts(b: Budget, costs: bool): (fires: bool)
    ensures fires <==> costs && b.remaining == 1
    ensures fires ==> OpenedBudget(b, costs).remaining == 0
  {
    costs && b.remaining > 0 && OpenedBudget(b, costs).remaining == 0
  }

  /** The budget after a card finished closing. */
  function ClosedBudget(b: Budget, costs: bool): (r: Budget)
    ensures r.total == b.total && r.toActivate == b.toActivate
    ensures r.remaining != b.remaining <==> costs && b.remaining < b.total
    ensures b.remaining <= r.remaining <= b.remaining + 1
    ensures InBounds(b) ==> InBounds(r)
  {
    if costs && b.remaining < b.total then b.(remaining := b.remaining + 1) else b
  }

  /** The arena after the special cards listed in `ds` are made active, in
      list order. */
  function ActivateAll(cs: seq<Card>, ds: seq<nat>): (r: seq<Card>)
    requires IndicesIn(ds, |cs|)
    ensures OnlyInteraction(cs, r) && SetupKept(cs, r)
    decreases |ds|
  {
    if ds == [] then cs
    else SetInteraction(ActivateAll(cs, ds[..|ds| - 1]), ds[|ds| - 1], Active)
  }

  /** Every listed card ends Active; every other card is untouched. */
  lemma {:induction false} ActivateAllActivates(cs: seq<Card>, ds: seq<nat>)
    requires IndicesIn(ds, |cs|)
    ensures forall k :: 0 <= k < |cs| ==>
      ActivateAll(cs, ds)[k].interaction == if k in ds then Active else cs[k].interaction
    decreases |ds|
  {
    if ds != [] {
      var init := ds[..|ds| - 1];
      ActivateAllActivates(cs, init);
      assert ds == init + [ds[|ds| - 1]];
    }
  }

  /** A logical event the budget is told about. */
  datatype BudgetEvent = CardOpened(costs: bool) | CardClosed(costs: bool)

  function Apply(b: Budget, e: BudgetEvent): Budget {
    match e
    case CardOpened(costs) => OpenedBudget(b, costs)
    case CardClosed(costs) => ClosedBudget(b, costs)
  }

  /** The budget after a sequence of events, applied in order. */
  function Run(b: Budget, es: seq<BudgetEvent>): Budget
    decreases |es|
  {
    if es == [] then b else Apply(Run(b, es[..|es| - 1]), es[|es| - 1])
  }

  /** How many times the special cards are activated along `es`. */
  function Fires(b: Budget, es: seq<BudgetEvent>): nat
    decreases |es|
  {
    if es == [] then 0
    else
      var before := Run(b, es[..|es| - 1]);
      var e := es[|es| - 1];
      Fires(b, es[..|es| - 1]) + (if e.CardOpened? && Exhausts(before, e.costs) then 1 else 0)
  }

  /** For any sequence of open and close notifications the counter stays
      within [0, total]. */
  lemma {:induction false} RunInBounds(b: Budget, es: seq<BudgetEvent>)
    requires InBounds(b)
    ensures InBounds(Run(b, es))
    ensures Run(b, es).total == b.total
    decreases |es|
  {
    if es != [] {
      RunInBounds(b, es[..|es| - 1]);
    }
  }

  /** Notifications for cards that cost nothing never move the counter. */
  lemma {:induction false} FreeCardsCostNothing(b: Budget, es: seq<BudgetEvent>)
    requires forall k :: 0 <= k < |es| ==> !es[k].costs
    ensures Run(b, es) == b
    ensures Fires(b, es) == 0
    decreases |es|
  {
    if es != [] {
      FreeCardsCostNothing(b, es[..|es| - 1]);
    }
  }

  /** `n` notifications that a budgeted card opened. */
  function Opens(n: nat): (es: seq<BudgetEvent>)
    ensures |es| == n
    ensures forall k :: 0 <= k < n ==> es[k] == CardOpened(true)
  {
    seq(n, _ => CardOpened(true))
  }

  /** Opening `k` budgeted cards, no more than remain, spends exactly `k`
      openings; the special cards fire once, exactly when the last opening
      is spent. */
  lemma {:induction false} OpensSpend(b: Budget, k: nat)
    requires k <= b.remaining
    ensures Run(b, Opens(k)).remaining == b.remaining - k
    ensures Run(b, Opens(k)).total == b.total
    ensures Fires(b, Opens(k)) == if k == b.remaining && k > 0 then 1 else 0
  {
    if k > 0 {
      OpensSpend(b, k - 1);
      assert Opens(k)[..k - 1] == Opens(k - 1);
    }
  }

  /** A full budget of 24 is used up by 24 budgeted openings, firing the
      special cards once, at the 24th; closing one card afterwards gives one
      opening back. */
  lemma TwentyFourOpenings(toActivate: seq<nat>)
    ensures Run(InitialBudget(24, toActivate), Opens(23)).remaining == 1
    ensures Fires(InitialBudget(24, toActivate), Opens(23)) == 0
    ensures Run(InitialBudget(24, toActivate), Opens(24)).remaining == 0
    ensures Fires(InitialBudget(24, toActivate), Opens(24)) == 1
    ensures Run(InitialBudget(24, toActivate), Opens(24) + [CardClosed(true)]).remaining == 1
  {
    var b := InitialBudget(24, toActivate);
    OpensSpend(b, 23);
    OpensSpend(b, 24);
    assert (Opens(24) + [CardClosed(true)])[..24] == Opens(24);
  }

  /** The game manager: owns the reveal budget. */
  class GameManager {
    const totalOpenings: int
    var remainingOpenings: int
    const cardsToActivate: seq<nat>

    function Model(): Budget
      reads this
    {
      Budget(totalOpenings, remainingOpenings, cardsToActivate)
    }

    ghost predicate Valid()
      reads this
    {
      InBounds(Model())
    }

    /** Start of the game: all openings available. */
    constructor (total: int, toActivate: seq<nat>)
      ensures Model() == InitialBudget(total, toActivate)
      ensures Valid()
    {
      totalOpenings := total;
      cardsToActivate := toActivate;
      remainingOpenings := total;
    }

    /** Whether another card may still be opened. */
    method CanOpenCard() returns (r: bool)
      ensures r <==> remainingOpenings > 0
    {
      r := remainingOpenings > 0;
    }

    /** The number of openings left, as shown to the player. */
    method GetRemainingOpenings() returns (r: int)
      ensures r == Model().remaining
      ensures Valid() ==> (totalOpenings >= 0 ==> 0 <= r <= totalOpenings)
    {
      r := remainingOpenings;
    }

    /** Told by a card that finished opening; spends one opening and fires the
        special cards when that was the last. */
    method OnCardOpened(cards: array<Card>, card: Card)
      requires Valid() && IndicesIn(cardsToActivate, cards.Length)
      modifies this, cards
      ensures Valid()
      ensures Model() == OpenedBudget(old(Model()), card.costsPoint)
      ensures cards[..] == if Exhausts(old(Model()), card.costsPoint)
                           then ActivateAll(old(cards[..]), cardsToActivate)
                           else old(cards[..])
    {
      if card.costsPoint {
        if remainingOpenings > 0 {
          remainingOpenings := remainingOpenings - 1;
          if remainingOpenings == 0 {
            ActivateSpecialCards(cards);
          }
        }
      }
    }

    /** Told by a card that finished closing; gives one opening back, never
        beyond the total. */
    method OnCardClosed(card: Card)
      requires Valid()
      modifies this
      ensures Valid()
      ensures Model() == ClosedBudget(old(Model()), card.costsPoint)
    {
      if card.costsPoint {
        if remainingOpenings < totalOpenings {
          remainingOpenings := remainingOpenings + 1;
        }
      }
    }

    /** Makes every special card active, in list order. */
    method ActivateSpecialCards(cards: array<Card>)
      requires IndicesIn(cardsToActivate, cards.Length)
      modifies cards
      ensures cards[..] == ActivateAll(old(cards[..]), cardsToActivate)
    {
      var j := 0;
      while j < |cardsToActivate|
        invariant 0 <= j <= |cardsToActivate|
        invariant cards[..] == ActivateAll(old(cards[..]), cardsToActivate[..j])
      {
        var d := cardsToActivate[j];
        cards[d] := cards[d].(interaction := Active);
        assert cardsToActivate[..j + 1][..j] == cardsToActivate[..j];
        j := j + 1;
      }
      assert cardsToActivate[..j] == cardsToActivate;
    }
  }
}
