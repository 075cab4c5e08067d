/** The flip protocol of a card and the propagation to its dependents, as
    functions on the arena. A flip is split in two: `BeginFlipStep` is the
    request (the transient status marks the flip as in flight) and
    `CompleteFlipStep` is what happens when the animation ends. A flip that
    propagation starts is a new in-flight flip, completed later by its own
    `CompleteFlipStep`. */
module CardFlip {
  import opened CardTypes
  import opened Game

  /** The status a card reaches when its flip completes. */
  function CommitStatus(s: CardStatus): (r: CardStatus)
    requires IsTransient(s)
    ensures s == Opening ==> r == Opened
    ensures s == Closing ==> r == Closed
  {
    if s == Opening then Opened else Closed
  }

  /** Whether the card counts as opened for its open-dependents: from the
      moment its opening completes until its closing completes. */
  predicate HoldsDependents(s: CardStatus) {
    s == Opened || s == Closing
  }

  /** A flip request for card `i`; `canOpen` is the budget's answer to whether
      another card may be opened. */
  function BeginFlipStep(cs: seq<Card>, i: nat, canOpen: bool): (r: seq<Card>)
    requires i < |cs|
    ensures |r| == |cs| && forall k :: 0 <= k < |cs| && k != i ==> r[k] == cs[k]
    ensures r[i] == cs[i].(status := r[i].status)
    ensures HoldsDependents(r[i].status) == HoldsDependents(cs[i].status)
    // no flip while one is in flight
    ensures IsTransient(cs[i].status) ==> r == cs
    // a budgeted card does not start opening when no opening is left
    ensures cs[i].status == Closed && cs[i].costsPoint && !canOpen ==> r == cs
    ensures cs[i].status == Closed && (!cs[i].costsPoint || canOpen) ==> r[i].status == Opening
    ensures cs[i].status == Opened ==> r[i].status == Closing
  {
    var c := cs[i];
    if c.status == Opening || c.status == Closing then cs
    else if c.status == Closed && c.costsPoint && !canOpen then cs
    else cs[i := c.(status := if c.status == Closed then Opening else Closing)]
  }

  /** The interaction state a hide-dependent takes from its source's status. */
  function HideTarget(src: CardStatus, cur: InteractionState): (r: InteractionState)
    ensures src == Closed ==> r == Hidden
    ensures src == Opened ==> r == Active
    ensures IsTransient(src) ==> r == cur
  {
    if src == Closed then Hidden else if src == Opened then Active else cur
  }

  /** The hide propagation of card `src` over the dependents `ds`, in list order. */
  function HideAll(cs: seq<Card>, src: nat, ds: seq<nat>): (r: seq<Card>)
    requires src < |cs| && IndicesIn(ds, |cs|)
    ensures OnlyInteraction(cs, r) && SetupKept(cs, r)
    decreases |ds|
  {
    if ds == [] then cs
    else
      var prev := HideAll(cs, src, ds[..|ds| - 1]);
      var d := ds[|ds| - 1];
      SetInteraction(prev, d, HideTarget(prev[src].status, prev[d].interaction))
  }

  /** The hide propagation over one more dependent of `ds` is one more step. */
  lemma HideAllPrefix(cs: seq<Card>, src: nat, ds: seq<nat>, j: nat)
    requires src < |cs| && IndicesIn(ds, |cs|) && j < |ds|
    ensures var prev := HideAll(cs, src, ds[..j]);
      HideAll(cs, src, ds[..j + 1]) == SetInteraction(prev, ds[j], HideTarget(prev[src].status, prev[ds[j]].interaction))
  {
    assert ds[..j + 1][..j] == ds[..j];
  }

  /** One hop: every listed card takes its state from the source's status, and
      nothing else is touched, not even the listed cards' own dependents. */
  lemma {:induction false} HideAllReaches(cs: seq<Card>, src: nat, ds: seq<nat>)
    requires src < |cs| && IndicesIn(ds, |cs|)
    ensures forall k :: 0 <= k < |cs| ==>
      HideAll(cs, src, ds)[k] ==
        if k in ds then cs[k].(interaction := HideTarget(cs[src].status, cs[k].interaction)) else cs[k]
    decreases |ds|
  {
    if ds != [] {
      var init := ds[..|ds| - 1];
      HideAllReaches(cs, src, init);
      assert ds == init + [ds[|ds| - 1]];
    }
  }

  /** The status an open-dependent takes when its source opens: a closed card
      starts opening unless the budget refuses it. */
  function ForcedOpen(c: Card, canOpen: bool): CardStatus {
    if c.status == Closed && (!c.costsPoint || canOpen) then Opening else c.status
  }

  /** One pass of the open propagation of card `src` for dependent `d`. */
  function OpenStep(cs: seq<Card>, src: nat, d: nat, canOpen: bool): (r: seq<Card>)
    requires src < |cs| && d < |cs|
    ensures SetupKept(cs, r)
  {
    if cs[src].status == Opened then
      var c1 := SetInteraction(cs, d, Active);
      var c2 := if c1[d].status == Closed then BeginFlipStep(c1, d, canOpen) else c1;
      c2[d := c2[d].(numAddictions := c2[d].numAddictions + 1)]
    else
      var c1 := if cs[d].status == Opened && cs[d].numAddictions <= 1
                then BeginFlipStep(SetInteraction(cs, d, Hidden), d, canOpen)
                else cs;
      c1[d := c1[d].(numAddictions := c1[d].numAddictions - 1)]
  }

  /** The open propagation of card `src` over the dependents `ds`, in list order. */
  function OpenAll(cs: seq<Card>, src: nat, ds: seq<nat>, canOpen: bool): (r: seq<Card>)
    requires src < |cs| && IndicesIn(ds, |cs|)
    ensures SetupKept(cs, r)
    decreases |ds|
  {
    if ds == [] then cs
    else OpenStep(OpenAll(cs, src, ds[..|ds| - 1], canOpen), src, ds[|ds| - 1], canOpen)
  }

  /** The open propagation over one more dependent of `ds` is one more step. */
  lemma OpenAllPrefix(cs: seq<Card>, src: nat, ds: seq<nat>, j: nat, canOpen: bool)
    requires src < |cs| && IndicesIn(ds, |cs|) && j < |ds|
    ensures OpenAll(cs, src, ds[..j + 1], canOpen) == OpenStep(OpenAll(cs, src, ds[..j], canOpen), src, ds[j], canOpen)
  {
    assert ds[..j + 1][..j] == ds[..j];
  }

  /** Open propagation from an opened source: every listed card becomes
      Active, starts opening if it was closed (budget permitting), and its
      counter grows by the number of times it is listed; other cards are
      untouched. */
  lemma {:induction false} OpenAllFromOpened(cs: seq<Card>, src: nat, ds: seq<nat>, canOpen: bool)
    requires src < |cs| && IndicesIn(ds, |cs|)
    requires cs[src].status == Opened
    ensures forall k :: 0 <= k < |cs| ==>
      OpenAll(cs, src, ds, canOpen)[k] ==
        if Count(ds, k) == 0 then cs[k]
        else cs[k].(interaction := Active, status := ForcedOpen(cs[k], canOpen),
                    numAddictions := cs[k].numAddictions + Count(ds, k))
    decreases |ds|
  {
    if ds != [] {
      var init := ds[..|ds| - 1];
      var x := ds[|ds| - 1];
      OpenAllFromOpened(cs, src, init, canOpen);
      var prev := OpenAll(cs, src, init, canOpen);
      assert prev[src].status == Opened;
      var r := OpenAll(cs, src, ds, canOpen);
      forall k | 0 <= k < |cs|
        ensures r[k] ==
          if Count(ds, k) == 0 then cs[k]
          else cs[k].(interaction := Active, status := ForcedOpen(cs[k], canOpen),
                      numAddictions := cs[k].numAddictions + Count(ds, k))
      {
        assert Count(ds, k) == Count(init, k) + (if x == k then 1 else 0);
      }
    }
  }

  /** The state a listed dependent ends in when its source closes and the card
      is listed `n` times: an opened card held no more than `n` times starts
      closing and is hidden; its counter drops by `n`. A card not listed is
      untouched. */
  function ReleasedCard(c: Card, n: nat): Card {
    if n > 0 && c.status == Opened && c.numAddictions <= n
    then c.(status := Closing, interaction := Hidden, numAddictions := c.numAddictions - n)
    else c.(numAddictions := c.numAddictions - n)
  }

  /** Releasing a card once more after `n` releases is releasing it `n + 1` times. */
  lemma ReleasedAgain(c: Card, n: nat)
    ensures ReleasedCard(ReleasedCard(c, n), 1) == ReleasedCard(c, n + 1)
    ensures ReleasedCard(c, 0) == c
  {
  }

  /** One pass of open propagation from a closed source releases the dependent once. */
  lemma OpenStepFromClosed(cs: seq<Card>, src: nat, d: nat, canOpen: bool)
    requires src < |cs| && d < |cs| && cs[src].status != Opened
    ensures OpenStep(cs, src, d, canOpen) == cs[d := ReleasedCard(cs[d], 1)]
  {
  }

  /** Open propagation from a closed source: each listed card's counter drops
      by the number of times it is listed, and an opened card is hidden and
      flipped closed only when its counter allowed it, so a card that another
      opened source still holds stays opened. */
  lemma {:induction false} OpenAllFromClosed(cs: seq<Card>, src: nat, ds: seq<nat>, canOpen: bool)
    requires src < |cs| && IndicesIn(ds, |cs|)
    requires cs[src].status != Opened
    ensures forall k :: 0 <= k < |cs| ==>
      OpenAll(cs, src, ds, canOpen)[k] == ReleasedCard(cs[k], Count(ds, k))
    decreases |ds|
  {
    if ds != [] {
      var init := ds[..|ds| - 1];
      var x := ds[|ds| - 1];
      OpenAllFromClosed(cs, src, init, canOpen);
      var prev := OpenAll(cs, src, init, canOpen);
      assert prev[src].status != Opened by {
        ReleasedAgain(cs[src], Count(init, src));
      }
      OpenStepFromClosed(prev, src, x, canOpen);
      var r := OpenAll(cs, src, ds, canOpen);
      assert r == prev[x := ReleasedCard(prev[x], 1)];
      forall k | 0 <= k < |cs|
        ensures r[k] == ReleasedCard(cs[k], Count(ds, k))
      {
        assert Count(ds, k) == Count(init, k) + (if x == k then 1 else 0);
        if k == x {
          ReleasedAgain(cs[k], Count(init, k));
        }
      }
    }
  }

  /** The board: the card arena and the reveal budget. */
  datatype World = World(cards: seq<Card>, budget: Budget)

  predicate WorldOk(w: World) {
    WellFormed(w.cards) && IndicesIn(w.budget.toActivate, |w.cards|)
  }

  /** The status commit of card `i` and the budget notification. */
  function CommitFlip(w: World, i: nat): (r: World)
    requires WorldOk(w) && i < |w.cards| && IsTransient(w.cards[i].status)
    ensures WorldOk(r) && SetupKept(w.cards, r.cards)
    ensures r.cards[i].status == CommitStatus(w.cards[i].status)
    // beyond the commit, only interaction states change (the special cards)
    ensures OnlyInteraction(w.cards[i := w.cards[i].(status := CommitStatus(w.cards[i].status))], r.cards)
    // the budget is told only about budgeted cards
    ensures r.budget == if !w.cards[i].costsPoint then w.budget
                        else if w.cards[i].status == Opening then OpenedBudget(w.budget, true)
                        else ClosedBudget(w.budget, true)
    // the special cards are made active exactly when a budgeted opening spends the last opening
    ensures var committed := w.cards[i := w.cards[i].(status := CommitStatus(w.cards[i].status))];
            r.cards == if w.cards[i].status == Opening && w.cards[i].costsPoint && Exhausts(w.budget, true)
                       then ActivateAll(committed, w.budget.toActivate)
                       else committed
  {
    var c := w.cards[i];
    var cs := w.cards[i := c.(status := CommitStatus(c.status))];
    var b := w.budget;
    assert SetupKept(w.cards, cs);
    SetupKeptWellFormed(w.cards, cs);
    if cs[i].status == Opened && c.costsPoint then
      World(if Exhausts(b, true) then ActivateAll(cs, b.toActivate) else cs, OpenedBudget(b, true))
    else if cs[i].status == Closed && c.costsPoint then
      World(cs, ClosedBudget(b, true))
    else
      World(cs, b)
  }

  /** Completion of the flip of card `i`: commit, budget notification, hide
      propagation, then open propagation (which may start new flips). */
  function CompleteFlipStep(w: World, i: nat): (r: World)
    requires WorldOk(w) && i < |w.cards| && IsTransient(w.cards[i].status)
    ensures WorldOk(r) && SetupKept(w.cards, r.cards)
    ensures r.cards[i].status == CommitStatus(w.cards[i].status)
    ensures r.budget == CommitFlip(w, i).budget
  {
    var w1 := CommitFlip(w, i);
    var src := w1.cards[i];
    var cs2 := HideAll(w1.cards, i, src.relatedHide);
    var cs3 := OpenAll(cs2, i, src.relatedOpen, w1.budget.remaining > 0);
    assert cs3[i].status == cs2[i].status by {
      if cs2[i].status == Opened {
        OpenAllFromOpened(cs2, i, src.relatedOpen, w1.budget.remaining > 0);
      } else {
        OpenAllFromClosed(cs2, i, src.relatedOpen, w1.budget.remaining > 0);
      }
    }
    SetupKeptWellFormed(w1.cards, cs3);
    World(cs3, w1.budget)
  }

  /** A flip request on card `i`, asking the budget whether it may open. */
  function BeginFlipWorld(w: World, i: nat): (r: World)
    requires WorldOk(w) && i < |w.cards|
    ensures WorldOk(r) && SetupKept(w.cards, r.cards)
    ensures r == World(BeginFlipStep(w.cards, i, w.budget.remaining > 0), w.budget)
  {
    var cs := BeginFlipStep(w.cards, i, w.budget.remaining > 0);
    assert SameSetup(w.cards[i], cs[i]);
    SetupKeptWellFormed(w.cards, cs);
    World(cs, w.budget)
  }

  /** The start of card `i` on a new board: a card whose initial status
      differs from its status is flipped, then its hide-dependents follow its
      status. */
  function StartStep(cs: seq<Card>, i: nat, canOpen: bool): (r: seq<Card>)
    requires WellFormed(cs) && i < |cs|
    ensures SetupKept(cs, r)
    ensures cs[i].status == cs[i].initialStatus ==> r == HideAll(cs, i, cs[i].relatedHide)
    // a card that starts a flip leaves its hide-dependents alone while it is in flight;
    // a refused flip leaves the card as it was, and its hide-dependents follow it
    ensures cs[i].status != cs[i].initialStatus ==>
      r == if IsTransient(BeginFlipStep(cs, i, canOpen)[i].status) then BeginFlipStep(cs, i, canOpen)
           else HideAll(cs, i, cs[i].relatedHide)
  {
    var cs1 := if cs[i].status != cs[i].initialStatus then BeginFlipStep(cs, i, canOpen) else cs;
    assert cs1[i].relatedHide == cs[i].relatedHide;
    HideAllReaches(cs1, i, cs1[i].relatedHide);
    assert IsTransient(cs1[i].status) ==> HideAll(cs1, i, cs1[i].relatedHide) == cs1;
    HideAll(cs1, i, cs1[i].relatedHide)
  }

  /** The state a card takes in its per-frame activator pass, given the listed
      activators: each pass overwrites the state, so the last listed activator
      decides. A hidden card, or one with no activators, keeps its state. */
  function ActivatorInteraction(cs: seq<Card>, cur: InteractionState, acts: seq<nat>): (r: InteractionState)
    requires IndicesIn(acts, |cs|)
    ensures cur == Hidden || acts == [] ==> r == cur
    ensures cur != Hidden && acts != [] ==> (r == Inactive <==> cs[acts[|acts| - 1]].status == Closed)
    ensures cur != Hidden && acts != [] ==> r != Hidden
  {
    if cur == Hidden || acts == [] then cur
    else if cs[acts[|acts| - 1]].status == Closed then Inactive
    else Active
  }

  /** The per-frame activator pass of card `i`: only its interaction state changes. */
  function UpdateStep(cs: seq<Card>, i: nat): (r: seq<Card>)
    requires WellFormed(cs) && i < |cs|
    ensures OnlyInteraction(cs, r) && SetupKept(cs, r)
    ensures forall k :: 0 <= k < |cs| && k != i ==> r[k] == cs[k]
    ensures r[i].interaction == ActivatorInteraction(cs, cs[i].interaction, cs[i].activators)
  {
    cs[i := cs[i].(interaction := ActivatorInteraction(cs, cs[i].interaction, cs[i].activators))]
  }

  /** The reading of the activator rule in which a card is interactable only
      while none of its activators is closed. */
  predicate NoActivatorClosed(cs: seq<Card>, acts: seq<nat>)
    requires IndicesIn(acts, |cs|)
  {
    forall k :: 0 <= k < |acts| ==> cs[acts[k]].status != Closed
  }

  /** With a single activator the last-wins pass and the none-closed reading agree. */
  lemma SingleActivatorAgrees(cs: seq<Card>, cur: InteractionState, a: nat)
    requires a < |cs| && cur != Hidden
    ensures ActivatorInteraction(cs, cur, [a]) == if NoActivatorClosed(cs, [a]) then Active else Inactive
  {
    assert [a][0] == a;
  }

  /** With two activators they disagree: the first closed, the last opened
      leaves the card Active. */
  lemma TwoActivatorsDisagree(cs: seq<Card>, a: nat, b: nat)
    requires a < |cs| && b < |cs| && cs[a].status == Closed && cs[b].status == Opened
    ensures !NoActivatorClosed(cs, [a, b])
    ensures ActivatorInteraction(cs, Active, [a, b]) == Active
  {
    assert [a, b][0] == a;
  }

  /** Mouse buttons a card can be clicked with. */
  datatype Button = Left | Right | Middle

  /** What a click on a card leads to. */
  datatype ClickAction = Ignore | Zoom | Flip

  /** Routing of a click on a card in interaction state `st`. */
  function ClickDispatch(st: InteractionState, b: Button): (a: ClickAction)
    ensures st == Hidden ==> a == Ignore
    ensures a == Zoom <==> st != Hidden && b == Left
    ensures a == Flip <==> st == Active && b == Right
  {
    if st == Hidden then Ignore
    else if b == Left then Zoom
    else if st == Active && b == Right then Flip
    else Ignore
  }
}
