/** The reference counter of open-dependencies. A card's `numAddictions`
    counts the opened cards that list it in their `relatedOpen`: the counter
    is raised when such a source finishes opening and lowered when it
    finishes closing. `RefCounted` states that bookkeeping as an invariant of
    the arena, and the lemmas below show that every card operation keeps it
    and what it guarantees: a dependent stays opened exactly as long as some
    other source still holds it. */
module RefCount {
  import opened CardTypes
  import opened Game
  import opened CardFlip

  /** How many times card `c` holds card `d` open. */
  function Contribution(c: Card, d: nat): nat {
    if HoldsDependents(c.status) then Count(c.relatedOpen, d) else 0
  }

  /** Sum of the contributions to `d` of the first `n` cards. */
  function RefsUpTo(cs: seq<Card>, n: nat, d: nat): nat
    requires n <= |cs|
    decreases n
  {
    if n == 0 then 0 else RefsUpTo(cs, n - 1, d) + Contribution(cs[n - 1], d)
  }

  /** How many times card `d` is held open by the cards of the arena. */
  function Refs(cs: seq<Card>, d: nat): nat {
    RefsUpTo(cs, |cs|, d)
  }

  /** Every card's counter equals the number of times it is held open. */
  predicate RefCounted(cs: seq<Card>) {
    forall d :: 0 <= d < |cs| ==> cs[d].numAddictions == Refs(cs, d)
  }

  /** `cs'` has the setup of `cs`, and each card holds its dependents in both or in neither. */
  predicate HoldersKept(cs: seq<Card>, cs': seq<Card>) {
    SetupKept(cs, cs') &&
    forall k :: 0 <= k < |cs| ==> HoldsDependents(cs[k].status) == HoldsDependents(cs'[k].status)
  }

  lemma {:induction false} RefsUpToKept(cs: seq<Card>, cs': seq<Card>, n: nat, d: nat)
    requires HoldersKept(cs, cs') && n <= |cs|
    ensures RefsUpTo(cs, n, d) == RefsUpTo(cs', n, d)
    decreases n
  {
    if n > 0 {
      RefsUpToKept(cs, cs', n - 1, d);
      assert SameSetup(cs[n - 1], cs'[n - 1]);
    }
  }

  /** Changing only which status a card has, inside or outside the holding
      states, and nothing of the setup, does not change any count. */
  lemma RefsKept(cs: seq<Card>, cs': seq<Card>)
    requires HoldersKept(cs, cs')
    ensures forall d :: Refs(cs, d) == Refs(cs', d)
  {
    forall d ensures Refs(cs, d) == Refs(cs', d) {
      RefsUpToKept(cs, cs', |cs|, d);
    }
  }

  lemma {:induction false} RefsUpToUpdate(cs: seq<Card>, i: nat, c: Card, n: nat, d: nat)
    requires i < |cs| && n <= |cs|
    ensures RefsUpTo(cs[i := c], n, d) + (if i < n then Contribution(cs[i], d) else 0)
         == RefsUpTo(cs, n, d) + (if i < n then Contribution(c, d) else 0)
    decreases n
  {
    if n > 0 {
      RefsUpToUpdate(cs, i, c, n - 1, d);
    }
  }

  lemma {:induction false} RefsUpToOne(cs: seq<Card>, s: nat, n: nat, d: nat)
    requires s < n <= |cs|
    ensures RefsUpTo(cs, n, d) >= Contribution(cs[s], d)
    decreases n
  {
    if s < n - 1 {
      RefsUpToOne(cs, s, n - 1, d);
    }
  }

  lemma {:induction false} RefsUpToTwo(cs: seq<Card>, s1: nat, s2: nat, n: nat, d: nat)
    requires s1 != s2 && s1 < n && s2 < n && n <= |cs|
    ensures RefsUpTo(cs, n, d) >= Contribution(cs[s1], d) + Contribution(cs[s2], d)
    decreases n
  {
    if n - 1 == s1 {
      RefsUpToOne(cs, s2, n - 1, d);
    } else if n - 1 == s2 {
      RefsUpToOne(cs, s1, n - 1, d);
    } else {
      RefsUpToTwo(cs, s1, s2, n - 1, d);
    }
  }

  lemma {:induction false} RefsUpToOnly(cs: seq<Card>, s: nat, n: nat, d: nat)
    requires s < |cs| && n <= |cs|
    requires forall k :: 0 <= k < |cs| && k != s ==> Contribution(cs[k], d) == 0
    ensures RefsUpTo(cs, n, d) == if s < n then Contribution(cs[s], d) else 0
    decreases n
  {
    if n > 0 {
      RefsUpToOnly(cs, s, n - 1, d);
    }
  }

  /** Card `d` is held by some card other than `s` exactly when its count
      exceeds what `s` alone contributes. */
  lemma HeldByAnotherIff(cs: seq<Card>, s: nat, d: nat)
    requires s < |cs|
    ensures Refs(cs, d) >= Contribution(cs[s], d)
    ensures (exists t :: 0 <= t < |cs| && t != s && Contribution(cs[t], d) > 0)
        <==> Refs(cs, d) > Contribution(cs[s], d)
  {
    RefsUpToOne(cs, s, |cs|, d);
    if exists t :: 0 <= t < |cs| && t != s && Contribution(cs[t], d) > 0 {
      var t :| 0 <= t < |cs| && t != s && Contribution(cs[t], d) > 0;
      RefsUpToTwo(cs, s, t, |cs|, d);
    } else {
      RefsUpToOnly(cs, s, |cs|, d);
    }
  }

  /** The arena when the board starts: every card closed, no card held. */
  function InitialCards(setup: seq<Card>): (cs: seq<Card>)
    ensures SetupKept(setup, cs)
    ensures forall k :: 0 <= k < |cs| ==> cs[k].status == Closed && cs[k].numAddictions == 0
    ensures forall k :: 0 <= k < |cs| ==> cs[k].interaction == setup[k].interaction
  {
    seq(|setup|, k requires 0 <= k < |setup| => setup[k].(status := Closed, numAddictions := 0))
  }

  lemma {:induction false} NothingHeldUpTo(cs: seq<Card>, n: nat, d: nat)
    requires n <= |cs| && forall k :: 0 <= k < |cs| ==> cs[k].status == Closed
    ensures RefsUpTo(cs, n, d) == 0
    decreases n
  {
    if n > 0 {
      NothingHeldUpTo(cs, n - 1, d);
    }
  }

  /** The bookkeeping holds when the board starts. */
  lemma InitialRefCounted(setup: seq<Card>)
    ensures RefCounted(InitialCards(setup))
  {
    var cs := InitialCards(setup);
    forall d | 0 <= d < |cs| ensures cs[d].numAddictions == Refs(cs, d) {
      NothingHeldUpTo(cs, |cs|, d);
    }
  }

  /** Under the bookkeeping no counter is ever negative. */
  lemma RefCountedNonNegative(cs: seq<Card>, d: nat)
    requires RefCounted(cs) && d < |cs|
    ensures cs[d].numAddictions >= 0
  {
  }

  /** Changes to interaction states alone keep the holders and the counters. */
  lemma OnlyInteractionHolders(cs: seq<Card>, cs': seq<Card>)
    requires OnlyInteraction(cs, cs')
    ensures HoldersKept(cs, cs')
    ensures forall k :: 0 <= k < |cs| ==> cs'[k].numAddictions == cs[k].numAddictions
  {
    forall k | 0 <= k < |cs| ensures SameSetup(cs[k], cs'[k]) {
      assert cs'[k] == cs[k].(interaction := cs'[k].interaction);
    }
  }

  /** Changes to interaction states alone keep the bookkeeping. */
  lemma InteractionKeepsRefCounted(cs: seq<Card>, cs': seq<Card>)
    requires OnlyInteraction(cs, cs') && RefCounted(cs)
    ensures RefCounted(cs')
  {
    OnlyInteractionHolders(cs, cs');
    RefsKept(cs, cs');
  }

  /** Starting a flip keeps the bookkeeping. */
  lemma BeginFlipKeepsRefCounted(cs: seq<Card>, i: nat, canOpen: bool)
    requires i < |cs| && RefCounted(cs)
    ensures RefCounted(BeginFlipStep(cs, i, canOpen))
  {
    var r := BeginFlipStep(cs, i, canOpen);
    assert HoldersKept(cs, r) by {
      assert SameSetup(cs[i], r[i]);
    }
    RefsKept(cs, r);
  }

  /** The start of a card keeps the bookkeeping: at most a flip starts, and
      then only interaction states change. */
  lemma StartKeepsRefCounted(cs: seq<Card>, i: nat, canOpen: bool)
    requires WellFormed(cs) && i < |cs| && RefCounted(cs)
    ensures RefCounted(StartStep(cs, i, canOpen))
  {
    var cs1 := if cs[i].status != cs[i].initialStatus then BeginFlipStep(cs, i, canOpen) else cs;
    BeginFlipKeepsRefCounted(cs, i, canOpen);
    assert SameSetup(cs[i], cs1[i]);
    InteractionKeepsRefCounted(cs1, HideAll(cs1, i, cs1[i].relatedHide));
  }

  /** The open propagation keeps the holders and moves the counter of each
      dependent by the number of times it is listed: up from an opened source,
      down from any other. */
  lemma OpenAllMovesCounters(cs: seq<Card>, src: nat, ds: seq<nat>, canOpen: bool)
    requires src < |cs| && IndicesIn(ds, |cs|)
    ensures HoldersKept(cs, OpenAll(cs, src, ds, canOpen))
    ensures forall k :: 0 <= k < |cs| ==>
      OpenAll(cs, src, ds, canOpen)[k].numAddictions
        == cs[k].numAddictions + (if cs[src].status == Opened then Count(ds, k) as int else -(Count(ds, k) as int))
  {
    if cs[src].status == Opened {
      OpenAllFromOpened(cs, src, ds, canOpen);
    } else {
      OpenAllFromClosed(cs, src, ds, canOpen);
    }
  }

  /** The commit of card `i` moves the count of each of its dependents by the
      number of times it is listed. */
  lemma CommitMovesRefs(cs: seq<Card>, i: nat, d: nat)
    requires i < |cs| && IsTransient(cs[i].status)
    ensures Refs(cs[i := cs[i].(status := CommitStatus(cs[i].status))], d)
         == Refs(cs, d) + (if cs[i].status == Opening then Count(cs[i].relatedOpen, d) as int else -(Count(cs[i].relatedOpen, d) as int))
  {
    RefsUpToUpdate(cs, i, cs[i].(status := CommitStatus(cs[i].status)), |cs|, d);
  }

  /** The commit of card `i`, then any change to interaction states alone
      (the special cards), then the hide and the open propagation of `i` keep
      the bookkeeping: the commit changes the count of each dependent by the
      number of times it is listed, and the open propagation moves each
      counter by exactly that much. */
  lemma CommitAndPropagateKeepRefCounted(cs: seq<Card>, i: nat, cs1: seq<Card>, canOpen: bool)
    requires WellFormed(cs) && i < |cs| && IsTransient(cs[i].status) && RefCounted(cs)
    requires OnlyInteraction(cs[i := cs[i].(status := CommitStatus(cs[i].status))], cs1)
    ensures RefCounted(OpenAll(HideAll(cs1, i, cs[i].relatedHide), i, cs[i].relatedOpen, canOpen))
  {
    var c := cs[i];
    var cs0 := cs[i := c.(status := CommitStatus(c.status))];
    var cs2 := HideAll(cs1, i, c.relatedHide);
    var cs3 := OpenAll(cs2, i, c.relatedOpen, canOpen);
    OnlyInteractionHolders(cs0, cs1);
    OnlyInteractionHolders(cs1, cs2);
    OpenAllMovesCounters(cs2, i, c.relatedOpen, canOpen);
    RefsKept(cs0, cs1);
    RefsKept(cs1, cs2);
    RefsKept(cs2, cs3);
    assert cs2[i].status == Opened <==> c.status == Opening;
    forall d | 0 <= d < |cs3| ensures cs3[d].numAddictions == Refs(cs3, d) {
      CommitMovesRefs(cs, i, d);
      assert cs0[d].numAddictions == cs[d].numAddictions;
    }
  }

  /** Completing a flip keeps the bookkeeping. */
  lemma CompleteFlipKeepsRefCounted(w: World, i: nat)
    requires WorldOk(w) && i < |w.cards| && IsTransient(w.cards[i].status)
    requires RefCounted(w.cards)
    ensures RefCounted(CompleteFlipStep(w, i).cards)
  {
    var w1 := CommitFlip(w, i);
    assert SameSetup(w.cards[i], w1.cards[i]);
    CommitAndPropagateKeepRefCounted(w.cards, i, w1.cards, w1.budget.remaining > 0);
  }

  /** Reference counting, not a flag: when source `s` finishes closing, an
      opened card it holds stays opened exactly when some other card still
      holds it; otherwise it starts closing and is hidden. */
  lemma ClosingKeepsDependentIffHeldElsewhere(w: World, s: nat, d: nat)
    requires WorldOk(w) && s < |w.cards| && d < |w.cards|
    requires RefCounted(w.cards)
    requires w.cards[s].status == Closing && d in w.cards[s].relatedOpen
    requires w.cards[d].status == Opened
    ensures CompleteFlipStep(w, s).cards[d].status == Opened
        <==> exists t :: 0 <= t < |w.cards| && t != s && Contribution(w.cards[t], d) > 0
    ensures CompleteFlipStep(w, s).cards[d].status != Opened
        ==> CompleteFlipStep(w, s).cards[d].status == Closing && CompleteFlipStep(w, s).cards[d].interaction == Hidden
  {
    var c := w.cards[s];
    var w1 := CommitFlip(w, s);
    var cs2 := HideAll(w1.cards, s, c.relatedHide);
    var canOpen := w1.budget.remaining > 0;
    assert SameSetup(c, w1.cards[s]);
    assert cs2[s].status == Closed;
    OpenAllFromClosed(cs2, s, c.relatedOpen, canOpen);
    assert d != s;
    assert cs2[d].status == Opened && cs2[d].numAddictions == w.cards[d].numAddictions;
    HeldByAnotherIff(w.cards, s, d);
  }

  /** The scenario of two sources: a card held by two opened sources stays
      opened when one of them finishes closing. */
  lemma TwoSourcesKeepDependentOpened(w: World, s1: nat, s2: nat, d: nat)
    requires WorldOk(w) && s1 < |w.cards| && s2 < |w.cards| && d < |w.cards| && s1 != s2
    requires RefCounted(w.cards)
    requires w.cards[s1].status == Closing && d in w.cards[s1].relatedOpen
    requires w.cards[s2].status == Opened && d in w.cards[s2].relatedOpen
    requires w.cards[d].status == Opened
    ensures CompleteFlipStep(w, s1).cards[d].status == Opened
  {
    ClosingKeepsDependentIffHeldElsewhere(w, s1, d);
    assert Contribution(w.cards[s2], d) > 0;
  }
}
