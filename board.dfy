/** The board: the card arena as an array of card records, the game manager
    that owns the reveal budget, and the card behaviour written as methods
    that update the arena in place. Each method is proved against the step
    function of the same name in `CardFlip`, and the public entry points keep
    the arena well formed and its reference counters exact. */
module CardBoard {
  import opened CardTypes
  import opened Game
  import opened CardFlip
  import opened RefCount
  import Camera

  /** The invariant of a running board. */
  predicate BoardOk(w: World) {
    WorldOk(w) && RefCounted(w.cards) && InBounds(w.budget)
  }

  /** The events that drive the cards: the start of a card, a flip request (a
      click or a forced flip), the end of the flip animation of a card, and one
      frame of a card's activator pass. Events on cards that do not exist are
      ignored, and so is the end of an animation that is not in flight. */
  datatype BoardEvent = Start(card: nat) | RequestFlip(card: nat) | FlipEnds(card: nat) | Frame(card: nat)

  function BoardStep(w: World, e: BoardEvent): (r: World)
    requires WorldOk(w)
    ensures WorldOk(r) && SetupKept(w.cards, r.cards)
  {
    if e.card >= |w.cards| then w
    else match e
      case Start(i) => World(StartStep(w.cards, i, w.budget.remaining > 0), w.budget)
      case RequestFlip(i) => BeginFlipWorld(w, i)
      case FlipEnds(i) => if IsTransient(w.cards[i].status) then CompleteFlipStep(w, i) else w
      case Frame(i) => World(UpdateStep(w.cards, i), w.budget)
  }

  function BoardRun(w: World, es: seq<BoardEvent>): (r: World)
    requires WorldOk(w)
    ensures WorldOk(r)
    decreases |es|
  {
    if es == [] then w else BoardStep(BoardRun(w, es[..|es| - 1]), es[|es| - 1])
  }

  /** One event keeps the board invariant. */
  lemma BoardStepKeepsOk(w: World, e: BoardEvent)
    requires BoardOk(w)
    ensures BoardOk(BoardStep(w, e))
  {
    if e.card < |w.cards| {
      match e
      case Start(i) =>
        StartKeepsRefCounted(w.cards, i, w.budget.remaining > 0);
      case RequestFlip(i) =>
        BeginFlipKeepsRefCounted(w.cards, i, w.budget.remaining > 0);
      case FlipEnds(i) =>
        if IsTransient(w.cards[i].status) {
          CompleteFlipKeepsRefCounted(w, i);
        }
      case Frame(i) =>
        InteractionKeepsRefCounted(w.cards, UpdateStep(w.cards, i));
    }
  }

  /** Whatever the order of starts, clicks, animation ends and frames, the board keeps
      its invariant: every counter equals the number of opened sources holding
      the card, and the budget stays within [0, total]. */
  lemma {:induction false} BoardRunKeepsOk(w: World, es: seq<BoardEvent>)
    requires BoardOk(w)
    ensures BoardOk(BoardRun(w, es))
    ensures |BoardRun(w, es).cards| == |w.cards| && BoardRun(w, es).budget.total == w.budget.total
    decreases |es|
  {
    if es != [] {
      BoardRunKeepsOk(w, es[..|es| - 1]);
      BoardStepKeepsOk(BoardRun(w, es[..|es| - 1]), es[|es| - 1]);
    }
  }

  /** A fresh board keeps the invariant from its first event on. */
  lemma FreshBoardKeepsOk(setup: seq<Card>, b: Budget, es: seq<BoardEvent>)
    requires WellFormed(setup) && IndicesIn(b.toActivate, |setup|) && InBounds(b)
    ensures WorldOk(World(InitialCards(setup), b))
    ensures BoardOk(BoardRun(World(InitialCards(setup), b), es))
  {
    SetupKeptWellFormed(setup, InitialCards(setup));
    InitialRefCounted(setup);
    BoardRunKeepsOk(World(InitialCards(setup), b), es);
  }

  /** When a card finishes opening it stays opened, and every card it hides
      or reveals is active. */
  lemma OpeningShowsDependent(w: World, x: nat, y: nat)
    requires WorldOk(w) && x < |w.cards| && y < |w.cards|
    requires w.cards[x].status == Opening
    requires y in w.cards[x].relatedHide
    ensures CompleteFlipStep(w, x).cards[x].status == Opened
    ensures CompleteFlipStep(w, x).cards[y].interaction == Active
  {
    var c := w.cards[x];
    var v := CommitFlip(w, x);
    assert v.cards[x].relatedHide == c.relatedHide && v.cards[x].relatedOpen == c.relatedOpen;
    HideAllReaches(v.cards, x, c.relatedHide);
    var h := HideAll(v.cards, x, c.relatedHide);
    OpenAllFromOpened(h, x, c.relatedOpen, v.budget.remaining > 0);
  }

  /** When a card finishes closing it stays closed, and every card it hides
      or reveals is hidden. */
  lemma ClosingHidesDependent(w: World, x: nat, y: nat)
    requires WorldOk(w) && x < |w.cards| && y < |w.cards|
    requires w.cards[x].status == Closing
    requires y in w.cards[x].relatedHide
    ensures CompleteFlipStep(w, x).cards[x].status == Closed
    ensures CompleteFlipStep(w, x).cards[y].interaction == Hidden
  {
    var c := w.cards[x];
    var v := CommitFlip(w, x);
    assert v.cards[x].relatedHide == c.relatedHide && v.cards[x].relatedOpen == c.relatedOpen;
    HideAllReaches(v.cards, x, c.relatedHide);
    var h := HideAll(v.cards, x, c.relatedHide);
    OpenAllFromClosed(h, x, c.relatedOpen, v.budget.remaining > 0);
    ReleasedAgain(h[y], 0);
  }

  /** A hide-dependent follows its source: hidden once its closed source has
      started, active once the source has been flipped open, hidden again once
      it has been flipped closed. */
  lemma HideFollowsSource(w: World, x: nat, y: nat)
    requires WorldOk(w) && x < |w.cards| && y < |w.cards|
    requires w.cards[x].status == Closed && w.cards[x].initialStatus == Closed
    requires y in w.cards[x].relatedHide
    requires !w.cards[x].costsPoint || w.budget.remaining > 0
    ensures var w0 := BoardStep(w, Start(x));
            var w1 := BoardStep(w0, RequestFlip(x));
            var w2 := BoardStep(w1, FlipEnds(x));
            var w3 := BoardStep(w2, RequestFlip(x));
            var w4 := BoardStep(w3, FlipEnds(x));
            w0.cards[y].interaction == Hidden &&
            w1.cards[x].status == Opening &&
            w2.cards[x].status == Opened && w2.cards[y].interaction == Active &&
            w3.cards[x].status == Closing &&
            w4.cards[x].status == Closed && w4.cards[y].interaction == Hidden
  {
    var c := w.cards[x];
    HideAllReaches(w.cards, x, c.relatedHide);
    var w0 := BoardStep(w, Start(x));
    assert w0.cards == HideAll(w.cards, x, c.relatedHide);
    assert SameSetup(c, w0.cards[x]) && w0.cards[x].status == Closed;
    var w1 := BoardStep(w0, RequestFlip(x));
    assert w1 == BeginFlipWorld(w0, x);
    assert SameSetup(c, w1.cards[x]);
    OpeningShowsDependent(w1, x, y);
    var w2 := BoardStep(w1, FlipEnds(x));
    assert w2 == CompleteFlipStep(w1, x);
    var w3 := BoardStep(w2, RequestFlip(x));
    assert w3 == BeginFlipWorld(w2, x);
    assert SameSetup(c, w2.cards[x]) && SameSetup(c, w3.cards[x]);
    ClosingHidesDependent(w3, x, y);
  }

  class Board {
    const cards: array<Card>
    const game: GameManager

    function Model(): World
      reads this, cards, game
    {
      World(cards[..], game.Model())
    }

    /** Every reference resolves and the budget is within its bounds. */
    ghost predicate Linked()
      reads this, cards, game
    {
      WorldOk(Model()) && game.Valid()
    }

    /** A running board: linked, and every reference counter is exact. */
    ghost predicate Valid()
      reads this, cards, game
    {
      Linked() && RefCounted(cards[..])
    }

    /** A new board: every card closed with no holder, the budget as given. */
    constructor (setup: seq<Card>, g: GameManager)
      requires WellFormed(setup) && IndicesIn(g.cardsToActivate, |setup|) && g.Valid()
      ensures game == g && fresh(cards)
      ensures cards[..] == InitialCards(setup)
      ensures Valid()
    {
      game := g;
      cards := new Card[|setup|](k requires 0 <= k < |setup| => setup[k].(status := Closed, numAddictions := 0));
      new;
      assert cards[..] == InitialCards(setup);
      SetupKeptWellFormed(setup, InitialCards(setup));
      InitialRefCounted(setup);
    }

    /** A flip request on card `i`: ignored while a flip is in flight, refused
        for a closed budgeted card when no opening is left, otherwise the card
        starts opening or closing. */
    method BeginFlip(i: nat)
      requires i < cards.Length
      modifies cards
      ensures cards[..] == BeginFlipStep(old(cards[..]), i, game.remainingOpenings > 0)
    {
      var c := cards[i];
      if c.status == Opening || c.status == Closing {
        return;
      }
      if c.status == Closed && c.costsPoint {
        var canOpen := game.CanOpenCard();
        if !canOpen {
          return;
        }
      }
      cards[i] := c.(status := if c.status == Closed then Opening else Closing);
    }

    /** Sets the interaction state of every hide-dependent of card `i` from
        the status of `i`. */
    method UpdateRelatedCardsHide(i: nat)
      requires i < cards.Length && IndicesIn(cards[i].relatedHide, cards.Length)
      modifies cards
      ensures cards[..] == HideAll(old(cards[..]), i, old(cards[i]).relatedHide)
    {
      var ds := cards[i].relatedHide;
      ghost var cs := cards[..];
      var j := 0;
      while j < |ds|
        invariant 0 <= j <= |ds|
        invariant cards[..] == HideAll(cs, i, ds[..j])
      {
        var d := ds[j];
        var st := cards[i].status;
        HideAllPrefix(cs, i, ds, j);
        if st == Closed {
          cards[d] := cards[d].(interaction := Hidden);
        } else if st == Opened {
          cards[d] := cards[d].(interaction := Active);
        }
        j := j + 1;
      }
      assert ds[..j] == ds;
    }

    /** The open propagation of card `i`: while `i` is opened every dependent
        becomes active, starts opening if closed, and gains one holder;
        otherwise every dependent loses one holder, and an opened dependent
        with at most one holder is hidden and starts closing. */
    method UpdateRelatedCardsOpen(i: nat)
      requires i < cards.Length && IndicesIn(cards[i].relatedOpen, cards.Length)
      modifies cards
      ensures cards[..] == OpenAll(old(cards[..]), i, old(cards[i]).relatedOpen, game.remainingOpenings > 0)
    {
      var ds := cards[i].relatedOpen;
      ghost var cs := cards[..];
      ghost var canOpen := game.remainingOpenings > 0;
      var j := 0;
      while j < |ds|
        invariant 0 <= j <= |ds|
        invariant cards[..] == OpenAll(cs, i, ds[..j], canOpen)
      {
        OpenAllPrefix(cs, i, ds, j, canOpen);
        OpenDependent(i, ds[j]);
        j := j + 1;
      }
      assert ds[..j] == ds;
    }

    /** One pass of the open propagation of card `i`, for dependent `d`. */
    method OpenDependent(i: nat, d: nat)
      requires i < cards.Length && d < cards.Length
      modifies cards
      ensures cards[..] == OpenStep(old(cards[..]), i, d, game.remainingOpenings > 0)
    {
      ghost var cs := cards[..];
      ghost var canOpen := game.remainingOpenings > 0;
      if cards[i].status == Opened {
        cards[d] := cards[d].(interaction := Active);
        ghost var c1 := cards[..];
        assert c1 == SetInteraction(cs, d, Active);
        if cards[d].status == Closed {
          BeginFlip(d);
        }
        assert cards[..] == if c1[d].status == Closed then BeginFlipStep(c1, d, canOpen) else c1;
        cards[d] := cards[d].(numAddictions := cards[d].numAddictions + 1);
      } else {
        if cards[d].status == Opened && cards[d].numAddictions <= 1 {
          cards[d] := cards[d].(interaction := Hidden);
          assert cards[..] == SetInteraction(cs, d, Hidden);
          BeginFlip(d);
        }
        cards[d] := cards[d].(numAddictions := cards[d].numAddictions - 1);
      }
    }

    /** The status commit of card `i` at the end of its flip animation, and
        the notification of the budget for a budgeted card. */
    method CommitFlipState(i: nat)
      requires Linked() && i < cards.Length && IsTransient(cards[i].status)
      modifies cards, game
      ensures Linked()
      ensures Model() == CommitFlip(old(Model()), i)
    {
      ghost var w := Model();
      var c := cards[i];
      cards[i] := c.(status := if c.status == Opening then Opened else Closed);
      if cards[i].status == Opened && cards[i].costsPoint {
        game.OnCardOpened(cards, cards[i]);
      }
      if cards[i].status == Closed && cards[i].costsPoint {
        game.OnCardClosed(cards[i]);
      }
      assert Model() == CommitFlip(w, i);
    }

    /** The end of the flip animation of card `i`: the status is committed,
        the budget is told, and both propagations run. The board stays valid. */
    method CompleteFlip(i: nat)
      requires Valid() && i < cards.Length && IsTransient(cards[i].status)
      modifies cards, game
      ensures Valid()
      ensures Model() == CompleteFlipStep(old(Model()), i)
    {
      ghost var w := Model();
      CommitFlipState(i);
      ghost var src := cards[i];
      assert IndicesIn(src.relatedHide, cards.Length) && IndicesIn(src.relatedOpen, cards.Length);
      UpdateRelatedCardsHide(i);
      assert cards[i].relatedOpen == src.relatedOpen;
      UpdateRelatedCardsOpen(i);
      assert Model() == CompleteFlipStep(w, i);
      CompleteFlipKeepsRefCounted(w, i);
    }

    /** The start of card `i`: flipped when its status differs from its
        initial status, then its hide-dependents follow it. */
    method Start(i: nat)
      requires Valid() && i < cards.Length
      modifies cards
      ensures Valid()
      ensures cards[..] == StartStep(old(cards[..]), i, game.remainingOpenings > 0)
    {
      ghost var cs := cards[..];
      if cards[i].status != cards[i].initialStatus {
        BeginFlip(i);
        BeginFlipKeepsRefCounted(cs, i, game.remainingOpenings > 0);
        assert SameSetup(cs[i], cards[i]);
        SetupKeptWellFormed(cs, cards[..]);
      }
      ghost var cs1 := cards[..];
      assert IndicesIn(cards[i].relatedHide, cards.Length);
      UpdateRelatedCardsHide(i);
      SetupKeptWellFormed(cs1, cards[..]);
      InteractionKeepsRefCounted(cs1, cards[..]);
    }

    /** One frame of the activator pass of card `i`: unless hidden, each
        listed activator in turn sets the state, so the last one decides. */
    method Update(i: nat)
      requires Valid() && i < cards.Length
      modifies cards
      ensures Valid()
      ensures cards[..] == UpdateStep(old(cards[..]), i)
    {
      var acts := cards[i].activators;
      assert IndicesIn(acts, cards.Length);
      if cards[i].interaction != Hidden {
        var j := 0;
        while j < |acts|
          invariant 0 <= j <= |acts|
          invariant cards[..] == old(cards[..])[i := old(cards[i]).(interaction := ActivatorInteraction(old(cards[..]), old(cards[i]).interaction, acts[..j]))]
        {
          var a := acts[j];
          if cards[a].status == Closed {
            cards[i] := cards[i].(interaction := Inactive);
          } else {
            cards[i] := cards[i].(interaction := Active);
          }
          j := j + 1;
        }
        assert acts[..j] == acts;
      } else {
        assert cards[..] == UpdateStep(old(cards[..]), i);
      }
      SetupKeptWellFormed(old(cards[..]), cards[..]);
      InteractionKeepsRefCounted(old(cards[..]), cards[..]);
    }

    /** A click on card `i`: ignored while hidden; the left button toggles the
        camera zoom onto the card's zoom point; the right button flips an
        active card. */
    method OnPointerClick(i: nat, button: Button, camera: Camera.CameraController, zoomPoint: Camera.Vec3)
      requires Valid() && i < cards.Length && camera.Valid()
      modifies cards, camera
      ensures Valid() && camera.Valid()
      ensures match ClickDispatch(old(cards[i].interaction), button)
        case Ignore => cards[..] == old(cards[..]) && camera.Model() == old(camera.Model())
        case Zoom => cards[..] == old(cards[..]) &&
                     camera.Model() == Camera.ToggleZoomStep(old(camera.Model()), camera.settings, zoomPoint)
        case Flip => cards[..] == BeginFlipStep(old(cards[..]), i, game.remainingOpenings > 0) &&
                     camera.Model() == old(camera.Model())
    {
      if cards[i].interaction == Hidden {
        return;
      }
      if button == Left {
        camera.ToggleZoom(zoomPoint);
      } else if cards[i].interaction == Active && button == Right {
        ghost var cs := cards[..];
        BeginFlip(i);
        BeginFlipKeepsRefCounted(cs, i, game.remainingOpenings > 0);
        assert SameSetup(cs[i], cards[i]);
        SetupKeptWellFormed(cs, cards[..]);
      }
    }
  }
}
