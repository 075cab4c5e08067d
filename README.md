# Death at the Ball — a Dafny model of the card board and the camera

This project models the game logic of *Death at the Ball*, a detective
board game built from cards. Each card is turned face up (opened) or face
down (closed) with a flip animation. Cards are linked in three ways:

- a card can hide or reveal other cards (its *hide-dependents*);
- a card can force other cards open while it is itself opened (its
  *open-dependents*), with a reference counter on each dependent;
- a card can be gated by *activator* cards.

Opening a budgeted card spends one opening from a fixed reveal budget.
When the budget runs out, a set of special cards becomes active. A camera
moves between a full view of the board, free movement and a zoom on one
card, and it keeps an undo history of at most ten framings.

The model has six modules:

- `CardTypes` holds the card record. The cards live in one arena and refer
  to one another by index.
- `Game` holds the reveal budget: the `GameManager` class and the functions
  that specify it.
- `CardFlip` holds the flip protocol as functions on the arena. A flip
  begins (`BeginFlipStep`) and later completes (`CompleteFlipStep`). Then
  come the hide and open propagations, the activator pass and click
  dispatch.
- `RefCount` holds the bookkeeping invariant `RefCounted`: every card's
  counter equals the number of times opened (or closing) cards list it as
  an open-dependent. Its lemmas show that every operation keeps this
  invariant, and what the invariant guarantees.
- `Camera` holds the camera state machine: the `CameraController` class and
  its specification functions.
- `CardBoard` holds the `Board` class. It updates an `array<Card>` in place,
  with one method per method of the card script, each proved against its
  `CardFlip` function. It also proves that every interleaving of flip
  starts, flip requests, animation ends and frames keeps the board invariant.

A flip animation, and a camera transition, is split in two. The start is
everything before the first frame. The end is everything after the last
frame. The end is an explicit call. A card whose status is `Opening` or
`Closing` is a card whose animation is in flight. The camera keeps its
transitions in flight in a queue, oldest first. They all last the same
time, so they end in that order.

Where the code departs from the rule it evidently intends, the model follows
the code:

- Activators (Card.cs:94-106): each listed activator overwrites the state
  in turn, so the *last* activator decides. It is not "inactive if any
  activator is closed". `CardFlip.TwoActivatorsDisagree` exhibits the
  difference.
- Budget (Card.cs:151 and GameManager.cs:43-58): the budget is checked when
  a flip starts but spent only when the flip completes.
- Open cascade (Card.cs:119-142): the cascade does not recurse at once. A
  forced dependent only starts its own flip, and its propagation runs when
  that flip completes. No visited set is needed.
- Releasing a dependent (Card.cs:134): the code checks
  `NumAddictions <= 1` before decrementing, rather than testing for zero
  after.
- Camera lock (CameraController.cs:125-129): releasing the middle button in
  free movement frees the lock even while a zoom is in flight. A second
  one-shot transition can then start beside the first
  (`Camera.ReleaseLetsTransitionsOverlap`).
- Full-view key (CameraController.cs:91-95, 217-223, 189-190): the `F` key
  saves the framing even when the camera is busy, and `SetFullView` saves it
  twice more, once itself and once through its transition.
- Zoom size (Card.cs:226 and CameraController.cs:163): the card passes a
  zoom size that the camera's one-argument `ToggleZoom` does not take. The
  model uses the camera's rule, which always zooms to its fixed zoomed
  size. There is no group-zoom state.

## Model

| member | source | states |
|---|---|---|
| CardTypes.SetInteraction | Assets/MyGame/Scripts/Card.cs:28-39 | assigning a card's interaction state changes that card's interaction and nothing else in the arena |
| Game.InitialBudget | Assets/MyGame/Scripts/GameManager.cs:28 | the game starts with every opening available, and the budget is in bounds |
| Game.OpenedBudget | Assets/MyGame/Scripts/GameManager.cs:43-58 | a finished opening moves the counter exactly when the card is budgeted and an opening is left, by at most one down; total and special cards unchanged; bounds kept |
| Game.Exhausts | Assets/MyGame/Scripts/GameManager.cs:47-55 | the special cards fire exactly when a budgeted opening takes the counter from 1 to 0 |
| Game.ClosedBudget | Assets/MyGame/Scripts/GameManager.cs:63-73 | a finished closing moves the counter exactly when the card is budgeted and the counter is below the total, by at most one up; bounds kept |
| Game.ActivateAll | Assets/MyGame/Scripts/GameManager.cs:84-92 | activating the special cards changes interaction states only |
| Game.ActivateAllActivates | Assets/MyGame/Scripts/GameManager.cs:84-92 | every listed card ends Active and every other card keeps its state |
| Game.RunInBounds | Assets/MyGame/Scripts/GameManager.cs:43-73 | for any sequence of open and close notifications the counter stays within [0, total] |
| Game.FreeCardsCostNothing | Assets/MyGame/Scripts/GameManager.cs:43-73 | notifications for unbudgeted cards never move the counter and never fire the special cards |
| Game.OpensSpend | Assets/MyGame/Scripts/GameManager.cs:43-58 | k budgeted openings, k no more than remain, spend exactly k; the special cards fire once, exactly when the last opening goes |
| Game.TwentyFourOpenings | Assets/MyGame/Scripts/GameManager.cs:10-73 | with 24 openings: nothing fires after 23; the counter is 0 and the special cards have fired once after 24; one closing afterwards gives back 1 |
| Game.GameManager.constructor | Assets/MyGame/Scripts/GameManager.cs:19-30 | the manager starts with the initial budget |
| Game.GameManager.CanOpenCard | Assets/MyGame/Scripts/GameManager.cs:35-38 | true exactly when an opening is left |
| Game.GameManager.GetRemainingOpenings | Assets/MyGame/Scripts/GameManager.cs:94-97 | returns the counter, which lies within [0, total] while the manager is valid |
| Game.GameManager.OnCardOpened | Assets/MyGame/Scripts/GameManager.cs:43-58 | the new budget is `OpenedBudget`; the arena is `ActivateAll` of the special cards exactly when `Exhausts`, otherwise unchanged |
| Game.GameManager.OnCardClosed | Assets/MyGame/Scripts/GameManager.cs:63-73 | the new budget is `ClosedBudget` |
| Game.GameManager.ActivateSpecialCards | Assets/MyGame/Scripts/GameManager.cs:84-92 | the loop leaves the arena equal to `ActivateAll` of the special cards |
| CardFlip.CommitStatus | Assets/MyGame/Scripts/Card.cs:178 | Opening commits to Opened and Closing commits to Closed |
| CardFlip.BeginFlipStep | Assets/MyGame/Scripts/Card.cs:145-156 | a flip request is ignored while a flip is in flight and refused for a closed budgeted card with no opening left; otherwise Closed becomes Opening and Opened becomes Closing; only that card's status changes |
| CardFlip.BeginFlipWorld | Assets/MyGame/Scripts/Card.cs:145-156 | a flip request asks the budget whether an opening is left and keeps the board well formed |
| CardFlip.HideTarget | Assets/MyGame/Scripts/Card.cs:112-115 | a hide-dependent becomes Hidden under a closed source and Active under an opened one, and keeps its state under a source in flight |
| CardFlip.HideAll | Assets/MyGame/Scripts/Card.cs:108-117 | the hide propagation changes interaction states only |
| CardFlip.HideAllReaches | Assets/MyGame/Scripts/Card.cs:108-117 | one hop: every listed card takes its state from the source's status, and every other card is untouched |
| CardFlip.OpenStep | Assets/MyGame/Scripts/Card.cs:121-141 | one pass of the open propagation keeps every card's setup |
| CardFlip.OpenAll | Assets/MyGame/Scripts/Card.cs:119-142 | the open propagation keeps every card's setup |
| CardFlip.OpenAllFromOpened | Assets/MyGame/Scripts/Card.cs:123-131 | from an opened source, every listed card becomes Active, starts opening if it was closed (budget permitting) and gains one holder per listing; unlisted cards are untouched |
| CardFlip.OpenAllFromClosed | Assets/MyGame/Scripts/Card.cs:132-140 | from any other source, every listed card loses one holder per listing; an opened card with no more holders than listings is hidden and starts closing; unlisted cards are untouched |
| CardFlip.CommitFlip | Assets/MyGame/Scripts/Card.cs:177-187 | the commit sets the committed status; beyond it only interaction states change; the budget is told about budgeted cards only, as an opening or a closing; when that opening exhausts the budget the special cards are activated, and otherwise nothing else changes |
| CardFlip.CompleteFlipStep | Assets/MyGame/Scripts/Card.cs:177-191 | the completion of a flip leaves the card with its committed status, keeps the board well formed and setups unchanged; its budget is the commit's |
| CardFlip.StartStep | Assets/MyGame/Scripts/Card.cs:80-88 | a card whose status equals its initial status only propagates to its hide-dependents; any other card begins a flip, and propagates to its hide-dependents only when that flip is refused; setups are kept |
| CardFlip.ActivatorInteraction | Assets/MyGame/Scripts/Card.cs:94-106 | a hidden card, or one with no activators, keeps its state; otherwise the card is Inactive exactly when its last listed activator is closed, and it is never Hidden |
| CardFlip.UpdateStep | Assets/MyGame/Scripts/Card.cs:94-106 | the activator pass changes only the interaction state of the card itself |
| CardFlip.SingleActivatorAgrees | Assets/MyGame/Scripts/Card.cs:94-106 | with one activator, the last-wins pass gives Active exactly when no activator is closed |
| CardFlip.TwoActivatorsDisagree | Assets/MyGame/Scripts/Card.cs:94-106 | with a closed activator listed before an opened one, the card is Active although an activator is closed |
| CardFlip.ClickDispatch | Assets/MyGame/Scripts/Card.cs:218-232 | a hidden card ignores clicks; the left button zooms exactly when the card is not hidden; the right button flips exactly when the card is active |
| RefCount.InitialCards | Assets/MyGame/Scripts/Card.cs:68 | on a new board every card is closed with a zero counter, and keeps its setup and configured interaction state |
| RefCount.InitialRefCounted | Assets/MyGame/Scripts/Card.cs:68 | the bookkeeping holds on a new board |
| RefCount.RefCountedNonNegative | Assets/MyGame/Scripts/Card.cs:130-139 | under the bookkeeping no counter is negative |
| RefCount.InteractionKeepsRefCounted | Assets/MyGame/Scripts/Card.cs:108-117 | changing interaction states alone keeps the bookkeeping |
| RefCount.StartKeepsRefCounted | Assets/MyGame/Scripts/Card.cs:80-88 | the start of a card keeps the bookkeeping |
| RefCount.BeginFlipKeepsRefCounted | Assets/MyGame/Scripts/Card.cs:145-156 | starting a flip keeps the bookkeeping |
| RefCount.OpenAllMovesCounters | Assets/MyGame/Scripts/Card.cs:119-142 | the open propagation keeps which cards hold dependents and moves each counter by the number of listings: up from an opened source, down from any other |
| RefCount.CommitMovesRefs | Assets/MyGame/Scripts/Card.cs:178 | the commit changes the count of held references to each dependent by its number of listings, in the same direction |
| RefCount.CommitAndPropagateKeepRefCounted | Assets/MyGame/Scripts/Card.cs:177-191 | commit, special-card activation, hide and open propagation in that order keep the bookkeeping |
| RefCount.CompleteFlipKeepsRefCounted | Assets/MyGame/Scripts/Card.cs:177-191 | completing a flip keeps the bookkeeping |
| RefCount.ClosingKeepsDependentIffHeldElsewhere | Assets/MyGame/Scripts/Card.cs:132-140 | when a source finishes closing, an opened dependent stays opened exactly when some other card still holds it; otherwise it starts closing and is hidden |
| RefCount.TwoSourcesKeepDependentOpened | Assets/MyGame/Scripts/Card.cs:132-140 | a dependent held by two sources stays opened when one of them finishes closing |
| Camera.InitialView | Assets/MyGame/Scripts/CameraController.cs:80-82 | the camera starts in full view, free, not panning, with an empty history, nothing in flight, the original framing and a zero zoom target |
| Camera.Push | Assets/MyGame/Scripts/CameraController.cs:141-150 | saving a record keeps the last ten of the history followed by the record; the record is on top |
| Camera.PushCurrent | Assets/MyGame/Scripts/CameraController.cs:141-150 | saving records the current state, size and position and changes nothing else |
| Camera.BeginTransitionStep | Assets/MyGame/Scripts/CameraController.cs:187-192 | a transition saves the framing only if asked, takes the lock and queues its target; the framing is unchanged until it ends |
| Camera.CompleteTransitionStep | Assets/MyGame/Scripts/CameraController.cs:209-213 | the oldest transition commits size and position exactly, sets the committed zoom target and the new state, and frees the lock |
| Camera.UndoStep | Assets/MyGame/Scripts/CameraController.cs:152-161 | undo is ignored with an empty history or while busy; otherwise it pops the last record and returns to it without saving |
| Camera.ToggleZoomStep | Assets/MyGame/Scripts/CameraController.cs:163-185 | ignored while busy; from another view it saves and zooms; zoomed on the same point it undoes; zoomed elsewhere it moves without saving |
| Camera.SetFullViewStep | Assets/MyGame/Scripts/CameraController.cs:217-223 | ignored while busy or in full view; otherwise it saves the framing twice, takes the lock and queues the original framing, changing nothing else |
| Camera.SetFreeViewStep | Assets/MyGame/Scripts/CameraController.cs:225-231 | ignored while busy or in free movement; otherwise it enters free movement at once |
| Camera.FullViewKeyStep | Assets/MyGame/Scripts/CameraController.cs:91-95 | the `F` key saves the framing whatever the lock, then asks for the full view |
| Camera.PanStartStep | Assets/MyGame/Scripts/CameraController.cs:112-118 | in free movement a pan saves the framing and takes the lock; elsewhere nothing happens |
| Camera.MiddleButtonDownStep | Assets/MyGame/Scripts/CameraController.cs:85-118 | outside free movement the middle button does nothing while busy, and otherwise enters free movement; in free movement it saves the framing, takes the lock and starts a pan |
| Camera.PanDragStep | Assets/MyGame/Scripts/CameraController.cs:119-124 | while panning in free movement the camera moves by the cursor's offset; otherwise nothing happens |
| Camera.PanReleaseStep | Assets/MyGame/Scripts/CameraController.cs:125-129 | in free movement the release ends the pan and frees the lock |
| Camera.PushAllKeepsLast | Assets/MyGame/Scripts/CameraController.cs:141-150 | after any pushes the history is the last ten records of what it held followed by what was pushed |
| Camera.TwelvePushes | Assets/MyGame/Scripts/CameraController.cs:141-150 | twelve pushes on an empty history leave the last ten, in order |
| Camera.ZoomTwiceRestores | Assets/MyGame/Scripts/CameraController.cs:163-185 | zooming on a point and again on the same point gives back the history, state, size and position from before, with the lock free |
| Camera.ZoomTwiceWhenFull | Assets/MyGame/Scripts/CameraController.cs:163-185 | with a full history the same double zoom restores the framing but the oldest record has been evicted |
| Camera.StepBounded | Assets/MyGame/Scripts/CameraController.cs:141-150 | every camera event keeps the history within ten records |
| Camera.RunBounded | Assets/MyGame/Scripts/CameraController.cs:141-150 | for any sequence of events the history holds at most ten records |
| Camera.ReleaseLetsTransitionsOverlap | Assets/MyGame/Scripts/CameraController.cs:125-129 | in free movement, pressing and releasing the middle button frees the lock during a zoom, and a second zoom then queues a second transition |
| Camera.CameraController.constructor | Assets/MyGame/Scripts/CameraController.cs:63-83 | the controller starts in `InitialView` |
| Camera.CameraController.PushCurrentState | Assets/MyGame/Scripts/CameraController.cs:141-150 | the new state is `PushCurrent` of the old; the history stays within ten records |
| Camera.CameraController.BeginTransition | Assets/MyGame/Scripts/CameraController.cs:187-192 | the new state is `BeginTransitionStep` of the old |
| Camera.CameraController.CompleteTransition | Assets/MyGame/Scripts/CameraController.cs:209-213 | the new state is `CompleteTransitionStep` of the old |
| Camera.CameraController.UndoLastAction | Assets/MyGame/Scripts/CameraController.cs:152-161 | the new state is `UndoStep` of the old |
| Camera.CameraController.ToggleZoom | Assets/MyGame/Scripts/CameraController.cs:163-185 | the new state is `ToggleZoomStep` of the old |
| Camera.CameraController.SetFullView | Assets/MyGame/Scripts/CameraController.cs:217-223 | the new state is `SetFullViewStep` of the old |
| Camera.CameraController.SetFreeView | Assets/MyGame/Scripts/CameraController.cs:225-231 | the new state is `SetFreeViewStep` of the old |
| Camera.CameraController.OnFullViewKey | Assets/MyGame/Scripts/CameraController.cs:91-95 | the new state is `FullViewKeyStep` of the old |
| Camera.CameraController.OnMiddleButtonDown | Assets/MyGame/Scripts/CameraController.cs:85-118 | the new state is `MiddleButtonDownStep` of the old |
| Camera.CameraController.OnMiddleButtonHeld | Assets/MyGame/Scripts/CameraController.cs:119-124 | the new state is `PanDragStep` of the old |
| Camera.CameraController.OnMiddleButtonUp | Assets/MyGame/Scripts/CameraController.cs:125-129 | the new state is `PanReleaseStep` of the old |
| CardBoard.BoardStep | Assets/MyGame/Scripts/Card.cs:94-192 | starts, flip requests, animation ends and frames keep the board well formed and setups unchanged |
| CardBoard.BoardStepKeepsOk | Assets/MyGame/Scripts/Card.cs:94-192 | one event keeps the board invariant: well formed, exact counters, budget in bounds |
| CardBoard.BoardRunKeepsOk | Assets/MyGame/Scripts/Card.cs:94-192 | for any interleaving of starts, flip requests, animation ends and frames, the counters stay exact and the budget stays within [0, total] |
| CardBoard.FreshBoardKeepsOk | Assets/MyGame/Scripts/Card.cs:68-192 | a new board keeps the invariant under any sequence of events |
| CardBoard.OpeningShowsDependent | Assets/MyGame/Scripts/Card.cs:177-191 | when a card finishes opening it is opened, and each of its hide-dependents is Active |
| CardBoard.ClosingHidesDependent | Assets/MyGame/Scripts/Card.cs:177-191 | when a card finishes closing it is closed, and each of its hide-dependents is Hidden |
| CardBoard.HideFollowsSource | Assets/MyGame/Scripts/Card.cs:80-191 | through the board's events, a hide-dependent is Hidden once its closed source has started, Active once the source has been flipped open, and Hidden again once it has been flipped closed |
| CardBoard.Board.constructor | Assets/MyGame/Scripts/Card.cs:68 | the arena starts as `InitialCards` of the setup, and the board is valid |
| CardBoard.Board.BeginFlip | Assets/MyGame/Scripts/Card.cs:145-156 | the arena becomes `BeginFlipStep` of the old one, asking the manager whether an opening is left |
| CardBoard.Board.UpdateRelatedCardsHide | Assets/MyGame/Scripts/Card.cs:108-117 | the loop leaves the arena equal to `HideAll` of the old one |
| CardBoard.Board.UpdateRelatedCardsOpen | Assets/MyGame/Scripts/Card.cs:119-142 | the loop leaves the arena equal to `OpenAll` of the old one |
| CardBoard.Board.OpenDependent | Assets/MyGame/Scripts/Card.cs:121-141 | one pass leaves the arena equal to `OpenStep` of the old one |
| CardBoard.Board.CommitFlipState | Assets/MyGame/Scripts/Card.cs:177-187 | the arena and the budget become `CommitFlip` of the old ones |
| CardBoard.Board.CompleteFlip | Assets/MyGame/Scripts/Card.cs:177-191 | the arena and the budget become `CompleteFlipStep` of the old ones, and the board stays valid |
| CardBoard.Board.Start | Assets/MyGame/Scripts/Card.cs:80-88 | the arena becomes `StartStep` of the old one, and the board stays valid |
| CardBoard.Board.Update | Assets/MyGame/Scripts/Card.cs:94-106 | the loop leaves the arena equal to `UpdateStep` of the old one, and the board stays valid |
| CardBoard.Board.OnPointerClick | Assets/MyGame/Scripts/Card.cs:218-232 | by `ClickDispatch`: an ignored click changes nothing; a zoom click changes only the camera, by `ToggleZoomStep`; a flip click changes only the arena, by `BeginFlipStep` |

## Left out

- Rendering is not modelled: sprite alphas, outline colours, `UpdateVisibility`, hover handlers and sprite set-up (Card.cs:70-78 and 194-249). It does not affect the logic. The interaction-state setter is modelled without its redraw.
- The flip rotation (Card.cs:159-176) and the camera interpolation loop (CameraController.cs:194-208) are not modelled. They are per-frame floating-point animations. A flip or transition is modelled by its start and its end, and its end is an explicit call.
- Completion order: camera transitions are assumed to end oldest first. They share one duration, and frame timing is not modelled.
- Scroll-wheel zoom damping (CameraController.cs:131-138) is left out. It is floating-point clamping and lerping per frame. A scroll that switches to free movement is the `FreeViewCall` event.
- Input polling (CameraController.cs:85-107): each input becomes its own method or event. The order of several inputs in one frame is not modelled.
- Screen-to-world conversion (CameraController.cs:116-122) becomes the `diff` parameter of a drag.
- The card's zoom point and zoom size (`GetZoomPosTarget`, `GetZoomSizeTarget`, Card.cs:90-92) are vector arithmetic on the scene transform. The zoom point is passed in as a parameter, and the size is not used by the camera.
- Camera.ToggleZoomStep: the same-target test uses exact equality of positions. The source uses the float distance between them being 0, and the model does not capture float rounding.
- Positions and sizes are `real`, not single-precision floats.
- The singletons `Instance`, `Destroy` on a duplicate, camera lookup (CameraController.cs:63-81, GameManager.cs:19-27) and the budget text display (GameManager.cs:75-79) are left out. They are engine plumbing. The board receives its game manager, and a click receives the camera.
- Integer width: `totalOpenings` and the counters are unbounded integers. The budget counter moves by one step within [0, total], so 32-bit wrap-around cannot arise from it.
- LocationCard.cs is not part of this model. It is a card variant with its own propagation to its related cards, written against members (`IsOpen`, `IsHidden`, `isFlipping`) that Card.cs does not declare.
- QRCodeToggle.cs is not part of this model. It is an independent image toggle.
- A non-positive `flipDuration` or `zoomDuration` (Card.cs:169, CameraController.cs:198): the animation loop then never yields, so the end of the flip or transition runs at once inside the call that starts it, and a cascade of forced flips recurses. The model always keeps the start and the end of an animation as two separate events.
