/** The camera: a state machine over three views with a busy/free lock and a
    bounded undo history. A one-shot transition (zoom, undo, full view) is
    split in two: `BeginTransition` takes the lock and queues the target,
    `CompleteTransition` commits it when the animation ends. Positions and
    sizes are exact values: nothing is interpolated. */
module Camera {

  datatype CameraState = FullView | FreeMovement | Zoomed

  /** The lock that keeps one-shot transitions from overlapping. */
  datatype CameraStateInteraction = Free | Busy

  datatype Vec3 = Vec3(x: real, y: real, z: real)

  /** A snapshot pushed on the undo history. */
  datatype CameraStateRecord = CameraStateRecord(state: CameraState, orthographicSize: real, position: Vec3)

  /** The target of a transition in flight. */
  datatype Transition = Transition(targetSize: real, targetPos: Vec3, newState: CameraState)

  /** Fixed parameters: the zoomed size and the framing the camera starts with. */
  datatype Settings = Settings(zoomedSize: real, originalSize: real, originalPosition: Vec3)

  const MaxHistory: nat := 10

  /** Abstract state of the camera. `pending` holds the transitions in flight,
      oldest first; all run for the same duration, so they end in that order. */
  datatype View = View(
    state: CameraState,
    lock: CameraStateInteraction,
    history: seq<CameraStateRecord>,
    zoomTarget: Vec3,
    size: real,
    position: Vec3,
    panning: bool,
    pending: seq<Transition>)

  /** The camera once it has been set up: full view, free, nothing remembered. */
  function InitialView(s: Settings): (v: View)
    ensures v.state == FullView && v.lock == Free && v.history == [] && v.pending == []
    ensures v.size == s.originalSize && v.position == s.originalPosition
    ensures !v.panning && v.zoomTarget == Vec3(0.0, 0.0, 0.0)
  {
    View(FullView, Free, [], Vec3(0.0, 0.0, 0.0), s.originalSize, s.originalPosition, false, [])
  }

  /** The last `n` elements of `s` (all of them when there are fewer). */
  function LastN<T>(s: seq<T>, n: nat): (r: seq<T>)
    ensures |r| == if |s| <= n then |s| else n
    ensures forall k :: 0 <= k < |r| ==> r[k] == s[|s| - |r| + k]
  {
    if |s| <= n then s else s[|s| - n..]
  }

  /** The history after one record is saved: the oldest is evicted when the
      history is full. */
  function Push(h: seq<CameraStateRecord>, r: CameraStateRecord): (h': seq<CameraStateRecord>)
    ensures |h| <= MaxHistory ==> h' == LastN(h + [r], MaxHistory)
    ensures |h| <= MaxHistory ==> |h'| <= MaxHistory
    ensures h' != [] && h'[|h'| - 1] == r
  {
    if |h| >= MaxHistory then h[1..] + [r] else h + [r]
  }

  function CurrentRecord(v: View): CameraStateRecord {
    CameraStateRecord(v.state, v.size, v.position)
  }

  /** Saving the current framing on the history. */
  function PushCurrent(v: View): (r: View)
    ensures r == v.(history := Push(v.history, CurrentRecord(v)))
  {
    v.(history := Push(v.history, CurrentRecord(v)))
  }

  /** Start of a one-shot transition: save the framing first if asked, take
      the lock, and queue the target. Nothing of the framing changes yet. */
  function BeginTransitionStep(v: View, size: real, pos: Vec3, st: CameraState, needSave: bool): (r: View)
    ensures r.lock == Busy
    ensures r.pending == v.pending + [Transition(size, pos, st)]
    ensures r.history == if needSave then Push(v.history, CurrentRecord(v)) else v.history
    ensures r.state == v.state && r.size == v.size && r.position == v.position
    ensures r.zoomTarget == v.zoomTarget && r.panning == v.panning
  {
    var v1 := if needSave then PushCurrent(v) else v;
    v1.(lock := Busy, pending := v1.pending + [Transition(size, pos, st)])
  }

  /** End of the oldest transition in flight: commit size and position, take
      the position as the committed zoom target, enter the new state and free
      the lock. */
  function CompleteTransitionStep(v: View): (r: View)
    requires v.pending != []
    ensures r.size == v.pending[0].targetSize && r.position == v.pending[0].targetPos
    ensures r.zoomTarget == v.pending[0].targetPos && r.state == v.pending[0].newState
    ensures r.lock == Free && r.pending == v.pending[1..]
    ensures r.history == v.history && r.panning == v.panning
  {
    var t := v.pending[0];
    v.(size := t.targetSize, position := t.targetPos, zoomTarget := t.targetPos,
       state := t.newState, lock := Free, pending := v.pending[1..])
  }

  /** Undo: back to the last saved record, without saving anything. */
  function UndoStep(v: View): (r: View)
    ensures v.history == [] || v.lock == Busy ==> r == v
    ensures v.history != [] && v.lock == Free ==>
      var last := v.history[|v.history| - 1];
      r == BeginTransitionStep(v.(history := v.history[..|v.history| - 1]),
                           last.orthographicSize, last.position, last.state, false)
    ensures |r.history| <= |v.history|
  {
    if |v.history| > 0 && v.lock == Free then
      var last := v.history[|v.history| - 1];
      BeginTransitionStep(v.(history := v.history[..|v.history| - 1]),
                      last.orthographicSize, last.position, last.state, false)
    else v
  }

  /** The point the camera frames when zooming on `p`. */
  function ZoomPoint(p: Vec3): Vec3 {
    Vec3(p.x, p.y, -10.0)
  }

  /** A click that zooms on `p`: from another view it saves the framing and
      zooms; zoomed on the same point it undoes; zoomed elsewhere it moves the
      zoom without saving. */
  function ToggleZoomStep(v: View, s: Settings, p: Vec3): (r: View)
    ensures v.lock == Busy ==> r == v
    ensures v.lock == Free && v.state != Zoomed ==>
      r == BeginTransitionStep(v, s.zoomedSize, ZoomPoint(p), Zoomed, true)
    ensures v.lock == Free && v.state == Zoomed && v.zoomTarget == ZoomPoint(p) ==> r == UndoStep(v)
    ensures v.lock == Free && v.state == Zoomed && v.zoomTarget != ZoomPoint(p) ==>
      r == BeginTransitionStep(v, s.zoomedSize, ZoomPoint(p), Zoomed, false)
  {
    if v.lock == Busy then v
    else
      var target := ZoomPoint(p);
      if v.state != Zoomed then BeginTransitionStep(v, s.zoomedSize, target, Zoomed, true)
      else if v.zoomTarget == target then UndoStep(v)
      else BeginTransitionStep(v, s.zoomedSize, target, Zoomed, false)
  }

  /** Back to the starting framing. The framing is saved twice when this goes
      ahead: once here and once by the transition. */
  function SetFullViewStep(v: View, s: Settings): (r: View)
    ensures v.lock == Busy || v.state == FullView ==> r == v
    ensures v.lock == Free && v.state != FullView ==>
      r.history == Push(Push(v.history, CurrentRecord(v)), CurrentRecord(v)) &&
      r.pending == v.pending + [Transition(s.originalSize, s.originalPosition, FullView)] &&
      r.lock == Busy && r.state == v.state &&
      r.size == v.size && r.position == v.position && r.zoomTarget == v.zoomTarget && r.panning == v.panning
  {
    if v.lock == Busy || v.state == FullView then v
    else BeginTransitionStep(PushCurrent(v), s.originalSize, s.originalPosition, FullView, true)
  }

  /** Into free movement, at once and without saving anything. */
  function SetFreeViewStep(v: View): (r: View)
    ensures v.lock == Busy || v.state == FreeMovement ==> r == v
    ensures v.lock == Free && v.state != FreeMovement ==> r == v.(state := FreeMovement)
  {
    if v.lock == Busy || v.state == FreeMovement then v else v.(state := FreeMovement)
  }

  /** The full-view key: save the framing, whatever the lock, then ask for the full view. */
  function FullViewKeyStep(v: View, s: Settings): (r: View)
    ensures r == SetFullViewStep(PushCurrent(v), s)
    ensures v.lock == Busy || v.state == FullView ==> r == PushCurrent(v)
  {
    SetFullViewStep(PushCurrent(v), s)
  }

  /** The start of a pan, handled only in free movement: save the framing and
      take the lock. */
  function PanStartStep(v: View): (r: View)
    ensures v.state != FreeMovement ==> r == v
    ensures v.state == FreeMovement ==> r == PushCurrent(v).(panning := true, lock := Busy)
  {
    if v.state == FreeMovement then PushCurrent(v).(panning := true, lock := Busy) else v
  }

  /** Pressing the middle button: switch to free movement, then start a pan. */
  function MiddleButtonDownStep(v: View): (r: View)
    ensures v.lock == Busy && v.state != FreeMovement ==> r == v
    ensures v.lock == Free && v.state != FreeMovement ==>
      r == PushCurrent(v.(state := FreeMovement)).(panning := true, lock := Busy)
    ensures v.state == FreeMovement ==> r == PushCurrent(v).(panning := true, lock := Busy)
  {
    PanStartStep(SetFreeViewStep(v))
  }

  /** Dragging with the middle button held: the camera moves by the world-space
      offset of the cursor, while a pan is on in free movement. */
  function PanDragStep(v: View, diff: Vec3): (r: View)
    ensures !(v.state == FreeMovement && v.panning) ==> r == v
    ensures v.state == FreeMovement && v.panning ==>
      r == v.(position := Vec3(v.position.x + diff.x, v.position.y + diff.y, v.position.z + diff.z))
  {
    if v.state == FreeMovement && v.panning
    then v.(position := Vec3(v.position.x + diff.x, v.position.y + diff.y, v.position.z + diff.z))
    else v
  }

  /** Releasing the middle button in free movement ends the pan and frees the lock. */
  function PanReleaseStep(v: View): (r: View)
    ensures v.state != FreeMovement ==> r == v
    ensures v.state == FreeMovement ==> r == v.(lock := Free, panning := false)
  {
    if v.state == FreeMovement then v.(lock := Free, panning := false) else v
  }

  /** The history after saving the records of `rs` in order. */
  function PushAll(h: seq<CameraStateRecord>, rs: seq<CameraStateRecord>): seq<CameraStateRecord>
    decreases |rs|
  {
    if rs == [] then h else Push(PushAll(h, rs[..|rs| - 1]), rs[|rs| - 1])
  }

  lemma LastNAppend<T>(s: seq<T>, x: T, n: nat)
    requires n > 0
    ensures LastN(LastN(s, n) + [x], n) == LastN(s + [x], n)
  {
    if |s| > n {
      assert (s[|s| - n..] + [x])[1..] == (s + [x])[|s| + 1 - n..];
    }
  }

  /** The history keeps the most recent records, oldest first: after any
      pushes it holds the last ten records of what it held followed by
      what was pushed. */
  lemma {:induction false} PushAllKeepsLast(h: seq<CameraStateRecord>, rs: seq<CameraStateRecord>)
    requires |h| <= MaxHistory
    ensures PushAll(h, rs) == LastN(h + rs, MaxHistory)
    decreases |rs|
  {
    if rs != [] {
      var init := rs[..|rs| - 1];
      var x := rs[|rs| - 1];
      PushAllKeepsLast(h, init);
      var prev := PushAll(h, init);
      assert |prev| <= MaxHistory;
      calc {
        PushAll(h, rs);
        Push(prev, x);
        LastN(prev + [x], MaxHistory);
        { LastNAppend(h + init, x, MaxHistory); }
        LastN((h + init) + [x], MaxHistory);
        { assert (h + init) + [x] == h + rs; }
        LastN(h + rs, MaxHistory);
      }
    }
  }

  /** Pushing twelve records on an empty history keeps the last ten, in order. */
  lemma TwelvePushes(rs: seq<CameraStateRecord>)
    requires |rs| == 12
    ensures PushAll([], rs) == rs[2..]
  {
    PushAllKeepsLast([], rs);
    assert [] + rs == rs;
  }

  /** Zooming on a point and then on the same point again, each zoom run to
      its end, gives back the history and the framing from before the first
      zoom. */
  lemma ZoomTwiceRestores(v: View, s: Settings, p: Vec3)
    requires v.lock == Free && v.state != Zoomed && v.pending == []
    requires |v.history| < MaxHistory
    ensures
      var v2 := CompleteTransitionStep(ToggleZoomStep(v, s, p));
      var v4 := CompleteTransitionStep(ToggleZoomStep(v2, s, p));
      v4.history == v.history && v4.state == v.state && v4.size == v.size &&
      v4.position == v.position && v4.lock == Free && v4.pending == []
  {
    var v1 := ToggleZoomStep(v, s, p);
    assert v1.history == v.history + [CurrentRecord(v)];
    var v2 := CompleteTransitionStep(v1);
    assert v2.state == Zoomed && v2.zoomTarget == ZoomPoint(p);
    var v3 := ToggleZoomStep(v2, s, p);
    assert v3 == UndoStep(v2);
    assert v2.history[..|v2.history| - 1] == v.history;
  }

  /** With a full history the same double zoom comes back to the same framing,
      but the oldest record has been evicted. */
  lemma ZoomTwiceWhenFull(v: View, s: Settings, p: Vec3)
    requires v.lock == Free && v.state != Zoomed && v.pending == []
    requires |v.history| == MaxHistory
    ensures
      var v2 := CompleteTransitionStep(ToggleZoomStep(v, s, p));
      var v4 := CompleteTransitionStep(ToggleZoomStep(v2, s, p));
      v4.history == v.history[1..] && v4.state == v.state && v4.size == v.size &&
      v4.position == v.position && v4.lock == Free
  {
    var v1 := ToggleZoomStep(v, s, p);
    assert v1.history == v.history[1..] + [CurrentRecord(v)];
    var v2 := CompleteTransitionStep(v1);
    var v3 := ToggleZoomStep(v2, s, p);
    assert v3 == UndoStep(v2);
    assert v2.history[..|v2.history| - 1] == v.history[1..];
  }

  /** The events the camera reacts to. */
  datatype CameraEvent =
    | ZoomClick(p: Vec3)
    | UndoKey
    | FullViewPress
    | FullViewCall
    | FreeViewCall
    | MiddleDown
    | MiddleDrag(diff: Vec3)
    | MiddleUp
    | TransitionEnds

  function ApplyEvent(v: View, s: Settings, e: CameraEvent): View {
    match e
    case ZoomClick(p) => ToggleZoomStep(v, s, p)
    case UndoKey => UndoStep(v)
    case FullViewPress => FullViewKeyStep(v, s)
    case FullViewCall => SetFullViewStep(v, s)
    case FreeViewCall => SetFreeViewStep(v)
    case MiddleDown => MiddleButtonDownStep(v)
    case MiddleDrag(diff) => PanDragStep(v, diff)
    case MiddleUp => PanReleaseStep(v)
    case TransitionEnds => if v.pending != [] then CompleteTransitionStep(v) else v
  }

  function Run(v: View, s: Settings, es: seq<CameraEvent>): View
    decreases |es|
  {
    if es == [] then v else ApplyEvent(Run(v, s, es[..|es| - 1]), s, es[|es| - 1])
  }

  /** Every single event keeps the history within its capacity. */
  lemma StepBounded(v: View, s: Settings, e: CameraEvent)
    requires |v.history| <= MaxHistory
    ensures |ApplyEvent(v, s, e).history| <= MaxHistory
  {
    match e
    case FullViewPress =>
      assert |PushCurrent(v).history| <= MaxHistory;
    case MiddleDown =>
      assert |SetFreeViewStep(v).history| <= MaxHistory;
    case _ =>
  }

  /** For any sequence of events the history never holds more than ten records. */
  lemma {:induction false} RunBounded(v: View, s: Settings, es: seq<CameraEvent>)
    requires |v.history| <= MaxHistory
    ensures |Run(v, s, es).history| <= MaxHistory
    decreases |es|
  {
    if es != [] {
      RunBounded(v, s, es[..|es| - 1]);
      StepBounded(Run(v, s, es[..|es| - 1]), s, es[|es| - 1]);
    }
  }

  /** The lock does not keep transitions apart: in free movement, a pan
      started and released while a zoom is in flight frees the lock, and a
      second zoom click then queues a second transition beside the first. */
  lemma ReleaseLetsTransitionsOverlap(s: Settings, p: Vec3, q: Vec3)
    ensures var v1 := ToggleZoomStep(SetFreeViewStep(InitialView(s)), s, p);
            var v2 := ToggleZoomStep(PanReleaseStep(MiddleButtonDownStep(v1)), s, q);
            v1.lock == Busy && |v1.pending| == 1 && |v2.pending| == 2
  {
  }

  /** The camera controller. */
  class CameraController {
    const settings: Settings
    var currentState: CameraState
    var currentStateInteraction: CameraStateInteraction
    var stateHistory: seq<CameraStateRecord>
    var currentZoomTarget: Vec3
    var orthographicSize: real
    var position: Vec3
    var isPanning: bool
    var transitions: seq<Transition>

    function Model(): View
      reads this
    {
      View(currentState, currentStateInteraction, stateHistory, currentZoomTarget,
           orthographicSize, position, isPanning, transitions)
    }

    ghost predicate Valid()
      reads this
    {
      |stateHistory| <= MaxHistory
    }

    /** Set-up with the starting framing; asking for the full view right after
        changes nothing, since the camera already is in full view. */
    constructor (s: Settings)
      ensures settings == s && Model() == InitialView(s) && Valid()
    {
      settings := s;
      currentState := FullView;
      currentStateInteraction := Free;
      stateHistory := [];
      currentZoomTarget := Vec3(0.0, 0.0, 0.0);
      orthographicSize := s.originalSize;
      position := s.originalPosition;
      isPanning := false;
      transitions := [];
    }

    method PushCurrentState()
      requires Valid()
      modifies this
      ensures Valid() && Model() == PushCurrent(old(Model()))
    {
      if |stateHistory| >= MaxHistory {
        stateHistory := stateHistory[1..];
      }
      stateHistory := stateHistory + [CameraStateRecord(currentState, orthographicSize, position)];
    }

    /** The start of a transition (the part of the animation before its first frame). */
    method BeginTransition(targetSize: real, targetPos: Vec3, newState: CameraState, needSave: bool)
      requires Valid()
      modifies this
      ensures Valid() && Model() == BeginTransitionStep(old(Model()), targetSize, targetPos, newState, needSave)
    {
      if needSave {
        PushCurrentState();
      }
      currentStateInteraction := Busy;
      transitions := transitions + [Transition(targetSize, targetPos, newState)];
    }

    /** The end of the oldest transition in flight (the part after its last frame). */
    method CompleteTransition()
      requires Valid() && transitions != []
      modifies this
      ensures Valid() && Model() == CompleteTransitionStep(old(Model()))
    {
      var t := transitions[0];
      transitions := transitions[1..];
      orthographicSize := t.targetSize;
      currentZoomTarget := t.targetPos;
      position := currentZoomTarget;
      currentState := t.newState;
      currentStateInteraction := Free;
    }

    method UndoLastAction()
      requires Valid()
      modifies this
      ensures Valid() && Model() == UndoStep(old(Model()))
    {
      if |stateHistory| > 0 && currentStateInteraction == Free {
        var previous := stateHistory[|stateHistory| - 1];
        stateHistory := stateHistory[..|stateHistory| - 1];
        BeginTransition(previous.orthographicSize, previous.position, previous.state, false);
      }
    }

    method ToggleZoom(targetPosition: Vec3)
      requires Valid()
      modifies this
      ensures Valid() && Model() == ToggleZoomStep(old(Model()), settings, targetPosition)
    {
      if currentStateInteraction == Busy {
        return;
      }
      var newTarget := Vec3(targetPosition.x, targetPosition.y, -10.0);
      if currentState != Zoomed {
        BeginTransition(settings.zoomedSize, newTarget, Zoomed, true);
      } else if currentZoomTarget == newTarget {
        UndoLastAction();
      } else {
        BeginTransition(settings.zoomedSize, newTarget, Zoomed, false);
      }
    }

    method SetFullView()
      requires Valid()
      modifies this
      ensures Valid() && Model() == SetFullViewStep(old(Model()), settings)
    {
      if currentStateInteraction == Busy || currentState == FullView {
        return;
      }
      PushCurrentState();
      BeginTransition(settings.originalSize, settings.originalPosition, FullView, true);
    }

    method SetFreeView()
      requires Valid()
      modifies this
      ensures Valid() && Model() == SetFreeViewStep(old(Model()))
    {
      if currentStateInteraction == Busy || currentState == FreeMovement {
        return;
      }
      currentState := FreeMovement;
    }

    /** The full-view key. */
    method OnFullViewKey()
      requires Valid()
      modifies this
      ensures Valid() && Model() == FullViewKeyStep(old(Model()), settings)
    {
      PushCurrentState();
      SetFullView();
    }

    /** The middle button goes down: free movement, then the start of a pan. */
    method OnMiddleButtonDown()
      requires Valid()
      modifies this
      ensures Valid() && Model() == MiddleButtonDownStep(old(Model()))
    {
      SetFreeView();
      if currentState == FreeMovement {
        isPanning := true;
        PushCurrentState();
        currentStateInteraction := Busy;
      }
    }

    /** The middle button is held; `diff` is the cursor's world-space offset. */
    method OnMiddleButtonHeld(diff: Vec3)
      requires Valid()
      modifies this
      ensures Valid() && Model() == PanDragStep(old(Model()), diff)
    {
      if currentState == FreeMovement && isPanning {
        position := Vec3(position.x + diff.x, position.y + diff.y, position.z + diff.z);
      }
    }

    /** The middle button goes up. */
    method OnMiddleButtonUp()
      requires Valid()
      modifies this
      ensures Valid() && Model() == PanReleaseStep(old(Model()))
    {
      if currentState == FreeMovement {
        currentStateInteraction := Free;
        isPanning := false;
      }
    }
  }
}
