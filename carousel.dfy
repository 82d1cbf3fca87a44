/**
 * The carousel's state machine: the state its handlers and effects
 * share, one step function per handler and effect, and what runs of
 * events do to that state.
 */
module Carousel {
  import opened Wrappers
  import opened Js
  import opened Movement
  import opened Layout

  /**
   * What the handlers and effects read and write: the session record,
   * whether track transitions are on, the stored track style, the track
   * width, whether the `value` effect has yet to run, and the indices
   * passed to `onChange` so far, oldest first.
   */
  datatype State = State(
    movement: SlideMovement,
    transitionEnabled: bool,
    trackStyles: TrackStyles,
    trackWidth: Num,
    isInitialMount: bool,
    changes: seq<int>)

  /** An event the component reacts to, with the props the reaction reads. */
  datatype Event =
    | MouseMove(pageX: int)
    | MouseDown(index: int, pageX: int)
    | TouchStart(index: int, pageX: int)
    | MouseUpTouchEnd(draggable: bool, nearestSlideIndex: int)
    | ValueChanged
    | OffsetWidthChanged(offsetWidth: Num, childCount: nat)
    | TransformOffsetChanged(transformOffset: Num)

  /** Did `r` leave the track style, track width and mount flag of `s` alone? */
  predicate SameLayout(s: State, r: State) {
    r.trackStyles == s.trackStyles && r.trackWidth == s.trackWidth && r.isInitialMount == s.isInitialMount
  }

  /**
   * Mouse-move. Without a session nothing changes. Inside one, the
   * record gets the pointer's offset and position, and transitions end up
   * on (they are switched off and on again around the update).
   */
  function OnMouseMove(s: State, pageX: int): (r: State)
    ensures !InSession(s.movement) ==> r == s
    ensures InSession(s.movement) ==> r.movement == Dragged(s.movement, pageX) && r.transitionEnabled
    ensures r.changes == s.changes && SameLayout(s, r)
  {
    if InSession(s.movement) then s.(movement := Dragged(s.movement, pageX), transitionEnabled := true) else s
  }

  /** Mouse-down on item `index` at `pageX`: a session starts; only the record changes. */
  function OnMouseDown(s: State, index: int, pageX: int): (r: State)
    ensures r.movement == MouseDownOn(s.movement, index, pageX)
    ensures r.transitionEnabled == s.transitionEnabled && r.changes == s.changes && SameLayout(s, r)
  {
    s.(movement := MouseDownOn(s.movement, index, pageX))
  }

  /** Touch-start on item `index` at `pageX`: a session starts; only the record changes. */
  function OnTouchStart(s: State, index: int, pageX: int): (r: State)
    ensures r.movement == TouchStartOn(index, pageX)
    ensures r.transitionEnabled == s.transitionEnabled && r.changes == s.changes && SameLayout(s, r)
  {
    s.(movement := TouchStartOn(index, pageX))
  }

  /**
   * Mouse-up or touch-end. Without a session nothing changes. Inside
   * one, a draggable carousel switches transitions on and asks for the
   * nearest slide exactly once; either way the session record is reset.
   */
  function OnMouseUpTouchEnd(s: State, draggable: bool, nearestSlideIndex: int): (r: State)
    ensures !InSession(s.movement) ==> r == s
    ensures InSession(s.movement) ==>
      && r.movement == Idle()
      && r.changes == s.changes + (if draggable then [nearestSlideIndex] else [])
      && r.transitionEnabled == (draggable || s.transitionEnabled)
    ensures SameLayout(s, r)
  {
    if !InSession(s.movement) then s
    else if draggable then s.(transitionEnabled := true, changes := s.changes + [nearestSlideIndex], movement := Idle())
    else s.(movement := Idle())
  }

  /** The `value` effect: its first run only clears the mount flag; every later run switches transitions on. */
  function OnValueChanged(s: State): (r: State)
    ensures !r.isInitialMount
    ensures r.transitionEnabled == (s.transitionEnabled || !s.isInitialMount)
    ensures r.movement == s.movement && r.changes == s.changes
    ensures r.trackStyles == s.trackStyles && r.trackWidth == s.trackWidth
  {
    if s.isInitialMount then s.(isInitialMount := false) else s.(transitionEnabled := true)
  }

  /** The container-width effect: the track width is recomputed; nothing else changes. */
  function OnOffsetWidthChanged(s: State, offsetWidth: Num, childCount: nat): (r: State)
    ensures r.trackWidth == TrackWidth(offsetWidth, childCount)
    ensures r.movement == s.movement && r.transitionEnabled == s.transitionEnabled && r.changes == s.changes
    ensures r.trackStyles == s.trackStyles && r.isInitialMount == s.isInitialMount
  {
    s.(trackWidth := TrackWidth(offsetWidth, childCount))
  }

  /** The `transformOffset` effect: only the stored transform changes. */
  function OnTransformOffsetChanged(s: State, transformOffset: Num): (r: State)
    ensures r.trackStyles == WithTransform(s.trackStyles, transformOffset)
    ensures r.movement == s.movement && r.transitionEnabled == s.transitionEnabled && r.changes == s.changes
    ensures r.trackWidth == s.trackWidth && r.isInitialMount == s.isInitialMount
  {
    s.(trackStyles := WithTransform(s.trackStyles, transformOffset))
  }

  function Step(s: State, e: Event): State {
    match e
    case MouseMove(x) => OnMouseMove(s, x)
    case MouseDown(i, x) => OnMouseDown(s, i, x)
    case TouchStart(i, x) => OnTouchStart(s, i, x)
    case MouseUpTouchEnd(d, n) => OnMouseUpTouchEnd(s, d, n)
    case ValueChanged => OnValueChanged(s)
    case OffsetWidthChanged(w, c) => OnOffsetWidthChanged(s, w, c)
    case TransformOffsetChanged(t) => OnTransformOffsetChanged(s, t)
  }

  /** The state after the events `evs`, delivered one at a time in order. */
  function Run(s: State, evs: seq<Event>): State
    decreases |evs|
  {
    if evs == [] then s else Run(Step(s, evs[0]), evs[1..])
  }

  /** The number of events in `evs` that open a session: a mouse-down or touch-start away from pageX 0. */
  function Openings(evs: seq<Event>): nat {
    if evs == [] then 0
    else (if Opens(evs[0]) then 1 else 0) + Openings(evs[1..])
  }

  predicate Opens(e: Event) {
    (e.MouseDown? || e.TouchStart?) && e.pageX != 0
  }

  /** The slide indices that the session-ending events of `evs` would ask for. */
  ghost function Requests(evs: seq<Event>): set<int> {
    set e | e in evs && e.MouseUpTouchEnd? && e.draggable :: e.nearestSlideIndex
  }

  function OpenSessions(s: State): nat {
    if InSession(s.movement) then 1 else 0
  }

  /** A second end right after an end does nothing. */
  lemma EndIsIdempotent(s: State, draggable: bool, nearest: int, draggable': bool, nearest': int)
    ensures var t := OnMouseUpTouchEnd(s, draggable, nearest);
      OnMouseUpTouchEnd(t, draggable', nearest') == t
  {
  }

  /**
   * At most one `onChange` per session: the requests made by a run are no
   * more than the sessions it opens, plus one for a session already open.
   */
  lemma {:induction false} AtMostOneChangePerSession(s: State, evs: seq<Event>)
    ensures |Run(s, evs).changes| + OpenSessions(Run(s, evs)) <= |s.changes| + OpenSessions(s) + Openings(evs)
    ensures |Run(s, evs).changes| <= |s.changes| + OpenSessions(s) + Openings(evs)
    decreases |evs|
  {
    if evs != [] {
      var t := Step(s, evs[0]);
      AtMostOneChangePerSession(t, evs[1..]);
      assert |t.changes| + OpenSessions(t) <= |s.changes| + OpenSessions(s) + (if Opens(evs[0]) then 1 else 0);
    }
  }

  /**
   * Only a session end asks for a slide change: a run keeps the earlier
   * requests and every request it adds is the nearest slide index of one
   * of its session-ending events on a draggable carousel.
   */
  lemma {:induction false} ChangesComeFromEnds(s: State, evs: seq<Event>)
    ensures s.changes <= Run(s, evs).changes
    ensures forall i :: |s.changes| <= i < |Run(s, evs).changes| ==> Run(s, evs).changes[i] in Requests(evs)
    decreases |evs|
  {
    if evs != [] {
      var t := Step(s, evs[0]);
      ChangesComeFromEnds(t, evs[1..]);
      assert Requests(evs[1..]) <= Requests(evs) by {
        forall e | e in evs[1..] ensures e in evs { }
      }
      if |t.changes| > |s.changes| {
        assert t.changes[|s.changes|] in Requests(evs);
      }
    }
  }

  /** A run whose session ends all happen on a non-draggable carousel never calls `onChange`. */
  lemma {:induction false} NoChangeWithoutDrag(s: State, evs: seq<Event>)
    requires forall k :: 0 <= k < |evs| && evs[k].MouseUpTouchEnd? ==> !evs[k].draggable
    ensures Run(s, evs).changes == s.changes
    decreases |evs|
  {
    if evs != [] {
      NoChangeWithoutDrag(Step(s, evs[0]), evs[1..]);
    }
  }

  /**
   * Every step other than mouse-down keeps the offset consistent with the
   * pointer position, and every step that does not start at pageX 0 keeps
   * `clicked` empty outside a session.
   */
  lemma StepKeepsRecordConsistent(s: State, e: Event)
    ensures Tracked(s.movement) && !e.MouseDown? ==> Tracked(Step(s, e).movement)
    ensures Tidy(s.movement) && !((e.MouseDown? || e.TouchStart?) && e.pageX == 0) ==> Tidy(Step(s, e).movement)
  {
  }

  /** Mouse-down keeps an earlier offset, so a restarted session's offset no longer matches its start. */
  lemma MouseDownKeepsStaleOffset()
    ensures var s := State(SlideMovement(Some(1), 100, Some(40), Some(140)), true, TrackStyles(Int(0), Int(0), Int(0)), Int(0), false, []);
      && Tracked(s.movement)
      && var r := OnMouseDown(s, 2, 50);
         r.movement.dragOffset == Some(40) && !Tracked(r.movement) && IsDragging(r.movement.dragOffset, 10)
  {
  }

  /** A mouse-down at pageX 0 during a session ends it without an `onChange`; the following end does nothing. */
  lemma MouseDownAtZeroEndsSession(s: State, index: int, draggable: bool, nearest: int)
    requires InSession(s.movement)
    ensures var r := Run(s, [MouseDown(index, 0), MouseUpTouchEnd(draggable, nearest)]);
      r.changes == s.changes && !InSession(r.movement) && r.movement.clicked == Some(index)
  {
    var t := Step(s, MouseDown(index, 0));
    assert Run(s, [MouseDown(index, 0), MouseUpTouchEnd(draggable, nearest)]) == Run(t, [MouseUpTouchEnd(draggable, nearest)]);
    assert Run(t, [MouseUpTouchEnd(draggable, nearest)]) == Run(Step(t, MouseUpTouchEnd(draggable, nearest)), []);
  }

  /** A session that starts at pageX 0 is not seen: the clicked item is recorded, but the end does nothing. */
  lemma StartAtZeroIsNoSession(s: State, index: int, draggable: bool, nearest: int)
    ensures var t := OnMouseDown(s, index, 0);
      && !InSession(t.movement) && t.movement.clicked == Some(index) && !Tidy(t.movement)
      && OnMouseUpTouchEnd(t, draggable, nearest) == t
  {
  }

  /**
   * A whole session: mouse-down on item 2 at pageX 100 and a move to 140
   * give an offset of 40, which is a drag for a threshold of 10; the end
   * then asks once for the nearest slide and resets the record.
   */
  lemma DragSession(s: State, nearest: int)
    ensures var moved := Run(s, [MouseDown(2, 100), MouseMove(140)]);
      && moved.movement.clicked == Some(2)
      && moved.movement.dragOffset == Some(40)
      && IsDragging(moved.movement.dragOffset, 10)
      && var ended := Step(moved, MouseUpTouchEnd(true, nearest));
         ended.changes == s.changes + [nearest] && ended.movement == Idle() && ended.transitionEnabled
  {
    var down := Step(s, MouseDown(2, 100));
    var moved := Step(down, MouseMove(140));
    assert Run(s, [MouseDown(2, 100), MouseMove(140)]) == Run(down, [MouseMove(140)]);
    assert Run(down, [MouseMove(140)]) == Run(moved, []);
  }

  /** `n` runs of the `value` effect. */
  function ValueChanges(n: nat): seq<Event> {
    if n == 0 then [] else [ValueChanged] + ValueChanges(n - 1)
  }

  /**
   * After the `value` effect has run `n >= 1` times the mount flag is
   * clear and nothing but the transition flag changed; from a fresh mount
   * the transition flag is switched on only by the second and later runs.
   */
  lemma {:induction false} ValueChangesAfterMount(s: State, n: nat)
    requires n >= 1
    ensures var r := Run(s, ValueChanges(n));
      && !r.isInitialMount
      && r.transitionEnabled == (s.transitionEnabled || !s.isInitialMount || n >= 2)
      && r.movement == s.movement && r.changes == s.changes
      && r.trackStyles == s.trackStyles && r.trackWidth == s.trackWidth
    decreases n
  {
    var t := Step(s, ValueChanged);
    assert Run(s, ValueChanges(n)) == Run(t, ValueChanges(n - 1));
    if n >= 2 {
      ValueChangesAfterMount(t, n - 1);
    }
  }
}
