/** The drag/click session record (the `slideMovement` atom) and how each pointer event rewrites it. */
module Movement {
  import opened Wrappers

  /**
   * The session record: the index of the item the session started on,
   * the pointer's starting pageX, and, once the pointer has moved, how far
   * it has moved and where it is now. A key the record lacks is `None`.
   */
  datatype SlideMovement = SlideMovement(
    clicked: Option<int>,
    dragStart: int,
    dragOffset: Option<int>,
    dragEnd: Option<int>)

  /** The record every ended session leaves behind: no item, no start, a zero offset, no end. */
  function Idle(): (r: SlideMovement)
    ensures r.clicked.None? && r.dragStart == 0 && r.dragOffset == Some(0) && r.dragEnd.None?
    ensures !InSession(r)
  {
    SlideMovement(None, 0, Some(0), None)
  }

  /**
   * A session is open exactly when `dragStart` is not 0. A drag that
   * really starts at pageX 0 is therefore never seen as a session.
   */
  predicate InSession(m: SlideMovement)
    ensures InSession(m) <==> m.dragStart != 0
  {
    m.dragStart != 0
  }

  /** Mouse-move inside a session: the offset from the start and the current position. */
  function Dragged(m: SlideMovement, pageX: int): (r: SlideMovement)
    ensures r.dragEnd == Some(pageX) && r.dragOffset == Some(pageX - m.dragStart)
    ensures r.clicked == m.clicked && r.dragStart == m.dragStart
  {
    m.(dragOffset := Some(pageX - m.dragStart), dragEnd := Some(pageX))
  }

  /** Mouse-down merges the new item and start into the record and keeps every other key. */
  function MouseDownOn(m: SlideMovement, index: int, pageX: int): (r: SlideMovement)
    ensures r.clicked == Some(index) && r.dragStart == pageX
    ensures r.dragOffset == m.dragOffset && r.dragEnd == m.dragEnd
  {
    m.(clicked := Some(index), dragStart := pageX)
  }

  /** Touch-start replaces the record with one that has only the item and the start. */
  function TouchStartOn(index: int, pageX: int): (r: SlideMovement)
    ensures r.clicked == Some(index) && r.dragStart == pageX
    ensures r.dragOffset.None? && r.dragEnd.None?
  {
    SlideMovement(Some(index), pageX, None, None)
  }

  /** When the record knows both the offset and the end, the offset is the end's distance from the start. */
  predicate Tracked(m: SlideMovement) {
    m.dragOffset.Some? && m.dragEnd.Some? ==> m.dragOffset.value == m.dragEnd.value - m.dragStart
  }

  /** An item is recorded as clicked only while a session is open. */
  predicate Tidy(m: SlideMovement) {
    !InSession(m) ==> m.clicked.None?
  }
}
