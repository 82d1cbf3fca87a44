/**
 * The carousel component's shared state as one object: each field stands
 * for one atom (or the mount ref), each handler and effect is a method
 * that updates the fields in place, and the render step only reads them.
 */
module Controller {
  import opened Wrappers
  import opened Js
  import opened Movement
  import opened Layout
  import Carousel

  class CarouselController {
    var slideMovement: SlideMovement
    var transitionEnabled: bool
    var trackStyles: TrackStyles
    var trackWidth: Num
    var isInitialMount: bool
    /** The indices passed to `onChange`, oldest first. */
    ghost var changes: seq<int>

    /** The fields as one value of the state machine. */
    ghost function Snapshot(): Carousel.State
      reads this
    {
      Carousel.State(slideMovement, transitionEnabled, trackStyles, trackWidth, isInitialMount, changes)
    }

    /** The component as mounted: the atoms hold the given starting values and the `value` effect has not run. */
    constructor (movement: SlideMovement, transitionOn: bool, styles: TrackStyles, width: Num)
      ensures Snapshot() == Carousel.State(movement, transitionOn, styles, width, true, [])
    {
      slideMovement := movement;
      transitionEnabled := transitionOn;
      trackStyles := styles;
      trackWidth := width;
      isInitialMount := true;
      changes := [];
    }

    method OnMouseMove(pageX: int)
      modifies this
      ensures Snapshot() == Carousel.OnMouseMove(old(Snapshot()), pageX)
    {
      if InSession(slideMovement) {
        transitionEnabled := false;
        slideMovement := Dragged(slideMovement, pageX);
        transitionEnabled := true;
      }
    }

    method OnMouseDown(index: int, pageX: int)
      modifies this
      ensures Snapshot() == Carousel.OnMouseDown(old(Snapshot()), index, pageX)
    {
      slideMovement := MouseDownOn(slideMovement, index, pageX);
    }

    method OnTouchStart(index: int, pageX: int)
      modifies this
      ensures Snapshot() == Carousel.OnTouchStart(old(Snapshot()), index, pageX)
    {
      slideMovement := TouchStartOn(index, pageX);
    }

    method OnMouseUpTouchEnd(draggable: bool, nearestSlideIndex: int)
      modifies this
      ensures Snapshot() == Carousel.OnMouseUpTouchEnd(old(Snapshot()), draggable, nearestSlideIndex)
    {
      if InSession(slideMovement) {
        if draggable {
          transitionEnabled := true;
          changes := changes + [nearestSlideIndex];
        }
        slideMovement := Idle();
      }
    }

    /** Runs when the `value` prop changes (and once at mount). */
    method OnValueChange()
      modifies this
      ensures Snapshot() == Carousel.OnValueChanged(old(Snapshot()))
    {
      if isInitialMount {
        isInitialMount := false;
      } else {
        transitionEnabled := true;
      }
    }

    /** Runs when the measured container width changes; `offsetWidth` is `undefined` before it is measured. */
    method OnOffsetWidthChange(offsetWidth: Num, childCount: nat)
      modifies this
      ensures Snapshot() == Carousel.OnOffsetWidthChanged(old(Snapshot()), offsetWidth, childCount)
    {
      trackWidth := TrackWidth(offsetWidth, childCount);
    }

    method OnTransformOffsetChange(transformOffset: Num)
      modifies this
      ensures Snapshot() == Carousel.OnTransformOffsetChanged(old(Snapshot()), transformOffset)
    {
      trackStyles := WithTransform(trackStyles, transformOffset);
    }

    /**
     * The render step for the track: its style, whether it is draggable,
     * and the items it lists. It changes nothing.
     */
    method RenderCarouselItems<T>(slides: seq<Option<T>>, childCount: nat, activeSlideIndex: Num, slideWidth: Num,
                                  threshold: int, animationSpeed: Num, props: ItemProps)
      returns (style: TrackStyle, draggable: bool, items: seq<ItemView<T>>)
      ensures style == CurrentTrackStyles(trackWidth, transitionEnabled, animationSpeed, trackStyles)
      ensures draggable == DraggableFlag(props.draggable, childCount)
      ensures items == CarouselItems(slides, activeSlideIndex, slideWidth, slideMovement.dragOffset, threshold, props)
    {
      draggable := DraggableFlag(props.draggable, childCount);
      style := CurrentTrackStyles(trackWidth, transitionEnabled, animationSpeed, trackStyles);
      items := CarouselItems(slides, activeSlideIndex, slideWidth, slideMovement.dragOffset, threshold, props);
    }
  }

  /** A drag session driven through the object: one `onChange`, and the record is reset. */
  method DragThroughController(nearest: int) returns (c: CarouselController)
    ensures c.changes == [nearest] && c.slideMovement == Idle() && c.transitionEnabled
  {
    c := new CarouselController(Idle(), false, TrackStyles(Int(0), Int(0), Int(0)), Undefined);
    c.OnMouseDown(2, 100);
    c.OnMouseMove(140);
    assert c.slideMovement.dragOffset == Some(40);
    c.OnMouseUpTouchEnd(true, nearest);
    c.OnMouseUpTouchEnd(true, nearest);
  }
}
